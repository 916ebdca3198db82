/**
 * Redelivery. Stripe may deliver an event more than once. Every update the
 * handlers make is an overwrite with fixed values on rows chosen by a column
 * the update does not write, so a second delivery of the same subscription or
 * invoice event (at the same instant, with no store errors) changes nothing.
 * checkout.session.completed is the exception on the squad path: each
 * delivery inserts another squad, after which the subscription's squad can no
 * longer be found and later events fall through to the individual path.
 */
module Replay {
  import opened Common
  import opened SquadCodes
  import opened LineItems
  import opened Entitlements
  import opened Reconcile

  /** The update does not write the column its filter compares, so the same rows match before and after. */
  predicate KeepsFilterColumn(f: UserFilter, p: UserPatch)
  {
    match f
    case UserIdIs(_) => true
    case SubscriptionIs(_) => p.stripeSubscriptionId.Keep?
    case CustomerIs(_) => p.stripeCustomerId.Keep?
    case SquadIs(_) => p.squadId.Keep?
  }

  /** Applying the same user update twice is applying it once. */
  lemma PatchUsersTwice(users: map<UserId, UserRow>, f: UserFilter, p: UserPatch)
    requires KeepsFilterColumn(f, p)
    ensures PatchUsers(PatchUsers(users, f, p), f, p) == PatchUsers(users, f, p)
  {
    var once := PatchUsers(users, f, p);
    var twice := PatchUsers(once, f, p);
    forall u | u in users
      ensures twice[u] == once[u]
    {
      if Selects(f, u, users[u]) {
        assert once[u] == p.ApplyTo(users[u]);
        assert Selects(f, u, once[u]);
      } else {
        assert once[u] == users[u];
      }
    }
  }

  /** Applying the same squad update twice is applying it once. */
  lemma PatchSquadsTwice(squads: map<SquadId, Squad>, subscriptionId: string, p: SquadPatch)
    ensures PatchSquads(PatchSquads(squads, subscriptionId, p), subscriptionId, p) == PatchSquads(squads, subscriptionId, p)
  {
    var once := PatchSquads(squads, subscriptionId, p);
    var twice := PatchSquads(once, subscriptionId, p);
    forall id | id in squads
      ensures twice[id] == once[id]
    {
      if squads[id].stripeSubscriptionId == Some(subscriptionId) {
        assert once[id] == p.ApplyTo(squads[id]);
      } else {
        assert once[id] == squads[id];
      }
    }
  }

  /** A squad update followed by the member cascade, applied twice, is applied once. */
  lemma SquadThenCascadeTwice(db: Db, subscriptionId: string, p: SquadPatch, squadId: SquadId, status: string, now: int)
    ensures var once := CascadeStatus(db.(squads := PatchSquads(db.squads, subscriptionId, p)), squadId, status, now, false);
      CascadeStatus(once.(squads := PatchSquads(once.squads, subscriptionId, p)), squadId, status, now, false) == once
  {
    PatchSquadsTwice(db.squads, subscriptionId, p);
    PatchUsersTwice(db.users, SquadIs(squadId), NO_USER_CHANGE.(subscriptionStatus := Put(status), updatedAt := Put(Some(now))));
  }

  /** A customer.subscription.updated delivered twice at the same instant, with no store errors either time, changes nothing the first did not. */
  lemma {:induction false} UpdatedIsIdempotent(db: Db, sub: Subscription, now: int, faults: Faults)
    requires !faults.first && !faults.second
    ensures var first := OnSubscriptionUpdated(db, sub, now, faults);
      OnSubscriptionUpdated(first.db, sub, now, faults) == first
  {
    var first := OnSubscriptionUpdated(db, sub, now, faults);
    var found := SquadLookup(db.squads, sub.id);
    var stamp := CancelStamp(sub, now);
    match BranchOf(sub)
    case ImmediateCancel =>
      if found.Some? {
        var p := NO_SQUAD_CHANGE.(subscriptionStatus := Put(CANCELED), canceledAt := Put(Some(stamp)), updatedAt := Put(Some(now)));
        PatchKeepsLookup(db.squads, sub.id, p, sub.id);
        SquadThenCascadeTwice(db, sub.id, p, found.value, CANCELED, now);
      } else {
        PatchUsersTwice(db.users, SubscriptionIs(sub.id),
          NO_USER_CHANGE.(subscriptionStatus := Put(CANCELED), canceledAt := Put(Some(stamp)), updatedAt := Put(Some(now))));
      }
    case PendingCancel =>
      if found.Some? {
        var p := NO_SQUAD_CHANGE.(canceledAt := Put(Some(stamp)), currentPeriodEnd := PendingEnd(sub), updatedAt := Put(Some(now)));
        PatchKeepsLookup(db.squads, sub.id, p, sub.id);
        PatchSquadsTwice(db.squads, sub.id, p);
      } else {
        PatchUsersTwice(db.users, SubscriptionIs(sub.id),
          NO_USER_CHANGE.(canceledAt := Put(Some(stamp)), currentPeriodEnd := PendingEnd(sub), updatedAt := Put(Some(now))));
      }
    case Reactivate =>
      if found.Some? {
        var p := NO_SQUAD_CHANGE.(subscriptionStatus := Put(ACTIVE), canceledAt := Put(None), updatedAt := Put(Some(now)));
        PatchKeepsLookup(db.squads, sub.id, p, sub.id);
        SquadThenCascadeTwice(db, sub.id, p, found.value, ACTIVE, now);
      } else {
        PatchUsersTwice(db.users, SubscriptionIs(sub.id), NO_USER_CHANGE.(canceledAt := Put(None), updatedAt := Put(Some(now))));
      }
    case Untouched =>
  }

  /** A customer.subscription.created delivered twice at the same instant, with no store errors either time, changes nothing the first did not. */
  lemma {:induction false} CreatedIsIdempotent(db: Db, sub: Subscription, now: int, faults: Faults)
    requires !faults.first && !faults.second
    ensures var first := OnSubscriptionCreated(db, sub, now, faults);
      OnSubscriptionCreated(first.db, sub, now, faults) == first
  {
    var period := ResolvePeriod(sub, now);
    PatchUsersTwice(db.users, CustomerIs(sub.customer), NO_USER_CHANGE.(
      subscriptionStatus := Put(sub.status),
      stripeSubscriptionId := Put(Some(sub.id)),
      currentPeriodStart := Put(Some(period.start)),
      canceledAt := Put(None),
      updatedAt := Put(Some(now)),
      currentPeriodEnd := if period.end.Some? then Put(period.end) else Keep));
  }

  /** A customer.subscription.deleted delivered twice at the same instant, with no store errors either time, changes nothing the first did not. */
  lemma {:induction false} DeletedIsIdempotent(db: Db, sub: Subscription, now: int, faults: Faults)
    requires !faults.first && !faults.second
    ensures var first := OnSubscriptionDeleted(db, sub, now, faults);
      OnSubscriptionDeleted(first.db, sub, now, faults) == first
  {
    var found := SquadLookup(db.squads, sub.id);
    if found.Some? {
      var p := NO_SQUAD_CHANGE.(subscriptionStatus := Put(CANCELED), updatedAt := Put(Some(now)));
      PatchKeepsLookup(db.squads, sub.id, p, sub.id);
      SquadThenCascadeTwice(db, sub.id, p, found.value, CANCELED, now);
    } else {
      PatchUsersTwice(db.users, SubscriptionIs(sub.id), NO_USER_CHANGE.(subscriptionStatus := Put(CANCELED), updatedAt := Put(Some(now))));
    }
  }

  /** An invoice.paid delivered twice at the same instant, with the same re-fetched subscription and no store errors either time, changes nothing the first did not. */
  lemma {:induction false} InvoicePaidIsIdempotent(db: Db, invoice: Invoice, retrieved: Option<RetrievedSubscription>, now: int,
                                                   faults: Faults)
    requires !faults.first && !faults.second
    ensures var first := OnInvoicePaid(db, invoice, retrieved, now, faults);
      OnInvoicePaid(first.db, invoice, retrieved, now, faults) == first
  {
    if TruthyStr(invoice.subscription) && retrieved.Some? {
      var subId := invoice.subscription.value;
      var latest := retrieved.value;
      var found := SquadLookup(db.squads, subId);
      if found.Some? {
        var p := SquadPatch(Put(ACTIVE), Put(Some(latest.currentPeriodStart)), Put(Some(latest.currentPeriodEnd)), Put(None), Put(Some(now)));
        PatchKeepsLookup(db.squads, subId, p, subId);
        SquadThenCascadeTwice(db, subId, p, found.value, ACTIVE, now);
      } else {
        PatchUsersTwice(db.users, SubscriptionIs(subId), NO_USER_CHANGE.(
          subscriptionStatus := Put(ACTIVE),
          currentPeriodStart := Put(Some(latest.currentPeriodStart)),
          currentPeriodEnd := Put(Some(latest.currentPeriodEnd)),
          canceledAt := Put(None),
          updatedAt := Put(Some(now))));
      }
    }
  }

  /** An individual checkout delivered twice at the same instant, with the same re-fetched subscription and no store errors either time, leaves the store as one delivery does. */
  lemma {:induction false} IndividualCheckoutIsIdempotent(db: Db, session: CheckoutSession, retrieved: Option<RetrievedSubscription>,
                                                          draws: seq<real>, newSquadId: SquadId, now: int, faults: Faults)
    requires ValidDraws(draws)
    requires !faults.first && !faults.second
    requires !IsSquad(CheckoutFactsOf(session, retrieved, now).lines)
    ensures var first := OnCheckoutCompleted(db, session, retrieved, draws, newSquadId, now, faults);
      OnCheckoutCompleted(first.db, session, retrieved, draws, newSquadId, now, faults) == first
  {
    if TruthyStr(session.clientReferenceId) {
      var facts := CheckoutFactsOf(session, retrieved, now);
      PatchUsersTwice(db.users, UserIdIs(session.clientReferenceId.value), IndividualActivation(session, facts, now));
    }
  }

  /** One squad checkout delivery with no store errors inserts its squad under the fresh id. */
  lemma SquadCheckoutInserts(db: Db, session: CheckoutSession, retrieved: Option<RetrievedSubscription>,
                             draws: seq<real>, newSquadId: SquadId, now: int)
    requires ValidDraws(draws)
    requires TruthyStr(session.clientReferenceId)
    requires IsSquad(CheckoutFactsOf(session, retrieved, now).lines)
    requires newSquadId !in db.squads
    ensures var r := OnCheckoutCompleted(db, session, retrieved, draws, newSquadId, now, NO_FAULTS);
      && r.status == 200
      && r.db.squads == db.squads[newSquadId := NewSquad(CodeFor(draws), session.clientReferenceId.value, session,
                                                         CheckoutFactsOf(session, retrieved, now))]
  {
  }

  /**
   * A squad checkout delivered twice inserts two squads carrying the same
   * subscription id, and from then on the lookup by subscription id finds none.
   */
  lemma SquadCheckoutReplayDuplicates(db: Db, session: CheckoutSession, retrieved: Option<RetrievedSubscription>,
                                      draws1: seq<real>, id1: SquadId, draws2: seq<real>, id2: SquadId, now: int)
    requires ValidDraws(draws1) && ValidDraws(draws2)
    requires TruthyStr(session.clientReferenceId)
    requires IsSquad(CheckoutFactsOf(session, retrieved, now).lines)
    requires id1 !in db.squads && id2 !in db.squads && id1 != id2
    ensures var first := OnCheckoutCompleted(db, session, retrieved, draws1, id1, now, NO_FAULTS);
      var second := OnCheckoutCompleted(first.db, session, retrieved, draws2, id2, now, NO_FAULTS);
      && first.status == 200 && second.status == 200
      && second.db.squads.Keys == db.squads.Keys + {id1, id2}
      && {id1, id2} <= SquadsWithSubscription(second.db.squads, session.subscription.value)
      && SquadLookup(second.db.squads, session.subscription.value).None?
  {
    var facts := CheckoutFactsOf(session, retrieved, now);
    var userId := session.clientReferenceId.value;
    var first := OnCheckoutCompleted(db, session, retrieved, draws1, id1, now, NO_FAULTS);
    SquadCheckoutInserts(db, session, retrieved, draws1, id1, now);
    var second := OnCheckoutCompleted(first.db, session, retrieved, draws2, id2, now, NO_FAULTS);
    SquadCheckoutInserts(first.db, session, retrieved, draws2, id2, now);
    var subId := session.subscription.value;
    assert NewSquad(CodeFor(draws1), userId, session, facts).stripeSubscriptionId == Some(subId);
    assert NewSquad(CodeFor(draws2), userId, session, facts).stripeSubscriptionId == Some(subId);
    TwoCarriersDefeatLookup(second.db.squads, subId, id1, id2);
  }

  /** Two squads carrying one subscription id: `.single()` finds neither. */
  lemma TwoCarriersDefeatLookup(squads: map<SquadId, Squad>, subscriptionId: string, id1: SquadId, id2: SquadId)
    requires id1 in squads && id2 in squads && id1 != id2
    requires squads[id1].stripeSubscriptionId == Some(subscriptionId) && squads[id2].stripeSubscriptionId == Some(subscriptionId)
    ensures {id1, id2} <= SquadsWithSubscription(squads, subscriptionId)
    ensures SquadLookup(squads, subscriptionId).None?
  {
    var matches := SquadsWithSubscription(squads, subscriptionId);
    var rest := matches - {id1, id2};
    assert matches == {id1, id2} + rest;
    assert |{id1, id2}| == 2;
  }

  /**
   * After a duplicated squad checkout, deleting the subscription reaches no
   * squad: both squads stay as they were, active, and their members keep
   * their status (only rows carrying the subscription id themselves change).
   */
  lemma DuplicatedSquadOutlivesDeletion(db: Db, sub: Subscription, now: int, id1: SquadId, id2: SquadId)
    requires id1 in db.squads && id2 in db.squads && id1 != id2
    requires db.squads[id1].stripeSubscriptionId == Some(sub.id) && db.squads[id2].stripeSubscriptionId == Some(sub.id)
    ensures var r := OnSubscriptionDeleted(db, sub, now, NO_FAULTS);
      && r.db.squads == db.squads
      && forall u :: u in db.users && db.users[u].stripeSubscriptionId != Some(sub.id) ==> r.db.users[u] == db.users[u]
  {
    TwoCarriersDefeatLookup(db.squads, sub.id, id1, id2);
  }
}
