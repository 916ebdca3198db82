/**
 * The Stripe webhook's reconciliation handlers as transitions of the store
 * value: one function per event type, plus the request router. Each returns
 * the new tables and the HTTP status. Store write errors are given as
 * `Faults`: `first` and `second` say whether the handler's first and second
 * write report an error (a write that errors changes nothing).
 */
module Reconcile {
  import opened Common
  import opened Catalog
  import opened SquadCodes
  import opened LineItems
  import opened Entitlements

  /** The fields of a Checkout Session the handler reads. */
  datatype CheckoutSession = CheckoutSession(
    clientReferenceId: Option<string>,
    customer: Option<string>,
    subscription: Option<string>,
    customerEmail: Option<string>,
    detailsEmail: Option<string>)     // customer_details?.email

  /** A successful stripe.subscriptions.retrieve result; `None` stands for a call that threw. */
  datatype RetrievedSubscription = RetrievedSubscription(
    currentPeriodStart: int,
    currentPeriodEnd: int,
    items: seq<Item>)

  /** The fields of a Subscription event object the handlers read. */
  datatype Subscription = Subscription(
    id: string,
    customer: string,
    status: string,
    cancelAtPeriodEnd: bool,
    cancelAt: Option<int>,
    canceledAt: Option<int>,
    currentPeriodStart: Option<int>,
    currentPeriodEnd: Option<int>,
    startDate: Option<int>,
    items: seq<Item>)

  datatype Invoice = Invoice(id: string, subscription: Option<string>)

  datatype Faults = Faults(first: bool, second: bool)

  const NO_FAULTS := Faults(false, false)

  datatype Outcome = Outcome(db: Db, status: nat)

  const SQUAD_PLACEHOLDER_NAME := "My Squad"

  // ---------------------------------------------------------------------
  // checkout.session.completed

  /** Period bounds and classified line items, as read at index.ts:119-162. */
  datatype CheckoutFacts = CheckoutFacts(periodStart: int, periodEnd: Option<int>, lines: Classification)

  function CheckoutFactsOf(session: CheckoutSession, retrieved: Option<RetrievedSubscription>, now: int): CheckoutFacts
  {
    if TruthyStr(session.subscription) && retrieved.Some? then
      CheckoutFacts(retrieved.value.currentPeriodStart, Some(retrieved.value.currentPeriodEnd),
                    Classify(retrieved.value.items))
    else
      CheckoutFacts(now, None, UNCLASSIFIED)
  }

  /** `session.customer_email || session.customer_details?.email` */
  function EmailOf(session: CheckoutSession): Option<string>
  {
    OrStr(session.customerEmail, session.detailsEmail)
  }

  /** The squad row inserted for a squad checkout. */
  function NewSquad(code: string, adminUserId: UserId, session: CheckoutSession, facts: CheckoutFacts): Squad
    requires IsSquad(facts.lines)
  {
    var flat := facts.lines.flatPriceId.value;
    Squad(code, SQUAD_PLACEHOLDER_NAME, adminUserId, session.customer, session.subscription, EmailOf(session),
          ACTIVE, GetPlanType(flat), Some(facts.periodStart), facts.periodEnd,
          GetIncludedCharts(flat), 0, facts.lines.meteredItemId, None, None)
  }

  /** The admin's user_subscriptions update after a squad checkout. */
  function AdminLink(squadId: SquadId, session: CheckoutSession, facts: CheckoutFacts, now: int): UserPatch
  {
    NO_USER_CHANGE.(
      subscriptionStatus := Put(ACTIVE),
      squadId := Put(Some(squadId)),
      stripeCustomerId := Put(session.customer),
      stripeSubscriptionId := Put(session.subscription),
      stripeCustomerEmail := Put(EmailOf(session)),
      currentPeriodStart := Put(Some(facts.periodStart)),
      currentPeriodEnd := Put(facts.periodEnd),
      updatedAt := Put(Some(now)))
  }

  /** The user_subscriptions update after an individual checkout. */
  function IndividualActivation(session: CheckoutSession, facts: CheckoutFacts, now: int): UserPatch
  {
    NO_USER_CHANGE.(
      subscriptionStatus := Put(ACTIVE),
      stripeCustomerEmail := Put(EmailOf(session)),
      stripeCustomerId := Put(session.customer),
      stripeSubscriptionId := Put(session.subscription),
      currentPeriodStart := Put(Some(facts.periodStart)),
      currentPeriodEnd := Put(facts.periodEnd),
      allowedSquads := Put(["ALL"]),
      updatedAt := Put(Some(now)))
  }

  /**
   * checkout.session.completed. A squad checkout inserts a new squad on every
   * delivery: nothing checks for an existing squad with this subscription.
   */
  function OnCheckoutCompleted(db: Db, session: CheckoutSession, retrieved: Option<RetrievedSubscription>,
                               draws: seq<real>, newSquadId: SquadId, now: int, faults: Faults): (r: Outcome)
    requires ValidDraws(draws)
    ensures r.db.invites == db.invites
    ensures !TruthyStr(session.clientReferenceId) ==> r == Outcome(db, 400)
    // The paid period comes from the re-fetched subscription when there is one, else it starts now with no end.
    ensures var facts := CheckoutFactsOf(session, retrieved, now);
      && (TruthyStr(session.subscription) && retrieved.Some? ==>
            facts.periodStart == retrieved.value.currentPeriodStart && facts.periodEnd == Some(retrieved.value.currentPeriodEnd))
      && (!(TruthyStr(session.subscription) && retrieved.Some?) ==> facts.periodStart == now && facts.periodEnd.None?)
    ensures TruthyStr(session.clientReferenceId) ==>
      var userId := session.clientReferenceId.value;
      var facts := CheckoutFactsOf(session, retrieved, now);
      && (IsSquad(facts.lines) && (faults.first || newSquadId in db.squads) ==> r == Outcome(db, 500))
      && (IsSquad(facts.lines) && !faults.first && newSquadId !in db.squads ==>
            var flat := facts.lines.flatPriceId.value;
            && r.db.squads.Keys == db.squads.Keys + {newSquadId}
            && (forall id :: id in db.squads ==> r.db.squads[id] == db.squads[id])
            && r.db.squads[newSquadId] == Squad(
                 r.db.squads[newSquadId].squadCode, SQUAD_PLACEHOLDER_NAME, userId,
                 session.customer, session.subscription, EmailOf(session),
                 ACTIVE, GetPlanType(flat), Some(facts.periodStart), facts.periodEnd,
                 GetIncludedCharts(flat), 0, facts.lines.meteredItemId, None, None)
            && IsSquadCode(r.db.squads[newSquadId].squadCode)
            && (faults.second ==> r.status == 500 && r.db.users == db.users)
            && (!faults.second ==>
                  && r.status == 200
                  && UsersFramed(db.users, r.db.users, UserIdIs(userId))
                  && (userId in db.users ==>
                        r.db.users[userId] == db.users[userId].(
                          subscriptionStatus := ACTIVE,
                          squadId := Some(newSquadId),
                          stripeCustomerId := session.customer,
                          stripeSubscriptionId := session.subscription,
                          stripeCustomerEmail := EmailOf(session),
                          currentPeriodStart := Some(facts.periodStart),
                          currentPeriodEnd := facts.periodEnd,
                          updatedAt := Some(now)))))
      && (!IsSquad(facts.lines) ==>
            && r.db.squads == db.squads
            && (faults.first ==> r == Outcome(db, 500))
            && (!faults.first ==>
                  && r.status == 200
                  && UsersFramed(db.users, r.db.users, UserIdIs(userId))
                  && (userId in db.users ==>
                        r.db.users[userId] == db.users[userId].(
                          subscriptionStatus := ACTIVE,
                          stripeCustomerEmail := EmailOf(session),
                          stripeCustomerId := session.customer,
                          stripeSubscriptionId := session.subscription,
                          currentPeriodStart := Some(facts.periodStart),
                          currentPeriodEnd := facts.periodEnd,
                          allowedSquads := ["ALL"],
                          updatedAt := Some(now)))))
  {
    if !TruthyStr(session.clientReferenceId) then Outcome(db, 400)
    else
      var userId := session.clientReferenceId.value;
      var facts := CheckoutFactsOf(session, retrieved, now);
      if IsSquad(facts.lines) then
        if faults.first || newSquadId in db.squads then Outcome(db, 500)
        else
          CodeForIsSquadCode(draws);
          var db1 := db.(squads := db.squads[newSquadId := NewSquad(CodeFor(draws), userId, session, facts)]);
          if faults.second then Outcome(db1, 500)
          else Outcome(db1.(users := PatchUsers(db1.users, UserIdIs(userId), AdminLink(newSquadId, session, facts, now))), 200)
      else if faults.first then Outcome(db, 500)
      else Outcome(db.(users := PatchUsers(db.users, UserIdIs(userId), IndividualActivation(session, facts, now))), 200)
  }

  // ---------------------------------------------------------------------
  // Shared by the subscription handlers

  /** The member cascade: every row with this squad_id gets the status; an error is only logged. */
  function CascadeStatus(db: Db, squadId: SquadId, status: string, now: int, fails: bool): Db
  {
    if fails then db
    else db.(users := PatchUsers(db.users, SquadIs(squadId),
                                 NO_USER_CHANGE.(subscriptionStatus := Put(status), updatedAt := Put(Some(now)))))
  }

  /** `subscription.canceled_at ? canceled_at : now` */
  function CancelStamp(sub: Subscription, now: int): int
  {
    if Truthy(sub.canceledAt) then sub.canceledAt.value else now
  }

  // ---------------------------------------------------------------------
  // customer.subscription.updated

  datatype UpdateBranch = ImmediateCancel | PendingCancel | Reactivate | Untouched

  /** The if / else-if chain of the updated handler, in its order of precedence. */
  function BranchOf(sub: Subscription): (b: UpdateBranch)
    ensures b == ImmediateCancel <==> sub.status == CANCELED
    ensures b == PendingCancel <==> sub.status != CANCELED && (sub.cancelAtPeriodEnd || Truthy(sub.cancelAt))
    ensures b == Reactivate <==> sub.status == ACTIVE && !sub.cancelAtPeriodEnd && !Truthy(sub.cancelAt)
  {
    if sub.status == CANCELED then ImmediateCancel
    else if sub.cancelAtPeriodEnd || Truthy(sub.cancelAt) then PendingCancel
    else if !sub.cancelAtPeriodEnd && !Truthy(sub.cancelAt) && sub.status == ACTIVE then Reactivate
    else Untouched
  }

  /** The period end a pending cancellation writes: the cancel_at date, when there is one. */
  function PendingEnd(sub: Subscription): Field<Option<int>>
  {
    if Truthy(sub.cancelAt) then Put(sub.cancelAt) else Keep
  }

  function OnSubscriptionUpdated(db: Db, sub: Subscription, now: int, faults: Faults): (r: Outcome)
    ensures r.db.invites == db.invites
    ensures r.status == 200 || r.status == 500
    ensures r.status == 500 ==>
      r.db == db && faults.first && (BranchOf(sub) == ImmediateCancel || BranchOf(sub) == PendingCancel)
    ensures BranchOf(sub) == Untouched ==> r == Outcome(db, 200)
    // A failed first write in a cancel branch answers 500, so Stripe redelivers.
    ensures (BranchOf(sub) == ImmediateCancel || BranchOf(sub) == PendingCancel) && faults.first ==> r == Outcome(db, 500)
    // The squad-or-individual discriminator decides which rows can change.
    ensures var found := SquadLookup(db.squads, sub.id);
      && (found.Some? ==>
            SquadsFramed(db.squads, r.db.squads, found.value) && UsersFramed(db.users, r.db.users, SquadIs(found.value)))
      && (found.None? ==>
            r.db.squads == db.squads && UsersFramed(db.users, r.db.users, SubscriptionIs(sub.id)))
    // Immediate cancellation: squad and every member, or the individual rows.
    ensures var found := SquadLookup(db.squads, sub.id);
      BranchOf(sub) == ImmediateCancel && !faults.first ==>
        && r.status == 200
        && (found.Some? ==>
              && r.db.squads[found.value] == db.squads[found.value].(
                   subscriptionStatus := CANCELED, canceledAt := Some(CancelStamp(sub, now)), updatedAt := Some(now))
              && (!faults.second ==> MembersSetTo(db.users, r.db.users, found.value, CANCELED))
              && (faults.second ==> r.db.users == db.users))
        && (found.None? ==>
              forall u :: u in db.users && Selects(SubscriptionIs(sub.id), u, db.users[u]) ==>
                r.db.users[u] == db.users[u].(
                  subscriptionStatus := CANCELED, canceledAt := Some(CancelStamp(sub, now)), updatedAt := Some(now)))
    // Pending cancellation: only canceled_at (and the cancel_at period end); no status changes.
    ensures var found := SquadLookup(db.squads, sub.id);
      BranchOf(sub) == PendingCancel ==>
        && (forall id :: id in db.squads ==> r.db.squads[id].subscriptionStatus == db.squads[id].subscriptionStatus)
        && (forall u :: u in db.users ==> r.db.users[u].subscriptionStatus == db.users[u].subscriptionStatus)
        && (!faults.first ==>
              && r.status == 200
              && (found.Some? ==>
                    && r.db.users == db.users
                    && r.db.squads[found.value] == db.squads[found.value].(
                         canceledAt := Some(CancelStamp(sub, now)),
                         currentPeriodEnd := PendingEnd(sub).Over(db.squads[found.value].currentPeriodEnd),
                         updatedAt := Some(now)))
              && (found.None? ==>
                    forall u :: u in db.users && Selects(SubscriptionIs(sub.id), u, db.users[u]) ==>
                      r.db.users[u] == db.users[u].(
                        canceledAt := Some(CancelStamp(sub, now)),
                        currentPeriodEnd := PendingEnd(sub).Over(db.users[u].currentPeriodEnd),
                        updatedAt := Some(now))))
    // Reactivation: squad and members active, squad canceled_at cleared; an individual only has canceled_at cleared.
    ensures var found := SquadLookup(db.squads, sub.id);
      BranchOf(sub) == Reactivate ==>
        && r.status == 200
        && (found.Some? ==>
              && (!faults.first ==>
                    r.db.squads[found.value] == db.squads[found.value].(
                      subscriptionStatus := ACTIVE, canceledAt := None, updatedAt := Some(now)))
              && (faults.first ==> r.db.squads == db.squads)
              && (!faults.second ==> MembersSetTo(db.users, r.db.users, found.value, ACTIVE))
              && (faults.second ==> r.db.users == db.users))
        && (found.None? ==>
              forall u :: u in db.users && Selects(SubscriptionIs(sub.id), u, db.users[u]) ==>
                r.db.users[u] == if faults.first then db.users[u] else db.users[u].(canceledAt := None, updatedAt := Some(now)))
  {
    var found := SquadLookup(db.squads, sub.id);
    LookupIsOnlyMatch(db.squads, sub.id);
    match BranchOf(sub)
    case ImmediateCancel =>
      var stamp := CancelStamp(sub, now);
      if faults.first then Outcome(db, 500)
      else if found.Some? then
        var db1 := db.(squads := PatchSquads(db.squads, sub.id,
          NO_SQUAD_CHANGE.(subscriptionStatus := Put(CANCELED), canceledAt := Put(Some(stamp)), updatedAt := Put(Some(now)))));
        Outcome(CascadeStatus(db1, found.value, CANCELED, now, faults.second), 200)
      else
        Outcome(db.(users := PatchUsers(db.users, SubscriptionIs(sub.id),
          NO_USER_CHANGE.(subscriptionStatus := Put(CANCELED), canceledAt := Put(Some(stamp)), updatedAt := Put(Some(now))))), 200)
    case PendingCancel =>
      var stamp := CancelStamp(sub, now);
      if faults.first then Outcome(db, 500)
      else if found.Some? then
        Outcome(db.(squads := PatchSquads(db.squads, sub.id,
          NO_SQUAD_CHANGE.(canceledAt := Put(Some(stamp)), currentPeriodEnd := PendingEnd(sub), updatedAt := Put(Some(now))))), 200)
      else
        Outcome(db.(users := PatchUsers(db.users, SubscriptionIs(sub.id),
          NO_USER_CHANGE.(canceledAt := Put(Some(stamp)), currentPeriodEnd := PendingEnd(sub), updatedAt := Put(Some(now))))), 200)
    case Reactivate =>
      if found.Some? then
        var db1 := if faults.first then db else db.(squads := PatchSquads(db.squads, sub.id,
          NO_SQUAD_CHANGE.(subscriptionStatus := Put(ACTIVE), canceledAt := Put(None), updatedAt := Put(Some(now)))));
        Outcome(CascadeStatus(db1, found.value, ACTIVE, now, faults.second), 200)
      else if faults.first then Outcome(db, 200)
      else
        Outcome(db.(users := PatchUsers(db.users, SubscriptionIs(sub.id),
          NO_USER_CHANGE.(canceledAt := Put(None), updatedAt := Put(Some(now))))), 200)
    case Untouched =>
      Outcome(db, 200)
  }

  // ---------------------------------------------------------------------
  // customer.subscription.created

  /** Period bounds as ISO-converted by the created handler: start is always set, end may be absent. */
  datatype Period = Period(start: int, end: Option<int>)

  /** The first truthy candidate, if any. */
  function FirstTruthy(candidates: seq<Option<int>>): (r: Option<int>)
    ensures r.Some? ==> Truthy(r)
    ensures r.Some? ==>
      exists k :: 0 <= k < |candidates| && candidates[k] == r && (forall m :: 0 <= m < k ==> !Truthy(candidates[m]))
    ensures r.None? <==> forall k :: 0 <= k < |candidates| ==> !Truthy(candidates[k])
  {
    if |candidates| == 0 then None
    else if Truthy(candidates[0]) then candidates[0]
    else FirstTruthy(candidates[1..])
  }

  /** items.data[0]'s value of a period field, or undefined when there is no item. */
  function FirstItemStart(sub: Subscription): Option<int>
  {
    if |sub.items| > 0 then sub.items[0].currentPeriodStart else None
  }

  function FirstItemEnd(sub: Subscription): Option<int>
  {
    if |sub.items| > 0 then sub.items[0].currentPeriodEnd else None
  }

  /**
   * The created handler's period resolution: top level, then items.data[0]
   * (consulted only when a top-level bound is missing), then start_date,
   * then now; the end has no fallback beyond items.data[0].
   */
  function ResolvePeriod(sub: Subscription, now: int): (p: Period)
    ensures p.start == (var s := FirstTruthy([sub.currentPeriodStart, FirstItemStart(sub), sub.startDate]);
                        if s.Some? then s.value else now)
    ensures p.end == FirstTruthy([sub.currentPeriodEnd, FirstItemEnd(sub)])
  {
    var useItems := (!Truthy(sub.currentPeriodStart) || !Truthy(sub.currentPeriodEnd)) && |sub.items| > 0;
    var ps := if useItems then OrInt(sub.currentPeriodStart, sub.items[0].currentPeriodStart) else sub.currentPeriodStart;
    var pe := if useItems then OrInt(sub.currentPeriodEnd, sub.items[0].currentPeriodEnd) else sub.currentPeriodEnd;
    var ps2 := if !Truthy(ps) then OrInt(sub.startDate, Some(now)) else ps;
    var starts := [sub.currentPeriodStart, FirstItemStart(sub), sub.startDate];
    assert starts[1..] == [FirstItemStart(sub), sub.startDate] && starts[1..][1..] == [sub.startDate];
    assert [sub.startDate][1..] == [];
    assert FirstTruthy([sub.startDate]) == OrInt(sub.startDate, None);
    assert FirstTruthy(starts[1..]) == OrInt(FirstItemStart(sub), FirstTruthy([sub.startDate]));
    var ends := [sub.currentPeriodEnd, FirstItemEnd(sub)];
    assert ends[1..] == [FirstItemEnd(sub)] && ends[1..][1..] == [];
    Period(if Truthy(ps2) then ps2.value else now, if Truthy(pe) then pe else None)
  }

  /** customer.subscription.created: rows matched by stripe_customer_id take the new subscription. */
  function OnSubscriptionCreated(db: Db, sub: Subscription, now: int, faults: Faults): (r: Outcome)
    ensures r.db.squads == db.squads && r.db.invites == db.invites
    ensures faults.first ==> r == Outcome(db, 500)
    ensures !faults.first ==>
      && r.status == 200
      && UsersFramed(db.users, r.db.users, CustomerIs(sub.customer))
      && forall u :: u in db.users && Selects(CustomerIs(sub.customer), u, db.users[u]) ==>
           var period := ResolvePeriod(sub, now);
           r.db.users[u] == db.users[u].(
             subscriptionStatus := sub.status,
             stripeSubscriptionId := Some(sub.id),
             canceledAt := None,
             currentPeriodStart := Some(period.start),
             currentPeriodEnd := if period.end.Some? then period.end else db.users[u].currentPeriodEnd,
             updatedAt := Some(now))
  {
    var period := ResolvePeriod(sub, now);
    var patch := NO_USER_CHANGE.(
      subscriptionStatus := Put(sub.status),
      stripeSubscriptionId := Put(Some(sub.id)),
      currentPeriodStart := Put(Some(period.start)),
      canceledAt := Put(None),
      updatedAt := Put(Some(now)),
      currentPeriodEnd := if period.end.Some? then Put(period.end) else Keep);
    if faults.first then Outcome(db, 500)
    else Outcome(db.(users := PatchUsers(db.users, CustomerIs(sub.customer), patch)), 200)
  }

  // ---------------------------------------------------------------------
  // customer.subscription.deleted

  /** customer.subscription.deleted: canceled status, squad first then members; canceled_at is not written. */
  function OnSubscriptionDeleted(db: Db, sub: Subscription, now: int, faults: Faults): (r: Outcome)
    ensures r.db.invites == db.invites
    ensures faults.first ==> r == Outcome(db, 500)
    ensures var found := SquadLookup(db.squads, sub.id);
      !faults.first ==>
        && r.status == 200
        && (found.Some? ==>
              && SquadsFramed(db.squads, r.db.squads, found.value)
              && r.db.squads[found.value] == db.squads[found.value].(
                   subscriptionStatus := CANCELED, updatedAt := r.db.squads[found.value].updatedAt)
              && (!faults.second ==> MembersSetTo(db.users, r.db.users, found.value, CANCELED))
              && (faults.second ==> r.db.users == db.users))
        && (found.None? ==>
              && r.db.squads == db.squads
              && UsersFramed(db.users, r.db.users, SubscriptionIs(sub.id))
              && forall u :: u in db.users && Selects(SubscriptionIs(sub.id), u, db.users[u]) ==>
                   StatusSetTo(db.users[u], r.db.users[u], CANCELED))
  {
    var found := SquadLookup(db.squads, sub.id);
    LookupIsOnlyMatch(db.squads, sub.id);
    if faults.first then Outcome(db, 500)
    else if found.Some? then
      var db1 := db.(squads := PatchSquads(db.squads, sub.id,
        NO_SQUAD_CHANGE.(subscriptionStatus := Put(CANCELED), updatedAt := Put(Some(now)))));
      Outcome(CascadeStatus(db1, found.value, CANCELED, now, faults.second), 200)
    else
      Outcome(db.(users := PatchUsers(db.users, SubscriptionIs(sub.id),
        NO_USER_CHANGE.(subscriptionStatus := Put(CANCELED), updatedAt := Put(Some(now))))), 200)
  }

  // ---------------------------------------------------------------------
  // invoice.paid

  /**
   * invoice.paid: payment wins over any pending cancellation. Without a
   * subscription on the invoice, or when the re-fetch throws, nothing is written.
   */
  function OnInvoicePaid(db: Db, invoice: Invoice, retrieved: Option<RetrievedSubscription>, now: int, faults: Faults): (r: Outcome)
    ensures r.db.invites == db.invites
    ensures !TruthyStr(invoice.subscription) || retrieved.None? ==> r == Outcome(db, 200)
    ensures TruthyStr(invoice.subscription) && retrieved.Some? ==>
      var subId := invoice.subscription.value;
      var latest := retrieved.value;
      var found := SquadLookup(db.squads, subId);
      && (faults.first ==> r == Outcome(db, 500))
      && (!faults.first ==>
            && r.status == 200
            && (found.Some? ==>
                  && SquadsFramed(db.squads, r.db.squads, found.value)
                  && r.db.squads[found.value] == db.squads[found.value].(
                       subscriptionStatus := ACTIVE,
                       currentPeriodStart := Some(latest.currentPeriodStart),
                       currentPeriodEnd := Some(latest.currentPeriodEnd),
                       canceledAt := None,
                       updatedAt := Some(now))
                  && (!faults.second ==> MembersSetTo(db.users, r.db.users, found.value, ACTIVE))
                  && (faults.second ==> r.db.users == db.users))
            && (found.None? ==>
                  && r.db.squads == db.squads
                  && UsersFramed(db.users, r.db.users, SubscriptionIs(subId))
                  && forall u :: u in db.users && Selects(SubscriptionIs(subId), u, db.users[u]) ==>
                       r.db.users[u] == db.users[u].(
                         subscriptionStatus := ACTIVE,
                         currentPeriodStart := Some(latest.currentPeriodStart),
                         currentPeriodEnd := Some(latest.currentPeriodEnd),
                         canceledAt := None,
                         updatedAt := Some(now))))
  {
    if !TruthyStr(invoice.subscription) || retrieved.None? then Outcome(db, 200)
    else
      var subId := invoice.subscription.value;
      var latest := retrieved.value;
      var found := SquadLookup(db.squads, subId);
      LookupIsOnlyMatch(db.squads, subId);
      if faults.first then Outcome(db, 500)
      else if found.Some? then
        var db1 := db.(squads := PatchSquads(db.squads, subId, SquadPatch(
          Put(ACTIVE), Put(Some(latest.currentPeriodStart)), Put(Some(latest.currentPeriodEnd)), Put(None), Put(Some(now)))));
        Outcome(CascadeStatus(db1, found.value, ACTIVE, now, faults.second), 200)
      else
        Outcome(db.(users := PatchUsers(db.users, SubscriptionIs(subId), NO_USER_CHANGE.(
          subscriptionStatus := Put(ACTIVE),
          currentPeriodStart := Put(Some(latest.currentPeriodStart)),
          currentPeriodEnd := Put(Some(latest.currentPeriodEnd)),
          canceledAt := Put(None),
          updatedAt := Put(Some(now))))), 200)
  }

  // ---------------------------------------------------------------------
  // The request router

  /** A Stripe event, by its type string. */
  datatype Event =
    | CheckoutSessionCompleted(session: CheckoutSession)
    | CustomerSubscriptionUpdated(subscription: Subscription)
    | CustomerSubscriptionCreated(subscription: Subscription)
    | CustomerSubscriptionDeleted(subscription: Subscription)
    | InvoicePaid(invoice: Invoice)
    | OtherEvent(eventType: string)

  /** The request: its method, its stripe-signature header, and its body read as an event (`None`: not valid JSON). */
  datatype WebhookRequest = WebhookRequest(httpMethod: string, signature: Option<string>, event: Option<Event>)

  /**
   * Everything the handlers learn from outside the request: the signature
   * check's verdict, the subscriptions.retrieve result, Math.random's draws,
   * the id the store gives a new squad, the clock and the store's write errors.
   */
  datatype Oracles = Oracles(
    signatureValid: bool,
    retrieved: Option<RetrievedSubscription>,
    draws: seq<real>,
    newSquadId: SquadId,
    now: int,
    faults: Faults)

  /** The signature is checked only when a secret is configured and the header is present. */
  predicate ChecksSignature(req: WebhookRequest, secret: string)
  {
    secret != "" && TruthyStr(req.signature)
  }

  /** The event reaches the handlers: a POST whose body is an event and whose signature, if checked, is valid. */
  predicate Admitted(req: WebhookRequest, secret: string, o: Oracles)
  {
    req.httpMethod == "POST" && req.event.Some? && (ChecksSignature(req, secret) ==> o.signatureValid)
  }

  /** Dispatch by event type; an unrecognised type is acknowledged without writes. */
  function Dispatch(db: Db, event: Event, o: Oracles): Outcome
    requires ValidDraws(o.draws)
  {
    match event
    case CheckoutSessionCompleted(session) =>
      OnCheckoutCompleted(db, session, o.retrieved, o.draws, o.newSquadId, o.now, o.faults)
    case CustomerSubscriptionUpdated(sub) => OnSubscriptionUpdated(db, sub, o.now, o.faults)
    case CustomerSubscriptionCreated(sub) => OnSubscriptionCreated(db, sub, o.now, o.faults)
    case CustomerSubscriptionDeleted(sub) => OnSubscriptionDeleted(db, sub, o.now, o.faults)
    case InvoicePaid(invoice) => OnInvoicePaid(db, invoice, o.retrieved, o.now, o.faults)
    case OtherEvent(_) => Outcome(db, 200)
  }

  /** The webhook endpoint. */
  function Webhook(db: Db, req: WebhookRequest, secret: string, o: Oracles): (r: Outcome)
    requires ValidDraws(o.draws)
    ensures r.status in {200, 400, 405, 500}
    ensures r.db.invites == db.invites
    ensures req.httpMethod != "POST" ==> r == Outcome(db, 405)
    ensures req.httpMethod == "POST" && ChecksSignature(req, secret) && (!o.signatureValid || req.event.None?) ==>
      r == Outcome(db, 400)
    ensures req.httpMethod == "POST" && !ChecksSignature(req, secret) && req.event.None? ==> r == Outcome(db, 500)
    ensures !Admitted(req, secret, o) ==> r.db == db && r.status != 200
    ensures Admitted(req, secret, o) && req.event.value.OtherEvent? ==> r == Outcome(db, 200)
    ensures Admitted(req, secret, o) && !req.event.value.CheckoutSessionCompleted? ==> r.status in {200, 500}
    // An admitted event reaches exactly the handler for its type.
    ensures Admitted(req, secret, o) && req.event.value.CheckoutSessionCompleted? ==>
      r == OnCheckoutCompleted(db, req.event.value.session, o.retrieved, o.draws, o.newSquadId, o.now, o.faults)
    ensures Admitted(req, secret, o) && req.event.value.CustomerSubscriptionUpdated? ==>
      r == OnSubscriptionUpdated(db, req.event.value.subscription, o.now, o.faults)
    ensures Admitted(req, secret, o) && req.event.value.CustomerSubscriptionCreated? ==>
      r == OnSubscriptionCreated(db, req.event.value.subscription, o.now, o.faults)
    ensures Admitted(req, secret, o) && req.event.value.CustomerSubscriptionDeleted? ==>
      r == OnSubscriptionDeleted(db, req.event.value.subscription, o.now, o.faults)
    ensures Admitted(req, secret, o) && req.event.value.InvoicePaid? ==>
      r == OnInvoicePaid(db, req.event.value.invoice, o.retrieved, o.now, o.faults)
  {
    if req.httpMethod != "POST" then Outcome(db, 405)
    else if ChecksSignature(req, secret) && (!o.signatureValid || req.event.None?) then Outcome(db, 400)
    else if req.event.None? then Outcome(db, 500)
    else Dispatch(db, req.event.value, o)
  }
}
