/**
 * The webhook's handlers as they run against the store: each reads the
 * store, then issues its writes one after another (squad row first, then the
 * member cascade), returning early on the errors the source does not swallow.
 * Each is proved to leave the store, with the status it answers, exactly as
 * the corresponding transition of `Reconcile` describes.
 */
module Webhook {
  import opened Common
  import opened Catalog
  import opened SquadCodes
  import opened LineItems
  import opened Entitlements
  import opened Reconcile
  import opened Database

  /** checkout.session.completed */
  method HandleCheckoutCompleted(st: Store, session: CheckoutSession, retrieved: Option<RetrievedSubscription>,
                                 draws: seq<real>, newSquadId: SquadId, now: int, faults: Faults)
    returns (status: nat)
    requires ValidDraws(draws)
    modifies st
    ensures Outcome(st.Snapshot(), status)
         == OnCheckoutCompleted(old(st.Snapshot()), session, retrieved, draws, newSquadId, now, faults)
  {
    if !TruthyStr(session.clientReferenceId) {
      return 400;
    }
    var userId := session.clientReferenceId.value;

    // Period dates and line items from the re-fetched subscription, when there is one.
    var periodStart: int;
    var periodEnd: Option<int> := None;
    var flatPriceId: Option<string> := None;
    var meteredItemId: Option<string> := None;
    if TruthyStr(session.subscription) && retrieved.Some? {
      periodStart := retrieved.value.currentPeriodStart;
      periodEnd := Some(retrieved.value.currentPeriodEnd);
      flatPriceId, meteredItemId := ClassifyLineItems(retrieved.value.items);
    } else {
      periodStart := now;
    }
    var facts := CheckoutFacts(periodStart, periodEnd, Classification(flatPriceId, meteredItemId));
    assert facts == CheckoutFactsOf(session, retrieved, now);

    var error: bool;
    if IsSquad(facts.lines) {
      var flat := flatPriceId.value;
      var planType := GetPlanType(flat);
      var includedCharts := GetIncludedCharts(flat);
      var squadCode := GenerateSquadCode(draws);
      var row := Squad(squadCode, SQUAD_PLACEHOLDER_NAME, userId, session.customer, session.subscription,
                       EmailOf(session), ACTIVE, planType, Some(periodStart), periodEnd,
                       includedCharts, 0, meteredItemId, None, None);
      assert row == NewSquad(CodeFor(draws), userId, session, facts);
      error := st.InsertSquad(newSquadId, row, faults.first);
      if error {
        return 500;
      }
      error := st.UpdateUsers(UserIdIs(userId), AdminLink(newSquadId, session, facts, now), faults.second);
      if error {
        return 500;
      }
    } else {
      error := st.UpdateUsers(UserIdIs(userId), IndividualActivation(session, facts, now), faults.first);
      if error {
        return 500;
      }
    }
    return 200;
  }

  /** The member cascade; its error is logged and otherwise ignored. */
  method Cascade(st: Store, squadId: SquadId, status: string, now: int, fails: bool)
    modifies st
    ensures st.Snapshot() == CascadeStatus(old(st.Snapshot()), squadId, status, now, fails)
  {
    var _ := st.UpdateUsers(SquadIs(squadId),
                            NO_USER_CHANGE.(subscriptionStatus := Put(status), updatedAt := Put(Some(now))), fails);
  }

  /** customer.subscription.updated */
  method HandleSubscriptionUpdated(st: Store, sub: Subscription, now: int, faults: Faults) returns (status: nat)
    modifies st
    ensures Outcome(st.Snapshot(), status) == OnSubscriptionUpdated(old(st.Snapshot()), sub, now, faults)
  {
    var found := st.FindSquadBySubscription(sub.id);
    var error: bool;
    if sub.status == CANCELED {
      var stamp := CancelStamp(sub, now);
      if found.Some? {
        error := st.UpdateSquads(sub.id,
          NO_SQUAD_CHANGE.(subscriptionStatus := Put(CANCELED), canceledAt := Put(Some(stamp)), updatedAt := Put(Some(now))),
          faults.first);
        if error {
          return 500;
        }
        Cascade(st, found.value, CANCELED, now, faults.second);
      } else {
        error := st.UpdateUsers(SubscriptionIs(sub.id),
          NO_USER_CHANGE.(subscriptionStatus := Put(CANCELED), canceledAt := Put(Some(stamp)), updatedAt := Put(Some(now))),
          faults.first);
        if error {
          return 500;
        }
      }
    } else if sub.cancelAtPeriodEnd || Truthy(sub.cancelAt) {
      var stamp := CancelStamp(sub, now);
      if found.Some? {
        error := st.UpdateSquads(sub.id,
          NO_SQUAD_CHANGE.(canceledAt := Put(Some(stamp)), currentPeriodEnd := PendingEnd(sub), updatedAt := Put(Some(now))),
          faults.first);
      } else {
        error := st.UpdateUsers(SubscriptionIs(sub.id),
          NO_USER_CHANGE.(canceledAt := Put(Some(stamp)), currentPeriodEnd := PendingEnd(sub), updatedAt := Put(Some(now))),
          faults.first);
      }
      if error {
        return 500;
      }
    } else if !sub.cancelAtPeriodEnd && !Truthy(sub.cancelAt) && sub.status == ACTIVE {
      if found.Some? {
        // Both errors are logged only.
        error := st.UpdateSquads(sub.id,
          NO_SQUAD_CHANGE.(subscriptionStatus := Put(ACTIVE), canceledAt := Put(None), updatedAt := Put(Some(now))),
          faults.first);
        Cascade(st, found.value, ACTIVE, now, faults.second);
      } else {
        error := st.UpdateUsers(SubscriptionIs(sub.id),
          NO_USER_CHANGE.(canceledAt := Put(None), updatedAt := Put(Some(now))), faults.first);
      }
    }
    return 200;
  }

  /** customer.subscription.created */
  method HandleSubscriptionCreated(st: Store, sub: Subscription, now: int, faults: Faults) returns (status: nat)
    modifies st
    ensures Outcome(st.Snapshot(), status) == OnSubscriptionCreated(old(st.Snapshot()), sub, now, faults)
  {
    // Period bounds: top level, then the first item, then start_date, then now.
    var periodStart := sub.currentPeriodStart;
    var periodEnd := sub.currentPeriodEnd;
    if !Truthy(periodStart) || !Truthy(periodEnd) {
      if |sub.items| > 0 {
        periodStart := OrInt(periodStart, sub.items[0].currentPeriodStart);
        periodEnd := OrInt(periodEnd, sub.items[0].currentPeriodEnd);
      }
    }
    if !Truthy(periodStart) {
      periodStart := OrInt(sub.startDate, Some(now));
    }
    var start := if Truthy(periodStart) then periodStart.value else now;
    var end := if Truthy(periodEnd) then periodEnd else None;
    assert Period(start, end) == ResolvePeriod(sub, now);

    var update := NO_USER_CHANGE.(
      subscriptionStatus := Put(sub.status),
      stripeSubscriptionId := Put(Some(sub.id)),
      currentPeriodStart := Put(Some(start)),
      canceledAt := Put(None),
      updatedAt := Put(Some(now)));
    if end.Some? {
      update := update.(currentPeriodEnd := Put(end));
    }
    var error := st.UpdateUsers(CustomerIs(sub.customer), update, faults.first);
    if error {
      return 500;
    }
    return 200;
  }

  /** customer.subscription.deleted */
  method HandleSubscriptionDeleted(st: Store, sub: Subscription, now: int, faults: Faults) returns (status: nat)
    modifies st
    ensures Outcome(st.Snapshot(), status) == OnSubscriptionDeleted(old(st.Snapshot()), sub, now, faults)
  {
    var found := st.FindSquadBySubscription(sub.id);
    var error: bool;
    if found.Some? {
      error := st.UpdateSquads(sub.id,
        NO_SQUAD_CHANGE.(subscriptionStatus := Put(CANCELED), updatedAt := Put(Some(now))), faults.first);
      if error {
        return 500;
      }
      Cascade(st, found.value, CANCELED, now, faults.second);
    } else {
      error := st.UpdateUsers(SubscriptionIs(sub.id),
        NO_USER_CHANGE.(subscriptionStatus := Put(CANCELED), updatedAt := Put(Some(now))), faults.first);
      if error {
        return 500;
      }
    }
    return 200;
  }

  /** invoice.paid */
  method HandleInvoicePaid(st: Store, invoice: Invoice, retrieved: Option<RetrievedSubscription>, now: int, faults: Faults)
    returns (status: nat)
    modifies st
    ensures Outcome(st.Snapshot(), status) == OnInvoicePaid(old(st.Snapshot()), invoice, retrieved, now, faults)
  {
    if TruthyStr(invoice.subscription) {
      var subId := invoice.subscription.value;
      var found := st.FindSquadBySubscription(subId);
      // A retrieve that throws is caught and logged: nothing is written.
      if retrieved.Some? {
        var periodStart := Some(retrieved.value.currentPeriodStart);
        var periodEnd := Some(retrieved.value.currentPeriodEnd);
        var error: bool;
        if found.Some? {
          error := st.UpdateSquads(subId,
            SquadPatch(Put(ACTIVE), Put(periodStart), Put(periodEnd), Put(None), Put(Some(now))), faults.first);
          if error {
            return 500;
          }
          Cascade(st, found.value, ACTIVE, now, faults.second);
        } else {
          error := st.UpdateUsers(SubscriptionIs(subId), NO_USER_CHANGE.(
            subscriptionStatus := Put(ACTIVE),
            currentPeriodStart := Put(periodStart),
            currentPeriodEnd := Put(periodEnd),
            canceledAt := Put(None),
            updatedAt := Put(Some(now))), faults.first);
          if error {
            return 500;
          }
        }
      }
    }
    return 200;
  }

  /** The endpoint: method check, signature check or plain parse, then dispatch on the event type. */
  method Serve(st: Store, req: WebhookRequest, secret: string, o: Oracles) returns (status: nat)
    requires ValidDraws(o.draws)
    modifies st
    ensures Outcome(st.Snapshot(), status) == Webhook(old(st.Snapshot()), req, secret, o)
  {
    if req.httpMethod != "POST" {
      return 405;
    }
    if ChecksSignature(req, secret) {
      if !o.signatureValid || req.event.None? {
        return 400;
      }
    } else if req.event.None? {
      // JSON.parse throws; the outer catch answers 500.
      return 500;
    }
    match req.event.value
    case CheckoutSessionCompleted(session) =>
      status := HandleCheckoutCompleted(st, session, o.retrieved, o.draws, o.newSquadId, o.now, o.faults);
    case CustomerSubscriptionUpdated(sub) =>
      status := HandleSubscriptionUpdated(st, sub, o.now, o.faults);
    case CustomerSubscriptionCreated(sub) =>
      status := HandleSubscriptionCreated(st, sub, o.now, o.faults);
    case CustomerSubscriptionDeleted(sub) =>
      status := HandleSubscriptionDeleted(st, sub, o.now, o.faults);
    case InvoicePaid(invoice) =>
      status := HandleInvoicePaid(st, invoice, o.retrieved, o.now, o.faults);
    case OtherEvent(_) =>
      status := 200;
  }
}
