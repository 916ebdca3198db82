/**
 * The entitlement store as a value: the `squads`, `user_subscriptions` and
 * `squad_invites` tables, and the store operations the edge functions use
 * (update-where-column-equals, insert, upsert on user_id, single-row lookup).
 * Timestamps are integers; a column that can be null is an Option.
 */
module Entitlements {
  import opened Common

  type UserId = string
  type SquadId = string
  type InviteId = string

  const ACTIVE := "active"
  const CANCELED := "canceled"

  /** A row of user_subscriptions. */
  datatype UserRow = UserRow(
    subscriptionStatus: string,
    stripeCustomerId: Option<string>,
    stripeSubscriptionId: Option<string>,
    stripeCustomerEmail: Option<string>,
    currentPeriodStart: Option<int>,
    currentPeriodEnd: Option<int>,
    canceledAt: Option<int>,
    allowedSquads: seq<string>,
    squadId: Option<SquadId>,
    squadNames: seq<string>,
    updatedAt: Option<int>)

  /** A row of squads. */
  datatype Squad = Squad(
    squadCode: string,
    name: string,
    adminUserId: UserId,
    stripeCustomerId: Option<string>,
    stripeSubscriptionId: Option<string>,
    stripeCustomerEmail: Option<string>,
    subscriptionStatus: string,
    planType: string,
    currentPeriodStart: Option<int>,
    currentPeriodEnd: Option<int>,
    includedCharts: nat,
    chartsUsed: nat,
    meteredItemId: Option<string>,
    canceledAt: Option<int>,
    updatedAt: Option<int>)

  /** A row of squad_invites. */
  datatype Invite = Invite(
    squadId: SquadId,
    status: string,
    acceptedAt: Option<int>,
    acceptedByUserId: Option<UserId>)

  /** The three tables, keyed by their primary keys (user_id, id, id); a row's key is its key column. */
  datatype Db = Db(
    squads: map<SquadId, Squad>,
    users: map<UserId, UserRow>,
    invites: map<InviteId, Invite>)

  /** A column in an update object: left out (`Keep`) or given a value (`Put`). */
  datatype Field<T> = Keep | Put(value: T)
  {
    function Over(current: T): T
    {
      if Put? then value else current
    }
  }

  /** The object passed to `.from("user_subscriptions").update(...)`. */
  datatype UserPatch = UserPatch(
    subscriptionStatus: Field<string>,
    stripeCustomerId: Field<Option<string>>,
    stripeSubscriptionId: Field<Option<string>>,
    stripeCustomerEmail: Field<Option<string>>,
    currentPeriodStart: Field<Option<int>>,
    currentPeriodEnd: Field<Option<int>>,
    canceledAt: Field<Option<int>>,
    allowedSquads: Field<seq<string>>,
    squadId: Field<Option<SquadId>>,
    squadNames: Field<seq<string>>,
    updatedAt: Field<Option<int>>)
  {
    function ApplyTo(row: UserRow): UserRow
    {
      UserRow(
        subscriptionStatus.Over(row.subscriptionStatus),
        stripeCustomerId.Over(row.stripeCustomerId),
        stripeSubscriptionId.Over(row.stripeSubscriptionId),
        stripeCustomerEmail.Over(row.stripeCustomerEmail),
        currentPeriodStart.Over(row.currentPeriodStart),
        currentPeriodEnd.Over(row.currentPeriodEnd),
        canceledAt.Over(row.canceledAt),
        allowedSquads.Over(row.allowedSquads),
        squadId.Over(row.squadId),
        squadNames.Over(row.squadNames),
        updatedAt.Over(row.updatedAt))
    }
  }

  const NO_USER_CHANGE := UserPatch(Keep, Keep, Keep, Keep, Keep, Keep, Keep, Keep, Keep, Keep, Keep)

  /** The object passed to `.from("squads").update(...)`. */
  datatype SquadPatch = SquadPatch(
    subscriptionStatus: Field<string>,
    currentPeriodStart: Field<Option<int>>,
    currentPeriodEnd: Field<Option<int>>,
    canceledAt: Field<Option<int>>,
    updatedAt: Field<Option<int>>)
  {
    function ApplyTo(row: Squad): Squad
    {
      row.(
        subscriptionStatus := subscriptionStatus.Over(row.subscriptionStatus),
        currentPeriodStart := currentPeriodStart.Over(row.currentPeriodStart),
        currentPeriodEnd := currentPeriodEnd.Over(row.currentPeriodEnd),
        canceledAt := canceledAt.Over(row.canceledAt),
        updatedAt := updatedAt.Over(row.updatedAt))
    }
  }

  const NO_SQUAD_CHANGE := SquadPatch(Keep, Keep, Keep, Keep, Keep)

  /** The `.eq(column, value)` filters used on user_subscriptions. */
  datatype UserFilter =
    | UserIdIs(userId: UserId)
    | SubscriptionIs(subscriptionId: string)
    | CustomerIs(customerId: string)
    | SquadIs(squadId: SquadId)

  /** A column compared with `.eq` matches only a non-null equal value. */
  predicate Selects(f: UserFilter, userId: UserId, row: UserRow)
  {
    match f
    case UserIdIs(u) => userId == u
    case SubscriptionIs(s) => row.stripeSubscriptionId == Some(s)
    case CustomerIs(c) => row.stripeCustomerId == Some(c)
    case SquadIs(q) => row.squadId == Some(q)
  }

  /** `.from("user_subscriptions").update(p).eq(...)`: every matching row gets p, no other row changes. */
  function PatchUsers(users: map<UserId, UserRow>, f: UserFilter, p: UserPatch): (r: map<UserId, UserRow>)
    ensures r.Keys == users.Keys
    ensures forall u :: u in users && Selects(f, u, users[u]) ==> r[u] == p.ApplyTo(users[u])
    ensures forall u :: u in users && !Selects(f, u, users[u]) ==> r[u] == users[u]
  {
    map u | u in users :: if Selects(f, u, users[u]) then p.ApplyTo(users[u]) else users[u]
  }

  /** `.from("squads").update(p).eq("stripe_subscription_id", s)`. */
  function PatchSquads(squads: map<SquadId, Squad>, subscriptionId: string, p: SquadPatch): (r: map<SquadId, Squad>)
    ensures r.Keys == squads.Keys
    ensures forall id :: id in squads && squads[id].stripeSubscriptionId == Some(subscriptionId) ==> r[id] == p.ApplyTo(squads[id])
    ensures forall id :: id in squads && squads[id].stripeSubscriptionId != Some(subscriptionId) ==> r[id] == squads[id]
  {
    map id | id in squads :: if squads[id].stripeSubscriptionId == Some(subscriptionId) then p.ApplyTo(squads[id]) else squads[id]
  }

  /** A user_subscriptions row inserted by an upsert: columns the upsert leaves out are null or empty. */
  const BLANK_USER := UserRow("", None, None, None, None, None, None, [], None, [], None)

  /** `.from("user_subscriptions").upsert(row, { onConflict: "user_id" })`. */
  function UpsertUser(users: map<UserId, UserRow>, userId: UserId, p: UserPatch): (r: map<UserId, UserRow>)
    ensures r.Keys == users.Keys + {userId}
    ensures r[userId] == p.ApplyTo(if userId in users then users[userId] else BLANK_USER)
    ensures forall u :: u in users && u != userId ==> r[u] == users[u]
  {
    users[userId := p.ApplyTo(if userId in users then users[userId] else BLANK_USER)]
  }

  const ACCEPTED := "accepted"

  /**
   * `.from("squad_invites").update({ status: "accepted", accepted_at, accepted_by_user_id }).eq("id", i)`:
   * the invite with that key, if there is one, is marked accepted; an unknown key writes nothing.
   */
  function MarkAccepted(invites: map<InviteId, Invite>, inviteId: InviteId, userId: UserId, now: int): (r: map<InviteId, Invite>)
    ensures r.Keys == invites.Keys
    ensures inviteId in invites ==>
      r[inviteId] == invites[inviteId].(status := ACCEPTED, acceptedAt := Some(now), acceptedByUserId := Some(userId))
    ensures forall i :: i in invites && i != inviteId ==> r[i] == invites[i]
  {
    if inviteId in invites then
      invites[inviteId := invites[inviteId].(status := ACCEPTED, acceptedAt := Some(now), acceptedByUserId := Some(userId))]
    else invites
  }

  /** The squads whose stripe_subscription_id is the given id. */
  function SquadsWithSubscription(squads: map<SquadId, Squad>, subscriptionId: string): set<SquadId>
  {
    set id | id in squads && squads[id].stripeSubscriptionId == Some(subscriptionId)
  }

  /**
   * `.from("squads").select("id").eq("stripe_subscription_id", s).single()`:
   * `.single()` yields the row only when exactly one row matches.
   */
  function SquadLookup(squads: map<SquadId, Squad>, subscriptionId: string): (found: Option<SquadId>)
    ensures found.Some? <==> |SquadsWithSubscription(squads, subscriptionId)| == 1
    ensures found.Some? ==> SquadsWithSubscription(squads, subscriptionId) == {found.value}
  {
    var matches := SquadsWithSubscription(squads, subscriptionId);
    if |matches| == 1 then
      SingletonIsItsElement(matches);
      var id :| id in matches;
      Some(id)
    else None
  }

  lemma SingletonIsItsElement<T>(s: set<T>)
    requires |s| == 1
    ensures forall x :: x in s ==> s == {x}
  {
    forall x | x in s
      ensures s == {x}
    {
      assert |s - {x}| == 0;
      assert s - {x} == {};
    }
  }

  /** When the lookup finds a squad, no other squad carries the subscription id. */
  lemma LookupIsOnlyMatch(squads: map<SquadId, Squad>, subscriptionId: string)
    ensures var found := SquadLookup(squads, subscriptionId);
      found.Some? ==>
        && found.value in squads
        && squads[found.value].stripeSubscriptionId == Some(subscriptionId)
        && forall s :: s in squads && s != found.value ==> squads[s].stripeSubscriptionId != Some(subscriptionId)
  {
    var found := SquadLookup(squads, subscriptionId);
    if found.Some? {
      var matches := SquadsWithSubscription(squads, subscriptionId);
      assert found.value in matches;
      forall s | s in squads && s != found.value
        ensures squads[s].stripeSubscriptionId != Some(subscriptionId)
      {
        assert s !in matches;
      }
    }
  }

  /** Patching squads never changes which squads carry a subscription id, so the lookup is stable. */
  lemma PatchKeepsLookup(squads: map<SquadId, Squad>, subscriptionId: string, p: SquadPatch, other: string)
    ensures SquadsWithSubscription(PatchSquads(squads, subscriptionId, p), other) == SquadsWithSubscription(squads, other)
    ensures SquadLookup(PatchSquads(squads, subscriptionId, p), other) == SquadLookup(squads, other)
  {
  }

  /** Only rows the filter selects may differ; no row is added or removed. */
  ghost predicate UsersFramed(before: map<UserId, UserRow>, after: map<UserId, UserRow>, f: UserFilter)
  {
    after.Keys == before.Keys && forall u :: u in before && !Selects(f, u, before[u]) ==> after[u] == before[u]
  }

  /** Only the given squad may differ; no squad is added or removed. */
  ghost predicate SquadsFramed(before: map<SquadId, Squad>, after: map<SquadId, Squad>, id: SquadId)
  {
    after.Keys == before.Keys && forall s :: s in before && s != id ==> after[s] == before[s]
  }

  /** `after` is `before` with subscription_status set to `status` and possibly updated_at; nothing else. */
  ghost predicate StatusSetTo(before: UserRow, after: UserRow, status: string)
  {
    after.subscriptionStatus == status
    && after.(subscriptionStatus := before.subscriptionStatus, updatedAt := before.updatedAt) == before
  }

  /** Every member row of the squad has its status set to `status`, and no other row changes. */
  ghost predicate MembersSetTo(before: map<UserId, UserRow>, after: map<UserId, UserRow>, squadId: SquadId, status: string)
  {
    UsersFramed(before, after, SquadIs(squadId))
    && forall u :: u in before && before[u].squadId == Some(squadId) ==> StatusSetTo(before[u], after[u], status)
  }
}
