/**
 * The entitlement store as the edge functions see it: one object whose three
 * tables are replaced, call by call, by the store's update, insert and upsert
 * operations. Every write takes a `fails` flag standing for the error the
 * store may report; a write that reports an error leaves the tables as they were.
 */
module Database {
  import opened Common
  import opened Entitlements

  class Store {
    var squads: map<SquadId, Squad>
    var users: map<UserId, UserRow>
    var invites: map<InviteId, Invite>

    /** The tables as a value, for stating what an operation does. */
    function Snapshot(): Db
      reads this
    {
      Db(squads, users, invites)
    }

    constructor (db: Db)
      ensures Snapshot() == db
    {
      squads := db.squads;
      users := db.users;
      invites := db.invites;
    }

    /** `.from("squads").select("id").eq("stripe_subscription_id", s).single()` */
    method FindSquadBySubscription(subscriptionId: string) returns (found: Option<SquadId>)
      ensures found.Some? ==> found.value in squads && squads[found.value].stripeSubscriptionId == Some(subscriptionId)
      ensures found.Some? ==> forall id :: id in squads && id != found.value ==> squads[id].stripeSubscriptionId != Some(subscriptionId)
      ensures found == SquadLookup(squads, subscriptionId)
    {
      var matches := set id | id in squads && squads[id].stripeSubscriptionId == Some(subscriptionId);
      if |matches| == 1 {
        SingletonIsItsElement(matches);
        var id :| id in matches;
        found := Some(id);
      } else {
        found := None;
      }
      LookupIsOnlyMatch(squads, subscriptionId);
    }

    /**
     * `.from("squads").select(...).eq("id", id).single()`: the rows whose key
     * is `id`, found only when there is exactly one. Because `id` is the key,
     * that is the row stored under it, whenever there is one.
     */
    method FindSquadById(id: SquadId) returns (found: Option<Squad>)
      ensures found.Some? <==> id in squads
      ensures found.Some? ==> found.value == squads[id]
    {
      var matches := set k | k in squads && k == id;
      if id in squads {
        assert matches == {id};
      } else {
        assert matches == {};
      }
      if |matches| == 1 {
        var k :| k in matches;
        found := Some(squads[k]);
      } else {
        found := None;
      }
    }

    /**
     * `.from("user_subscriptions").select("user_id").eq("user_id", u).eq("squad_id", s).single()`:
     * the rows matching both filters, found only when there is exactly one.
     * Because user_id is the key, the user is a member iff their own row
     * names the squad.
     */
    method HasMembership(userId: UserId, squadId: SquadId) returns (member: bool)
      ensures member <==> userId in users && users[userId].squadId == Some(squadId)
    {
      var matches := set u | u in users && u == userId && users[u].squadId == Some(squadId);
      if userId in users && users[userId].squadId == Some(squadId) {
        assert matches == {userId};
      } else {
        assert matches == {};
      }
      member := |matches| == 1;
    }

    /** `.from("user_subscriptions").update(p).eq(...)` */
    method UpdateUsers(f: UserFilter, p: UserPatch, fails: bool) returns (error: bool)
      modifies this
      ensures error == fails
      ensures squads == old(squads) && invites == old(invites)
      ensures users == if fails then old(users) else PatchUsers(old(users), f, p)
    {
      error := fails;
      if !fails {
        users := PatchUsers(users, f, p);
      }
    }

    /** `.from("squads").update(p).eq("stripe_subscription_id", s)` */
    method UpdateSquads(subscriptionId: string, p: SquadPatch, fails: bool) returns (error: bool)
      modifies this
      ensures error == fails
      ensures users == old(users) && invites == old(invites)
      ensures squads == if fails then old(squads) else PatchSquads(old(squads), subscriptionId, p)
    {
      error := fails;
      if !fails {
        squads := PatchSquads(squads, subscriptionId, p);
      }
    }

    /** `.from("squads").insert(row)`: a key already in use is a primary-key violation. */
    method InsertSquad(id: SquadId, row: Squad, fails: bool) returns (error: bool)
      modifies this
      ensures error <==> fails || id in old(squads)
      ensures users == old(users) && invites == old(invites)
      ensures squads == if error then old(squads) else old(squads)[id := row]
    {
      error := fails || id in squads;
      if !error {
        squads := squads[id := row];
      }
    }

    /** `.from("user_subscriptions").upsert(row, { onConflict: "user_id" })` */
    method UpsertUser(userId: UserId, p: UserPatch, fails: bool) returns (error: bool)
      modifies this
      ensures error == fails
      ensures squads == old(squads) && invites == old(invites)
      ensures users == if fails then old(users) else Entitlements.UpsertUser(old(users), userId, p)
    {
      error := fails;
      if !fails {
        users := Entitlements.UpsertUser(users, userId, p);
      }
    }

    /** `.from("squad_invites").update({ status: "accepted", ... }).eq("id", inviteId)` */
    method MarkInviteAccepted(inviteId: InviteId, userId: UserId, now: int, fails: bool) returns (error: bool)
      modifies this
      ensures error == fails
      ensures squads == old(squads) && users == old(users)
      ensures invites == if fails then old(invites) else MarkAccepted(old(invites), inviteId, userId, now)
    {
      error := fails;
      if !fails {
        invites := MarkAccepted(invites, inviteId, userId, now);
      }
    }
  }
}
