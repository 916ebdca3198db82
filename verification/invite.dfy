/**
 * The accept-squad-invite edge function: validate the request, check that the
 * squad exists and is active, return early when the user already belongs to
 * it, upsert the user's row on user_id, then mark the invite accepted on a
 * best-effort basis. It writes the same store as the webhook.
 */
module InviteAcceptance {
  import opened Common
  import opened Entitlements
  import opened Database

  /** The JSON body's fields; a field that is missing or not a string is `None`. */
  datatype InviteBody = InviteBody(userId: Option<string>, squadId: Option<string>, inviteId: Option<string>)

  /** The request; `body` is `None` when `req.json()` throws. */
  datatype InviteRequest = InviteRequest(httpMethod: string, body: Option<InviteBody>)

  /** What the response carries. */
  datatype Reply =
    | NoContent                                           // CORS preflight
    | MethodNotAllowed
    | Error(message: string)                              // `{ error }`
    | ThrownError                                         // `{ error: err.message }` from the outer catch
    | Joined(message: string, squadName: Option<string>)  // `{ success: true, message, squad_name? }`

  datatype Response = Response(status: nat, reply: Reply)

  /** Store errors: `upsert` for the user_subscriptions upsert, `inviteUpdate` for the squad_invites update. */
  datatype InviteFaults = InviteFaults(upsert: bool, inviteUpdate: bool)

  datatype Result = Result(db: Db, response: Response)

  const MISSING_IDS := "user_id and squad_id are required"
  const SQUAD_NOT_FOUND := "Squad not found"
  const SQUAD_NOT_ACTIVE := "Squad subscription is not active"
  const UPSERT_FAILED := "Failed to create subscription"   // followed by the store's own error text
  const ALREADY_MEMBER := "User is already a member of this squad"
  const JOINED := "Successfully joined squad"

  /** The upserted columns: the squad's membership, status and period end; the rest of an existing row stays. */
  function Membership(squad: Squad, squadId: SquadId): UserPatch
  {
    NO_USER_CHANGE.(
      squadId := Put(Some(squadId)),
      subscriptionStatus := Put(ACTIVE),
      currentPeriodEnd := Put(squad.currentPeriodEnd),
      squadNames := Put([squad.name]),
      allowedSquads := Put([squadId]))
  }

  /** The request passes validation: a POST whose body names a user and a squad. */
  predicate Validated(req: InviteRequest)
  {
    req.httpMethod == "POST" && req.body.Some? && TruthyStr(req.body.value.userId) && TruthyStr(req.body.value.squadId)
  }

  /** The request reaches the upsert: validated, the squad is active and the user is not yet a member. */
  predicate Joins(db: Db, req: InviteRequest)
  {
    && Validated(req)
    && var userId := req.body.value.userId.value;
    && var squadId := req.body.value.squadId.value;
    && squadId in db.squads
    && db.squads[squadId].subscriptionStatus == ACTIVE
    && !(userId in db.users && db.users[userId].squadId == Some(squadId))
  }

  function AcceptInvite(db: Db, req: InviteRequest, now: int, faults: InviteFaults): (r: Result)
    // Squads are only read.
    ensures r.db.squads == db.squads
    // Method handling.
    ensures req.httpMethod == "OPTIONS" ==> r == Result(db, Response(204, NoContent))
    ensures req.httpMethod != "OPTIONS" && req.httpMethod != "POST" ==> r == Result(db, Response(405, MethodNotAllowed))
    ensures req.httpMethod == "POST" && req.body.None? ==> r == Result(db, Response(500, ThrownError))
    // The guards: each answers without writing.
    ensures req.httpMethod == "POST" && req.body.Some? && !Validated(req) ==>
      r == Result(db, Response(400, Error(MISSING_IDS)))
    ensures Validated(req) && req.body.value.squadId.value !in db.squads ==>
      r == Result(db, Response(404, Error(SQUAD_NOT_FOUND)))
    ensures Validated(req) && req.body.value.squadId.value in db.squads
            && db.squads[req.body.value.squadId.value].subscriptionStatus != ACTIVE ==>
      r == Result(db, Response(403, Error(SQUAD_NOT_ACTIVE)))
    // Re-acceptance by a member writes nothing and succeeds.
    ensures Validated(req) && !Joins(db, req) && req.body.value.squadId.value in db.squads
            && db.squads[req.body.value.squadId.value].subscriptionStatus == ACTIVE ==>
      r == Result(db, Response(200, Joined(ALREADY_MEMBER, None)))
    // A failed upsert writes nothing, the invite included.
    ensures Joins(db, req) && faults.upsert ==> r == Result(db, Response(500, Error(UPSERT_FAILED)))
    // A join.
    ensures Joins(db, req) && !faults.upsert ==>
      var userId := req.body.value.userId.value;
      var squadId := req.body.value.squadId.value;
      var squad := db.squads[squadId];
      && r.response == Response(200, Joined(JOINED, Some(squad.name)))
      && r.db.users.Keys == db.users.Keys + {userId}
      && (forall u :: u in db.users && u != userId ==> r.db.users[u] == db.users[u])
      // The upserted columns over the existing row, or over a row of nulls and empty lists.
      && r.db.users[userId] == (if userId in db.users then db.users[userId] else BLANK_USER).(
           squadId := Some(squadId),
           subscriptionStatus := ACTIVE,
           currentPeriodEnd := squad.currentPeriodEnd,
           squadNames := [squad.name],
           allowedSquads := [squadId])
      && (TruthyStr(req.body.value.inviteId) && !faults.inviteUpdate ==>
            r.db.invites == MarkAccepted(db.invites, req.body.value.inviteId.value, userId, now))
      && (!TruthyStr(req.body.value.inviteId) || faults.inviteUpdate ==> r.db.invites == db.invites)
  {
    if req.httpMethod == "OPTIONS" then Result(db, Response(204, NoContent))
    else if req.httpMethod != "POST" then Result(db, Response(405, MethodNotAllowed))
    else if req.body.None? then Result(db, Response(500, ThrownError))
    else if !Validated(req) then Result(db, Response(400, Error(MISSING_IDS)))
    else
      var userId := req.body.value.userId.value;
      var squadId := req.body.value.squadId.value;
      if squadId !in db.squads then Result(db, Response(404, Error(SQUAD_NOT_FOUND)))
      else
        var squad := db.squads[squadId];
        if squad.subscriptionStatus != ACTIVE then Result(db, Response(403, Error(SQUAD_NOT_ACTIVE)))
        else if userId in db.users && db.users[userId].squadId == Some(squadId) then
          Result(db, Response(200, Joined(ALREADY_MEMBER, None)))
        else if faults.upsert then Result(db, Response(500, Error(UPSERT_FAILED)))
        else
          var db1 := db.(users := UpsertUser(db.users, userId, Membership(squad, squadId)));
          var db2 := if TruthyStr(req.body.value.inviteId) && !faults.inviteUpdate
                     then db1.(invites := MarkAccepted(db1.invites, req.body.value.inviteId.value, userId, now))
                     else db1;
          Result(db2, Response(200, Joined(JOINED, Some(squad.name))))
  }

  /** Accepting the same invite again after a join changes nothing and reports the existing membership. */
  lemma ReacceptanceIsNoOp(db: Db, req: InviteRequest, now: int, faults: InviteFaults, later: int, laterFaults: InviteFaults)
    requires Joins(db, req) && !faults.upsert
    ensures var first := AcceptInvite(db, req, now, faults);
      AcceptInvite(first.db, req, later, laterFaults) == Result(first.db, Response(200, Joined(ALREADY_MEMBER, None)))
  {
    var first := AcceptInvite(db, req, now, faults);
    var userId := req.body.value.userId.value;
    var squadId := req.body.value.squadId.value;
    assert first.db.users[userId].squadId == Some(squadId);
    assert !Joins(first.db, req);
  }

  /** The handler against the store: guards in order, then the upsert, then the invite update. */
  method AcceptSquadInvite(st: Store, req: InviteRequest, now: int, faults: InviteFaults) returns (response: Response)
    modifies st
    ensures Result(st.Snapshot(), response) == AcceptInvite(old(st.Snapshot()), req, now, faults)
  {
    if req.httpMethod == "OPTIONS" {
      return Response(204, NoContent);
    }
    if req.httpMethod != "POST" {
      return Response(405, MethodNotAllowed);
    }
    if req.body.None? {
      return Response(500, ThrownError);
    }
    var body := req.body.value;
    if !TruthyStr(body.userId) || !TruthyStr(body.squadId) {
      return Response(400, Error(MISSING_IDS));
    }
    var userId := body.userId.value;
    var squadId := body.squadId.value;

    var squad := st.FindSquadById(squadId);
    if squad.None? {
      return Response(404, Error(SQUAD_NOT_FOUND));
    }
    if squad.value.subscriptionStatus != ACTIVE {
      return Response(403, Error(SQUAD_NOT_ACTIVE));
    }

    var member := st.HasMembership(userId, squadId);
    if member {
      return Response(200, Joined(ALREADY_MEMBER, None));
    }

    var error := st.UpsertUser(userId, Membership(squad.value, squadId), faults.upsert);
    if error {
      return Response(500, Error(UPSERT_FAILED));
    }

    if TruthyStr(body.inviteId) {
      // An error here is logged only: the membership is already in place.
      error := st.MarkInviteAccepted(body.inviteId.value, userId, now, faults.inviteUpdate);
    }
    return Response(200, Joined(JOINED, Some(squad.value.name)));
  }
}
