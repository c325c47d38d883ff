/** The server side of the entitlement gate: the membership table keyed by
    user, read with lazy expiry and written by upsert-on-activation
    (server/controllers/membership.controller.ts), and the two serverless
    handlers wrapping the same logic with a method check and the mapping of
    token errors to 401 (api/membership/status.ts, api/membership/activate.ts).
    Time is milliseconds since the epoch, passed in as `now`; token
    verification and database failures are parameters. */
module Membership {
  import opened Common

  type UserId = string

  const ActiveStatus: string := "active"
  const ExpiredStatus: string := "expired"
  const DefaultPlan: string := "annual"

  /** A membership row; `plan` is the column `type`. */
  datatype Membership = Membership(
    id: string,
    userId: UserId,
    status: string,
    startDate: int,
    endDate: int,
    plan: string)

  /** The table, one row per user (the `userId` column is unique). */
  type Table = map<UserId, Membership>

  predicate WellKeyed(t: Table) {
    forall u :: u in t ==> t[u].userId == u
  }

  const DayMs: int := 24 * 60 * 60 * 1000

  /** `setFullYear(getFullYear() + 1)` taken as 365 days. */
  function AddYear(t: int): (r: int)
    ensures t < r
  {
    t + 365 * DayMs
  }

  /** `status === 'active' && new Date() < endDate` */
  predicate IsActiveAt(m: Membership, now: int) {
    m.status == ActiveStatus && now < m.endDate
  }

  /** The body of a successful status read. */
  datatype StatusBody = StatusBody(isMember: bool, membership: Option<Membership>)

  /** What the status read answers: the row as read, before any write. */
  function StatusOf(t: Table, uid: UserId, now: int): StatusBody {
    if uid !in t then StatusBody(false, None)
    else StatusBody(IsActiveAt(t[uid], now), Some(t[uid]))
  }

  /** The read writes exactly when the row is still marked active but its
      end date has passed. */
  predicate NeedsExpiry(t: Table, uid: UserId, now: int) {
    uid in t && t[uid].status == ActiveStatus && !(now < t[uid].endDate)
  }

  /** The table after a status read. */
  function AfterRead(t: Table, uid: UserId, now: int): Table {
    if NeedsExpiry(t, uid, now) then t[uid := t[uid].(status := ExpiredStatus)] else t
  }

  /** No row: not a member, no membership, no write. */
  lemma StatusNoRow(t: Table, uid: UserId, now: int)
    requires uid !in t
    ensures StatusOf(t, uid, now) == StatusBody(false, None)
    ensures AfterRead(t, uid, now) == t
  {
  }

  /** With a row, membership holds iff it is active and not yet ended, and
      the row returned is the one read, before the expiry write. */
  lemma StatusWithRow(t: Table, uid: UserId, now: int)
    requires uid in t
    ensures StatusOf(t, uid, now).isMember <==> t[uid].status == ActiveStatus && now < t[uid].endDate
    ensures StatusOf(t, uid, now).membership == Some(t[uid])
  {
  }

  /** The expiry write touches only the reader's row and only its status,
      turns it to "expired" exactly when it was active and past its end
      date, and never writes a row that is not active. */
  lemma AfterReadSpec(t: Table, uid: UserId, now: int)
    ensures AfterRead(t, uid, now).Keys == t.Keys
    ensures forall u :: u in t && u != uid ==> AfterRead(t, uid, now)[u] == t[u]
    ensures uid in t ==>
      AfterRead(t, uid, now)[uid] == t[uid].(status := if NeedsExpiry(t, uid, now) then ExpiredStatus else t[uid].status)
    ensures uid in t && t[uid].status != ActiveStatus ==> AfterRead(t, uid, now) == t
    ensures WellKeyed(t) ==> WellKeyed(AfterRead(t, uid, now))
  {
  }

  /** A second read at the same instant writes nothing and answers that the
      user is not a member if the first said so. */
  lemma ExpiryWritesOnce(t: Table, uid: UserId, now: int)
    ensures !NeedsExpiry(AfterRead(t, uid, now), uid, now)
    ensures AfterRead(AfterRead(t, uid, now), uid, now) == AfterRead(t, uid, now)
    ensures StatusOf(AfterRead(t, uid, now), uid, now).isMember == StatusOf(t, uid, now).isMember
  {
  }

  /** `const { type = 'annual' } = req.body`: the default applies only when
      the field is absent. */
  function PlanOf(requested: Option<string>): (plan: string)
    ensures requested.None? ==> plan == DefaultPlan
    ensures requested.Some? ==> plan == requested.value
  {
    if requested.Some? then requested.value else DefaultPlan
  }

  /** The upsert keyed by user: both branches set status, dates and plan;
      the create branch takes the fresh row id. */
  function Upserted(t: Table, uid: UserId, plan: string, now: int, freshId: string): Table {
    var row := if uid in t then t[uid].(status := ActiveStatus, startDate := now, endDate := AddYear(now), plan := plan)
               else Membership(freshId, uid, ActiveStatus, now, AddYear(now), plan);
    t[uid := row]
  }

  /** After activation the user has exactly one row, active from `now` for
      a year with the requested plan, whether or not a row existed (keeping
      its id if it did); every other row is untouched. */
  lemma UpsertedSpec(t: Table, uid: UserId, plan: string, now: int, freshId: string)
    requires WellKeyed(t)
    ensures var u := Upserted(t, uid, plan, now, freshId);
      && u.Keys == t.Keys + {uid}
      && u[uid].userId == uid && u[uid].status == ActiveStatus
      && u[uid].startDate == now && u[uid].endDate == AddYear(now) && u[uid].plan == plan
      && u[uid].id == (if uid in t then t[uid].id else freshId)
      && (forall v :: v in t && v != uid ==> u[v] == t[v])
      && WellKeyed(u)
  {
  }

  /** A status read right after activation, at the same instant, finds a
      member and writes nothing. */
  lemma ReadAfterActivate(t: Table, uid: UserId, plan: string, now: int, freshId: string)
    ensures StatusOf(Upserted(t, uid, plan, now, freshId), uid, now).isMember
    ensures AfterRead(Upserted(t, uid, plan, now, freshId), uid, now) == Upserted(t, uid, plan, now, freshId)
  {
  }

  /** Activation is idempotent at a fixed instant and plan. */
  lemma UpsertIdempotent(t: Table, uid: UserId, plan: string, now: int, freshId: string, freshId2: string)
    ensures Upserted(Upserted(t, uid, plan, now, freshId), uid, plan, now, freshId2) == Upserted(t, uid, plan, now, freshId)
  {
  }

  /** Where the database call fails, if anywhere. */
  datatype DbFault = NoFault | ReadFault | WriteFault

  /** The outcome of the token check: a verified user, or the message of
      the error it threw. */
  datatype TokenCheck = Verified(uid: UserId) | TokenError(message: string)

  /** The two messages the handlers answer with 401. */
  predicate IsAuthMessage(message: string) {
    message == "No token provided" || message == "Invalid token"
  }

  /** The request body of an activation: absent, or present with or
      without `type`. */
  datatype ActivateBody = NoBody | Body(plan: Option<string>)

  datatype StatusReply =
    | StatusMethodNotAllowed
    | StatusUnauthorized(message: string)
    | StatusServerError
    | StatusOk(body: StatusBody)
  {
    function Code(): int {
      match this
      case StatusMethodNotAllowed => 405
      case StatusUnauthorized(_) => 401
      case StatusServerError => 500
      case StatusOk(_) => 200
    }
  }

  datatype ActivateReply =
    | ActivateMethodNotAllowed
    | ActivateUnauthorized(message: string)
    | ActivateServerError
    | Activated(membership: Membership)
  {
    function Code(): int {
      match this
      case ActivateMethodNotAllowed => 405
      case ActivateUnauthorized(_) => 401
      case ActivateServerError => 500
      case Activated(_) => 200
    }
  }

  /** `getMembershipStatus` for an authenticated user: the reply and the
      table afterwards. A failed read answers 500 without writing; a failed
      expiry write answers 500 and leaves the row as it was. */
  function StatusRead(t: Table, uid: UserId, now: int, fault: DbFault): (StatusReply, Table) {
    if fault == ReadFault then (StatusServerError, t)
    else if fault == WriteFault && NeedsExpiry(t, uid, now) then (StatusServerError, t)
    else (StatusOk(StatusOf(t, uid, now)), AfterRead(t, uid, now))
  }

  /** `activateMembership` for an authenticated user. A missing body makes
      the destructuring throw (500); a failed upsert answers 500 and writes
      nothing. */
  function Activation(t: Table, uid: UserId, body: ActivateBody, now: int, freshId: string, fault: DbFault): (ActivateReply, Table) {
    if body.NoBody? || fault != NoFault then (ActivateServerError, t)
    else
      var u := Upserted(t, uid, PlanOf(body.plan), now, freshId);
      (Activated(u[uid]), u)
  }

  /** The status handler of api/membership/status.ts. */
  function StatusEndpoint(verb: string, token: TokenCheck, t: Table, now: int, fault: DbFault): (StatusReply, Table) {
    if verb != "GET" then (StatusMethodNotAllowed, t)
    else if token.TokenError? then
      (if IsAuthMessage(token.message) then StatusUnauthorized(token.message) else StatusServerError, t)
    else StatusRead(t, token.uid, now, fault)
  }

  /** The activation handler of api/membership/activate.ts, with the token
      check the handler's error mapping is written for. */
  function ActivateEndpoint(verb: string, token: TokenCheck, body: ActivateBody, t: Table, now: int, freshId: string, fault: DbFault): (ActivateReply, Table) {
    if verb != "POST" then (ActivateMethodNotAllowed, t)
    else if token.TokenError? then
      (if IsAuthMessage(token.message) then ActivateUnauthorized(token.message) else ActivateServerError, t)
    else Activation(t, token.uid, body, now, freshId, fault)
  }

  /** A wrong method is refused with 405 and the table is not touched; a
      token error is 401 exactly for the two known messages, else 500, and
      never writes; any database fault is 500. */
  lemma StatusEndpointGuards(verb: string, token: TokenCheck, t: Table, now: int, fault: DbFault)
    ensures verb != "GET" ==> StatusEndpoint(verb, token, t, now, fault) == (StatusMethodNotAllowed, t)
    ensures StatusEndpoint(verb, token, t, now, fault).0.Code() == 401 <==>
      verb == "GET" && token.TokenError? && IsAuthMessage(token.message)
    ensures token.TokenError? ==> StatusEndpoint(verb, token, t, now, fault).1 == t
    ensures verb == "GET" && token.Verified? && fault == ReadFault ==>
      StatusEndpoint(verb, token, t, now, fault) == (StatusServerError, t)
    ensures verb == "GET" && token.Verified? && fault == NoFault ==>
      StatusEndpoint(verb, token, t, now, fault) == (StatusOk(StatusOf(t, token.uid, now)), AfterRead(t, token.uid, now))
  {
  }

  lemma ActivateEndpointGuards(verb: string, token: TokenCheck, body: ActivateBody, t: Table, now: int, freshId: string, fault: DbFault)
    ensures verb != "POST" ==> ActivateEndpoint(verb, token, body, t, now, freshId, fault) == (ActivateMethodNotAllowed, t)
    ensures ActivateEndpoint(verb, token, body, t, now, freshId, fault).0.Code() == 401 <==>
      verb == "POST" && token.TokenError? && IsAuthMessage(token.message)
    ensures ActivateEndpoint(verb, token, body, t, now, freshId, fault).0.Code() != 200 ==>
      ActivateEndpoint(verb, token, body, t, now, freshId, fault).1 == t
    ensures verb == "POST" && token.Verified? && body.Body? && fault == NoFault ==>
      var (r, u) := ActivateEndpoint(verb, token, body, t, now, freshId, fault);
      && u == Upserted(t, token.uid, PlanOf(body.plan), now, freshId)
      && r == Activated(u[token.uid])
  {
  }

  /** The message `jsonwebtoken` throws when handed something other than a
      token string, as both handlers do by passing the whole request. */
  const NonStringTokenMessage: string := "jwt must be a string"

  /** The handler body of api/membership/activate.ts as written. Its
      `verifyToken` comes from api/lib/auth.ts, which turns every error of
      `jwt.verify` into null, and it is handed the request rather than a
      token, so it is null for every request, a valid token included.
      Reading `userId` of null then throws a TypeError whose message is
      neither of the two mapped to 401. */
  function ActivateEndpointAsWritten(verb: string, t: Table): (ActivateReply, Table) {
    if verb != "POST" then (ActivateMethodNotAllowed, t)
    else (ActivateServerError, t)
  }

  /** As written, no request is answered 401 and every POST is answered 500
      without a write, where the handler its error mapping is written for
      answers 401 to a rejected token and activates for a verified one. */
  lemma ActivateUnauthorizedUnreachable(verb: string, uid: UserId, plan: Option<string>, t: Table, now: int, freshId: string)
    ensures ActivateEndpointAsWritten(verb, t).0.Code() != 401
    ensures ActivateEndpointAsWritten(verb, t).1 == t
    ensures verb == "POST" ==>
      && ActivateEndpointAsWritten(verb, t) == (ActivateServerError, t)
      && ActivateEndpoint(verb, TokenError("Invalid token"), Body(plan), t, now, freshId, NoFault).0.Code() == 401
      && ActivateEndpoint(verb, Verified(uid), Body(plan), t, now, freshId, NoFault).0.Activated?
  {
  }

  /** The handler body of api/membership/status.ts as written. Its
      `verifyToken` comes from lib/auth.ts, which lets `jwt.verify` throw;
      handed the request instead of a token, it always throws
      `NonStringTokenMessage`. */
  function StatusEndpointAsWritten(verb: string, t: Table, now: int, fault: DbFault): (StatusReply, Table) {
    StatusEndpoint(verb, TokenError(NonStringTokenMessage), t, now, fault)
  }

  /** As written, every GET is answered 500 without a write and no request
      is answered 401 or 200, where the intended handler answers a verified
      user 200 when the database does not fail. */
  lemma StatusAlwaysFails(verb: string, uid: UserId, t: Table, now: int, fault: DbFault)
    ensures StatusEndpointAsWritten(verb, t, now, fault).0.Code() != 401
    ensures StatusEndpointAsWritten(verb, t, now, fault).0.Code() != 200
    ensures StatusEndpointAsWritten(verb, t, now, fault).1 == t
    ensures verb == "GET" ==>
      && StatusEndpointAsWritten(verb, t, now, fault) == (StatusServerError, t)
      && StatusEndpoint(verb, Verified(uid), t, now, NoFault).0.Code() == 200
  {
  }

  /** The membership table as the controller and the handlers change it. */
  class MembershipStore {
    var rows: Table

    constructor(initial: Table)
      ensures rows == initial
    {
      rows := initial;
    }

    /** `getMembershipStatus` (controller) for the user the auth middleware
        identified. */
    method GetMembershipStatus(uid: UserId, now: int, fault: DbFault) returns (reply: StatusReply)
      modifies this
      ensures (reply, rows) == StatusRead(old(rows), uid, now, fault)
    {
      if fault == ReadFault {
        return StatusServerError;
      }
      if uid !in rows {
        return StatusOk(StatusBody(false, None));
      }
      var membership := rows[uid];
      var isActive := membership.status == ActiveStatus && now < membership.endDate;
      if !isActive && membership.status == ActiveStatus {
        if fault == WriteFault {
          return StatusServerError;
        }
        rows := rows[uid := membership.(status := ExpiredStatus)];
      }
      reply := StatusOk(StatusBody(isActive, Some(membership)));
    }

    /** `activateMembership` (controller). */
    method ActivateMembership(uid: UserId, body: ActivateBody, now: int, freshId: string, fault: DbFault)
      returns (reply: ActivateReply)
      modifies this
      ensures (reply, rows) == Activation(old(rows), uid, body, now, freshId, fault)
    {
      if body.NoBody? {
        return ActivateServerError;
      }
      var plan := if body.plan.Some? then body.plan.value else DefaultPlan;
      var startDate := now;
      var endDate := AddYear(now);
      if fault != NoFault {
        return ActivateServerError;
      }
      var row: Membership;
      if uid in rows {
        row := rows[uid].(status := ActiveStatus, startDate := startDate, endDate := endDate, plan := plan);
      } else {
        row := Membership(freshId, uid, ActiveStatus, startDate, endDate, plan);
      }
      rows := rows[uid := row];
      reply := Activated(row);
    }

    /** The status handler (api/membership/status.ts). */
    method HandleStatus(verb: string, token: TokenCheck, now: int, fault: DbFault) returns (reply: StatusReply)
      modifies this
      ensures (reply, rows) == StatusEndpoint(verb, token, old(rows), now, fault)
    {
      if verb != "GET" {
        return StatusMethodNotAllowed;
      }
      if token.TokenError? {
        if token.message == "No token provided" || token.message == "Invalid token" {
          return StatusUnauthorized(token.message);
        }
        return StatusServerError;
      }
      reply := GetMembershipStatus(token.uid, now, fault);
    }

    /** The activation handler (api/membership/activate.ts), with the token
        errors mapped as its catch block intends. */
    method HandleActivate(verb: string, token: TokenCheck, body: ActivateBody, now: int, freshId: string, fault: DbFault)
      returns (reply: ActivateReply)
      modifies this
      ensures (reply, rows) == ActivateEndpoint(verb, token, body, old(rows), now, freshId, fault)
    {
      if verb != "POST" {
        return ActivateMethodNotAllowed;
      }
      if token.TokenError? {
        if token.message == "No token provided" || token.message == "Invalid token" {
          return ActivateUnauthorized(token.message);
        }
        return ActivateServerError;
      }
      reply := ActivateMembership(token.uid, body, now, freshId, fault);
    }
  }
}
