/** The browser-side membership context (src/context/MembershipContext.tsx):
    the `membership` and `loading` cells, a refresh that reads the user's row
    from the hosted `memberships` table, an activation that upserts it, and
    the derived `isMember`. Unlike the server, the client writes no end date
    and its `isMember` looks at the status only. Each handler is one atomic
    step; the table's failures are parameters. */
module MembershipClient {
  import opened Common
  import Server = Membership

  type UserId = string

  /** A row of the hosted table; dates are ISO strings or null. */
  datatype Row = Row(
    id: string,
    userId: UserId,
    plan: string,
    status: string,
    startDate: Option<string>,
    endDate: Option<string>)

  /** An error of the hosted table's client, with its SQLSTATE code. */
  datatype DbError = DbError(code: string, message: string)

  const UniqueViolation: string := "23505"

  /** The error thrown when activating without a session. */
  const NotLoggedIn: string := "User not logged in."

  /** The values sent by the upsert. */
  datatype Payload = Payload(userId: UserId, plan: string, status: string, startDate: string, endDate: Option<string>)

  /** `{ user_id, type, status: "active", start_date: now, end_date: null }` */
  function PayloadFor(uid: UserId, plan: string, nowIso: string): (p: Payload)
    ensures p.userId == uid && p.plan == plan && p.status == "active"
    ensures p.startDate == nowIso && p.endDate.None?
  {
    Payload(uid, plan, "active", nowIso, None)
  }

  /** `!!membership && membership.status === "active"` */
  predicate IsMemberOf(membership: Option<Row>) {
    membership.Some? && membership.value.status == "active"
  }

  /** The upsert on conflict of `user_id`: an existing row keeps its id and
      takes the payload's values, otherwise a row is created. */
  function Upsert(rows: map<UserId, Row>, p: Payload, freshId: string): map<UserId, Row> {
    var id := if p.userId in rows then rows[p.userId].id else freshId;
    rows[p.userId := Row(id, p.userId, p.plan, p.status, Some(p.startDate), p.endDate)]
  }

  /** The upserted row is the user's only row, active and open-ended; the
      other users' rows are untouched. */
  lemma UpsertSpec(rows: map<UserId, Row>, p: Payload, freshId: string)
    requires p.status == "active"
    ensures var u := Upsert(rows, p, freshId);
      && u.Keys == rows.Keys + {p.userId}
      && IsMemberOf(Some(u[p.userId]))
      && u[p.userId].endDate == p.endDate && u[p.userId].plan == p.plan
      && (forall v :: v in rows && v != p.userId ==> u[v] == rows[v])
  {
  }

  /** The two gates disagree: a server row still marked active whose end
      date has passed is no membership for the server, yet the same status
      on the client is one, whatever the dates. */
  lemma GatesDisagree(m: Server.Membership, now: int, row: Row)
    requires m.status == Server.ActiveStatus && now >= m.endDate
    requires row.status == m.status
    ensures !Server.IsActiveAt(m, now)
    ensures IsMemberOf(Some(row))
    ensures forall d: Option<string> :: IsMemberOf(Some(row.(endDate := d)))
  {
  }

  /** The hosted `memberships` table. */
  class HostedTable {
    var rows: map<UserId, Row>

    constructor(initial: map<UserId, Row>)
      ensures rows == initial
    {
      rows := initial;
    }
  }

  /** How an activation ended: normally, or by throwing an error. */
  datatype Outcome = Done | Threw(message: string)

  class MembershipContext {
    var membership: Option<Row>
    var loading: bool

    constructor()
      ensures membership == None && !loading
    {
      membership := None;
      loading := false;
    }

    predicate IsMember()
      reads this
    {
      IsMemberOf(membership)
    }

    /** `refreshMembership`: no user clears the membership; otherwise the
        user's row is read (`maybeSingle`: none gives null) and an error
        clears it. `loading` is false afterwards. */
    method Refresh(user: Option<UserId>, table: HostedTable, fault: Option<DbError>)
      modifies this
      ensures user.None? ==> membership == None && loading == old(loading)
      ensures user.Some? && fault.Some? ==> membership == None && !loading
      ensures user.Some? && fault.None? ==>
        membership == (if user.value in table.rows then Some(table.rows[user.value]) else None) && !loading
    {
      if user.None? {
        membership := None;
        return;
      }
      loading := true;
      if fault.Some? {
        membership := None;
      } else if user.value in table.rows {
        membership := Some(table.rows[user.value]);
      } else {
        membership := None;
      }
      loading := false;
    }

    /** `activateMembership(type = "annual")`. Without a user it throws and
        changes nothing. A successful upsert stores the returned row. A
        unique violation is answered by a refresh; any other error is
        rethrown and leaves the membership as it was. `loading` is false at
        the end in every case that reached the upsert. */
    method Activate(user: Option<UserId>, plan: Option<string>, nowIso: string, table: HostedTable,
                    freshId: string, fault: Option<DbError>, refreshFault: Option<DbError>)
      returns (outcome: Outcome)
      modifies this, table
      ensures user.None? ==>
        outcome == Threw(NotLoggedIn) && membership == old(membership) && loading == old(loading)
        && table.rows == old(table.rows)
      ensures user.Some? && fault.None? ==>
        && table.rows == Upsert(old(table.rows), PayloadFor(user.value, Server.PlanOf(plan), nowIso), freshId)
        && membership == Some(table.rows[user.value])
        && IsMember() && outcome == Done
      ensures user.Some? && fault.Some? ==> table.rows == old(table.rows)
      ensures user.Some? && fault.Some? && fault.value.code == UniqueViolation ==>
        outcome == Done
        && membership == (if refreshFault.None? && user.value in table.rows then Some(table.rows[user.value]) else None)
      ensures user.Some? && fault.Some? && fault.value.code != UniqueViolation ==>
        outcome == Threw(fault.value.message) && membership == old(membership)
      ensures user.Some? ==> !loading
    {
      if user.None? {
        return Threw(NotLoggedIn);
      }
      loading := true;
      var chosen := if plan.Some? then plan.value else Server.DefaultPlan;
      if fault.None? {
        var payload := Payload(user.value, chosen, "active", nowIso, None);
        table.rows := Upsert(table.rows, payload, freshId);
        membership := Some(table.rows[user.value]);
        outcome := Done;
      } else if fault.value.code == UniqueViolation {
        Refresh(user, table, refreshFault);
        outcome := Done;
      } else {
        outcome := Threw(fault.value.message);
      }
      loading := false;
    }
  }
}
