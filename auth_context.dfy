/** The browser-side session context (src/context/AuthContext.tsx): the
    `user`, `profile` and `loading` cells, the fetch-or-create of the
    user's row in the hosted `profiles` table, and `logout`. The session
    service's answers and the table's failures (an error or the 4 s abort)
    are parameters; every handler is one atomic step on a mounted
    provider. */
module Auth {
  import opened Common
  import opened Text

  /** The session's user as far as this context uses it. */
  datatype AuthUser = AuthUser(id: string, email: Option<string>)

  /** A row of the `profiles` table. */
  datatype Profile = Profile(id: string, email: Option<string>, role: string, fullName: string)

  const DefaultRole: string := "user"
  const DefaultName: string := "User"

  /** `email?.split('@')[0] || 'User'`: the text before the first `@`, or
      `User` when that is empty or there is no email. Either way the name
      is non-empty, holds no `@`, and otherwise is a prefix of the email. */
  function FullName(email: Option<string>): (r: string)
    ensures |r| > 0 && '@' !in r
    ensures r == DefaultName || (email.Some? && r <= email.value)
  {
    var head := if email.Some? then Split(email.value, '@')[0] else "";
    if head == "" then DefaultName else head
  }

  /** With the first `@` at `k`, the name is the local part, or `User`
      when the local part is empty. */
  lemma FullNameLocalPart(email: string, k: nat)
    requires k < |email| && email[k] == '@'
    requires forall j :: 0 <= j < k ==> email[j] != '@'
    ensures FullName(Some(email)) == if k == 0 then DefaultName else email[..k]
  {
    SplitAtFirst(email, '@', k);
  }

  /** Without any `@`, the name is the whole email, or `User` for the empty
      email. */
  lemma FullNameNoAt(email: string)
    requires '@' !in email
    ensures FullName(Some(email)) == if email == "" then DefaultName else email
  {
    SplitFromLast(email, '@', 0);
  }

  /** The row inserted for a user who has none. */
  function NewProfile(u: AuthUser): Profile {
    Profile(u.id, u.email, DefaultRole, FullName(u.email))
  }

  /** Where the fetch-or-create was cut short: an error or abort while
      reading, or while inserting (no row is written then). */
  datatype Fault = NoFault | FetchFails | InsertFails

  /** What `fetchOrCreateProfile` returns, and the table after it. */
  function FetchOrCreate(rows: map<string, Profile>, user: Option<AuthUser>, fault: Fault): (Option<Profile>, map<string, Profile>) {
    if user.None? then (None, rows)
    else if fault == FetchFails then (None, rows)
    else if user.value.id in rows then (Some(rows[user.value.id]), rows)
    else if fault == InsertFails then (None, rows)
    else (Some(NewProfile(user.value)), rows[user.value.id := NewProfile(user.value)])
  }

  /** No user, or a failed read, gives no profile and leaves the table as it
      was; so does a failed insert. */
  lemma FetchOrCreateFailures(rows: map<string, Profile>, user: Option<AuthUser>, fault: Fault)
    requires user.None? || fault == FetchFails || (fault == InsertFails && user.value.id !in rows)
    ensures FetchOrCreate(rows, user, fault) == (None, rows)
  {
  }

  /** Any profile returned is the user's own and is the user's row in the
      table afterwards; the table only ever gains the user's row, and the
      row it gains is the default one. */
  lemma FetchOrCreateSpec(rows: map<string, Profile>, u: AuthUser, fault: Fault)
    ensures var (p, rows') := FetchOrCreate(rows, Some(u), fault);
      && (p.Some? ==> p.value.id == (if u.id in rows then rows[u.id].id else u.id))
      && (p.Some? ==> u.id in rows' && rows'[u.id] == p.value)
      && (u.id in rows ==> rows' == rows)
      && (rows' != rows ==> u.id !in rows && rows' == rows[u.id := NewProfile(u)])
      && (u.id !in rows && fault == NoFault ==>
            p == Some(NewProfile(u)) && p.value.role == DefaultRole && p.value.email == u.email)
  {
  }

  /** A second call after a successful one finds the row the first one
      returned and changes nothing, whatever fault the second call meets
      while inserting. */
  lemma FetchOrCreateIdempotent(rows: map<string, Profile>, u: AuthUser, fault: Fault)
    requires fault != FetchFails
    requires FetchOrCreate(rows, Some(u), NoFault).0.Some?
    ensures var (p, rows') := FetchOrCreate(rows, Some(u), NoFault);
      FetchOrCreate(rows', Some(u), fault) == (p, rows')
  {
  }

  /** The hosted `profiles` table. */
  class ProfileTable {
    var rows: map<string, Profile>

    constructor(initial: map<string, Profile>)
      ensures rows == initial
    {
      rows := initial;
    }

    /** `fetchOrCreateProfile(currentUser)`. */
    method FetchOrCreateProfile(user: Option<AuthUser>, fault: Fault) returns (p: Option<Profile>)
      modifies this
      ensures (p, rows) == FetchOrCreate(old(rows), user, fault)
    {
      if user.None? {
        return None;
      }
      if fault == FetchFails {
        return None;
      }
      var id := user.value.id;
      if id in rows {
        return Some(rows[id]);
      }
      if fault == InsertFails {
        return None;
      }
      var created := Profile(id, user.value.email, DefaultRole, FullName(user.value.email));
      rows := rows[id := created];
      p := Some(created);
    }
  }

  class AuthContext {
    var user: Option<AuthUser>
    var profile: Option<Profile>
    var loading: bool
    /** The browser's `localStorage`. */
    var storage: map<string, string>

    constructor(stored: map<string, string>)
      ensures user.None? && profile.None? && loading && storage == stored
    {
      user := None;
      profile := None;
      loading := true;
      storage := stored;
    }

    /** `isAuthenticated: !!user` */
    predicate IsAuthenticated()
      reads this
    {
      user.Some?
    }

    /** `authLoading: loading` */
    predicate AuthLoading()
      reads this
    {
      loading
    }

    /** Sets the user and then the profile the fetch-or-create finds for
        it: the common part of `initAuth` and the auth-state listener. */
    method Adopt(current: Option<AuthUser>, table: ProfileTable, fault: Fault)
      modifies this, table
      ensures user == current
      ensures (profile, table.rows) == FetchOrCreate(old(table.rows), current, fault)
      ensures loading == old(loading) && storage == old(storage)
    {
      user := current;
      if current.Some? {
        var p := table.FetchOrCreateProfile(current, fault);
        profile := p;
      } else {
        profile := None;
      }
    }

    /** `initAuth`: `sessionThrew` is a `getUser` that threw, which sets
        nothing; a `getUser` error yields no user. `loading` is released in
        every case. */
    method Init(current: Option<AuthUser>, sessionThrew: bool, table: ProfileTable, fault: Fault)
      modifies this, table
      ensures !loading && storage == old(storage)
      ensures sessionThrew ==> user == old(user) && profile == old(profile) && table.rows == old(table.rows)
      ensures !sessionThrew ==> user == current && (profile, table.rows) == FetchOrCreate(old(table.rows), current, fault)
      ensures !sessionThrew ==> (IsAuthenticated() <==> current.Some?)
    {
      if !sessionThrew {
        Adopt(current, table, fault);
      }
      loading := false;
    }

    /** The `onAuthStateChange` listener with the new session's user. */
    method SessionChanged(current: Option<AuthUser>, table: ProfileTable, fault: Fault)
      modifies this, table
      ensures user == current && (profile, table.rows) == FetchOrCreate(old(table.rows), current, fault)
      ensures !loading && storage == old(storage)
      ensures current.None? ==> profile.None? && table.rows == old(table.rows)
    {
      Adopt(current, table, fault);
      loading := false;
    }

    /** `logout`: signs out, forgets user and profile, clears storage. */
    method Logout()
      modifies this
      ensures user.None? && profile.None? && storage == map[]
      ensures !IsAuthenticated() && loading == old(loading)
    {
      user := None;
      profile := None;
      storage := map[];
    }
  }
}
