/** The account handlers, side by side as the repository keeps them:
    the normalising register and login (api/auth/register.ts,
    api/auth/login.ts) and the exact-match register and login
    (api/register.ts, api/login.ts). The user table is keyed by its unique
    email column. Password hashing and token signing are foreign libraries
    and are kept symbolic: a hash remembers the password and the cost it
    was made with, a token its claims and lifetime. Database failures are
    parameters carrying the error code. */
module Accounts {
  import opened Common
  import opened Text
  import opened EmailFormat

  /** A symbolic bcrypt hash. */
  datatype Hash = Bcrypt(secret: string, rounds: nat)

  /** `bcrypt.compare(password, hash)` */
  predicate PasswordMatches(password: string, h: Hash) {
    h.secret == password
  }

  /** A symbolic signed token: its claims `{ userId, email }` and lifetime. */
  datatype Token = Token(userId: string, email: string, days: nat)

  const TokenDays: nat := 7
  /** Cost of the normalising register's hash. */
  const NormalisingRounds: nat := 12
  /** Cost of `hashPassword` in lib/auth.ts. */
  const LibraryRounds: nat := 10
  /** The role column's default for new rows. */
  const DefaultRole: string := "user"

  /** A row of the user table. */
  datatype UserRow = UserRow(id: string, name: string, email: string, password: Hash, role: string)

  /** The user table, keyed by the unique email column. */
  type Users = map<string, UserRow>

  predicate WellKeyed(users: Users) {
    forall e :: e in users ==> users[e].email == e
  }

  /** A user as sent back to the client. There is no password field, so no
      response can carry one; `role` is absent where the handler leaves it
      out. */
  datatype PublicUser = PublicUser(id: string, name: string, email: string, role: Option<string>)

  function WithoutPassword(u: UserRow): PublicUser {
    PublicUser(u.id, u.name, u.email, Some(u.role))
  }

  datatype AccountReply =
    | Preflight                                                   // 200, empty
    | MethodNotAllowed(error: string)                             // 405
    | BadRequest(error: string)                                   // 400
    | Unauthorized(error: string)                                 // 401
    | Created(message: string, token: Token, user: PublicUser)    // 201
    | LoggedIn(message: string, token: Token, user: PublicUser)   // 200
    | ServerError(error: string)                                  // 500
  {
    function Status(): int {
      match this
      case Preflight => 200
      case MethodNotAllowed(_) => 405
      case BadRequest(_) => 400
      case Unauthorized(_) => 401
      case Created(_, _, _) => 201
      case LoggedIn(_, _, _) => 200
      case ServerError(_) => 500
    }
  }

  /** A request body field; `!field` holds for a missing or empty one. */
  predicate Falsy(f: Option<string>) {
    f.None? || f.value == ""
  }

  datatype RegisterBody = RegisterBody(name: Option<string>, email: Option<string>, password: Option<string>)
  datatype LoginBody = LoginBody(email: Option<string>, password: Option<string>)

  /** A database call that throws, with the error's code. */
  type Fault = Option<string>

  const UniqueViolationCode: string := "P2002"
  const UnreachableCode: string := "P1001"

  const InternalError: string := "Error interno del servidor"
  const BadCredentials: string := "Credenciales inválidas"
  const LoginOk: string := "Login exitoso"

  // Messages of api/auth/register.ts and api/auth/login.ts.
  const SpanishMethodNotAllowed: string := "Método no permitido"
  const AllFieldsRequired: string := "Todos los campos son requeridos: nombre, email, contraseña"
  const BadEmailFormat: string := "Formato de email inválido"
  const EmailTaken: string := "El email ya está registrado"
  const Registered: string := "Usuario registrado exitosamente"
  const CredentialsRequired: string := "Email y contraseña son requeridos"
  const DatabaseUnreachable: string := "Error de conexión con la base de datos"

  // Messages of api/register.ts and api/login.ts.
  const EnglishMethodNotAllowed: string := "Method Not Allowed"
  const FieldsMissing: string := "Faltan campos requeridos"
  const MailTaken: string := "El correo ya está registrado"
  const RegisteredExact: string := "Usuario registrado correctamente"
  const CredentialsMissing: string := "Email y contraseña requeridos"

  /* ---------------- normalising register: api/auth/register.ts ---------------- */

  /** The catch block of the normalising register. */
  function RegisterCatch(code: string): AccountReply {
    if code == UniqueViolationCode then BadRequest(EmailTaken) else ServerError(InternalError)
  }

  /** The row the normalising register creates. */
  function NormalisedRow(id: string, name: string, email: string, password: string): UserRow {
    UserRow(id, Trim(name), Trim(ToLower(email)), Bcrypt(password, NormalisingRounds), DefaultRole)
  }

  /** The reply and the table after the normalising register; `lookupFault`
      and `createFault` are the lookup and the insert throwing. */
  function RegisterNormalising(users: Users, verb: string, body: RegisterBody, freshId: string,
                               lookupFault: Fault, createFault: Fault): (AccountReply, Users) {
    if verb == "OPTIONS" then (Preflight, users)
    else if verb != "POST" then (MethodNotAllowed(SpanishMethodNotAllowed), users)
    else if Falsy(body.name) || Falsy(body.email) || Falsy(body.password) then (BadRequest(AllFieldsRequired), users)
    else if !IsEmail(body.email.value) then (BadRequest(BadEmailFormat), users)
    else if lookupFault.Some? then (RegisterCatch(lookupFault.value), users)
    else if ToLower(body.email.value) in users then (BadRequest(EmailTaken), users)
    else if createFault.Some? then (RegisterCatch(createFault.value), users)
    else
      var row := NormalisedRow(freshId, body.name.value, body.email.value, body.password.value);
      (Created(Registered, Token(row.id, row.email, TokenDays), WithoutPassword(row)), users[row.email := row])
  }

  /** Every rejection leaves the table as it was; preflight, a wrong
      method, a missing field and a malformed email are answered before
      the table is read. */
  lemma RegisterNormalisingRejects(users: Users, verb: string, body: RegisterBody, freshId: string,
                                   lookupFault: Fault, createFault: Fault)
    ensures var (r, users') := RegisterNormalising(users, verb, body, freshId, lookupFault, createFault);
      && (!r.Created? ==> users' == users)
      && (verb == "OPTIONS" ==> r == Preflight)
      && (verb != "OPTIONS" && verb != "POST" ==> r.Status() == 405)
      && (verb == "POST" && (Falsy(body.name) || Falsy(body.email) || Falsy(body.password)) ==> r == BadRequest(AllFieldsRequired))
      && (verb == "POST" && !Falsy(body.name) && !Falsy(body.email) && !Falsy(body.password) && !IsEmail(body.email.value) ==>
            r == BadRequest(BadEmailFormat))
  {
  }

  /** A 400 is a missing field, a malformed email, an email taken under
      its lower-cased form, or a unique violation, and nothing else. */
  lemma RegisterNormalisingBadRequest(users: Users, verb: string, body: RegisterBody, freshId: string,
                                      lookupFault: Fault, createFault: Fault)
    ensures RegisterNormalising(users, verb, body, freshId, lookupFault, createFault).0.Status() == 400 <==>
      verb == "POST"
      && (Falsy(body.name) || Falsy(body.email) || Falsy(body.password) || !IsEmail(body.email.value)
          || (lookupFault.Some? && lookupFault.value == UniqueViolationCode)
          || (lookupFault.None? && ToLower(body.email.value) in users)
          || (lookupFault.None? && createFault.Some? && createFault.value == UniqueViolationCode))
  {
  }

  /** The normalising register succeeds exactly when every guard passes. */
  lemma RegisterNormalisingSucceeds(users: Users, verb: string, body: RegisterBody, freshId: string,
                                    lookupFault: Fault, createFault: Fault)
    ensures RegisterNormalising(users, verb, body, freshId, lookupFault, createFault).0.Created? <==>
      verb == "POST" && !Falsy(body.name) && !Falsy(body.email) && !Falsy(body.password)
      && IsEmail(body.email.value) && ToLower(body.email.value) !in users
      && lookupFault.None? && createFault.None?
  {
  }

  /** For a well-formed email the created row is keyed by the lower-cased
      email, which is itself well-formed. */
  lemma NormalisedRowSpec(id: string, name: string, email: string, password: string)
    requires IsEmail(email)
    ensures NormalisedRow(id, name, email, password)
         == UserRow(id, Trim(name), ToLower(email), Bcrypt(password, NormalisingRounds), DefaultRole)
    ensures IsEmail(ToLower(email))
  {
    TrimLowerEmail(email);
    IsEmailLower(email);
  }

  /** A successful registration (the only way to one is a POST with every
      guard passed and no database failure) adds exactly one row, under the
      lower-cased email, with the trimmed name, the lower-cased email
      (which the trim leaves alone), the cost-12 hash and the default role;
      the reply is a 201 whose token claims and user are that row's,
      without its password. The table stays keyed by email. */
  lemma RegisterNormalisingCreates(users: Users, body: RegisterBody, freshId: string)
    requires WellKeyed(users)
    requires !Falsy(body.name) && !Falsy(body.email) && !Falsy(body.password)
    requires IsEmail(body.email.value) && ToLower(body.email.value) !in users
    ensures var key := ToLower(body.email.value);
      var row := UserRow(freshId, Trim(body.name.value), key, Bcrypt(body.password.value, NormalisingRounds), DefaultRole);
      && RegisterNormalising(users, "POST", body, freshId, None, None)
         == (Created(Registered, Token(freshId, key, TokenDays), PublicUser(freshId, row.name, key, Some(DefaultRole))),
             users[key := row])
      && WellKeyed(users[key := row])
  {
    NormalisedRowSpec(freshId, body.name.value, body.email.value, body.password.value);
  }

  /* ---------------- exact register: api/register.ts ---------------- */

  /** The reply and the table after the exact-match register. */
  function RegisterExact(users: Users, verb: string, body: RegisterBody, freshId: string,
                         lookupFault: Fault, createFault: Fault): (AccountReply, Users) {
    if verb == "OPTIONS" then (Preflight, users)
    else if verb != "POST" then (MethodNotAllowed(EnglishMethodNotAllowed), users)
    else if Falsy(body.name) || Falsy(body.email) || Falsy(body.password) then (BadRequest(FieldsMissing), users)
    else if lookupFault.Some? then (ServerError(InternalError), users)
    else if body.email.value in users then (BadRequest(MailTaken), users)
    else if createFault.Some? then (ServerError(InternalError), users)
    else
      var row := UserRow(freshId, body.name.value, body.email.value, Bcrypt(body.password.value, LibraryRounds), DefaultRole);
      (Created(RegisteredExact, Token(row.id, row.email, TokenDays), PublicUser(row.id, row.name, row.email, None)),
       users[row.email := row])
  }

  /** The exact register stores name and email as given, answers with only
      id, name and email, and rejects only the email exactly as typed; a
      failure of the database is always a 500, a unique violation
      included. */
  lemma RegisterExactSpec(users: Users, verb: string, body: RegisterBody, freshId: string,
                          lookupFault: Fault, createFault: Fault)
    requires WellKeyed(users)
    ensures var (r, users') := RegisterExact(users, verb, body, freshId, lookupFault, createFault);
      && (!r.Created? ==> users' == users)
      && (verb == "POST" && (Falsy(body.name) || Falsy(body.email) || Falsy(body.password)) ==> r == BadRequest(FieldsMissing))
      && (r.Created? <==>
            verb == "POST" && !Falsy(body.name) && !Falsy(body.email) && !Falsy(body.password)
            && body.email.value !in users && lookupFault.None? && createFault.None?)
      && (r.Created? ==>
            && users' == users[body.email.value := UserRow(freshId, body.name.value, body.email.value,
                                                           Bcrypt(body.password.value, LibraryRounds), DefaultRole)]
            && r.user == PublicUser(freshId, body.name.value, body.email.value, None)
            && r.token == Token(freshId, body.email.value, TokenDays))
      && (r.Status() == 500 <==>
            verb == "POST" && !Falsy(body.name) && !Falsy(body.email) && !Falsy(body.password)
            && (lookupFault.Some? || (body.email.value !in users && createFault.Some?)))
      && WellKeyed(users')
  {
  }

  /* ---------------- logins ---------------- */

  /** api/auth/login.ts: lookup under the lower-cased email, 401 for both
      an unknown user and a wrong password. */
  function LoginNormalising(users: Users, verb: string, body: LoginBody, lookupFault: Fault): AccountReply {
    if verb == "OPTIONS" then Preflight
    else if verb != "POST" then MethodNotAllowed(SpanishMethodNotAllowed)
    else if Falsy(body.email) || Falsy(body.password) then BadRequest(CredentialsRequired)
    else if lookupFault.Some? then
      (if lookupFault.value == UnreachableCode then ServerError(DatabaseUnreachable) else ServerError(InternalError))
    else if ToLower(body.email.value) !in users then Unauthorized(BadCredentials)
    else
      var u := users[ToLower(body.email.value)];
      if !PasswordMatches(body.password.value, u.password) then Unauthorized(BadCredentials)
      else LoggedIn(LoginOk, Token(u.id, u.email, TokenDays), WithoutPassword(u))
  }

  /** api/login.ts: lookup under the email as typed, 400 for both an
      unknown user and a wrong password, every failure a 500. */
  function LoginExact(users: Users, verb: string, body: LoginBody, lookupFault: Fault): AccountReply {
    if verb == "OPTIONS" then Preflight
    else if verb != "POST" then MethodNotAllowed(EnglishMethodNotAllowed)
    else if Falsy(body.email) || Falsy(body.password) then BadRequest(CredentialsMissing)
    else if lookupFault.Some? then ServerError(InternalError)
    else if body.email.value !in users then BadRequest(BadCredentials)
    else
      var u := users[body.email.value];
      if !PasswordMatches(body.password.value, u.password) then BadRequest(BadCredentials)
      else LoggedIn(LoginOk, Token(u.id, u.email, TokenDays), PublicUser(u.id, u.name, u.email, Some(u.role)))
  }

  /** Logging in succeeds exactly for the stored password of the row under
      the lower-cased email; an unknown email and a wrong password give the
      same 401; a database failure is a 500 naming the connection only for
      `P1001`. */
  lemma LoginNormalisingSpec(users: Users, verb: string, body: LoginBody, lookupFault: Fault)
    ensures var r := LoginNormalising(users, verb, body, lookupFault);
      && (r.LoggedIn? <==>
            verb == "POST" && !Falsy(body.email) && !Falsy(body.password) && lookupFault.None?
            && ToLower(body.email.value) in users
            && PasswordMatches(body.password.value, users[ToLower(body.email.value)].password))
      && (r.LoggedIn? ==>
            var u := users[ToLower(body.email.value)];
            r.token == Token(u.id, u.email, TokenDays) && r.user == WithoutPassword(u) && r.Status() == 200)
      && (r.Status() == 401 ==> r == Unauthorized(BadCredentials))
      && (r.Status() == 401 <==>
            verb == "POST" && !Falsy(body.email) && !Falsy(body.password) && lookupFault.None?
            && (ToLower(body.email.value) !in users
                || !PasswordMatches(body.password.value, users[ToLower(body.email.value)].password)))
      && (r == ServerError(DatabaseUnreachable) <==>
            verb == "POST" && !Falsy(body.email) && !Falsy(body.password) && lookupFault == Some(UnreachableCode))
  {
  }

  /** The exact login: the same shape with 400s, lookup as typed, and the
      user's role in the answer. */
  lemma LoginExactSpec(users: Users, verb: string, body: LoginBody, lookupFault: Fault)
    ensures var r := LoginExact(users, verb, body, lookupFault);
      && (r.LoggedIn? <==>
            verb == "POST" && !Falsy(body.email) && !Falsy(body.password) && lookupFault.None?
            && body.email.value in users && PasswordMatches(body.password.value, users[body.email.value].password))
      && (r.LoggedIn? ==>
            var u := users[body.email.value];
            r.user == PublicUser(u.id, u.name, u.email, Some(u.role)) && r.token == Token(u.id, u.email, TokenDays))
      && (verb == "POST" && !Falsy(body.email) && !Falsy(body.password) && lookupFault.None? && !r.LoggedIn? ==>
            r == BadRequest(BadCredentials))
  {
  }

  /** Which of two emails is unknown cannot be told from the answer: an
      unknown email and a wrong password get the same reply, in both
      variants. */
  lemma {:induction false} LoginIndistinguishable(users: Users, unknown: string, known: string, wrong: string)
    requires unknown != "" && known != "" && wrong != ""
    requires ToLower(unknown) !in users && ToLower(known) in users
    requires !PasswordMatches(wrong, users[ToLower(known)].password)
    ensures LoginNormalising(users, "POST", LoginBody(Some(unknown), Some(wrong)), None)
         == LoginNormalising(users, "POST", LoginBody(Some(known), Some(wrong)), None)
    ensures unknown !in users && known in users && !PasswordMatches(wrong, users[known].password) ==>
      LoginExact(users, "POST", LoginBody(Some(unknown), Some(wrong)), None)
      == LoginExact(users, "POST", LoginBody(Some(known), Some(wrong)), None)
  {
  }

  /** After a normalising registration, the normalising login accepts the
      same password under any spelling of the email that lower-cases to the
      same text, and answers with the new row. */
  lemma {:induction false} RegisterThenLogin(users: Users, body: RegisterBody, freshId: string, typed: string)
    requires WellKeyed(users)
    requires RegisterNormalising(users, "POST", body, freshId, None, None).0.Created?
    requires typed != "" && ToLower(typed) == ToLower(body.email.value)
    ensures var users' := RegisterNormalising(users, "POST", body, freshId, None, None).1;
      var r := LoginNormalising(users', "POST", LoginBody(Some(typed), body.password), None);
      r.LoggedIn? && r.token == Token(freshId, ToLower(body.email.value), TokenDays)
  {
    RegisterNormalisingSucceeds(users, "POST", body, freshId, None, None);
    RegisterNormalisingCreates(users, body, freshId);
    var key := ToLower(body.email.value);
    var row := UserRow(freshId, Trim(body.name.value), key, Bcrypt(body.password.value, NormalisingRounds), DefaultRole);
    var users' := RegisterNormalising(users, "POST", body, freshId, None, None).1;
    assert users' == users[key := row];
    assert users'[ToLower(typed)] == row;
    assert PasswordMatches(body.password.value, row.password);
    var r := LoginNormalising(users', "POST", LoginBody(Some(typed), body.password), None);
    assert r == LoggedIn(LoginOk, Token(row.id, row.email, TokenDays), WithoutPassword(row));
  }

  /** The variants disagree on case: a user registered through the
      normalising handler with a capital letter in the email is stored
      lower-cased, so the exact login with the email as first typed does
      not find it, while the normalising login does. */
  lemma {:induction false} CaseSensitivityAcrossVariants(users: Users, body: RegisterBody, freshId: string, k: nat)
    requires WellKeyed(users)
    requires RegisterNormalising(users, "POST", body, freshId, None, None).0.Created?
    requires k < |body.email.value| && IsUpper(body.email.value[k])
    requires body.email.value !in users
    ensures var users' := RegisterNormalising(users, "POST", body, freshId, None, None).1;
      && LoginExact(users', "POST", LoginBody(body.email, body.password), None) == BadRequest(BadCredentials)
      && LoginNormalising(users', "POST", LoginBody(body.email, body.password), None).LoggedIn?
  {
    var e := body.email.value;
    RegisterNormalisingSucceeds(users, "POST", body, freshId, None, None);
    RegisterNormalisingCreates(users, body, freshId);
    ToLowerIdempotent(e);
    assert ToLower(e) != e by {
      assert !IsUpper(ToLower(e)[k]);
    }
    RegisterThenLogin(users, body, freshId, e);
  }

  /* ---------------- the user table ---------------- */

  /** The user table the register handlers write; logins only read it. */
  class UserTable {
    var users: Users

    constructor(initial: Users)
      ensures users == initial
    {
      users := initial;
    }

    /** api/auth/register.ts, as a sequence of guards and then the insert. */
    method HandleRegister(verb: string, body: RegisterBody, freshId: string, lookupFault: Fault, createFault: Fault)
      returns (reply: AccountReply)
      modifies this
      ensures (reply, users) == RegisterNormalising(old(users), verb, body, freshId, lookupFault, createFault)
    {
      if verb == "OPTIONS" {
        return Preflight;
      }
      if verb != "POST" {
        return MethodNotAllowed(SpanishMethodNotAllowed);
      }
      if Falsy(body.name) || Falsy(body.email) || Falsy(body.password) {
        return BadRequest(AllFieldsRequired);
      }
      var email := body.email.value;
      if !IsEmail(email) {
        return BadRequest(BadEmailFormat);
      }
      if lookupFault.Some? {
        return RegisterCatch(lookupFault.value);
      }
      if ToLower(email) in users {
        return BadRequest(EmailTaken);
      }
      var hashed := Bcrypt(body.password.value, NormalisingRounds);
      if createFault.Some? {
        return RegisterCatch(createFault.value);
      }
      var row := UserRow(freshId, Trim(body.name.value), Trim(ToLower(email)), hashed, DefaultRole);
      users := users[row.email := row];
      reply := Created(Registered, Token(row.id, row.email, TokenDays), PublicUser(row.id, row.name, row.email, Some(row.role)));
    }

    /** api/register.ts, as a sequence of guards and then the insert. */
    method HandleRegisterExact(verb: string, body: RegisterBody, freshId: string, lookupFault: Fault, createFault: Fault)
      returns (reply: AccountReply)
      modifies this
      ensures (reply, users) == RegisterExact(old(users), verb, body, freshId, lookupFault, createFault)
    {
      if verb == "OPTIONS" {
        return Preflight;
      }
      if verb != "POST" {
        return MethodNotAllowed(EnglishMethodNotAllowed);
      }
      if Falsy(body.name) || Falsy(body.email) || Falsy(body.password) {
        return BadRequest(FieldsMissing);
      }
      if lookupFault.Some? {
        return ServerError(InternalError);
      }
      if body.email.value in users {
        return BadRequest(MailTaken);
      }
      var hashed := Bcrypt(body.password.value, LibraryRounds);
      if createFault.Some? {
        return ServerError(InternalError);
      }
      var row := UserRow(freshId, body.name.value, body.email.value, hashed, DefaultRole);
      users := users[row.email := row];
      reply := Created(RegisteredExact, Token(row.id, row.email, TokenDays), PublicUser(row.id, row.name, row.email, None));
    }
  }
}
