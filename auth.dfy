/** The auth orchestrator: register, login and token verification over a
    user table keyed by email, with the password hasher and the token
    service as collaborators. Every exception thrown inside an operation is
    caught at its boundary and turned into a structured `{status, message}`
    failure. */
module Auth {
  import opened Wrappers
  import opened Tokens
  import opened Bcrypt

  /** A stored user row; `password` holds the bcrypt hash. */
  datatype User = User(id: nat, email: string, name: string, password: string)

  /** What an operation answers: a user view and a token, or a structured error. */
  datatype AuthResult = Success(user: Claims, token: string) | Failure(status: int, message: string)

  /** The value an operation's `try` block returns when nothing throws. */
  datatype Session = Session(user: Claims, token: string)

  const BadRequest: int := 400
  const Unauthorized: int := 401

  const UserExists := "User already exist"
  const InvalidCredentials := "User/Password invalidate credentials"
  const PasswordNotValid := "Password not valid"
  const InvalidToken := "Invalid token"
  /** The store's own refusal of a second row with a taken email (email is a
      unique field, as the lookups by email require). */
  const EmailTaken := "Unique constraint failed on the constraint: `User_email_key`"

  const IdField := "id"
  const EmailField := "email"
  const NameField := "name"
  const PasswordField := "password"

  /** A user row as the object the store hands back. */
  function Row(u: User): (row: Claims)
  {
    map[IdField := Num(u.id), EmailField := Str(u.email), NameField := Str(u.name), PasswordField := Str(u.password)]
  }

  /** `const { password, ...rest } = user`: the row without its password. */
  function SafeView(u: User): (view: Claims)
    ensures view.Keys == {IdField, EmailField, NameField}
    ensures PasswordField !in view && Registered !! view.Keys
    ensures view[IdField] == Num(u.id) && view[EmailField] == Str(u.email) && view[NameField] == Str(u.name)
  {
    Omit(Row(u), {PasswordField})
  }

  /** The `catch` of registerUser and loginUser: whatever was thrown becomes
      a 400 carrying the thrown error's message; a completed `try` passes
      through. */
  function CatchAsBadRequest(body: Outcome<Session>): (r: AuthResult)
    ensures r.Failure? <==> body.Thrown?
    ensures r.Failure? ==> r.status == BadRequest && r.message == body.message
    ensures r.Success? ==> r.user == body.value.user && r.token == body.value.token
  {
    match body
    case Ok(s) => Success(s.user, s.token)
    case Thrown(m) => Failure(BadRequest, m)
  }

  /** The collaborators the service is constructed with. */
  datatype Config = Config(tokens: TokenService, hasher: Hasher)

  /** The store's state: the user table keyed by email, and the identifier
      it assigns to the next row it creates. */
  datatype Store = Store(users: map<string, User>, nextId: nat)

  /** Every row sits under its own email and has an identifier the store
      has already handed out; no two rows share an identifier. */
  ghost predicate ValidStore(st: Store)
  {
    (forall e | e in st.users :: st.users[e].email == e && st.users[e].id < st.nextId) &&
    (forall e, f | e in st.users && f in st.users && st.users[e].id == st.users[f].id :: e == f)
  }

  /** `signJWT(payload)`: under the token service's round trip, the signed
      payload verifies back to itself once the registered claims are
      omitted. */
  function SignJWT(tokens: TokenService, payload: Claims): (token: string)
    ensures RoundTrip(tokens) && Registered !! payload.Keys ==>
      tokens.verify(token).Some? && Omit(tokens.verify(token).value, Registered) == payload
  {
    var token := tokens.sign(payload);
    assert RoundTrip(tokens) && Registered !! payload.Keys ==>
      tokens.verify(token).Some? && Omit(tokens.verify(token).value, Registered) == payload
    by {
      if RoundTrip(tokens) && Registered !! payload.Keys {
        VerifySigned(tokens, payload);
      }
    }
    token
  }

  /** `this.user.findUnique({ where: { email } })`; `outage` is the message
      every store call throws while the database cannot be reached. */
  function FindUnique(st: Store, outage: Option<string>, email: string): (r: Outcome<Option<User>>)
    ensures outage.Some? ==> r == Thrown(outage.value)
    ensures outage.None? ==> r.Ok? && (r.value.Some? <==> email in st.users)
    ensures r.Ok? && r.value.Some? ==> r.value.value == st.users[email]
    ensures ValidStore(st) && r.Ok? && r.value.Some? ==> r.value.value.email == email
  {
    if outage.Some? then Thrown(outage.value)
    else if email in st.users then Ok(Some(st.users[email]))
    else Ok(None)
  }

  /** The store after one operation, and what the operation answered. */
  datatype Step = Step(store: Store, result: AuthResult)

  /** What `registerUser({ name, email, password })` does to the store and
      answers, when bcrypt draws `salt`. */
  function Register(cfg: Config, st: Store, outage: Option<string>, name: string, email: string,
                    password: string, salt: Salt): (step: Step)
    ensures step.result.Failure? ==> step.result.status == BadRequest && step.store == st
    ensures outage.Some? ==> step.result == Failure(BadRequest, outage.value)
    ensures outage.None? && email in st.users ==> step.result == Failure(BadRequest, UserExists)
    ensures outage.None? && email !in st.users ==>
      var u := User(st.nextId, email, name, HashSync(cfg.hasher, password, salt));
      step.store.users == st.users[email := u] && step.store.nextId == st.nextId + 1 &&
      step.result == Success(SafeView(u), cfg.tokens.sign(SafeView(u)))
    ensures forall e :: e in st.users ==> e in step.store.users && step.store.users[e] == st.users[e]
    ensures step.result.Success? ==>
      email in step.store.users && Compare(cfg.hasher, password, step.store.users[email].password)
    ensures ValidStore(st) ==> ValidStore(step.store)
  {
    if outage.Some? then Step(st, Failure(BadRequest, outage.value))
    else if email in st.users then Step(st, Failure(BadRequest, UserExists))
    else
      var u := User(st.nextId, email, name, HashSync(cfg.hasher, password, salt));
      var view := SafeView(u);
      Step(Store(st.users[email := u], st.nextId + 1), Success(view, SignJWT(cfg.tokens, view)))
  }

  class AuthService {
    /** The user table, keyed by email. */
    var users: map<string, User>
    /** The identifier the store assigns to the next row it creates. */
    var nextId: nat
    /** Set by the environment while the database cannot be reached: every
        store call then throws this message. */
    var outage: Option<string>
    const config: Config

    /** The store's state as a value. */
    function State(): (st: Store)
      reads this
    {
      Store(users, nextId)
    }

    ghost predicate Valid()
      reads this
    {
      ValidStore(State())
    }

    /** A service over a database that already holds `users`, whose next
        identifier is `nextId`. */
    constructor (config: Config, users: map<string, User>, nextId: nat)
      requires ValidStore(Store(users, nextId))
      ensures Valid()
      ensures this.users == users && this.nextId == nextId && outage == None
      ensures this.config == config
    {
      this.users := users;
      this.nextId := nextId;
      this.outage := None;
      this.config := config;
    }

    /** `this.user.create({ data: { email, password, name } })`. */
    method Create(email: string, name: string, password: string) returns (o: Outcome<User>)
      requires Valid()
      modifies this`users, this`nextId
      ensures Valid()
      ensures old(outage).Some? ==>
        o == Thrown(outage.value) && users == old(users) && nextId == old(nextId)
      ensures outage.None? && email in old(users) ==>
        o == Thrown(EmailTaken) && users == old(users) && nextId == old(nextId)
      ensures outage.None? && email !in old(users) ==>
        o == Ok(User(old(nextId), email, name, password)) &&
        users == old(users)[email := o.value] && nextId == old(nextId) + 1
    {
      if outage.Some? {
        o := Thrown(outage.value);
      } else if email in users {
        o := Thrown(EmailTaken);
      } else {
        var row := User(nextId, email, name, password);
        users := users[email := row];
        nextId := nextId + 1;
        o := Ok(row);
      }
    }

    /** `registerUser({ name, email, password })`: looks the email up, then
        creates the row, strips its password and signs the rest. */
    method RegisterUser(name: string, email: string, password: string, salt: Salt) returns (r: AuthResult)
      requires Valid()
      modifies this`users, this`nextId
      ensures Valid()
      ensures Step(State(), r) == Register(config, old(State()), outage, name, email, password, salt)
      ensures r.Success? ==> LoginUser(email, password) == r
      ensures r.Success? && RoundTrip(config.tokens) ==> VerifyToken(r.token) == r
    {
      var body: Outcome<Session>;
      var found := FindUnique(State(), outage, email);
      if found.Thrown? {
        body := Thrown(found.message);
      } else if found.value.Some? {
        body := Thrown(UserExists);
      } else {
        var created := Create(email, name, HashSync(config.hasher, password, salt));
        match created {
          case Thrown(m) =>
            body := Thrown(m);
          case Ok(newUser) =>
            var resUser := SafeView(newUser);
            body := Ok(Session(resUser, SignJWT(config.tokens, resUser)));
        }
      }
      r := CatchAsBadRequest(body);
      if r.Success? && RoundTrip(config.tokens) {
        VerifySafeView(this, users[email]);
      }
    }

    /** `loginUser({ email, password })`. It only reads the table. */
    function LoginUser(email: string, password: string): (r: AuthResult)
      reads this
      ensures r.Failure? ==> r.status == BadRequest
      ensures outage.Some? ==> r == Failure(BadRequest, outage.value)
      ensures outage.None? && email !in users ==> r == Failure(BadRequest, InvalidCredentials)
      ensures outage.None? && email in users && !Compare(config.hasher, password, users[email].password) ==>
        r == Failure(BadRequest, PasswordNotValid)
      ensures r.Success? <==>
        outage.None? && email in users && Compare(config.hasher, password, users[email].password)
      ensures r.Success? ==> r.user == SafeView(users[email]) && r.token == config.tokens.sign(r.user)
    {
      CatchAsBadRequest(
        match FindUnique(State(), outage, email)
        case Thrown(m) => Thrown(m)
        case Ok(None) => Thrown(InvalidCredentials)
        case Ok(Some(user)) =>
          if !Compare(config.hasher, password, user.password) then Thrown(PasswordNotValid)
          else
            var rest := SafeView(user);
            Ok(Session(rest, SignJWT(config.tokens, rest))))
    }

    /** `verifyToken(token)`. It reads no table state: its only input is the
        token. */
    function VerifyToken(token: string): (r: AuthResult)
      ensures r.Failure? <==> config.tokens.verify(token).None?
      ensures r.Failure? ==> r == Failure(Unauthorized, InvalidToken)
      ensures r.Success? ==>
        r.user.Keys == config.tokens.verify(token).value.Keys - Registered &&
        (forall k :: k in r.user ==> r.user[k] == config.tokens.verify(token).value[k])
      ensures r.Success? ==> r.token == config.tokens.sign(r.user)
    {
      var body :=
        match config.tokens.verify(token)
        case None => Thrown(InvalidToken)
        case Some(claims) =>
          var user := Omit(claims, Registered);
          Ok(Session(user, SignJWT(config.tokens, user)));
      match body
      case Ok(s) => Success(s.user, s.token)
      case Thrown(_) => Failure(Unauthorized, InvalidToken)
    }
  }

  /** The operation one inbound request asks for; `salt` is the salt bcrypt
      draws while serving a registration. */
  datatype Operation =
    | RegisterOp(name: string, email: string, password: string, salt: Salt)
    | LoginOp(email: string, password: string)
    | VerifyOp(token: string)

  /** One inbound request, with the store outage (if any) the environment
      imposes while it is served. */
  datatype Request = Request(outage: Option<string>, op: Operation)

  /** The store after serving one request. Only a registration reaches
      `Register`; a login or a verification leaves the store as it was,
      as `LoginUser` and `VerifyToken`, being functions, cannot write. */
  function Serve(cfg: Config, st: Store, req: Request): (next: Store)
    ensures !req.op.RegisterOp? ==> next == st
    ensures ValidStore(st) ==> ValidStore(next)
  {
    match req.op
    case RegisterOp(name, email, password, salt) => Register(cfg, st, req.outage, name, email, password, salt).store
    case LoginOp(_, _) => st
    case VerifyOp(_) => st
  }

  /** The store after serving `reqs` one after another. */
  function Replay(cfg: Config, st: Store, reqs: seq<Request>): (final: Store)
    decreases |reqs|
  {
    if reqs == [] then st else Replay(cfg, Serve(cfg, st, reqs[0]), reqs[1..])
  }

  /** No two rows of a table share an email. */
  ghost predicate UniqueEmails(users: map<string, User>)
  {
    forall u, v | u in users.Values && v in users.Values && u.email == v.email :: u == v
  }

  lemma {:induction false} ValidHasUniqueEmails(st: Store)
    requires ValidStore(st)
    ensures UniqueEmails(st.users)
  {
    forall u, v | u in st.users.Values && v in st.users.Values && u.email == v.email
      ensures u == v
    {
      var e :| e in st.users && st.users[e] == u;
      var f :| f in st.users && st.users[f] == v;
      assert e == u.email && f == v.email;
    }
  }

  /** However many requests are served one after another, whatever the
      outages along the way, the store stays valid, so no two rows ever
      share an email. */
  lemma {:induction false} ReplayKeepsValid(cfg: Config, st: Store, reqs: seq<Request>)
    requires ValidStore(st)
    ensures ValidStore(Replay(cfg, st, reqs))
    ensures UniqueEmails(Replay(cfg, st, reqs).users)
    decreases |reqs|
  {
    if reqs == [] {
      ValidHasUniqueEmails(st);
    } else {
      ReplayKeepsValid(cfg, Serve(cfg, st, reqs[0]), reqs[1..]);
    }
  }

  /** No request ever changes or removes a row. */
  lemma {:induction false} ReplayKeepsRows(cfg: Config, st: Store, reqs: seq<Request>)
    ensures forall e :: e in st.users ==> e in Replay(cfg, st, reqs).users && Replay(cfg, st, reqs).users[e] == st.users[e]
    decreases |reqs|
  {
    if reqs != [] {
      ReplayKeepsRows(cfg, Serve(cfg, st, reqs[0]), reqs[1..]);
    }
  }

  /** Every identifier the store hands out belongs to exactly one new row. */
  lemma {:induction false} ReplayCountsRows(cfg: Config, st: Store, reqs: seq<Request>)
    ensures Replay(cfg, st, reqs).nextId >= st.nextId
    ensures |Replay(cfg, st, reqs).users| - |st.users| == Replay(cfg, st, reqs).nextId - st.nextId
    decreases |reqs|
  {
    if reqs != [] {
      ReplayCountsRows(cfg, Serve(cfg, st, reqs[0]), reqs[1..]);
    }
  }

  /** Only registration writes: a run of logins and verifications leaves the
      store exactly as it was. */
  lemma {:induction false} ReadOnlyReplay(cfg: Config, st: Store, reqs: seq<Request>)
    requires forall i :: 0 <= i < |reqs| ==> !reqs[i].op.RegisterOp?
    ensures Replay(cfg, st, reqs) == st
    decreases |reqs|
  {
    if reqs != [] {
      ReadOnlyReplay(cfg, st, reqs[1..]);
    }
  }

  /** A token issued for a user view verifies back to that view, and the
      token reissued by verification is the one issued. */
  lemma {:induction false} VerifySafeView(s: AuthService, u: User)
    requires RoundTrip(s.config.tokens)
    ensures s.VerifyToken(s.config.tokens.sign(SafeView(u))) ==
            Success(SafeView(u), s.config.tokens.sign(SafeView(u)))
  {
    VerifySigned(s.config.tokens, SafeView(u));
  }

  /** A successful login's token passes verifyToken with the same view. */
  lemma {:induction false} LoginTokenVerifies(s: AuthService, email: string, password: string)
    requires RoundTrip(s.config.tokens)
    requires s.LoginUser(email, password).Success?
    ensures s.VerifyToken(s.LoginUser(email, password).token) == s.LoginUser(email, password)
  {
    VerifySafeView(s, s.users[email]);
  }

  /** Sliding renewal: the token verifyToken reissues verifies again, to the
      same user view. */
  lemma {:induction false} VerifyRenews(s: AuthService, token: string)
    requires RoundTrip(s.config.tokens)
    requires s.VerifyToken(token).Success?
    ensures s.VerifyToken(s.VerifyToken(token).token) == s.VerifyToken(token)
  {
    var r := s.VerifyToken(token);
    VerifySigned(s.config.tokens, r.user);
  }

  /** With a collision-free digest, a row registered with password `p`
      accepts exactly the passwords whose first 72 characters are those of
      `p`, and refuses every other one with "Password not valid". */
  lemma {:induction false} LoginChecksPasswordKey(s: AuthService, email: string, p: string, q: string, salt: Salt)
    requires CollisionFree(s.config.hasher)
    requires s.outage.None? && email in s.users
    requires s.users[email].password == HashSync(s.config.hasher, p, salt)
    ensures s.LoginUser(email, q).Success? <==> Key(q) == Key(p)
    ensures Key(q) != Key(p) ==> s.LoginUser(email, q) == Failure(BadRequest, PasswordNotValid)
  {
    CompareOnlyOriginal(s.config.hasher, p, q, salt);
  }

  /** Whatever the digest, a row registered with a password of 72 or more
      characters also logs in with that password followed by anything. */
  lemma {:induction false} LoginAcceptsLongerPassword(s: AuthService, email: string, p: string, tail: string, salt: Salt)
    requires s.outage.None? && email in s.users
    requires s.users[email].password == HashSync(s.config.hasher, p, salt)
    requires |p| >= MaxKeyLength
    ensures s.LoginUser(email, p + tail) == Success(SafeView(s.users[email]), s.config.tokens.sign(SafeView(s.users[email])))
  {
    CompareIgnoresTail(s.config.hasher, p, tail, salt);
  }
}

/** A client of the service: one user registers, logs in with a wrong and
    with the right password, and registers a second time. */
module Scenario {
  import opened Tokens
  import opened Bcrypt
  import opened Auth

  method RegisterLoginRegister(tokens: TokenService, hasher: Hasher, salt: Salt)
    returns (registered: AuthResult, wrong: AuthResult, right: AuthResult, again: AuthResult)
    requires CollisionFree(hasher)
    ensures registered.Success?
    ensures registered.user == map[IdField := Num(0), EmailField := Str("ana@x.com"), NameField := Str("Ana")]
    ensures wrong == Failure(BadRequest, PasswordNotValid)
    ensures right == registered
    ensures again == Failure(BadRequest, UserExists)
  {
    var service := new AuthService(Config(tokens, hasher), map[], 0);
    registered := service.RegisterUser("Ana", "ana@x.com", "secret1", salt);
    LoginChecksPasswordKey(service, "ana@x.com", "secret1", "wrong", salt);
    wrong := service.LoginUser("ana@x.com", "wrong");
    right := service.LoginUser("ana@x.com", "secret1");
    again := service.RegisterUser("Ana", "ana@x.com", "secret1", salt);
  }
}
