/**
 * `POST /register` and `POST /login`, and the options of the two session
 * cookies. bcrypt's hash and compare and `signJWT` are parameters: the
 * model does not look inside them.
 */
module AuthRouter {
  import opened Wrappers
  import opened Zod
  import opened AuthTypes
  import opened ErrorHandler
  import opened Database
  import opened Response

  /** The claims both session tokens carry: the user's id and role, nothing more. */
  datatype Claims = Claims(id: int, role: Role)

  /** `config.ATTL` and `config.RFTL`, the access- and refresh-token lifetimes. */
  datatype TokenLifetime = ATTL | RFTL

  /** `tokenCookieOptions`: seven days, HTTP-only, not secure-flagged, SameSite lax. */
  function TokenCookieOptions(): (o: CookieOptions)
    ensures o.maxAge == 604_800_000 && o.maxAge == 7 * 24 * 60 * 60 * 1000
    ensures o.httpOnly && !o.secure && o.sameSite == "lax"
  {
    CookieOptions(1000 * 60 * 60 * 24 * 7, true, false, "lax")
  }

  /** The row `prisma.user.create` stores for a registration: the password hashed, the role defaulted. */
  function NewUser(d: RegisterInput, id: int, hashedPassword: string, now: int): (u: User)
    ensures u.id == id && u.email == d.email && u.password == hashedPassword
    ensures u.name == d.name && u.contact == d.contact && u.bio == d.bio
    ensures u.availabilityTime == d.availabilityTime && u.role == DEFAULT_ROLE && u.createdAt == now
  {
    User(id, d.name, d.contact, d.bio, d.email, hashedPassword, d.availabilityTime, DEFAULT_ROLE, now)
  }

  /** The two cookies a successful login sets, each holding a token signed over the user's claims. */
  function SessionCookies(u: User, signJWT: (Claims, TokenLifetime) -> string): (cs: seq<Cookie>)
    ensures |cs| == 2 && cs[0].name == "accessToken" && cs[1].name == "refreshToken"
    ensures cs[0].value == signJWT(Claims(u.id, u.role), ATTL)
    ensures cs[1].value == signJWT(Claims(u.id, u.role), RFTL)
    ensures forall c :: c in cs ==> c.options == TokenCookieOptions()
  {
    var claims := Claims(u.id, u.role);
    [Cookie("accessToken", signJWT(claims, ATTL), TokenCookieOptions()),
     Cookie("refreshToken", signJWT(claims, RFTL), TokenCookieOptions())]
  }

  lemma FindUserByIdGrows(users: seq<User>, u: User, id: int)
    requires FindUserById(users, id).Some?
    ensures FindUserById(users + [u], id).Some?
  {
    assert FindUserById(users, id).value in users + [u];
  }

  /** Appending a user whose id and email are new keeps the table's keys unique and its links intact. */
  lemma AppendUserKeepsValid(users: seq<User>, notifications: seq<Notification>, u: User)
    requires UniqueIds(users) && UniqueEmails(users) && Linked(users, notifications)
    requires forall v :: v in users ==> v.id != u.id && v.email != u.email
    ensures UniqueIds(users + [u]) && UniqueEmails(users + [u]) && Linked(users + [u], notifications)
  {
    var users' := users + [u];
    forall i, j | 0 <= i < j < |users'|
      ensures users'[i].id != users'[j].id && users'[i].email != users'[j].email
    {
      if j == |users| {
        assert users'[i] in users;
      }
    }
    forall n | n in notifications
      ensures FindUserById(users', n.senderId).Some?
    {
      FindUserByIdGrows(users, u, n.senderId);
    }
    forall n, id | n in notifications && id in n.receiverIds
      ensures FindUserById(users', id).Some?
    {
      FindUserByIdGrows(users, u, id);
    }
  }

  /** `POST /register`: validate, reject a taken email, then store the user with the hashed password. */
  method Register(store: Store, body: Json, isEmail: string -> bool, hash: string -> string, newId: int, now: int)
    returns (out: Outcome)
    requires store.Valid()
    requires forall u :: u in store.users ==> u.id != newId
    modifies store
    ensures store.Valid()
    ensures ParseRegister(body, isEmail).None? ==>
      out == Forwarded(ZodErr(ZodError(RegisterSchema, body))) && unchanged(store)
    ensures var p := ParseRegister(body, isEmail);
      p.Some? && FindUserByEmail(old(store.users), p.value.email).Some? ==>
        out == Forwarded(CreateError("User already exists", Some(400))) && unchanged(store)
    ensures var p := ParseRegister(body, isEmail);
      p.Some? && FindUserByEmail(old(store.users), p.value.email).None? ==>
        && store.users == old(store.users) + [NewUser(p.value, newId, hash(p.value.password), now)]
        && store.notifications == old(store.notifications)
        && out == Sent(201, Message("User created successfully"), [])
  {
    var parsed := ParseRegister(body, isEmail);
    if parsed.None? {
      return Forwarded(ZodErr(ZodError(RegisterSchema, body)));
    }
    var d := parsed.value;
    var userFound := FindUserByEmail(store.users, d.email);
    if userFound.Some? {
      return Forwarded(CreateError("User already exists", Some(400)));
    }
    var hashedPassword := hash(d.password);
    var u := NewUser(d, newId, hashedPassword, now);
    AppendUserKeepsValid(store.users, store.notifications, u);
    store.users := store.users + [u];
    out := Sent(201, Message("User created successfully"), []);
  }

  /**
   * `POST /login`, with the password check the route evidently intends:
   * an unknown email is 404, a wrong password 400, and a match sets the
   * access and refresh cookies.
   */
  method Login(store: Store, body: Json, isEmail: string -> bool,
               passwordMatches: (string, string) -> bool,
               signJWT: (Claims, TokenLifetime) -> string)
    returns (out: Outcome)
    ensures ParseLogin(body, isEmail).None? ==> out == Forwarded(ZodErr(ZodError(LoginSchema, body)))
    ensures var p := ParseLogin(body, isEmail);
      p.Some? && FindUserByEmail(store.users, p.value.email).None? ==>
        out == Forwarded(CreateError("Invalid credentials", Some(404)))
    ensures var p := ParseLogin(body, isEmail);
      p.Some? && FindUserByEmail(store.users, p.value.email).Some? ==>
        var u := FindUserByEmail(store.users, p.value.email).value;
        if passwordMatches(p.value.password, u.password)
        then out == Sent(200, Message("User logged in successfully"), SessionCookies(u, signJWT))
        else out == Forwarded(CreateError("Invalid credentials", Some(400)))
    ensures out.Sent? ==> out.status == 200 && |out.cookies| == 2
  {
    var parsed := ParseLogin(body, isEmail);
    if parsed.None? {
      return Forwarded(ZodErr(ZodError(LoginSchema, body)));
    }
    var d := parsed.value;
    var userFound := FindUserByEmail(store.users, d.email);
    if userFound.None? {
      return Forwarded(CreateError("Invalid credentials", Some(404)));
    }
    var u := userFound.value;
    if !passwordMatches(d.password, u.password) {
      return Forwarded(CreateError("Invalid credentials", Some(400)));
    }
    out := Sent(200, Message("User logged in successfully"), SessionCookies(u, signJWT));
  }

  /**
   * `POST /login` as written: `bcrypt.compare` is called without `await`,
   * so its result is a pending promise, which is always truthy, and a
   * known email logs in whatever password comes with it.
   */
  method LoginAsWritten(store: Store, body: Json, isEmail: string -> bool,
                        passwordMatches: (string, string) -> bool,
                        signJWT: (Claims, TokenLifetime) -> string)
    returns (out: Outcome)
    ensures ParseLogin(body, isEmail).None? ==> out == Forwarded(ZodErr(ZodError(LoginSchema, body)))
    ensures var p := ParseLogin(body, isEmail);
      p.Some? && FindUserByEmail(store.users, p.value.email).None? ==>
        out == Forwarded(CreateError("Invalid credentials", Some(404)))
    ensures var p := ParseLogin(body, isEmail);
      p.Some? && FindUserByEmail(store.users, p.value.email).Some? ==>
        out == Sent(200, Message("User logged in successfully"),
                    SessionCookies(FindUserByEmail(store.users, p.value.email).value, signJWT))
    ensures var p := ParseLogin(body, isEmail);
      p.Some? && FindUserByEmail(store.users, p.value.email).Some? &&
      !passwordMatches(p.value.password, FindUserByEmail(store.users, p.value.email).value.password) ==>
        out.Sent? && out.status == 200
  {
    var parsed := ParseLogin(body, isEmail);
    if parsed.None? {
      return Forwarded(ZodErr(ZodError(LoginSchema, body)));
    }
    var d := parsed.value;
    var userFound := FindUserByEmail(store.users, d.email);
    if userFound.None? {
      return Forwarded(CreateError("Invalid credentials", Some(404)));
    }
    var u := userFound.value;
    // `if (!matchPassword)` tests the promise, never the comparison, so
    // the 400 branch is not reachable and `passwordMatches` goes unused.
    out := Sent(200, Message("User logged in successfully"), SessionCookies(u, signJWT));
  }

  /**
   * Registering and then logging in with the same email and password
   * issues tokens over the new user's id and the default role, given that
   * bcrypt accepts a password against its own hash.
   */
  method RegisterThenLogin(store: Store, input: RegisterInput, isEmail: string -> bool,
                           hash: string -> string, passwordMatches: (string, string) -> bool,
                           signJWT: (Claims, TokenLifetime) -> string, newId: int, now: int)
    returns (registered: Outcome, loggedIn: Outcome)
    requires store.Valid() && RegisterBounds(input, isEmail)
    requires forall u :: u in store.users ==> u.id != newId
    requires passwordMatches(input.password, hash(input.password))
    modifies store
    ensures registered.Sent? ==>
      loggedIn == Sent(200, Message("User logged in successfully"),
                       [Cookie("accessToken", signJWT(Claims(newId, DEFAULT_ROLE), ATTL), TokenCookieOptions()),
                        Cookie("refreshToken", signJWT(Claims(newId, DEFAULT_ROLE), RFTL), TokenCookieOptions())])
  {
    RegisterRoundTrip(input, isEmail);
    registered := Register(store, EncodeRegister(input), isEmail, hash, newId, now);
    var credentials := LoginInput(input.email, input.password);
    LoginRoundTrip(credentials, isEmail);
    if registered.Sent? {
      FindUserByEmailUnique(store.users, store.users[|store.users| - 1]);
    }
    loggedIn := Login(store, EncodeLogin(credentials), isEmail, passwordMatches, signJWT);
  }
}
