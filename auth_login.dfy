/** `POST /api/auth/login`: look the user up by lower-cased email, compare the
    password with the stored hash, and answer with a token and the user record
    without its password. The handler only reads the user table. */
module AuthLogin {
  import opened Common
  import opened Text
  import opened Storage
  import opened Credentials
  import opened AuthSignup

  datatype LoginInput = LoginInput(email: Option<string>, password: Option<string>)

  /** A user row minus its `password` column. */
  datatype PublicUser = PublicUser(id: int, email: string, firstName: string, lastName: string,
                                   phoneNumber: Option<string>, createdAt: int, updatedAt: int)

  datatype LoginBody = LoggedIn(message: string, token: string, user: PublicUser)
                     | LoginFailed(error: string)

  const CredentialsRequired: string := "Email and password are required"
  const InvalidCredentials: string := "Invalid email or password"
  const LoginMessage: string := "Login successful"

  /** `const { password: _, ...userWithoutPassword } = user`: every other column
      as stored. */
  function WithoutPassword(u: User): (p: PublicUser)
    ensures p.id == u.id && p.email == u.email && p.firstName == u.firstName && p.lastName == u.lastName
    ensures p.phoneNumber == u.phoneNumber && p.createdAt == u.createdAt && p.updatedAt == u.updatedAt
  {
    PublicUser(u.id, u.email, u.firstName, u.lastName, u.phoneNumber, u.createdAt, u.updatedAt)
  }

  /** The user the lower-cased email names, if any. */
  function Lookup(users: map<string, User>, email: string): (u: Option<User>)
    ensures u.Some? <==> ToLower(email) in users
    ensures u.Some? ==> u.value == users[ToLower(email)]
  {
    var key := ToLower(email);
    if key in users then Some(users[key]) else None
  }

  /** The credentials are accepted: both present, the email names a user and
      the password matches that user's stored hash. */
  predicate Authenticates(users: map<string, User>, input: LoginInput, c: Crypto) {
    && Present(input.email) && Present(input.password)
    && ToLower(input.email.value) in users
    && c.compare(input.password.value, users[ToLower(input.email.value)].password)
  }

  function Login(users: map<string, User>, input: LoginInput, c: Crypto): (resp: Response<LoginBody>)
    ensures resp.status == 200 || resp.status == 400 || resp.status == 401
    ensures resp.status == 400 <==> !Present(input.email) || !Present(input.password)
    ensures resp.status == 400 ==> resp.body == LoginFailed(CredentialsRequired)
    ensures resp.status == 401 ==> resp.body == LoginFailed(InvalidCredentials)
    ensures resp.status == 200 <==> Authenticates(users, input, c)
    ensures resp.status == 200 ==>
      var u := users[ToLower(input.email.value)];
      resp.body == LoggedIn(LoginMessage, c.sign(u.id, u.email), WithoutPassword(u))
  {
    if !Present(input.email) || !Present(input.password) then
      Response(400, LoginFailed(CredentialsRequired))
    else
      match Lookup(users, input.email.value)
      case None => Response(401, LoginFailed(InvalidCredentials))
      case Some(u) =>
        if !c.compare(input.password.value, u.password) then
          Response(401, LoginFailed(InvalidCredentials))
        else
          Response(200, LoggedIn(LoginMessage, c.sign(u.id, u.email), WithoutPassword(u)))
  }

  /** An unknown email and a wrong password get the same answer, so a caller
      cannot tell which emails are registered. */
  lemma UnknownEmailLooksLikeWrongPassword(users: map<string, User>, unknown: LoginInput,
                                           wrong: LoginInput, c: Crypto)
    requires Present(unknown.email) && Present(unknown.password) && ToLower(unknown.email.value) !in users
    requires Present(wrong.email) && Present(wrong.password) && ToLower(wrong.email.value) in users
    requires !c.compare(wrong.password.value, users[ToLower(wrong.email.value)].password)
    ensures Login(users, unknown, c) == Login(users, wrong, c)
    ensures Login(users, unknown, c) == Response(401, LoginFailed(InvalidCredentials))
  {
  }

  /** Emails that agree after lower-casing log into the same account. */
  lemma LetterCaseOfEmailIgnored(users: map<string, User>, a: LoginInput, b: LoginInput, c: Crypto)
    requires Present(a.email) && Present(b.email) && ToLower(a.email.value) == ToLower(b.email.value)
    requires a.password == b.password
    ensures Login(users, a, c) == Login(users, b, c)
  {
  }

  /** After a successful signup with an email and a password, logging in with
      that password and any letter-case variant of the email succeeds and
      returns the new user, provided the hash and compare agree. */
  lemma SignupThenLogin(users: map<string, User>, nextId: int, input: SignupInput, c: Crypto,
                        now: int, email: string)
    requires Sound(c)
    requires Register(users, nextId, input, c, now).resp.status == 201
    requires ToLower(email) == ToLower(input.email.value)
    ensures var o := Register(users, nextId, input, c, now);
            var r := Login(o.users, LoginInput(Some(email), input.password), c);
            && r.status == 200
            && r.body.user.id == nextId
            && r.body.user.email == ToLower(input.email.value)
            && r.body.user.firstName == Trim(input.firstName.value)
            && r.body.user.lastName == Trim(input.lastName.value)
            && r.body.user.createdAt == now
  {
    var o := Register(users, nextId, input, c, now);
    var u := NewUser(nextId, input, c, now);
    assert |email| == |input.email.value| > 0;
    assert o.users[ToLower(email)] == u;
    assert c.compare(input.password.value, c.hash(input.password.value));
  }
}
