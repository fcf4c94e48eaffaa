/** `POST /api/auth/signup`: a validation ladder, the email-format check,
    normalisation of the stored fields and the insert of one user row. */
module AuthSignup {
  import opened Common
  import opened Text
  import opened Storage
  import opened Credentials

  /** The request body; a field is None when missing. */
  datatype SignupInput = SignupInput(email: Option<string>, password: Option<string>,
                                     firstName: Option<string>, lastName: Option<string>,
                                     phoneNumber: Option<string>)

  // ------------------------------------------------------------ email format

  /** No `@` and no white space: the class `[^\s@]`. */
  predicate NoAtOrSpace(s: string) {
    forall j :: 0 <= j < |s| ==> s[j] != '@' && !IsSpace(s[j])
  }

  /** A match of `^[^\s@]+@[^\s@]+\.[^\s@]+$` whose `@` sits at `i` and whose
      `\.` sits at `k`. */
  predicate RegexSplit(e: string, i: int, k: int) {
    && 0 < i && i + 1 < k && k + 1 < |e|
    && e[i] == '@' && e[k] == '.'
    && NoAtOrSpace(e[..i]) && NoAtOrSpace(e[i + 1..k]) && NoAtOrSpace(e[k + 1..])
  }

  /** The email regular expression accepts `e`. */
  predicate MatchesEmailRegex(e: string) {
    exists i, k :: 0 < i < k < |e| && RegexSplit(e, i, k)
  }

  /** The first position of `c` in `s`. */
  function IndexOf(s: string, c: char): (r: Option<nat>)
    ensures r.Some? ==> r.value < |s| && s[r.value] == c && c !in s[..r.value]
    ensures r.None? ==> c !in s
  {
    if |s| == 0 then None
    else if s[0] == c then Some(0)
    else
      match IndexOf(s[1..], c)
      case None => None
      case Some(j) =>
        assert s[..j + 1] == [s[0]] + s[1..][..j];
        Some(j + 1)
  }

  /** The email format in plain terms: no white space, exactly one `@` with a
      non-empty part before it, and after it a domain with a `.` that is neither
      its first nor its last character. */
  predicate IsEmailFormat(e: string) {
    NoSpace(e) &&
    var at := IndexOf(e, '@');
    at.Some? && at.value > 0 &&
    var domain := e[at.value + 1..];
    '@' !in domain && |domain| >= 3 && '.' in domain[1..|domain| - 1]
  }

  /** The plain description and the regular expression accept the same
      strings. */
  lemma EmailFormatIsRegex(e: string)
    ensures IsEmailFormat(e) <==> MatchesEmailRegex(e)
  {
    if IsEmailFormat(e) {
      FormatGivesSplit(e);
    }
    if MatchesEmailRegex(e) {
      var i, k :| RegexSplit(e, i, k);
      SplitGivesFormat(e, i, k);
    }
  }

  lemma FormatGivesSplit(e: string)
    requires IsEmailFormat(e)
    ensures MatchesEmailRegex(e)
  {
    var i := IndexOf(e, '@').value;
    var d := e[i + 1..];
    var inner := d[1..|d| - 1];
    var m :| 0 <= m < |inner| && inner[m] == '.';
    var k := i + 2 + m;
    assert e[k] == d[m + 1] == '.';
    forall j | 0 <= j < i
      ensures e[..i][j] != '@' && !IsSpace(e[..i][j])
    {
      assert e[..i][j] in e[..i];
      assert e[j] == e[..i][j];
    }
    var mid, tail := e[i + 1..k], e[k + 1..];
    forall j | 0 <= j < |mid|
      ensures mid[j] != '@' && !IsSpace(mid[j])
    {
      assert mid[j] == d[j];
      assert d[j] in d;
    }
    forall j | 0 <= j < |tail|
      ensures tail[j] != '@' && !IsSpace(tail[j])
    {
      assert tail[j] == d[k - i + j];
      assert d[k - i + j] in d;
    }
    assert RegexSplit(e, i, k);
  }

  lemma SplitGivesFormat(e: string, i: int, k: int)
    requires RegexSplit(e, i, k)
    ensures IsEmailFormat(e)
  {
    assert forall j :: 0 <= j < i ==> e[j] == e[..i][j];
    assert forall j :: i + 1 <= j < k ==> e[j] == e[i + 1..k][j - i - 1];
    assert forall j :: k + 1 <= j < |e| ==> e[j] == e[k + 1..][j - k - 1];
    assert '@' !in e[..i] by {
      forall x | x in e[..i]
        ensures x != '@'
      {
        var j :| 0 <= j < i && e[..i][j] == x;
      }
    }
    var at := IndexOf(e, '@');
    assert e[i] in e[..i + 1];
    assert at == Some(i);
    var d := e[i + 1..];
    assert forall j :: 0 <= j < |d| ==> d[j] == e[i + 1 + j];
    assert '@' !in d by {
      forall x | x in d
        ensures x != '@'
      {
        var j :| 0 <= j < |d| && d[j] == x;
        assert e[i + 1 + j] == x;
      }
    }
    assert d[1..|d| - 1][k - i - 2] == e[k];
  }

  // ------------------------------------------------------------ the ladder

  datatype Profile = Profile(id: int, email: string, firstName: string, lastName: string,
                             phoneNumber: Option<string>, createdAt: int)

  datatype SignupBody = Registered(message: string, token: string, user: Profile)
                      | SignupFailed(error: string)

  const CredentialsRequired: string := "Email and password are required"
  const NamesRequired: string := "First name and last name are required"
  const InvalidEmail: string := "Invalid email format"
  const ShortPassword: string := "Password must be at least 6 characters long"
  const Duplicate: string := "User with this email already exists"
  const RegisteredMessage: string := "User registered successfully"

  const MinPasswordLength: nat := 6

  /** The checks that look at the request alone, all passed. */
  predicate WellFormed(input: SignupInput) {
    && Present(input.email) && Present(input.password)
    && Present(input.firstName) && Present(input.lastName)
    && IsEmailFormat(input.email.value)
    && |input.password.value| >= MinPasswordLength
  }

  /** The answer of the first failing check, if one fails. The duplicate check
      looks up the lower-cased email. */
  function SignupError(users: map<string, User>, input: SignupInput): (e: Option<Response<SignupBody>>)
    ensures e.None? <==> WellFormed(input) && ToLower(input.email.value) !in users
    ensures e.Some? ==> e.value.body.SignupFailed?
    ensures e.Some? ==> (e.value.status == 409 <==> WellFormed(input))
    ensures e.Some? && e.value.status != 409 ==> e.value.status == 400
    // The rungs in order: each message is given when every earlier rung passed.
    ensures !Present(input.email) || !Present(input.password) ==>
              e == Some(Response(400, SignupFailed(CredentialsRequired)))
    ensures Present(input.email) && Present(input.password) ==>
              (!Present(input.firstName) || !Present(input.lastName) ==>
                 e == Some(Response(400, SignupFailed(NamesRequired))))
    ensures Present(input.email) && Present(input.password) && Present(input.firstName) && Present(input.lastName) ==>
              && (!IsEmailFormat(input.email.value) ==> e == Some(Response(400, SignupFailed(InvalidEmail))))
              && (IsEmailFormat(input.email.value) && |input.password.value| < MinPasswordLength ==>
                    e == Some(Response(400, SignupFailed(ShortPassword))))
    ensures WellFormed(input) && ToLower(input.email.value) in users ==>
              e == Some(Response(409, SignupFailed(Duplicate)))
  {
    if !Present(input.email) || !Present(input.password) then
      Some(Response(400, SignupFailed(CredentialsRequired)))
    else if !Present(input.firstName) || !Present(input.lastName) then
      Some(Response(400, SignupFailed(NamesRequired)))
    else if !IsEmailFormat(input.email.value) then
      Some(Response(400, SignupFailed(InvalidEmail)))
    else if |input.password.value| < MinPasswordLength then
      Some(Response(400, SignupFailed(ShortPassword)))
    else if ToLower(input.email.value) in users then
      Some(Response(409, SignupFailed(Duplicate)))
    else None
  }

  // ------------------------------------------------------------ the insert

  /** `phoneNumber ? phoneNumber.trim() : null`. */
  function StoredPhone(phone: Option<string>): (r: Option<string>)
    ensures r.None? <==> !Present(phone)
    ensures r.Some? ==> r.value == Trim(phone.value)
  {
    if Present(phone) then Some(Trim(phone.value)) else None
  }

  /** The row the insert creates: lower-cased email, the hash in place of the
      password, trimmed names, and both timestamps at `now`. */
  function NewUser(id: int, input: SignupInput, c: Crypto, now: int): (u: User)
    requires WellFormed(input)
    ensures u.id == id && u.email == ToLower(input.email.value)
    ensures u.password == c.hash(input.password.value)
    ensures u.firstName == Trim(input.firstName.value) && u.lastName == Trim(input.lastName.value)
    ensures u.phoneNumber == StoredPhone(input.phoneNumber)
    ensures u.createdAt == now && u.updatedAt == now
  {
    User(id, ToLower(input.email.value), c.hash(input.password.value), Trim(input.firstName.value),
         Trim(input.lastName.value), StoredPhone(input.phoneNumber), now, now)
  }

  /** The `select` of the insert: every column but the password and `updatedAt`. */
  function ProfileOf(u: User): (p: Profile)
    ensures p.id == u.id && p.email == u.email && p.firstName == u.firstName
    ensures p.lastName == u.lastName && p.phoneNumber == u.phoneNumber && p.createdAt == u.createdAt
  {
    Profile(u.id, u.email, u.firstName, u.lastName, u.phoneNumber, u.createdAt)
  }

  /** The response, the new user table and counter, and the welcome mail handed
      to the mailer (the profile it is about; the mail goes to its email). */
  datatype SignupOutcome = SignupOutcome(resp: Response<SignupBody>, users: map<string, User>,
                                         nextId: int, welcome: Option<Profile>)

  function Register(users: map<string, User>, nextId: int, input: SignupInput, c: Crypto, now: int)
    : (o: SignupOutcome)
    ensures SignupError(users, input).Some? ==>
              o == SignupOutcome(SignupError(users, input).value, users, nextId, None)
    ensures (o.resp.status == 201) <==> SignupError(users, input).None?
    ensures o.welcome.Some? <==> o.resp.status == 201
    ensures o.resp.status == 201 ==>
      var u := NewUser(nextId, input, c, now);
      && u.email !in users
      && o.users == users[u.email := u]
      && |o.users| == |users| + 1
      && o.nextId == nextId + 1
      && o.resp.body == Registered(RegisteredMessage, c.sign(u.id, u.email), ProfileOf(u))
      && o.welcome == Some(ProfileOf(u))
  {
    match SignupError(users, input)
    case Some(e) => SignupOutcome(e, users, nextId, None)
    case None =>
      var u := NewUser(nextId, input, c, now);
      var profile := ProfileOf(u);
      SignupOutcome(Response(201, Registered(RegisteredMessage, c.sign(u.id, u.email), profile)),
                    users[u.email := u], nextId + 1, Some(profile))
  }

  /** The insert keeps the user-table invariant: the key is the lower-cased
      email and the new id is fresh. */
  lemma RegisterKeepsTable(users: map<string, User>, nextId: int, input: SignupInput, c: Crypto, now: int)
    requires UserTableOk(users, nextId)
    ensures var o := Register(users, nextId, input, c, now);
            UserTableOk(o.users, o.nextId)
  {
  }

  /** The handler. The welcome mail is returned for the mailer to send; its
      delivery, and any failure of it, happens after the answer is fixed. */
  method Signup(db: Store, input: SignupInput, c: Crypto, now: int)
    returns (resp: Response<SignupBody>, welcome: Option<Profile>)
    requires db.Valid()
    modifies db
    ensures db.Valid()
    ensures db.adOnes == old(db.adOnes) && db.packages == old(db.packages)
    ensures db.nextAdId == old(db.nextAdId) && db.nextPackageId == old(db.nextPackageId)
    ensures var o := Register(old(db.users), old(db.nextUserId), input, c, now);
            resp == o.resp && welcome == o.welcome && db.users == o.users && db.nextUserId == o.nextId
  {
    if !Present(input.email) || !Present(input.password) {
      return Response(400, SignupFailed(CredentialsRequired)), None;
    }
    if !Present(input.firstName) || !Present(input.lastName) {
      return Response(400, SignupFailed(NamesRequired)), None;
    }
    if !IsEmailFormat(input.email.value) {
      return Response(400, SignupFailed(InvalidEmail)), None;
    }
    if |input.password.value| < MinPasswordLength {
      return Response(400, SignupFailed(ShortPassword)), None;
    }
    var key := ToLower(input.email.value);
    if key in db.users {
      return Response(409, SignupFailed(Duplicate)), None;
    }
    RegisterKeepsTable(db.users, db.nextUserId, input, c, now);
    var u := NewUser(db.nextUserId, input, c, now);
    db.users := db.users[key := u];
    db.nextUserId := db.nextUserId + 1;
    var profile := ProfileOf(u);
    resp := Response(201, Registered(RegisteredMessage, c.sign(u.id, u.email), profile));
    welcome := Some(profile);
  }

  // ------------------------------------------------------------ laws

  /** A password of exactly six characters passes the length check. */
  lemma SixCharacterPasswordAccepted(users: map<string, User>, input: SignupInput)
    requires Present(input.email) && Present(input.firstName) && Present(input.lastName)
    requires IsEmailFormat(input.email.value) && ToLower(input.email.value) !in users
    requires input.password == Some("abcdef")
    ensures SignupError(users, input).None?
  {
  }

  /** A short password is refused before the duplicate lookup: a taken email
      with a five-character password gets 400, not 409. */
  lemma ShortPasswordBeforeDuplicate(users: map<string, User>, input: SignupInput)
    requires Present(input.email) && Present(input.firstName) && Present(input.lastName)
    requires IsEmailFormat(input.email.value) && ToLower(input.email.value) in users
    requires input.password == Some("abcde")
    ensures SignupError(users, input) == Some(Response(400, SignupFailed(ShortPassword)))
  {
  }

  /** Once an email is registered, a second signup whose email differs only in
      letter case gets 409 and changes nothing. */
  lemma CaseVariantIsDuplicate(users: map<string, User>, nextId: int, first: SignupInput,
                               second: SignupInput, c: Crypto, now: int, later: int)
    requires Register(users, nextId, first, c, now).resp.status == 201
    requires WellFormed(second) && ToLower(second.email.value) == ToLower(first.email.value)
    ensures var o := Register(users, nextId, first, c, now);
            var o2 := Register(o.users, o.nextId, second, c, later);
            o2.resp == Response(409, SignupFailed(Duplicate)) && o2.users == o.users && o2.welcome.None?
  {
  }

  /** The stored row never holds the password itself, only its hash, unless the
      hash happens to return its argument. */
  lemma StoredPasswordIsHash(users: map<string, User>, nextId: int, input: SignupInput, c: Crypto, now: int)
    requires Register(users, nextId, input, c, now).resp.status == 201
    ensures var o := Register(users, nextId, input, c, now);
            var key := ToLower(input.email.value);
            key in o.users && o.users[key].password == c.hash(input.password.value)
  {
  }
}
