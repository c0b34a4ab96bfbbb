/** Registration and login over the users table. The table is an object
    whose rows the two endpoints change; password hashing and checking are
    parameters standing for the bcrypt helpers, and the clock and signing key
    are parameters too. */
module AuthRoutes {
  import opened Common
  import opened Schema
  import opened Jwt

  /** A row of the users table, restricted to the columns registration and
      login read or write. */
  datatype User = User(
    id: nat,
    email: string,
    phoneNumber: string,
    countryCode: string,
    aadhaarNumber: string,
    passwordHash: string,
    fullName: string,
    termsAndConditionFollowed: bool,
    currentVillage: string,
    currentTaluka: string,
    currentDistrict: string,
    currentState: string,
    currentPincode: string,
    totalLandHoldings: real,
    preferredLanguage: string,
    role: UserRole,
    isActive: bool,
    lastLogin: Option<int>)

  predicate EmailTaken(users: seq<User>, email: string)
  {
    exists i :: 0 <= i < |users| && users[i].email == email
  }

  predicate PhoneTaken(users: seq<User>, phone: string)
  {
    exists i :: 0 <= i < |users| && users[i].phoneNumber == phone
  }

  predicate AadhaarTaken(users: seq<User>, aadhaar: string)
  {
    exists i :: 0 <= i < |users| && users[i].aadhaarNumber == aadhaar
  }

  /** The table's standing guarantees: ids below the next id to hand out, and
      no two rows sharing an id, an email, a phone number or an Aadhaar number. */
  predicate WellFormed(users: seq<User>, nextId: nat)
  {
    && (forall i :: 0 <= i < |users| ==> users[i].id < nextId)
    && (forall i, j :: 0 <= i < j < |users| ==>
          && users[i].id != users[j].id
          && users[i].email != users[j].email
          && users[i].phoneNumber != users[j].phoneNumber
          && users[i].aadhaarNumber != users[j].aadhaarNumber)
  }

  const EmailTakenDetail := "Email already registered"
  const PhoneTakenDetail := "Phone number already registered"
  const AadhaarTakenDetail := "Aadhaar number already registered"
  const TermsRequiredDetail := "Terms and Condition are required"

  /** Why a registration is refused, checked in the order the endpoint checks:
      email, phone number, Aadhaar number, then the terms flag; the first
      check that fails decides the answer. */
  function RegisterRejection(users: seq<User>, req: UserCreate): (r: Option<HttpError>)
    ensures r.Some? ==> r.value.status == 400
    ensures r.None? <==> (!EmailTaken(users, req.email) && !PhoneTaken(users, req.phoneNumber) &&
      !AadhaarTaken(users, req.aadhaarNumber) && req.termsAndConditionFollowed)
    ensures EmailTaken(users, req.email) ==> r == Some(Error(400, EmailTakenDetail))
    ensures !EmailTaken(users, req.email) && PhoneTaken(users, req.phoneNumber) ==>
      r == Some(Error(400, PhoneTakenDetail))
    ensures (!EmailTaken(users, req.email) && !PhoneTaken(users, req.phoneNumber) &&
      AadhaarTaken(users, req.aadhaarNumber)) ==> r == Some(Error(400, AadhaarTakenDetail))
    ensures (!EmailTaken(users, req.email) && !PhoneTaken(users, req.phoneNumber) &&
      !AadhaarTaken(users, req.aadhaarNumber) && !req.termsAndConditionFollowed) ==>
      r == Some(Error(400, TermsRequiredDetail))
  {
    if EmailTaken(users, req.email) then Some(Error(400, EmailTakenDetail))
    else if PhoneTaken(users, req.phoneNumber) then Some(Error(400, PhoneTakenDetail))
    else if AadhaarTaken(users, req.aadhaarNumber) then Some(Error(400, AadhaarTakenDetail))
    else if !req.termsAndConditionFollowed then Some(Error(400, TermsRequiredDetail))
    else None
  }

  /** The row a successful registration inserts. The requested role, country
      code and language are not copied: the role is ADMIN for the first user
      and the column default FARMER otherwise, the other two take their column
      defaults. */
  function NewUser(id: nat, req: UserCreate, hash: string -> string, first: bool): (u: User)
    ensures u.id == id && u.email == req.email && u.phoneNumber == req.phoneNumber
    ensures u.aadhaarNumber == req.aadhaarNumber && u.passwordHash == hash(req.password)
    ensures u.fullName == req.fullName && u.termsAndConditionFollowed == req.termsAndConditionFollowed
    ensures u.currentVillage == req.currentVillage && u.currentTaluka == req.currentTaluka
    ensures u.currentDistrict == req.currentDistrict && u.currentState == req.currentState
    ensures u.currentPincode == req.currentPincode && u.totalLandHoldings == req.totalLandHoldings
    ensures u.role == (if first then Admin else Farmer)
    ensures u.countryCode == DefaultCountryCode && u.preferredLanguage == DefaultLanguage
    ensures u.isActive && u.lastLogin.None?
  {
    User(id, req.email, req.phoneNumber, DefaultCountryCode, req.aadhaarNumber, hash(req.password),
      req.fullName, req.termsAndConditionFollowed, req.currentVillage, req.currentTaluka,
      req.currentDistrict, req.currentState, req.currentPincode, req.totalLandHoldings,
      DefaultLanguage, if first then Admin else Farmer, true, None)
  }

  datatype RegisterReply = RegisterReply(message: string, userId: nat, email: string, role: UserRole)

  /** Whatever role, country code and language the request names, the stored
      row is the same: its role depends only on whether the table was empty. */
  lemma RequestedRoleIgnored(id: nat, req: UserCreate, hash: string -> string, first: bool,
                             role: UserRole, countryCode: string, language: string)
    ensures NewUser(id, req, hash, first) ==
      NewUser(id, req.(role := role, countryCode := countryCode, preferredLanguage := language), hash, first)
  {
  }

  /** A row matching a phone number: the first one, as `.first()` returns it. */
  function FirstWithPhone(users: seq<User>, phone: string): (r: Option<nat>)
    ensures r.Some? ==> r.value < |users| && users[r.value].phoneNumber == phone
    ensures r.Some? ==> forall i :: 0 <= i < r.value ==> users[i].phoneNumber != phone
    ensures r.None? <==> !PhoneTaken(users, phone)
  {
    if users == [] then None
    else if users[0].phoneNumber == phone then Some(0)
    else
      match FirstWithPhone(users[1..], phone)
      case None => (assert forall i :: 1 <= i < |users| ==> users[i] == users[1..][i - 1]; None)
      case Some(k) => Some(k + 1)
  }

  /** The claims the login token carries: the user id as text, the phone
      number and the role's value. */
  function LoginClaims(u: User): (c: Claims)
    ensures c.Keys == {"sub", "phone", "role"}
    ensures c["sub"] == JStr(NatToString(u.id)) && c["role"] == JStr(RoleValue(u.role))
  {
    map["sub" := JStr(NatToString(u.id)), "phone" := JStr(u.phoneNumber), "role" := JStr(RoleValue(u.role))]
  }

  datatype LoginReply = LoginReply(accessToken: Token, tokenType: string, userId: nat, role: string, fullName: string)

  const BadCredentialsDetail := "Invalid phone number or password"
  const DeactivatedDetail := "Account is deactivated. Please contact support."

  /** What a login answers, and which row it changes. The lookup filters on
      the phone number only: the query builder's `==` yields an expression
      object that tests false, so Python's `and` yields it and the email
      condition never reaches the query. The checks come in order: no row,
      a deactivated row (whatever the password), a wrong password. */
  function LoginOutcome(users: seq<User>, req: UserLogin, verify: (string, string) -> bool,
                        key: string, now: int): (r: Result<(nat, LoginReply), HttpError>)
    ensures r.Err? ==> r.error.status == 401
    ensures !PhoneTaken(users, req.phoneNumber) ==> r == Err(Error(401, BadCredentialsDetail))
    ensures PhoneTaken(users, req.phoneNumber) ==> var u := users[FirstWithPhone(users, req.phoneNumber).value];
      && (!u.isActive ==> r == Err(Error(401, DeactivatedDetail)))
      && (u.isActive && !verify(req.password, u.passwordHash) ==> r == Err(Error(401, BadCredentialsDetail)))
    ensures r.Ok? <==> (var k := FirstWithPhone(users, req.phoneNumber);
      k.Some? && users[k.value].isActive && verify(req.password, users[k.value].passwordHash))
    ensures r.Ok? ==> r.value.0 == FirstWithPhone(users, req.phoneNumber).value
    ensures r.Ok? ==> var u := users[r.value.0];
      r.value.1 == LoginReply(CreateAccessToken(LoginClaims(u), None, now, key), "bearer",
        u.id, RoleValue(u.role), u.fullName)
  {
    match FirstWithPhone(users, req.phoneNumber)
    case None => Err(Error(401, BadCredentialsDetail))
    case Some(k) =>
      var u := users[k];
      if !u.isActive then Err(Error(401, DeactivatedDetail))
      else if !verify(req.password, u.passwordHash) then Err(Error(401, BadCredentialsDetail))
      else Ok((k, LoginReply(CreateAccessToken(LoginClaims(u), None, now, key), "bearer",
        u.id, RoleValue(u.role), u.fullName)))
  }

  /** The email of a login request plays no part in its outcome. */
  lemma LoginIgnoresEmail(users: seq<User>, req: UserLogin, email: string,
                          verify: (string, string) -> bool, key: string, now: int)
    ensures LoginOutcome(users, req, verify, key, now) == LoginOutcome(users, req.(email := email), verify, key, now)
  {
  }

  /** The token of a successful login passes `verify_token` for the next 30
      minutes, and its payload names the user and the role. */
  lemma {:induction false} LoginTokenVerifies(users: seq<User>, req: UserLogin, verify: (string, string) -> bool,
                                              key: string, issued: int, now: int)
    requires LoginOutcome(users, req, verify, key, issued).Ok?
    requires issued <= now <= issued + DefaultLifetime
    ensures var reply := LoginOutcome(users, req, verify, key, issued).value.1;
      var v := VerifyToken(reply.accessToken, key, now);
      && v.Verified?
      && v.payload["sub"] == JStr(NatToString(reply.userId))
      && v.payload["role"] == JStr(reply.role)
  {
    var (k, reply) := LoginOutcome(users, req, verify, key, issued).value;
    var claims := LoginClaims(users[k]);
    IssuedTokenVerifies(claims, None, issued, key, now);
  }

  /** A user who has just registered can log in with the same phone number
      and password, whatever email the login names, as long as the checker
      accepts each password against its own hash. */
  lemma {:induction false} RegisteredUserCanLogIn(users: seq<User>, nextId: nat, req: UserCreate,
      hash: string -> string, verify: (string, string) -> bool, login: UserLogin, key: string, now: int)
    requires RegisterRejection(users, req).None?
    requires forall p :: verify(p, hash(p))
    requires login.phoneNumber == req.phoneNumber && login.password == req.password
    ensures var after := users + [NewUser(nextId, req, hash, users == [])];
      var r := LoginOutcome(after, login, verify, key, now);
      r.Ok? && r.value.0 == |users| && r.value.1.userId == nextId
  {
    var after := users + [NewUser(nextId, req, hash, users == [])];
    assert forall i :: 0 <= i < |users| ==> after[i] == users[i];
    assert !PhoneTaken(users, req.phoneNumber);
    var k := FirstWithPhone(after, req.phoneNumber);
    assert after[|users|].phoneNumber == req.phoneNumber;
    assert k.Some? && k.value == |users|;
  }

  /** Adding a row that clashes with no existing row on its unique columns,
      under a fresh id, keeps the table well formed. */
  lemma {:induction false} AppendKeepsWellFormed(users: seq<User>, nextId: nat, u: User)
    requires WellFormed(users, nextId)
    requires u.id == nextId
    requires !EmailTaken(users, u.email) && !PhoneTaken(users, u.phoneNumber) && !AadhaarTaken(users, u.aadhaarNumber)
    ensures WellFormed(users + [u], nextId + 1)
  {
    var after := users + [u];
    forall i, j | 0 <= i < j < |after|
      ensures && after[i].id != after[j].id
              && after[i].email != after[j].email
              && after[i].phoneNumber != after[j].phoneNumber
              && after[i].aadhaarNumber != after[j].aadhaarNumber
    {
      if j == |users| {
        assert after[i] == users[i];
      } else {
        assert after[i] == users[i] && after[j] == users[j];
      }
    }
  }

  /** Replacing a row by one equal on every unique column keeps the table well formed. */
  lemma UpdateKeepsWellFormed(users: seq<User>, nextId: nat, k: nat, u: User)
    requires WellFormed(users, nextId)
    requires k < |users|
    requires u.id == users[k].id && u.email == users[k].email
    requires u.phoneNumber == users[k].phoneNumber && u.aadhaarNumber == users[k].aadhaarNumber
    ensures WellFormed(users[k := u], nextId)
  {
  }

  class UserTable {
    var users: seq<User>
    var nextId: nat

    ghost predicate Valid()
      reads this
    {
      WellFormed(users, nextId)
    }

    constructor ()
      ensures Valid() && users == [] && nextId == 1
    {
      users := [];
      nextId := 1;
    }

    /** `POST /auth/register`. A refusal leaves the table as it was; a success
        inserts one row under the next id, ADMIN exactly when the table was
        empty, and stores the hash of the password, never the password. */
    method Register(req: UserCreate, hash: string -> string) returns (r: Result<RegisterReply, HttpError>)
      requires Valid()
      modifies this
      ensures Valid()
      ensures RegisterRejection(old(users), req).Some? ==>
        r == Err(RegisterRejection(old(users), req).value) && users == old(users) && nextId == old(nextId)
      ensures RegisterRejection(old(users), req).None? ==>
        && users == old(users) + [NewUser(old(nextId), req, hash, old(users) == [])]
        && nextId == old(nextId) + 1
        && r == Ok(RegisterReply("User registered successfully", old(nextId), req.email,
                                 if old(users) == [] then Admin else Farmer))
    {
      var first := users == [];
      var rejection := RegisterRejection(users, req);
      if rejection.Some? {
        return Err(rejection.value);
      }
      var u := NewUser(nextId, req, hash, first);
      AppendKeepsWellFormed(users, nextId, u);
      users := users + [u];
      nextId := nextId + 1;
      r := Ok(RegisterReply("User registered successfully", u.id, u.email, u.role));
    }

    /** `POST /auth/login`. A refusal changes nothing; a success records the
        login time on the matched row and on no other. The issued token goes
        into the reply only: the table has no column to keep it in. */
    method Login(req: UserLogin, verify: (string, string) -> bool, key: string, now: int)
      returns (r: Result<LoginReply, HttpError>)
      requires Valid()
      modifies this
      ensures Valid() && nextId == old(nextId)
      ensures var o := LoginOutcome(old(users), req, verify, key, now);
        && (o.Err? ==> r == Err(o.error) && users == old(users))
        && (o.Ok? ==> var k := o.value.0;
              && r == Ok(o.value.1)
              && users == old(users)[k := old(users)[k].(lastLogin := Some(now))])
    {
      var o := LoginOutcome(users, req, verify, key, now);
      if o.Err? {
        return Err(o.error);
      }
      var (k, reply) := o.value;
      var u := users[k].(lastLogin := Some(now));
      UpdateKeepsWellFormed(users, nextId, k, u);
      users := users[k := u];
      r := Ok(reply);
    }
  }

  /** Two registrations in a row: the first account is the administrator,
      the second a farmer, and the second cannot reuse the first's email. */
  method RegistrationScenario(a: UserCreate, b: UserCreate, hash: string -> string)
    requires a.termsAndConditionFollowed && b.termsAndConditionFollowed
    requires a.email != b.email && a.phoneNumber != b.phoneNumber && a.aadhaarNumber != b.aadhaarNumber
  {
    var table := new UserTable();
    var ra := table.Register(a, hash);
    assert ra.Ok? && ra.value.role == Admin && ra.value.userId == 1;
    var again := table.Register(a.(phoneNumber := b.phoneNumber), hash);
    assert EmailTaken(table.users, a.email) by { assert table.users[0].email == a.email; }
    assert again == Err(Error(400, EmailTakenDetail));
    var rb := table.Register(b, hash);
    assert ra.value.userId == 1;
    assert !EmailTaken([NewUser(1, a, hash, true)], b.email);
    assert rb.Ok? && rb.value.role == Farmer && rb.value.userId == 2;
  }
}
