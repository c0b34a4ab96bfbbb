/** The request schemas of registration and login: field constraints,
    defaults and the three field validators, as the validating library
    applies them (fields in declaration order; a field whose own checks
    failed is absent from the values later validators see). */
module Schema {
  import opened Common

  datatype UserRole = Farmer | Expert | Admin

  /** The enum's wire value. */
  function RoleValue(r: UserRole): string
  {
    match r
    case Farmer => "farmer"
    case Expert => "expert"
    case Admin => "admin"
  }

  /** Coercion of a request string to the enum: only the three values are accepted. */
  function ParseRole(s: string): (r: Option<UserRole>)
    ensures r.Some? <==> s in {"farmer", "expert", "admin"}
    ensures r.Some? ==> RoleValue(r.value) == s
  {
    if s == "farmer" then Some(Farmer)
    else if s == "expert" then Some(Expert)
    else if s == "admin" then Some(Admin)
    else None
  }

  lemma ParseRoleValue(r: UserRole)
    ensures ParseRole(RoleValue(r)) == Some(r)
  {
  }

  /** Why one field was rejected. */
  datatype Reason =
    | TooShort(minLength: nat)
    | TooLong(maxLength: nat)
    | NotDigits          // "Phone number must contain only digits"
    | PasswordTooShort   // "Password must be at least 6 characters long"
    | PasswordsDiffer    // "Passwords do not match"
    | Negative           // greater than or equal to 0 required
    | NotARole           // not one of 'farmer', 'expert', 'admin'

  datatype FieldError = FieldError(field: string, reason: Reason)

  const DefaultCountryCode := "+91"
  const DefaultLanguage := "hi"

  /** min_length / max_length on a str field. */
  function LengthCheck(v: string, min: nat, max: nat): (r: Option<Reason>)
    ensures r.None? <==> min <= |v| <= max
  {
    if |v| < min then Some(TooShort(min))
    else if |v| > max then Some(TooLong(max))
    else None
  }

  /** min_length alone on a str field. */
  function MinLengthCheck(v: string, min: nat): (r: Option<Reason>)
    ensures r.None? <==> min <= |v|
    ensures r.Some? ==> r == Some(TooShort(min))
  {
    if |v| < min then Some(TooShort(min)) else None
  }

  function MaxLengthCheck(v: string, max: nat): (r: Option<Reason>)
    ensures r.None? <==> |v| <= max
  {
    if |v| > max then Some(TooLong(max)) else None
  }

  /** `phone_number`: 10 to 15 characters, then the digits-only validator. */
  function PhoneNumberCheck(v: string): (r: Option<Reason>)
    ensures r.None? <==> 10 <= |v| <= 15 && IsDigitString(v)
    ensures r == Some(NotDigits) <==> 10 <= |v| <= 15 && !IsDigitString(v)
  {
    var length := LengthCheck(v, 10, 15);
    if length.Some? then length
    else if !IsDigitString(v) then Some(NotDigits)
    else None
  }

  /** `password`: min_length 6, then the validator's own length test, which
      the constraint has already made impossible to fail. */
  function PasswordCheck(v: string): (r: Option<Reason>)
    ensures r.None? <==> |v| >= 6
    ensures r != Some(PasswordTooShort)
  {
    if |v| < 6 then Some(TooShort(6))
    else if |v| < 6 then Some(PasswordTooShort)
    else None
  }

  /** `confirm_password`: compared only when `password` itself was accepted
      and is non-empty (`if password and v != password`). */
  function ConfirmPasswordCheck(password: Option<string>, v: string): (r: Option<Reason>)
    ensures r.Some? <==> password.Some? && password.value != "" && v != password.value
  {
    if password.Some? && password.value != "" && v != password.value then Some(PasswordsDiffer)
    else None
  }

  /** `role`: omitted means `farmer`. */
  function RoleCheck(v: Option<string>): (r: Option<Reason>)
    ensures r.None? <==> v.None? || ParseRole(v.value).Some?
  {
    if v.Some? && ParseRole(v.value).None? then Some(NotARole) else None
  }

  function LandHoldingsCheck(v: real): (r: Option<Reason>)
    ensures r.None? <==> v >= 0.0
  {
    if v < 0.0 then Some(Negative) else None
  }

  function LanguageCheck(v: Option<string>): (r: Option<Reason>)
    ensures r.None? <==> v.None? || |v.value| <= 10
  {
    if v.Some? then MaxLengthCheck(v.value, 10) else None
  }

  /** The errors of the fields that failed, in the order given. */
  function Collect(checks: seq<(string, Option<Reason>)>): (errs: seq<FieldError>)
    ensures errs == [] <==> forall i :: 0 <= i < |checks| ==> checks[i].1.None?
    ensures forall i :: 0 <= i < |checks| && checks[i].1.Some? ==>
      FieldError(checks[i].0, checks[i].1.value) in errs
    ensures forall e :: e in errs ==> exists i :: 0 <= i < |checks| && checks[i] == (e.field, Some(e.reason))
  {
    if checks == [] then [] else
    var rest := Collect(checks[1..]);
    assert forall i :: 1 <= i < |checks| ==> checks[i] == checks[1..][i - 1];
    if checks[0].1.Some? then [FieldError(checks[0].0, checks[0].1.value)] + rest else rest
  }

  /** The registration body as sent; `None` stands for a field left out. */
  datatype UserCreateInput = UserCreateInput(
    phoneNumber: string,
    countryCode: Option<string>,
    email: string,
    role: Option<string>,
    password: string,
    confirmPassword: string,
    fullName: string,
    termsAndConditionFollowed: bool,
    aadhaarNumber: string,
    currentVillage: string,
    currentTaluka: string,
    currentDistrict: string,
    currentState: string,
    currentPincode: string,
    totalLandHoldings: real,
    preferredLanguage: Option<string>)

  /** A validated registration request, defaults filled in. */
  datatype UserCreate = UserCreate(
    phoneNumber: string,
    countryCode: string,
    email: string,
    role: UserRole,
    password: string,
    confirmPassword: string,
    fullName: string,
    termsAndConditionFollowed: bool,
    aadhaarNumber: string,
    currentVillage: string,
    currentTaluka: string,
    currentDistrict: string,
    currentState: string,
    currentPincode: string,
    totalLandHoldings: real,
    preferredLanguage: string)

  /** Every constraint of the registration schema, stated directly. */
  predicate UserCreateAcceptable(inp: UserCreateInput)
  {
    && 10 <= |inp.phoneNumber| <= 15 && IsDigitString(inp.phoneNumber)
    && (inp.role.None? || inp.role.value in {"farmer", "expert", "admin"})
    && |inp.password| >= 6
    && inp.confirmPassword == inp.password
    && |inp.aadhaarNumber| == 12
    && |inp.currentVillage| <= 100 && |inp.currentTaluka| <= 100 && |inp.currentDistrict| <= 100
    && |inp.currentPincode| == 6
    && inp.totalLandHoldings >= 0.0
    && (inp.preferredLanguage.None? || |inp.preferredLanguage.value| <= 10)
  }

  function UserCreateChecks(inp: UserCreateInput): seq<(string, Option<Reason>)>
  {
    var password := PasswordCheck(inp.password);
    [ ("phone_number", PhoneNumberCheck(inp.phoneNumber)),
      ("role", RoleCheck(inp.role)),
      ("password", password),
      ("confirm_password",
        ConfirmPasswordCheck(if password.None? then Some(inp.password) else None, inp.confirmPassword)),
      ("aadhaar_number", LengthCheck(inp.aadhaarNumber, 12, 12)),
      ("current_village", MaxLengthCheck(inp.currentVillage, 100)),
      ("current_taluka", MaxLengthCheck(inp.currentTaluka, 100)),
      ("current_district", MaxLengthCheck(inp.currentDistrict, 100)),
      ("current_pincode", LengthCheck(inp.currentPincode, 6, 6)),
      ("total_land_holdings", LandHoldingsCheck(inp.totalLandHoldings)),
      ("preferred_language", LanguageCheck(inp.preferredLanguage)) ]
  }

  lemma ChecksPassIffAcceptable(inp: UserCreateInput)
    ensures (forall i :: 0 <= i < 11 ==> UserCreateChecks(inp)[i].1.None?) <==> UserCreateAcceptable(inp)
  {
    var checks := UserCreateChecks(inp);
    if UserCreateAcceptable(inp) {
      assert checks[2].1.None?;
      assert checks[3].1.None?;
    } else if !(10 <= |inp.phoneNumber| <= 15 && IsDigitString(inp.phoneNumber)) {
      assert checks[0].1.Some?;
    } else if !(inp.role.None? || inp.role.value in {"farmer", "expert", "admin"}) {
      assert checks[1].1.Some?;
    } else if |inp.password| < 6 {
      assert checks[2].1.Some?;
    } else if inp.confirmPassword != inp.password {
      assert checks[3].1.Some?;
    } else if |inp.aadhaarNumber| != 12 {
      assert checks[4].1.Some?;
    } else if |inp.currentVillage| > 100 {
      assert checks[5].1.Some?;
    } else if |inp.currentTaluka| > 100 {
      assert checks[6].1.Some?;
    } else if |inp.currentDistrict| > 100 {
      assert checks[7].1.Some?;
    } else if |inp.currentPincode| != 6 {
      assert checks[8].1.Some?;
    } else if inp.totalLandHoldings < 0.0 {
      assert checks[9].1.Some?;
    } else {
      assert checks[10].1.Some?;
    }
  }

  /** Validation of a registration body. */
  function ValidateUserCreate(inp: UserCreateInput): (r: Result<UserCreate, seq<FieldError>>)
    ensures r.Ok? <==> UserCreateAcceptable(inp)
    ensures r.Err? ==> r.error != []
    ensures r.Ok? ==> (r.value.phoneNumber == inp.phoneNumber && r.value.password == inp.password
      && r.value.confirmPassword == inp.password && r.value.email == inp.email
      && r.value.aadhaarNumber == inp.aadhaarNumber && r.value.currentPincode == inp.currentPincode
      && r.value.totalLandHoldings == inp.totalLandHoldings && r.value.fullName == inp.fullName
      && r.value.termsAndConditionFollowed == inp.termsAndConditionFollowed)
    ensures r.Ok? ==> (r.value.currentVillage == inp.currentVillage && r.value.currentTaluka == inp.currentTaluka
      && r.value.currentDistrict == inp.currentDistrict && r.value.currentState == inp.currentState)
    ensures r.Ok? ==> r.value.role == (if inp.role.None? then Farmer else ParseRole(inp.role.value).value)
    ensures r.Ok? ==> r.value.countryCode == (if inp.countryCode.None? then "+91" else inp.countryCode.value)
    ensures r.Ok? ==> (r.value.preferredLanguage ==
      if inp.preferredLanguage.None? then "hi" else inp.preferredLanguage.value)
  {
    var checks := UserCreateChecks(inp);
    var errs := Collect(checks);
    ChecksPassIffAcceptable(inp);
    if errs != [] then Err(errs)
    else
      Ok(UserCreate(
        inp.phoneNumber,
        if inp.countryCode.None? then DefaultCountryCode else inp.countryCode.value,
        inp.email,
        if inp.role.None? then Farmer else ParseRole(inp.role.value).value,
        inp.password,
        inp.confirmPassword,
        inp.fullName,
        inp.termsAndConditionFollowed,
        inp.aadhaarNumber,
        inp.currentVillage,
        inp.currentTaluka,
        inp.currentDistrict,
        inp.currentState,
        inp.currentPincode,
        inp.totalLandHoldings,
        if inp.preferredLanguage.None? then DefaultLanguage else inp.preferredLanguage.value))
  }

  /** With a rejected password no mismatch is reported. */
  lemma NoConfirmErrorAfterBadPassword(inp: UserCreateInput)
    requires |inp.password| < 6
    ensures FieldError("confirm_password", PasswordsDiffer) !in Collect(UserCreateChecks(inp))
  {
    var checks := UserCreateChecks(inp);
    assert checks[3].1.None?;
    forall i | 0 <= i < |checks| && i != 3
      ensures checks[i].1 != Some(PasswordsDiffer)
    {
    }
  }

  /** A rejected password suppresses the comparison with its confirmation;
      an accepted one that differs from it is reported against confirm_password. */
  lemma ConfirmPasswordDependsOnPassword(inp: UserCreateInput)
    ensures |inp.password| < 6 ==>
      FieldError("confirm_password", PasswordsDiffer) !in Collect(UserCreateChecks(inp))
    ensures |inp.password| >= 6 && inp.confirmPassword != inp.password ==>
      FieldError("confirm_password", PasswordsDiffer) in Collect(UserCreateChecks(inp))
  {
    var checks := UserCreateChecks(inp);
    if |inp.password| < 6 {
      NoConfirmErrorAfterBadPassword(inp);
    } else if inp.confirmPassword != inp.password {
      assert checks[3] == ("confirm_password", Some(PasswordsDiffer));
    }
  }

  /** The login body as sent. `countryCode` is `None` when the field is left
      out, `Some(None)` when it is sent as JSON `null` and `Some(Some(c))`
      when it is sent as the text `c`: the field is `Optional[str]`, so a
      `null` is kept and only an omitted field takes the default. */
  datatype UserLoginInput = UserLoginInput(
    password: string,
    phoneNumber: string,
    email: string,
    countryCode: Option<Option<string>>)

  datatype UserLogin = UserLogin(password: string, phoneNumber: string, email: string, countryCode: Option<string>)

  /** Validation of a login body: the same phone rules, a 6-character password. */
  function ValidateUserLogin(inp: UserLoginInput): (r: Result<UserLogin, seq<FieldError>>)
    ensures r.Ok? <==> |inp.password| >= 6 && 10 <= |inp.phoneNumber| <= 15 && IsDigitString(inp.phoneNumber)
    ensures r.Err? ==> r.error != []
    ensures r.Ok? ==> r.value.password == inp.password && r.value.phoneNumber == inp.phoneNumber
    ensures r.Ok? ==> r.value.email == inp.email
    ensures r.Ok? && inp.countryCode.None? ==> r.value.countryCode == Some("+91")
    ensures r.Ok? && inp.countryCode.Some? ==> r.value.countryCode == inp.countryCode.value
  {
    var checks := [ ("password", MinLengthCheck(inp.password, 6)),
                    ("phone_number", PhoneNumberCheck(inp.phoneNumber)) ];
    var errs := Collect(checks);
    if errs != [] then Err(errs)
    else
      assert checks[0].1.None? && checks[1].1.None?;
      Ok(UserLogin(inp.password, inp.phoneNumber, inp.email,
        if inp.countryCode.None? then Some(DefaultCountryCode) else inp.countryCode.value))
  }
}
