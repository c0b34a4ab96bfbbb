/** Access-token issue and checking. The signing library is represented by a
    symbolic reference: a token carries its claims and a signature that names
    the claims and the key it was made over, so a token verifies exactly when
    its signature was made over its own claims with the process key. Time is
    an integer count of seconds. */
module Jwt {
  import opened Common

  type Claims = map<string, Json>

  /** Lifetime when the caller gives none: 30 minutes. */
  const DefaultLifetime: int := 30 * 60

  datatype Signature = Signature(signedClaims: Claims, key: string)

  /** A compact token: its claims and the signature that travels with them. */
  datatype Token = Token(claims: Claims, signature: Signature)

  /** `jwt.encode(claims, key)`. */
  function Encode(claims: Claims, key: string): Token
  {
    Token(claims, Signature(claims, key))
  }

  const BadSignatureMessage := "Signature verification failed."
  const ExpiredMessage := "Signature has expired."
  const ExpNotIntegerMessage := "Expiration Time claim (exp) must be an integer."

  /** What Python's `int(v)` makes of a decoded JSON value: a number, the
      ValueError of a string that is not an integer literal, or the TypeError
      of a value `int()` does not take, with that error's text. */
  datatype IntCoercion = IntValue(n: int) | ValueError | TypeError(text: string)

  /** The text of the TypeError `int()` raises for a value of the named type. */
  function IntTypeErrorText(typeName: string): string
  {
    "int() argument must be a string, a bytes-like object or a real number, not '" + typeName + "'"
  }

  /** Python's `int(v)`: an integer is itself, a boolean is 1 or 0, a float is
      truncated toward zero, a string is parsed; null, arrays and objects are
      refused with a TypeError. */
  function IntOf(v: Json): (r: IntCoercion)
    ensures v.JInt? ==> r == IntValue(v.i)
    ensures v.JBool? ==> r == IntValue(if v.b then 1 else 0)
    ensures v.JFloat? ==> (
      && r.IntValue?
      && (v.f >= 0.0 ==> 0 <= r.n && r.n as real <= v.f < r.n as real + 1.0)
      && (v.f < 0.0 ==> r.n <= 0 && r.n as real - 1.0 < v.f <= r.n as real))
    ensures v.JStr? ==> (r.IntValue? <==> ParseInt(v.s).Some?) && !r.TypeError?
    ensures v.JStr? && ParseInt(v.s).Some? ==> r.n == ParseInt(v.s).value
    ensures r.TypeError? <==> v.JNull? || v.JArr? || v.JObj?
  {
    match v
    case JInt(i) => IntValue(i)
    case JBool(b) => IntValue(if b then 1 else 0)
    case JFloat(f) => IntValue(if f >= 0.0 then f.Floor else -((-f).Floor))
    case JStr(s) => if ParseInt(s).Some? then IntValue(ParseInt(s).value) else ValueError
    case JNull => TypeError(IntTypeErrorText("NoneType"))
    case JArr(_) => TypeError(IntTypeErrorText("list"))
    case JObj(_) => TypeError(IntTypeErrorText("dict"))
  }

  /** The outcome of `jwt.decode`: the claims, a `JWTError` with its message,
      or an exception of another kind that escapes it, with that exception's text. */
  datatype DecodeResult = Decoded(payload: Claims) | JwtError(message: string) | Raised(text: string)

  /** `jwt.decode(token, key)`: the signature first, then `exp`. The claim is
      coerced by `int()`: a value it cannot parse is a claims error, a value
      of the wrong type lets the TypeError escape, and an expiry in the past
      means expired (a token is still good at `exp`). */
  function Decode(token: Token, key: string, now: int): (r: DecodeResult)
    ensures r.Decoded? ==> r.payload == token.claims
    ensures r.Decoded? <==> (token.signature == Signature(token.claims, key) &&
      ("exp" in token.claims ==> IntOf(token.claims["exp"]).IntValue? && now <= IntOf(token.claims["exp"]).n))
    ensures r.Raised? <==> (token.signature == Signature(token.claims, key) &&
      "exp" in token.claims && IntOf(token.claims["exp"]).TypeError?)
    ensures r.Raised? ==> r.text == IntOf(token.claims["exp"]).text
    ensures r == JwtError(ExpNotIntegerMessage) <==> (token.signature == Signature(token.claims, key) &&
      "exp" in token.claims && IntOf(token.claims["exp"]).ValueError?)
    ensures r == JwtError(ExpiredMessage) <==> (token.signature == Signature(token.claims, key) &&
      "exp" in token.claims && IntOf(token.claims["exp"]).IntValue? && IntOf(token.claims["exp"]).n < now)
  {
    if token.signature != Signature(token.claims, key) then JwtError(BadSignatureMessage)
    else if "exp" !in token.claims then Decoded(token.claims)
    else
      match IntOf(token.claims["exp"])
      case ValueError => JwtError(ExpNotIntegerMessage)
      case TypeError(text) => Raised(text)
      case IntValue(exp) => if exp < now then JwtError(ExpiredMessage) else Decoded(token.claims)
  }

  /** An `exp` written as the decimal text of a number behaves exactly like
      that number: the token decodes, or is expired, at the same instants. */
  lemma {:induction false} NumericTextExpActsAsNumber(claims: Claims, exp: nat, key: string, now: int)
    ensures var asText := Encode(claims["exp" := JStr(NatToString(exp))], key);
      var asNumber := Encode(claims["exp" := JInt(exp)], key);
      && (Decode(asText, key, now).Decoded? <==> Decode(asNumber, key, now).Decoded?)
      && (Decode(asText, key, now) == JwtError(ExpiredMessage) <==>
          Decode(asNumber, key, now) == JwtError(ExpiredMessage))
  {
    ParseIntNatToString(exp);
  }

  /** `if expires_delta:` a missing or zero delta means the default 30 minutes. */
  function Lifetime(expiresDelta: Option<int>): (seconds: int)
    ensures expiresDelta.Some? && expiresDelta.value != 0 ==> seconds == expiresDelta.value
    ensures expiresDelta.None? || expiresDelta.value == 0 ==> seconds == 30 * 60
  {
    if expiresDelta.Some? && expiresDelta.value != 0 then expiresDelta.value else DefaultLifetime
  }

  /** The claims `create_access_token` encodes: a copy of `data` with `exp` set. */
  function ClaimsToEncode(data: Claims, expiresDelta: Option<int>, now: int): (c: Claims)
    ensures c.Keys == data.Keys + {"exp"}
    ensures forall k :: k in data && k != "exp" ==> c[k] == data[k]
    ensures c["exp"] == JInt(now + Lifetime(expiresDelta))
  {
    data["exp" := JInt(now + Lifetime(expiresDelta))]
  }

  /** `create_access_token`. The caller's `data` is a value and is not changed. */
  function CreateAccessToken(data: Claims, expiresDelta: Option<int>, now: int, key: string): (t: Token)
    ensures t.claims == ClaimsToEncode(data, expiresDelta, now)
    ensures Decode(t, key, now) == Decoded(t.claims) <==> Lifetime(expiresDelta) >= 0
  {
    Encode(ClaimsToEncode(data, expiresDelta, now), key)
  }

  /** A freshly issued token decodes to its claims up to and including its
      expiry instant and is reported expired at every later instant. */
  lemma {:induction false} IssuedTokenLifetime(data: Claims, expiresDelta: Option<int>, issued: int, key: string, now: int)
    ensures var t := CreateAccessToken(data, expiresDelta, issued, key);
      && (now <= issued + Lifetime(expiresDelta) ==> Decode(t, key, now) == Decoded(t.claims))
      && (now > issued + Lifetime(expiresDelta) ==> Decode(t, key, now) == JwtError(ExpiredMessage))
  {
    var t := CreateAccessToken(data, expiresDelta, issued, key);
    assert t.claims["exp"] == JInt(issued + Lifetime(expiresDelta));
  }

  /** A token whose claims differ from what was signed, or that was signed with
      another key, never decodes. */
  lemma TamperedTokenRejected(token: Token, key: string, now: int)
    requires token.signature.signedClaims != token.claims || token.signature.key != key
    ensures Decode(token, key, now) == JwtError(BadSignatureMessage)
  {
  }

  datatype VerifyResult = Verified(payload: Claims) | Rejected(error: HttpError)

  const CredentialsDetail := "Could not validate credentials"

  /** The framework's answer to an exception no handler catches. */
  const InternalErrorDetail := "Internal Server Error"

  /** `verify_token`. A library error is the 401 that carries the Bearer
      challenge. A missing `sub` raises that same exception inside the `try`;
      the generic handler catches it and raises a new 401 whose detail is the
      caught exception's text, "401: Could not validate credentials", and
      which carries no challenge header. */
  function VerifyToken(token: Token, key: string, now: int): (r: VerifyResult)
    ensures r.Rejected? ==> r.error.status == 401
    ensures r.Verified? <==> (Decode(token, key, now).Decoded? &&
      "sub" in token.claims && token.claims["sub"] != JNull)
    ensures r.Verified? ==> r.payload == token.claims
    ensures Decode(token, key, now).JwtError? ==> r == Rejected(HttpError(401, CredentialsDetail, true))
    ensures Decode(token, key, now).Raised? ==> r == Rejected(HttpError(401, Decode(token, key, now).text, false))
  {
    match Decode(token, key, now)
    case JwtError(_) => Rejected(HttpError(401, CredentialsDetail, true))
    case Raised(text) => Rejected(HttpError(401, text, false))
    case Decoded(payload) =>
      if "sub" !in payload || payload["sub"] == JNull then
        Rejected(HttpError(401, "401: " + CredentialsDetail, false))
      else Verified(payload)
  }

  /** `decode_token`: the library's message decides between the two details;
      no claim is inspected. An exception that is not a `JWTError` is not
      caught and reaches the framework, which answers 500. */
  function DecodeToken(token: Token, key: string, now: int): (r: Result<Claims, HttpError>)
    ensures r.Err? ==> (r.error.status == 500 <==> Decode(token, key, now).Raised?)
    ensures r.Err? && !Decode(token, key, now).Raised? ==> r.error.status == 401
    ensures r.Ok? <==> Decode(token, key, now).Decoded?
    ensures r.Ok? ==> r.value == token.claims
  {
    match Decode(token, key, now)
    case Decoded(payload) => Ok(payload)
    case Raised(_) => Err(Error(500, InternalErrorDetail))
    case JwtError(message) =>
      if Contains(message, "Signature has expired") then Err(Error(401, "Token expired"))
      else Err(Error(401, "Invalid token"))
  }

  /** No capital S appears in the malformed-`exp` message. */
  lemma ExpNotIntegerHasNoCapitalS()
    ensures forall j :: 0 <= j < |ExpNotIntegerMessage| ==> ExpNotIntegerMessage[j] != 'S'
  {
    var front, back := "Expiration Time claim (exp)", " must be an integer.";
    assert forall j :: 0 <= j < |front| ==> front[j] != 'S';
    assert forall j :: 0 <= j < |back| ==> back[j] != 'S';
    assert ExpNotIntegerMessage == front + back;
  }

  /** Of the library's three messages, only the expiry one contains the
      phrase `decode_token` looks for. */
  lemma ExpiryPhraseOnlyInExpired()
    ensures Contains(ExpiredMessage, "Signature has expired")
    ensures !Contains(BadSignatureMessage, "Signature has expired")
    ensures !Contains(ExpNotIntegerMessage, "Signature has expired")
  {
    var phrase := "Signature has expired";
    assert ExpiredMessage == phrase + ".";
    ContainsMiddle("", phrase, ".");
    assert phrase[10] == 'h';
    NotContainsByChar(BadSignatureMessage, phrase, 10);
    ExpNotIntegerHasNoCapitalS();
    NotContainsByChar(ExpNotIntegerMessage, phrase, 0);
  }

  /** Expiry and forgery are told apart: an expired genuine token reads
      "Token expired", a token with a bad signature or an `exp` that is text
      but no integer reads "Invalid token", and an `exp` of a type `int()`
      refuses is a server error. */
  lemma DecodeTokenClassifies(token: Token, key: string, now: int)
    ensures Decode(token, key, now) == JwtError(ExpiredMessage) ==>
      DecodeToken(token, key, now) == Err(Error(401, "Token expired"))
    ensures Decode(token, key, now) in {JwtError(BadSignatureMessage), JwtError(ExpNotIntegerMessage)} ==>
      DecodeToken(token, key, now) == Err(Error(401, "Invalid token"))
    ensures Decode(token, key, now).Raised? ==> DecodeToken(token, key, now) == Err(Error(500, InternalErrorDetail))
    ensures Decode(token, key, now).JwtError? ==>
      Decode(token, key, now).message in {ExpiredMessage, BadSignatureMessage, ExpNotIntegerMessage}
  {
    ExpiryPhraseOnlyInExpired();
  }

  /** A token issued by `create_access_token` over claims with a non-null
      `sub` passes `verify_token` for its whole lifetime and is refused with
      the Bearer challenge after it. */
  lemma {:induction false} IssuedTokenVerifies(data: Claims, expiresDelta: Option<int>, issued: int, key: string, now: int)
    requires "sub" in data && data["sub"] != JNull
    ensures var t := CreateAccessToken(data, expiresDelta, issued, key);
      && (now <= issued + Lifetime(expiresDelta) ==> VerifyToken(t, key, now) == Verified(t.claims))
      && (now > issued + Lifetime(expiresDelta) ==>
            VerifyToken(t, key, now) == Rejected(HttpError(401, CredentialsDetail, true)))
  {
    IssuedTokenLifetime(data, expiresDelta, issued, key, now);
  }
}
