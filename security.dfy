/** Password truncation for bcrypt's 72-byte input limit, password hashing
    and checking, and access-token claims (`backend/app/core/security.py`,
    plus the admin router's own `_truncate_to_72_bytes`). bcrypt and the JWT
    library are parameters: `hashpw` is a partial function defined only on
    inputs of at most 72 bytes, so every call the model makes is shown to stay
    within that limit. */
module Security {
  import opened Util
  import opened Utf8
  import opened Json

  const BcryptLimit: nat := 72
  /** `ACCESS_TOKEN_EXPIRE_MINUTES`, 30 by default in the settings. */
  const AccessTokenExpireMinutes: nat := 30

  // ---------------------------------------------------------------------------
  // Truncation

  /** Decode a byte cut the way both truncation helpers do: strictly, and on a
      UnicodeDecodeError again with `errors='ignore'`. */
  function DecodeCut(b: seq<byte>): string {
    match DecodeStrict(b)
    case Some(t) => t
    case None => DecodeIgnore(b)
  }

  /** `_truncate_password`: unchanged when the encoding fits; otherwise the
      longest character prefix that fits, a character cut mid-sequence being
      dropped. */
  function TruncatePassword(password: string): (r: string)
    ensures |r| <= |password| && r == password[..|r|]
    ensures |Encode(r)| <= BcryptLimit
    ensures |Encode(password)| <= BcryptLimit ==> r == password
    ensures |r| < |password| ==> |Encode(r)| + Width(password[|r|]) > BcryptLimit
  {
    var b := Encode(password);
    if |b| > BcryptLimit then
      DecodedCut(password, BcryptLimit);
      DecodeCut(b[..BcryptLimit])
    else password
  }

  /** `_truncate_to_72_bytes` (admin router): always re-decodes, which gives a
      short string back unchanged by the UTF-8 round trip. */
  function TruncateTo72Bytes(text: string): (r: string)
    ensures |r| <= |text| && r == text[..|r|]
    ensures |Encode(r)| <= BcryptLimit
    ensures |Encode(text)| <= BcryptLimit ==> r == text
    ensures |r| < |text| ==> |Encode(r)| + Width(text[|r|]) > BcryptLimit
  {
    DecodedCut(text, BcryptLimit);
    FitPrefixWhole(text, BcryptLimit);
    DecodeCut(CutBytes(text, BcryptLimit))
  }

  /** The two helpers always agree. */
  lemma TruncationsAgree(s: string)
    ensures TruncatePassword(s) == TruncateTo72Bytes(s)
  {
    DecodedCut(s, BcryptLimit);
    if |Encode(s)| <= BcryptLimit {
      FitPrefixWhole(s, BcryptLimit);
    }
  }

  /** Truncation is idempotent. */
  lemma TruncateIdempotent(s: string)
    ensures TruncatePassword(TruncatePassword(s)) == TruncatePassword(s)
  {
  }

  // ---------------------------------------------------------------------------
  // Hashing and checking

  /** The bytes `verify_password` and `get_password_hash` hand to bcrypt. */
  function Bytes72(password: string): (r: seq<byte>)
    ensures |r| <= BcryptLimit && |r| <= |Encode(password)| && r == Encode(password)[..|r|]
    ensures |r| == if |Encode(password)| < BcryptLimit then |Encode(password)| else BcryptLimit
  {
    CutBytes(password, BcryptLimit)
  }

  type Salt = seq<byte>
  /** `bcrypt.hashpw`, only defined on inputs bcrypt accepts. */
  type HashPw = (seq<byte>, Salt) --> string
  /** `bcrypt.checkpw`; `None` is a raised exception (a malformed hash, say). */
  type CheckPw = (seq<byte>, seq<byte>) -> Option<bool>

  ghost predicate BcryptDomain(hashpw: HashPw) {
    forall b: seq<byte>, salt: Salt :: |b| <= BcryptLimit ==> hashpw.requires(b, salt)
  }

  /** `verify_password`: any exception from bcrypt reads as a mismatch. */
  function VerifyPassword(plain: string, hashed: string, checkpw: CheckPw): (ok: bool)
    ensures ok <==> checkpw(Bytes72(plain), Encode(hashed)) == Some(true)
  {
    match checkpw(Bytes72(plain), Encode(hashed))
    case Some(b) => b
    case None => false
  }

  /** `get_password_hash`: bcrypt is given a prefix of the encoding of at most
      72 bytes, the whole encoding when it is short enough. */
  function GetPasswordHash(password: string, salt: Salt, hashpw: HashPw): (h: string)
    requires BcryptDomain(hashpw)
    ensures exists b: seq<byte> ::
      (|b| <= BcryptLimit && |b| <= |Encode(password)| && b == Encode(password)[..|b|] &&
       (|Encode(password)| <= BcryptLimit ==> b == Encode(password)) &&
       hashpw.requires(b, salt) && h == hashpw(b, salt))
  {
    var b := Bytes72(password);
    hashpw(b, salt)
  }

  /** Only the first 72 bytes of a password matter to checking. */
  lemma OnlyFirst72BytesMatter(p: string, q: string, hashed: string, checkpw: CheckPw)
    requires |Encode(p)| >= BcryptLimit && |Encode(q)| >= BcryptLimit
    requires Encode(p)[..BcryptLimit] == Encode(q)[..BcryptLimit]
    ensures VerifyPassword(p, hashed, checkpw) == VerifyPassword(q, hashed, checkpw)
  {
    assert Bytes72(p) == Bytes72(q);
  }

  /** A password checks against its own hash, given bcrypt's own correctness. */
  lemma HashThenVerify(password: string, salt: Salt, hashpw: HashPw, checkpw: CheckPw)
    requires BcryptDomain(hashpw)
    requires forall b: seq<byte> :: |b| <= BcryptLimit && hashpw.requires(b, salt) ==>
      checkpw(b, Encode(hashpw(b, salt))) == Some(true)
    ensures VerifyPassword(password, GetPasswordHash(password, salt, hashpw), checkpw)
  {
    var b := Bytes72(password);
    assert checkpw(b, Encode(hashpw(b, salt))) == Some(true);
  }

  // ---------------------------------------------------------------------------
  // Access tokens

  type Claims = map<string, Js>

  /** The lifetime `create_access_token` applies: a falsy (absent or zero)
      `expires_delta` falls back to the configured default, in seconds. */
  function Lifetime(expiresDelta: Option<int>): (secs: int)
    ensures expiresDelta.Some? && expiresDelta.value != 0 ==> secs == expiresDelta.value
    ensures expiresDelta.None? || expiresDelta.value == 0 ==> secs == AccessTokenExpireMinutes * 60
  {
    if expiresDelta.Some? && expiresDelta.value != 0 then expiresDelta.value
    else AccessTokenExpireMinutes * 60
  }

  /** The payload of `create_access_token`: a copy of the input with the
      RFC 7519 section 4.1.4 `exp` claim set; the caller's map is a value and
      cannot change. */
  function AccessTokenClaims(data: Claims, expiresDelta: Option<int>, now: int): (c: Claims)
    ensures c.Keys == data.Keys + {"exp"}
    ensures c["exp"] == Num(now + Lifetime(expiresDelta))
    ensures forall k :: k in data && k != "exp" ==> c[k] == data[k]
  {
    data["exp" := Num(now + Lifetime(expiresDelta))]
  }

  type JwtEncode = Claims -> string
  datatype Decoded = Payload(claims: Claims) | JwtError
  type JwtDecode = string -> Decoded

  function CreateAccessToken(data: Claims, expiresDelta: Option<int>, now: int, encode: JwtEncode): string {
    encode(AccessTokenClaims(data, expiresDelta, now))
  }

  /** `decode_access_token`: a JWT error becomes `None`. */
  function DecodeAccessToken(token: string, decode: JwtDecode): (r: Option<Claims>)
    ensures r.None? <==> decode(token).JwtError?
    ensures r.Some? ==> r.value == decode(token).claims
  {
    match decode(token)
    case Payload(c) => Some(c)
    case JwtError => None
  }

  /** A token decodes to the claims it was made from, when the JWT library
      round-trips them. */
  lemma TokenRoundTrip(data: Claims, expiresDelta: Option<int>, now: int, encode: JwtEncode, decode: JwtDecode)
    requires decode(encode(AccessTokenClaims(data, expiresDelta, now))) == Payload(AccessTokenClaims(data, expiresDelta, now))
    ensures DecodeAccessToken(CreateAccessToken(data, expiresDelta, now, encode), decode) == Some(AccessTokenClaims(data, expiresDelta, now))
  {
  }
}
