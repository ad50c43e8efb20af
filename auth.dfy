/**
 * The session store: one storage slot holding the bearer token, and the advisory reading
 * of its payload (second `.`-separated segment, base64-decoded and parsed as JSON) that
 * decides whether the session has expired. The signature is never checked here.
 */
module Auth {
  import opened Wrappers
  import opened JsonValues
  import opened JsString

  /**
   * `JSON.parse(atob(segment))`: the decoded payload, or `None` when either call throws.
   * Both calls are foreign and are left uninterpreted.
   */
  type SegmentDecoder = string -> Option<Json>

  /** Seconds of early expiry: a token is treated as expired five minutes before `exp`. */
  const EXPIRY_MARGIN_SECONDS: real := 300.0

  /**
   * The argument `atob` receives: the segment at index 1 of the `.`-split token, or the
   * string "undefined" (how JavaScript converts the missing element) when there is none.
   */
  function PayloadSegment(token: string): (seg: string)
    ensures |Split(token, '.')| >= 2 ==> seg == Split(token, '.')[1]
    ensures |Split(token, '.')| < 2 ==> seg == "undefined"
  {
    var parts := Split(token, '.');
    if |parts| >= 2 then parts[1] else "undefined"
  }

  /**
   * `Number(v)`, the conversion `payload.exp - 300` applies. Numbers, booleans, `null`,
   * arrays and objects are converted as JavaScript converts them; a string is taken as
   * NaN (`None`), as README's "Left out" says.
   */
  function NumericValue(v: Json): (r: Option<real>)
    ensures v.JNumber? ==> r == Some(v.n)
    ensures v == JArray([]) ==> r == Some(0.0)
    ensures v.JArray? && |v.items| >= 2 ==> r.None?
    ensures v.JObject? ==> r.None?
  {
    match v
    case JNumber(n) => Some(n)
    case JBool(b) => Some(if b then 1.0 else 0.0)
    case JNull => Some(0.0)
    case JString(_) => None
    case JArray(items) => JoinedNumber(items)
    case JObject(_) => None
  }

  /**
   * `Number(items.join(","))`, which is how an array converts: no element gives "" (0),
   * two or more leave a comma in the text (NaN), and a single element converts through
   * its own text: `null` gives "" (0), a number its decimal, a nested array its own join,
   * and a boolean or object a non-numeric word (NaN).
   */
  function JoinedNumber(items: seq<Json>): (r: Option<real>)
    ensures |items| == 0 ==> r == Some(0.0)
    ensures |items| >= 2 ==> r.None?
    ensures |items| == 1 && items[0].JNumber? ==> r == Some(items[0].n)
    decreases items
  {
    if |items| == 0 then Some(0.0)
    else if |items| >= 2 then None
    else
      match items[0]
      case JNull => Some(0.0)
      case JNumber(n) => Some(n)
      case JBool(_) => None
      case JString(s) => if s == "" then Some(0.0) else None
      case JArray(inner) => JoinedNumber(inner)
      case JObject(_) => None
  }

  /** The expiry rule applied to a decoded payload (`None` for `null`) at time `nowMs`. */
  predicate PayloadExpired(payload: Option<Json>, nowMs: int): (expired: bool)
    ensures !TruthyOpt(payload) ==> expired
  {
    if !TruthyOpt(payload) then true
    else
      var exp := Property(payload.value, "exp");
      if !TruthyOpt(exp) then true
      else
        match NumericValue(exp.value)
        // A comparison with NaN is false: the token is then not expired.
        case None => false
        case Some(e) => nowMs as real >= (e - EXPIRY_MARGIN_SECONDS) * 1000.0
  }

  class SessionStore {
    /** The stored token; `None` when the storage has no entry. */
    var token: Option<string>

    /** The store as found in storage when the page loads. */
    constructor (stored: Option<string>)
      ensures token == stored
    {
      token := stored;
    }

    /** `saveToken`: overwrite the slot; no validation. */
    method SaveToken(t: string)
      modifies this
      ensures token == Some(t)
    {
      token := Some(t);
    }

    /** `getToken`: read the slot. */
    method GetToken() returns (r: Option<string>)
      ensures r == token
    {
      r := token;
    }

    /** `removeToken`: clear the slot, whatever it held. */
    method RemoveToken()
      modifies this
      ensures token == None
    {
      token := None;
    }

    /**
     * `getTokenPayload`: `None` when there is no token or it is empty, and otherwise
     * whatever the decoder produces from the segment at index 1 (`None` when it throws).
     */
    function TokenPayload(decode: SegmentDecoder): (p: Option<Json>)
      reads this
      ensures token.None? ==> p.None?
      ensures token == Some("") ==> p.None?
      ensures token.Some? && token.value != "" ==> p == decode(PayloadSegment(token.value))
    {
      match token
      case None => None
      case Some(t) => if t == "" then None else decode(PayloadSegment(t))
    }

    /** `isTokenExpired` at the current time `nowMs` (milliseconds since the epoch). */
    predicate IsTokenExpired(nowMs: int, decode: SegmentDecoder): (expired: bool)
      reads this
      ensures token.None? || token == Some("") ==> expired
      ensures TokenPayload(decode).None? ==> expired
    {
      PayloadExpired(TokenPayload(decode), nowMs)
    }

    /** `isAuthenticated`: a token is stored and it is not expired. */
    predicate IsAuthenticated(nowMs: int, decode: SegmentDecoder): (authenticated: bool)
      reads this
      ensures authenticated ==> token.Some? && token.value != "" && TokenPayload(decode).Some?
    {
      token.Some? && !IsTokenExpired(nowMs, decode)
    }
  }

  // ---- Properties of the expiry rule ---------------------------------------------

  /** A missing or falsy payload, or one whose `exp` is missing or falsy, is expired. */
  lemma NoExpiryClaimMeansExpired(payload: Option<Json>, nowMs: int)
    requires !TruthyOpt(payload) || !TruthyOpt(Property(payload.value, "exp"))
    ensures PayloadExpired(payload, nowMs)
  {
  }

  /** `exp = 0` counts as no expiry claim at all. */
  lemma ZeroExpiryIsExpired(fields: map<string, Json>, nowMs: int)
    requires "exp" in fields && fields["exp"] == JNumber(0.0)
    ensures PayloadExpired(Some(JObject(fields)), nowMs)
  {
  }

  /** With a non-zero numeric `exp`, expired exactly when now is within 300 s of it or past it. */
  lemma NumericExpiry(fields: map<string, Json>, exp: real, nowMs: int)
    requires "exp" in fields && fields["exp"] == JNumber(exp) && exp != 0.0
    ensures PayloadExpired(Some(JObject(fields)), nowMs) <==> nowMs as real >= (exp - 300.0) * 1000.0
  {
  }

  /** A token whose `exp` lies 60 s ahead is already expired. */
  lemma ExpiresInOneMinute(fields: map<string, Json>, nowMs: int)
    requires nowMs > 0
    requires "exp" in fields && fields["exp"] == JNumber(nowMs as real / 1000.0 + 60.0)
    ensures PayloadExpired(Some(JObject(fields)), nowMs)
  {
  }

  /** A token whose `exp` lies more than 300 s ahead is not expired. */
  lemma ValidBeyondMargin(fields: map<string, Json>, exp: real, nowMs: int)
    requires nowMs >= 0
    requires "exp" in fields && fields["exp"] == JNumber(exp)
    requires exp * 1000.0 > nowMs as real + 300000.0
    ensures !PayloadExpired(Some(JObject(fields)), nowMs)
  {
  }

  /** Expiry is monotone in time: once expired, a token stays expired. */
  lemma ExpiryIsMonotone(payload: Option<Json>, earlier: int, later: int)
    requires earlier <= later
    requires PayloadExpired(payload, earlier)
    ensures PayloadExpired(payload, later)
  {
  }

  /** An empty array `exp` converts to 0, so the token is expired from 300 s before the epoch on. */
  lemma EmptyArrayExpiry(fields: map<string, Json>, nowMs: int)
    requires "exp" in fields && fields["exp"] == JArray([])
    ensures PayloadExpired(Some(JObject(fields)), nowMs) <==> nowMs >= -300000
  {
  }

  /** A one-number array `exp` converts to that number, zero included (the array is truthy). */
  lemma SingletonArrayExpiry(fields: map<string, Json>, exp: real, nowMs: int)
    requires "exp" in fields && fields["exp"] == JArray([JNumber(exp)])
    ensures PayloadExpired(Some(JObject(fields)), nowMs) <==> nowMs as real >= (exp - 300.0) * 1000.0
  {
  }

  /** An `exp` that converts to NaN, such as an array of two values, never expires the token. */
  lemma NaNExpiryNeverExpires(fields: map<string, Json>, nowMs: int)
    requires "exp" in fields && fields["exp"].JArray? && |fields["exp"].items| >= 2
    ensures !PayloadExpired(Some(JObject(fields)), nowMs)
  {
  }

  // ---- Properties of the store ---------------------------------------------------

  /**
   * Authenticated exactly when a non-empty token is stored and the payload decoded from
   * its middle segment is not expired; an empty stored token never authenticates.
   */
  lemma AuthenticatedIffFreshPayload(s: SessionStore, nowMs: int, decode: SegmentDecoder)
    ensures s.IsAuthenticated(nowMs, decode) <==>
      s.token.Some? && s.token.value != "" && !PayloadExpired(decode(PayloadSegment(s.token.value)), nowMs)
    ensures s.token == Some("") ==> !s.IsAuthenticated(nowMs, decode)
  {
  }

  /** An authenticated store holds a token from which a payload was decoded. */
  lemma AuthenticatedHasPayload(s: SessionStore, nowMs: int, decode: SegmentDecoder)
    requires s.IsAuthenticated(nowMs, decode)
    ensures s.token.Some? && s.token.value != ""
    ensures s.TokenPayload(decode).Some?
  {
  }

  /**
   * A three-segment token `head.payload.signature` is read from its middle segment only:
   * the header and the signature play no part.
   */
  lemma {:induction false} PayloadFromMiddleSegment(head: string, payload: string, signature: string)
    requires '.' !in head && '.' !in payload
    ensures PayloadSegment(head + "." + payload + "." + signature) == payload
  {
    var t := head + "." + payload + "." + signature;
    assert t == head + ['.'] + (payload + ['.'] + signature);
    SplitAfterPiece(head, '.', payload + ['.'] + signature);
    SplitAfterPiece(payload, '.', signature);
  }

  /** A token without any `.` gives the decoder the string "undefined". */
  lemma {:induction false} PayloadOfUndottedToken(t: string)
    requires '.' !in t
    ensures PayloadSegment(t) == "undefined"
  {
    SplitWithoutSeparator(t, '.');
  }

  /** Two tokens that agree on their second segment have the same payload. */
  lemma SameMiddleSegmentSamePayload(a: SessionStore, b: SessionStore, decode: SegmentDecoder)
    requires a.token.Some? && b.token.Some?
    requires |Split(a.token.value, '.')| >= 2 && |Split(b.token.value, '.')| >= 2
    requires Split(a.token.value, '.')[1] == Split(b.token.value, '.')[1]
    ensures a.TokenPayload(decode) == b.TokenPayload(decode)
  {
    NonEmptyWhenSplit(a.token.value);
    NonEmptyWhenSplit(b.token.value);
  }

  /** A string that splits into two or more pieces contains the separator, so is not empty. */
  lemma NonEmptyWhenSplit(t: string)
    requires |Split(t, '.')| >= 2
    ensures t != ""
  {
  }

  /** Saving then reading returns exactly what was saved; removing leaves nothing to read. */
  method SaveReadRemove(s: SessionStore, t: string, nowMs: int, decode: SegmentDecoder)
    returns (afterSave: Option<string>, afterRemove: Option<string>)
    modifies s
    ensures afterSave == Some(t)
    ensures afterRemove == None && s.token == None
    ensures !s.IsAuthenticated(nowMs, decode)
  {
    s.SaveToken(t);
    afterSave := s.GetToken();
    s.RemoveToken();
    afterRemove := s.GetToken();
  }

  /** Removing twice leaves the same state as removing once. */
  method RemoveIsIdempotent(s: SessionStore)
    modifies s
    ensures s.token == None
  {
    s.RemoveToken();
    ghost var once := s.token;
    s.RemoveToken();
    assert s.token == once;
  }
}
