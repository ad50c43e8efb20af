/**
 * The two percent-encodings the request paths use, both over UTF-8:
 * ECMAScript's `encodeURIComponent` (section 19.2.6.5 of ECMA-262), and the
 * application/x-www-form-urlencoded serializer that `URLSearchParams.toString` applies
 * (the WHATWG URL Standard, section 5.2), which writes a space as `+`.
 */
module UrlEncoding {
  import opened JsString

  predicate IsAsciiAlphanumeric(c: char) {
    ('a' <= c <= 'z') || ('A' <= c <= 'Z') || ('0' <= c <= '9')
  }

  /** Characters `encodeURIComponent` leaves as they are. */
  predicate UriComponentUnreserved(c: char) {
    IsAsciiAlphanumeric(c) || c in "-_.!~*'()"
  }

  /** Characters the form-urlencoded serializer leaves as they are. */
  predicate FormUnreserved(c: char) {
    IsAsciiAlphanumeric(c) || c in "*-._"
  }

  /** The UTF-8 bytes of one Unicode scalar value. */
  function Utf8Bytes(c: char): (bs: seq<int>)
    ensures 1 <= |bs| <= 4
    ensures forall k :: 0 <= k < |bs| ==> 0 <= bs[k] < 256
    ensures (c as int < 0x80) <==> |bs| == 1
    ensures |bs| == 1 ==> bs[0] == c as int
  {
    var cp := c as int;
    if cp < 0x80 then [cp]
    else if cp < 0x800 then [0xC0 + cp / 64, 0x80 + cp % 64]
    else if cp < 0x10000 then [0xE0 + cp / 4096, 0x80 + (cp / 64) % 64, 0x80 + cp % 64]
    else [0xF0 + cp / 262144, 0x80 + (cp / 4096) % 64, 0x80 + (cp / 64) % 64, 0x80 + cp % 64]
  }

  /** An upper-case hexadecimal digit, as both encoders write them. */
  function HexDigit(d: int): (c: char)
    requires 0 <= d < 16
    ensures IsAsciiAlphanumeric(c)
  {
    if d < 10 then ('0' as int + d) as char else ('A' as int + d - 10) as char
  }

  /** `%XY` for each byte. */
  function PercentBytes(bs: seq<int>): (s: string)
    requires forall k :: 0 <= k < |bs| ==> 0 <= bs[k] < 256
    ensures |s| == 3 * |bs|
    ensures forall k :: 0 <= k < |s| ==> s[k] == '%' || IsAsciiAlphanumeric(s[k])
    decreases |bs|
  {
    if |bs| == 0 then ""
    else ['%', HexDigit(bs[0] / 16), HexDigit(bs[0] % 16)] + PercentBytes(bs[1..])
  }

  /** `encodeURIComponent(s)`. */
  function EncodeUriComponent(s: string): (r: string)
    ensures forall k :: 0 <= k < |r| ==> r[k] == '%' || UriComponentUnreserved(r[k])
    ensures (forall k :: 0 <= k < |s| ==> UriComponentUnreserved(s[k])) ==> r == s
    decreases |s|
  {
    if |s| == 0 then ""
    else
      (if UriComponentUnreserved(s[0]) then [s[0]] else PercentBytes(Utf8Bytes(s[0])))
      + EncodeUriComponent(s[1..])
  }

  /** The form-urlencoded serialization of one name or value. */
  function FormEncode(s: string): (r: string)
    ensures forall k :: 0 <= k < |r| ==> r[k] == '%' || r[k] == '+' || FormUnreserved(r[k])
    ensures (forall k :: 0 <= k < |s| ==> FormUnreserved(s[k])) ==> r == s
    decreases |s|
  {
    if |s| == 0 then ""
    else
      (if FormUnreserved(s[0]) then [s[0]]
       else if s[0] == ' ' then "+"
       else PercentBytes(Utf8Bytes(s[0])))
      + FormEncode(s[1..])
  }

  /** `new URLSearchParams(pairs).toString()`: `name=value` pairs joined by `&`, in order. */
  function QueryString(pairs: seq<(string, string)>): string
    decreases |pairs|
  {
    if |pairs| == 0 then ""
    else if |pairs| == 1 then Pair(pairs[0])
    else Pair(pairs[0]) + "&" + QueryString(pairs[1..])
  }

  function Pair(p: (string, string)): string {
    FormEncode(p.0) + "=" + FormEncode(p.1)
  }

  /** An encoded path segment can hold no `/`, `?`, `#` or `&`: it never leaves its segment. */
  lemma EncodedSegmentStaysInPlace(s: string)
    ensures '/' !in EncodeUriComponent(s) && '?' !in EncodeUriComponent(s)
    ensures '#' !in EncodeUriComponent(s) && '&' !in EncodeUriComponent(s)
  {
    var r := EncodeUriComponent(s);
    forall k | 0 <= k < |r| ensures r[k] !in "/?#&" { }
  }

  /** A serialized name or value holds no `&` or `=`: it cannot add or split a parameter. */
  lemma FormEncodedHasNoDelimiters(s: string)
    ensures '&' !in FormEncode(s) && '=' !in FormEncode(s)
  {
    var r := FormEncode(s);
    forall k | 0 <= k < |r| ensures r[k] != '&' && r[k] != '=' { }
  }

  /** Integers are serialized as their decimal form: digits and `-` need no escaping. */
  lemma FormEncodeInteger(n: int)
    ensures FormEncode(IntToString(n)) == IntToString(n)
  {
    var s := IntToString(n);
    forall k | 0 <= k < |s| ensures FormUnreserved(s[k]) { }
  }

  /**
   * Splitting a query string at `&` recovers its pairs one by one, in the order given:
   * no pair is lost, added or reordered.
   */
  lemma {:induction false} QueryStringSplits(pairs: seq<(string, string)>)
    requires |pairs| >= 1
    ensures |JsString.Split(QueryString(pairs), '&')| == |pairs|
    ensures forall i :: 0 <= i < |pairs| ==> JsString.Split(QueryString(pairs), '&')[i] == Pair(pairs[i])
    decreases |pairs|
  {
    var p := Pair(pairs[0]);
    FormEncodedHasNoDelimiters(pairs[0].0);
    FormEncodedHasNoDelimiters(pairs[0].1);
    assert '&' !in p;
    if |pairs| == 1 {
      SplitWithoutSeparator(p, '&');
    } else {
      QueryStringSplits(pairs[1..]);
      assert QueryString(pairs) == p + ['&'] + QueryString(pairs[1..]);
      SplitAfterPiece(p, '&', QueryString(pairs[1..]));
    }
  }

  /** Four pairs split back into their four `name=value` pieces, in order. */
  lemma FourPairsSplit(a: (string, string), b: (string, string), c: (string, string), d: (string, string))
    ensures JsString.Split(QueryString([a, b, c, d]), '&') == [Pair(a), Pair(b), Pair(c), Pair(d)]
  {
    QueryStringSplits([a, b, c, d]);
  }

  /** A name made of unreserved characters is serialized as it is. */
  lemma FormEncodePlain(s: string)
    requires forall k :: 0 <= k < |s| ==> FormUnreserved(s[k])
    ensures FormEncode(s) == s
  {
  }

  /** A pair with a plain name and an integer value reads `name=digits`. */
  lemma IntegerPair(name: string, n: int)
    requires forall k :: 0 <= k < |name| ==> FormUnreserved(name[k])
    ensures Pair((name, IntToString(n))) == name + "=" + IntToString(n)
  {
    FormEncodePlain(name);
    FormEncodeInteger(n);
  }

  /** Two pairs are joined by a single `&`. */
  lemma QueryStringOfTwo(a: (string, string), b: (string, string))
    ensures QueryString([a, b]) == Pair(a) + "&" + Pair(b)
  {
    assert [a, b][1..] == [b];
  }
}
