/**
 * `urllib.parse.urlencode` with its default `quote_plus` escaping: each
 * key and value is UTF-8 encoded, ASCII letters, digits and `_.-~` are
 * kept, a space becomes `+`, every other byte becomes `%XY` (upper-case
 * hex), and the `key=value` pairs are joined by `&`.
 *
 * The decoder is the reference the encoder is proved against: decoding
 * an encoded query gives back the parameters, in order.
 */
module UrlEncoding {
  import opened Basics

  type Byte = b: int | 0 <= b < 256

  // ---- UTF-8 ----

  /** The UTF-8 encoding of one Unicode scalar value. */
  function Utf8Char(c: char): (r: seq<Byte>)
    ensures 1 <= |r| <= 4
    ensures |r| == Utf8Length(r[0])
  {
    var n := c as int;
    if n < 0x80 then [n]
    else if n < 0x800 then [0xC0 + n / 64, 0x80 + n % 64]
    else if n < 0x10000 then [0xE0 + n / 4096, 0x80 + (n / 64) % 64, 0x80 + n % 64]
    else [0xF0 + n / 262144, 0x80 + (n / 4096) % 64, 0x80 + (n / 64) % 64, 0x80 + n % 64]
  }

  /** How many bytes the character led by `b` occupies. */
  function Utf8Length(b: Byte): (n: nat)
    ensures 1 <= n <= 4
  {
    if b < 0x80 then 1 else if b < 0xE0 then 2 else if b < 0xF0 then 3 else 4
  }

  function Utf8(s: string): (r: seq<Byte>)
    ensures |r| >= |s|
  {
    if |s| == 0 then [] else Utf8Char(s[0]) + Utf8(s[1..])
  }

  /** The number one encoded character carries (lead-byte marker and continuation markers removed). */
  function CodePoint(u: seq<Byte>): int
    requires 1 <= |u| <= 4
  {
    var b0: int, n := u[0], |u|;
    if n == 1 then b0
    else if n == 2 then (b0 - 0xC0) * 64 + (u[1] as int - 0x80)
    else if n == 3 then (b0 - 0xE0) * 4096 + (u[1] as int - 0x80) * 64 + (u[2] as int - 0x80)
    else (b0 - 0xF0) * 262144 + (u[1] as int - 0x80) * 4096 + (u[2] as int - 0x80) * 64 + (u[3] as int - 0x80)
  }

  /** The scalar value one encoded character stands for, when it is one. */
  function CharOf(u: seq<Byte>): Option<char>
    requires 1 <= |u| <= 4
  {
    var n := CodePoint(u);
    if 0 <= n < 0xD800 || 0xE000 <= n < 0x110000 then Some(n as char) else None
  }

  function DecodeUtf8(bs: seq<Byte>): Option<string>
    decreases |bs|
  {
    if |bs| == 0 then Some("")
    else
      var len := Utf8Length(bs[0]);
      if |bs| < len then None
      else match (CharOf(bs[..len]), DecodeUtf8(bs[len..]))
        case (Some(c), Some(rest)) => Some([c] + rest)
        case _ => None
  }

  lemma CodePointUtf8Char(c: char)
    ensures CodePoint(Utf8Char(c)) == c as int
  {
    var n := c as int;
    if n < 0x80 {
    } else if n < 0x800 {
      CodePointTwoBytes(c);
    } else if n < 0x10000 {
      CodePointThreeBytes(c);
    } else {
      CodePointFourBytes(c);
    }
  }

  lemma CodePointTwoBytes(c: char)
    requires 0x80 <= c as int < 0x800
    ensures CodePoint(Utf8Char(c)) == c as int
  {
    var n := c as int;
    assert (n / 64) * 64 + n % 64 == n;
  }

  lemma CodePointThreeBytes(c: char)
    requires 0x800 <= c as int < 0x10000
    ensures CodePoint(Utf8Char(c)) == c as int
  {
    var n := c as int;
    assert (n / 4096) * 4096 + ((n / 64) % 64) * 64 + n % 64 == n;
  }

  lemma CodePointFourBytes(c: char)
    requires 0x10000 <= c as int
    ensures CodePoint(Utf8Char(c)) == c as int
  {
    var n := c as int;
    assert (n / 262144) * 262144 + ((n / 4096) % 64) * 4096 + ((n / 64) % 64) * 64 + n % 64 == n;
  }

  lemma CharOfUtf8Char(c: char)
    ensures CharOf(Utf8Char(c)) == Some(c)
  {
    CodePointUtf8Char(c);
  }

  /** Decoding the UTF-8 encoding gives back the string. */
  lemma {:induction false} DecodeUtf8RoundTrip(s: string)
    ensures DecodeUtf8(Utf8(s)) == Some(s)
  {
    if |s| > 0 {
      var u := Utf8Char(s[0]);
      var bs := Utf8(s);
      CharOfUtf8Char(s[0]);
      DecodeUtf8RoundTrip(s[1..]);
      assert bs[..|u|] == u;
      assert bs[|u|..] == Utf8(s[1..]);
      assert s == [s[0]] + s[1..];
    }
  }

  // ---- percent-encoding of bytes ----

  /** The characters `quote_plus` never escapes. */
  predicate Unreserved(c: char) {
    ('A' <= c <= 'Z') || ('a' <= c <= 'z') || ('0' <= c <= '9') || c == '_' || c == '.' || c == '-' || c == '~'
  }

  /** A character that can appear in the output of `quote_plus`. */
  predicate QueryChar(c: char) {
    Unreserved(c) || c == '+' || c == '%' || ('A' <= c <= 'F')
  }

  function HexDigit(d: nat): (c: char)
    requires d < 16
    ensures QueryChar(c)
  {
    if d < 10 then ('0' as int + d) as char else ('A' as int + d - 10) as char
  }

  function HexValue(c: char): Option<nat> {
    if '0' <= c <= '9' then Some(c as int - '0' as int)
    else if 'A' <= c <= 'F' then Some(c as int - 'A' as int + 10)
    else None
  }

  lemma HexValueDigit(d: nat)
    requires d < 16
    ensures HexValue(HexDigit(d)) == Some(d)
  {
  }

  /** The escape of one byte. */
  function QuoteByte(b: Byte): (r: string)
    ensures forall i :: 0 <= i < |r| ==> QueryChar(r[i])
    ensures 1 <= |r| <= 3
  {
    if b < 0x80 && Unreserved(b as char) then [b as char]
    else if b == 0x20 then "+"
    else ['%', HexDigit(b / 16), HexDigit(b % 16)]
  }

  function QuoteBytes(bs: seq<Byte>): (r: string)
    ensures forall i :: 0 <= i < |r| ==> QueryChar(r[i])
  {
    if |bs| == 0 then "" else QuoteByte(bs[0]) + QuoteBytes(bs[1..])
  }

  /** Undo the byte escapes: `+` is a space, `%XY` a byte, an unreserved character itself. */
  function UnquoteBytes(s: string): Option<seq<Byte>>
    decreases |s|
  {
    if |s| == 0 then Some([])
    else if s[0] == '+' then
      match UnquoteBytes(s[1..]) case Some(rest) => Some([0x20] + rest) case None => None
    else if s[0] == '%' then
      if |s| < 3 then None
      else match (HexValue(s[1]), HexValue(s[2]), UnquoteBytes(s[3..]))
        case (Some(hi), Some(lo), Some(rest)) =>
          if hi < 16 && lo < 16 then Some([hi * 16 + lo] + rest) else None
        case _ => None
    else if Unreserved(s[0]) then
      match UnquoteBytes(s[1..]) case Some(rest) => Some([s[0] as int] + rest) case None => None
    else None
  }

  lemma UnquoteQuoteByte(b: Byte, rest: string, tail: seq<Byte>)
    requires UnquoteBytes(rest) == Some(tail)
    ensures UnquoteBytes(QuoteByte(b) + rest) == Some([b] + tail)
  {
    var q := QuoteByte(b) + rest;
    if b < 0x80 && Unreserved(b as char) {
      assert q[1..] == rest;
    } else if b == 0x20 {
      assert q[1..] == rest;
    } else {
      HexValueDigit(b / 16);
      HexValueDigit(b % 16);
      assert q[3..] == rest;
    }
  }

  lemma {:induction false} UnquoteQuoteBytes(bs: seq<Byte>)
    ensures UnquoteBytes(QuoteBytes(bs)) == Some(bs)
  {
    if |bs| > 0 {
      UnquoteQuoteBytes(bs[1..]);
      UnquoteQuoteByte(bs[0], QuoteBytes(bs[1..]), bs[1..]);
      assert bs == [bs[0]] + bs[1..];
    }
  }

  // ---- quote_plus ----

  /** `urllib.parse.quote_plus(s)`. */
  function QuotePlus(s: string): (r: string)
    ensures forall i :: 0 <= i < |r| ==> QueryChar(r[i])
  {
    QuoteBytes(Utf8(s))
  }

  /** `urllib.parse.unquote_plus`, restricted to well-formed input. */
  function UnquotePlus(s: string): Option<string> {
    match UnquoteBytes(s)
    case Some(bs) => DecodeUtf8(bs)
    case None => None
  }

  /** Escaping loses nothing: unescaping gives back the text. */
  lemma UnquotePlusRoundTrip(s: string)
    ensures UnquotePlus(QuotePlus(s)) == Some(s)
  {
    UnquoteQuoteBytes(Utf8(s));
    DecodeUtf8RoundTrip(s);
  }

  /** Distinct texts escape differently. */
  lemma QuotePlusInjective(a: string, b: string)
    requires QuotePlus(a) == QuotePlus(b)
    ensures a == b
  {
    UnquotePlusRoundTrip(a);
    UnquotePlusRoundTrip(b);
  }

  // ---- urlencode ----

  datatype Param = Param(key: string, value: string)

  function EncodeParam(p: Param): string {
    QuotePlus(p.key) + "=" + QuotePlus(p.value)
  }

  /** `urlencode(params)`: the encoded pairs in the dictionary's insertion order, joined by `&`. */
  function UrlEncode(ps: seq<Param>): string {
    if |ps| == 0 then ""
    else if |ps| == 1 then EncodeParam(ps[0])
    else EncodeParam(ps[0]) + "&" + UrlEncode(ps[1..])
  }

  /** The `key=value` piece of each parameter, in order. */
  function EncodedPairs(ps: seq<Param>): (r: seq<string>)
    ensures |r| == |ps|
  {
    if |ps| == 0 then [] else [EncodeParam(ps[0])] + EncodedPairs(ps[1..])
  }

  /** `s.split(sep)`. */
  function Split(s: string, sep: char): (parts: seq<string>)
    ensures |parts| > 0
    ensures forall i, j :: 0 <= i < |parts| && 0 <= j < |parts[i]| ==> parts[i][j] != sep
  {
    if |s| == 0 then [""]
    else if s[0] == sep then [""] + Split(s[1..], sep)
    else
      var r := Split(s[1..], sep);
      [[s[0]] + r[0]] + r[1..]
  }

  /** Splitting a piece without `sep`, followed by `sep` and more, yields that piece first. */
  lemma {:induction false} SplitAfterPiece(a: string, sep: char, rest: string)
    requires sep !in a
    ensures Split(a + [sep] + rest, sep) == [a] + Split(rest, sep)
  {
    if |a| == 0 {
      assert a + [sep] + rest == [sep] + rest;
      assert ([sep] + rest)[1..] == rest;
    } else {
      SplitAfterPiece(a[1..], sep, rest);
      assert (a + [sep] + rest)[1..] == a[1..] + [sep] + rest;
      assert [a[0]] + a[1..] == a;
    }
  }

  lemma {:induction false} SplitWhole(a: string, sep: char)
    requires sep !in a
    ensures Split(a, sep) == [a]
  {
    if |a| > 0 {
      SplitWhole(a[1..], sep);
      assert [a[0]] + a[1..] == a;
    }
  }

  /** Reading a query string back into its parameters: the reference for `UrlEncode`. */
  function ParseQuery(q: string): Option<seq<Param>> {
    ParsePairs(Split(q, '&'))
  }

  function ParsePairs(pieces: seq<string>): Option<seq<Param>> {
    if |pieces| == 0 then Some([])
    else
      var kv := Split(pieces[0], '=');
      if |kv| != 2 then None
      else match (UnquotePlus(kv[0]), UnquotePlus(kv[1]), ParsePairs(pieces[1..]))
        case (Some(k), Some(v), Some(rest)) => Some([Param(k, v)] + rest)
        case _ => None
  }

  lemma EncodedHasNo(s: string, c: char)
    requires !QueryChar(c)
    ensures c !in QuotePlus(s)
  {
  }

  lemma EncodeParamPieces(p: Param)
    ensures '&' !in EncodeParam(p)
    ensures Split(EncodeParam(p), '=') == [QuotePlus(p.key), QuotePlus(p.value)]
  {
    EncodedHasNo(p.key, '&');
    EncodedHasNo(p.value, '&');
    EncodedHasNo(p.key, '=');
    EncodedHasNo(p.value, '=');
    SplitWhole(QuotePlus(p.value), '=');
    SplitAfterPiece(QuotePlus(p.key), '=', QuotePlus(p.value));
  }

  /** The query splits on `&` into exactly one encoded pair per parameter. */
  lemma {:induction false} SplitUrlEncode(ps: seq<Param>)
    requires |ps| > 0
    ensures Split(UrlEncode(ps), '&') == EncodedPairs(ps)
  {
    EncodeParamPieces(ps[0]);
    if |ps| == 1 {
      SplitWhole(EncodeParam(ps[0]), '&');
    } else {
      SplitUrlEncode(ps[1..]);
      SplitAfterPiece(EncodeParam(ps[0]), '&', UrlEncode(ps[1..]));
    }
  }

  /** One more encoded pair in front parses to its parameter in front. */
  lemma ParsePairsCons(p: Param, pieces: seq<string>, qs: seq<Param>)
    requires ParsePairs(pieces) == Some(qs)
    ensures ParsePairs([EncodeParam(p)] + pieces) == Some([p] + qs)
  {
    var all := [EncodeParam(p)] + pieces;
    EncodeParamPieces(p);
    UnquotePlusRoundTrip(p.key);
    UnquotePlusRoundTrip(p.value);
    assert all[0] == EncodeParam(p) && all[1..] == pieces;
  }

  lemma {:induction false} ParsePairsEncoded(ps: seq<Param>)
    ensures ParsePairs(EncodedPairs(ps)) == Some(ps)
  {
    if |ps| > 0 {
      ParsePairsEncoded(ps[1..]);
      ParsePairsCons(ps[0], EncodedPairs(ps[1..]), ps[1..]);
      assert ps == [ps[0]] + ps[1..];
    }
  }

  /** The encoded query gives back every parameter, with its value, in the original order. */
  lemma ParseQueryUrlEncode(ps: seq<Param>)
    requires |ps| > 0
    ensures ParseQuery(UrlEncode(ps)) == Some(ps)
  {
    SplitUrlEncode(ps);
    ParsePairsEncoded(ps);
  }
}
