/**
 * String helpers with the meaning Python gives them: substring search
 * (`k in s`), `str.replace(k, '')`, `str.isspace`, ASCII `str.lower`,
 * `str(n)` for integers and `str.startswith`.
 */
module Text {

  /** `s` begins with `p` (Python's `s.startswith(p)`). */
  predicate StartsWith(s: string, p: string) {
    |p| <= |s| && s[..|p|] == p
  }

  /** `s` ends with `p` (Python's `s.endswith(p)`). */
  predicate EndsWith(s: string, p: string) {
    |p| <= |s| && s[|s| - |p|..] == p
  }

  /** `k` occurs in `s` as a contiguous substring (Python's `k in s`). */
  predicate Occurs(s: string, k: string)
    decreases |s|
  {
    StartsWith(s, k) || (|s| > 0 && Occurs(s[1..], k))
  }

  /** A key whose first character does not occur in `s` does not occur in `s`. */
  lemma {:induction false} NotOccursWithoutFirstChar(s: string, k: string)
    requires |k| > 0 && k[0] !in s
    ensures !Occurs(s, k)
  {
    if |s| > 0 {
      NotOccursWithoutFirstChar(s[1..], k);
    }
  }

  /**
   * `s.replace(k, '')`: scanning left to right, every non-overlapping
   * occurrence of `k` is deleted. Replacing the empty string by the empty
   * string changes nothing.
   */
  function ReplaceAll(s: string, k: string): (r: string)
    ensures |r| <= |s|
    ensures forall c :: c in r ==> c in s
    decreases |s|
  {
    if |k| == 0 then s
    else if |s| == 0 then ""
    else if StartsWith(s, k) then ReplaceAll(s[|k|..], k)
    else [s[0]] + ReplaceAll(s[1..], k)
  }

  /** Nothing is deleted from a string in which `k` does not occur. */
  lemma {:induction false} ReplaceAllAbsent(s: string, k: string)
    requires !Occurs(s, k)
    ensures ReplaceAll(s, k) == s
    decreases |s|
  {
    if |s| > 0 {
      ReplaceAllAbsent(s[1..], k);
      assert s == [s[0]] + s[1..];
    }
  }

  /** Deleting a one-character key leaves exactly the other characters, and the key no longer occurs. */
  lemma {:induction false} ReplaceAllSingle(s: string, c: char)
    ensures ReplaceAll(s, [c]) == Remove(s, c)
    ensures !Occurs(ReplaceAll(s, [c]), [c])
    decreases |s|
  {
    if |s| > 0 {
      ReplaceAllSingle(s[1..], c);
      if s[0] != c {
        var t := ReplaceAll(s[1..], [c]);
        assert !StartsWith([s[0]] + t, [c]);
        assert ([s[0]] + t)[1..] == t;
      }
    }
  }

  /** The characters of `s` other than `c`, in order. */
  function Remove(s: string, c: char): (r: string)
    ensures c !in r
    ensures forall x :: x in r ==> x in s
  {
    if |s| == 0 then "" else (if s[0] == c then "" else [s[0]]) + Remove(s[1..], c)
  }

  /** The characters of `s` that `drop` does not select, in order. */
  function RemoveWhere(s: string, drop: char -> bool): (r: string)
    ensures forall i :: 0 <= i < |r| ==> !drop(r[i])
    ensures |r| <= |s|
  {
    if |s| == 0 then "" else (if drop(s[0]) then "" else [s[0]]) + RemoveWhere(s[1..], drop)
  }

  /** Removing characters from a concatenation removes them from each part. */
  lemma {:induction false} RemoveWhereAppend(a: string, b: string, drop: char -> bool)
    ensures RemoveWhere(a + b, drop) == RemoveWhere(a, drop) + RemoveWhere(b, drop)
  {
    if |a| == 0 {
      assert a + b == b;
    } else {
      assert (a + b)[1..] == a[1..] + b;
      RemoveWhereAppend(a[1..], b, drop);
    }
  }

  /** Removing every character of `s` leaves nothing. */
  lemma {:induction false} RemoveWhereAll(s: string, drop: char -> bool)
    requires forall i :: 0 <= i < |s| ==> drop(s[i])
    ensures RemoveWhere(s, drop) == ""
  {
    if |s| > 0 {
      RemoveWhereAll(s[1..], drop);
    }
  }

  /** Removing by `p` and then by `q` is removing by `either`, which holds where one of them does. */
  lemma {:induction false} RemoveWhereTwice(s: string, p: char -> bool, q: char -> bool, either: char -> bool)
    requires forall c :: either(c) == (p(c) || q(c))
    ensures RemoveWhere(RemoveWhere(s, p), q) == RemoveWhere(s, either)
  {
    if |s| > 0 {
      RemoveWhereTwice(s[1..], p, q, either);
      var head := if p(s[0]) then "" else [s[0]];
      RemoveWhereAppend(head, RemoveWhere(s[1..], p), q);
    }
  }

  /** Removing characters that do not occur changes nothing. */
  lemma {:induction false} RemoveWhereNone(s: string, drop: char -> bool)
    requires forall i :: 0 <= i < |s| ==> !drop(s[i])
    ensures RemoveWhere(s, drop) == s
  {
    if |s| > 0 {
      RemoveWhereNone(s[1..], drop);
      assert s == [s[0]] + s[1..];
    }
  }

  /**
   * Python's `str.isspace()` for one character, which is also what `\s`
   * matches in a `str` regular expression.
   */
  predicate IsSpace(c: char) {
    || c == ' ' || ('\t' <= c <= '\r') || ('\U{1C}' <= c <= '\U{1F}')
    || c == '\U{85}' || c == '\U{A0}' || c == '\U{1680}' || ('\U{2000}' <= c <= '\U{200A}')
    || c == '\U{2028}' || c == '\U{2029}' || c == '\U{202F}' || c == '\U{205F}' || c == '\U{3000}'
  }

  /** `re.sub(r'\s+', '', s)`: every whitespace character removed. */
  function StripSpaces(s: string): (r: string)
    ensures forall i :: 0 <= i < |r| ==> !IsSpace(r[i])
  {
    RemoveWhere(s, IsSpace)
  }

  predicate IsDigit(c: char) {
    '0' <= c <= '9'
  }

  /** ASCII-only lower-casing of one character. */
  function LowerChar(c: char): (r: char)
    ensures !('A' <= r <= 'Z')
    ensures c == r || ('A' <= c <= 'Z' && r as int == c as int + 32)
  {
    if 'A' <= c <= 'Z' then (c as int + 32) as char else c
  }

  /** `s.lower()` restricted to ASCII letters. */
  function Lower(s: string): (r: string)
    ensures |r| == |s|
    ensures forall i :: 0 <= i < |s| ==> r[i] == LowerChar(s[i])
  {
    if |s| == 0 then "" else [LowerChar(s[0])] + Lower(s[1..])
  }

  function DigitChar(d: nat): (c: char)
    requires d < 10
    ensures IsDigit(c)
  {
    ('0' as int + d) as char
  }

  /** `str(n)` for a non-negative integer: decimal digits, no leading zeros. */
  function NatToString(n: nat): (r: string)
    ensures |r| > 0
    ensures forall i :: 0 <= i < |r| ==> IsDigit(r[i])
    decreases n
  {
    if n < 10 then [DigitChar(n)] else NatToString(n / 10) + [DigitChar(n % 10)]
  }

  /** `str(n)` for any integer: a minus sign before the digits of a negative number. */
  function IntToString(n: int): (r: string)
    ensures |r| > 0
  {
    if n < 0 then "-" + NatToString(-n) else NatToString(n)
  }

  /** The value of a string of decimal digits. */
  function DigitsValue(s: string): (v: nat)
    requires forall i :: 0 <= i < |s| ==> IsDigit(s[i])
  {
    if |s| == 0 then 0
    else
      assert IsDigit(s[|s| - 1]);
      DigitsValue(s[..|s| - 1]) * 10 + (s[|s| - 1] as int - '0' as int)
  }

  function Pow10(w: nat): (p: nat)
    ensures p > 0
  {
    if w == 0 then 1 else 10 * Pow10(w - 1)
  }

  /** Reading the decimal digits back gives the number. */
  lemma {:induction false} NatToStringValue(n: nat)
    ensures DigitsValue(NatToString(n)) == n
    decreases n
  {
    if n >= 10 {
      NatToStringValue(n / 10);
      var s := NatToString(n / 10) + [DigitChar(n % 10)];
      assert s[..|s| - 1] == NatToString(n / 10);
    }
  }

  /** The inverse of `IntToString`. */
  function ParseInt(s: string): (n: int)
    requires |s| > 0
    requires s[0] == '-' ==> forall i :: 1 <= i < |s| ==> IsDigit(s[i])
    requires s[0] != '-' ==> forall i :: 0 <= i < |s| ==> IsDigit(s[i])
  {
    if s[0] == '-' then -(DigitsValue(s[1..]) as int) else DigitsValue(s)
  }

  /** `str` on integers round-trips, so distinct integers print differently. */
  lemma IntToStringRoundTrip(n: int)
    ensures ParseInt(IntToString(n)) == n
  {
    if n < 0 {
      NatToStringValue(-n);
      assert IntToString(n)[1..] == NatToString(-n);
    } else {
      NatToStringValue(n);
    }
  }

  lemma IntToStringInjective(a: int, b: int)
    requires IntToString(a) == IntToString(b)
    ensures a == b
  {
    IntToStringRoundTrip(a);
    IntToStringRoundTrip(b);
  }

  /** `sep.join(parts)`. */
  function Join(parts: seq<string>, sep: string): string {
    if |parts| == 0 then "" else if |parts| == 1 then parts[0] else parts[0] + sep + Join(parts[1..], sep)
  }

  /** How many times `c` occurs in `s`. */
  function CountChar(s: string, c: char): nat {
    if |s| == 0 then 0 else (if s[0] == c then 1 else 0) + CountChar(s[1..], c)
  }

  lemma {:induction false} CountCharAppend(a: string, b: string, c: char)
    ensures CountChar(a + b, c) == CountChar(a, c) + CountChar(b, c)
  {
    if |a| > 0 {
      CountCharAppend(a[1..], b, c);
      assert (a + b)[1..] == a[1..] + b;
    } else {
      assert a + b == b;
    }
  }

  lemma {:induction false} CountCharAbsent(s: string, c: char)
    requires c !in s
    ensures CountChar(s, c) == 0
  {
    if |s| > 0 {
      CountCharAbsent(s[1..], c);
    }
  }

  /** Joining lines without line feeds by a line feed gives one line feed fewer than lines. */
  lemma {:induction false} JoinLineCount(lines: seq<string>)
    requires |lines| > 0
    requires forall i :: 0 <= i < |lines| ==> '\n' !in lines[i]
    ensures CountChar(Join(lines, "\n"), '\n') == |lines| - 1
  {
    CountCharAbsent(lines[0], '\n');
    if |lines| > 1 {
      JoinLineCount(lines[1..]);
      CountCharAppend(lines[0] + "\n", Join(lines[1..], "\n"), '\n');
      CountCharAppend(lines[0], "\n", '\n');
    }
  }
}
