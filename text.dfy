/**
 * The string operations the JavaScript core relies on: `split`/`join` on a
 * one-character separator, `replace` with a string pattern (first
 * occurrence only), the anchored one-slash regexes, ASCII upper-casing and
 * the decimal rendering of integers.
 */
module Text {
  import opened Wrappers

  /** `s.split(c)`: always at least one piece, and no piece contains `c`. */
  function Split(s: string, c: char): (r: seq<string>)
    ensures |r| >= 1
    ensures forall k :: 0 <= k < |r| ==> c !in r[k]
    ensures |r[0]| <= |s| && s[..|r[0]|] == r[0] && (|r[0]| == |s| || s[|r[0]|] == c)
    decreases |s|
  {
    if |s| == 0 then [""]
    else
      var rest := Split(s[1..], c);
      if s[0] == c then [""] + rest else [[s[0]] + rest[0]] + rest[1..]
  }

  /** `parts.join(sep)`. */
  function Join(parts: seq<string>, sep: string): string
    decreases |parts|
  {
    if |parts| == 0 then ""
    else if |parts| == 1 then parts[0]
    else parts[0] + sep + Join(parts[1..], sep)
  }

  lemma {:induction false} JoinPrefixHead(x: string, parts: seq<string>, sep: string)
    requires |parts| >= 1
    ensures Join([x + parts[0]] + parts[1..], sep) == x + Join(parts, sep)
  {
    var lhs := [x + parts[0]] + parts[1..];
    if |parts| > 1 {
      assert lhs[1..] == parts[1..];
    }
  }

  /** Splitting and joining back on the same separator gives the string back. */
  lemma {:induction false} JoinSplit(s: string, c: char)
    ensures Join(Split(s, c), [c]) == s
    decreases |s|
  {
    if |s| > 0 {
      JoinSplit(s[1..], c);
      var rest := Split(s[1..], c);
      if s[0] == c {
        assert ([""] + rest)[1..] == rest;
        assert s == [c] + s[1..];
      } else {
        JoinPrefixHead([s[0]], rest, [c]);
        assert s == [s[0]] + s[1..];
      }
    }
  }

  lemma {:induction false} SplitAfterPlain(x: string, y: string, c: char)
    requires c !in x
    ensures Split(x + y, c) == [x + Split(y, c)[0]] + Split(y, c)[1..]
    decreases |x|
  {
    if |x| > 0 {
      var sy := Split(y, c);
      assert (x + y)[1..] == x[1..] + y;
      SplitAfterPlain(x[1..], y, c);
      var rest := Split(x[1..] + y, c);
      assert rest == [x[1..] + sy[0]] + sy[1..];
      assert (x + y)[0] == x[0] && x[0] != c;
      assert Split(x + y, c) == [[x[0]] + rest[0]] + rest[1..];
      assert rest[1..] == sy[1..];
      assert [x[0]] + (x[1..] + sy[0]) == x + sy[0];
    } else {
      assert x + y == y;
      assert x + Split(y, c)[0] == Split(y, c)[0];
      assert Split(y, c) == [Split(y, c)[0]] + Split(y, c)[1..];
    }
  }

  /** A line free of the separator, then the separator: splitting yields the line first. */
  lemma SplitLine(x: string, rest: string, c: char)
    requires c !in x
    ensures Split(x + [c] + rest, c) == [x] + Split(rest, c)
  {
    assert x + [c] + rest == x + ([c] + rest);
    SplitAfterPlain(x, [c] + rest, c);
    assert ([c] + rest)[1..] == rest;
    assert Split([c] + rest, c) == [""] + Split(rest, c);
    assert x + "" == x;
  }

  /** Two separator-free lines ahead of the rest split off as the first two pieces. */
  lemma SplitTwoLines(x: string, y: string, rest: string, c: char)
    requires c !in x && c !in y
    ensures Split(x + [c] + y + [c] + rest, c) == [x, y] + Split(rest, c)
  {
    var tail := y + [c] + rest;
    assert x + [c] + y + [c] + rest == x + [c] + tail;
    SplitLine(y, rest, c);
    SplitLine(x, tail, c);
  }

  /** A character in neither the pieces nor the separator is not in their join. */
  lemma {:induction false} JoinAvoids(parts: seq<string>, sep: string, c: char)
    requires c !in sep
    requires forall k :: 0 <= k < |parts| ==> c !in parts[k]
    ensures c !in Join(parts, sep)
    decreases |parts|
  {
    if |parts| > 1 {
      JoinAvoids(parts[1..], sep, c);
    }
  }

  /** Joining pieces free of the separator and splitting again gives the pieces back. */
  lemma {:induction false} SplitJoin(parts: seq<string>, c: char)
    requires |parts| >= 1
    requires forall k :: 0 <= k < |parts| ==> c !in parts[k]
    ensures Split(Join(parts, [c]), c) == parts
    decreases |parts|
  {
    if |parts| == 1 {
      SplitAfterPlain(parts[0], "", c);
      assert parts[0] + "" == parts[0];
    } else {
      var tail := Join(parts[1..], [c]);
      SplitJoin(parts[1..], c);
      assert Split([c] + tail, c) == [""] + Split(tail, c) by {
        assert ([c] + tail)[1..] == tail;
      }
      assert Join(parts, [c]) == parts[0] + ([c] + tail);
      SplitAfterPlain(parts[0], [c] + tail, c);
      assert parts[0] + "" == parts[0];
      assert parts == [parts[0]] + parts[1..];
    }
  }

  /** The regex `/^\//`: drop one leading slash. */
  function DropLeadingSlash(s: string): (r: string)
    ensures if |s| > 0 && s[0] == '/' then r == s[1..] else r == s
  {
    if |s| > 0 && s[0] == '/' then s[1..] else s
  }

  /** The regex `/\/$/`: drop one trailing slash. */
  function DropTrailingSlash(s: string): (r: string)
    ensures if |s| > 0 && s[|s| - 1] == '/' then r == s[..|s| - 1] else r == s
  {
    if |s| > 0 && s[|s| - 1] == '/' then s[..|s| - 1] else s
  }

  ghost predicate OccursAt(s: string, p: string, i: nat) {
    i + |p| <= |s| && s[i..i + |p|] == p
  }

  /** The first position at or after `k` where `p` occurs in `s`. */
  function IndexFrom(s: string, p: string, k: nat): (r: Option<nat>)
    ensures r.None? ==> forall j: nat :: k <= j ==> !OccursAt(s, p, j)
    ensures r.Some? ==> k <= r.value && OccursAt(s, p, r.value)
                        && forall j: nat :: k <= j < r.value ==> !OccursAt(s, p, j)
    decreases |s| - k
  {
    if k + |p| > |s| then None
    else if s[k..k + |p|] == p then Some(k)
    else IndexFrom(s, p, k + 1)
  }

  /**
   * `s.replace(p, '')` with a string pattern: only the first occurrence is
   * removed; a string without one comes back unchanged.
   */
  function RemoveFirst(s: string, p: string): (r: string)
    ensures (forall i: nat :: !OccursAt(s, p, i)) ==> r == s
    ensures forall i: nat :: OccursAt(s, p, i) && (forall j: nat :: j < i ==> !OccursAt(s, p, j)) ==>
              r == s[..i] + s[i + |p|..]
  {
    match IndexFrom(s, p, 0)
    case None => s
    case Some(i) => s[..i] + s[i + |p|..]
  }

  /** Removing a pattern that the string starts with drops exactly that prefix. */
  lemma RemoveFirstPrefix(s: string, p: string)
    requires |p| <= |s| && s[..|p|] == p
    ensures RemoveFirst(s, p) == s[|p|..]
  {
    assert OccursAt(s, p, 0);
  }

  /** Removing a character drops its first occurrence, the one right after the text free of it. */
  lemma RemoveFirstChar(x: string, c: char, y: string)
    requires c !in x
    ensures RemoveFirst(x + [c] + y, [c]) == x + y
  {
    var s := x + [c] + y;
    assert OccursAt(s, [c], |x|) by { assert s[|x|..|x| + 1] == [c]; }
    forall j: nat | j < |x| ensures !OccursAt(s, [c], j) {
      assert s[j..j + 1][0] == x[j];
    }
    assert s[..|x|] == x && s[|x| + 1..] == y;
  }

  /** Removing a character the string does not contain changes nothing. */
  lemma RemoveFirstAbsent(s: string, c: char)
    requires c !in s
    ensures RemoveFirst(s, [c]) == s
  {
    forall j: nat ensures !OccursAt(s, [c], j) {
      if j + 1 <= |s| {
        assert s[j..j + 1][0] == s[j];
      }
    }
  }

  /** ASCII `toUpperCase` of one character. */
  function Upper(ch: char): char {
    if 'a' <= ch <= 'z' then (ch as int - 32) as char else ch
  }

  predicate IsDigit(ch: char) {
    '0' <= ch <= '9'
  }

  predicate AllDigits(s: string) {
    forall k :: 0 <= k < |s| ==> IsDigit(s[k])
  }

  function DigitChar(d: nat): (ch: char)
    requires d < 10
    ensures IsDigit(ch)
  {
    (48 + d) as char
  }

  /** Decimal rendering of a natural number, most significant digit first. */
  function NatToString(n: nat): (r: string)
    ensures |r| >= 1 && AllDigits(r)
    decreases n
  {
    if n < 10 then [DigitChar(n)] else NatToString(n / 10) + [DigitChar(n % 10)]
  }

  /** JavaScript's `'' + n` for an integer-valued number. */
  function IntToString(n: int): string {
    if n < 0 then "-" + NatToString(-n) else NatToString(n)
  }

  /** The value of a string of decimal digits. */
  function DigitsValue(s: string): nat
    requires AllDigits(s)
    decreases |s|
  {
    if |s| == 0 then 0 else DigitsValue(s[..|s| - 1]) * 10 + (s[|s| - 1] as int - 48)
  }

  /** Reads back an optionally negative decimal integer. */
  function ParseInt(s: string): Option<int> {
    if |s| > 1 && s[0] == '-' && AllDigits(s[1..]) then Some(0 - (DigitsValue(s[1..]) as int))
    else if |s| > 0 && AllDigits(s) then Some(DigitsValue(s))
    else None
  }

  lemma {:induction false} NatToStringRoundTrip(n: nat)
    ensures DigitsValue(NatToString(n)) == n
    decreases n
  {
    if n >= 10 {
      NatToStringRoundTrip(n / 10);
      var s := NatToString(n / 10) + [DigitChar(n % 10)];
      assert s[..|s| - 1] == NatToString(n / 10);
    }
  }

  /** Rendering an integer and reading it back is the identity. */
  lemma IntToStringRoundTrip(n: int)
    ensures ParseInt(IntToString(n)) == Some(n)
  {
    if n < 0 {
      NatToStringRoundTrip(-n);
      assert IntToString(n)[1..] == NatToString(-n);
    } else {
      NatToStringRoundTrip(n);
    }
  }

  /** A rendered integer holds only digits and possibly a leading minus sign. */
  lemma IntToStringChars(n: int)
    ensures forall k :: 0 <= k < |IntToString(n)| ==> IsDigit(IntToString(n)[k]) || IntToString(n)[k] == '-'
  {
  }
}
