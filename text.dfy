/** The few Python `str` operations the pipeline applies to engine reports, names and
    option strings: `strip`, `in`, `split` and `join`. */
module Text {
  import opened Wrappers

  /** Python's `str.isspace()` for a single character (the characters `str.strip()`
      removes when it is given no argument). */
  predicate IsSpace(c: char) {
    c == ' ' || ('\t' <= c <= '\r') || ('\U{1C}' <= c <= '\U{1F}')
    || c == '\U{85}' || c == '\U{A0}' || c == '\U{1680}'
    || ('\U{2000}' <= c <= '\U{200A}')
    || c == '\U{2028}' || c == '\U{2029}' || c == '\U{202F}' || c == '\U{205F}' || c == '\U{3000}'
  }

  /** Drops the characters satisfying `drop` from the front. */
  function TrimLeft(s: string, drop: char -> bool): (r: string)
    ensures |r| <= |s|
  {
    if s != [] && drop(s[0]) then TrimLeft(s[1..], drop) else s
  }

  /** Drops the characters satisfying `drop` from the back. */
  function TrimRight(s: string, drop: char -> bool): (r: string)
    ensures |r| <= |s|
  {
    if s != [] && drop(s[|s| - 1]) then TrimRight(s[..|s| - 1], drop) else s
  }

  /** Python's `s.strip(chars)`: characters satisfying `drop` are removed from both ends. */
  function Trim(s: string, drop: char -> bool): string {
    TrimRight(TrimLeft(s, drop), drop)
  }

  /** TrimLeft removes a prefix of dropped characters and stops at a kept one. */
  lemma {:induction false} TrimLeftMeaning(s: string, drop: char -> bool)
    ensures var r := TrimLeft(s, drop);
      && r == s[|s| - |r|..]
      && (r == [] || !drop(r[0]))
      && forall i :: 0 <= i < |s| - |r| ==> drop(s[i])
  {
    if s != [] && drop(s[0]) {
      TrimLeftMeaning(s[1..], drop);
    }
  }

  /** TrimRight removes a suffix of dropped characters and stops at a kept one. */
  lemma {:induction false} TrimRightMeaning(s: string, drop: char -> bool)
    ensures var r := TrimRight(s, drop);
      && r == s[..|r|]
      && (r == [] || !drop(r[|r| - 1]))
      && forall i :: |r| <= i < |s| ==> drop(s[i])
  {
    if s != [] && drop(s[|s| - 1]) {
      TrimRightMeaning(s[..|s| - 1], drop);
    }
  }

  /** What `strip` leaves neither starts nor ends with a dropped character, and is a
      piece of the string with only dropped characters removed around it. */
  lemma TrimMeaning(s: string, drop: char -> bool)
    ensures var r := Trim(s, drop);
      && (r == [] || (!drop(r[0]) && !drop(r[|r| - 1])))
      && var k := |s| - |TrimLeft(s, drop)|;
         && k + |r| <= |s| && r == s[k..k + |r|]
         && (forall i :: 0 <= i < k ==> drop(s[i]))
         && (forall i :: k + |r| <= i < |s| ==> drop(s[i]))
  {
    var l := TrimLeft(s, drop);
    var r := TrimRight(l, drop);
    TrimLeftMeaning(s, drop);
    TrimRightMeaning(l, drop);
    var k := |s| - |l|;
    assert r == s[k..k + |r|];
    if r != [] {
      assert r[0] == l[0];
    }
    forall i | k + |r| <= i < |s| ensures drop(s[i]) {
      assert s[i] == l[i - k];
    }
  }

  /** Python's `s.strip()`. */
  function Strip(s: string): string {
    Trim(s, IsSpace)
  }

  /** A string none of whose characters is dropped is its own trim. */
  lemma {:induction false} TrimNothing(s: string, drop: char -> bool)
    requires forall i :: 0 <= i < |s| ==> !drop(s[i])
    ensures Trim(s, drop) == s
  {
    if s != [] {
      assert !drop(s[0]);
      assert !drop(s[|s| - 1]);
    }
  }

  /** A string whose end characters are kept is its own trim. */
  lemma TrimKeepsEdges(s: string, drop: char -> bool)
    requires s == [] || (!drop(s[0]) && !drop(s[|s| - 1]))
    ensures Trim(s, drop) == s
  {
  }

  lemma StripIdempotent(s: string)
    ensures Strip(Strip(s)) == Strip(s)
  {
    TrimMeaning(s, IsSpace);
    TrimKeepsEdges(Strip(s), IsSpace);
  }

  predicate MatchAt(s: string, p: string, i: nat) {
    i + |p| <= |s| && s[i..i + |p|] == p
  }

  /** Python's `p in s`. */
  predicate Contains(s: string, p: string)
    decreases |s|
  {
    |p| <= |s| && (s[..|p|] == p || Contains(s[1..], p))
  }

  /** The first position at which `p` occurs in `s` (Python's `s.find(p)`). */
  function IndexOf(s: string, p: string): (r: Option<nat>)
    ensures r.Some? <==> Contains(s, p)
    ensures r.Some? ==> r.value + |p| <= |s|
    decreases |s|
  {
    if |s| < |p| then None
    else if s[..|p|] == p then Some(0)
    else
      match IndexOf(s[1..], p)
      case None => None
      case Some(k) => Some(k + 1)
  }

  lemma MatchAtShift(s: string, p: string, j: nat)
    requires s != []
    ensures MatchAt(s, p, j + 1) <==> MatchAt(s[1..], p, j)
  {
    if j + 1 + |p| <= |s| {
      assert s[j + 1..j + 1 + |p|] == s[1..][j..j + |p|];
    }
  }

  /** `IndexOf` finds the first occurrence, and finds none exactly when there is none. */
  lemma {:induction false} IndexOfIsFirstMatch(s: string, p: string)
    ensures IndexOf(s, p).Some? ==> MatchAt(s, p, IndexOf(s, p).value)
    ensures IndexOf(s, p).Some? ==> forall j: nat :: j < IndexOf(s, p).value ==> !MatchAt(s, p, j)
    ensures IndexOf(s, p).None? ==> forall j: nat :: j <= |s| ==> !MatchAt(s, p, j)
    decreases |s|
  {
    if |s| >= |p| && s[..|p|] != p {
      IndexOfIsFirstMatch(s[1..], p);
      assert !MatchAt(s, p, 0);
      forall j: nat ensures MatchAt(s, p, j + 1) <==> MatchAt(s[1..], p, j) {
        MatchAtShift(s, p, j);
      }
      assert forall j: nat :: j > 0 ==> (MatchAt(s, p, j) <==> MatchAt(s[1..], p, j - 1));
    }
  }

  /** Python's `s.split(p)[1]` for a nonempty `p` that occurs in `s`: the text between
      the first occurrence of `p` and the next one (or the end of `s`). */
  function SplitField1(s: string, p: string): string
    requires p != [] && Contains(s, p)
  {
    var rest := s[IndexOf(s, p).value + |p|..];
    match IndexOf(rest, p)
    case None => rest
    case Some(j) => rest[..j]
  }

  /** Python's `s.split(c)` for a one-character separator. */
  function Split(s: string, c: char): (r: seq<string>)
    ensures |r| >= 1
    ensures forall i :: 0 <= i < |r| ==> c !in r[i]
  {
    if s == [] then [[]]
    else if s[0] == c then [[]] + Split(s[1..], c)
    else
      var t := Split(s[1..], c);
      [[s[0]] + t[0]] + t[1..]
  }

  /** Python's `sep.join(parts)`. */
  function Join(parts: seq<string>, sep: string): string {
    if |parts| == 0 then []
    else if |parts| == 1 then parts[0]
    else parts[0] + sep + Join(parts[1..], sep)
  }

  lemma {:induction false} SplitNoSeparator(a: string, c: char)
    requires c !in a
    ensures Split(a, c) == [a]
  {
    if a != [] {
      SplitNoSeparator(a[1..], c);
      assert [a[0]] + a[1..] == a;
    }
  }

  lemma {:induction false} SplitAtSeparator(a: string, rest: string, c: char)
    requires c !in a
    ensures Split(a + [c] + rest, c) == [a] + Split(rest, c)
  {
    if a == [] {
      assert a + [c] + rest == [c] + rest;
      assert ([c] + rest)[1..] == rest;
    } else {
      SplitAtSeparator(a[1..], rest, c);
      assert (a + [c] + rest)[1..] == a[1..] + [c] + rest;
      assert [a[0]] + a[1..] == a;
    }
  }

  /** Splitting a join on a separator that occurs in no part gives the parts back. */
  lemma {:induction false} SplitJoin(parts: seq<string>, c: char)
    requires |parts| >= 1
    requires forall i :: 0 <= i < |parts| ==> c !in parts[i]
    ensures Split(Join(parts, [c]), c) == parts
  {
    if |parts| == 1 {
      SplitNoSeparator(parts[0], c);
    } else {
      SplitJoin(parts[1..], c);
      SplitAtSeparator(parts[0], Join(parts[1..], [c]), c);
      assert [parts[0]] + parts[1..] == parts;
    }
  }

  /** `p` occurs in `a + p + b`. */
  lemma {:induction false} ContainsMiddle(a: string, p: string, b: string)
    ensures Contains(a + p + b, p)
    decreases |a|
  {
    var s := a + p + b;
    if a == [] {
      assert s[..|p|] == p;
    } else {
      ContainsMiddle(a[1..], p, b);
      assert s[1..] == a[1..] + p + b;
    }
  }

  // ---------------------------------------------------------------------------
  // Decimal text of an integer (`str(n)`, `f"{n}"`)

  predicate IsDigit(c: char) { '0' <= c <= '9' }

  function DigitChar(d: nat): (c: char)
    requires d < 10
    ensures IsDigit(c) && c as int - '0' as int == d
  {
    ('0' as int + d) as char
  }

  /** The decimal digits of `n`, without leading zeros. */
  function NatText(n: nat): (r: string)
    ensures r != [] && forall i :: 0 <= i < |r| ==> IsDigit(r[i])
    ensures |r| > 1 ==> r[0] != '0'
  {
    if n < 10 then [DigitChar(n)] else NatText(n / 10) + [DigitChar(n % 10)]
  }

  /** Python's `str` of an integer. */
  function IntText(n: int): string {
    if n < 0 then "-" + NatText(-n) else NatText(n)
  }

  function DigitValue(c: char): nat
    requires IsDigit(c)
  {
    c as int - '0' as int
  }

  /** The value of a string of decimal digits. */
  function DigitsValue(s: string): nat
    requires forall i :: 0 <= i < |s| ==> IsDigit(s[i])
  {
    if s == [] then 0 else 10 * DigitsValue(s[..|s| - 1]) + DigitValue(s[|s| - 1])
  }

  /** Reading the digits back gives the number. */
  lemma {:induction false} NatTextRoundTrip(n: nat)
    ensures DigitsValue(NatText(n)) == n
  {
    if n >= 10 {
      NatTextRoundTrip(n / 10);
      var r := NatText(n);
      assert r[..|r| - 1] == NatText(n / 10);
    }
  }

  /** Two integers have the same text exactly when they are equal. */
  lemma IntTextInjective(a: int, b: int)
    ensures IntText(a) == IntText(b) <==> a == b
  {
    if IntText(a) == IntText(b) {
      if a < 0 && b < 0 {
        assert NatText(-a) == IntText(a)[1..] == NatText(-b);
        NatTextRoundTrip(-a);
        NatTextRoundTrip(-b);
      } else if a >= 0 && b >= 0 {
        NatTextRoundTrip(a);
        NatTextRoundTrip(b);
      }
    }
  }
}
