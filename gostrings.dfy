/**
 * The parts of Go's `strings` and `strconv` packages that the label
 * resolver and the generator rely on: TrimSpace, TrimPrefix, Split,
 * ToLower (ASCII only) and Atoi.
 */
module GoStrings {
  import opened Wrappers

  /** unicode.IsSpace, the test strings.TrimSpace trims by. */
  predicate IsSpace(c: char) {
    var n := c as int;
    (0x09 <= n <= 0x0D) || n == 0x20 || n == 0x85 || n == 0xA0 || n == 0x1680
    || (0x2000 <= n <= 0x200A) || n == 0x2028 || n == 0x2029 || n == 0x202F
    || n == 0x205F || n == 0x3000
  }

  predicate AllSpace(s: string) {
    forall i :: 0 <= i < |s| ==> IsSpace(s[i])
  }

  /** No white space at either end. */
  predicate Trimmed(s: string) {
    s == [] || (!IsSpace(s[0]) && !IsSpace(s[|s| - 1]))
  }

  /** strings.TrimLeftFunc(s, unicode.IsSpace) */
  function TrimLeft(s: string): string {
    if |s| > 0 && IsSpace(s[0]) then TrimLeft(s[1..]) else s
  }

  /** strings.TrimRightFunc(s, unicode.IsSpace) */
  function TrimRight(s: string): string {
    if |s| > 0 && IsSpace(s[|s| - 1]) then TrimRight(s[..|s| - 1]) else s
  }

  /** TrimLeft removes exactly the leading white space. */
  lemma {:induction false} TrimLeftSuffix(s: string)
    ensures |TrimLeft(s)| <= |s| && TrimLeft(s) == s[|s| - |TrimLeft(s)|..]
    ensures AllSpace(s[..|s| - |TrimLeft(s)|])
    ensures TrimLeft(s) != [] ==> !IsSpace(TrimLeft(s)[0])
  {
    if |s| > 0 && IsSpace(s[0]) {
      TrimLeftSuffix(s[1..]);
      var r := TrimLeft(s[1..]);
      assert s[..|s| - |r|] == [s[0]] + s[1..][..|s| - 1 - |r|];
    }
  }

  /** TrimRight removes exactly the trailing white space. */
  lemma {:induction false} TrimRightPrefix(s: string)
    ensures |TrimRight(s)| <= |s| && TrimRight(s) == s[..|TrimRight(s)|]
    ensures AllSpace(s[|TrimRight(s)|..])
    ensures TrimRight(s) != [] ==> !IsSpace(TrimRight(s)[|TrimRight(s)| - 1])
  {
    if |s| > 0 && IsSpace(s[|s| - 1]) {
      TrimRightPrefix(s[..|s| - 1]);
      var r := TrimRight(s[..|s| - 1]);
      assert s[|r|..] == s[..|s| - 1][|r|..] + [s[|s| - 1]];
    }
  }

  /** strings.TrimSpace: a slice of `s` with no white space at either end. */
  function TrimSpace(s: string): string {
    TrimRight(TrimLeft(s))
  }

  /** What TrimSpace keeps: a slice of its input with no white space at either end. */
  lemma TrimSpaceSlice(s: string)
    ensures |TrimSpace(s)| <= |s|
    ensures Trimmed(TrimSpace(s))
  {
    var l := TrimLeft(s);
    TrimLeftSuffix(s);
    TrimRightPrefix(l);
    var r := TrimRight(l);
    if r != [] {
      assert r[0] == l[0];
    }
  }

  lemma {:induction false} TrimLeftOfSpaces(w: string, t: string)
    requires AllSpace(w)
    requires t == [] || !IsSpace(t[0])
    ensures TrimLeft(w + t) == t
  {
    if w != [] {
      assert (w + t)[1..] == w[1..] + t;
      TrimLeftOfSpaces(w[1..], t);
    } else {
      assert w + t == t;
    }
  }

  lemma {:induction false} TrimRightOfSpaces(t: string, w: string)
    requires AllSpace(w)
    requires t == [] || !IsSpace(t[|t| - 1])
    ensures TrimRight(t + w) == t
  {
    if w != [] {
      assert (t + w)[..|t + w| - 1] == t + w[..|w| - 1];
      TrimRightOfSpaces(t, w[..|w| - 1]);
    } else {
      assert t + w == t;
    }
  }

  /** White space around a trimmed core is exactly what TrimSpace removes. */
  lemma TrimSpacePadded(w1: string, core: string, w2: string)
    requires AllSpace(w1) && AllSpace(w2) && Trimmed(core)
    ensures TrimSpace(w1 + core + w2) == core
  {
    if core == [] {
      assert w1 + core + w2 == (w1 + w2) + [];
      TrimLeftOfSpaces(w1 + w2, []);
    } else {
      assert w1 + core + w2 == w1 + (core + w2);
      TrimLeftOfSpaces(w1, core + w2);
      TrimRightOfSpaces(core, w2);
    }
  }

  /** TrimSpace yields "" exactly for all-space input. */
  lemma TrimSpaceEmptyIff(s: string)
    ensures TrimSpace(s) == [] <==> AllSpace(s)
  {
    if AllSpace(s) {
      assert s == s + [];
      TrimLeftOfSpaces(s, []);
    } else {
      var l := TrimLeft(s);
      TrimLeftSuffix(s);
      TrimRightPrefix(l);
      if TrimRight(l) == [] {
        assert s == s[..|s| - |l|] + l;
        assert l == l[0..];
        assert AllSpace(s);
      }
    }
  }

  /** strings.TrimPrefix */
  function TrimPrefix(s: string, prefix: string): (r: string)
    ensures if prefix <= s then s == prefix + r else r == s
  {
    if prefix <= s then s[|prefix|..] else s
  }

  /** Number of occurrences of `c` in `s`. */
  function Count(s: string, c: char): nat {
    if s == [] then 0 else (if s[0] == c then 1 else 0) + Count(s[1..], c)
  }

  /**
   * strings.Split(s, string(sep)): the pieces between separators. There is
   * always at least one piece (Split("", ",") is [""]) and no piece contains
   * the separator.
   */
  function Split(s: string, sep: char): (parts: seq<string>)
    ensures |parts| >= 1
  {
    if |s| == 0 then [""]
    else
      var rest := Split(s[1..], sep);
      if s[0] == sep then [""] + rest
      else [[s[0]] + rest[0]] + rest[1..]
  }

  /** No part of a split contains the separator. */
  lemma {:induction false} SplitParts(s: string, sep: char)
    ensures forall k :: 0 <= k < |Split(s, sep)| ==> sep !in Split(s, sep)[k]
  {
    if |s| > 0 {
      SplitParts(s[1..], sep);
      var rest := Split(s[1..], sep);
      if s[0] != sep {
        var parts := Split(s, sep);
        assert parts[0] == [s[0]] + rest[0];
        assert forall k :: 1 <= k < |parts| ==> parts[k] == rest[k];
      }
    }
  }

  /** strings.Join(parts, string(sep)) */
  function Join(parts: seq<string>, sep: char): string {
    if |parts| == 0 then ""
    else if |parts| == 1 then parts[0]
    else parts[0] + [sep] + Join(parts[1..], sep)
  }

  /** Split loses nothing: joining the pieces gives back the input. */
  lemma {:induction false} JoinSplit(s: string, sep: char)
    ensures Join(Split(s, sep), sep) == s
  {
    if |s| > 0 {
      var rest := Split(s[1..], sep);
      JoinSplit(s[1..], sep);
      if s[0] == sep {
        assert ([""] + rest)[1..] == rest;
      } else {
        var parts := [[s[0]] + rest[0]] + rest[1..];
        if |rest| == 1 {
          assert parts == [[s[0]] + rest[0]];
        } else {
          assert parts[1..] == rest[1..];
          assert Join(rest, sep) == rest[0] + [sep] + Join(rest[1..], sep);
        }
      }
    }
  }

  /** One more piece than there are separators. */
  lemma {:induction false} SplitCount(s: string, sep: char)
    ensures |Split(s, sep)| == Count(s, sep) + 1
  {
    if |s| > 0 {
      SplitCount(s[1..], sep);
    }
  }

  lemma SplitNoSeparator(s: string, sep: char)
    requires sep !in s
    ensures Split(s, sep) == [s]
  {
    SplitCount(s, sep);
    var parts := Split(s, sep);
    assert Count(s, sep) == 0 by { CountAbsent(s, sep); }
    JoinSplit(s, sep);
  }

  lemma {:induction false} CountAbsent(s: string, c: char)
    requires c !in s
    ensures Count(s, c) == 0
  {
    if s != [] {
      assert c !in s[1..];
      CountAbsent(s[1..], c);
    }
  }

  /** Splitting around one separator splits each side independently. */
  lemma {:induction false} SplitAround(a: string, sep: char, b: string)
    ensures Split(a + [sep] + b, sep) == Split(a, sep) + Split(b, sep)
  {
    var sb := Split(b, sep);
    if a == [] {
      SplitCons(sep, b, sep);
      assert a + [sep] + b == [sep] + b;
    } else {
      var t := a[1..] + [sep] + b;
      assert a + [sep] + b == [a[0]] + t;
      assert a == [a[0]] + a[1..];
      SplitCons(a[0], t, sep);
      SplitCons(a[0], a[1..], sep);
      SplitAround(a[1..], sep, b);
      ConsFirst(a[0] == sep, a[0], Split(a[1..], sep), sb);
    }
  }

  /** Split on a string with a known first character. */
  lemma SplitCons(c: char, t: string, sep: char)
    ensures Split([c] + t, sep) ==
      if c == sep then [""] + Split(t, sep) else [[c] + Split(t, sep)[0]] + Split(t, sep)[1..]
  {
    assert ([c] + t)[1..] == t;
  }

  /** The sequence algebra of SplitAround's step, over abstract parts. */
  lemma ConsFirst(isSep: bool, c: char, restA: seq<string>, sb: seq<string>)
    requires |restA| >= 1
    ensures (if isSep then [""] + (restA + sb) else [[c] + (restA + sb)[0]] + (restA + sb)[1..])
      == (if isSep then [""] + restA else [[c] + restA[0]] + restA[1..]) + sb
  {
    if !isSep {
      assert (restA + sb)[0] == restA[0];
      assert (restA + sb)[1..] == restA[1..] + sb;
    }
  }

  /** ASCII-only model of unicode.ToLower. */
  function LowerChar(c: char): char {
    if 'A' <= c <= 'Z' then (c as int + 32) as char else c
  }

  /** strings.ToLower, per character and ASCII only. */
  function ToLower(s: string): (r: string)
    ensures |r| == |s|
    ensures forall i :: 0 <= i < |s| ==> r[i] == LowerChar(s[i])
  {
    seq(|s|, i requires 0 <= i < |s| => LowerChar(s[i]))
  }

  /**
   * What lower-casing means: no upper-case letter survives, every other
   * character is kept, and lower-casing twice is lower-casing once.
   */
  lemma ToLowerFolds(s: string)
    ensures forall i :: 0 <= i < |s| ==> !('A' <= ToLower(s)[i] <= 'Z')
    ensures forall i :: 0 <= i < |s| && !('A' <= s[i] <= 'Z') ==> ToLower(s)[i] == s[i]
    ensures forall i :: 0 <= i < |s| && 'A' <= s[i] <= 'Z' ==> ToLower(s)[i] as int == s[i] as int + 32
    ensures ToLower(ToLower(s)) == ToLower(s)
  {
  }

  predicate IsDigit(c: char) {
    '0' <= c <= '9'
  }

  predicate AllDigits(s: string) {
    forall i :: 0 <= i < |s| ==> IsDigit(s[i])
  }

  /** The value of a string of decimal digits, most significant first. */
  function DigitsValue(s: string): nat
    requires AllDigits(s)
  {
    if |s| == 0 then 0
    else DigitsValue(s[..|s| - 1]) * 10 + ((s[|s| - 1] as int) - ('0' as int))
  }

  /** The range of Go's 64-bit int, which strconv.Atoi reports errors outside of. */
  const MIN_INT64: int := -0x8000_0000_0000_0000
  const MAX_INT64: int := 0x7FFF_FFFF_FFFF_FFFF

  predicate InInt64(v: int) {
    MIN_INT64 <= v <= MAX_INT64
  }

  /** The value of an optional sign followed by digits, before the range check. */
  function SignedValue(s: string): Option<int> {
    if |s| > 0 && (s[0] == '+' || s[0] == '-') then
      var digits := s[1..];
      if digits != [] && AllDigits(digits) then
        var v: int := DigitsValue(digits);
        Some(if s[0] == '-' then -v else v)
      else None
    else if s != [] && AllDigits(s) then Some(DigitsValue(s))
    else None
  }

  /**
   * strconv.Atoi on a 64-bit platform: an optional sign followed by one or
   * more decimal digits whose value fits an int64; a syntax error or a
   * range error is None.
   */
  function Atoi(s: string): (r: Option<int>)
    ensures r.Some? ==> InInt64(r.value)
    ensures r.Some? <==> SignedValue(s).Some? && InInt64(SignedValue(s).value)
  {
    match SignedValue(s)
    case Some(v) => if InInt64(v) then Some(v) else None
    case None => None
  }

  /** strconv.Itoa for naturals: the shortest decimal spelling. */
  function Decimal(n: nat): (r: string)
    ensures |r| > 0 && AllDigits(r)
  {
    if n < 10 then [(48 + n) as char]
    else Decimal(n / 10) + [(48 + n % 10) as char]
  }

  lemma {:induction false} DecimalValue(n: nat)
    ensures DigitsValue(Decimal(n)) == n
  {
    if n >= 10 {
      var r := Decimal(n);
      assert r[..|r| - 1] == Decimal(n / 10);
      DecimalValue(n / 10);
    }
  }

  /** Atoi reads back the decimal spelling of every natural. */
  lemma AtoiDecimal(n: nat)
    ensures Atoi(Decimal(n)) == (if n <= MAX_INT64 then Some(n) else None)
  {
    DecimalValue(n);
  }

  /** A decimal spelling contains no white space, comma or colon. */
  lemma DecimalPlain(n: nat)
    ensures Trimmed(Decimal(n)) && AllDigits(Decimal(n))
    ensures ',' !in Decimal(n) && ':' !in Decimal(n)
  {
    var r := Decimal(n);
    assert IsDigit(r[0]) && IsDigit(r[|r| - 1]);
  }
}
