/** The Kotlin and Java string operations the core relies on: `split`, `replace`,
    `toInt`, `toBoolean`, `toLowerCase` and `removeSuffix`. Characters are compared as
    they are; case conversion is ASCII only. */
module KotlinText {
  import opened Wrappers

  // ---------------------------------------------------------------------------
  // split(char) and its inverse

  function IndexOfChar(s: string, c: char): (i: nat)
    requires c in s
    ensures i < |s| && s[i] == c && c !in s[..i]
  {
    if s[0] == c then 0 else 1 + IndexOfChar(s[1..], c)
  }

  /** `s.split(d)`: every part between delimiters, empty parts included; never empty. */
  function Split(s: string, d: char): (parts: seq<string>)
    ensures |parts| >= 1
    ensures forall i :: 0 <= i < |parts| ==> d !in parts[i]
    decreases |s|
  {
    if d !in s then [s]
    else
      var i := IndexOfChar(s, d);
      [s[..i]] + Split(s[i + 1..], d)
  }

  /** `parts.joinToString(d)`. */
  function Join(parts: seq<string>, d: char): string
    requires |parts| >= 1
  {
    if |parts| == 1 then parts[0] else parts[0] + [d] + Join(parts[1..], d)
  }

  /** Splitting and joining again gives back the original string. */
  lemma {:induction false} JoinSplit(s: string, d: char)
    ensures Join(Split(s, d), d) == s
    decreases |s|
  {
    if d in s {
      var i := IndexOfChar(s, d);
      JoinSplit(s[i + 1..], d);
      assert Split(s, d)[1..] == Split(s[i + 1..], d);
      assert s == s[..i] + [d] + s[i + 1..];
    }
  }

  /** Joining delimiter-free parts and splitting again gives back the parts. */
  lemma {:induction false} SplitJoin(parts: seq<string>, d: char)
    requires |parts| >= 1
    requires forall i :: 0 <= i < |parts| ==> d !in parts[i]
    ensures Split(Join(parts, d), d) == parts
    decreases |parts|
  {
    if |parts| > 1 {
      var t := [d] + Join(parts[1..], d);
      SplitJoin(parts[1..], d);
      assert Join(parts, d) == parts[0] + t;
      SplitFirstPart(parts[0], t, d);
      assert t[1..] == Join(parts[1..], d);
      assert parts == [parts[0]] + parts[1..];
    }
  }

  /** A part free of the delimiter, followed by nothing or by the delimiter, is the
      first part; the parts after it are those of what follows the delimiter. */
  lemma SplitFirstPart(a: string, t: string, d: char)
    requires d !in a
    requires t == [] || t[0] == d
    ensures Split(a + t, d)[0] == a
    ensures t != [] ==> Split(a + t, d) == [a] + Split(t[1..], d)
  {
    var s := a + t;
    if t == [] {
      assert s == a;
    } else {
      assert s[..|a|] == a;
      assert s[|a|] == d;
      var i := IndexOfChar(s, d);
      assert i >= |a| by {
        assert forall k :: 0 <= k < |a| ==> s[k] == a[k];
      }
      assert s[i + 1..] == t[1..];
    }
  }

  /** The first two parts of `a`, the delimiter, `b` and a tail that is empty or starts
      with the delimiter are `a` and `b`. */
  lemma SplitFirstTwo(a: string, b: string, tail: string, d: char)
    requires d !in a && d !in b
    requires tail == [] || tail[0] == d
    ensures |Split(a + [d] + b + tail, d)| >= 2
    ensures Split(a + [d] + b + tail, d)[0] == a
    ensures Split(a + [d] + b + tail, d)[1] == b
  {
    var t := [d] + b + tail;
    assert a + [d] + b + tail == a + t;
    SplitFirstPart(a, t, d);
    assert t[1..] == b + tail;
    SplitFirstPart(b, tail, d);
  }

  /** There are at least two parts exactly when the delimiter occurs. */
  lemma SplitHasTwoParts(s: string, d: char)
    ensures |Split(s, d)| >= 2 <==> d in s
  {
  }

  // ---------------------------------------------------------------------------
  // replace(char, char) and replace(string, "")

  /** `s.replace(a, b)`: every `a` becomes `b`. */
  function ReplaceChar(s: string, a: char, b: char): (r: string)
    ensures |r| == |s|
    ensures forall i :: 0 <= i < |s| ==> r[i] == if s[i] == a then b else s[i]
  {
    if s == [] then [] else [if s[0] == a then b else s[0]] + ReplaceChar(s[1..], a, b)
  }

  /** `s.replace("c", "")`: every `c` is deleted. */
  function RemoveChar(s: string, c: char): string
  {
    if s == [] then [] else (if s[0] == c then [] else [s[0]]) + RemoveChar(s[1..], c)
  }

  /** Deleting `c` leaves no `c`, keeps every other character as often as it occurs, and
      works piecewise, so the order of what is kept does not change. */
  lemma {:induction false} RemoveCharSpec(s: string, c: char)
    ensures c !in RemoveChar(s, c)
    ensures forall x :: x != c ==> multiset(RemoveChar(s, c))[x] == multiset(s)[x]
    ensures |RemoveChar(s, c)| == |s| - multiset(s)[c]
  {
    if s != [] {
      RemoveCharSpec(s[1..], c);
      assert s == [s[0]] + s[1..];
    }
  }

  lemma {:induction false} RemoveCharAppend(s: string, t: string, c: char)
    ensures RemoveChar(s + t, c) == RemoveChar(s, c) + RemoveChar(t, c)
  {
    if s != [] {
      assert (s + t)[1..] == s[1..] + t;
      RemoveCharAppend(s[1..], t, c);
    } else {
      assert s + t == t;
    }
  }

  lemma {:induction false} RemoveCharAbsent(s: string, c: char)
    requires c !in s
    ensures RemoveChar(s, c) == s
  {
    if s != [] {
      RemoveCharAbsent(s[1..], c);
    }
  }

  // ---------------------------------------------------------------------------
  // toLowerCase and removeSuffix

  function LowerChar(c: char): char
  {
    if 'A' <= c <= 'Z' then (c as int - 'A' as int + 'a' as int) as char else c
  }

  /** `toLowerCase()`, for ASCII letters. */
  function Lower(s: string): (r: string)
    ensures |r| == |s|
    ensures forall i :: 0 <= i < |s| ==> r[i] == LowerChar(s[i])
    ensures forall i :: 0 <= i < |s| ==> !('A' <= r[i] <= 'Z')
  {
    if s == [] then [] else [LowerChar(s[0])] + Lower(s[1..])
  }

  predicate EndsWith(s: string, suffix: string)
  {
    |suffix| <= |s| && s[|s| - |suffix|..] == suffix
  }

  /** `removeSuffix`: drops `suffix` once when `s` ends with it. */
  function RemoveSuffix(s: string, suffix: string): (r: string)
    ensures EndsWith(s, suffix) ==> r + suffix == s
    ensures !EndsWith(s, suffix) ==> r == s
  {
    if EndsWith(s, suffix) then s[..|s| - |suffix|] else s
  }

  // ---------------------------------------------------------------------------
  // toInt and toBoolean

  const MinInt: int := -0x8000_0000
  const MaxInt: int := 0x7fff_ffff

  predicate IsDigit(c: char)
  {
    '0' <= c <= '9'
  }

  predicate AllDigits(s: string)
  {
    forall i :: 0 <= i < |s| ==> IsDigit(s[i])
  }

  function DigitsValue(s: string): (n: nat)
    requires AllDigits(s)
  {
    if s == [] then 0 else DigitsValue(s[..|s| - 1]) * 10 + (s[|s| - 1] as int - '0' as int)
  }

  /** The text after an optional leading sign. */
  function Unsigned(s: string): string
  {
    if s != [] && (s[0] == '-' || s[0] == '+') then s[1..] else s
  }

  /** The shape `Integer.parseInt` reads: an optional sign, then one or more digits. */
  predicate IsIntText(s: string)
  {
    Unsigned(s) != [] && AllDigits(Unsigned(s))
  }

  /** The integer such a text denotes, before any range check. */
  function SignedValue(s: string): int
    requires IsIntText(s)
  {
    var v: int := DigitsValue(Unsigned(s));
    if s[0] == '-' then -v else v
  }

  /** `toInt()` (Integer.parseInt): an optional sign then one or more decimal digits,
      within 32 bits; None where it throws NumberFormatException. */
  function ToInt(s: string): (r: Option<int>)
    ensures r.Some? <==> IsIntText(s) && MinInt <= SignedValue(s) <= MaxInt
    ensures r.Some? ==> r.value == SignedValue(s)
    ensures r.Some? ==> MinInt <= r.value <= MaxInt
    ensures s == [] ==> r.None?
  {
    if s == [] then None
    else if s[0] == '-' || s[0] == '+' then
      var digits := s[1..];
      if digits == [] || !AllDigits(digits) then None
      else
        var v: int := DigitsValue(digits);
        var n := if s[0] == '-' then -v else v;
        if MinInt <= n <= MaxInt then Some(n) else None
    else if !AllDigits(s) then None
    else if DigitsValue(s) <= MaxInt then Some(DigitsValue(s))
    else None
  }

  function DigitChar(d: nat): char
    requires d < 10
  {
    ('0' as int + d) as char
  }

  /** Decimal text of a natural number, without leading zeros. */
  function NatToString(n: nat): (s: string)
    ensures s != [] && AllDigits(s)
  {
    if n < 10 then [DigitChar(n)] else NatToString(n / 10) + [DigitChar(n % 10)]
  }

  /** `toString()` of an Int. */
  function IntToString(n: int): string
  {
    if n < 0 then "-" + NatToString(-n) else NatToString(n)
  }

  lemma {:induction false} DigitsOfNatToString(n: nat)
    ensures DigitsValue(NatToString(n)) == n
  {
    if n >= 10 {
      DigitsOfNatToString(n / 10);
      var s := NatToString(n);
      assert s[..|s| - 1] == NatToString(n / 10);
    }
  }

  /** Parsing the decimal text of any 32-bit integer gives that integer back. */
  lemma ToIntOfIntToString(n: int)
    requires MinInt <= n <= MaxInt
    ensures ToInt(IntToString(n)) == Some(n)
  {
    if n < 0 {
      DigitsOfNatToString(-n);
      assert IntToString(n)[1..] == NatToString(-n);
    } else {
      DigitsOfNatToString(n);
      assert IntToString(n)[0] != '-' && IntToString(n)[0] != '+';
    }
  }

  /** `toBoolean()` (Boolean.parseBoolean): "true" in any letter case; everything else is false. */
  function ToBoolean(s: string): (b: bool)
    ensures b ==> |s| == 4
    ensures b <==> Lower(s) == "true"
  {
    Lower(s) == "true"
  }

  /** `toString()` of a Boolean. */
  function BoolToString(b: bool): string
  {
    if b then "true" else "false"
  }

  /** Booleans survive being written and read back. */
  lemma ToBooleanOfBoolToString(b: bool)
    ensures ToBoolean(BoolToString(b)) == b
  {
    if !b {
      assert Lower("false")[0] == 'f';
    }
  }
}
