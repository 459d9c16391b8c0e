/** Text helpers the operator takes from its runtime library: joining and splitting on a
    separator, trimming, and decimal rendering of replica ordinals. */
module Text {

  /** `parts` written one after the other with `sep` between neighbours. */
  function Join(parts: seq<string>, sep: char): string
  {
    if parts == [] then ""
    else if |parts| == 1 then parts[0]
    else parts[0] + [sep] + Join(parts[1..], sep)
  }

  /** The position of the first `c` in `s`. */
  function IndexOf(s: string, c: char): (i: nat)
    requires c in s
    ensures i < |s| && s[i] == c && c !in s[..i]
  {
    if s[0] == c then 0 else 1 + IndexOf(s[1..], c)
  }

  /** `s` cut at every `sep`; the pieces never contain `sep`. */
  function Split(s: string, sep: char): (parts: seq<string>)
    ensures |parts| >= 1
    ensures forall p :: p in parts ==> sep !in p
    decreases |s|
  {
    if sep !in s then [s]
    else
      var i := IndexOf(s, sep);
      [s[..i]] + Split(s[i + 1..], sep)
  }

  /** Cutting `head + [sep] + tail` takes off exactly `head` when `head` has no separator. */
  lemma SplitFirst(head: string, tail: string, sep: char)
    requires sep !in head
    ensures Split(head + [sep] + tail, sep) == [head] + Split(tail, sep)
  {
    var s := head + [sep] + tail;
    assert s[|head|] == sep;
    var i := IndexOf(s, sep);
    assert i == |head|;
    assert s[..i] == head && s[i + 1..] == tail;
  }

  /** Splitting undoes joining for separator-free parts. */
  lemma {:induction false} SplitJoin(parts: seq<string>, sep: char)
    requires parts != []
    requires forall p :: p in parts ==> sep !in p
    ensures Split(Join(parts, sep), sep) == parts
  {
    if |parts| > 1 {
      SplitJoin(parts[1..], sep);
      SplitFirst(parts[0], Join(parts[1..], sep), sep);
    }
  }

  /** The characters that trimming removes: the white space of Unicode. */
  predicate IsSpace(c: char)
  {
    c in {' ', '\t', '\n', '\r', '\U{0B}', '\U{0C}', '\U{85}', '\U{A0}', '\U{1680}', '\U{2028}', '\U{2029}', '\U{202F}',
          '\U{205F}', '\U{3000}'}
    || '\U{2000}' <= c <= '\U{200A}'
  }

  function TrimLeft(s: string): string
  {
    if s != "" && IsSpace(s[0]) then TrimLeft(s[1..]) else s
  }

  function TrimRight(s: string): string
  {
    if s != "" && IsSpace(s[|s| - 1]) then TrimRight(s[..|s| - 1]) else s
  }

  function Trim(s: string): string
  {
    TrimRight(TrimLeft(s))
  }

  /** No space at either end. */
  predicate Trimmed(s: string)
  {
    s == "" || (!IsSpace(s[0]) && !IsSpace(s[|s| - 1]))
  }

  lemma TrimLeftSuffix(s: string)
    ensures var t := TrimLeft(s); t != "" ==> !IsSpace(t[0])
    ensures forall c :: c in TrimLeft(s) ==> c in s
  {}

  lemma TrimRightPrefix(s: string)
    ensures var t := TrimRight(s); t != "" ==> s != "" && t[0] == s[0] && !IsSpace(t[|t| - 1])
    ensures forall c :: c in TrimRight(s) ==> c in s
  {}

  /** Trimming leaves nothing to trim, adds no character, and is the identity exactly on trimmed strings. */
  lemma TrimTrims(s: string)
    ensures Trimmed(Trim(s))
    ensures forall c :: c in Trim(s) ==> c in s
    ensures Trim(s) == s <==> Trimmed(s)
  {
    TrimLeftSuffix(s);
    TrimRightPrefix(TrimLeft(s));
  }

  /** Trimming cuts white space off both ends and nothing else. */
  lemma TrimCuts(s: string) returns (i: nat, j: nat)
    ensures i <= j <= |s| && Trim(s) == s[i..j]
    ensures forall k :: 0 <= k < i || j <= k < |s| ==> IsSpace(s[k])
  {
    i := LeftCut(s);
    var rest := TrimLeft(s);
    var n := RightCut(rest);
    j := i + n;
    assert forall k :: j <= k < |s| ==> s[k] == rest[k - i];
  }

  lemma {:induction false} LeftCut(s: string) returns (i: nat)
    ensures i <= |s| && TrimLeft(s) == s[i..] && forall k :: 0 <= k < i ==> IsSpace(s[k])
  {
    i := 0;
    if s != "" && IsSpace(s[0]) {
      var n := LeftCut(s[1..]);
      i := n + 1;
    }
  }

  lemma {:induction false} RightCut(s: string) returns (n: nat)
    ensures n <= |s| && TrimRight(s) == s[..n] && forall k :: n <= k < |s| ==> IsSpace(s[k])
  {
    n := |s|;
    if s != "" && IsSpace(s[|s| - 1]) {
      n := RightCut(s[..|s| - 1]);
    }
  }

  /** Decimal digits of `n`, most significant first. */
  function Decimal(n: nat): (s: string)
    ensures |s| >= 1 && forall c :: c in s ==> '0' <= c <= '9'
  {
    if n < 10 then [DIGITS[n]] else Decimal(n / 10) + [DIGITS[n % 10]]
  }

  const DIGITS := "0123456789"

  /** A number as people write it: digits, the first of several not zero. */
  predicate IsNumeral(s: string)
  {
    s != "" && (forall c :: c in s ==> '0' <= c <= '9') && (|s| > 1 ==> s[0] != '0')
  }

  /** The number that digits stand for. */
  function Numeral(s: string): nat
  {
    if s == "" then 0 else 10 * Numeral(s[..|s| - 1]) + DigitOf(s[|s| - 1])
  }

  function DigitOf(c: char): nat { if '0' <= c <= '9' then c as int - '0' as int else 0 }

  /** The digits of a number stand for it. */
  lemma {:induction false} DecimalStandsFor(n: nat)
    ensures IsNumeral(Decimal(n)) && Numeral(Decimal(n)) == n
    ensures n > 0 ==> Decimal(n)[0] != '0'
  {
    DigitValue(n % 10);
    if n >= 10 {
      DecimalStandsFor(n / 10);
      LastDigit(n);
    } else {
      assert Decimal(n)[..0] == "";
    }
  }

  lemma DigitValue(d: nat)
    requires d < 10
    ensures DIGITS[d] as int == '0' as int + d
  {}

  lemma LastDigit(n: nat)
    requires n >= 10
    ensures var s := Decimal(n); |s| > 1 && s[..|s| - 1] == Decimal(n / 10) && s[|s| - 1] == DIGITS[n % 10]
  {}

  lemma DigitsDiffer(i: nat, j: nat)
    requires i < 10 && j < 10 && DIGITS[i] == DIGITS[j]
    ensures i == j
  {}

  /** Different numbers have different digits. */
  lemma {:induction false} DecimalInjective(m: nat, n: nat)
    requires Decimal(m) == Decimal(n)
    ensures m == n
  {
    if m < 10 && n < 10 {
      DigitsDiffer(m, n);
    } else if m < 10 {
      LastDigit(n);
    } else if n < 10 {
      LastDigit(m);
    } else {
      LastDigit(m);
      LastDigit(n);
      DecimalInjective(m / 10, n / 10);
      DigitsDiffer(m % 10, n % 10);
    }
  }
}
