/** The parsing half of the Foundation approximation: `split(separator:)`,
    which omits empty pieces, and `Int(String)`, which reads an optional sign
    and decimal digits into a 64-bit integer. */
module Numerals {
  import opened Wrappers
  import opened Text

  /** Leading separators removed. */
  function DropSeparators(s: string, sep: char): (r: string)
    ensures |r| <= |s| && r == s[|s| - |r|..]
    ensures r != [] ==> r[0] != sep
  {
    if |s| > 0 && s[0] == sep then DropSeparators(s[1..], sep) else s
  }

  /** The longest prefix of `s` without a separator. */
  function TakeWord(s: string, sep: char): (w: string)
    ensures w <= s
    ensures sep !in w
    ensures |w| < |s| ==> s[|w|] == sep
    ensures s != [] && s[0] != sep ==> |w| > 0
  {
    if |s| == 0 || s[0] == sep then [] else [s[0]] + TakeWord(s[1..], sep)
  }

  /** One piece of a split: non-empty and free of the separator. */
  predicate IsPart(p: string, sep: char) { p != [] && sep !in p }

  /** `s.split(separator: sep)`: the maximal runs between separators; empty
      runs are omitted, so "12//25" has two parts. */
  function Split(s: string, sep: char): (parts: seq<string>)
    ensures forall p :: p in parts ==> IsPart(p, sep)
    decreases |s|
  {
    var t := DropSeparators(s, sep);
    if t == [] then []
    else
      var w := TakeWord(t, sep);
      assert |w| > 0;
      var rest := Split(t[|w|..], sep);
      [w] + rest
  }

  /** A run of separators, then a part, then a separator or nothing: the part
      and what follows it are taken apart correctly. */
  lemma {:induction false} TakeWordOfPart(w: string, rest: string, sep: char)
    requires sep !in w
    requires rest == [] || rest[0] == sep
    ensures TakeWord(w + rest, sep) == w
  {
    if w != [] {
      assert (w + rest)[1..] == w[1..] + rest;
      TakeWordOfPart(w[1..], rest, sep);
    } else {
      assert w + rest == rest;
    }
  }

  /** A part followed by a separator (or by nothing) becomes the first
      piece of the split. */
  lemma SplitPartThen(a: string, rest: string, sep: char)
    requires IsPart(a, sep)
    requires rest == [] || rest[0] == sep
    ensures Split(a + rest, sep) == [a] + Split(rest, sep)
  {
    var s := a + rest;
    assert s[0] == a[0];
    assert DropSeparators(s, sep) == s;
    TakeWordOfPart(a, rest, sep);
    assert s[|a|..] == rest;
  }

  /** A leading separator contributes no piece. */
  lemma SplitLeadingSeparator(s: string, sep: char)
    requires s != [] && s[0] == sep
    ensures Split(s, sep) == Split(s[1..], sep)
  {
    assert DropSeparators(s, sep) == DropSeparators(s[1..], sep);
  }

  function Concat(parts: seq<string>): string
  {
    if parts == [] then [] else parts[0] + Concat(parts[1..])
  }

  /** Dropping leading separators does not change what remains once the
      separators are deleted. */
  lemma {:induction false} WithoutDropSeparators(s: string, c: char)
    ensures Without(DropSeparators(s, c), c) == Without(s, c)
  {
    if |s| > 0 && s[0] == c {
      WithoutDropSeparators(s[1..], c);
    }
  }

  /** One step of `Split`: the first word after the leading separators,
      then the split of what follows it. */
  lemma SplitUnfold(s: string, sep: char)
    requires DropSeparators(s, sep) != []
    ensures var t := DropSeparators(s, sep);
            var w := TakeWord(t, sep);
            |w| > 0 && Split(s, sep) == [w] + Split(t[|w|..], sep)
  {
  }

  lemma ConcatCons(w: string, rest: seq<string>)
    ensures Concat([w] + rest) == w + Concat(rest)
  {
    assert ([w] + rest)[1..] == rest;
  }

  /** Splitting loses only the separators: joining the parts gives back `s`
      with its separators deleted. */
  lemma {:induction false} SplitLosesOnlySeparators(s: string, sep: char)
    ensures Concat(Split(s, sep)) == Without(s, sep)
    decreases |s|
  {
    var t := DropSeparators(s, sep);
    if t == [] {
      calc {
        Without(s, sep);
        { WithoutDropSeparators(s, sep); }
        Without(t, sep);
        [];
      }
    } else {
      var w := TakeWord(t, sep);
      var u := t[|w|..];
      calc {
        Concat(Split(s, sep));
        { SplitUnfold(s, sep); }
        Concat([w] + Split(u, sep));
        { ConcatCons(w, Split(u, sep)); }
        w + Concat(Split(u, sep));
        { SplitLosesOnlySeparators(u, sep); }
        w + Without(u, sep);
        { WithoutNone(w, sep); }
        Without(w, sep) + Without(u, sep);
        { WithoutAppend(w, u, sep); }
        Without(w + u, sep);
        { assert t == w + u; }
        Without(t, sep);
        { WithoutDropSeparators(s, sep); }
        Without(s, sep);
      }
    }
  }

  const Int64Min: int := -0x8000_0000_0000_0000
  const Int64Max: int := 0x7FFF_FFFF_FFFF_FFFF

  function DigitValue(c: char): nat
    requires IsDigit(c)
  {
    c as int - '0' as int
  }

  /** The value of a decimal numeral. */
  function DecimalValue(ds: string): (v: nat)
    requires AllDigits(ds)
    ensures v < Pow10(|ds|)
  {
    if ds == [] then 0 else 10 * DecimalValue(ds[..|ds| - 1]) + DigitValue(ds[|ds| - 1])
  }

  function Pow10(n: nat): (p: nat)
    ensures p >= 1
  {
    if n == 0 then 1 else 10 * Pow10(n - 1)
  }

  /** `Int(s)`: an optional sign, then one or more decimal digits and nothing
      else, whose value fits in a 64-bit `Int`; anything else is `nil`. */
  function ParseInt(s: string): (r: Option<int>)
    ensures r.Some? ==> Int64Min <= r.value <= Int64Max
    ensures r.Some? ==> |s| > 0 && IsDigit(s[|s| - 1])
  {
    var negative := |s| > 0 && s[0] == '-';
    var body := if |s| > 0 && (s[0] == '+' || s[0] == '-') then s[1..] else s;
    if body == [] || !AllDigits(body) then None
    else
      var magnitude: int := DecimalValue(body);
      var v := if negative then -magnitude else magnitude;
      if Int64Min <= v <= Int64Max then Some(v) else None
  }

  /** A plain numeral of up to 18 digits always fits, and parses to its value. */
  lemma ParseIntOfDigits(s: string)
    requires AllDigits(s) && 0 < |s| <= 18
    ensures ParseInt(s) == Some(DecimalValue(s))
  {
    Pow10Monotone(|s|, 18);
    Pow10Eighteen();
    assert !IsDigit('-') && !IsDigit('+');
    assert DecimalValue(s) < Int64Max;
  }

  lemma Pow10Eighteen()
    ensures Pow10(18) == 1_000_000_000_000_000_000
  {
    assert Pow10(6) == 1_000_000;
    assert Pow10(12) == 1_000_000_000_000;
  }

  lemma {:induction false} Pow10Monotone(m: nat, n: nat)
    requires m <= n
    ensures Pow10(m) <= Pow10(n)
    decreases n
  {
    if m < n {
      Pow10Monotone(m, n - 1);
    }
  }
}
