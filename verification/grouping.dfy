/** The four-character grouping shared by the card-number input formatter
    (iSpace/Views/AddItemView.swift) and the masked card display
    (iSpace/Views/CreditCardView.swift): both walk the characters with their
    index and append a space before every character whose index is a positive
    multiple of 4. */
module Grouping {
  import opened Text

  /** A space goes before the character at `index`. */
  predicate StartsGroup(index: nat)
  {
    index != 0 && index % 4 == 0
  }

  /** `s` with one space before every character at a positive multiple of 4. */
  function Grouped(s: string): (grouped: string)
  {
    if s == [] then []
    else
      var n := |s| - 1;
      Grouped(s[..n]) + (if StartsGroup(n) then " " else "") + [s[n]]
  }

  /** Length of a grouped string of `n` characters: one space per full group
      after the first. */
  function GroupedLength(n: nat): nat
  {
    if n == 0 then 0 else n + (n - 1) / 4
  }

  /** The shape of `Grouped(s)`: character `k` of `s` sits at position
      `k + k / 4`, a space sits before every character whose index is a
      positive multiple of 4, and the length leaves room for nothing else. */
  lemma {:induction false} GroupedShape(s: string)
    ensures |Grouped(s)| == GroupedLength(|s|)
    ensures forall k :: 0 <= k < |s| ==> k + k / 4 < |Grouped(s)| && Grouped(s)[k + k / 4] == s[k]
    ensures forall k :: 0 <= k < |s| && StartsGroup(k) ==> Grouped(s)[k + k / 4 - 1] == ' '
  {
    if s != [] {
      var n := |s| - 1;
      var init := s[..n];
      GroupedShape(init);
      var sep := if StartsGroup(n) then " " else "";
      assert Grouped(s) == Grouped(init) + sep + [s[n]];
      assert |Grouped(init)| + |sep| == n + n / 4;
      forall k | 0 <= k < n
        ensures k + k / 4 < |Grouped(init)| && Grouped(s)[k + k / 4] == s[k]
      {
        assert init[k] == s[k];
      }
    }
  }

  /** A grouped string starts and ends with characters of the input, never
      with an added space. */
  lemma GroupedEnds(s: string)
    requires s != []
    ensures Grouped(s) != [] && Grouped(s)[0] == s[0] && Grouped(s)[|Grouped(s)| - 1] == s[|s| - 1]
  {
    GroupedShape(s);
  }

  /** Grouping only adds spaces: deleting them gives the input back. */
  lemma {:induction false} GroupedWithoutSpaces(s: string)
    requires ' ' !in s
    ensures Without(Grouped(s), ' ') == s
  {
    if s != [] {
      var n := |s| - 1;
      var init := s[..n];
      var sep := if StartsGroup(n) then " " else "";
      assert ' ' !in init;
      calc {
        Without(Grouped(s), ' ');
        Without(Grouped(init) + sep + [s[n]], ' ');
        { SpaceStepWithout(Grouped(init), sep, s[n]); }
        Without(Grouped(init), ' ') + [s[n]];
        { GroupedWithoutSpaces(init); }
        init + [s[n]];
        s;
      }
    }
  }

  /** One step of grouping, seen with the spaces removed: an optional space
      vanishes and a character other than a space stays. */
  lemma SpaceStepWithout(g: string, sep: string, c: char)
    requires sep == "" || sep == " "
    requires c != ' '
    ensures Without(g + sep + [c], ' ') == Without(g, ' ') + [c]
  {
    WithoutAppend(g + sep, [c], ' ');
    WithoutAppend(g, sep, ' ');
    assert Without(sep, ' ') == [];
    assert Without([c], ' ') == [c];
  }

  /** Grouping adds no digits and loses none. */
  lemma {:induction false} GroupedDigits(s: string)
    ensures Digits(Grouped(s)) == Digits(s)
  {
    if s != [] {
      var n := |s| - 1;
      var sep := if StartsGroup(n) then " " else "";
      GroupedDigits(s[..n]);
      DigitsAppend(Grouped(s[..n]), sep);
      DigitsAppend(Grouped(s[..n]) + sep, [s[n]]);
      DigitsAppend(s[..n], [s[n]]);
      assert Digits(sep) == [];
      assert s == s[..n] + [s[n]];
    }
  }
}
