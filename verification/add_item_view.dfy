/** The input formatters of the add-item screen (iSpace/Views/AddItemView.swift):
    each `onChange` handler rewrites the field it watches. The card number
    keeps at most 16 digits in groups of four; the expiry keeps at most four
    digits with a slash after the second; the CVV keeps its first four
    characters. */
module AddItemView {
  import opened Wrappers
  import opened Text
  import opened Numerals
  import opened Grouping
  import opened Validation
  import ViewModels

  /** Most digits the card-number field keeps. */
  const CardNumberLimit: nat := 16
  /** Most digits the expiry field keeps. */
  const ExpiryLimit: nat := 4
  /** Most characters the CVV field keeps. */
  const CvvLimit: nat := 4

  /** What the card-number field shows after an edit to `s`. */
  function CardNumberText(s: string): (text: string)
  {
    Grouped(Prefix(Digits(s), CardNumberLimit))
  }

  /** Digits with a slash before the third, when there is one. */
  function Slashed(d: string): string
  {
    if |d| > 2 then d[..2] + "/" + d[2..] else d
  }

  /** What the expiry field shows after an edit to `s`. */
  function ExpiryText(s: string): (text: string)
  {
    Slashed(Prefix(Digits(s), ExpiryLimit))
  }

  /** `formatCardNumber(newValue:)`. */
  method FormatCardNumber(vm: ViewModels.AddItemViewModel, newValue: string)
    modifies vm`cardNumber
    ensures vm.cardNumber == CardNumberText(newValue)
  {
    var filtered := Digits(newValue);
    var digits := Prefix(filtered, CardNumberLimit);
    var result := "";
    var index := 0;
    while index < |digits|
      invariant 0 <= index <= |digits|
      invariant result == Grouped(digits[..index])
    {
      assert digits[..index + 1][..index] == digits[..index];
      if index != 0 && index % 4 == 0 {
        result := result + " ";
      }
      result := result + [digits[index]];
      index := index + 1;
    }
    assert digits[..index] == digits;
    vm.cardNumber := result;
  }

  /** `formatExpiryDate(newValue:)`. */
  method FormatExpiryDate(vm: ViewModels.AddItemViewModel, newValue: string)
    modifies vm`expiry
    ensures vm.expiry == ExpiryText(newValue)
  {
    var filtered := Digits(newValue);
    var digits := Prefix(filtered, ExpiryLimit);
    var result := "";
    var index := 0;
    while index < |digits|
      invariant 0 <= index <= |digits|
      invariant result == Slashed(digits[..index])
    {
      if index == 2 {
        result := result + "/";
      }
      result := result + [digits[index]];
      assert digits[..index + 1] == digits[..index] + [digits[index]];
      index := index + 1;
    }
    assert digits[..index] == digits;
    vm.expiry := result;
  }

  /** The CVV handler: keeps the first four characters, whatever they are. */
  method OnCvvChange(vm: ViewModels.AddItemViewModel, newValue: string)
    modifies vm`cvv
    ensures vm.cvv <= newValue
    ensures |vm.cvv| == if |newValue| < CvvLimit then |newValue| else CvvLimit
  {
    vm.cvv := Prefix(newValue, CvvLimit);
  }

  /** The card-number field holds at most 19 characters, keeps exactly the
      first 16 digits of the input in order, and has only spaces besides;
      it shows 16 digits exactly when the input had at least 16. */
  lemma CardNumberTextShape(s: string)
    ensures |CardNumberText(s)| <= 19
    ensures Digits(CardNumberText(s)) == Prefix(Digits(s), CardNumberLimit)
    ensures Without(CardNumberText(s), ' ') == Prefix(Digits(s), CardNumberLimit)
    ensures |Digits(CardNumberText(s))| == 16 <==> |Digits(s)| >= 16
  {
    var d := Prefix(Digits(s), CardNumberLimit);
    GroupedShape(d);
    assert |d| <= 16;
    assert (|d| - 1) / 4 <= 3;
    GroupedDigits(d);
    DigitsOfDigits(d);
    assert ' ' !in d by {
      assert forall i :: 0 <= i < |d| ==> IsDigit(d[i]);
    }
    GroupedWithoutSpaces(d);
  }

  /** Re-running the handler on its own output changes nothing, so the
      field settles after one rewrite. */
  lemma CardNumberTextIdempotent(s: string)
    ensures CardNumberText(CardNumberText(s)) == CardNumberText(s)
  {
    CardNumberTextShape(s);
    var d := Prefix(Digits(s), CardNumberLimit);
    assert Prefix(d, CardNumberLimit) == d;
  }

  /** Slashing adds no digits and loses none. */
  lemma SlashedDigits(d: string)
    requires AllDigits(d)
    ensures Digits(Slashed(d)) == d
  {
    if |d| > 2 {
      var front, back := d[..2], d[2..];
      assert AllDigits(front) && AllDigits(back);
      calc {
        Digits(Slashed(d));
        Digits(front + "/" + back);
        { DigitsAppend(front + "/", back); DigitsAppend(front, "/"); }
        Digits(front) + Digits("/") + Digits(back);
        { DigitsOfDigits(front); DigitsOfDigits(back); }
        front + back;
        d;
      }
    } else {
      DigitsOfDigits(d);
    }
  }

  /** The expiry field holds at most 5 characters, keeps exactly the first
      four digits of the input, and shows a slash, always at index 2,
      exactly when the input had at least three digits. */
  lemma ExpiryTextShape(s: string)
    ensures |ExpiryText(s)| <= 5
    ensures Digits(ExpiryText(s)) == Prefix(Digits(s), ExpiryLimit)
    ensures '/' in ExpiryText(s) <==> |Digits(s)| >= 3
    ensures |Digits(s)| >= 3 ==> ExpiryText(s)[2] == '/'
  {
    var d := Prefix(Digits(s), ExpiryLimit);
    SlashedDigits(d);
    if |d| <= 2 {
      assert forall i :: 0 <= i < |d| ==> d[i] != '/';
    }
  }

  /** Re-running the handler on its own output changes nothing. */
  lemma ExpiryTextIdempotent(s: string)
    ensures ExpiryText(ExpiryText(s)) == ExpiryText(s)
  {
    ExpiryTextShape(s);
    var d := Prefix(Digits(s), ExpiryLimit);
    assert Prefix(d, ExpiryLimit) == d;
  }

  /** A formatted expiry of three or four digits always has the shape the
      validation expects: it parses to the first two digits as the month,
      when that lies in 1...12, and the rest as the year. */
  lemma FormattedExpiryParses(s: string)
    requires |Digits(s)| >= 3
    ensures var d := Prefix(Digits(s), ExpiryLimit);
            ParseExpiry(ExpiryText(s)) ==
              if 1 <= DecimalValue(d[..2]) <= 12 then Some((DecimalValue(d[..2]), DecimalValue(d[2..]))) else None
  {
    var d := Prefix(Digits(s), ExpiryLimit);
    assert AllDigits(d[..2]) && AllDigits(d[2..]);
    NumericExpiryParses(d[..2], "/", d[2..]);
  }
}
