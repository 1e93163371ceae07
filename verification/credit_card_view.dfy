/** The card face (iSpace/Views/CreditCardView.swift): the brand logo guessed
    from the first digit, and the card number masked down to its last four
    digits and grouped in fours. */
module CreditCardView {
  import opened Text
  import opened Grouping
  import AddItemView

  /** The masking character. */
  const Bullet: char := '\U{2022}'

  /** `k` masking characters. */
  function Bullets(k: nat): (r: string)
    ensures |r| == k && forall i :: 0 <= i < k ==> r[i] == Bullet
  {
    seq(k, _ => Bullet)
  }

  /** `cardTypeLogo`: "visa-logo" when the first digit is 4, "mastercard-logo"
      when it is 5, the generic card symbol otherwise (no digits included). */
  function CardTypeLogo(cardNumber: string): (logo: string)
    ensures logo == "visa-logo" <==> Digits(cardNumber) != [] && Digits(cardNumber)[0] == '4'
    ensures logo == "mastercard-logo" <==> Digits(cardNumber) != [] && Digits(cardNumber)[0] == '5'
    ensures logo == "creditcard.fill" <==> Digits(cardNumber) == [] || Digits(cardNumber)[0] !in {'4', '5'}
  {
    var number := Digits(cardNumber);
    if |number| > 0 && number[0] == '4' then "visa-logo"
    else if |number| > 0 && number[0] == '5' then "mastercard-logo"
    else "creditcard.fill"
  }

  /** The masked card number: up to four digits shown as they are; otherwise
      all but the last four replaced by bullets, grouped in fours. */
  function MaskedCardNumber(cardNumber: string): (masked: string)
  {
    var number := Digits(cardNumber);
    if |number| <= 4 then number
    else Grouped(Bullets(|number| - 4) + number[|number| - 4..])
  }

  /** `formattedCardNumber`. */
  method FormattedCardNumber(cardNumber: string) returns (result: string)
    ensures result == MaskedCardNumber(cardNumber)
  {
    var number := Digits(cardNumber);
    if |number| <= 4 {
      return number;
    }
    var lastFourDigits := number[|number| - 4..];
    var maskedPart := Bullets(|number| - 4);
    var combined := maskedPart + lastFourDigits;
    result := "";
    var index := 0;
    while index < |combined|
      invariant 0 <= index <= |combined|
      invariant result == Grouped(combined[..index])
    {
      assert combined[..index + 1][..index] == combined[..index];
      if index > 0 && index % 4 == 0 {
        result := result + " ";
      }
      result := result + [combined[index]];
      index := index + 1;
    }
    assert combined[..index] == combined;
  }

  /** The mask reveals exactly the last four digits: they are the only
      digits shown, and with the spaces removed the display is one bullet
      per hidden digit followed by them. Short numbers are shown whole. */
  lemma MaskedShowsLastFour(cardNumber: string)
    ensures var number := Digits(cardNumber);
            |number| > 4 ==>
              && Digits(MaskedCardNumber(cardNumber)) == number[|number| - 4..]
              && Without(MaskedCardNumber(cardNumber), ' ') == Bullets(|number| - 4) + number[|number| - 4..]
    ensures |Digits(cardNumber)| <= 4 ==> MaskedCardNumber(cardNumber) == Digits(cardNumber)
  {
    var number := Digits(cardNumber);
    if |number| > 4 {
      MaskedLong(number);
    }
  }

  /** The case of more than four digits, stated on the digits alone: the
      last four survive the mask and grouping, and nothing else shows. */
  lemma MaskedLong(number: string)
    requires AllDigits(number) && |number| > 4
    ensures var k := |number| - 4;
            && Digits(Grouped(Bullets(k) + number[k..])) == number[k..]
            && Without(Grouped(Bullets(k) + number[k..]), ' ') == Bullets(k) + number[k..]
  {
    var k := |number| - 4;
    SuffixDigits(number, k);
    BulletsThenDigits(k, number[k..]);
  }

  /** A suffix of a string of digits is a string of digits. */
  lemma SuffixDigits(number: string, k: nat)
    requires AllDigits(number) && k <= |number|
    ensures AllDigits(number[k..])
  {
    var last := number[k..];
    forall i | 0 <= i < |last| ensures IsDigit(last[i]) {
      assert last[i] == number[k + i];
    }
  }

  /** Grouping bullets followed by digits shows just those digits, and only
      spaces were added. */
  lemma BulletsThenDigits(k: nat, last: string)
    requires AllDigits(last)
    ensures Digits(Grouped(Bullets(k) + last)) == last
    ensures Without(Grouped(Bullets(k) + last), ' ') == Bullets(k) + last
  {
    var combined := Bullets(k) + last;
    GroupedDigits(combined);
    DigitsAppend(Bullets(k), last);
    DigitsOfDigits(last);
    BulletsHaveNoDigits(k);
    assert ' ' !in combined by {
      assert forall i :: 0 <= i < |combined| ==> combined[i] != ' ';
    }
    GroupedWithoutSpaces(combined);
  }

  lemma {:induction false} BulletsHaveNoDigits(k: nat)
    ensures Digits(Bullets(k)) == []
  {
    if k > 0 {
      assert Bullets(k)[1..] == Bullets(k - 1);
      BulletsHaveNoDigits(k - 1);
    }
  }

  /** Up to 16 digits, the masked display lines up with the formatted input
      field: both are the same number of characters long. */
  lemma MaskedMatchesInputLength(cardNumber: string)
    requires |Digits(cardNumber)| <= AddItemView.CardNumberLimit
    ensures |MaskedCardNumber(cardNumber)| == |AddItemView.CardNumberText(cardNumber)|
  {
    var number := Digits(cardNumber);
    assert Prefix(number, AddItemView.CardNumberLimit) == number;
    GroupedShape(number);
    if |number| > 4 {
      GroupedShape(Bullets(|number| - 4) + number[|number| - 4..]);
    }
  }

  /** The logo looks at digits only: dropping every other character first
      gives the same logo. */
  lemma LogoIgnoresNonDigits(s: string)
    ensures CardTypeLogo(s) == CardTypeLogo(Digits(s))
  {
  }

  /** Formatting the input does not change the logo: the first digit
      survives the card-number formatter. */
  lemma LogoSurvivesFormatting(s: string)
    ensures CardTypeLogo(AddItemView.CardNumberText(s)) == CardTypeLogo(s)
  {
    AddItemView.CardNumberTextShape(s);
  }
}
