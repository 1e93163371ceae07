/** The form checks of the newer `AddItemViewModel`
    (iSpace/Models/ViewModels.swift): `isFormValid`, which enables Save, and
    the per-field messages `validateFields` shows. The current year and month,
    which the source reads from the calendar, are parameters. */
module Validation {
  import opened Wrappers
  import opened Models
  import opened Text
  import opened Numerals

  /** A snapshot of the add-item form's fields. */
  datatype Form = Form(selectedType: ItemType, name: string,
                       website: string, username: string, secret: string,
                       cardHolder: string, cardNumber: string, expiry: string, cvv: string)

  /** Empty once trimmed of spaces and tabs. */
  predicate IsBlank(s: string)
  {
    Trim(s) == []
  }

  /** The expiry as `(month, year)`: split on "/" (empty pieces omitted),
      exactly two pieces, both `Int`s, the month within 1...12. */
  function ParseExpiry(expiry: string): (r: Option<(int, int)>)
    ensures r.Some? ==> 1 <= r.value.0 <= 12
    ensures r.Some? ==> |Split(expiry, '/')| == 2
  {
    var parts := Split(expiry, '/');
    if |parts| != 2 then None
    else
      match (ParseInt(parts[0]), ParseInt(parts[1]))
      case (Some(month), Some(year)) =>
        if 1 <= month <= 12 then Some((month, year)) else None
      case _ => None
  }

  /** The card expired before the current month; the year is compared with
      the current year modulo 100. */
  predicate IsExpired(month: int, year: int, currentYear: nat, currentMonth: int)
  {
    var shortYear := currentYear % 100;
    year < shortYear || (year == shortYear && month < currentMonth)
  }

  /** `isFormValid`: a non-blank name, then per type: for a password a
      non-blank website, username and secret; for a card a non-blank holder,
      exactly 16 digits in the number, at least 3 digits in the CVV and a
      well-formed expiry that has not passed. A valid name is never empty,
      and a valid card's expiry has exactly two slash-separated parts with
      the month in 1...12. */
  function FormValid(f: Form, currentYear: nat, currentMonth: int): (valid: bool)
    ensures valid ==> !IsBlank(f.name) && f.name != []
    ensures valid && f.selectedType == Password ==>
              && !IsBlank(f.website) && !IsBlank(f.username) && !IsBlank(f.secret)
              && f.website != [] && f.username != [] && f.secret != []
    ensures valid && f.selectedType == Card ==>
              && !IsBlank(f.cardHolder) && |Digits(f.cardNumber)| == 16 && |Digits(f.cvv)| >= 3
              && |Split(f.expiry, '/')| == 2 && ParseExpiry(f.expiry).Some? && 1 <= ParseExpiry(f.expiry).value.0 <= 12
              && !IsExpired(ParseExpiry(f.expiry).value.0, ParseExpiry(f.expiry).value.1, currentYear, currentMonth)
  {
    && !IsBlank(f.name)
    && match f.selectedType
       case Password => !IsBlank(f.website) && !IsBlank(f.username) && !IsBlank(f.secret)
       case Card =>
         && !IsBlank(f.cardHolder)
         && |Digits(f.cardNumber)| == 16
         && |Digits(f.cvv)| >= 3
         && match ParseExpiry(f.expiry)
            case Some((month, year)) => !IsExpired(month, year, currentYear, currentMonth)
            case None => false
  }

  /** The messages `validateFields` can show. */
  datatype FieldError = NameEmpty | CardNumberLength | CvvLength | CardExpired | ExpiryFormat

  function NameError(f: Form): (e: Option<FieldError>)
    ensures e.Some? <==> IsBlank(f.name)
    ensures e.Some? ==> e.value == NameEmpty
  {
    if IsBlank(f.name) then Some(NameEmpty) else None
  }

  /** Only a card form flags the number, and never while the field is empty. */
  function CardNumberError(f: Form): (e: Option<FieldError>)
    ensures e.Some? ==> f.selectedType == Card && f.cardNumber != [] && e.value == CardNumberLength
    ensures f.selectedType == Card && f.cardNumber != [] ==> (e.Some? <==> |Digits(f.cardNumber)| != 16)
  {
    if f.selectedType == Card && |Digits(f.cardNumber)| != 16 && f.cardNumber != [] then Some(CardNumberLength) else None
  }

  /** Only a card form flags the CVV, and never while the field is empty. */
  function CvvError(f: Form): (e: Option<FieldError>)
    ensures e.Some? ==> f.selectedType == Card && f.cvv != [] && e.value == CvvLength
    ensures f.selectedType == Card && f.cvv != [] ==> (e.Some? <==> |Digits(f.cvv)| < 3)
  {
    if f.selectedType == Card && |Digits(f.cvv)| < 3 && f.cvv != [] then Some(CvvLength) else None
  }

  /** Only a card form flags the expiry, never while the field is empty: a
      malformed one as a format error, a passed one as expired. */
  function ExpiryError(f: Form, currentYear: nat, currentMonth: int): (e: Option<FieldError>)
    ensures e.Some? ==> f.selectedType == Card && f.expiry != []
    ensures e.Some? ==> e.value == ExpiryFormat || e.value == CardExpired
    ensures e == Some(ExpiryFormat) <==> f.selectedType == Card && f.expiry != [] && ParseExpiry(f.expiry).None?
    ensures e == Some(CardExpired) <==>
              && f.selectedType == Card && f.expiry != [] && ParseExpiry(f.expiry).Some?
              && IsExpired(ParseExpiry(f.expiry).value.0, ParseExpiry(f.expiry).value.1, currentYear, currentMonth)
  {
    if f.selectedType == Card && f.expiry != [] then
      match ParseExpiry(f.expiry)
      case None => Some(ExpiryFormat)
      case Some((month, year)) => if IsExpired(month, year, currentYear, currentMonth) then Some(CardExpired) else None
    else None
  }

  /** A form that enables Save shows no message. */
  lemma ValidFormShowsNoErrors(f: Form, currentYear: nat, currentMonth: int)
    requires FormValid(f, currentYear, currentMonth)
    ensures NameError(f).None? && CardNumberError(f).None? && CvvError(f).None?
    ensures ExpiryError(f, currentYear, currentMonth).None?
  {
    if f.selectedType == Card {
      var parsed := ParseExpiry(f.expiry);
      assert parsed.Some? && !IsExpired(parsed.value.0, parsed.value.1, currentYear, currentMonth);
    }
  }

  /** What `isFormValid` asks of a form beyond what the messages check: a
      password's website, username and secret are non-blank; a card's holder
      is non-blank and its number, CVV and expiry are entered. */
  predicate FieldsEntered(f: Form)
  {
    match f.selectedType
    case Password => !IsBlank(f.website) && !IsBlank(f.username) && !IsBlank(f.secret)
    case Card => !IsBlank(f.cardHolder) && f.cardNumber != [] && f.cvv != [] && f.expiry != []
  }

  /** Save is enabled exactly when no field shows a message and every field
      the messages pass over while empty is filled in. */
  lemma FormValidIffNoMessages(f: Form, currentYear: nat, currentMonth: int)
    ensures FormValid(f, currentYear, currentMonth) <==>
              && NameError(f).None? && CardNumberError(f).None? && CvvError(f).None?
              && ExpiryError(f, currentYear, currentMonth).None? && FieldsEntered(f)
  {
    if FormValid(f, currentYear, currentMonth) {
      ValidFormShowsNoErrors(f, currentYear, currentMonth);
      ValidFormFieldsEntered(f, currentYear, currentMonth);
    }
    if && NameError(f).None? && CardNumberError(f).None? && CvvError(f).None?
       && ExpiryError(f, currentYear, currentMonth).None? && FieldsEntered(f) {
      NoMessagesFormValid(f, currentYear, currentMonth);
    }
  }

  /** The forward half: a valid form has every field entered. */
  lemma ValidFormFieldsEntered(f: Form, currentYear: nat, currentMonth: int)
    requires FormValid(f, currentYear, currentMonth)
    ensures FieldsEntered(f)
  {
    if f.selectedType == Card {
      assert Split([], '/') == [];
      assert Digits([]) == [];
    }
  }

  /** The backward half: no message and every field entered make it valid. */
  lemma NoMessagesFormValid(f: Form, currentYear: nat, currentMonth: int)
    requires NameError(f).None? && CardNumberError(f).None? && CvvError(f).None?
    requires ExpiryError(f, currentYear, currentMonth).None? && FieldsEntered(f)
    ensures FormValid(f, currentYear, currentMonth)
  {
    assert !IsBlank(f.name);
    if f.selectedType == Card {
      assert |Digits(f.cardNumber)| == 16 && |Digits(f.cvv)| >= 3;
      var parsed := ParseExpiry(f.expiry);
      assert parsed.Some? && !IsExpired(parsed.value.0, parsed.value.1, currentYear, currentMonth);
    }
  }

  /** A name of only spaces and tabs never passes. */
  lemma WhitespaceNameInvalid(f: Form, currentYear: nat, currentMonth: int)
    requires forall i :: 0 <= i < |f.name| ==> IsWhitespace(f.name[i])
    ensures !FormValid(f, currentYear, currentMonth)
  {
  }

  /** Empty pieces are dropped, so month and year separated by any run of
      slashes ("12//25" as well as "12/25") are read as a two-part expiry. */
  lemma {:induction false} ExpiryWithSlashes(month: string, slashes: string, year: string)
    requires IsPart(month, '/') && IsPart(year, '/')
    requires slashes != [] && forall i :: 0 <= i < |slashes| ==> slashes[i] == '/'
    ensures Split(month + slashes + year, '/') == [month, year]
  {
    var rest := slashes + year;
    assert rest[0] == '/';
    assert month + slashes + year == month + rest;
    calc {
      Split(month + slashes + year, '/');
      Split(month + rest, '/');
      { SplitPartThen(month, rest, '/'); }
      [month] + Split(rest, '/');
      { SlashesThenPart(slashes, year); }
      [month] + [year];
    }
  }

  lemma {:induction false} SlashesThenPart(slashes: string, year: string)
    requires IsPart(year, '/')
    requires forall i :: 0 <= i < |slashes| ==> slashes[i] == '/'
    ensures Split(slashes + year, '/') == [year]
  {
    if slashes == [] {
      calc {
        Split(slashes + year, '/');
        { assert slashes + year == year + []; }
        Split(year + [], '/');
        { SplitPartThen(year, [], '/'); }
        [year] + Split([], '/');
        { assert Split([], '/') == []; }
        [year];
      }
    } else {
      calc {
        Split(slashes + year, '/');
        { SplitLeadingSeparator(slashes + year, '/'); }
        Split((slashes + year)[1..], '/');
        { assert (slashes + year)[1..] == slashes[1..] + year; }
        Split(slashes[1..] + year, '/');
        { SlashesThenPart(slashes[1..], year); }
        [year];
      }
    }
  }

  /** A numeric month and year of one or two digits each, separated by
      slashes, parse to their values; the month must lie in 1...12. */
  lemma NumericExpiryParses(month: string, slashes: string, year: string)
    requires AllDigits(month) && 0 < |month| <= 2 && AllDigits(year) && 0 < |year| <= 2
    requires slashes != [] && forall i :: 0 <= i < |slashes| ==> slashes[i] == '/'
    ensures ParseExpiry(month + slashes + year) ==
              if 1 <= DecimalValue(month) <= 12 then Some((DecimalValue(month), DecimalValue(year))) else None
  {
    assert forall i :: 0 <= i < |month| ==> month[i] != '/';
    assert forall i :: 0 <= i < |year| ==> year[i] != '/';
    ExpiryWithSlashes(month, slashes, year);
    ParseIntOfDigits(month);
    ParseIntOfDigits(year);
  }
}
