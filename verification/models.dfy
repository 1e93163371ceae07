/** The value types of the vault: catalog records and the two secret payloads
    (iSpace/Models.swift). */
module Models {
  import opened Wrappers
  import opened Text

  /** A UUID, represented by its `uuidString`, which is also the keychain account. */
  datatype Uuid = Uuid(uuidString: string)

  /** The two kinds of item; Swift raw values "card" and "password". */
  datatype ItemType = Card | Password

  /** One catalog record. Every field is `let`, so a value never changes after
      construction; equality is structural over id, name and type. */
  datatype StoredItem = StoredItem(id: Uuid, name: string, itemType: ItemType)

  datatype CardDetails = CardDetails(cardHolderName: string, cardNumber: string, expiryDate: string, cvv: string)

  datatype PasswordDetails = PasswordDetails(website: string, username: string, secret: string)

  /** The system image shown for an item: total over the two item types. */
  function IconName(item: StoredItem): (r: string)
    ensures r == "creditcard.fill" <==> item.itemType == Card
    ensures r == "key.fill" <==> item.itemType == Password
  {
    match item.itemType
    case Card => "creditcard.fill"
    case Password => "key.fill"
  }

  /** The Swift raw value under which a type is encoded. */
  function RawValue(t: ItemType): string
  {
    match t
    case Card => "card"
    case Password => "password"
  }

  /** `ItemType(rawValue:)`: the decoder's view of a stored type string. */
  function ItemTypeFromRaw(s: string): (r: Option<ItemType>)
    ensures r.Some? <==> s == "card" || s == "password"
    ensures r.Some? ==> RawValue(r.value) == s
  {
    if s == "card" then Some(Card)
    else if s == "password" then Some(Password)
    else None
  }

  /** The raw values are distinct, so a stored type decodes back to itself. */
  lemma RawValueRoundTrip(t: ItemType)
    ensures ItemTypeFromRaw(RawValue(t)) == Some(t)
    ensures forall u: ItemType :: RawValue(u) == RawValue(t) ==> u == t
  {
    assert "card" != "password";
  }

  /** The older catalog sort's comparator, `$0.type.rawValue > $1.type.rawValue`:
      true when an item of type `a` belongs before one of type `b`. Only a
      password belongs before a card. */
  function SortsBefore(a: ItemType, b: ItemType): (r: bool)
    ensures r <==> a == Password && b == Card
  {
    var (x, y) := (RawValue(b), RawValue(a));
    assert x[0] != y[0] ==> (LexLess(x, y) <==> x[0] < y[0]);
    assert x == y ==> !LexLess(x, y) by {
      if x == y { LexLessIrreflexive(x); }
    }
    LexLess(x, y)
  }
}
