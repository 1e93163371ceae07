# iSpace vault core in Dafny

iSpace is an iOS vault for passwords and payment cards. Its core is made of three parts:

- a **catalog** of `StoredItem` records (id, display name, type), kept as one JSON blob in the settings store;
- a **secret store**, the keychain. It holds each item's details (`PasswordDetails` or `CardDetails`) as JSON, under the service `com.yourapp.securevault`, with the item's UUID string as the account;
- a **lock flag**. The vault starts locked. Only a successful device-owner authentication unlocks it, and leaving the foreground locks it again.

This project models the following in Dafny:

- the keychain and data-service layer;
- both revisions of the view-models:
  - the newer one, which deletes by id, validates the form and reports errors per field;
  - the older one, which keeps the list sorted by type, deletes by offset and checks only that fields are filled in;
- the filtered-list delete;
- the input formatters of the add-item form;
- the masked card face;
- the scene-phase relock rule.

It then proves what these parts promise.

Module layout, one module per source component:

| module | file | models |
|---|---|---|
| `Wrappers` | wrappers.dfy | `Option`, `Result` and `Outcome` (success, or failure with an error) |
| `Models` | models.dfy | `StoredItem`, `ItemType`, and the card and password details |
| `Text` | text.dfy | the Swift string operations used: digit filter, prefix, trimming, case-insensitive containment |
| `Numerals` | numerals.dfy | `split(separator:)` (empty pieces omitted) and `Int(String)` |
| `Grouping` | grouping.dfy | the "space before every fourth character" loop, shared by the formatter and the card face |
| `Catalog` | catalog.dfy | the list operations the view-models apply to `items` |
| `Persistence` | persistence.dfy | `KeychainHelper`, the settings store, `DataService` |
| `Validation` | validation.dfy | the newer `isFormValid` and `validateFields` |
| `ViewModels` | view_models.dfy | the newer `AppViewModel`, `AddItemViewModel` and `ItemDetailViewModel` |
| `LegacyViewModels` | legacy_view_models.dfy | the older `AppViewModel` and `AddItemViewModel`, and the filtered-list delete |
| `AddItemView` | add_item_view.dfy | the card-number, expiry and CVV `onChange` formatters |
| `CreditCardView` | credit_card_view.dfy | the card logo and the masked number |
| `App` | app.dfy | the relock on scene-phase change, and the lock-screen routing |

## Platform services as parameters

- **Keychain calls.** `SecItemDelete`, `SecItemAdd` and `SecItemCopyMatching` are functions over a map from (service, account) to bytes. A `Backend` parameter stands for each call's platform answer:
  - `Nominal` behaves like a map: adding an existing key gives `errSecDuplicateItem` (-25299), and deleting or reading an absent key gives `errSecItemNotFound` (-25300);
  - `Fault(code)` returns any other non-success status and changes nothing.
- **JSON.** Encoding and decoding are a `Codec` pair. Encoding may fail. That decoding inverts encoding is a hypothesis (`RoundTrips`) of the lemmas that need it.
- **Authentication.** The answer of `LocalAuthentication` is an `AuthOutcome` parameter.
- **Identifiers and dates.** The fresh `UUID()` of a save and the current year and month are parameters.

## Model

| member | source | states |
|---|---|---|
| Models.IconName | iSpace/Models.swift:19-26 | the icon is "creditcard.fill" exactly for cards and "key.fill" exactly for passwords |
| Models.ItemTypeFromRaw | iSpace/Models.swift:29-32 | decoding a raw type name succeeds exactly for "card" and "password", and yields the case whose raw value it was |
| Models.RawValueRoundTrip | iSpace/Models.swift:29-32 | every type decodes back from its raw value, and distinct types have distinct raw values |
| Models.SortsBefore | iSpace/ViewModels.swift:68 | comparing raw values in descending order puts a password before a card and nothing else before anything |
| Text.Digits | iSpace/Models/ViewModels.swift:99-100 | the digit filter yields only digits and is no longer than its input |
| Text.DigitsOfDigits | iSpace/Models/ViewModels.swift:99-100 | the digit filter keeps an all-digit string whole |
| Text.Trim | iSpace/Models/ViewModels.swift:90 | trimming gives the empty string exactly when the input is all whitespace, and otherwise a string that neither starts nor ends with whitespace |
| Text.Prefix | iSpace/Views/AddItemView.swift:91 | `prefix(n)` is a prefix of the input, of length min(n, length) |
| Text.Contains | iSpace/Models/ViewModels.swift:182 | containment holds exactly when the pattern occurs at some position |
| Numerals.Split | iSpace/Models/ViewModels.swift:102 | every piece is non-empty and free of the separator |
| Numerals.SplitLosesOnlySeparators | iSpace/Models/ViewModels.swift:102 | joining the pieces gives the input with the separators deleted, so no other character is lost |
| Numerals.ParseInt | iSpace/Models/ViewModels.swift:103 | a parsed value lies in the 64-bit range, and the text ends in a digit |
| Numerals.ParseIntOfDigits | iSpace/Models/ViewModels.swift:103 | 1 to 18 decimal digits always parse to their decimal value |
| Grouping.GroupedShape | iSpace/Views/AddItemView.swift:102-107 | n characters grouped take n + (n-1)/4 positions: character k at k + k/4, and a space before every character at a positive multiple of 4 |
| Grouping.GroupedEnds | iSpace/Views/AddItemView.swift:102-107 | grouping never adds a leading or trailing space |
| Grouping.GroupedWithoutSpaces | iSpace/Views/CreditCardView.swift:37-42 | deleting the spaces from a grouped string without spaces gives the string back |
| Grouping.GroupedDigits | iSpace/Views/AddItemView.swift:102-107 | grouping adds and loses no digit |
| Catalog.OfType | iSpace/Models/ViewModels.swift:196-202 | the card or password list holds exactly the items of that type |
| Catalog.TypePartition | iSpace/Models/ViewModels.swift:196-202 | the card list and the password list together are a rearrangement of `items` |
| Catalog.Filtered | iSpace/Models/ViewModels.swift:177-194 | a filtered list holds exactly the items of its type whose name contains the search text case-insensitively, and is the unfiltered type list when the search is empty |
| Catalog.FilteredAppend | iSpace/Models/ViewModels.swift:177-194 | filtering keeps the relative order of `items`: it distributes over concatenation |
| Catalog.SearchExample | iSpace/Models/ViewModels.swift:182 | "goog" finds "Google Account" and not "Amazon" |
| Catalog.FirstIndex | iSpace/Models/ViewModels.swift:242 | the first index whose item has the id, or none when no item has it |
| Catalog.WithoutId | iSpace/Models/ViewModels.swift:245 | `removeAll` never lengthens the list |
| Catalog.WithoutIdMembers | iSpace/Models/ViewModels.swift:245 | `removeAll` keeps exactly the items with another id |
| Catalog.WithoutIdShape | iSpace/Models/ViewModels.swift:241-250 | removal by id changes the list exactly when some item has that id, and then shortens it |
| Catalog.WithoutIdAppend | iSpace/Models/ViewModels.swift:245 | removal by id keeps the relative order of the remaining items |
| Catalog.GroupByTypeSorted | iSpace/ViewModels.swift:65-70 | the re-sorted list is a permutation of its input with every password before every card |
| Catalog.RemoveAtNoOffsets | iSpace/FilteredItemsListView.swift:51 | removing at no offsets keeps the list |
| Catalog.RemoveAtOffsetsSplits | iSpace/ViewModels.swift:79 | what `remove(atOffsets:)` keeps and what it removes together make up the old list |
| Catalog.RemoveAtOffsetsLength | iSpace/ViewModels.swift:79 | exactly one item goes per valid offset |
| Catalog.RemoveAtValidOffsets | iSpace/ViewModels.swift:79 | with every offset in range, the list shrinks by the number of offsets, and the kept and removed items make up the old list |
| Catalog.RemoveAtOffsetsKeeps | iSpace/ViewModels.swift:79 | an item survives exactly when it stood at some offset that was not selected |
| Persistence.KeychainHelper.constructor | iSpace/Persistence.swift:14-16 | the helper works under the fixed service name |
| Persistence.KeychainHelper.Save | iSpace/Persistence.swift:18-31 | the delete status is ignored. The save succeeds exactly when the add goes through and the delete before it either went through or had nothing to remove; a failure reports `saveFailed` with the add's status and leaves the entry deleted or untouched as the delete left it. Success leaves exactly the new bytes under the account (upsert), and no other account changes |
| Persistence.KeychainHelper.Read | iSpace/Persistence.swift:33-46 | the stored bytes on success, none when the entry is not found, `readFailed(status)` for any other failure |
| Persistence.KeychainHelper.Delete | iSpace/Persistence.swift:48-58 | succeeds whether or not the entry existed. Every other status throws `deleteFailed`. Only the account's entry goes |
| Persistence.UserDefaults.Data | iSpace/Persistence.swift:76 | the stored blob exactly when the key is present |
| Persistence.UserDefaults.Set | iSpace/Persistence.swift:85 | the key now maps to the blob and every other key is unchanged |
| Persistence.DecodeCatalog | iSpace/Persistence.swift:75-81 | a missing or undecodable blob gives the empty catalog, and a decodable one its contents |
| Persistence.CatalogRoundTrip | iSpace/Persistence.swift:75-87 | a catalog that encodes is read back unchanged |
| Persistence.DataService.constructor | iSpace/Persistence.swift:72-73 | the catalog lives under "storedItemsList" |
| Persistence.DataService.LoadItemsList | iSpace/Persistence.swift:75-81 | never fails. Gives the empty list when nothing is stored, and otherwise the decoded blob |
| Persistence.DataService.SaveItemsList | iSpace/Persistence.swift:83-87 | overwrites the one catalog key. Writes nothing when encoding fails. A list that encodes loads back unchanged |
| Persistence.DataService.SaveData | iSpace/Persistence.swift:89-92 | succeeds exactly when the details encode and the keychain write goes through. An encoding failure leaves the keychain unchanged; a keychain failure reports `saveFailed` and leaves the keychain as the save left it. A success stores the encoded details under the id, which then decode back to the same details. Other ids never change |
| Persistence.DataService.DeleteData | iSpace/Persistence.swift:94-96 | the keychain delete, with its error wrapped |
| Persistence.DataService.GetDecryptedDetails | iSpace/Persistence.swift:98-103 | none when the item has no entry. Otherwise the decoded details; read and decoding errors propagate |
| Validation.ParseExpiry | iSpace/Models/ViewModels.swift:102-103 | accepted only when the expiry splits into exactly two pieces, with a month in 1...12 |
| Validation.NameError | iSpace/Models/ViewModels.swift:116 | the name message shows exactly when the trimmed name is empty, and it is the empty-name message |
| Validation.CardNumberError | iSpace/Models/ViewModels.swift:118-119 | shown only for a non-empty card number on a card form, exactly when it does not have 16 digits, and it is the length message |
| Validation.CvvError | iSpace/Models/ViewModels.swift:120 | shown only for a non-empty CVV on a card form, exactly when it has fewer than 3 digits, and it is the CVV message |
| Validation.FormValid | iSpace/Models/ViewModels.swift:89-113 | a valid form has a non-blank name and, for a password, a non-blank website, username and secret. A valid card has a non-blank holder, 16 digits in its number, at least 3 in its CVV, and an expiry of exactly two slash-separated parts with the month in 1...12 that has not passed |
| Validation.ExpiryError | iSpace/Models/ViewModels.swift:122-133 | shown only for a non-empty expiry on a card form, and always the format or the expired message. It is the format message exactly when the expiry does not parse, and the expired message exactly when it parses to a month before the current one; a parsed expiry that has not passed shows nothing |
| Validation.FormValidIffNoMessages | iSpace/Models/ViewModels.swift:89-139 | a form is valid exactly when no field shows a message and every field the messages pass over while empty is entered: for a password a non-blank website, username and secret; for a card a non-blank holder and a non-empty number, CVV and expiry |
| Validation.ValidFormShowsNoErrors | iSpace/Models/ViewModels.swift:89-139 | a form `isFormValid` accepts shows no field message |
| Validation.WhitespaceNameInvalid | iSpace/Models/ViewModels.swift:90 | a name of only spaces and tabs never passes |
| Validation.ExpiryWithSlashes | iSpace/Models/ViewModels.swift:102 | a month and a year separated by any number of slashes split into exactly those two pieces, as "12//25" does |
| Validation.NumericExpiryParses | iSpace/Models/ViewModels.swift:102-103 | one- or two-digit month and year parse to their values when the month is in 1...12 |
| ViewModels.AppViewModel.constructor | iSpace/Models/ViewModels.swift:166-175 | starts locked, with no alert, an empty search, and the stored catalog |
| ViewModels.AppViewModel.Authenticate | iSpace/Models/ViewModels.swift:204-222 | only a successful challenge unlocks. A failed challenge or a missing capability keeps the lock flag and sets the matching alert |
| ViewModels.AppViewModel.Lock | iSpace/Models/ViewModels.swift:224-226 | the vault is locked afterwards |
| ViewModels.AppViewModel.FetchItems | iSpace/Models/ViewModels.swift:228-230 | `items` becomes the stored catalog |
| ViewModels.AppViewModel.AddItem | iSpace/Models/ViewModels.swift:232-235 | appends at the end, keeping the old order, then persists the whole list |
| ViewModels.AppViewModel.AddData | iSpace/Models/ViewModels.swift:237-239 | the keychain write of `saveData`: succeeds exactly when the details encode and the keychain write goes through, with the same effect on the keychain in every case |
| ViewModels.AppViewModel.DeleteItem | iSpace/Models/ViewModels.swift:241-251 | unknown id: nothing changes. Failed delete: same list, with an alert. Success: no item with the id remains, the rest keep their order, and the list is persisted, or the settings store is left alone when it does not encode. A catalog whose items all have secrets keeps that property |
| ViewModels.AddItemViewModel.constructor | iSpace/Models/ViewModels.swift:50-64 | a blank password form with no messages |
| ViewModels.AddItemViewModel.IsFormValid | iSpace/Models/ViewModels.swift:89-113 | Save is enabled exactly when no field shows a message and every field is entered |
| ViewModels.AddItemViewModel.ValidateFields | iSpace/Models/ViewModels.swift:115-139 | every message is recomputed from the fields. A password form clears the card messages |
| ViewModels.AddItemViewModel.SaveItem | iSpace/Models/ViewModels.swift:141-160 | succeeds exactly when the details encode and the keychain write goes through; then the secret is stored, the item appended and the list persisted. On failure the list and the settings store are unchanged and the alert names the error; an encoding failure also leaves the keychain alone. After success the details read back as entered. A fresh id keeps every item backed by a secret |
| ViewModels.ItemDetailViewModel.constructor | iSpace/Models/ViewModels.swift:15-26 | nothing loaded, no alert |
| ViewModels.ItemDetailViewModel.LoadDetails | iSpace/Models/ViewModels.swift:28-39 | shows the decrypted details of the item's type. A missing entry shows nothing. An error sets an alert and keeps what was shown |
| ViewModels.ItemDetailViewModel.ConfirmDeletion | iSpace/Models/ViewModels.swift:41-43 | has every effect of `deleteItem(withId:)` for the shown item: an unknown id changes nothing; a failed delete keeps the list, the keychain and the settings store and sets the alert; a success removes the item and its secret and persists the list. A catalog whose items all have secrets keeps that property |
| LegacyViewModels.AppViewModel.constructor | iSpace/ViewModels.swift:16-33 | starts locked, with no alert and the stored catalog |
| LegacyViewModels.AppViewModel.AddItem | iSpace/ViewModels.swift:65-70 | the new list is a permutation of the old one plus the item, with passwords before cards, and it is persisted |
| LegacyViewModels.AppViewModel.DeleteItemAt | iSpace/ViewModels.swift:76-81 | removes exactly the items at the offsets, one per offset, keeping the others in order. It persists the list (writing nothing when it does not encode) and leaves the keychain as it was: with unique ids, each deleted item is gone from the list while its secret stays |
| LegacyViewModels.MainIndices | iSpace/FilteredItemsListView.swift:45-50 | every index is valid in the main list and is the first match of a selected row's id. Each selected row with a match contributes its first match |
| LegacyViewModels.DeleteRows | iSpace/FilteredItemsListView.swift:45-54 | deletes the main-list indices of the selected rows and persists the list, writing nothing when it does not encode. When none matches, nothing happens. The keychain is never touched |
| LegacyViewModels.DeleteRowsRemovesSelected | iSpace/FilteredItemsListView.swift:45-54 | with unique ids, every selected id is gone and every other item is kept |
| LegacyViewModels.DeletedItemLeavesSecret | iSpace/ViewModels.swift:76-81 | with unique ids, no item with a deleted item's id is left in the list. `DeleteItemAt` uses it to state that the secret stays behind |
| LegacyViewModels.ValidFormIsFilledIn | iSpace/ViewModels.swift:97-105 | every form the newer check accepts passes the older one |
| LegacyViewModels.NewerValidIsFilledIn | iSpace/ViewModels.swift:97-105 | the older check (`FilledIn`) accepts every form the newer one accepts, for every current date |
| LegacyViewModels.BlankNameFilledIn | iSpace/ViewModels.swift:98 | the older check accepts a name of spaces, which the newer one refuses |
| LegacyViewModels.AddItemViewModel.constructor | iSpace/ViewModels.swift:87-95 | a blank password form |
| LegacyViewModels.AddItemViewModel.IsFormValid | iSpace/ViewModels.swift:97-105 | an empty name, or an empty field of the selected type, keeps Save disabled; every form the newer check accepts, whatever the date, enables it |
| LegacyViewModels.UnreadableCardFilledIn | iSpace/ViewModels.swift:97-105 | a card with no digits in its number, a one-digit CVV and a passed expiry enables the older Save, while the newer check refuses it and flags all three fields |
| LegacyViewModels.AddItemViewModel.SaveItem | iSpace/ViewModels.swift:107-126 | succeeds exactly when the details encode and the keychain write goes through; then the secret is stored and the item added to the re-sorted, persisted list. On failure the list and the settings store are unchanged and the alert names the error; an encoding failure also leaves the keychain alone. After success the details read back as entered |
| AddItemView.FormatCardNumber | iSpace/Views/AddItemView.swift:97-109 | the field becomes the first 16 digits of the input, grouped in fours |
| AddItemView.CardNumberTextShape | iSpace/Views/AddItemView.swift:97-109 | at most 19 characters. Exactly the first 16 digits of the input, in order, with only spaces besides. Shows 16 digits exactly when the input had 16 or more |
| AddItemView.CardNumberTextIdempotent | iSpace/Views/AddItemView.swift:97-109 | formatting its own output changes nothing, so the re-fired handler settles |
| AddItemView.FormatExpiryDate | iSpace/Views/AddItemView.swift:111-123 | the field becomes the first 4 digits of the input, with a slash before the third |
| AddItemView.SlashedDigits | iSpace/Views/AddItemView.swift:116-121 | inserting the slash adds and loses no digit |
| AddItemView.ExpiryTextShape | iSpace/Views/AddItemView.swift:111-123 | at most 5 characters. Exactly the first 4 digits of the input. A slash appears, at index 2, exactly when the input had at least 3 digits |
| AddItemView.ExpiryTextIdempotent | iSpace/Views/AddItemView.swift:111-123 | formatting its own output changes nothing |
| AddItemView.FormattedExpiryParses | iSpace/Views/AddItemView.swift:111-123 | a formatted expiry of 3 or 4 digits parses: the first two digits are the month and the rest the year |
| AddItemView.OnCvvChange | iSpace/Views/AddItemView.swift:90-92 | the CVV becomes its first 4 characters, whatever they are |
| CreditCardView.Bullets | iSpace/Views/CreditCardView.swift:32 | the requested number of mask characters |
| CreditCardView.FormattedCardNumber | iSpace/Views/CreditCardView.swift:25-44 | the loop computes the masked number |
| CreditCardView.MaskedShowsLastFour | iSpace/Views/CreditCardView.swift:25-44 | above 4 digits, the only digits shown are the last four. With spaces removed, the display is one bullet per hidden digit followed by them. Up to 4 digits, the digits are shown bare |
| CreditCardView.MaskedLong | iSpace/Views/CreditCardView.swift:31-42 | for more than four digits, masking and grouping shows exactly the last four digits, and with spaces removed is the bullets followed by them |
| CreditCardView.BulletsThenDigits | iSpace/Views/CreditCardView.swift:31-42 | grouping bullets and digits shows just those digits and adds only spaces |
| CreditCardView.MaskedMatchesInputLength | iSpace/Views/CreditCardView.swift:25-44 | up to 16 digits, the masked display is as long as the formatted input field |
| CreditCardView.CardTypeLogo | iSpace/Views/CreditCardView.swift:14-22 | the Visa logo exactly when the first digit is 4, the Mastercard logo exactly when it is 5, and the generic symbol otherwise, including when there is no digit |
| CreditCardView.LogoIgnoresNonDigits | iSpace/Views/CreditCardView.swift:14-22 | the logo depends only on the digits |
| CreditCardView.LogoSurvivesFormatting | iSpace/Views/CreditCardView.swift:14-22 | the logo of a formatted card number is the logo of the raw input |
| App.OnScenePhaseChange | iSpace/iSpaceApp.swift:23-28 | inactive or background locks. Active leaves the flag as it was. The previous phase plays no part |
| App.Replay | iSpace/iSpaceApp.swift:23-28 | delivering phase changes and authentication answers one at a time leaves the lock flag as `LockedAfter` computes and the alert as `AlertAfter` computes |
| App.OnlyAuthenticationAlerts | iSpace/Models/ViewModels.swift:204-222 | after any run of lock events the alert is the one the app started with, or the failed-authentication or unavailable-biometrics alert |
| App.OnlyAuthenticationUnlocks | iSpace/ContentView.swift:16-20 | without a successful authentication a locked vault stays locked and shows the lock screen |
| App.BackgroundLocks | iSpace/iSpaceApp.swift:23-28 | after leaving the foreground the vault is locked until the next successful authentication, whatever happened before |

## Findings

| source | as written | input that shows it | evidently intended | confidence | as-written member | corrected member |
|---|---|---|---|---|---|---|
| iSpace/ViewModels.swift:76-81 | `deleteItem(at:)` removes the catalog entries but never deletes their keychain entries | a catalog with one password item, deleted at offset 0: the list is empty, and the secret stays in the keychain with no item to reach it | removing an item also deletes its secret, as the newer `deleteItem(withId:)` does | not executed; medium (the newer revision fixes it) | LegacyViewModels.DeletedItemLeavesSecret | ViewModels.AppViewModel.DeleteItem |

`LegacyViewModels.AppViewModel.DeleteItemAt` states that the keychain is unchanged and, through `LegacyViewModels.DeletedItemLeavesSecret`, that with unique ids a deleted item's secret stays in the keychain while no item with its id is left in the list. `ViewModels.AppViewModel.DeleteItem` instead removes the entry under a nominal keychain, and only then drops the item. Its ensures also show that a catalog whose items all have secrets keeps that property.

## Where the code departs from the design

The model follows the code where it departs from the design of the vault:

- The vault locks as soon as the scene becomes inactive or moves to the background. The code has no grace period.
- There is no third "document" item type and no draft persistence.
- Alerts in the code are strings. They are modelled as a datatype of alert kinds.

## Left out

- FileHelper (AES-GCM encryption through CryptoKit, and file I/O) and the document screens. They are foreign cryptography and filesystem work, and the document details type is not part of this model.
- The SwiftUI view bodies, navigation, onboarding and the helper views. They are presentation only. Only the formatters, the card face, the relock handler and the lock-screen routing are modelled.
- The Combine pipelines that call `validateFields` after every field change. `ValidateFields` is a method the caller runs after a change.
- `Persistence.KeychainHelper.constructor`: the `shared` singleton is not modelled. Each `DataService` holds one helper object, which every operation goes through.
- `ViewModels.AppViewModel.Authenticate`: the platform callback is delivered as one atomic step on the main actor. Interleavings between the request and its answer are not modelled.
- `Persistence.DataService.GetDecryptedDetails`: it takes the item's id rather than the item, because only the id is used.
- `LegacyViewModels.AppViewModel.AddItem`: states only what Swift's `sort` promises, a permutation with passwords before cards. The order among items of the same type is left open, and the body uses a stable partition.
- `LegacyViewModels.AppViewModel`: `authenticate`, `lock`, `fetchItems` and `addData` are the same as the newer revision's and are modelled once, in `ViewModels.AppViewModel`. The older `ItemDetailViewModel` is the newer one without `confirmDeletion` and is modelled once too.
- Grapheme clusters: Swift's `count`, `prefix` and `filter` work on extended grapheme clusters, while a Dafny `string` is a sequence of Unicode scalars. A character built from several scalars, such as a digit followed by a combining accent, counts as one in the app and as several here, so `AddItemView.OnCvvChange` and the digit counts can differ on such input.
- The keychain accessibility class (`kSecAttrAccessibleWhenUnlockedThisDeviceOnly`) and the rest of the query attributes are not modelled. Whatever the platform does with them shows up only as a `Fault` status from the backend.
- Unicode details are approximated:
  - `Character.isNumber` is an ASCII digit;
  - `.whitespaces` is space and tab;
  - `localizedCaseInsensitiveContains` folds ASCII letters only;
  - `Int(String)` accepts an optional sign and ASCII digits within the 64-bit range.
- `LegacyViewModels.AppViewModel.DeleteItemAt` requires every offset to be in range. Swift's `remove(atOffsets:)` traps on an offset out of range, and that trap is not modelled. The callers in iSpace/ItemsListView.swift:29 and iSpace/FilteredItemsListView.swift:53 pass the offsets of rows on screen and indices found in the list, which are in range.
- `Validation.ParseExpiry`: the current year and month come from the calendar in the app. Here they are parameters.
- Exact alert texts and `localizedDescription` strings are not modelled. Only the kind of alert and the error it carries are.
- `Models.StoredItem`, `Models.CardDetails` and `Models.PasswordDetails`: being datatypes, they are immutable and compared field by field. No lemma restates this.
- `ViewModels.AppViewModel.CardItems` and the other list properties: their properties are proved about the `Catalog` functions they are built from.
