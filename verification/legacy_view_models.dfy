/** The older view-models (iSpace/ViewModels.swift) and the list delete of
    iSpace/FilteredItemsListView.swift. They differ from the newer ones in
    how the catalog changes: adding re-sorts the list by type, deleting works
    on offsets into the list and never touches the keychain, and the form
    check only asks for non-empty fields. Their authentication, lock, fetch
    and detail loading are the same as the newer ones'. */
module LegacyViewModels {
  import opened Wrappers
  import opened Models
  import opened Persistence
  import opened Catalog
  import opened Validation
  import Text
  import ViewModels

  /** Passwords before cards: no item sorts before an earlier one. */
  predicate PasswordsFirst(items: seq<StoredItem>)
  {
    forall i, j :: 0 <= i < j < |items| ==> !SortsBefore(items[j].itemType, items[i].itemType)
  }

  /** The older `AppViewModel`: the catalog, the lock flag and the pending
      alert, over one data service. */
  class AppViewModel {
    var items: seq<StoredItem>
    var isLocked: bool
    var alertMessage: Option<ViewModels.Alert>
    const dataService: DataService

    /** Starts locked, with the catalog as stored. */
    constructor (dataService: DataService)
      ensures this.dataService == dataService
      ensures isLocked && alertMessage == None
      ensures items == dataService.LoadItemsList()
    {
      this.dataService := dataService;
      items := dataService.LoadItemsList();
      isLocked := true;
      alertMessage := None;
    }

    function CardItems(): seq<StoredItem>
      reads this
    {
      OfType(items, Card)
    }

    function PasswordItems(): seq<StoredItem>
      reads this
    {
      OfType(items, Password)
    }

    /** `addItem(_:)`: appends, then sorts by descending raw type name, so
        passwords come before cards; the result is a rearrangement of the old
        list plus the new item. Then the list is persisted. */
    method AddItem(item: StoredItem)
      modifies this`items, dataService.defaults
      ensures multiset(items) == multiset(old(items) + [item])
      ensures PasswordsFirst(items)
      ensures dataService.itemsCodec.encode(items).Some? ==>
                dataService.defaults.values == old(dataService.defaults.values)[dataService.itemsKey := dataService.itemsCodec.encode(items).value]
      ensures dataService.itemsCodec.encode(items).None? ==> dataService.defaults.values == old(dataService.defaults.values)
    {
      GroupByTypeSorted(items + [item]);
      items := GroupByType(items + [item]);
      dataService.SaveItemsList(items);
    }

    /** `deleteItem(at:)`: removes the items at the offsets (each must be a
        valid index, or the removal traps), keeps the others in order,
        persists the list, and leaves every keychain entry in place: with
        unique ids, a deleted item is gone from the list while its secret
        stays in the keychain. */
    method DeleteItemAt(offsets: set<nat>)
      requires forall o :: o in offsets ==> o < |items|
      modifies this`items, dataService.defaults
      ensures items == RemoveAtOffsets(old(items), offsets)
      ensures multiset(items) + multiset(AtOffsets(old(items), offsets)) == multiset(old(items))
      ensures |items| == |old(items)| - |offsets|
      ensures dataService.keychain.entries == old(dataService.keychain.entries)
      ensures dataService.itemsCodec.encode(items).Some? ==>
                dataService.defaults.values == old(dataService.defaults.values)[dataService.itemsKey := dataService.itemsCodec.encode(items).value]
      ensures dataService.itemsCodec.encode(items).None? ==> dataService.defaults.values == old(dataService.defaults.values)
      ensures UniqueIds(old(items)) ==>
                forall o :: o in offsets ==>
                  && (forall x :: x in items ==> x.id != old(items)[o].id)
                  && (dataService.keychain.Key(old(items)[o].id.uuidString) in old(dataService.keychain.entries) ==>
                        dataService.keychain.Key(old(items)[o].id.uuidString) in dataService.keychain.entries)
    {
      if UniqueIds(items) {
        forall o | o in offsets
          ensures forall x :: x in RemoveAtOffsets(items, offsets) ==> x.id != items[o].id
        {
          DeletedItemLeavesSecret(items, offsets, o);
        }
      }
      RemoveAtValidOffsets(items, offsets);
      items := RemoveAtOffsets(items, offsets);
      dataService.SaveItemsList(items);
    }
  }

  /** The indices in the main list of the selected rows of a filtered list:
      the first index of each selected row's id, where there is one. */
  function MainIndices(main: seq<StoredItem>, rows: seq<StoredItem>, offsets: set<nat>): (r: set<nat>)
    requires forall o :: o in offsets ==> o < |rows|
    ensures forall i :: i in r ==> i < |main|
    ensures forall i :: i in r ==> exists o :: o in offsets && main[i].id == rows[o].id
    ensures forall i :: i in r ==> exists o :: o in offsets && FirstIndex(main, rows[o].id) == Some(i)
    ensures forall o :: o in offsets && FirstIndex(main, rows[o].id).Some? ==> FirstIndex(main, rows[o].id).value in r
  {
    set o | o in offsets && FirstIndex(main, rows[o].id).Some? :: FirstIndex(main, rows[o].id).value
  }

  /** `FilteredItemsListView.delete(at:)`: finds the selected rows in the
      main list by id and deletes those indices; when none is found nothing
      happens, not even a save. */
  method DeleteRows(vm: AppViewModel, rows: seq<StoredItem>, offsets: set<nat>)
    requires forall o :: o in offsets ==> o < |rows|
    modifies vm`items, vm.dataService.defaults
    ensures MainIndices(old(vm.items), rows, offsets) == {} ==>
              vm.items == old(vm.items) && vm.dataService.defaults.values == old(vm.dataService.defaults.values)
    ensures vm.items == RemoveAtOffsets(old(vm.items), MainIndices(old(vm.items), rows, offsets))
    ensures MainIndices(old(vm.items), rows, offsets) != {} && vm.dataService.itemsCodec.encode(vm.items).Some? ==>
              vm.dataService.defaults.values ==
                old(vm.dataService.defaults.values)[vm.dataService.itemsKey := vm.dataService.itemsCodec.encode(vm.items).value]
    ensures vm.dataService.itemsCodec.encode(vm.items).None? ==> vm.dataService.defaults.values == old(vm.dataService.defaults.values)
    ensures vm.dataService.keychain.entries == old(vm.dataService.keychain.entries)
  {
    var indices := MainIndices(vm.items, rows, offsets);
    if indices != {} {
      vm.DeleteItemAt(indices);
    } else {
      RemoveAtNoOffsets(vm.items);
    }
  }

  /** Ids occur at most once in the list. */
  predicate UniqueIds(items: seq<StoredItem>)
  {
    forall i, j :: 0 <= i < |items| && 0 <= j < |items| && items[i].id == items[j].id ==> i == j
  }

  /** With unique ids, deleting selected rows removes every item with a
      selected id and keeps every item whose id was not selected. */
  lemma DeleteRowsRemovesSelected(main: seq<StoredItem>, rows: seq<StoredItem>, offsets: set<nat>)
    requires UniqueIds(main)
    requires forall o :: o in offsets ==> o < |rows|
    ensures var rest := RemoveAtOffsets(main, MainIndices(main, rows, offsets));
            forall x :: x in rest ==> forall o :: o in offsets ==> x.id != rows[o].id
    ensures var rest := RemoveAtOffsets(main, MainIndices(main, rows, offsets));
            forall x :: x in main && (forall o :: o in offsets ==> x.id != rows[o].id) ==> x in rest
  {
    var indices := MainIndices(main, rows, offsets);
    var rest := RemoveAtOffsets(main, indices);
    forall x | x in rest
      ensures forall o :: o in offsets ==> x.id != rows[o].id
    {
      RemoveAtOffsetsKeeps(main, indices, x);
      var i :| 0 <= i < |main| && i !in indices && main[i] == x;
      forall o | o in offsets
        ensures x.id != rows[o].id
      {
        if x.id == rows[o].id {
          assert false;
        }
      }
    }
    forall x | x in main && (forall o :: o in offsets ==> x.id != rows[o].id)
      ensures x in rest
    {
      var i :| 0 <= i < |main| && main[i] == x;
      RemoveAtOffsetsKeeps(main, indices, x);
      assert i !in indices;
    }
  }

  /** Deleting at offsets drops the selected item from the list for good
      (ids being unique), while `DeleteItemAt` leaves the keychain as it was:
      the item's secret stays behind with nothing in the catalog to reach it. */
  lemma DeletedItemLeavesSecret(items: seq<StoredItem>, offsets: set<nat>, o: nat)
    requires UniqueIds(items)
    requires o in offsets && o < |items|
    ensures forall x :: x in RemoveAtOffsets(items, offsets) ==> x.id != items[o].id
  {
    forall x | x in RemoveAtOffsets(items, offsets)
      ensures x.id != items[o].id
    {
      RemoveAtOffsetsKeeps(items, offsets, x);
    }
  }

  /** The older `isFormValid`: a non-empty name and non-empty fields for the
      selected type; nothing is trimmed or parsed. */
  predicate FilledIn(f: Form)
  {
    && f.name != []
    && match f.selectedType
       case Password => f.website != [] && f.username != [] && f.secret != []
       case Card => f.cardHolder != [] && f.cardNumber != [] && f.expiry != [] && f.cvv != []
  }

  /** Every form the newer check accepts, the older one accepts too. */
  lemma ValidFormIsFilledIn(f: Form, currentYear: nat, currentMonth: int)
    requires FormValid(f, currentYear, currentMonth)
    ensures FilledIn(f)
  {
    assert Text.Trim([]) == [];
    if f.selectedType == Card {
      assert ParseExpiry(f.expiry).Some?;
    }
  }

  /** The same, for every current date at once. */
  lemma NewerValidIsFilledIn(f: Form)
    ensures forall currentYear: nat, currentMonth: int :: FormValid(f, currentYear, currentMonth) ==> FilledIn(f)
  {
    forall currentYear: nat, currentMonth: int | FormValid(f, currentYear, currentMonth)
      ensures FilledIn(f)
    {
      ValidFormIsFilledIn(f, currentYear, currentMonth);
    }
  }

  /** Nor does the older check read a card: a number without digits, a
      one-digit CVV and a passed expiry enable Save, while the newer view
      flags all three. */
  lemma UnreadableCardFilledIn(f: Form, currentYear: nat, currentMonth: int)
    requires f == Form(Card, "Visa", "", "", "", "A", "abcd", "01/24", "1")
    requires currentYear % 100 == 25
    ensures FilledIn(f) && !FormValid(f, currentYear, currentMonth)
    ensures CardNumberError(f) == Some(CardNumberLength) && CvvError(f) == Some(CvvLength)
    ensures ExpiryError(f, currentYear, currentMonth) == Some(CardExpired)
  {
    assert f.expiry == "01" + "/" + "24";
    NumericExpiryParses("01", "/", "24");
  }

  /** The converse fails: the older check accepts a name of spaces, which
      the newer one refuses. */
  lemma BlankNameFilledIn(f: Form, currentYear: nat, currentMonth: int)
    requires f == Form(Password, " ", "w", "u", "s", "", "", "", "")
    ensures FilledIn(f) && !FormValid(f, currentYear, currentMonth)
  {
    WhitespaceNameInvalid(f, currentYear, currentMonth);
  }

  /** The older `AddItemViewModel`: the form and its save. */
  class AddItemViewModel {
    var selectedType: ItemType
    var name: string
    var website: string
    var username: string
    var secret: string
    var cardHolder: string
    var cardNumber: string
    var expiry: string
    var cvv: string

    /** A blank password form. */
    constructor ()
      ensures CurrentForm() == Form(Password, "", "", "", "", "", "", "", "")
    {
      selectedType := Password;
      name, website, username, secret := "", "", "", "";
      cardHolder, cardNumber, expiry, cvv := "", "", "", "";
    }

    /** The current field values. */
    function CurrentForm(): Form
      reads this
    {
      Form(selectedType, name, website, username, secret, cardHolder, cardNumber, expiry, cvv)
    }

    /** `isFormValid`: an empty name or an empty field of the selected type
        keeps Save disabled, and every form the newer check accepts, for
        whatever current date, enables it. */
    function IsFormValid(): (valid: bool)
      reads this
      ensures name == [] ==> !valid
      ensures selectedType == Password && (website == [] || username == [] || secret == []) ==> !valid
      ensures selectedType == Card && (cardHolder == [] || cardNumber == [] || expiry == [] || cvv == []) ==> !valid
      ensures forall currentYear: nat, currentMonth: int :: FormValid(CurrentForm(), currentYear, currentMonth) ==> valid
    {
      var f := CurrentForm();
      NewerValidIsFilledIn(f);
      FilledIn(f)
    }

    /** `saveItem(appViewModel:)` with the fresh id `newId`: the details go
        to the keychain first; only if that succeeds, which is exactly when
        they encode and the keychain write goes through, is the new item
        added (and the list re-sorted). Otherwise the catalog and the
        settings store are unchanged and an alert is set; an encoding
        failure also leaves the keychain as it was. */
    method SaveItem(app: AppViewModel, newId: Uuid, deleteBackend: Backend, addBackend: Backend)
      modifies app`items, app`alertMessage, app.dataService.keychain, app.dataService.defaults
      ensures old(ViewModels.SaveSucceeds(CurrentForm(), app.dataService, newId, deleteBackend, addBackend)) ==>
                && multiset(app.items) == multiset(old(app.items) + [StoredItem(newId, name, selectedType)])
                && PasswordsFirst(app.items)
                && app.alertMessage == old(app.alertMessage)
                && app.dataService.keychain.entries ==
                     old(app.dataService.keychain.entries)[app.dataService.keychain.Key(newId.uuidString) := ViewModels.EncodeDetails(CurrentForm(), app.dataService).value]
                && (app.dataService.itemsCodec.encode(app.items).Some? ==>
                      app.dataService.defaults.values ==
                        old(app.dataService.defaults.values)[app.dataService.itemsKey := app.dataService.itemsCodec.encode(app.items).value])
                && (app.dataService.itemsCodec.encode(app.items).None? ==>
                      app.dataService.defaults.values == old(app.dataService.defaults.values))
      ensures !old(ViewModels.SaveSucceeds(CurrentForm(), app.dataService, newId, deleteBackend, addBackend)) ==>
                && app.items == old(app.items)
                && app.dataService.defaults.values == old(app.dataService.defaults.values)
                && app.alertMessage.Some? && app.alertMessage.value.EncodingError?
      ensures ViewModels.EncodeDetails(CurrentForm(), app.dataService).None? ==>
                app.alertMessage == Some(ViewModels.EncodingError(EncodingFailed)) &&
                app.dataService.keychain.entries == old(app.dataService.keychain.entries)
      ensures ViewModels.EncodeDetails(CurrentForm(), app.dataService).Some? &&
              !old(ViewModels.SaveSucceeds(CurrentForm(), app.dataService, newId, deleteBackend, addBackend)) ==>
                app.alertMessage == Some(ViewModels.EncodingError(Keychain(SaveFailed(if addBackend.Fault? then addBackend.code else ErrSecDuplicateItem)))) &&
                app.dataService.keychain.entries ==
                  if deleteBackend.Nominal? then old(app.dataService.keychain.entries) - {app.dataService.keychain.Key(newId.uuidString)}
                  else old(app.dataService.keychain.entries)
      ensures selectedType == Password && |app.items| > |old(app.items)| && RoundTrips(app.dataService.passwordCodec) ==>
                app.dataService.GetDecryptedDetails(newId, app.dataService.passwordCodec, Nominal) == Success(Some(PasswordDetails(website, username, secret)))
      ensures selectedType == Card && |app.items| > |old(app.items)| && RoundTrips(app.dataService.cardCodec) ==>
                app.dataService.GetDecryptedDetails(newId, app.dataService.cardCodec, Nominal) == Success(Some(CardDetails(cardHolder, cardNumber, expiry, cvv)))
    {
      var saved := WriteDetails(app, newId, deleteBackend, addBackend);
      if saved.Pass? {
        app.AddItem(StoredItem(newId, name, selectedType));
      } else {
        app.alertMessage := Some(ViewModels.EncodingError(saved.error));
      }
    }

    /** The `switch` of `saveItem`: the details of the selected type go
        through `addData`, which only forwards to `saveData`, under the new
        id. */
    method WriteDetails(app: AppViewModel, newId: Uuid, deleteBackend: Backend, addBackend: Backend)
      returns (saved: Outcome<DataError>)
      modifies app.dataService.keychain
      ensures saved.Pass? <==> old(ViewModels.SaveSucceeds(CurrentForm(), app.dataService, newId, deleteBackend, addBackend))
      ensures saved.Pass? ==>
                app.dataService.keychain.entries ==
                  old(app.dataService.keychain.entries)[app.dataService.keychain.Key(newId.uuidString) := ViewModels.EncodeDetails(CurrentForm(), app.dataService).value]
      ensures ViewModels.EncodeDetails(CurrentForm(), app.dataService).None? ==>
                saved == Fail(EncodingFailed) && app.dataService.keychain.entries == old(app.dataService.keychain.entries)
      ensures ViewModels.EncodeDetails(CurrentForm(), app.dataService).Some? && saved.Fail? ==>
                saved.error == Keychain(SaveFailed(if addBackend.Fault? then addBackend.code else ErrSecDuplicateItem)) &&
                app.dataService.keychain.entries ==
                  if deleteBackend.Nominal? then old(app.dataService.keychain.entries) - {app.dataService.keychain.Key(newId.uuidString)}
                  else old(app.dataService.keychain.entries)
      ensures selectedType == Password && saved.Pass? && RoundTrips(app.dataService.passwordCodec) ==>
                app.dataService.GetDecryptedDetails(newId, app.dataService.passwordCodec, Nominal) == Success(Some(PasswordDetails(website, username, secret)))
      ensures selectedType == Card && saved.Pass? && RoundTrips(app.dataService.cardCodec) ==>
                app.dataService.GetDecryptedDetails(newId, app.dataService.cardCodec, Nominal) == Success(Some(CardDetails(cardHolder, cardNumber, expiry, cvv)))
    {
      match selectedType {
        case Password =>
          var details := PasswordDetails(website, username, secret);
          saved := app.dataService.SaveData(details, newId.uuidString, app.dataService.passwordCodec, deleteBackend, addBackend);
        case Card =>
          var details := CardDetails(cardHolder, cardNumber, expiry, cvv);
          saved := app.dataService.SaveData(details, newId.uuidString, app.dataService.cardCodec, deleteBackend, addBackend);
      }
    }
  }
}
