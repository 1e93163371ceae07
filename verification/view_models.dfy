/** The newer view-models (iSpace/Models/ViewModels.swift): the app-wide vault
    state with its lock flag, the add-item form, and the detail loader. All run
    on the main actor, so every method here runs to completion on its own. */
module ViewModels {
  import opened Wrappers
  import opened Models
  import opened Persistence
  import opened Catalog
  import opened Validation

  /** What an alert reports; the message text itself is not modelled. */
  datatype Alert =
    | AuthenticationFailed
    | BiometricsUnavailable
    | EncodingError(error: DataError)
    | DeleteFailed(error: DataError)
    | DecryptFailed(error: DataError)

  /** The platform's answer to one unlock request: no authentication
      capability at all, or the result of the challenge. */
  datatype AuthOutcome = Unavailable | Evaluated(success: bool)

  /** The details a form saves, encoded with the codec for its type. */
  function EncodeDetails(f: Form, ds: DataService): Option<Bytes>
  {
    match f.selectedType
    case Password => ds.passwordCodec.encode(PasswordDetails(f.website, f.username, f.secret))
    case Card => ds.cardCodec.encode(CardDetails(f.cardHolder, f.cardNumber, f.expiry, f.cvv))
  }

  /** Whether saving the form's details under `id` succeeds: they encode and
      the keychain write goes through. */
  predicate SaveSucceeds(f: Form, ds: DataService, id: Uuid, deleteBackend: Backend, addBackend: Backend)
    reads ds.keychain
  {
    EncodeDetails(f, ds).Some? && ds.keychain.SaveGoesThrough(id.uuidString, deleteBackend, addBackend)
  }

  /** `AppViewModel`: the catalog, the lock flag, the pending alert and the
      search text, over one data service. */
  class AppViewModel {
    var items: seq<StoredItem>
    var isLocked: bool
    var alertMessage: Option<Alert>
    var searchText: string
    const dataService: DataService

    /** Starts locked, with the catalog as stored. */
    constructor (dataService: DataService)
      ensures this.dataService == dataService
      ensures isLocked && alertMessage == None && searchText == ""
      ensures items == dataService.LoadItemsList()
    {
      this.dataService := dataService;
      items := [];
      isLocked := true;
      alertMessage := None;
      searchText := "";
      new;
      FetchItems();
    }

    /** Every catalog entry has its secret in the keychain. */
    ghost predicate Backed()
      reads this, dataService.keychain
    {
      forall x :: x in items ==> dataService.keychain.Key(x.id.uuidString) in dataService.keychain.entries
    }

    function CardItems(): seq<StoredItem>
      reads this
    {
      OfType(items, Card)
    }

    function PasswordItems(): seq<StoredItem>
      reads this
    {
      OfType(items, Password)
    }

    function FilteredCardItems(): seq<StoredItem>
      reads this
    {
      Filtered(items, Card, searchText)
    }

    function FilteredPasswordItems(): seq<StoredItem>
      reads this
    {
      Filtered(items, Password, searchText)
    }

    /** `authenticate()`: only a successful challenge unlocks; an unavailable
        capability or a failed challenge leaves the lock as it was and sets an
        alert. */
    method Authenticate(outcome: AuthOutcome)
      modifies this`isLocked, this`alertMessage
      ensures outcome == Evaluated(true) ==> !isLocked && alertMessage == old(alertMessage)
      ensures outcome == Evaluated(false) ==> isLocked == old(isLocked) && alertMessage == Some(AuthenticationFailed)
      ensures outcome == Unavailable ==> isLocked == old(isLocked) && alertMessage == Some(BiometricsUnavailable)
    {
      match outcome
      case Evaluated(success) =>
        if success {
          isLocked := false;
        } else {
          alertMessage := Some(AuthenticationFailed);
        }
      case Unavailable =>
        alertMessage := Some(BiometricsUnavailable);
    }

    /** `lock()`. */
    method Lock()
      modifies this`isLocked
      ensures isLocked
    {
      isLocked := true;
    }

    /** `fetchItems()`: reloads the catalog from the settings store. */
    method FetchItems()
      modifies this`items
      ensures items == dataService.LoadItemsList()
    {
      items := dataService.LoadItemsList();
    }

    /** `addItem(_:)`: appends at the end, keeping the existing order, then
        persists the whole list (silently skipped if it does not encode). */
    method AddItem(item: StoredItem)
      modifies this`items, dataService.defaults
      ensures items == old(items) + [item]
      ensures dataService.itemsCodec.encode(items).Some? ==>
                dataService.defaults.values == old(dataService.defaults.values)[dataService.itemsKey := dataService.itemsCodec.encode(items).value]
      ensures dataService.itemsCodec.encode(items).None? ==> dataService.defaults.values == old(dataService.defaults.values)
    {
      items := items + [item];
      dataService.SaveItemsList(items);
    }

    /** `addData(_:id:)`: the keychain write of a new item's details. */
    method AddData<T(!new)>(data: T, id: string, codec: Codec<T>, deleteBackend: Backend, addBackend: Backend)
      returns (r: Outcome<DataError>)
      modifies dataService.keychain
      ensures r.Pass? <==> codec.encode(data).Some? && old(dataService.keychain.SaveGoesThrough(id, deleteBackend, addBackend))
      ensures codec.encode(data).None? ==> r == Fail(EncodingFailed) && dataService.keychain.entries == old(dataService.keychain.entries)
      ensures r.Pass? ==>
                dataService.keychain.entries == old(dataService.keychain.entries)[dataService.keychain.Key(id) := codec.encode(data).value]
      ensures codec.encode(data).Some? && r.Fail? ==>
                && r.error == Keychain(SaveFailed(if addBackend.Fault? then addBackend.code else ErrSecDuplicateItem))
                && dataService.keychain.entries == if deleteBackend.Nominal? then old(dataService.keychain.entries) - {dataService.keychain.Key(id)}
                                                   else old(dataService.keychain.entries)
      ensures dataService.keychain.entries - {dataService.keychain.Key(id)} == old(dataService.keychain.entries) - {dataService.keychain.Key(id)}
      ensures r.Pass? && RoundTrips(codec) ==> dataService.GetDecryptedDetails(Uuid(id), codec, Nominal) == Success(Some(data))
    {
      r := dataService.SaveData(data, id, codec, deleteBackend, addBackend);
    }

    /** `deleteItem(withId:)`: an unknown id changes nothing. Otherwise the
        keychain entry is deleted first; if that fails the catalog is kept and
        an alert is set, and if it succeeds every item with the id is removed,
        the rest keep their order, and the list is persisted. Either way a
        catalog whose entries all had secrets still has. */
    method DeleteItem(id: Uuid, backend: Backend)
      modifies this`items, this`alertMessage, dataService.keychain, dataService.defaults
      ensures FirstIndex(old(items), id).None? ==>
                items == old(items) && alertMessage == old(alertMessage) &&
                dataService.keychain.entries == old(dataService.keychain.entries) &&
                dataService.defaults.values == old(dataService.defaults.values)
      ensures FirstIndex(old(items), id).Some? && backend.Fault? && backend.code != ErrSecItemNotFound ==>
                items == old(items) && alertMessage == Some(Alert.DeleteFailed(Keychain(KeychainError.DeleteFailed(backend.code)))) &&
                dataService.keychain.entries == old(dataService.keychain.entries) &&
                dataService.defaults.values == old(dataService.defaults.values)
      ensures FirstIndex(old(items), id).Some? && (backend.Nominal? || backend.code == ErrSecItemNotFound) ==>
                items == WithoutId(old(items), id) && alertMessage == old(alertMessage) &&
                dataService.keychain.entries == (if backend.Nominal? then old(dataService.keychain.entries) - {dataService.keychain.Key(id.uuidString)}
                                                 else old(dataService.keychain.entries)) &&
                (dataService.itemsCodec.encode(items).Some? ==>
                   dataService.defaults.values == old(dataService.defaults.values)[dataService.itemsKey := dataService.itemsCodec.encode(items).value]) &&
                (dataService.itemsCodec.encode(items).None? ==> dataService.defaults.values == old(dataService.defaults.values))
      ensures old(Backed()) ==> Backed()
    {
      var found := FirstIndex(items, id);
      if found.Some? {
        var itemToDelete := items[found.value];
        var deleted := dataService.DeleteData(itemToDelete.id.uuidString, backend);
        if deleted.Pass? {
          WithoutIdMembers(items, id);
          items := WithoutId(items, id);
          dataService.SaveItemsList(items);
        } else {
          alertMessage := Some(Alert.DeleteFailed(deleted.error));
        }
      }
    }
  }

  /** `AddItemViewModel`: the add-item form, its field messages, and the save
      that writes the secret before the catalog entry. */
  class AddItemViewModel {
    var selectedType: ItemType
    var name: string
    var website: string
    var username: string
    var secret: string
    var cardHolder: string
    var cardNumber: string
    var expiry: string
    var cvv: string
    var nameError: Option<FieldError>
    var cardNumberError: Option<FieldError>
    var expiryError: Option<FieldError>
    var cvvError: Option<FieldError>

    /** A blank password form with no messages. */
    constructor ()
      ensures CurrentForm() == Form(Password, "", "", "", "", "", "", "", "")
      ensures nameError.None? && cardNumberError.None? && expiryError.None? && cvvError.None?
    {
      selectedType := Password;
      name, website, username, secret := "", "", "", "";
      cardHolder, cardNumber, expiry, cvv := "", "", "", "";
      nameError, cardNumberError, expiryError, cvvError := None, None, None, None;
    }

    /** The current field values. */
    function CurrentForm(): Form
      reads this`selectedType, this`name, this`website, this`username, this`secret
      reads this`cardHolder, this`cardNumber, this`expiry, this`cvv
    {
      Form(selectedType, name, website, username, secret, cardHolder, cardNumber, expiry, cvv)
    }

    /** `isFormValid`, for the given current year and month: Save is enabled
        exactly when no field shows a message and every field is entered. */
    function IsFormValid(currentYear: nat, currentMonth: int): (valid: bool)
      reads this`selectedType, this`name, this`website, this`username, this`secret
      reads this`cardHolder, this`cardNumber, this`expiry, this`cvv
      ensures valid ==> NameError(CurrentForm()).None? && CardNumberError(CurrentForm()).None?
      ensures valid ==> CvvError(CurrentForm()).None? && ExpiryError(CurrentForm(), currentYear, currentMonth).None?
      ensures valid ==> FieldsEntered(CurrentForm())
      ensures (&& NameError(CurrentForm()).None? && CardNumberError(CurrentForm()).None? && CvvError(CurrentForm()).None?
               && ExpiryError(CurrentForm(), currentYear, currentMonth).None? && FieldsEntered(CurrentForm())) ==> valid
    {
      var f := CurrentForm();
      FormValidIffNoMessages(f, currentYear, currentMonth);
      FormValid(f, currentYear, currentMonth)
    }

    /** `validateFields()`: recomputes every message from the fields, which
        it leaves as they are; a password form clears the card messages, and
        an empty card field is never flagged. */
    method ValidateFields(currentYear: nat, currentMonth: int)
      modifies this`nameError, this`cardNumberError, this`expiryError, this`cvvError
      ensures nameError == NameError(old(CurrentForm()))
      ensures cardNumberError == CardNumberError(old(CurrentForm()))
      ensures cvvError == CvvError(old(CurrentForm()))
      ensures expiryError == ExpiryError(old(CurrentForm()), currentYear, currentMonth)
    {
      var f := CurrentForm();
      nameError, cardNumberError, cvvError, expiryError :=
        NameError(f), CardNumberError(f), CvvError(f), ExpiryError(f, currentYear, currentMonth);
    }

    /** `saveItem(appViewModel:)` with the fresh id `newId`: writes the
        details to the keychain first and only then appends the new item, so
        it succeeds exactly when the details encode and the keychain write
        goes through. Otherwise the catalog and the settings store are
        unchanged and an alert is set; an encoding failure also leaves the
        keychain as it was. After a success the details read back as entered,
        and a catalog whose entries all had secrets still has, provided the id
        is new. */
    method SaveItem(app: AppViewModel, newId: Uuid, deleteBackend: Backend, addBackend: Backend)
      modifies app`items, app`alertMessage, app.dataService.keychain, app.dataService.defaults
      ensures old(SaveSucceeds(CurrentForm(), app.dataService, newId, deleteBackend, addBackend)) ==>
                && app.items == old(app.items) + [StoredItem(newId, name, selectedType)]
                && app.alertMessage == old(app.alertMessage)
                && app.dataService.keychain.entries ==
                     old(app.dataService.keychain.entries)[app.dataService.keychain.Key(newId.uuidString) := EncodeDetails(CurrentForm(), app.dataService).value]
                && (app.dataService.itemsCodec.encode(app.items).Some? ==>
                      app.dataService.defaults.values ==
                        old(app.dataService.defaults.values)[app.dataService.itemsKey := app.dataService.itemsCodec.encode(app.items).value])
                && (app.dataService.itemsCodec.encode(app.items).None? ==>
                      app.dataService.defaults.values == old(app.dataService.defaults.values))
      ensures !old(SaveSucceeds(CurrentForm(), app.dataService, newId, deleteBackend, addBackend)) ==>
                && app.items == old(app.items)
                && app.dataService.defaults.values == old(app.dataService.defaults.values)
                && app.alertMessage.Some? && app.alertMessage.value.EncodingError?
      ensures EncodeDetails(CurrentForm(), app.dataService).None? ==>
                app.alertMessage == Some(EncodingError(EncodingFailed)) &&
                app.dataService.keychain.entries == old(app.dataService.keychain.entries)
      ensures EncodeDetails(CurrentForm(), app.dataService).Some? && !old(SaveSucceeds(CurrentForm(), app.dataService, newId, deleteBackend, addBackend)) ==>
                app.alertMessage == Some(EncodingError(Keychain(SaveFailed(if addBackend.Fault? then addBackend.code else ErrSecDuplicateItem)))) &&
                app.dataService.keychain.entries ==
                  if deleteBackend.Nominal? then old(app.dataService.keychain.entries) - {app.dataService.keychain.Key(newId.uuidString)}
                  else old(app.dataService.keychain.entries)
      ensures selectedType == Password && |app.items| > |old(app.items)| && RoundTrips(app.dataService.passwordCodec) ==>
                app.dataService.GetDecryptedDetails(newId, app.dataService.passwordCodec, Nominal) == Success(Some(PasswordDetails(website, username, secret)))
      ensures selectedType == Card && |app.items| > |old(app.items)| && RoundTrips(app.dataService.cardCodec) ==>
                app.dataService.GetDecryptedDetails(newId, app.dataService.cardCodec, Nominal) == Success(Some(CardDetails(cardHolder, cardNumber, expiry, cvv)))
      ensures old(app.Backed()) && FirstIndex(old(app.items), newId).None? ==> app.Backed()
    {
      var saved := WriteDetails(app, newId, deleteBackend, addBackend);
      if saved.Pass? {
        app.AddItem(StoredItem(newId, name, selectedType));
      } else {
        app.alertMessage := Some(EncodingError(saved.error));
        if old(app.Backed()) && FirstIndex(old(app.items), newId).None? {
          var chain := app.dataService.keychain;
          forall x | x in app.items
            ensures chain.Key(x.id.uuidString) in chain.entries
          {
            assert chain.Key(x.id.uuidString) in old(chain.entries);
            assert x.id != newId;
            assert chain.Key(x.id.uuidString) in old(chain.entries) - {chain.Key(newId.uuidString)};
          }
        }
      }
    }

    /** The `switch` of `saveItem`: the details of the selected type go
        through `addData` under the new id. */
    method WriteDetails(app: AppViewModel, newId: Uuid, deleteBackend: Backend, addBackend: Backend)
      returns (saved: Outcome<DataError>)
      modifies app.dataService.keychain
      ensures saved.Pass? <==> old(SaveSucceeds(CurrentForm(), app.dataService, newId, deleteBackend, addBackend))
      ensures saved.Pass? ==>
                app.dataService.keychain.entries ==
                  old(app.dataService.keychain.entries)[app.dataService.keychain.Key(newId.uuidString) := EncodeDetails(CurrentForm(), app.dataService).value]
      ensures EncodeDetails(CurrentForm(), app.dataService).None? ==>
                saved == Fail(EncodingFailed) && app.dataService.keychain.entries == old(app.dataService.keychain.entries)
      ensures EncodeDetails(CurrentForm(), app.dataService).Some? && saved.Fail? ==>
                saved.error == Keychain(SaveFailed(if addBackend.Fault? then addBackend.code else ErrSecDuplicateItem)) &&
                app.dataService.keychain.entries ==
                  if deleteBackend.Nominal? then old(app.dataService.keychain.entries) - {app.dataService.keychain.Key(newId.uuidString)}
                  else old(app.dataService.keychain.entries)
      ensures app.dataService.keychain.entries - {app.dataService.keychain.Key(newId.uuidString)} ==
                old(app.dataService.keychain.entries) - {app.dataService.keychain.Key(newId.uuidString)}
      ensures selectedType == Password && saved.Pass? && RoundTrips(app.dataService.passwordCodec) ==>
                app.dataService.GetDecryptedDetails(newId, app.dataService.passwordCodec, Nominal) == Success(Some(PasswordDetails(website, username, secret)))
      ensures selectedType == Card && saved.Pass? && RoundTrips(app.dataService.cardCodec) ==>
                app.dataService.GetDecryptedDetails(newId, app.dataService.cardCodec, Nominal) == Success(Some(CardDetails(cardHolder, cardNumber, expiry, cvv)))
    {
      match selectedType {
        case Password =>
          var details := PasswordDetails(website, username, secret);
          saved := app.AddData(details, newId.uuidString, app.dataService.passwordCodec, deleteBackend, addBackend);
        case Card =>
          var details := CardDetails(cardHolder, cardNumber, expiry, cvv);
          saved := app.AddData(details, newId.uuidString, app.dataService.cardCodec, deleteBackend, addBackend);
      }
    }
  }

  /** `ItemDetailViewModel`: decrypts one item's details for display. */
  class ItemDetailViewModel {
    var passwordDetails: Option<PasswordDetails>
    var cardDetails: Option<CardDetails>
    var alertMessage: Option<Alert>
    var showDeleteAlert: bool
    const item: StoredItem
    const dataService: DataService

    constructor (item: StoredItem, dataService: DataService)
      ensures this.item == item && this.dataService == dataService
      ensures passwordDetails.None? && cardDetails.None? && alertMessage.None? && !showDeleteAlert
    {
      this.item := item;
      this.dataService := dataService;
      passwordDetails, cardDetails, alertMessage, showDeleteAlert := None, None, None, false;
    }

    /** `loadDetails()`: reads the details matching the item's type; a missing
        entry shows nothing, and a read or decoding error sets an alert and
        keeps what was shown. */
    method LoadDetails(backend: Backend)
      modifies this`passwordDetails, this`cardDetails, this`alertMessage
      ensures item.itemType == Password ==> cardDetails == old(cardDetails)
      ensures item.itemType == Password ==>
                match dataService.GetDecryptedDetails(item.id, dataService.passwordCodec, backend)
                case Success(v) => passwordDetails == v && alertMessage == old(alertMessage)
                case Failure(e) => passwordDetails == old(passwordDetails) && alertMessage == Some(DecryptFailed(e))
      ensures item.itemType == Card ==> passwordDetails == old(passwordDetails)
      ensures item.itemType == Card ==>
                match dataService.GetDecryptedDetails(item.id, dataService.cardCodec, backend)
                case Success(v) => cardDetails == v && alertMessage == old(alertMessage)
                case Failure(e) => cardDetails == old(cardDetails) && alertMessage == Some(DecryptFailed(e))
    {
      match item.itemType {
        case Password =>
          match dataService.GetDecryptedDetails(item.id, dataService.passwordCodec, backend) {
            case Success(v) => passwordDetails := v;
            case Failure(e) => alertMessage := Some(DecryptFailed(e));
          }
        case Card =>
          match dataService.GetDecryptedDetails(item.id, dataService.cardCodec, backend) {
            case Success(v) => cardDetails := v;
            case Failure(e) => alertMessage := Some(DecryptFailed(e));
          }
      }
    }

    /** `confirmDeletion(appViewModel:)`: deletes this item by id, with
        every effect `deleteItem(withId:)` has. */
    method ConfirmDeletion(app: AppViewModel, backend: Backend)
      modifies app`items, app`alertMessage, app.dataService.keychain, app.dataService.defaults
      ensures FirstIndex(old(app.items), item.id).None? ==>
                app.items == old(app.items) && app.alertMessage == old(app.alertMessage) &&
                app.dataService.keychain.entries == old(app.dataService.keychain.entries) &&
                app.dataService.defaults.values == old(app.dataService.defaults.values)
      ensures FirstIndex(old(app.items), item.id).Some? && backend.Fault? && backend.code != ErrSecItemNotFound ==>
                app.items == old(app.items) &&
                app.alertMessage == Some(Alert.DeleteFailed(Keychain(KeychainError.DeleteFailed(backend.code)))) &&
                app.dataService.keychain.entries == old(app.dataService.keychain.entries) &&
                app.dataService.defaults.values == old(app.dataService.defaults.values)
      ensures FirstIndex(old(app.items), item.id).Some? && (backend.Nominal? || backend.code == ErrSecItemNotFound) ==>
                app.items == WithoutId(old(app.items), item.id) && app.alertMessage == old(app.alertMessage) &&
                app.dataService.keychain.entries ==
                  (if backend.Nominal? then old(app.dataService.keychain.entries) - {app.dataService.keychain.Key(item.id.uuidString)}
                   else old(app.dataService.keychain.entries)) &&
                (app.dataService.itemsCodec.encode(app.items).Some? ==>
                   app.dataService.defaults.values ==
                     old(app.dataService.defaults.values)[app.dataService.itemsKey := app.dataService.itemsCodec.encode(app.items).value]) &&
                (app.dataService.itemsCodec.encode(app.items).None? ==>
                   app.dataService.defaults.values == old(app.dataService.defaults.values))
      ensures forall x :: x in app.items ==> x.id != item.id || app.items == old(app.items)
      ensures old(app.Backed()) ==> app.Backed()
    {
      WithoutIdMembers(app.items, item.id);
      app.DeleteItem(item.id, backend);
    }
  }
}
