/** The two stores behind the vault (iSpace/Persistence.swift): the platform
    keychain, one secret blob per item, and the settings store holding the
    catalog as one blob. The platform calls are modelled as a store that behaves
    like a map unless a `Backend` fault makes the call fail with a status code;
    JSON is a `Codec` pair held by the data service. */
module Persistence {
  import opened Wrappers
  import opened Models

  type Bytes = seq<bv8>

  /** An `OSStatus` result code. */
  type OSStatus = int

  const ErrSecSuccess: OSStatus := 0
  const ErrSecDuplicateItem: OSStatus := -25299
  const ErrSecItemNotFound: OSStatus := -25300

  /** A status that is not success: what a failing backend reports. */
  type FailureStatus = s: OSStatus | s != ErrSecSuccess witness ErrSecItemNotFound

  /** How the platform answers one keychain call: as the store it holds
      (`Nominal`), or with a failure status it chose (`Fault`). */
  datatype Backend = Nominal | Fault(code: FailureStatus)

  /** The service under which every entry of this app is filed. */
  const KeychainService: string := "com.yourapp.securevault"

  /** A generic-password entry is identified by service and account. */
  datatype KeychainKey = KeychainKey(service: string, account: string)

  type Keychain = map<KeychainKey, Bytes>

  /** `SecItemDelete`: removes the entry, or reports that there was none. */
  function SecItemDelete(store: Keychain, key: KeychainKey, backend: Backend): (OSStatus, Keychain)
  {
    match backend
    case Fault(code) => (code, store)
    case Nominal =>
      if key in store then (ErrSecSuccess, store - {key}) else (ErrSecItemNotFound, store)
  }

  /** `SecItemAdd`: adds the entry, refusing to overwrite an existing one. */
  function SecItemAdd(store: Keychain, key: KeychainKey, data: Bytes, backend: Backend): (OSStatus, Keychain)
  {
    match backend
    case Fault(code) => (code, store)
    case Nominal =>
      if key in store then (ErrSecDuplicateItem, store) else (ErrSecSuccess, store[key := data])
  }

  /** `SecItemCopyMatching` with `kSecReturnData` and `kSecMatchLimitOne`. */
  function SecItemCopyMatching(store: Keychain, key: KeychainKey, backend: Backend): (OSStatus, Option<Bytes>)
  {
    match backend
    case Fault(code) => (code, None)
    case Nominal =>
      if key in store then (ErrSecSuccess, Some(store[key])) else (ErrSecItemNotFound, None)
  }

  datatype KeychainError = SaveFailed(status: OSStatus) | ReadFailed(status: OSStatus) | DeleteFailed(status: OSStatus)

  /** `KeychainHelper.shared`: the app's view of the platform keychain. */
  class KeychainHelper {
    const service: string
    /** The platform keychain, every service's entries included. */
    var entries: Keychain

    constructor (existing: Keychain)
      ensures service == KeychainService && entries == existing
    {
      service := KeychainService;
      entries := existing;
    }

    /** The entry an account names within this app's service. */
    function Key(account: string): KeychainKey
      reads this
    {
      KeychainKey(service, account)
    }

    /** Whether `save` goes through: the add succeeds, and the delete before
        it either succeeded or had no entry to remove. */
    predicate SaveGoesThrough(account: string, deleteBackend: Backend, addBackend: Backend)
      reads this
    {
      addBackend.Nominal? && (deleteBackend.Nominal? || Key(account) !in entries)
    }

    /** `save(_:for:)`: an upsert. Any existing entry is deleted first (that
        status is ignored), then the new bytes are added; success leaves exactly
        `data` under the account. A failed add reports `saveFailed` with its
        status, which is `errSecDuplicateItem` when the ignored delete failed on
        an existing entry. Only this account's entry can change. */
    method Save(data: Bytes, account: string, deleteBackend: Backend, addBackend: Backend) returns (r: Outcome<KeychainError>)
      modifies this
      ensures r.Pass? <==> old(SaveGoesThrough(account, deleteBackend, addBackend))
      ensures r.Pass? ==> entries == old(entries)[Key(account) := data]
      ensures r.Fail? ==> r.error == SaveFailed(if addBackend.Fault? then addBackend.code else ErrSecDuplicateItem)
      ensures r.Fail? ==> entries == if deleteBackend.Nominal? then old(entries) - {Key(account)} else old(entries)
      ensures entries - {Key(account)} == old(entries) - {Key(account)}
    {
      var key := KeychainKey(service, account);
      var (_, afterDelete) := SecItemDelete(entries, key, deleteBackend);
      entries := afterDelete;
      var (status, afterAdd) := SecItemAdd(entries, key, data, addBackend);
      entries := afterAdd;
      if status != ErrSecSuccess {
        return Fail(SaveFailed(status));
      }
      return Pass;
    }

    /** `read(for:)`: the stored bytes, `nil` when the platform reports
        `errSecItemNotFound`, and `readFailed` for every other failure. */
    function Read(account: string, backend: Backend): (r: Result<Option<Bytes>, KeychainError>)
      reads this
      ensures backend.Nominal? ==> r == Success(if Key(account) in entries then Some(entries[Key(account)]) else None)
      ensures backend.Fault? && backend.code == ErrSecItemNotFound ==> r == Success(None)
      ensures backend.Fault? && backend.code != ErrSecItemNotFound ==> r == Failure(ReadFailed(backend.code))
    {
      var (status, item) := SecItemCopyMatching(entries, Key(account), backend);
      if status == ErrSecItemNotFound then Success(None)
      else if status != ErrSecSuccess then Failure(ReadFailed(status))
      else Success(item)
    }

    /** `delete(for:)`: succeeds whether or not the entry exists, so deleting
        twice is the same as deleting once; any other failure reports
        `deleteFailed` and changes nothing. */
    method Delete(account: string, backend: Backend) returns (r: Outcome<KeychainError>)
      modifies this
      ensures r.Pass? <==> backend.Nominal? || backend.code == ErrSecItemNotFound
      ensures r.Fail? ==> r.error == DeleteFailed(backend.code)
      ensures entries == if backend.Nominal? then old(entries) - {Key(account)} else old(entries)
      ensures backend.Nominal? ==> Key(account) !in entries
    {
      var (status, after) := SecItemDelete(entries, KeychainKey(service, account), backend);
      entries := after;
      if status != ErrSecSuccess && status != ErrSecItemNotFound {
        return Fail(DeleteFailed(status));
      }
      return Pass;
    }
  }

  /** `UserDefaults.standard`: blobs under string keys. */
  class UserDefaults {
    var values: map<string, Bytes>

    constructor (existing: map<string, Bytes>)
      ensures values == existing
    {
      values := existing;
    }

    /** `data(forKey:)`. */
    function Data(key: string): (r: Option<Bytes>)
      reads this
      ensures r.Some? <==> key in values
      ensures r.Some? ==> r.value == values[key]
    {
      if key in values then Some(values[key]) else None
    }

    /** `set(_:forKey:)`: overwrites one key. */
    method Set(data: Bytes, key: string)
      modifies this
      ensures values == old(values)[key := data]
    {
      values := values[key := data];
    }
  }

  /** `JSONEncoder`/`JSONDecoder` for one type: encoding may throw (`None`),
      decoding may throw on bytes that do not parse (`None`). */
  datatype Codec<!T> = Codec(encode: T -> Option<Bytes>, decode: Bytes -> Option<T>)

  /** What JSON promises and the model takes as a hypothesis where needed:
      whatever was encoded decodes back to itself. */
  ghost predicate RoundTrips<T(!new)>(codec: Codec<T>)
  {
    forall x: T :: codec.encode(x).Some? ==> codec.decode(codec.encode(x).value) == Some(x)
  }

  datatype DataError = EncodingFailed | DecodingFailed | Keychain(error: KeychainError)

  /** The catalog as `loadItemsList` reads it: the decoded list, or `[]` when
      the blob is missing or does not decode. It never fails. */
  function DecodeCatalog(blob: Option<Bytes>, codec: Codec<seq<StoredItem>>): (items: seq<StoredItem>)
    ensures blob.None? ==> items == []
    ensures blob.Some? && codec.decode(blob.value).None? ==> items == []
    ensures blob.Some? && codec.decode(blob.value).Some? ==> items == codec.decode(blob.value).value
  {
    match blob
    case None => []
    case Some(data) =>
      match codec.decode(data)
      case None => []
      case Some(items) => items
  }

  /** A catalog that was encoded is read back unchanged. */
  lemma CatalogRoundTrip(codec: Codec<seq<StoredItem>>, items: seq<StoredItem>)
    requires RoundTrips(codec)
    requires codec.encode(items).Some?
    ensures DecodeCatalog(codec.encode(items), codec) == items
  {
  }

  /** `DataService`: the catalog in the settings store under one key, the
      secrets in the keychain under the item id. */
  class DataService {
    const itemsKey: string
    const keychain: KeychainHelper
    const defaults: UserDefaults
    const itemsCodec: Codec<seq<StoredItem>>
    const passwordCodec: Codec<PasswordDetails>
    const cardCodec: Codec<CardDetails>

    constructor (keychain: KeychainHelper, defaults: UserDefaults, itemsCodec: Codec<seq<StoredItem>>,
                 passwordCodec: Codec<PasswordDetails>, cardCodec: Codec<CardDetails>)
      ensures itemsKey == "storedItemsList"
      ensures this.keychain == keychain && this.defaults == defaults
      ensures this.itemsCodec == itemsCodec && this.passwordCodec == passwordCodec && this.cardCodec == cardCodec
    {
      this.itemsKey := "storedItemsList";
      this.keychain := keychain;
      this.defaults := defaults;
      this.itemsCodec := itemsCodec;
      this.passwordCodec := passwordCodec;
      this.cardCodec := cardCodec;
    }

    /** `loadItemsList()`: never throws; a missing or undecodable blob is an
        empty catalog. */
    function LoadItemsList(): (items: seq<StoredItem>)
      reads defaults
      ensures itemsKey !in defaults.values ==> items == []
      ensures items == DecodeCatalog(defaults.Data(itemsKey), itemsCodec)
    {
      DecodeCatalog(defaults.Data(itemsKey), itemsCodec)
    }

    /** `saveItemsList(_:)`: overwrites the one catalog key; when encoding
        throws, nothing is written and nothing is reported. */
    method SaveItemsList(items: seq<StoredItem>)
      modifies defaults
      ensures itemsCodec.encode(items).Some? ==> defaults.values == old(defaults.values)[itemsKey := itemsCodec.encode(items).value]
      ensures itemsCodec.encode(items).None? ==> defaults.values == old(defaults.values)
      ensures itemsCodec.encode(items).Some? && RoundTrips(itemsCodec) ==> LoadItemsList() == items
    {
      var encoded := itemsCodec.encode(items);
      if encoded.Some? {
        defaults.Set(encoded.value, itemsKey);
      }
    }

    /** `saveData(_:id:)`: encodes first, so an encoding error leaves the
        keychain untouched; then saves under the id, succeeding exactly when
        the keychain write goes through. After a success the details read
        back as the value saved. */
    method SaveData<T(!new)>(data: T, id: string, codec: Codec<T>, deleteBackend: Backend, addBackend: Backend)
      returns (r: Outcome<DataError>)
      modifies keychain
      ensures r.Pass? <==> codec.encode(data).Some? && old(keychain.SaveGoesThrough(id, deleteBackend, addBackend))
      ensures codec.encode(data).None? ==> r == Fail(EncodingFailed) && keychain.entries == old(keychain.entries)
      ensures r.Pass? ==> keychain.entries == old(keychain.entries)[keychain.Key(id) := codec.encode(data).value]
      ensures codec.encode(data).Some? && r.Fail? ==>
                && r.error == Keychain(SaveFailed(if addBackend.Fault? then addBackend.code else ErrSecDuplicateItem))
                && keychain.entries == if deleteBackend.Nominal? then old(keychain.entries) - {keychain.Key(id)} else old(keychain.entries)
      ensures keychain.entries - {keychain.Key(id)} == old(keychain.entries) - {keychain.Key(id)}
      ensures r.Pass? && RoundTrips(codec) ==> GetDecryptedDetails(Uuid(id), codec, Nominal) == Success(Some(data))
    {
      var encoded := codec.encode(data);
      if encoded.None? {
        return Fail(EncodingFailed);
      }
      var saved := keychain.Save(encoded.value, id, deleteBackend, addBackend);
      if saved.Fail? {
        return Fail(Keychain(saved.error));
      }
      return Pass;
    }

    /** `deleteData(for:)`: the keychain delete, its error passed on. */
    method DeleteData(id: string, backend: Backend) returns (r: Outcome<DataError>)
      modifies keychain
      ensures r.Pass? <==> backend.Nominal? || backend.code == ErrSecItemNotFound
      ensures r.Fail? ==> r.error == Keychain(DeleteFailed(backend.code))
      ensures keychain.entries == if backend.Nominal? then old(keychain.entries) - {keychain.Key(id)} else old(keychain.entries)
    {
      var deleted := keychain.Delete(id, backend);
      if deleted.Fail? {
        return Fail(Keychain(deleted.error));
      }
      return Pass;
    }

    /** `getDecryptedDetails(for:)`, for the item with this id: `nil` when
        there is no entry, the decoded value otherwise; read and decoding
        errors are passed on. */
    function GetDecryptedDetails<T>(id: Uuid, codec: Codec<T>, backend: Backend): (r: Result<Option<T>, DataError>)
      reads keychain
      ensures backend.Nominal? && keychain.Key(id.uuidString) !in keychain.entries ==> r == Success(None)
      ensures backend.Nominal? && keychain.Key(id.uuidString) in keychain.entries ==>
                r == match codec.decode(keychain.entries[keychain.Key(id.uuidString)])
                     case Some(v) => Success(Some(v))
                     case None => Failure(DecodingFailed)
      ensures backend.Fault? ==> r == if backend.code == ErrSecItemNotFound then Success(None)
                                      else Failure(Keychain(ReadFailed(backend.code)))
    {
      match keychain.Read(id.uuidString, backend)
      case Failure(e) => Failure(Keychain(e))
      case Success(None) => Success(None)
      case Success(Some(data)) =>
        match codec.decode(data)
        case None => Failure(DecodingFailed)
        case Some(v) => Success(Some(v))
    }
  }
}
