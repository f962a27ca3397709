/**
 * The operating system's keychain as the store sees it: generic-password items identified by
 * item class, service and account, each holding a blob of bytes. Only the four calls the store
 * makes are modelled, through their effect on a map.
 */
module SecItem {
  import opened Wrappers
  import opened Utf8
  import opened AccessOptions

  type Bytes = seq<byte>

  /** `kSecClass`; the store only ever uses `kSecClassGenericPassword`. */
  datatype ItemClass = GenericPassword

  /**
   * A query dictionary. The optional entries are the ones a caller adds after building the
   * base query: `kSecValueData`, `kSecMatchLimit: kSecMatchLimitOne` and `kSecReturnData: true`.
   */
  datatype Query = Query(
    itemClass: ItemClass,
    service: string,
    accessible: Accessibility,
    generic: Bytes,
    account: Bytes,
    valueData: Option<Bytes>,
    matchLimitOne: bool,
    returnData: bool)

  /** What identifies one generic-password item. */
  datatype ItemKey = ItemKey(itemClass: ItemClass, service: string, account: Bytes)

  /** The item a query addresses. Accessibility, the generic attribute and the payload do not take part. */
  function Identity(q: Query): ItemKey {
    ItemKey(q.itemClass, q.service, q.account)
  }

  /** The `OSStatus` codes the four calls can report here. */
  datatype Status = Success | DuplicateItem | ItemNotFound | InteractionNotAllowed

  class Keychain {
    /** The stored items. */
    var items: map<ItemKey, Bytes>
    /** False while the device is locked: every call then reports `InteractionNotAllowed`. */
    var interactionAllowed: bool

    constructor (interactionAllowed: bool)
      ensures items == map[] && this.interactionAllowed == interactionAllowed
    {
      items := map[];
      this.interactionAllowed := interactionAllowed;
    }

    /** `SecItemAdd`: creates the item unless one with the same identity exists. */
    method Add(query: Query) returns (status: Status)
      modifies this`items
      ensures status == (if !interactionAllowed then InteractionNotAllowed
                         else if Identity(query) in old(items) then DuplicateItem
                         else Success)
      ensures items == (if status == Success then old(items)[Identity(query) := query.valueData.GetOr([])]
                        else old(items))
    {
      if !interactionAllowed {
        status := InteractionNotAllowed;
      } else if Identity(query) in items {
        status := DuplicateItem;
      } else {
        items := items[Identity(query) := query.valueData.GetOr([])];
        status := Success;
      }
    }

    /** `SecItemUpdate`: replaces the data of the item the search query addresses, if there is one. */
    method Update(query: Query, newData: Bytes) returns (status: Status)
      modifies this`items
      ensures status == (if !interactionAllowed then InteractionNotAllowed
                         else if Identity(query) !in old(items) then ItemNotFound
                         else Success)
      ensures items == (if status == Success then old(items)[Identity(query) := newData] else old(items))
    {
      if !interactionAllowed {
        status := InteractionNotAllowed;
      } else if Identity(query) !in items {
        status := ItemNotFound;
      } else {
        items := items[Identity(query) := newData];
        status := Success;
      }
    }

    /** `SecItemCopyMatching`: the item's data, when it exists and the query asks for data. */
    method CopyMatching(query: Query) returns (status: Status, result: Option<Bytes>)
      ensures status == Success <==> interactionAllowed && Identity(query) in items
      ensures result == (if status == Success && query.returnData then Some(items[Identity(query)]) else None)
    {
      if !interactionAllowed {
        status, result := InteractionNotAllowed, None;
      } else if Identity(query) !in items {
        status, result := ItemNotFound, None;
      } else {
        status := Success;
        result := if query.returnData then Some(items[Identity(query)]) else None;
      }
    }

    /** `SecItemDelete`: removes the item the query addresses, if there is one. */
    method Delete(query: Query) returns (status: Status)
      modifies this`items
      ensures status == (if !interactionAllowed then InteractionNotAllowed
                         else if Identity(query) !in old(items) then ItemNotFound
                         else Success)
      ensures items == (if interactionAllowed then old(items) - {Identity(query)} else old(items))
    {
      if !interactionAllowed {
        status := InteractionNotAllowed;
      } else if Identity(query) !in items {
        status := ItemNotFound;
      } else {
        items := items - {Identity(query)};
        status := Success;
      }
    }
  }
}
