/**
 * `KeychainStore<T>`: one keychain entry, named by a service and a unique ID, holding one value
 * of type T. The value is wrapped in a one-entry dictionary before it is encoded.
 */
module KeychainStores {
  import opened Wrappers
  import opened Utf8
  import opened AccessOptions
  import opened SecItem

  /** `KeychainError`: the store's own error has one case. */
  datatype KeychainError = SaveFailure {
    function Description(): string { "Unable to save object to keychain." }
  }

  /** What `save` and `update` throw: the store's error, or the error of a failed encoding. */
  datatype ThrownError = Keychain(error: KeychainError) | EncodingError

  /**
   * The store's encoder and decoder for the wrapping dictionary. Both are left abstract: encoding
   * may fail, and decoding arbitrary bytes may fail or give any dictionary.
   */
  datatype Codec<!T> = Codec(encode: map<string, T> -> Option<Bytes>, decode: Bytes -> Option<map<string, T>>)

  /** The codec decodes whatever it encoded back to the same dictionary. */
  ghost predicate RoundTrips<T(!new)>(codec: Codec<T>) {
    forall d :: codec.encode(d).Some? ==> codec.decode(codec.encode(d).value) == Some(d)
  }

  /** Appended to the unique ID to form the dictionary key. */
  const KeySuffix: string := "-single-object"

  /** `Bundle.main.bundleIdentifier ?? "DefaultService"`, the default service name. */
  function DefaultServiceName(bundleIdentifier: Option<string>): (name: string)
    ensures bundleIdentifier.Some? ==> name == bundleIdentifier.value
    ensures bundleIdentifier.None? ==> name == "DefaultService"
  {
    bundleIdentifier.GetOr("DefaultService")
  }

  /**
   * A store. Its fields never change after `init`; its operations change the keychain, which
   * they receive as a parameter.
   */
  datatype KeychainStore<!T> = KeychainStore(serviceName: string, uniqueID: string, codec: Codec<T>) {

    /** The dictionary key that wraps this store's value. */
    function Key(): string {
      uniqueID + KeySuffix
    }

    /** The one-entry dictionary that is encoded on save. */
    function GenerateDict(obj: T): (d: map<string, T>)
      ensures d.Keys == {Key()} && d[Key()] == obj
    {
      map[Key() := obj]
    }

    /** The value under this store's key, if the dictionary has one. */
    function ExtractObject(d: map<string, T>): (r: Option<T>)
      ensures r.Some? <==> Key() in d
      ensures r.Some? ==> r.value == d[Key()]
    {
      if Key() in d then Some(d[Key()]) else None
    }

    /** The base query: the generic-password item of this service whose account is the UTF-8 unique ID. */
    function GenerateQuery(option: KeychainAccessOption): (q: Query)
      ensures Identity(q) == ItemId()
      ensures q.generic == q.account
      ensures q.accessible == option.Attribute()
      ensures q.valueData.None? && !q.matchLimitOne && !q.returnData
    {
      var encodedIdentifier := Utf8.Encode(uniqueID);
      Query(GenericPassword, serviceName, option.Attribute(), encodedIdentifier, encodedIdentifier,
            None, false, false)
    }

    /** The keychain item this store reads and writes, whatever the access option. */
    function ItemId(): ItemKey {
      ItemKey(GenericPassword, serviceName, Utf8.Encode(uniqueID))
    }

    // Specification of the four operations over the keychain's items.

    /** The value `object()` yields from the given keychain state. */
    function Fetch(items: map<ItemKey, Bytes>, allowed: bool): Option<T> {
      if allowed && ItemId() in items then
        match codec.decode(items[ItemId()])
        case None => None
        case Some(d) => ExtractObject(d)
      else
        None
    }

    /** What `save(object)` reports and leaves in the keychain: the entry ends up holding the payload. */
    function SaveEffect(items: map<ItemKey, Bytes>, allowed: bool, obj: T): (Outcome<ThrownError>, map<ItemKey, Bytes>) {
      match codec.encode(GenerateDict(obj))
      case None => (Fail(EncodingError), items)
      case Some(data) =>
        if allowed then (Pass, items[ItemId() := data]) else (Fail(Keychain(SaveFailure)), items)
    }

    /** What `update(object)` reports and leaves in the keychain: only an existing entry is rewritten. */
    function UpdateEffect(items: map<ItemKey, Bytes>, allowed: bool, obj: T): (Outcome<ThrownError>, map<ItemKey, Bytes>) {
      match codec.encode(GenerateDict(obj))
      case None => (Fail(EncodingError), items)
      case Some(data) =>
        if allowed && ItemId() in items then (Pass, items[ItemId() := data])
        else (Fail(Keychain(SaveFailure)), items)
    }

    /** What `delete()` leaves in the keychain. */
    function DeleteEffect(items: map<ItemKey, Bytes>, allowed: bool): map<ItemKey, Bytes> {
      if allowed then items - {ItemId()} else items
    }

    // The operations.

    /** `save`: adds the entry, and on a duplicate falls through to `update`. */
    method Save(kc: Keychain, obj: T, option: KeychainAccessOption) returns (r: Outcome<ThrownError>)
      modifies kc`items
      ensures (r, kc.items) == SaveEffect(old(kc.items), kc.interactionAllowed, obj)
    {
      var encoded := codec.encode(GenerateDict(obj));
      if encoded.None? {
        return Fail(EncodingError);
      }
      var data := encoded.value;
      var query := GenerateQuery(option);
      query := query.(valueData := Some(data));
      var status := kc.Add(query);
      match status {
        case Success =>
          r := Pass;
        case DuplicateItem =>
          r := Update(kc, obj, option);
        case _ =>
          r := Fail(Keychain(SaveFailure));
      }
    }

    /** `update`: rewrites the entry's payload; fails when the keychain reports anything but success. */
    method Update(kc: Keychain, obj: T, option: KeychainAccessOption) returns (r: Outcome<ThrownError>)
      modifies kc`items
      ensures (r, kc.items) == UpdateEffect(old(kc.items), kc.interactionAllowed, obj)
    {
      var encoded := codec.encode(GenerateDict(obj));
      if encoded.None? {
        return Fail(EncodingError);
      }
      var data := encoded.value;
      var query := GenerateQuery(option);
      query := query.(valueData := Some(data));
      var status := kc.Update(query, data);
      if status == Success {
        r := Pass;
      } else {
        r := Fail(Keychain(SaveFailure));
      }
    }

    /** `object`: never throws; absence, a locked keychain and an undecodable payload all give `None`. */
    method Object(kc: Keychain, option: KeychainAccessOption) returns (r: Option<T>)
      ensures r == Fetch(kc.items, kc.interactionAllowed)
      ensures r.Some? ==> kc.interactionAllowed && ItemId() in kc.items
    {
      var query := GenerateQuery(option);
      query := query.(matchLimitOne := true, returnData := true);
      var status, result := kc.CopyMatching(query);
      if result.None? {
        return None;
      }
      var dict := codec.decode(result.value);
      if dict.None? {
        return None;
      }
      r := ExtractObject(dict.value);
    }

    /** `delete`: never throws; the keychain's status is ignored. */
    method Delete(kc: Keychain, option: KeychainAccessOption)
      modifies kc`items
      ensures kc.items == DeleteEffect(old(kc.items), kc.interactionAllowed)
    {
      var query := GenerateQuery(option);
      var _ := kc.Delete(query);
    }
  }

  // Properties of the specification.

  /** Two stores share a dictionary key exactly when they share a unique ID. */
  lemma KeysDistinct<T>(a: KeychainStore<T>, b: KeychainStore<T>)
    ensures a.Key() == b.Key() <==> a.uniqueID == b.uniqueID
  {
    if a.Key() == b.Key() {
      assert |a.uniqueID| == |b.uniqueID|;
      assert a.uniqueID == a.Key()[..|a.uniqueID|] == b.Key()[..|b.uniqueID|] == b.uniqueID;
    }
  }

  /** Extracting from the dictionary a store generated gives back the object. */
  lemma ExtractGenerated<T>(s: KeychainStore<T>, obj: T)
    ensures s.ExtractObject(s.GenerateDict(obj)) == Some(obj)
  {
  }

  /** A store finds nothing in the dictionary another store with a different unique ID generated. */
  lemma ExtractForeign<T>(a: KeychainStore<T>, b: KeychainStore<T>, obj: T)
    requires a.uniqueID != b.uniqueID
    ensures b.ExtractObject(a.GenerateDict(obj)) == None
  {
    KeysDistinct(a, b);
  }

  /** Two stores address the same item exactly when they share service name and unique ID. */
  lemma SameItemIff<T>(a: KeychainStore<T>, b: KeychainStore<T>, p: KeychainAccessOption, q: KeychainAccessOption)
    ensures Identity(a.GenerateQuery(p)) == Identity(b.GenerateQuery(q))
            <==> a.serviceName == b.serviceName && a.uniqueID == b.uniqueID
  {
    if Identity(a.GenerateQuery(p)) == Identity(b.GenerateQuery(q)) {
      Utf8.EncodeInjective(a.uniqueID, b.uniqueID);
    }
  }

  /** Round trip: after a successful save, `object()` yields the saved value. */
  lemma SaveThenFetch<T(!new)>(s: KeychainStore<T>, items: map<ItemKey, Bytes>, allowed: bool, obj: T)
    requires RoundTrips(s.codec)
    requires s.SaveEffect(items, allowed, obj).0 == Pass
    ensures s.Fetch(s.SaveEffect(items, allowed, obj).1, allowed) == Some(obj)
  {
  }

  /** A save that fails leaves the keychain as it was. */
  lemma SaveFailureChangesNothing<T>(s: KeychainStore<T>, items: map<ItemKey, Bytes>, allowed: bool, obj: T)
    ensures s.SaveEffect(items, allowed, obj).0.Fail? ==> s.SaveEffect(items, allowed, obj).1 == items
    ensures s.SaveEffect(items, allowed, obj).0 == Fail(Keychain(SaveFailure)) <==>
            s.codec.encode(s.GenerateDict(obj)).Some? && !allowed
  {
  }

  /** Saving twice: the second save overwrites the first, and `object()` yields the later value. */
  lemma DuplicateSave<T(!new)>(s: KeychainStore<T>, items: map<ItemKey, Bytes>, allowed: bool, v1: T, v2: T)
    requires RoundTrips(s.codec)
    requires s.SaveEffect(items, allowed, v1).0 == Pass
    ensures var after1 := s.SaveEffect(items, allowed, v1).1;
            s.SaveEffect(after1, allowed, v2) == s.UpdateEffect(after1, allowed, v2)
            && (s.SaveEffect(after1, allowed, v2).0 == Pass ==>
                s.Fetch(s.SaveEffect(after1, allowed, v2).1, allowed) == Some(v2))
  {
  }

  /** Update needs an existing entry: without one it throws `saveFailure` and changes nothing. */
  lemma UpdateWithoutEntryFails<T>(s: KeychainStore<T>, items: map<ItemKey, Bytes>, allowed: bool, obj: T)
    requires s.ItemId() !in items
    requires s.codec.encode(s.GenerateDict(obj)).Some?
    ensures s.UpdateEffect(items, allowed, obj) == (Fail(Keychain(SaveFailure)), items)
  {
  }

  /** A successful update replaces only this store's entry, and `object()` then yields the new value. */
  lemma UpdateThenFetch<T(!new)>(s: KeychainStore<T>, items: map<ItemKey, Bytes>, allowed: bool, obj: T)
    requires RoundTrips(s.codec)
    requires s.UpdateEffect(items, allowed, obj).0 == Pass
    ensures s.ItemId() in items
    ensures s.Fetch(s.UpdateEffect(items, allowed, obj).1, allowed) == Some(obj)
    ensures s.UpdateEffect(items, allowed, obj).1.Keys == items.Keys
  {
  }

  /** `object()` gives `None` when the stored payload does not decode. */
  lemma CorruptPayloadFetchesNone<T>(s: KeychainStore<T>, items: map<ItemKey, Bytes>, allowed: bool)
    requires s.ItemId() in items && s.codec.decode(items[s.ItemId()]).None?
    ensures s.Fetch(items, allowed) == None
  {
  }

  /** Delete is idempotent, and while the keychain is usable nothing is fetched afterwards. */
  lemma DeleteIdempotent<T>(s: KeychainStore<T>, items: map<ItemKey, Bytes>, allowed: bool)
    ensures s.DeleteEffect(s.DeleteEffect(items, allowed), allowed) == s.DeleteEffect(items, allowed)
    ensures allowed ==> s.ItemId() !in s.DeleteEffect(items, allowed)
    ensures s.Fetch(s.DeleteEffect(items, allowed), allowed) == None
  {
  }

  /** `after` holds the same items as `before`, apart from the one under `k`. */
  ghost predicate UnchangedExcept(after: map<ItemKey, Bytes>, before: map<ItemKey, Bytes>, k: ItemKey) {
    forall j :: j != k ==> (j in after <==> j in before) && (j in before ==> after[j] == before[j])
  }

  /**
   * Isolation: saving, updating or deleting through store `a` leaves every other entry of the
   * keychain, and so every value another store `b` can fetch, as it was.
   */
  lemma Isolation<T>(a: KeychainStore<T>, b: KeychainStore<T>, items: map<ItemKey, Bytes>, allowed: bool, obj: T)
    requires a.serviceName != b.serviceName || a.uniqueID != b.uniqueID
    ensures a.ItemId() != b.ItemId()
    ensures b.Fetch(a.SaveEffect(items, allowed, obj).1, allowed) == b.Fetch(items, allowed)
    ensures b.Fetch(a.UpdateEffect(items, allowed, obj).1, allowed) == b.Fetch(items, allowed)
    ensures b.Fetch(a.DeleteEffect(items, allowed), allowed) == b.Fetch(items, allowed)
    ensures UnchangedExcept(a.SaveEffect(items, allowed, obj).1, items, a.ItemId())
    ensures UnchangedExcept(a.UpdateEffect(items, allowed, obj).1, items, a.ItemId())
    ensures UnchangedExcept(a.DeleteEffect(items, allowed), items, a.ItemId())
  {
    SameItemIff(a, b, WhenUnlocked, WhenUnlocked);
  }
}
