# Keychain account profile, modelled in Dafny

The app keeps one account profile (ID, optional name, email, password) in the iOS keychain. The
only real logic is `KeychainStore<T>`. It stores one value in one generic-password keychain item,
identified by a service name and a unique ID. The value is wrapped in a one-entry dictionary
`["<uniqueID>-single-object": value]` and then encoded. Three screens call the store:

- the create-account screen validates its fields, saves a new user under a fresh ID and remembers
  that ID in the "currentUserID" user default;
- the edit screen validates its fields, merges them into the current user and updates the entry;
- the profile screen looks the current user up and runs the confirmed delete.

The model has one module per source file of the core, plus three supporting modules (`Wrappers`, `Utf8`, `SecItem`):

- `Utf8` holds the encoding of the unique ID into the item's account attribute.
- `AccessOptions` holds `KeychainAccessOption` and its attribute.
- `SecItem` is the keychain itself: a class whose `items` map goes from item identity to bytes. Its
  methods are the four `SecItem…` calls.
- `KeychainStores` is the store, a datatype whose fields never change. Each operation is a method
  of that datatype that receives the `Keychain` and changes its `items`. Each is proved equal to a
  specification function (`SaveEffect`, `UpdateEffect`, `Fetch`, `DeleteEffect`). The lemmas about
  those functions state the round trips, duplicate save, isolation and idempotent delete.
- `Accounts` holds `User`, the user defaults and the app environment.
- `Profile`, `CreateAccount` and `EditAccount` hold the three screens' logic, as classes whose fields
  are the state the source updates.

Modelling choices:

- The keychain's only failure beyond "duplicate" and "not found" is `interactionAllowed = false`.
  That is the device being locked, which iOS reports as `errSecInteractionNotAllowed`. While it is
  false, every keychain call fails and changes nothing. This is what makes the "any other status"
  branch of `save` reachable, and it is why `object()` can return nil on denied access.
- The JSON encoder and decoder are a `Codec` of two abstract functions. Encoding may fail. The
  round-trip law `RoundTrips(codec)` is a hypothesis of the lemmas that need it, not an axiom.
- The UUID string, the bundle identifier and the keychain's lock state are parameters.
- `update` puts `kSecValueData` into its search query (KeychainStore.swift:44-45). The model keeps
  that entry in the query, but item matching ignores it: the keychain here identifies an item by
  class, service and account only. Whether the real keychain also matches on the old data is an
  open question. If it does, `update` after a change of payload would report "not found".

## Model

| member | source | states |
|---|---|---|
| `Utf8.EncodeScalar` | Keychain/KeychainStore/KeychainStore.swift:112 | each character becomes 1 to 4 bytes; the lead byte announces the length; every later byte is a continuation byte |
| `Utf8.Encode` | Keychain/KeychainStore/KeychainStore.swift:112 | `uniqueID.data(using: .utf8)` is never nil and is between one and four bytes per character |
| `Utf8.DecodeEncodeScalar` | Keychain/KeychainStore/KeychainStore.swift:112 | decoding an encoded character gives back its code point |
| `Utf8.ScalarInjective` | Keychain/KeychainStore/KeychainStore.swift:112 | two characters with the same bytes are equal |
| `Utf8.EncodeInjective` | Keychain/KeychainStore/KeychainStore.swift:112-114 | distinct unique IDs give distinct encoded identifiers |
| `AccessOptions.KeychainAccessOption.Attribute` | Keychain/KeychainStore/KeychainAccessOption.swift:17-24 | both options select a readable-only-while-unlocked attribute; the attribute is device-bound exactly for `thisDeviceOnly` (WhenUnlocked maps to `kSecAttrAccessibleWhenUnlocked`, ThisDeviceOnly to `kSecAttrAccessibleWhenUnlockedThisDeviceOnly`) |
| `AccessOptions.AllCasesComplete` | Keychain/KeychainStore/KeychainAccessOption.swift:10-13 | the enumeration has exactly the two distinct cases `whenUnlocked` and `thisDeviceOnly` |
| `AccessOptions.AttributeInjective` | Keychain/KeychainStore/KeychainAccessOption.swift:17-24 | the mapping is total and injective: the two options never share an attribute |
| `SecItem.Keychain.Add` | Keychain/KeychainStore/KeychainStore.swift:29 | `SecItemAdd` creates the item when it is absent and reports a duplicate when it is present |
| `SecItem.Keychain.Update` | Keychain/KeychainStore/KeychainStore.swift:48 | `SecItemUpdate` rewrites the item's data only if the item exists, and reports "not found" otherwise |
| `SecItem.Keychain.CopyMatching` | Keychain/KeychainStore/KeychainStore.swift:65 | `SecItemCopyMatching` returns the item's data exactly when the item exists and data is asked for |
| `SecItem.Keychain.Delete` | Keychain/KeychainStore/KeychainStore.swift:82 | `SecItemDelete` removes the item if present; absent is "not found" with nothing changed |
| `KeychainStores.DefaultServiceName` | Keychain/KeychainStore/KeychainStore.swift:18 | the default service is the bundle identifier, or "DefaultService" when there is none |
| `KeychainStores.KeychainStore.GenerateDict` | Keychain/KeychainStore/KeychainStore.swift:97-99 | the payload dictionary has exactly one key, the store's key, holding the object |
| `KeychainStores.KeychainStore.ExtractObject` | Keychain/KeychainStore/KeychainStore.swift:102-104 | yields a value exactly when the store's key is in the dictionary, and then the value under it |
| `KeychainStores.KeychainStore.GenerateQuery` | Keychain/KeychainStore/KeychainStore.swift:107-117 | whatever the option, the query addresses this store's item (generic password, service, UTF-8 ID); it uses the same identifier for the generic and account attributes and carries the option's attribute |
| `KeychainStores.KeychainStore.Save` | Keychain/KeychainStore/KeychainStore.swift:24-38 | the add-then-update-on-duplicate chain equals one write. An encoding error is thrown as is; a locked keychain throws `saveFailure`; otherwise the entry holds the new payload, whether it existed before or not |
| `KeychainStores.KeychainStore.Update` | Keychain/KeychainStore/KeychainStore.swift:42-55 | throws `saveFailure` unless the entry exists and the keychain is usable; on success only this entry's payload is replaced |
| `KeychainStores.KeychainStore.Object` | Keychain/KeychainStore/KeychainStore.swift:59-76 | never throws; returns the decoded value under the key. Returns nil when nothing is found, access is denied, decoding fails or the key is missing; a value only ever comes from this store's entry |
| `KeychainStores.KeychainStore.Delete` | Keychain/KeychainStore/KeychainStore.swift:80-83 | never throws; removes this store's entry (when the keychain is usable) and nothing else |
| `KeychainStores.KeysDistinct` | Keychain/KeychainStore/KeychainStore.swift:92-94 | the key is the unique ID followed by "-single-object", so two stores share a key exactly when they share a unique ID |
| `KeychainStores.ExtractGenerated` | Keychain/KeychainStore/KeychainStore.swift:97-104 | `extractObject(generateDict(o))` is `o` |
| `KeychainStores.ExtractForeign` | Keychain/KeychainStore/KeychainStore.swift:97-104 | a dictionary generated by a store with another unique ID yields nil |
| `KeychainStores.SameItemIff` | Keychain/KeychainStore/KeychainStore.swift:107-117 | two stores' queries address the same item exactly when service name and unique ID agree; the access option plays no part |
| `KeychainStores.SaveThenFetch` | Keychain/KeychainStore/KeychainStore.swift:24-38 | round trip: after a successful save, `object()` returns the saved value |
| `KeychainStores.SaveFailureChangesNothing` | Keychain/KeychainStore/KeychainStore.swift:36-37 | a failed save leaves the keychain unchanged; `saveFailure` arises exactly when encoding worked but the keychain refused |
| `KeychainStores.DuplicateSave` | Keychain/KeychainStore/KeychainStore.swift:33-34 | a second save on an existing entry behaves as `update`, and `object()` then returns the later value |
| `KeychainStores.UpdateWithoutEntryFails` | Keychain/KeychainStore/KeychainStore.swift:42-55 | `update` with no entry throws `saveFailure` and changes nothing |
| `KeychainStores.UpdateThenFetch` | Keychain/KeychainStore/KeychainStore.swift:42-55 | a successful update needs an existing entry, adds no item, and `object()` then returns the new value |
| `KeychainStores.CorruptPayloadFetchesNone` | Keychain/KeychainStore/KeychainStore.swift:71-73 | an undecodable payload makes `object()` return nil rather than fail |
| `KeychainStores.DeleteIdempotent` | Keychain/KeychainStore/KeychainStore.swift:80-83 | deleting twice is the same as once; afterwards `object()` returns nil |
| `KeychainStores.Isolation` | Keychain/KeychainStore/KeychainStore.swift:107-117 | stores with different service or ID address different items; save, update and delete through one never change what the other fetches, nor any other entry |
| `Accounts.Environment.UserStore` | Keychain/KeychainStore/KeychainStore.swift:18-21 | `KeychainStore<User>(uniqueID:)` is the store for that ID under the default service name |
| `Profile.ProfileVC.GetUser` | Keychain/Controllers/ProfileVC.swift:35-42 | the shown user is nil without a "currentUserID"; otherwise it is the store's `object()` for that ID; the button is rewired to match |
| `Profile.ProfileVC.SetUser` | Keychain/Controllers/ProfileVC.swift:45-49 | records the given user and rewires the button |
| `Profile.ProfileVC.UpdateActionButton` | Keychain/Controllers/ProfileVC.swift:57-70 | after the update exactly one target is attached: delete (titled "Delete account") exactly when a user is present, create ("Create account") otherwise |
| `Profile.ProfileVC.ConfirmDeleteAccount` | Keychain/Controllers/ProfileVC.swift:90-99 | with a "currentUserID": that entry is deleted, the preference is cleared and the user becomes nil. Without one: store, preference, user and button are unchanged. Either way `getUser` then yields nil |
| `CreateAccount.CheckNewAccount` | Keychain/Controllers/CreateAccountVC.swift:48-59 | checks run email, then match, then password. A nil or empty email is rejected with "You must enter an email address." even when the other checks fail too. A mismatch is rejected next, then a nil or empty password ("Please choose a password."). Acceptance holds exactly when all three pass |
| `CreateAccount.CreateAccountVC.HandleActionButton` | Keychain/Controllers/CreateAccountVC.swift:45-68 | a rejected entry changes nothing. An accepted one saves User(fresh ID, name field as is, email, password) under a store keyed by that ID, sets "currentUserID" to the ID and hands the user to the delegate, even when the save fails. After a successful save, `getUser` finds that user |
| `EditAccount.CheckEdit` | Keychain/Controllers/EditAccountVC.swift:38-50 | a password/confirmation mismatch is rejected first; then a nil or empty email is rejected; an empty password is not |
| `EditAccount.MergeFields` | Keychain/Controllers/EditAccountVC.swift:60-83 | the merge with its "differs" tests equals `MergedUser`: the ID is kept; the name field's text replaces the name whenever it is non-nil (even empty); email and password are replaced only by non-empty text |
| `EditAccount.MergeKeeps` | Keychain/Controllers/EditAccountVC.swift:60-83 | the ID never changes; a nil name field keeps the name; a nil or empty email or password field keeps the old value |
| `EditAccount.MergeTakes` | Keychain/Controllers/EditAccountVC.swift:65-81 | a non-nil name field is taken even when empty; a non-empty email or password field is taken |
| `EditAccount.MergeUnedited` | Keychain/Controllers/EditAccountVC.swift:21-31 | saving the fields exactly as `init(user:)` filled them gives the same user back |
| `EditAccount.GuardOrderDiffers` | Keychain/Controllers/EditAccountVC.swift:40-47 | with no email and mismatched passwords, the create screen says "email" but the edit screen says "passwords do not match" |
| `EditAccount.EditAccountVC.constructor` | Keychain/Controllers/EditAccountVC.swift:21-31 | the fields start out holding the user's name, email and password (twice) |
| `EditAccount.EditAccountVC.SaveChangesIfNeeded` | Keychain/Controllers/EditAccountVC.swift:57-97 | with no user the store and delegate are untouched. Otherwise the store of the user's ID is updated with the merged user, and the delegate receives it only if `update` succeeded |
| `EditAccount.EditAccountVC.HandleActionButton` | Keychain/Controllers/EditAccountVC.swift:38-50 | a rejected entry changes nothing. An accepted one always carries the field's email into the merged user, then performs `saveChangesIfNeeded` |

## Left out

- `CreateAccount.CheckNewAccount`: compares the password with its confirmation code point by code point. Swift's `String ==` uses Unicode canonical equivalence, so a precomposed and a decomposed spelling of the same text match in the source but are a mismatch here. Unicode normalisation is not modelled.
- `EditAccount.CheckEdit`: the same code-point comparison of password and confirmation; canonically equivalent spellings match in the source.
- `EditAccount.MergeFields`: its "differs" tests compare by code points. When a field holds a canonically equivalent but differently spelled text, the source keeps the old spelling and the model takes the new one.
- `KeychainStores.ExtractForeign`: treats canonically equivalent but differently spelled unique IDs as different keys, whereas a Swift dictionary lookup finds the value. The app's IDs are ASCII UUID strings, for which the two notions agree.
- `KeychainStores.KeychainStore.Delete`: the entry is gone afterwards only while the keychain allows interaction. When the device is locked the model's `SecItemDelete` changes nothing, and `delete` ignores the status.
- `KeychainStores.SaveThenFetch`, `KeychainStores.DuplicateSave`, `KeychainStores.UpdateThenFetch` and `CreateAccount.CreateAccountVC.HandleActionButton`: the round trip holds under the hypothesis that the codec decodes what it encoded. The JSON format itself is not modelled.
- How `kSecAttrAccessible` takes part in matching and in the actual lock behaviour is not modelled. The option only selects the attribute placed in the query.
- The stray `kSecValueData` in `update`'s search query (KeychainStore.swift:44-45) is kept in the query but ignored by matching; see the open question above.
- `kSecMatchLimitOne` has no effect in the model, since an identity addresses at most one item.
- The keychain's error codes other than duplicate, not found and interaction not allowed (for example `errSecParam`) are not modelled. All of them would take the same `saveFailure` path in `save` and `update`.
- UIKit presentation: layout, constraints, scroll insets, keyboard notifications, first-responder chaining, haptics, titles other than the action button's, colours, dismissal and `print` logging. Alerts are returned as values.
- `handleCreateAccount`, `handleEditAccountButton` and the cancel branch of `handleDeleteAccount`, because they only present screens. `updateProfileCard` and `ProfileCard`/`CustomTextfield` are view state.
- Extensions.swift is a private UIKit call.
- `UUID()` generation, `Bundle.main` and `UserDefaults` persistence. The UUID and bundle identifier are parameters, and the preference is one optional-string field.
- The `ProfileVCDelegate` protocol is replaced by its one implementation, `ProfileVC`. The weak reference is an optional field.
- `EditAccountVC` inherits from `CreateAccountVC` in the source. Here it is a separate class that reuses the alert type and the `Filled` test.
