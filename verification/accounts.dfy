/** The account record, the preference that remembers the current account, and the app's environment. */
module Accounts {
  import opened Wrappers
  import opened AccessOptions
  import opened SecItem
  import opened KeychainStores

  /** `User`. */
  datatype User = User(id: string, name: Option<string>, email: string, password: string)

  /** The standard user defaults; only the "currentUserID" key is used. */
  class Preferences {
    var currentUserID: Option<string>

    constructor (currentUserID: Option<string>)
      ensures this.currentUserID == currentUserID
    {
      this.currentUserID := currentUserID;
    }
  }

  /**
   * What the screens share: the keychain, the user defaults, the bundle identifier that names
   * the default service, and the JSON coder of the user store.
   */
  datatype Environment = Environment(
    keychain: Keychain,
    defaults: Preferences,
    bundleIdentifier: Option<string>,
    codec: Codec<User>)
  {
    /** `KeychainStore<User>(uniqueID: id)`, a store under the default service name. */
    function UserStore(id: string): (s: KeychainStore<User>)
      ensures s.uniqueID == id && s.codec == codec
      ensures s.serviceName == DefaultServiceName(bundleIdentifier)
    {
      KeychainStore(DefaultServiceName(bundleIdentifier), id, codec)
    }

    /** The user the profile screen finds: the stored user of the remembered ID, if any. */
    function CurrentUser(): Option<User>
      reads defaults, keychain
    {
      match defaults.currentUserID
      case None => None
      case Some(id) => UserStore(id).Fetch(keychain.items, keychain.interactionAllowed)
    }
  }
}
