/** The two access policies a caller may choose for a keychain entry, and the attribute each selects. */
module AccessOptions {

  /**
   * The values of the `kSecAttrAccessible` attribute. Each says when an item can be read
   * and whether it may leave the device in a backup.
   */
  datatype Accessibility =
    | AccessibleWhenPasscodeSetThisDeviceOnly
    | AccessibleWhenUnlocked
    | AccessibleWhenUnlockedThisDeviceOnly
    | AccessibleAfterFirstUnlock
    | AccessibleAfterFirstUnlockThisDeviceOnly
  {
    /** The item can be read only while the device is unlocked. */
    predicate OnlyWhenUnlocked() {
      AccessibleWhenPasscodeSetThisDeviceOnly? || AccessibleWhenUnlocked? || AccessibleWhenUnlockedThisDeviceOnly?
    }

    /** The item is left out of backups restored to another device. */
    predicate ThisDeviceOnly() {
      !AccessibleWhenUnlocked? && !AccessibleAfterFirstUnlock?
    }
  }

  /** `KeychainAccessOption`; the Swift enum is `CaseIterable`. */
  datatype KeychainAccessOption = WhenUnlocked | ThisDeviceOnly {

    /** The accessibility attribute the option puts in every query. */
    function Attribute(): (a: Accessibility)
      ensures a.OnlyWhenUnlocked() && a != AccessibleWhenPasscodeSetThisDeviceOnly
      ensures a.ThisDeviceOnly() <==> this == ThisDeviceOnly
    {
      match this
      case WhenUnlocked => AccessibleWhenUnlocked
      case ThisDeviceOnly => AccessibleWhenUnlockedThisDeviceOnly
    }
  }

  /** `KeychainAccessOption.allCases`, in declaration order. */
  const AllCases: seq<KeychainAccessOption> := [WhenUnlocked, ThisDeviceOnly]

  /** The enumeration has exactly the two cases listed in `AllCases`. */
  lemma AllCasesComplete(o: KeychainAccessOption)
    ensures o in AllCases
    ensures |AllCases| == 2 && AllCases[0] != AllCases[1]
  {
  }

  /** `Attribute` is injective: the two options never select the same attribute. */
  lemma AttributeInjective(o: KeychainAccessOption, p: KeychainAccessOption)
    ensures o.Attribute() == p.Attribute() <==> o == p
  {
  }
}
