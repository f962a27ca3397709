/** `EditAccountVC`: validates the edited fields and rewrites the stored user. */
module EditAccount {
  import opened Wrappers
  import opened AccessOptions
  import opened SecItem
  import opened KeychainStores
  import opened Accounts
  import opened Profile
  import opened CreateAccount

  /**
   * The guards of the edit screen's `handleActionButton`: matching passwords first, then an
   * email. An empty password is not rejected here.
   */
  function CheckEdit(email: Option<string>, password: Option<string>, confirmation: Option<string>): (r: Option<Alert>)
    ensures r.None? <==> password == confirmation && Filled(email)
    ensures r == Some(PasswordsDoNotMatch) <==> password != confirmation
    ensures r == Some(EmailRequired) <==> password == confirmation && !Filled(email)
  {
    if password != confirmation then Some(PasswordsDoNotMatch)
    else if !Filled(email) then Some(EmailRequired)
    else None
  }

  /**
   * The user an edit produces: same ID; the name becomes any text in the name field, even empty;
   * email and password become the field's text only when it is not empty.
   */
  function MergedUser(user: User, nameText: Option<string>, emailText: Option<string>, passwordText: Option<string>): User {
    User(user.id,
         if nameText.Some? then nameText else user.name,
         if Filled(emailText) then emailText.value else user.email,
         if Filled(passwordText) then passwordText.value else user.password)
  }

  /**
   * The field merge of `saveChangesIfNeeded`: each field replaces the old value when its text
   * differs from it and passes that field's test.
   */
  method MergeFields(user: User, nameText: Option<string>, emailText: Option<string>, passwordText: Option<string>)
    returns (newUser: User)
    ensures newUser == MergedUser(user, nameText, emailText, passwordText)
  {
    var id := user.id;
    var name: Option<string> := user.name;
    var email: string := user.email;
    var password: string := user.password;

    if nameText != user.name {
      if nameText != None {
        name := nameText;
      }
    }

    if emailText != Some(user.email) {
      if emailText.Some? && emailText.value != "" {
        email := emailText.value;
      }
    }

    if passwordText != Some(user.password) {
      if passwordText.Some? && passwordText.value != "" {
        password := passwordText.value;
      }
    }

    newUser := User(id, name, email, password);
  }

  /** An edit never changes the user's ID, and keeps the old email or password when its field is nil or empty. */
  lemma MergeKeeps(user: User, nameText: Option<string>, emailText: Option<string>, passwordText: Option<string>)
    ensures MergedUser(user, nameText, emailText, passwordText).id == user.id
    ensures nameText.None? ==> MergedUser(user, nameText, emailText, passwordText).name == user.name
    ensures !Filled(emailText) ==> MergedUser(user, nameText, emailText, passwordText).email == user.email
    ensures !Filled(passwordText) ==> MergedUser(user, nameText, emailText, passwordText).password == user.password
  {
  }

  /** An edit takes every filled field, and takes the name field's text even when it is empty. */
  lemma MergeTakes(user: User, nameText: Option<string>, emailText: Option<string>, passwordText: Option<string>)
    ensures nameText.Some? ==> MergedUser(user, nameText, emailText, passwordText).name == nameText
    ensures Filled(emailText) ==> MergedUser(user, nameText, emailText, passwordText).email == emailText.value
    ensures Filled(passwordText) ==> MergedUser(user, nameText, emailText, passwordText).password == passwordText.value
  {
  }

  /** Saving the fields as the edit screen fills them from a user gives that user back. */
  lemma MergeUnedited(user: User)
    ensures MergedUser(user, user.name, Some(user.email), Some(user.password)) == user
  {
  }

  /** The two screens order their guards differently: with no email and mismatched passwords, they show different alerts. */
  lemma GuardOrderDiffers(password: Option<string>, confirmation: Option<string>)
    requires password != confirmation
    ensures CheckNewAccount(None, password, confirmation) == Reject(EmailRequired)
    ensures CheckEdit(None, password, confirmation) == Some(PasswordsDoNotMatch)
  {
  }

  class EditAccountVC {
    var user: Option<User>
    var nameText: Option<string>
    var emailText: Option<string>
    var passwordText: Option<string>
    var confirmText: Option<string>
    /** The profile screen to notify; the reference is weak and may be gone. */
    var delegate: ProfileVC?
    const env: Environment

    /** `init(user:)`: the fields start out holding the user's name, email and password. */
    constructor (env: Environment, delegate: ProfileVC?, user: Option<User>)
      ensures this.env == env && this.delegate == delegate && this.user == user
      ensures user.Some? ==> nameText == user.value.name && emailText == Some(user.value.email)
                             && passwordText == Some(user.value.password) && confirmText == passwordText
      ensures user.None? ==> nameText == emailText == passwordText == confirmText == None
    {
      this.env := env;
      this.delegate := delegate;
      this.user := user;
      nameText, emailText, passwordText, confirmText := None, None, None, None;
      if user.Some? {
        nameText := user.value.name;
        emailText := Some(user.value.email);
        passwordText := Some(user.value.password);
        confirmText := Some(user.value.password);
      }
    }

    /** The user the current field contents turn the edited user into. */
    ghost function Edited(): User
      requires user.Some?
      reads this
    {
      MergedUser(user.value, nameText, emailText, passwordText)
    }

    /** What `update` of the edited user reports, and the items it leaves, from the given keychain items. */
    ghost function UpdateOf(itemsBefore: map<ItemKey, Bytes>): (Outcome<ThrownError>, map<ItemKey, Bytes>)
      requires user.Some?
      reads this, env.keychain
    {
      env.UserStore(user.value.id).UpdateEffect(itemsBefore, env.keychain.interactionAllowed, Edited())
    }

    /** `saveChangesIfNeeded`: updates the stored user with the merged fields; without a user it does nothing. */
    method SaveChangesIfNeeded()
      modifies env.keychain`items, delegate
      ensures user.None? ==> unchanged(env.keychain) && (delegate != null ==> unchanged(delegate))
      ensures user.Some? ==> env.keychain.items == UpdateOf(old(env.keychain.items)).1
      ensures user.Some? && delegate != null ==>
                if UpdateOf(old(env.keychain.items)).0.Pass? then delegate.user == Some(Edited()) && delegate.ButtonMatches()
                else unchanged(delegate)
    {
      if user.Some? {
        var current := user.value;
        var userStore := env.UserStore(current.id);
        var newUser := MergeFields(current, nameText, emailText, passwordText);
        var r := userStore.Update(env.keychain, newUser, WhenUnlocked);
        if r.Pass? && delegate != null {
          delegate.SetUser(Some(newUser));
        }
      }
    }

    /** `handleActionButton`: checks the fields, then saves the changes. */
    method HandleActionButton() returns (alert: Option<Alert>)
      modifies env.keychain`items, delegate
      ensures alert == CheckEdit(emailText, passwordText, confirmText)
      ensures alert.Some? || user.None? ==> unchanged(env.keychain) && (delegate != null ==> unchanged(delegate))
      ensures alert.None? && user.Some? ==> Edited().email == emailText.value
      ensures alert.None? && user.Some? ==> env.keychain.items == UpdateOf(old(env.keychain.items)).1
      ensures alert.None? && user.Some? && delegate != null ==>
                if UpdateOf(old(env.keychain.items)).0.Pass? then delegate.user == Some(Edited()) && delegate.ButtonMatches()
                else unchanged(delegate)
    {
      if passwordText != confirmText {
        return Some(PasswordsDoNotMatch);
      }
      if emailText == None || emailText == Some("") {
        return Some(EmailRequired);
      }
      SaveChangesIfNeeded();
      alert := None;
    }
  }
}
