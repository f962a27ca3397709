/** `CreateAccountVC`: validates the entered fields, stores the new user and makes it current. */
module CreateAccount {
  import opened Wrappers
  import opened AccessOptions
  import opened SecItem
  import opened KeychainStores
  import opened Accounts
  import opened Profile

  /** The alerts the account screens present; all are titled "Oops". */
  datatype Alert = EmailRequired | PasswordsDoNotMatch | PasswordRequired {
    function Title(): string { "Oops" }

    function Message(): string {
      match this
      case EmailRequired => "You must enter an email address."
      case PasswordsDoNotMatch => "Passwords do not match. Please make sure they match and try again."
      case PasswordRequired => "Please choose a password."
    }
  }

  /** A text field holds text and that text is not empty. */
  predicate Filled(text: Option<string>) {
    text.Some? && text.value != ""
  }

  /** The decision of the guard chain: the credentials to store, or the alert to show. */
  datatype Verdict = Accept(email: string, password: string) | Reject(alert: Alert)

  /**
   * The guards of `handleActionButton`, in order: an email, matching passwords, a password.
   * The first failing guard decides the alert.
   */
  function CheckNewAccount(email: Option<string>, password: Option<string>, confirmation: Option<string>): (v: Verdict)
    ensures v.Accept? <==> Filled(email) && password == confirmation && Filled(password)
    ensures v.Accept? ==> Some(v.email) == email && Some(v.password) == password
    ensures v == Reject(EmailRequired) <==> !Filled(email)
    ensures v == Reject(PasswordsDoNotMatch) <==> Filled(email) && password != confirmation
    ensures v == Reject(PasswordRequired) <==> Filled(email) && password == confirmation && !Filled(password)
  {
    if !Filled(email) then Reject(EmailRequired)
    else if password != confirmation then Reject(PasswordsDoNotMatch)
    else if !Filled(password) then Reject(PasswordRequired)
    else Accept(email.value, password.value)
  }

  class CreateAccountVC {
    var nameText: Option<string>
    var emailText: Option<string>
    var passwordText: Option<string>
    var confirmText: Option<string>
    /** The profile screen to notify; the reference is weak and may be gone. */
    var delegate: ProfileVC?
    const env: Environment

    constructor (env: Environment, delegate: ProfileVC?)
      ensures this.env == env && this.delegate == delegate
      ensures nameText == emailText == passwordText == confirmText == None
    {
      this.env := env;
      this.delegate := delegate;
      nameText, emailText, passwordText, confirmText := None, None, None, None;
    }

    /**
     * `handleActionButton`, with `freshID` standing for the new UUID string. A rejected entry
     * changes nothing. An accepted one is saved under its own ID, the ID becomes the current
     * user's, and the delegate is shown the user, whether or not the save succeeded.
     */
    method HandleActionButton(freshID: string) returns (alert: Option<Alert>)
      modifies env.keychain`items, env.defaults, delegate
      ensures var v := CheckNewAccount(emailText, passwordText, confirmText);
              alert == (if v.Reject? then Some(v.alert) else None)
      ensures alert.Some? ==> unchanged(env.keychain, env.defaults) && (delegate != null ==> unchanged(delegate))
      ensures alert.None? ==>
                var u := User(freshID, nameText, emailText.value, passwordText.value);
                && env.keychain.items == env.UserStore(freshID)
                                           .SaveEffect(old(env.keychain.items), env.keychain.interactionAllowed, u).1
                && env.defaults.currentUserID == Some(freshID)
                && (delegate != null ==> delegate.user == Some(u) && delegate.ButtonMatches())
      ensures alert.None? && RoundTrips(env.codec) &&
              env.UserStore(freshID).SaveEffect(old(env.keychain.items), env.keychain.interactionAllowed,
                                                User(freshID, nameText, emailText.value, passwordText.value)).0 == Pass
              ==> env.CurrentUser() == Some(User(freshID, nameText, emailText.value, passwordText.value))
    {
      var name := nameText;
      if !Filled(emailText) {
        return Some(EmailRequired);
      }
      var email := emailText.value;
      if passwordText != confirmText {
        return Some(PasswordsDoNotMatch);
      }
      if !Filled(passwordText) {
        return Some(PasswordRequired);
      }
      var password := passwordText.value;
      var user := User(freshID, name, email, password);
      var userStore := env.UserStore(user.id);
      ghost var before := env.keychain.items;
      var _ := userStore.Save(env.keychain, user, WhenUnlocked);
      env.defaults.currentUserID := Some(user.id);
      if delegate != null {
        delegate.SetUser(Some(user));
      }
      if RoundTrips(env.codec) && userStore.SaveEffect(before, env.keychain.interactionAllowed, user).0 == Pass {
        SaveThenFetch(userStore, before, env.keychain.interactionAllowed, user);
      }
      alert := None;
    }
  }
}
