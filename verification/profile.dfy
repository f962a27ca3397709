/** `ProfileVC`: shows the current user and offers to create or delete the account. */
module Profile {
  import opened Wrappers
  import opened AccessOptions
  import opened SecItem
  import opened KeychainStores
  import opened Accounts

  /** The two actions the screen's button can be wired to. */
  datatype ButtonAction = CreateAccount | DeleteAccount

  /** The button's target: delete when a user is shown, create otherwise. */
  function ActionFor(user: Option<User>): ButtonAction {
    if user.Some? then DeleteAccount else CreateAccount
  }

  /** The button's title for an action. */
  function TitleFor(action: ButtonAction): string {
    match action
    case CreateAccount => "Create account"
    case DeleteAccount => "Delete account"
  }

  class ProfileVC {
    var user: Option<User>
    var buttonTitle: string
    /** The actions attached to the button for touch-up-inside. */
    var targets: set<ButtonAction>
    const env: Environment

    constructor (env: Environment)
      ensures this.env == env && user == None && targets == {}
    {
      this.env := env;
      user := None;
      buttonTitle := "";
      targets := {};
    }

    /** The button is wired to exactly the action that fits the shown user. */
    ghost predicate ButtonMatches()
      reads this
    {
      targets == {ActionFor(user)} && buttonTitle == TitleFor(ActionFor(user))
    }

    /** `getUser`: looks up the remembered user and shows it. */
    method GetUser()
      modifies this
      ensures user == env.CurrentUser()
      ensures user.Some? ==> old(env.defaults.currentUserID).Some?
      ensures ButtonMatches()
    {
      var currentUser: Option<User> := None;
      if env.defaults.currentUserID.Some? {
        var userStore := env.UserStore(env.defaults.currentUserID.value);
        currentUser := userStore.Object(env.keychain, WhenUnlocked);
      }
      SetUser(currentUser);
    }

    /** `set(user:)`: records the user and rewires the button. */
    method SetUser(user: Option<User>)
      modifies this
      ensures this.user == user
      ensures ButtonMatches()
    {
      this.user := user;
      UpdateActionButton(user);
    }

    /** `updateActionButton(user:)`: removes both targets, then attaches the one the user calls for. */
    method UpdateActionButton(user: Option<User>)
      modifies this`targets, this`buttonTitle
      ensures targets == {ActionFor(user)} && |targets| == 1
      ensures DeleteAccount in targets <==> user.Some?
      ensures buttonTitle == TitleFor(ActionFor(user))
    {
      assert targets <= {CreateAccount, DeleteAccount} by {
        forall a | a in targets ensures a in {CreateAccount, DeleteAccount} {
          if a.CreateAccount? { } else { }
        }
      }
      targets := targets - {CreateAccount};
      targets := targets - {DeleteAccount};
      if user.Some? {
        buttonTitle := "Delete account";
        targets := targets + {DeleteAccount};
      } else {
        buttonTitle := "Create account";
        targets := targets + {CreateAccount};
      }
    }

    /** The "Yes, delete" branch of `handleDeleteAccount`. */
    method ConfirmDeleteAccount()
      modifies this, env.keychain`items, env.defaults
      ensures old(env.defaults.currentUserID).Some? ==>
                && env.keychain.items == env.UserStore(old(env.defaults.currentUserID).value)
                                           .DeleteEffect(old(env.keychain.items), env.keychain.interactionAllowed)
                && env.defaults.currentUserID == None
                && user == None && ButtonMatches()
      ensures old(env.defaults.currentUserID).None? ==>
                unchanged(env.keychain, env.defaults)
                && user == old(user) && targets == old(targets) && buttonTitle == old(buttonTitle)
      ensures env.CurrentUser() == None
    {
      if env.defaults.currentUserID.Some? {
        var id := env.defaults.currentUserID.value;
        var userStore := env.UserStore(id);
        userStore.Delete(env.keychain, WhenUnlocked);
        env.defaults.currentUserID := None;
        SetUser(None);
      }
    }
  }
}
