/**
 * The sign-in / sign-up page: the tab chosen from the `mode` query value, the required-field
 * checks, and the loading flag, toasts and navigation around the awaited request.
 */
module Auth {

  import opened Wrappers

  datatype Toast = SuccessToast(message: string) | ErrorToast(message: string) | InfoToast(message: string)

  /** The two forms. */
  datatype Action = SignIn | SignUp

  const FillAllFields: string := "Please fill in all fields"

  const CreatorRoute: string := "/creator"

  const PasswordResetNotice: string := "Password reset functionality would be implemented with Supabase Auth"

  /** The tab values the page uses. */
  predicate ValidTab(tab: string)
  {
    tab == "signin" || tab == "signup"
  }

  /** The tab after reading `mode` (null when absent): only an exact tab value switches. */
  function TabAfterQuery(current: string, mode: Option<string>): (tab: string)
    ensures mode.Some? && ValidTab(mode.value) ==> tab == mode.value
    ensures !(mode.Some? && ValidTab(mode.value)) ==> tab == current
    ensures ValidTab(current) ==> ValidTab(tab)
  {
    if mode == Some("signin") || mode == Some("signup") then mode.value else current
  }

  /** Whether the required fields are filled: email and password, and for sign-up also the name. */
  predicate Filled(action: Action, email: string, password: string, name: string)
  {
    email != "" && password != "" && (action == SignUp ==> name != "")
  }

  /** Whatever passes the sign-up check passes the sign-in check; not the other way round. */
  lemma SignUpAsksMore(email: string, password: string, name: string)
    ensures Filled(SignUp, email, password, name) ==> Filled(SignIn, email, password, name)
    ensures email != "" && password != "" && name == "" ==>
      Filled(SignIn, email, password, name) && !Filled(SignUp, email, password, name)
  {
  }

  /** The success toast of each form. */
  function SuccessMessage(action: Action): string
  {
    match action
    case SignIn => "Signed in successfully!"
    case SignUp => "Account created successfully!"
  }

  class AuthPage {
    var email: string
    var password: string
    var name: string
    var isLoading: bool
    var activeTab: string
    /** The toasts raised so far, oldest first. */
    var toasts: seq<Toast>
    /** The routes navigated to so far, oldest first. */
    var navigations: seq<string>
    /** The request being awaited, if any. */
    var pending: Option<Action>

    /** Loading exactly while a request is awaited; the tab is one of the two. */
    predicate Valid()
      reads this
    {
      (isLoading <==> pending.Some?) && ValidTab(activeTab)
    }

    /** Empty fields, not loading, the sign-in tab. */
    constructor ()
      ensures email == "" && password == "" && name == ""
      ensures !isLoading && activeTab == "signin"
      ensures toasts == [] && navigations == [] && pending == None
      ensures Valid()
    {
      email, password, name := "", "", "";
      isLoading := false;
      activeTab := "signin";
      toasts, navigations := [], [];
      pending := None;
    }

    /** The effect on the location: the `mode` query value picks the tab when it names one. */
    method ApplyModeQuery(mode: Option<string>)
      requires Valid()
      modifies this
      ensures Valid()
      ensures activeTab == TabAfterQuery(old(activeTab), mode)
      ensures email == old(email) && password == old(password) && name == old(name)
      ensures isLoading == old(isLoading) && pending == old(pending)
      ensures toasts == old(toasts) && navigations == old(navigations)
    {
      if mode == Some("signin") || mode == Some("signup") {
        activeTab := mode.value;
      }
    }

    /** Clicking a tab. */
    method SelectTab(tab: string)
      requires Valid() && ValidTab(tab)
      modifies this
      ensures Valid()
      ensures activeTab == tab
      ensures email == old(email) && password == old(password) && name == old(name)
      ensures isLoading == old(isLoading) && pending == old(pending)
      ensures toasts == old(toasts) && navigations == old(navigations)
    {
      activeTab := tab;
    }

    /** Typing into the three inputs, which are disabled while loading. */
    method Edit(newEmail: string, newPassword: string, newName: string)
      requires Valid() && !isLoading
      modifies this
      ensures Valid()
      ensures email == newEmail && password == newPassword && name == newName
      ensures isLoading == old(isLoading) && pending == old(pending) && activeTab == old(activeTab)
      ensures toasts == old(toasts) && navigations == old(navigations)
    {
      email, password, name := newEmail, newPassword, newName;
    }

    /**
     * `handleSignIn` and `handleSignUp` up to the `await`: with a required field empty, only the
     * error toast; otherwise loading starts and the request is awaited. The submit buttons are
     * disabled while loading, so no request is already pending.
     */
    method Submit(action: Action)
      requires Valid() && !isLoading
      modifies this
      ensures Valid()
      ensures !Filled(action, email, password, name) ==>
        toasts == old(toasts) + [ErrorToast(FillAllFields)] && !isLoading && pending == None
      ensures Filled(action, email, password, name) ==>
        toasts == old(toasts) && isLoading && pending == Some(action)
      ensures navigations == old(navigations)
      ensures email == old(email) && password == old(password) && name == old(name) && activeTab == old(activeTab)
    {
      var missing := match action
        case SignIn => email == "" || password == ""
        case SignUp => email == "" || password == "" || name == "";
      if missing {
        toasts := toasts + [ErrorToast(FillAllFields)];
        return;
      }
      isLoading := true;
      pending := Some(action);
    }

    /**
     * The rest of the handler once the awaited delay is over: the success toast, navigation to
     * the creator, and the `finally` that ends loading.
     */
    method Complete()
      requires Valid() && pending.Some?
      modifies this
      ensures Valid()
      ensures !isLoading && pending == None
      ensures toasts == old(toasts) + [SuccessToast(SuccessMessage(old(pending).value))]
      ensures navigations == old(navigations) + [CreatorRoute]
      ensures email == old(email) && password == old(password) && name == old(name) && activeTab == old(activeTab)
    {
      toasts := toasts + [SuccessToast(SuccessMessage(pending.value))];
      navigations := navigations + [CreatorRoute];
      isLoading := false;
      pending := None;
    }

    /** "Forgot password?": only an informational toast; the link does not navigate. */
    method ForgotPassword()
      requires Valid()
      modifies this
      ensures Valid()
      ensures toasts == old(toasts) + [InfoToast(PasswordResetNotice)]
      ensures navigations == old(navigations)
      ensures email == old(email) && password == old(password) && name == old(name) && activeTab == old(activeTab)
      ensures isLoading == old(isLoading) && pending == old(pending)
    {
      toasts := toasts + [InfoToast(PasswordResetNotice)];
    }

    /** "Back to Home". */
    method GoHome()
      requires Valid()
      modifies this
      ensures Valid()
      ensures navigations == old(navigations) + ["/"]
      ensures email == old(email) && password == old(password) && name == old(name) && activeTab == old(activeTab)
      ensures isLoading == old(isLoading) && pending == old(pending) && toasts == old(toasts)
    {
      navigations := navigations + ["/"];
    }
  }
}
