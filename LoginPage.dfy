/**
 * The authentication page: a flat router over four named views, the user's
 * first name after registration, a transient notification, and the dark-mode
 * flag persisted in device storage. Device storage is the `storage` map and
 * the system's colour-scheme preference is a parameter of `LoadTheme`.
 */
module LoginPage {
  import opened Wrappers
  import SignUpForm

  const ViewLogin := "login"
  const ViewSignUp := "signup"
  const ViewForgotPassword := "forgot-password"
  const ViewPostSignup := "post-signup"

  const ThemeKey := "theme"

  /** Which form the page renders. */
  datatype Screen = LoginScreen | SignUpScreen | ForgotPasswordScreen | AssistantScreen

  datatype Kind = Success | Failure
  datatype Notification = Notification(message: string, kind: Kind)

  /** `renderView`: the three named views have their own screen; every other value shows the login form. */
  function RenderView(view: string): (s: Screen)
    ensures s == SignUpScreen <==> view == ViewSignUp
    ensures s == ForgotPasswordScreen <==> view == ViewForgotPassword
    ensures s == AssistantScreen <==> view == ViewPostSignup
    ensures s == LoginScreen <==> view != ViewSignUp && view != ViewForgotPassword && view != ViewPostSignup
  {
    if view == ViewSignUp then SignUpScreen
    else if view == ViewForgotPassword then ForgotPasswordScreen
    else if view == ViewPostSignup then AssistantScreen
    else LoginScreen
  }

  /** The value stored under the theme key for a mode. */
  function StoredTheme(dark: bool): (v: string)
    ensures v == "dark" <==> dark
    ensures v == "dark" || v == "light"
  {
    if dark then "dark" else "light"
  }

  /**
   * The mode chosen on load: a present, non-empty stored value decides
   * (dark exactly when it is "dark"); otherwise the system preference does.
   */
  function ThemeOnLoad(storage: map<string, string>, prefersDark: bool): (dark: bool)
    ensures ThemeKey in storage && storage[ThemeKey] != "" ==> (dark <==> storage[ThemeKey] == "dark")
    ensures ThemeKey !in storage || storage[ThemeKey] == "" ==> dark == prefersDark
  {
    if ThemeKey in storage && storage[ThemeKey] != "" then storage[ThemeKey] == "dark" else prefersDark
  }

  /** Saving a mode and loading it again gives the same mode, whatever the system prefers. */
  lemma ThemeRoundTrip(storage: map<string, string>, dark: bool, prefersDark: bool)
    ensures ThemeOnLoad(storage[ThemeKey := StoredTheme(dark)], prefersDark) == dark
  {
  }

  class Login {
    var isDarkMode: bool
    var currentView: string
    var userName: string
    var notification: Option<Notification>
    var storage: map<string, string>

    /** The page only ever holds one of its four named views. */
    ghost predicate Valid()
      reads this
    {
      currentView in {ViewLogin, ViewSignUp, ViewForgotPassword, ViewPostSignup}
    }

    /** The page as first rendered, before the theme is loaded. */
    constructor (storage: map<string, string>)
      ensures Valid()
      ensures !isDarkMode && currentView == ViewLogin && userName == "" && notification == None
      ensures this.storage == storage
    {
      isDarkMode := false;
      currentView := ViewLogin;
      userName := "";
      notification := None;
      this.storage := storage;
    }

    function CurrentScreen(): (s: Screen)
      reads this
      requires Valid()
      ensures s == LoginScreen <==> currentView == ViewLogin
    {
      RenderView(currentView)
    }

    /** The mount effect: the mode is taken from storage, or from the system preference. */
    method LoadTheme(prefersDark: bool)
      requires Valid()
      modifies this
      ensures Valid()
      ensures isDarkMode == ThemeOnLoad(storage, prefersDark)
      ensures currentView == old(currentView) && userName == old(userName)
      ensures notification == old(notification) && storage == old(storage)
    {
      var saved := if ThemeKey in storage then storage[ThemeKey] else "";
      if saved != "" {
        isDarkMode := saved == "dark";
      } else {
        isDarkMode := prefersDark;
      }
    }

    /** `toggleDarkMode`: the mode flips and the new mode is written to storage. */
    method ToggleDarkMode()
      requires Valid()
      modifies this
      ensures Valid()
      ensures isDarkMode == !old(isDarkMode)
      ensures storage == old(storage)[ThemeKey := StoredTheme(isDarkMode)]
      ensures currentView == old(currentView) && userName == old(userName) && notification == old(notification)
    {
      var newMode := !isDarkMode;
      storage := storage[ThemeKey := if newMode then "dark" else "light"];
      isDarkMode := newMode;
    }

    method ShowNotification(message: string, kind: Kind)
      requires Valid()
      modifies this`notification
      ensures Valid()
      ensures notification == Some(Notification(message, kind))
    {
      notification := Some(Notification(message, kind));
    }

    /** The close button, or the five-second timer of any earlier notification. */
    method DismissNotification()
      requires Valid()
      modifies this`notification
      ensures Valid()
      ensures notification == None
    {
      notification := None;
    }

    /** "Sign up" on the login form. */
    method SwitchToSignup()
      requires Valid() && CurrentScreen() == LoginScreen
      modifies this`currentView
      ensures Valid() && currentView == ViewSignUp
    {
      currentView := ViewSignUp;
    }

    /** "Forgot password?" on the login form. */
    method SwitchToForgotPassword()
      requires Valid() && CurrentScreen() == LoginScreen
      modifies this`currentView
      ensures Valid() && currentView == ViewForgotPassword
    {
      currentView := ViewForgotPassword;
    }

    /** "Sign in" on the sign-up form and "Back to Sign In" on the reset form. */
    method BackToLogin()
      requires Valid() && (CurrentScreen() == SignUpScreen || CurrentScreen() == ForgotPasswordScreen)
      modifies this`currentView
      ensures Valid() && currentView == ViewLogin
    {
      currentView := ViewLogin;
    }

    /**
     * `handleSignupSuccess`: the first name is kept, the assistant view opens
     * and a welcome is shown. It runs when the sign-up timer fires, which is not
     * cancelled if the user has left the sign-up form meanwhile.
     */
    method HandleSignupSuccess(name: string)
      requires Valid()
      modifies this`userName, this`currentView, this`notification
      ensures Valid()
      ensures userName == name && currentView == ViewPostSignup
      ensures notification == Some(Notification("Welcome to CivicTrack, " + name + "!", Success))
    {
      userName := name;
      currentView := ViewPostSignup;
      ShowNotification("Welcome to CivicTrack, " + name + "!", Success);
    }

    /** `handleReportSubmitted`: the assistant's submit button returns to the login view. */
    method HandleReportSubmitted()
      requires Valid() && CurrentScreen() == AssistantScreen
      modifies this`currentView, this`notification
      ensures Valid() && currentView == ViewLogin
      ensures notification == Some(Notification("Your report has been submitted!", Success))
    {
      ShowNotification("Your report has been submitted!", Success);
      currentView := ViewLogin;
    }
  }

  /**
   * Toggling the theme and mounting the page again over the same storage
   * re-applies the toggled mode, whatever the system preference is.
   */
  method ToggleThenReload(storage: map<string, string>, prefersDark: bool, prefersDarkLater: bool)
    returns (toggled: bool, reloaded: bool)
    ensures reloaded == toggled
    ensures toggled == !ThemeOnLoad(storage, prefersDark)
  {
    var page := new Login(storage);
    page.LoadTheme(prefersDark);
    page.ToggleDarkMode();
    toggled := page.isDarkMode;
    var next := new Login(page.storage);
    next.LoadTheme(prefersDarkLater);
    reloaded := next.isDarkMode;
  }

  /**
   * The user switches to sign-up, submits a valid registration and, once its
   * timer completes, the page takes the first name it captured; submitting the
   * report then returns to the login form with that name kept.
   */
  method RegistrationJourney(storage: map<string, string>, st: SignUpForm.State) returns (view: string, user: string)
    requires SignUpForm.Validate(st.data, st.acceptTerms) == map[]
    ensures view == ViewLogin && user == st.data.firstName && user != ""
  {
    var page := new Login(storage);
    page.SwitchToSignup();
    var submitted := SignUpForm.Submit(st);
    var completed := SignUpForm.Complete(submitted);
    SignUpForm.CompletedNameNonEmpty(st);
    page.HandleSignupSuccess(completed.1);
    page.HandleReportSubmitted();
    view, user := page.currentView, page.userName;
  }
}
