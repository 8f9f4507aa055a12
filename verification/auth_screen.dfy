/**
 * The sign-in panel: the table that turns identity-provider error codes into
 * user-facing messages, and the panel's state (mode, status message, loading
 * flag, the email and password fields) as its handlers change it. The
 * identity provider is not modelled; each handler receives the outcomes of
 * the provider calls it makes, and the panel records which calls it made.
 */
module AuthScreen {
  import opened Wrappers

  /** An error thrown by the identity provider: a code and a message of its own. */
  datatype ProviderError = ProviderError(code: string, message: string)

  /** How one awaited provider call settled. */
  datatype Outcome<T> = Resolved(value: T) | Threw(error: ProviderError)

  /** The calls the panel makes to the identity provider. */
  datatype Request =
    | GoogleRedirect
    | FetchSignInMethods(email: string)
    | CreateAccount(email: string, password: string)
    | SendVerification
    | SignInWithPassword(email: string, password: string)
    | SendPasswordReset(email: string)
    | SignOut

  /** Which form the panel shows. */
  datatype Mode = Options | SignUp | SignIn

  const AlreadyRegistered := "This email is already registered. Please sign in instead."
  const InvalidEmail := "Please enter a valid email address."
  const MethodDisabled := "This sign in method is not enabled. Please contact support."
  const WeakPassword := "Please choose a stronger password (at least 6 characters)."
  const TooManyAttempts := "Too many attempts. Please try again later."
  const AccountDisabled := "This account has been disabled. Please contact support."
  const InvalidCredentials := "Invalid email or password."
  const VerificationSent := "Verification email sent! Please check your inbox."
  const VerificationFailed := "Account created, but verification email failed to send. Please try resending verification later."
  const EmailMissing := "Please enter your email first"
  const ResetSent := "Password reset email sent! Please check your inbox."

  /** The provider codes that have a message of their own. */
  const KnownCodes: set<string> := {
    "auth/email-already-in-use", "auth/invalid-email", "auth/operation-not-allowed",
    "auth/weak-password", "auth/too-many-requests", "auth/user-disabled",
    "auth/user-not-found", "auth/wrong-password"}

  const FixedMessages: set<string> := {
    AlreadyRegistered, InvalidEmail, MethodDisabled, WeakPassword,
    TooManyAttempts, AccountDisabled, InvalidCredentials}

  /** `getErrorMessage(error)`: the message shown for a provider error. */
  function ErrorMessage(e: ProviderError): (m: string)
    ensures e.code in KnownCodes ==> m in FixedMessages
    ensures e.code !in KnownCodes ==> m == e.message
  {
    match e.code
    case "auth/email-already-in-use" => AlreadyRegistered
    case "auth/invalid-email" => InvalidEmail
    case "auth/operation-not-allowed" => MethodDisabled
    case "auth/weak-password" => WeakPassword
    case "auth/too-many-requests" => TooManyAttempts
    case "auth/user-disabled" => AccountDisabled
    case "auth/user-not-found" => InvalidCredentials
    case "auth/wrong-password" => InvalidCredentials
    case _ => e.message
  }

  /** The message table, code by code. */
  lemma ErrorMessageTable(message: string)
    ensures ErrorMessage(ProviderError("auth/email-already-in-use", message)) == AlreadyRegistered
    ensures ErrorMessage(ProviderError("auth/invalid-email", message)) == InvalidEmail
    ensures ErrorMessage(ProviderError("auth/operation-not-allowed", message)) == MethodDisabled
    ensures ErrorMessage(ProviderError("auth/weak-password", message)) == WeakPassword
    ensures ErrorMessage(ProviderError("auth/too-many-requests", message)) == TooManyAttempts
    ensures ErrorMessage(ProviderError("auth/user-disabled", message)) == AccountDisabled
    ensures ErrorMessage(ProviderError("auth/user-not-found", message)) == InvalidCredentials
    ensures ErrorMessage(ProviderError("auth/wrong-password", message)) == InvalidCredentials
  {
  }

  /** For a known code the message depends on the code alone, never on the provider's own text. */
  lemma KnownCodeIgnoresMessage(e1: ProviderError, e2: ProviderError)
    requires e1.code == e2.code && e1.code in KnownCodes
    ensures ErrorMessage(e1) == ErrorMessage(e2)
  {
  }

  /**
   * Distinct known codes get distinct messages, except that an unknown user
   * and a wrong password share one, so the panel does not reveal which it was.
   */
  lemma KnownCodesDistinguished(e1: ProviderError, e2: ProviderError)
    requires e1.code in KnownCodes && e2.code in KnownCodes
    ensures ErrorMessage(e1) == ErrorMessage(e2) <==>
      e1.code == e2.code ||
      {e1.code, e2.code} == {"auth/user-not-found", "auth/wrong-password"}
  {
  }

  /** The "switch" link: from the sign-up form to sign-in, from anything else to sign-up. */
  function Toggled(m: Mode): (t: Mode)
    ensures t != Options
    ensures m != Options ==> t != m
  {
    if m == SignUp then SignIn else SignUp
  }

  /** Toggling twice from either form comes back to it. */
  lemma ToggleTwice(m: Mode)
    requires m != Options
    ensures Toggled(Toggled(m)) == m
  {
  }

  class AuthPanel {
    var error: Option<string>     // the status line; None when cleared
    var isLoading: bool
    var mode: Mode
    var email: string
    var password: string
    var requests: seq<Request>    // the provider calls made so far, in order

    constructor ()
      ensures error == None && isLoading && mode == Options
      ensures email == "" && password == "" && requests == []
    {
      error := None;
      isLoading := true;
      mode := Options;
      email := "";
      password := "";
      requests := [];
    }

    /** Typing into the email field. */
    method EditEmail(value: string)
      modifies this
      ensures email == value
      ensures error == old(error) && isLoading == old(isLoading) && mode == old(mode)
      ensures password == old(password) && requests == old(requests)
    {
      email := value;
    }

    /** Typing into the password field. */
    method EditPassword(value: string)
      modifies this
      ensures password == value
      ensures error == old(error) && isLoading == old(isLoading) && mode == old(mode)
      ensures email == old(email) && requests == old(requests)
    {
      password := value;
    }

    /** "Sign up with Email" on the options screen. */
    method ChooseSignUp()
      modifies this
      ensures mode == SignUp
      ensures error == old(error) && isLoading == old(isLoading)
      ensures email == old(email) && password == old(password) && requests == old(requests)
    {
      mode := SignUp;
    }

    /** "Sign in with Email" on the options screen. */
    method ChooseSignIn()
      modifies this
      ensures mode == SignIn
      ensures error == old(error) && isLoading == old(isLoading)
      ensures email == old(email) && password == old(password) && requests == old(requests)
    {
      mode := SignIn;
    }

    /** The link under either form that switches to the other form. */
    method ToggleMode()
      modifies this
      ensures mode == Toggled(old(mode))
      ensures error == old(error) && isLoading == old(isLoading)
      ensures email == old(email) && password == old(password) && requests == old(requests)
    {
      mode := Toggled(mode);
    }

    /** "Back to options". */
    method BackToOptions()
      modifies this
      ensures mode == Options
      ensures error == old(error) && isLoading == old(isLoading)
      ensures email == old(email) && password == old(password) && requests == old(requests)
    {
      mode := Options;
    }

    /**
     * "Sign in with Google": clears the status and starts the redirect. A
     * successful start navigates away; a failure is shown and ends loading.
     */
    method HandleGoogleAuth(redirect: Outcome<()>)
      modifies this
      ensures requests == old(requests) + [GoogleRedirect]
      ensures mode == old(mode) && email == old(email) && password == old(password)
      ensures redirect.Resolved? ==> error == None && isLoading == old(isLoading)
      ensures redirect.Threw? ==> error == Some(ErrorMessage(redirect.error)) && !isLoading
    {
      error := None;
      requests := requests + [GoogleRedirect];
      if redirect.Threw? {
        error := Some(ErrorMessage(redirect.error));
        isLoading := false;
      }
    }

    /**
     * Submitting the sign-up form. An email that already has sign-in methods
     * switches to the sign-in form without creating an account. Otherwise the
     * account is created and a verification email sent; if only the email
     * fails, the account stays and a message of its own says so.
     */
    method HandleEmailSignUp(methods: Outcome<nat>, created: Outcome<()>, verification: Outcome<()>)
      modifies this
      ensures !isLoading
      ensures var e, p, before := old(email), old(password), old(requests);
        match methods
        case Threw(err) =>
          && requests == before + [FetchSignInMethods(e)]
          && error == Some(ErrorMessage(err)) && mode == old(mode)
          && email == e && password == p
        case Resolved(n) =>
          if n > 0 then
            && requests == before + [FetchSignInMethods(e)]
            && error == Some(AlreadyRegistered) && mode == SignIn
            && email == e && password == p
          else match created
            case Threw(err) =>
              && requests == before + [FetchSignInMethods(e), CreateAccount(e, p)]
              && error == Some(ErrorMessage(err)) && mode == old(mode)
              && email == e && password == p
            case Resolved(_) =>
              && requests == before + [FetchSignInMethods(e), CreateAccount(e, p), SendVerification]
              && mode == old(mode)
              && (verification.Resolved? ==> error == Some(VerificationSent) && email == "" && password == "")
              && (verification.Threw? ==> error == Some(VerificationFailed) && email == e && password == p)
    {
      error := None;
      isLoading := true;
      requests := requests + [FetchSignInMethods(email)];
      match methods {
        case Threw(err) =>
          error := Some(ErrorMessage(err));
        case Resolved(n) =>
          if n > 0 {
            error := Some(AlreadyRegistered);
            mode := SignIn;
          } else {
            requests := requests + [CreateAccount(email, password)];
            match created {
              case Threw(err) =>
                error := Some(ErrorMessage(err));
              case Resolved(_) =>
                requests := requests + [SendVerification];
                if verification.Resolved? {
                  email := "";
                  password := "";
                  error := Some(VerificationSent);
                } else {
                  error := Some(VerificationFailed);
                }
            }
          }
      }
      isLoading := false;
    }

    /** Submitting the sign-in form: the fields are cleared on success, the error shown otherwise. */
    method HandleEmailSignIn(signIn: Outcome<()>)
      modifies this
      ensures !isLoading && mode == old(mode)
      ensures requests == old(requests) + [SignInWithPassword(old(email), old(password))]
      ensures signIn.Resolved? ==> error == None && email == "" && password == ""
      ensures signIn.Threw? ==>
        error == Some(ErrorMessage(signIn.error)) && email == old(email) && password == old(password)
    {
      error := None;
      isLoading := true;
      requests := requests + [SignInWithPassword(email, password)];
      if signIn.Resolved? {
        email := "";
        password := "";
      } else {
        error := Some(ErrorMessage(signIn.error));
      }
      isLoading := false;
    }

    /** "Forgot Password?": nothing is requested while the email field is empty. */
    method HandlePasswordReset(reset: Outcome<()>)
      modifies this
      ensures mode == old(mode) && isLoading == old(isLoading)
      ensures email == old(email) && password == old(password)
      ensures old(email) == "" ==> error == Some(EmailMissing) && requests == old(requests)
      ensures old(email) != "" ==> requests == old(requests) + [SendPasswordReset(old(email))]
      ensures old(email) != "" && reset.Resolved? ==> error == Some(ResetSent)
      ensures old(email) != "" && reset.Threw? ==> error == Some(ErrorMessage(reset.error))
    {
      if email == "" {
        error := Some(EmailMissing);
        return;
      }
      requests := requests + [SendPasswordReset(email)];
      if reset.Resolved? {
        error := Some(ResetSent);
      } else {
        error := Some(ErrorMessage(reset.error));
      }
    }

    /** "Resend verification" for a signed-in user whose email is not verified. */
    method HandleResendVerification(verification: Outcome<()>)
      modifies this
      ensures requests == old(requests) + [SendVerification]
      ensures mode == old(mode) && isLoading == old(isLoading)
      ensures email == old(email) && password == old(password)
      ensures verification.Resolved? ==> error == Some(VerificationSent)
      ensures verification.Threw? ==> error == Some(ErrorMessage(verification.error))
    {
      requests := requests + [SendVerification];
      if verification.Resolved? {
        error := Some(VerificationSent);
      } else {
        error := Some(ErrorMessage(verification.error));
      }
    }

    /** "Sign Out": on success the status is cleared and the panel returns to the options. */
    method HandleSignOut(signOut: Outcome<()>)
      modifies this
      ensures !isLoading
      ensures requests == old(requests) + [SignOut]
      ensures email == old(email) && password == old(password)
      ensures signOut.Resolved? ==> error == None && mode == Options
      ensures signOut.Threw? ==> error == Some(ErrorMessage(signOut.error)) && mode == old(mode)
    {
      isLoading := true;
      requests := requests + [SignOut];
      if signOut.Resolved? {
        error := None;
        mode := Options;
      } else {
        error := Some(ErrorMessage(signOut.error));
      }
      isLoading := false;
    }
  }

  /** Whether the calls made include an account creation. */
  predicate CreatesAccount(calls: seq<Request>) {
    exists i :: 0 <= i < |calls| && calls[i].CreateAccount?
  }

  /**
   * A sign-up for an email that already has sign-in methods creates no
   * account, shows the already-registered message and moves to the sign-in form.
   */
  method SignUpWithRegisteredEmail(panel: AuthPanel, n: nat, created: Outcome<()>, verification: Outcome<()>)
    requires n > 0
    modifies panel
    ensures panel.requests == old(panel.requests) + [FetchSignInMethods(old(panel.email))]
    ensures !CreatesAccount(panel.requests[|old(panel.requests)|..])
    ensures panel.mode == SignIn && panel.error == Some(AlreadyRegistered)
  {
    panel.HandleEmailSignUp(Resolved(n), created, verification);
    assert panel.requests[|old(panel.requests)|..] == [FetchSignInMethods(old(panel.email))];
  }
}
