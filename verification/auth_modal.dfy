/** The authentication modal component: its redirect after a successful
    sign-in, what it shows, and the submit handlers of its login and signup
    forms. The outcomes of `signIn` and `fetch` are inputs. */
module AuthModal {
  import opened Common
  import opened Auth
  import AuthModalContext
  import RegisterRoute

  /** When the session becomes authenticated while the modal is open, the
      modal closes itself and goes to the dashboard. */
  function RedirectEffect(status: SessionStatus, session: Option<Session>, isOpen: bool)
    : (effects: seq<Effect>)
    ensures effects != [] <==> status == Authenticated && session.Some? && isOpen
    ensures effects != [] ==> effects == [CallOnClose, Push("/dashboard")]
  {
    if status == Authenticated && session.Some? && isOpen then [CallOnClose, Push("/dashboard")] else []
  }

  function TitleIf(show: bool, title: string): string {
    if show then title else ""
  }

  datatype ModalView = ModalView(title: string, panel: Option<AuthModalContext.ModalType>)

  /** The modal's heading and body; a closed modal shows nothing. */
  function RenderModal(isOpen: bool, modalType: Option<AuthModalContext.ModalType>): (v: Option<ModalView>)
    ensures v.None? <==> !isOpen
    ensures v.Some? ==> v.value.panel == modalType
    ensures v.Some? && modalType == Some(AuthModalContext.Login) ==> v.value.title == "Welcome Back"
    ensures v.Some? && modalType == Some(AuthModalContext.Signup) ==> v.value.title == "Create Account"
    ensures v.Some? && modalType == Some(AuthModalContext.AccountTypeChoice) ==> v.value.title == "Choose Account Type"
    ensures v.Some? && modalType.None? ==> v.value.title == ""
  {
    if !isOpen then None
    else
      Some(ModalView(TitleIf(modalType == Some(AuthModalContext.Login), "Welcome Back")
                     + TitleIf(modalType == Some(AuthModalContext.Signup), "Create Account")
                     + TitleIf(modalType == Some(AuthModalContext.AccountTypeChoice), "Choose Account Type"),
                     modalType))
  }

  /** A button of the account-type panel: record the choice, then switch to
      the signup panel. The chosen type survives the switch. */
  method ChooseAccountType(modal: AuthModalContext.AuthModalProvider, a: AuthModalContext.AccountType)
    requires modal.Valid()
    modifies modal
    ensures modal.Valid()
    ensures modal.history == old(modal.history)
      + [AuthModalContext.ModalOp.SetAccountType(a), AuthModalContext.ModalOp.OpenModal(AuthModalContext.Signup)]
    ensures modal.State() == AuthModalContext.ModalState(true, Some(AuthModalContext.Signup), a)
  {
    modal.SetAccountType(a);
    modal.OpenModal(AuthModalContext.Signup);
  }

  /** What `signIn('credentials', …)` did: threw, or resolved with an optional error. */
  datatype SignInOutcome = SignInThrew | SignInReturned(error: Option<string>)

  const InvalidCredentials := "Invalid email or password"
  const GenericFailure := "Something went wrong. Please try again."
  const PasswordMismatch := "Passwords do not match"
  const SignInAfterSignupFailed := "Account created but sign-in failed. Please try signing in."

  /** The error the login form shows after submitting. */
  function LoginError(outcome: SignInOutcome): (e: string)
    ensures e == "" || e == InvalidCredentials || e == GenericFailure
    // A sign-in call that throws always shows the generic failure.
    ensures outcome.SignInThrew? ==> e == GenericFailure
    // A returned error means bad credentials; no error means nothing to show.
    ensures outcome.SignInReturned? ==> (e == InvalidCredentials <==> Truthy(outcome.error))
    ensures outcome.SignInReturned? && !Truthy(outcome.error) ==> e == ""
  {
    match outcome
    case SignInThrew => GenericFailure
    case SignInReturned(e) => if Truthy(e) then InvalidCredentials else ""
  }

  predicate LoginSucceeds(outcome: SignInOutcome) {
    outcome.SignInReturned? && !Truthy(outcome.error)
  }

  /** The login form closes the modal exactly when it shows no error. */
  lemma LoginClosesIffNoError(outcome: SignInOutcome)
    ensures LoginSucceeds(outcome) <==> LoginError(outcome) == ""
  {
  }

  class LoginForm {
    var email: string
    var password: string
    var isLoading: bool
    var error: string
    /** Every value given to `isLoading`, in order. */
    ghost var loadingHistory: seq<bool>

    constructor ()
      ensures email == "" && password == "" && !isLoading && error == "" && loadingHistory == []
    {
      email, password, isLoading, error := "", "", false, "";
      loadingHistory := [];
    }

    method SetIsLoading(b: bool)
      modifies this
      ensures isLoading == b && loadingHistory == old(loadingHistory) + [b]
      ensures email == old(email) && password == old(password) && error == old(error)
    {
      isLoading := b;
      loadingHistory := loadingHistory + [b];
    }

    /** `handleSubmit`: loading is switched on, then off again whatever happens. */
    method HandleSubmit(outcome: SignInOutcome, modal: AuthModalContext.AuthModalProvider)
      requires modal.Valid()
      modifies this, modal
      ensures loadingHistory == old(loadingHistory) + [true, false] && !isLoading
      ensures error == LoginError(outcome)
      ensures email == old(email) && password == old(password)
      ensures modal.Valid()
      ensures LoginSucceeds(outcome) ==>
        modal.history == old(modal.history) + [AuthModalContext.ModalOp.CloseModal]
      ensures !LoginSucceeds(outcome) ==> modal.history == old(modal.history) && modal.State() == old(modal.State())
    {
      SetIsLoading(true);
      error := "";
      match outcome {
        case SignInThrew =>
          error := GenericFailure;
        case SignInReturned(e) =>
          if Truthy(e) {
            error := InvalidCredentials;
          } else {
            modal.CloseModal();
          }
      }
      SetIsLoading(false);
    }
  }

  const FormKeys := {"name", "email", "password", "confirmPassword",
                     "companyName", "companySize", "industry", "website"}

  /** The JSON body the signup form posts, as the register route reads it:
      the company keys are spread in only for company accounts. */
  function SignupRequestBody(formData: map<string, string>, accountType: AuthModalContext.AccountType)
    : (body: RegisterRoute.RegisterRequest)
    requires FormKeys <= formData.Keys
    ensures body.name == Some(formData["name"]) && body.email == Some(formData["email"])
    ensures body.password == Some(formData["password"])
    ensures body.accountType == Some(AuthModalContext.AccountTypeName(accountType))
    ensures accountType == AuthModalContext.Company <==> body.companyName.Some?
    ensures accountType == AuthModalContext.Company ==>
      && body.companyName == Some(formData["companyName"]) && body.companySize == Some(formData["companySize"])
      && body.industry == Some(formData["industry"]) && body.website == Some(formData["website"])
    ensures accountType == AuthModalContext.General ==>
      body.companyName.None? && body.companySize.None? && body.industry.None? && body.website.None?
  {
    var company := accountType == AuthModalContext.Company;
    RegisterRoute.RegisterRequest(
      Some(formData["name"]), Some(formData["email"]), Some(formData["password"]),
      Some(AuthModalContext.AccountTypeName(accountType)),
      if company then Some(formData["companyName"]) else None,
      if company then Some(formData["companySize"]) else None,
      if company then Some(formData["industry"]) else None,
      if company then Some(formData["website"]) else None)
  }

  /** What the registration request did: it (or reading its JSON) threw, or
      it answered with an ok flag and maybe an `error` field. */
  datatype FetchOutcome = FetchThrew | Responded(ok: bool, dataError: Option<string>)

  /** How the signup form sees a response of the register route. */
  function FetchOutcomeOf(resp: RegisterRoute.Response): FetchOutcome {
    Responded(200 <= resp.status < 300, if resp.body.ErrorBody? then Some(resp.body.error) else None)
  }

  /** The error the signup form shows after submitting. */
  function SignupError(passwordsMatch: bool, fetch: FetchOutcome, signIn: SignInOutcome): (e: string)
    // Mismatched passwords are reported before anything is sent.
    ensures !passwordsMatch ==> e == PasswordMismatch
    // A rejected registration shows the route's own error text when it has one.
    ensures passwordsMatch && fetch.Responded? && !fetch.ok && Truthy(fetch.dataError) ==> e == fetch.dataError.value
    ensures passwordsMatch && fetch.Responded? && !fetch.ok ==> e == Or(fetch.dataError, "Something went wrong")
    // A throw anywhere after the password check shows the generic failure.
    ensures passwordsMatch && fetch.FetchThrew? ==> e == GenericFailure
    ensures passwordsMatch && fetch.Responded? && fetch.ok && signIn.SignInThrew? ==> e == GenericFailure
    // The account exists but the automatic sign-in was refused.
    ensures passwordsMatch && fetch.Responded? && fetch.ok && signIn.SignInReturned? && Truthy(signIn.error)
      ==> e == SignInAfterSignupFailed
    ensures e == "" || e == PasswordMismatch || e == GenericFailure || e == SignInAfterSignupFailed
      || e == "Something went wrong" || (fetch.Responded? && fetch.dataError == Some(e))
  {
    if !passwordsMatch then PasswordMismatch
    else match fetch
      case FetchThrew => GenericFailure
      case Responded(ok, dataError) =>
        if !ok then Or(dataError, "Something went wrong")
        else match signIn
          case SignInThrew => GenericFailure
          case SignInReturned(e) => if Truthy(e) then SignInAfterSignupFailed else ""
  }

  predicate SignupSucceeds(passwordsMatch: bool, fetch: FetchOutcome, signIn: SignInOutcome) {
    passwordsMatch && fetch.Responded? && fetch.ok && signIn.SignInReturned? && !Truthy(signIn.error)
  }

  /** The signup form closes the modal exactly when it shows no error. */
  lemma SignupClosesIffNoError(passwordsMatch: bool, fetch: FetchOutcome, signIn: SignInOutcome)
    ensures SignupSucceeds(passwordsMatch, fetch, signIn) <==> SignupError(passwordsMatch, fetch, signIn) == ""
  {
  }

  class SignupForm {
    var formData: map<string, string>
    var isLoading: bool
    var error: string
    /** Every value given to `isLoading`, in order. */
    ghost var loadingHistory: seq<bool>

    ghost predicate Valid()
      reads this
    {
      FormKeys <= formData.Keys
    }

    constructor ()
      ensures Valid() && !isLoading && error == "" && loadingHistory == []
      ensures formData == map k | k in FormKeys :: ""
    {
      formData := map k | k in FormKeys :: "";
      isLoading, error := false, "";
      loadingHistory := [];
    }

    /** `handleInputChange`: one field takes the new value, the others stay. */
    method HandleInputChange(name: string, value: string)
      requires Valid()
      modifies this
      ensures Valid() && formData == old(formData)[name := value]
      ensures isLoading == old(isLoading) && error == old(error) && loadingHistory == old(loadingHistory)
    {
      formData := formData[name := value];
    }

    method SetIsLoading(b: bool)
      modifies this
      ensures isLoading == b && loadingHistory == old(loadingHistory) + [b]
      ensures formData == old(formData) && error == old(error)
    {
      isLoading := b;
      loadingHistory := loadingHistory + [b];
    }

    /** `handleSubmit`; `sent` is the request body posted, if any. */
    method HandleSubmit(modal: AuthModalContext.AuthModalProvider, fetch: FetchOutcome, signIn: SignInOutcome)
      returns (sent: Option<RegisterRoute.RegisterRequest>)
      requires Valid() && modal.Valid()
      modifies this, modal
      ensures Valid() && formData == old(formData)
      ensures loadingHistory == old(loadingHistory) + [true, false] && !isLoading
      ensures var matches := formData["password"] == formData["confirmPassword"];
        && error == SignupError(matches, fetch, signIn)
        // Mismatched passwords are caught before anything is sent.
        && (sent.Some? <==> matches)
        && (sent.Some? ==> sent.value == SignupRequestBody(formData, old(modal.accountType)))
        && modal.Valid()
        && (SignupSucceeds(matches, fetch, signIn) ==>
              modal.history == old(modal.history) + [AuthModalContext.ModalOp.CloseModal])
        && (!SignupSucceeds(matches, fetch, signIn) ==>
              modal.history == old(modal.history) && modal.State() == old(modal.State()))
    {
      SetIsLoading(true);
      error := "";
      sent := None;

      if formData["password"] != formData["confirmPassword"] {
        error := PasswordMismatch;
        SetIsLoading(false);
        return;
      }

      sent := Some(SignupRequestBody(formData, modal.accountType));
      match fetch {
        case FetchThrew =>
          error := GenericFailure;
        case Responded(ok, dataError) =>
          if ok {
            match signIn {
              case SignInThrew =>
                error := GenericFailure;
              case SignInReturned(e) =>
                if Truthy(e) {
                  error := SignInAfterSignupFailed;
                } else {
                  modal.CloseModal();
                }
            }
          } else {
            error := Or(dataError, "Something went wrong");
          }
      }
      SetIsLoading(false);
    }
  }

  /** A company signup, once accepted by the register route, stores the
      company details; a general signup stores none. */
  lemma SignupBodyShapesStoredUser(formData: map<string, string>, accountType: AuthModalContext.AccountType,
                                   hash: string -> Option<string>, now: nat)
    requires FormKeys <= formData.Keys
    requires formData["name"] != "" && formData["email"] != "" && formData["password"] != ""
    requires hash(formData["password"]).Some?
    ensures var body := SignupRequestBody(formData, accountType);
      && RegisterRoute.HasRequiredFields(body)
      && RegisterRoute.RegisterOutcome(Some(body), None, hash) == 201
      && (body.accountType == Some("company") <==> accountType == AuthModalContext.Company)
      && Or(body.accountType, "general") == AuthModalContext.AccountTypeName(accountType)
  {
  }

  /** The register route's own rejection message reaches the signup form. */
  lemma RouteErrorReachesForm(resp: RegisterRoute.Response, signIn: SignInOutcome)
    requires resp.status == 400 && resp.body.ErrorBody? && resp.body.error != ""
    ensures SignupError(true, FetchOutcomeOf(resp), signIn) == resp.body.error
  {
  }
}
