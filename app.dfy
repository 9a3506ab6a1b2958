/** The root component of `src/App.js`: the view name, the sign-in method, the role and
    the eight-field form shared by every screen, and the switch that picks the screen. */
module AppShell {

  const FormFields: seq<string> :=
    ["email", "phone", "password", "confirmPassword", "firstName", "lastName", "organizationName", "otp"]

  /** Every form field has an entry (values start empty and are only ever replaced). */
  predicate HasFormFields(form: map<string, string>) {
    && "email" in form && "phone" in form && "password" in form && "confirmPassword" in form
    && "firstName" in form && "lastName" in form && "organizationName" in form && "otp" in form
  }

  /** `formData`'s initial value: the eight fields, all empty. */
  function InitialForm(): (f: map<string, string>)
    ensures HasFormFields(f)
    ensures forall name :: name in f <==> name in FormFields
    ensures forall name :: name in f ==> f[name] == ""
  {
    map["email" := "", "phone" := "", "password" := "", "confirmPassword" := "",
        "firstName" := "", "lastName" := "", "organizationName" := "", "otp" := ""]
  }

  class App {
    var currentView: string
    var authMethod: string
    var userRole: string
    var formData: map<string, string>

    ghost predicate Valid()
      reads this
    {
      HasFormFields(formData)
    }

    /** Initial state: the landing view, e-mail sign-in, the `user` role and an empty form. */
    constructor ()
      ensures Valid()
      ensures currentView == "landing" && authMethod == "email" && userRole == "user"
      ensures formData == InitialForm()
    {
      currentView := "landing";
      authMethod := "email";
      userRole := "user";
      formData := InitialForm();
    }

    /** `setFormData({ ...formData, [e.target.name]: e.target.value })` */
    method HandleInputChange(name: string, value: string)
      requires Valid()
      modifies this`formData
      ensures Valid()
      ensures name in formData && formData[name] == value
      ensures forall other :: other != name ==> (other in formData <==> other in old(formData))
      ensures forall other :: other != name && other in formData ==> formData[other] == old(formData)[other]
    {
      formData := formData[name := value];
    }
  }

  datatype Screen = LandingPage | SignInPage | SignUpPage | OtpPage | ForgotPage | ResetPage | DashboardPage

  /** The view name that selects each screen. */
  function ViewName(s: Screen): string {
    match s
    case LandingPage => "landing"
    case SignInPage => "signin"
    case SignUpPage => "signup"
    case OtpPage => "otp"
    case ForgotPage => "forgot"
    case ResetPage => "reset"
    case DashboardPage => "dashboard"
  }

  const KnownViews: set<string> := {"landing", "signin", "signup", "otp", "forgot", "reset", "dashboard"}

  /** The `switch (currentView)`: a known name selects its own screen, anything else the
      landing page. */
  function ScreenFor(view: string): (s: Screen)
    ensures view in KnownViews ==> ViewName(s) == view
    ensures view !in KnownViews ==> s == LandingPage
  {
    if view == "signin" then SignInPage
    else if view == "signup" then SignUpPage
    else if view == "otp" then OtpPage
    else if view == "forgot" then ForgotPage
    else if view == "reset" then ResetPage
    else if view == "dashboard" then DashboardPage
    else LandingPage
  }

  /** Each screen's own name routes back to it. */
  lemma ScreenForViewName(s: Screen)
    ensures ScreenFor(ViewName(s)) == s
  {
  }
}
