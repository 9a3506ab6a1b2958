/** The sign-in screen of `src/components/auth/SignIn.jsx`: the password login that
    writes the pending-auth marker and moves to OTP entry, the passwordless login that
    only requests a magic link, and the submit dispatch between them. */
module SignIn {
  import opened Common
  import opened Json
  import opened Session
  import Api
  import AppShell
  import Storage

  /** `{ email, password, role }` from the form, whichever sign-in tab is showing. */
  function Credentials(form: map<string, string>, role: string): (c: Json)
    requires AppShell.HasFormFields(form)
  {
    JObj([("email", JStr(form["email"])), ("password", JStr(form["password"])), ("role", JStr(role))])
  }

  /** What `handleSignIn` does with the settled login call: a thrown error is displayed,
      a reply without `success` changes nothing, and a successful one writes the
      pending-auth marker and moves to OTP entry. */
  function LoginOutcome(store: map<string, string>, view: string, email: string, result: Result<Json>): Step
  {
    match result
    case Err(m) => Step(store, view, m, None)
    case Ok(body) =>
      match Prop(Some(body), "success")
      case Err(m) => Step(store, view, m, None)
      case Ok(success) =>
        if !Truthy(success) then Step(store, view, "", None)
        else
          match Prop(OptionalProp(Some(body), "data"), "userId")
          case Err(m) => Step(store, view, m, None)
          case Ok(userId) => Step(store[UserIdKey := ToText(userId)][TempEmailKey := email], "otp", "", None)
  }

  /** `handleSignIn` as one transition. */
  function SignInStep(env: Option<string>, store: map<string, string>, view: string,
                      form: map<string, string>, role: string, reply: Api.Reply): Step
    requires AppShell.HasFormFields(form)
  {
    var req := RequestOf(env, store, Api.Login(Credentials(form, role)));
    LoginOutcome(store, view, form["email"], Api.Settle(reply)).(sent := Some(req))
  }

  /** `handlePasswordlessLogin` as one transition. */
  function PasswordlessStep(env: Option<string>, store: map<string, string>, view: string,
                            form: map<string, string>, reply: Api.Reply): Step
    requires AppShell.HasFormFields(form)
  {
    var req := RequestOf(env, store, Api.PasswordlessLogin(JStr(form["email"])));
    Step(store, view, PasswordlessError(Api.Settle(reply)), Some(req))
  }

  /** The error `handlePasswordlessLogin` displays: the message of a thrown error, or
      none. */
  function PasswordlessError(result: Result<Json>): string {
    match result
    case Err(m) => m
    case Ok(body) =>
      match Prop(Some(body), "success")
      case Err(m) => m
      case Ok(_) => ""
  }

  /** The form's `onSubmit`: the passwordless handler for the passwordless tab, the
      password handler for every other tab. */
  function SubmitStep(authMethod: string, env: Option<string>, store: map<string, string>, view: string,
                      form: map<string, string>, role: string, reply: Api.Reply): Step
    requires AppShell.HasFormFields(form)
  {
    if authMethod == "passwordless" then PasswordlessStep(env, store, view, form, reply)
    else SignInStep(env, store, view, form, role, reply)
  }

  /** The login request carries exactly the form's e-mail, password and role. */
  lemma {:induction false} LoginSendsCredentials(env: Option<string>, store: map<string, string>, view: string,
                                                 form: map<string, string>, role: string, reply: Api.Reply)
    requires AppShell.HasFormFields(form)
    ensures var st := SignInStep(env, store, view, form, role, reply);
            && st.sent.Some?
            && st.sent.value.url == Api.BaseUrl(env) + "/auth/login"
            && st.sent.value.httpMethod == Some("POST")
            && st.sent.value.body == Some(JObj([("email", JStr(form["email"])), ("password", JStr(form["password"])),
                                                ("role", JStr(role))]))
  {
  }

  /** With the phone tab selected the e-mail field is still what is sent, and the phone
      number is not. */
  lemma PhoneTabSendsEmail(env: Option<string>, store: map<string, string>, view: string,
                           form: map<string, string>, role: string, reply: Api.Reply)
    requires AppShell.HasFormFields(form)
    ensures SubmitStep("phone", env, store, view, form, role, reply) == SignInStep(env, store, view, form, role, reply)
    ensures var body := SubmitStep("phone", env, store, view, form, role, reply).sent.value.body.value;
            body.JObj? && Get(body.fields, "email") == Some(JStr(form["email"])) && Get(body.fields, "phone").None?
  {
    LoginSendsCredentials(env, store, view, form, role, reply);
    GetFinds([("email", JStr(form["email"])), ("password", JStr(form["password"])), ("role", JStr(role))], "phone");
  }

  /** A `success` reply stores the returned user id and the typed e-mail as the
      pending-auth marker and moves to OTP entry; nothing else in the store changes. */
  lemma SuccessWritesMarker(env: Option<string>, store: map<string, string>, view: string,
                            form: map<string, string>, role: string, fields: seq<(string, Json)>,
                            data: seq<(string, Json)>, userId: string)
    requires AppShell.HasFormFields(form)
    requires Get(fields, "success") == Some(JBool(true))
    requires Get(fields, "data") == Some(JObj(data)) && Get(data, "userId") == Some(JStr(userId))
    ensures var st := SignInStep(env, store, view, form, role, Api.Response(true, JObj(fields)));
            && st.store == store[UserIdKey := userId][TempEmailKey := form["email"]]
            && st.view == "otp" && st.error == ""
  {
  }

  /** A thrown error is displayed and leaves the store and the view as they were. */
  lemma FailureKeepsSession(env: Option<string>, store: map<string, string>, view: string,
                            form: map<string, string>, role: string, reply: Api.Reply)
    requires AppShell.HasFormFields(form)
    requires Api.Settle(reply).Err?
    ensures var st := SignInStep(env, store, view, form, role, reply);
            st.store == store && st.view == view && st.error == Api.Settle(reply).message
  {
  }

  /** The passwordless handler never touches the store or the view. */
  lemma PasswordlessKeepsSession(env: Option<string>, store: map<string, string>, view: string,
                                 form: map<string, string>, reply: Api.Reply)
    requires AppShell.HasFormFields(form)
    ensures var st := PasswordlessStep(env, store, view, form, reply);
            st.store == store && st.view == view
            && st.sent.value.body == Some(JObj([("email", JStr(form["email"]))]))
            && (Api.Settle(reply).Err? ==> st.error == Api.Settle(reply).message)
  {
  }

  class SignInScreen {
    var loading: bool
    var error: string

    constructor ()
      ensures !loading && error == ""
    {
      loading := false;
      error := "";
    }

    method HandleSignIn(app: AppShell.App, storage: Storage.LocalStorage, env: Option<string>, reply: Api.Reply)
      returns (sent: Option<Api.Request>)
      requires app.Valid()
      modifies this, app`currentView, storage
      ensures var st := SignInStep(env, old(storage.items), old(app.currentView), old(app.formData), old(app.userRole), reply);
              storage.items == st.store && app.currentView == st.view && error == st.error && sent == st.sent
      ensures !loading
    {
      error := "";
      loading := true;
      var credentials := Credentials(app.formData, app.userRole);
      var token := storage.GetItem(AccessTokenKey);
      assert token == StoredToken(storage.items);
      var req, result := Api.ApiCall(env, Api.CallFor(Api.Login(credentials)), token, reply);
      assert req == RequestOf(env, storage.items, Api.Login(credentials));
      sent := Some(req);
      Land(app, storage, app.formData["email"], result);
      loading := false;
    }

    /** The part of `handleSignIn` after the login call has settled. */
    method Land(app: AppShell.App, storage: Storage.LocalStorage, email: string, result: Result<Json>)
      requires error == ""
      modifies this`error, app`currentView, storage
      ensures var st := LoginOutcome(old(storage.items), old(app.currentView), email, result);
              storage.items == st.store && app.currentView == st.view && error == st.error
    {
      match result {
        case Err(m) => error := m;
        case Ok(body) =>
          match Prop(Some(body), "success") {
            case Err(m) => error := m;
            case Ok(success) =>
              if Truthy(success) {
                match Prop(OptionalProp(Some(body), "data"), "userId") {
                  case Err(m) => error := m;
                  case Ok(userId) =>
                    storage.SetItem(UserIdKey, ToText(userId));
                    storage.SetItem(TempEmailKey, email);
                    app.currentView := "otp";
                }
              }
          }
      }
    }

    method HandlePasswordlessLogin(app: AppShell.App, storage: Storage.LocalStorage, env: Option<string>, reply: Api.Reply)
      returns (sent: Option<Api.Request>)
      requires app.Valid()
      modifies this
      ensures var st := PasswordlessStep(env, old(storage.items), old(app.currentView), old(app.formData), reply);
              error == st.error && sent == st.sent
      ensures !loading
    {
      error := "";
      loading := true;
      var token := storage.GetItem(AccessTokenKey);
      assert token == StoredToken(storage.items);
      var req, result := Api.ApiCall(env, Api.CallFor(Api.PasswordlessLogin(JStr(app.formData["email"]))), token, reply);
      assert req == RequestOf(env, storage.items, Api.PasswordlessLogin(JStr(app.formData["email"])));
      sent := Some(req);
      match result {
        case Err(m) => error := m;
        case Ok(body) =>
          match Prop(Some(body), "success") {
            case Err(m) => error := m;
            case Ok(_) =>
          }
      }
      loading := false;
    }

    /** Submitting the form; the submit button is disabled while a request is loading. */
    method Submit(app: AppShell.App, storage: Storage.LocalStorage, env: Option<string>, reply: Api.Reply)
      returns (sent: Option<Api.Request>)
      requires app.Valid()
      modifies this, app`currentView, storage
      ensures old(loading) ==> sent.None? && storage.items == old(storage.items)
                               && app.currentView == old(app.currentView) && error == old(error) && loading
      ensures !old(loading) ==>
                var st := SubmitStep(old(app.authMethod), env, old(storage.items), old(app.currentView), old(app.formData), old(app.userRole), reply);
                storage.items == st.store && app.currentView == st.view && error == st.error && sent == st.sent && !loading
    {
      if loading {
        sent := None;
      } else if app.authMethod == "passwordless" {
        sent := HandlePasswordlessLogin(app, storage, env, reply);
      } else {
        sent := HandleSignIn(app, storage, env, reply);
      }
    }
  }
}
