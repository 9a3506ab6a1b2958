/** The registration screen of `src/components/auth/SignUp.jsx`: the role-dependent
    registration payload and the handler that stores a user id and moves to OTP entry. */
module SignUp {
  import opened Common
  import opened Json
  import opened Session
  import Api
  import AppShell
  import Storage

  /** The registration body: the four common fields, then the name fields for the
      `user` role and the organization name for every other role. */
  function RegistrationPayload(form: map<string, string>, role: string): Json
    requires AppShell.HasFormFields(form)
  {
    var common := [("email", JStr(form["email"])), ("phone", JStr(form["phone"])),
                   ("password", JStr(form["password"])), ("role", JStr(role))];
    if role == "user" then
      JObj(common + [("firstName", JStr(form["firstName"])), ("lastName", JStr(form["lastName"]))])
    else
      JObj(common + [("organizationName", JStr(form["organizationName"]))])
  }

  /** `handleSignUp` as one transition. */
  function SignUpStep(env: Option<string>, store: map<string, string>, view: string,
                      form: map<string, string>, role: string, reply: Api.Reply): Step
    requires AppShell.HasFormFields(form)
  {
    var req := RequestOf(env, store, Api.Register(RegistrationPayload(form, role)));
    RegisterOutcome(store, view, Api.Settle(reply)).(sent := Some(req))
  }

  /** What `handleSignUp` does with the settled registration call: only the user id is
      stored as the marker before OTP entry. */
  function RegisterOutcome(store: map<string, string>, view: string, result: Result<Json>): Step
  {
    match result
    case Err(m) => Step(store, view, m, None)
    case Ok(body) =>
      match Prop(Some(body), "success")
      case Err(m) => Step(store, view, m, None)
      case Ok(success) =>
        if !Truthy(success) then Step(store, view, "", None)
        else
          match Prop(OptionalProp(Some(body), "data"), "userId")
          case Err(m) => Step(store, view, m, None)
          case Ok(userId) => Step(store[UserIdKey := ToText(userId)], "otp", "", None)
  }

  /** Which fields are sent, and in which order. */
  lemma {:induction false} PayloadKeys(form: map<string, string>, role: string)
    requires AppShell.HasFormFields(form)
    ensures var p := RegistrationPayload(form, role);
            && p.JObj?
            && Keys(p.fields) == (if role == "user" then ["email", "phone", "password", "role", "firstName", "lastName"]
                                  else ["email", "phone", "password", "role", "organizationName"])
  {
    var p := RegistrationPayload(form, role);
    if role == "user" {
      assert Keys(p.fields[6..]) == [];
      assert Keys(p.fields[5..]) == ["lastName"];
      assert Keys(p.fields[4..]) == ["firstName", "lastName"];
      assert Keys(p.fields[3..]) == ["role", "firstName", "lastName"];
      assert Keys(p.fields[2..]) == ["password", "role", "firstName", "lastName"];
      assert Keys(p.fields[1..]) == ["phone", "password", "role", "firstName", "lastName"];
    } else {
      assert Keys(p.fields[5..]) == [];
      assert Keys(p.fields[4..]) == ["organizationName"];
      assert Keys(p.fields[3..]) == ["role", "organizationName"];
      assert Keys(p.fields[2..]) == ["password", "role", "organizationName"];
      assert Keys(p.fields[1..]) == ["phone", "password", "role", "organizationName"];
    }
  }

  /** Each field sent is the form's value, and the confirmation is never sent. */
  lemma PayloadValues(form: map<string, string>, role: string)
    requires AppShell.HasFormFields(form)
    ensures var p := RegistrationPayload(form, role);
            && p.JObj?
            && Get(p.fields, "email") == Some(JStr(form["email"]))
            && Get(p.fields, "phone") == Some(JStr(form["phone"]))
            && Get(p.fields, "password") == Some(JStr(form["password"]))
            && Get(p.fields, "role") == Some(JStr(role))
            && (role == "user" ==>
                  Get(p.fields, "firstName") == Some(JStr(form["firstName"])) &&
                  Get(p.fields, "lastName") == Some(JStr(form["lastName"])))
            && (role != "user" ==> Get(p.fields, "organizationName") == Some(JStr(form["organizationName"])))
            && Get(p.fields, "confirmPassword").None?
  {
    var p := RegistrationPayload(form, role);
    GetFirst(p.fields, "email", 0);
    GetFirst(p.fields, "phone", 1);
    GetFirst(p.fields, "password", 2);
    GetFirst(p.fields, "role", 3);
    if role == "user" {
      GetFirst(p.fields, "firstName", 4);
      GetFirst(p.fields, "lastName", 5);
    } else {
      GetFirst(p.fields, "organizationName", 4);
    }
    GetFinds(p.fields, "confirmPassword");
  }

  /** The organization name is sent exactly for the roles other than `user`, the name
      fields exactly for `user`. */
  lemma OrganizationNameIffNotUser(form: map<string, string>, role: string)
    requires AppShell.HasFormFields(form)
    ensures var p := RegistrationPayload(form, role);
            && p.JObj?
            && (role == "user" <==> Get(p.fields, "organizationName").None?)
            && (role == "user" <==> Get(p.fields, "firstName").Some?)
  {
    var p := RegistrationPayload(form, role);
    if role == "user" {
      GetFirst(p.fields, "firstName", 4);
      GetFinds(p.fields, "organizationName");
    } else {
      GetFirst(p.fields, "organizationName", 4);
      GetFinds(p.fields, "firstName");
    }
  }

  /** The confirmation field is never compared nor sent: two forms that differ only
      there lead to the same transition. */
  lemma ConfirmationIgnored(env: Option<string>, store: map<string, string>, view: string,
                            form: map<string, string>, confirm: string, role: string, reply: Api.Reply)
    requires AppShell.HasFormFields(form)
    ensures AppShell.HasFormFields(form["confirmPassword" := confirm])
    ensures SignUpStep(env, store, view, form["confirmPassword" := confirm], role, reply)
         == SignUpStep(env, store, view, form, role, reply)
  {
    var form' := form["confirmPassword" := confirm];
    assert form'.Keys == form.Keys;
    assert RegistrationPayload(form', role) == RegistrationPayload(form, role);
  }

  /** Success stores only the user id (no `tempEmail`) and moves to OTP entry; a thrown
      error keeps the store and the view. */
  lemma SuccessStoresUserIdOnly(env: Option<string>, store: map<string, string>, view: string,
                                form: map<string, string>, role: string, fields: seq<(string, Json)>,
                                data: seq<(string, Json)>, userId: string)
    requires AppShell.HasFormFields(form)
    requires Get(fields, "success") == Some(JBool(true))
    requires Get(fields, "data") == Some(JObj(data)) && Get(data, "userId") == Some(JStr(userId))
    ensures var st := SignUpStep(env, store, view, form, role, Api.Response(true, JObj(fields)));
            && st.store == store[UserIdKey := userId] && st.view == "otp" && st.error == ""
            && (TempEmailKey in st.store <==> TempEmailKey in store)
  {
  }

  lemma FailureKeepsSession(env: Option<string>, store: map<string, string>, view: string,
                            form: map<string, string>, role: string, reply: Api.Reply)
    requires AppShell.HasFormFields(form)
    requires Api.Settle(reply).Err?
    ensures var st := SignUpStep(env, store, view, form, role, reply);
            st.store == store && st.view == view && st.error == Api.Settle(reply).message
  {
  }

  class SignUpScreen {
    var loading: bool
    var error: string

    constructor ()
      ensures !loading && error == ""
    {
      loading := false;
      error := "";
    }

    method HandleSignUp(app: AppShell.App, storage: Storage.LocalStorage, env: Option<string>, reply: Api.Reply)
      returns (sent: Option<Api.Request>)
      requires app.Valid()
      modifies this, app`currentView, storage
      ensures var st := SignUpStep(env, old(storage.items), old(app.currentView), old(app.formData), old(app.userRole), reply);
              storage.items == st.store && app.currentView == st.view && error == st.error && sent == st.sent
      ensures !loading
    {
      error := "";
      loading := true;
      var userData := RegistrationPayload(app.formData, app.userRole);
      var token := storage.GetItem(AccessTokenKey);
      assert token == StoredToken(storage.items);
      var req, result := Api.ApiCall(env, Api.CallFor(Api.Register(userData)), token, reply);
      assert req == RequestOf(env, storage.items, Api.Register(userData));
      sent := Some(req);
      Land(app, storage, result);
      loading := false;
    }

    /** The part of `handleSignUp` after the registration call has settled. */
    method Land(app: AppShell.App, storage: Storage.LocalStorage, result: Result<Json>)
      requires error == ""
      modifies this`error, app`currentView, storage
      ensures var st := RegisterOutcome(old(storage.items), old(app.currentView), result);
              storage.items == st.store && app.currentView == st.view && error == st.error
    {
      match result {
        case Err(m) => error := m;
        case Ok(body) =>
          match Prop(Some(body), "success") {
            case Err(m) => error := m;
            case Ok(success) =>
              if Truthy(success) {
                match Prop(OptionalProp(Some(body), "data"), "userId") {
                  case Err(m) => error := m;
                  case Ok(userId) =>
                    storage.SetItem(UserIdKey, ToText(userId));
                    app.currentView := "otp";
                }
              }
          }
      }
    }
  }
}
