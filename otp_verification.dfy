/** The OTP screen of `src/components/auth/OTPVerification.jsx`: it picks up the
    pending-auth marker written by sign-in or sign-up, checks the code's length, and on
    success swaps the marker for the session tokens. */
module OtpVerification {
  import opened Common
  import opened Json
  import opened Session
  import Api
  import AppShell
  import Storage
  import SignIn
  import SignUp

  const SessionExpired := "Session expired. Please try logging in again."
  const UserIdMissing := "User ID not found. Please try logging in again."
  const InvalidOtp := "Please enter a valid 6-digit OTP"

  /** The marker's user id as the screen's effect accepts it: present and non-empty. */
  function MarkerUserId(store: map<string, string>): (r: Option<string>)
    ensures r.Some? <==> UserIdKey in store && store[UserIdKey] != ""
    ensures r.Some? ==> r.value == store[UserIdKey]
  {
    if UserIdKey in store && store[UserIdKey] != "" then Some(store[UserIdKey]) else None
  }

  /** The contact shown: the stored `tempEmail` when non-empty, else the form's e-mail. */
  function ContactShown(store: map<string, string>, formEmail: string): (r: string)
    ensures TempEmailKey in store && store[TempEmailKey] != "" ==> r == store[TempEmailKey]
    ensures !(TempEmailKey in store && store[TempEmailKey] != "") ==> r == formEmail
  {
    if TempEmailKey in store && store[TempEmailKey] != "" then store[TempEmailKey] else formEmail
  }

  /** The code typed into the form's `otp` field. */
  function TypedCode(form: map<string, string>): string
    requires AppShell.HasFormFields(form)
  {
    form["otp"]
  }

  function OtpPayload(userId: string, otp: string): Json {
    JObj([("userId", JStr(userId)), ("otp", JStr(otp)), ("purpose", JStr("login"))])
  }

  /** The store after a verified code: the three session entries written, then the
      marker's two entries removed. */
  function Signed(store: map<string, string>, accessToken: string, refreshToken: string, user: string): map<string, string> {
    store[AccessTokenKey := accessToken][RefreshTokenKey := refreshToken][UserKey := user] - {UserIdKey} - {TempEmailKey}
  }

  /** What `handleOTPVerify` does with the settled verification call: a thrown error is
      displayed, a reply without `success` changes nothing, and a successful one swaps the
      marker for the session and opens the dashboard. */
  function VerifyOutcome(store: map<string, string>, view: string, result: Result<Json>): Step
  {
    match result
    case Err(m) => Step(store, view, m, None)
    case Ok(body) =>
      match Prop(Some(body), "success")
      case Err(m) => Step(store, view, m, None)
      case Ok(success) =>
        if !Truthy(success) then Step(store, view, "", None)
        else
          var data := OptionalProp(Some(body), "data");
          match Prop(data, "accessToken")
          case Err(m) => Step(store, view, m, None)
          case Ok(accessToken) =>
            Step(Signed(store, ToText(accessToken), ToText(OptionalProp(data, "refreshToken")), Stringify(OptionalProp(data, "user"))),
                 "dashboard", "", None)
  }

  /** `handleOTPVerify` as one transition, for the screen's `userId` and the form's code. */
  function OtpStep(env: Option<string>, store: map<string, string>, view: string,
                   userId: string, otp: string, reply: Api.Reply): Step
  {
    if userId == "" then Step(store, view, UserIdMissing, None)
    else if otp == "" || |otp| != 6 then Step(store, view, InvalidOtp, None)
    else
      var req := RequestOf(env, store, Api.VerifyOtp(OtpPayload(userId, otp)));
      VerifyOutcome(store, view, Api.Settle(reply)).(sent := Some(req))
  }

  /** Nothing is sent without a user id or with a code whose length is not six, and the
      store and the view stay as they were. */
  lemma RejectedBeforeSending(env: Option<string>, store: map<string, string>, view: string,
                              userId: string, otp: string, reply: Api.Reply)
    requires userId == "" || |otp| != 6
    ensures var st := OtpStep(env, store, view, userId, otp, reply);
            && st.sent.None? && st.store == store && st.view == view
            && st.error == (if userId == "" then UserIdMissing else InvalidOtp)
  {
  }

  /** Only the length is checked: any six characters, digits or not, are sent as the
      code together with the screen's user id and the `login` purpose. */
  lemma LengthIsTheOnlyCheck(env: Option<string>, store: map<string, string>, view: string,
                             userId: string, otp: string, reply: Api.Reply)
    requires userId != "" && |otp| == 6
    ensures var st := OtpStep(env, store, view, userId, otp, reply);
            && st.sent.Some?
            && st.sent.value.url == Api.BaseUrl(env) + "/auth/verify-otp"
            && st.sent.value.body == Some(JObj([("userId", JStr(userId)), ("otp", JStr(otp)), ("purpose", JStr("login"))]))
  {
  }

  /** The session store holds both tokens and the user, and no marker. */
  lemma SignedStore(store: map<string, string>, accessToken: string, refreshToken: string, user: string)
    ensures var s := Signed(store, accessToken, refreshToken, user);
            && UserIdKey !in s && TempEmailKey !in s && MarkerUserId(s).None?
            && StoredToken(s) == Some(accessToken) && s[RefreshTokenKey] == refreshToken && s[UserKey] == user
            && forall k :: k in store && k !in {AccessTokenKey, RefreshTokenKey, UserKey, UserIdKey, TempEmailKey} ==>
                             k in s && s[k] == store[k]
  {
  }

  /** A verified code establishes the session: both tokens and the serialized user are
      stored, the marker is gone and the dashboard shows. */
  lemma VerifiedSession(env: Option<string>, store: map<string, string>, view: string, userId: string, otp: string,
                        fields: seq<(string, Json)>, data: seq<(string, Json)>,
                        accessToken: string, refreshToken: string, user: Json)
    requires userId != "" && |otp| == 6
    requires Get(fields, "success") == Some(JBool(true)) && Get(fields, "data") == Some(JObj(data))
    requires Get(data, "accessToken") == Some(JStr(accessToken)) && Get(data, "refreshToken") == Some(JStr(refreshToken))
    requires Get(data, "user") == Some(user)
    ensures var st := OtpStep(env, store, view, userId, otp, Api.Response(true, JObj(fields)));
            && st.view == "dashboard" && st.error == ""
            && st.store == Signed(store, accessToken, refreshToken, Serialize(user))
  {
    var body := JObj(fields);
    assert Api.Settle(Api.Response(true, body)) == Ok(body);
    assert Prop(Some(body), "success") == Ok(Some(JBool(true)));
    var data' := OptionalProp(Some(body), "data");
    assert data' == Some(JObj(data));
    assert Prop(data', "accessToken") == Ok(Some(JStr(accessToken)));
    assert ToText(OptionalProp(data', "refreshToken")) == refreshToken;
    assert Stringify(OptionalProp(data', "user")) == Serialize(user);
  }

  /** Once the session is stored, every later call carries the new bearer token. */
  lemma SessionAuthorizesCalls(env: Option<string>, store: map<string, string>, accessToken: string,
                               refreshToken: string, user: string, op: Api.Operation)
    requires accessToken != ""
    ensures Get(RequestOf(env, Signed(store, accessToken, refreshToken, user), op).headers, "Authorization")
         == Some("Bearer " + accessToken)
  {
    SignedStore(store, accessToken, refreshToken, user);
  }

  /** Registration hands over to this screen: the user id returned by sign-up is the
      one the screen picks up and the one the code is verified for. */
  lemma RegisterThenVerify(env: Option<string>, store: map<string, string>, view: string,
                           form: map<string, string>, role: string, fields: seq<(string, Json)>,
                           data: seq<(string, Json)>, userId: string, otp: string, reply: Api.Reply)
    requires AppShell.HasFormFields(form)
    requires Get(fields, "success") == Some(JBool(true))
    requires Get(fields, "data") == Some(JObj(data)) && Get(data, "userId") == Some(JStr(userId))
    requires userId != "" && |otp| == 6
    ensures var signedUp := SignUp.SignUpStep(env, store, view, form, role, Api.Response(true, JObj(fields)));
            && MarkerUserId(signedUp.store) == Some(userId)
            && OtpStep(env, signedUp.store, signedUp.view, userId, otp, reply).sent.value.body == Some(OtpPayload(userId, otp))
  {
    SignUp.SuccessStoresUserIdOnly(env, store, view, form, role, fields, data, userId);
    var signedUp := SignUp.SignUpStep(env, store, view, form, role, Api.Response(true, JObj(fields)));
    LengthIsTheOnlyCheck(env, signedUp.store, signedUp.view, userId, otp, reply);
  }

  /** Password sign-in hands over the same way. */
  lemma LoginThenVerify(env: Option<string>, store: map<string, string>, view: string,
                        form: map<string, string>, role: string, fields: seq<(string, Json)>,
                        data: seq<(string, Json)>, userId: string, otp: string, reply: Api.Reply)
    requires AppShell.HasFormFields(form)
    requires Get(fields, "success") == Some(JBool(true))
    requires Get(fields, "data") == Some(JObj(data)) && Get(data, "userId") == Some(JStr(userId))
    requires userId != "" && |otp| == 6
    ensures var signedIn := SignIn.SignInStep(env, store, view, form, role, Api.Response(true, JObj(fields)));
            && MarkerUserId(signedIn.store) == Some(userId)
            && OtpStep(env, signedIn.store, signedIn.view, userId, otp, reply).sent.value.body == Some(OtpPayload(userId, otp))
  {
    SignIn.SuccessWritesMarker(env, store, view, form, role, fields, data, userId);
    var signedIn := SignIn.SignInStep(env, store, view, form, role, Api.Response(true, JObj(fields)));
    LengthIsTheOnlyCheck(env, signedIn.store, signedIn.view, userId, otp, reply);
  }

  /** After password sign-in the contact shown is the e-mail typed at sign-in whenever
      it was non-empty, whatever the form holds by then. */
  lemma LoginShowsTypedEmail(env: Option<string>, store: map<string, string>, view: string,
                             form: map<string, string>, role: string, fields: seq<(string, Json)>,
                             data: seq<(string, Json)>, userId: string, formEmail: string)
    requires AppShell.HasFormFields(form) && form["email"] != ""
    requires Get(fields, "success") == Some(JBool(true))
    requires Get(fields, "data") == Some(JObj(data)) && Get(data, "userId") == Some(JStr(userId))
    ensures ContactShown(SignIn.SignInStep(env, store, view, form, role, Api.Response(true, JObj(fields))).store, formEmail)
         == form["email"]
  {
    SignIn.SuccessWritesMarker(env, store, view, form, role, fields, data, userId);
  }

  class OtpScreen {
    var loading: bool
    var error: string
    var userId: string
    var contactInfo: string

    constructor ()
      ensures !loading && error == "" && userId == "" && contactInfo == ""
    {
      loading := false;
      error := "";
      userId := "";
      contactInfo := "";
    }

    /** The mount effect (also re-run when the form's e-mail changes). */
    method LoadMarker(storage: Storage.LocalStorage, formEmail: string)
      modifies this
      ensures MarkerUserId(storage.items).None? ==>
                error == SessionExpired && userId == old(userId) && contactInfo == old(contactInfo)
      ensures MarkerUserId(storage.items).Some? ==>
                userId == MarkerUserId(storage.items).value && contactInfo == ContactShown(storage.items, formEmail)
                && error == old(error)
      ensures loading == old(loading)
    {
      var storedUserId := storage.GetItem(UserIdKey);
      var tempEmail := storage.GetItem(TempEmailKey);
      var storedEmail := if tempEmail.Some? && tempEmail.value != "" then tempEmail.value else formEmail;
      if storedUserId.None? || storedUserId.value == "" {
        error := SessionExpired;
      } else {
        userId := storedUserId.value;
        contactInfo := storedEmail;
      }
    }

    method HandleVerify(app: AppShell.App, storage: Storage.LocalStorage, env: Option<string>, reply: Api.Reply)
      returns (sent: Option<Api.Request>)
      requires app.Valid()
      modifies this`loading, this`error, app`currentView, storage
      ensures var st := OtpStep(env, old(storage.items), old(app.currentView), old(userId), TypedCode(old(app.formData)), reply);
              storage.items == st.store && app.currentView == st.view && error == st.error && sent == st.sent
      ensures !loading
    {
      error := "";
      loading := true;
      var otp := app.formData["otp"];
      if userId == "" {
        error := UserIdMissing;
        sent := None;
      } else if otp == "" || |otp| != 6 {
        error := InvalidOtp;
        sent := None;
      } else {
        var token := storage.GetItem(AccessTokenKey);
        assert token == StoredToken(storage.items);
        var req, result := Api.ApiCall(env, Api.CallFor(Api.VerifyOtp(OtpPayload(userId, otp))), token, reply);
        assert req == RequestOf(env, storage.items, Api.VerifyOtp(OtpPayload(userId, otp)));
        sent := Some(req);
        Land(app, storage, result);
      }
      loading := false;
    }

    /** The part of `handleOTPVerify` after the verification call has settled. */
    method Land(app: AppShell.App, storage: Storage.LocalStorage, result: Result<Json>)
      requires error == ""
      modifies this`error, app`currentView, storage
      ensures var st := VerifyOutcome(old(storage.items), old(app.currentView), result);
              storage.items == st.store && app.currentView == st.view && error == st.error
    {
      match result {
        case Err(m) => error := m;
        case Ok(body) =>
          match Prop(Some(body), "success") {
            case Err(m) => error := m;
            case Ok(success) =>
              if Truthy(success) {
                var data := OptionalProp(Some(body), "data");
                match Prop(data, "accessToken") {
                  case Err(m) => error := m;
                  case Ok(accessToken) =>
                    storage.SetItem(AccessTokenKey, ToText(accessToken));
                    storage.SetItem(RefreshTokenKey, ToText(OptionalProp(data, "refreshToken")));
                    storage.SetItem(UserKey, Stringify(OptionalProp(data, "user")));
                    storage.RemoveItem(UserIdKey);
                    storage.RemoveItem(TempEmailKey);
                    app.currentView := "dashboard";
                }
              }
          }
      }
    }

    /** Submitting the form; the button is disabled while loading and while no user id
        was picked up. */
    method Submit(app: AppShell.App, storage: Storage.LocalStorage, env: Option<string>, reply: Api.Reply)
      returns (sent: Option<Api.Request>)
      requires app.Valid()
      modifies this`loading, this`error, app`currentView, storage
      ensures old(loading) || old(userId) == "" ==>
                sent.None? && storage.items == old(storage.items) && app.currentView == old(app.currentView)
                && error == old(error) && loading == old(loading)
      ensures !(old(loading) || old(userId) == "") ==>
                var st := OtpStep(env, old(storage.items), old(app.currentView), old(userId), TypedCode(old(app.formData)), reply);
                storage.items == st.store && app.currentView == st.view && error == st.error && sent == st.sent && !loading
    {
      if loading || userId == "" {
        sent := None;
      } else {
        sent := HandleVerify(app, storage, env, reply);
      }
    }
  }
}
