/** What the three auth screens share: the `localStorage` keys of the pending-auth marker
    and the session, and the outcome of one submit handler. */
module Session {
  import opened Common
  import opened Json
  import Api
  import Storage

  const UserIdKey := "userId"
  const TempEmailKey := "tempEmail"
  const AccessTokenKey := "accessToken"
  const RefreshTokenKey := "refreshToken"
  const UserKey := "user"

  /** After one handler ran: the store, the view name, the `error` cell and the request
      sent, if any (`loading` is always `false` again). */
  datatype Step = Step(store: map<string, string>, view: string, error: string, sent: Option<Api.Request>)

  /** `localStorage.getItem('accessToken')` */
  function StoredToken(store: map<string, string>): Option<string> {
    Storage.ItemOf(store, AccessTokenKey)
  }

  /** The request a handler sends for `op`. */
  function RequestOf(env: Option<string>, store: map<string, string>, op: Api.Operation): Api.Request {
    Api.RequestFor(env, Api.CallFor(op).endpoint, Api.CallFor(op).options, StoredToken(store))
  }
}
