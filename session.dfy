/**
 * The browser session shared by the login and registration pages: the replies of
 * the login endpoint and the policy for writing the tokens to local storage.
 */
module Session {
  import opened Wrappers

  /** Browser local storage: string keys to string values. */
  type Storage = map<string, string>

  const AccessTokenKey := "access_token"
  const RefreshTokenKey := "refresh_token"

  /** JavaScript truthiness of an optional string: undefined and "" are false. */
  predicate Truthy(s: Option<string>) {
    s.Some? && s.value != ""
  }

  /** What local storage keeps for a value that may be undefined: undefined is stored as the text "undefined". */
  function AsStored(v: Option<string>): string {
    if v.Some? then v.value else "undefined"
  }

  /**
   * The three ways a login request ends: an ok reply carrying the `access` and
   * `refresh` fields, a non-ok reply carrying an `error` field, or an exception
   * (the request or the parsing of its body threw).
   */
  datatype LoginReply =
    | LoginOk(access: Option<string>, refresh: Option<string>)
    | LoginRejected(error: Option<string>)
    | LoginNetworkError

  /**
   * Store the tokens of an ok login reply: the access token always, the refresh
   * token only when it is truthy; every other entry is kept.
   */
  function StoreTokens(storage: Storage, access: Option<string>, refresh: Option<string>): (s: Storage)
    ensures s.Keys == storage.Keys + {AccessTokenKey} + (if Truthy(refresh) then {RefreshTokenKey} else {})
    ensures s[AccessTokenKey] == AsStored(access)
    ensures Truthy(refresh) ==> s[RefreshTokenKey] == refresh.value
    ensures !Truthy(refresh) && RefreshTokenKey in storage ==> s[RefreshTokenKey] == storage[RefreshTokenKey]
    ensures forall k :: k in storage && k != AccessTokenKey && k != RefreshTokenKey ==> s[k] == storage[k]
  {
    var conAcceso := storage[AccessTokenKey := AsStored(access)];
    if Truthy(refresh) then conAcceso[RefreshTokenKey := refresh.value] else conAcceso
  }
}
