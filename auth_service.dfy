/** The authentication service of the front end: login, logout, the
    "is authenticated" test and the explicit token refresh, over the browser's
    key-value store. The HTTP reply each call receives is a parameter. */
module AuthService {
  import opened Wrappers
  import opened LocalStorage
  import opened AxiosInstance

  /** `login(username, password)`: on a reply with data both tokens are
      stored; the reply (or the failure) is passed back unchanged. */
  method Login(store: Storage, reply: Result<Option<TokenPair>, Failure>) returns (r: Result<Option<TokenPair>, Failure>)
    modifies store
    ensures r == reply
    ensures reply.Success? && reply.value.Some? ==>
      store.entries == WithTokens(old(store.entries), reply.value.value.accessToken, reply.value.value.refreshToken)
    ensures !(reply.Success? && reply.value.Some?) ==> store.entries == old(store.entries)
  {
    if reply.Success? && reply.value.Some? {
      store.SetItem(TokenKey, reply.value.value.accessToken);
      store.SetItem(RefreshTokenKey, reply.value.value.refreshToken);
    }
    r := reply;
  }

  /** `logout()`: removes both tokens. */
  method Logout(store: Storage)
    modifies store
    ensures store.entries == WithoutTokens(old(store.entries))
  {
    store.RemoveItem(TokenKey);
    store.RemoveItem(RefreshTokenKey);
  }

  /** `isAuthenticated()`: an access token is stored, even an empty one. */
  function IsAuthenticated(store: Storage): (r: bool)
    reads store
    ensures r <==> TokenKey in store.entries
  {
    store.GetItem(TokenKey) != None
  }

  /** `refreshToken()`: without a truthy stored refresh token it logs out and
      fails; otherwise it posts to the refresh endpoint (the path is returned
      in `sent`), on a failure logs out and rethrows, and on a reply with data
      stores the new pair and returns the new access token. */
  method RefreshToken(store: Storage, reply: Result<Option<TokenPair>, Failure>)
    returns (r: Result<Option<string>, Failure>, sent: Option<string>)
    modifies store
    ensures !HasRefreshToken(old(store.entries)) ==>
      && r == Failure(Thrown(NoRefreshTokenMessage)) && sent == None
      && store.entries == WithoutTokens(old(store.entries))
    ensures HasRefreshToken(old(store.entries)) ==>
      sent == Some(RefreshPath(old(store.entries)[RefreshTokenKey]))
    ensures HasRefreshToken(old(store.entries)) && reply.Failure? ==>
      r == Failure(reply.error) && store.entries == WithoutTokens(old(store.entries))
    ensures HasRefreshToken(old(store.entries)) && reply.Success? && reply.value.Some? ==>
      var pair := reply.value.value;
      r == Success(Some(pair.accessToken))
      && store.entries == WithTokens(old(store.entries), pair.accessToken, pair.refreshToken)
    ensures HasRefreshToken(old(store.entries)) && reply.Success? && reply.value.None? ==>
      r == Success(None) && store.entries == old(store.entries)
  {
    var refreshToken := store.GetItem(RefreshTokenKey);
    if refreshToken.None? || refreshToken.value == "" {
      // the thrown error is caught by the method's own catch block
      Logout(store);
      return Failure(Thrown(NoRefreshTokenMessage)), None;
    }
    sent := Some(RefreshPath(refreshToken.value));
    match reply {
      case Failure(f) =>
        Logout(store);
        r := Failure(f);
      case Success(data) =>
        if data.Some? {
          store.SetItem(TokenKey, data.value.accessToken);
          store.SetItem(RefreshTokenKey, data.value.refreshToken);
          r := Success(Some(data.value.accessToken));
        } else {
          r := Success(None);
        }
    }
  }
}
