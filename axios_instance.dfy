/** The shared HTTP client: a request interceptor that attaches the stored
    access token, and a response-error interceptor that detects an expired
    token, refreshes it once for a burst of failures, queues the requests that
    fail meanwhile and replays them, and clears the session on a failure it
    cannot recover from.

    The interceptor runs on one event loop. Its only suspension point is the
    refresh call, so it is modelled as two events on one `Client` object:
    `OnResponseError` (a request failed) and `OnRefreshReply` (the refresh call
    has settled). A full-page navigation to `/login` is the flag
    `redirectedToLogin`; settling a queued promise is an entry appended to
    `settled`. */
module AxiosInstance {
  import opened Wrappers
  import opened Text
  import opened LocalStorage

  const ApiUrl: string := "http://localhost:8080"
  const ExpiryMarker: string := "JWT expired"
  const AuthPathMarker: string := "/api/auth/"
  const NoRefreshTokenMessage: string := "No refresh token available"
  /** What `String(object)` yields for a plain object. */
  const ObjectText: string := "[object Object]"

  /** `response.data`: absent (or empty), a string, or a JSON object of which
      the interceptor reads `message` and `error`. */
  datatype Body =
    | NoBody
    | TextBody(text: string)
    | JsonBody(message: Option<string>, error: Option<string>)

  datatype Response = Response(status: int, data: Body)

  /** The request config: its URL, its `Authorization` header and the `_retry` mark. */
  datatype Request = Request(url: string, authorization: Option<string>, retry: bool)

  /** An axios error: the response if one arrived, `error.message`,
      `error.toString()` and the config of the failed request. */
  datatype HttpError = HttpError(response: Option<Response>, message: string, text: string, config: Request)

  /** What a promise is rejected with: an axios error or an `Error` thrown by the client code. */
  datatype Failure = Http(error: HttpError) | Thrown(message: string)

  /** `response.data` of a successful login or refresh. */
  datatype TokenPair = TokenPair(accessToken: string, refreshToken: string)

  function Bearer(token: string): string {
    "Bearer " + token
  }

  /** The path of the refresh endpoint for a given refresh token. */
  function RefreshPath(refreshToken: string): string {
    "/api/auth/refresh-token?refreshToken=" + refreshToken
  }

  // ---------------------------------------------------------------------------
  // Request interceptor

  /** The request interceptor: sets `Authorization: Bearer <token>` when a
      non-empty token is stored, and otherwise leaves the request as it is. */
  function AttachToken(entries: map<string, string>, config: Request): (r: Request)
    ensures r.url == config.url && r.retry == config.retry
    ensures TokenKey in entries && entries[TokenKey] != "" ==> r.authorization == Some(Bearer(entries[TokenKey]))
    ensures !(TokenKey in entries && entries[TokenKey] != "") ==> r == config
  {
    if TokenKey in entries && entries[TokenKey] != "" then
      config.(authorization := Some(Bearer(entries[TokenKey])))
    else
      config
  }

  // ---------------------------------------------------------------------------
  // Expiry classification

  predicate HasMarker(s: string) {
    Contains(s, ExpiryMarker)
  }

  /** Truthiness of `error.response.data`. */
  predicate DataTruthy(b: Body) {
    match b
    case NoBody => false
    case TextBody(t) => t != ""
    case JsonBody(_, _) => true
  }

  /** `error.response.data.toString()` */
  function DataText(b: Body): string {
    match b
    case NoBody => ""
    case TextBody(t) => t
    case JsonBody(_, _) => ObjectText
  }

  /** A truthy optional string field that contains the marker. */
  predicate FieldHasMarker(f: Option<string>) {
    f.Some? && f.value != "" && HasMarker(f.value)
  }

  /** The classifier of the response-error interceptor, clause by clause:
      a response arrived, its status is 401 or 403, the request is not marked
      `_retry`, and the marker occurs in one of the six places inspected. */
  predicate IsExpired(e: HttpError) {
    && e.response.Some?
    && (e.response.value.status == 401 || e.response.value.status == 403)
    && !e.config.retry
    && var data := e.response.value.data;
       || (data.TextBody? && HasMarker(data.text))
       || (DataTruthy(data) && data.JsonBody? && FieldHasMarker(data.message))
       || (DataTruthy(data) && data.JsonBody? && FieldHasMarker(data.error))
       || (e.message != "" && HasMarker(e.message))
       || HasMarker(e.text)
       || (DataTruthy(data) && HasMarker(DataText(data)))
  }

  /** The marker occurs somewhere in the body, in `error.message` or in
      `error.toString()`. */
  predicate MarkerAnywhere(e: HttpError)
    requires e.response.Some?
  {
    var data := e.response.value.data;
    || (data.TextBody? && HasMarker(data.text))
    || (data.JsonBody? && data.message.Some? && HasMarker(data.message.value))
    || (data.JsonBody? && data.error.Some? && HasMarker(data.error.value))
    || HasMarker(e.message)
    || HasMarker(e.text)
  }

  lemma {:induction false} ContainsFirstChar(s: string, p: string)
    requires |p| > 0 && Contains(s, p)
    ensures p[0] in s
    decreases |s|
  {
    if !StartsWith(s, p) {
      ContainsFirstChar(s[1..], p);
    } else {
      assert s[0] == p[0];
    }
  }

  /** A string without the first character of `p` does not contain `p`. */
  lemma LacksFirstChar(s: string, p: string)
    requires |p| > 0 && p[0] !in s
    ensures !Contains(s, p)
  {
    if Contains(s, p) {
      ContainsFirstChar(s, p);
    }
  }

  lemma ObjectTextLacksMarker()
    ensures !HasMarker(ObjectText)
  {
    assert ExpiryMarker[0] == 'J' && 'J' !in ObjectText;
    LacksFirstChar(ObjectText, ExpiryMarker);
  }

  lemma EmptyLacksMarker()
    ensures !HasMarker("")
  {
  }

  /** The classifier accepts exactly the failures with a 401 or 403 response,
      no `_retry` mark and the marker in the string body, the body's `message`
      or `error`, the error's message or its string form; the truthiness
      guards and the last check (`data.toString()`) accept nothing more. */
  lemma ExpiredIff(e: HttpError)
    ensures IsExpired(e) <==>
      && e.response.Some?
      && (e.response.value.status == 401 || e.response.value.status == 403)
      && !e.config.retry
      && MarkerAnywhere(e)
  {
    ObjectTextLacksMarker();
    EmptyLacksMarker();
    if e.response.Some? {
      var data := e.response.value.data;
      assert DataTruthy(data) && HasMarker(DataText(data)) ==> data.TextBody? && HasMarker(data.text);
      assert (e.message != "" && HasMarker(e.message)) == HasMarker(e.message);
      if data.JsonBody? {
        assert FieldHasMarker(data.message) == (data.message.Some? && HasMarker(data.message.value));
        assert FieldHasMarker(data.error) == (data.error.Some? && HasMarker(data.error.value));
      }
    }
  }

  /** A request whose failure may clear the session is one outside `/api/auth/`. */
  predicate IsAuthEndpoint(url: string) {
    Contains(url, AuthPathMarker)
  }

  /** A plain 401 on a non-authentication endpoint ends the session. */
  predicate ClearsSession(e: HttpError) {
    e.response.Some? && e.response.value.status == 401 && !IsAuthEndpoint(e.config.url)
  }

  // ---------------------------------------------------------------------------
  // The queue of requests waiting for a refresh

  /** How a queued request ended when `processQueue` ran. */
  datatype Settlement = Replayed(request: Request) | Rejected(request: Request, reason: Failure)

  /** `processQueue(error, token)` applied to the queue: with an error every
      entry is rejected with it, otherwise every entry is replayed carrying the
      same new bearer token; order and number of entries are kept. */
  function SettleAll(queue: seq<Request>, error: Option<Failure>, token: string): (r: seq<Settlement>)
    ensures |r| == |queue|
    ensures error.Some? ==> forall i :: 0 <= i < |r| ==> r[i] == Rejected(queue[i], error.value)
    ensures error.None? ==> forall i :: 0 <= i < |r| ==>
      r[i].Replayed? && r[i].request == queue[i].(authorization := Some(Bearer(token)))
    decreases |queue|
  {
    if queue == [] then []
    else
      var rest := SettleAll(queue[1..], error, token);
      var r := [Settle(queue[0], error, token)] + rest;
      assert forall i :: 1 <= i < |r| ==> r[i] == rest[i - 1] && queue[i] == queue[1..][i - 1];
      r
  }

  /** The settlement of one queued request. */
  function Settle(request: Request, error: Option<Failure>, token: string): Settlement {
    if error.Some? then Rejected(request, error.value) else Replayed(request.(authorization := Some(Bearer(token))))
  }

  /** What the response-error interceptor does with one failed request. */
  datatype Outcome =
    | Reject(reason: Failure)       // the caller's promise is rejected
    | Enqueued                      // suspended in the queue until the refresh settles
    | AwaitingRefresh               // suspended on the refresh call it has started
    | Replay(request: Request)      // the original request is sent again

  /** How the refresh call settled: it threw, or it replied with a status and maybe data. */
  datatype RefreshReply = RefreshThrew(error: Failure) | RefreshReplied(status: int, data: Option<TokenPair>)

  /** Only a 200 reply with data takes the success path. */
  predicate RefreshSucceeded(reply: RefreshReply) {
    reply.RefreshReplied? && reply.status == 200 && reply.data.Some?
  }

  /** The handler invocation suspended on the refresh call: the original
      request (now marked `_retry`) and the error that started the refresh. */
  datatype InFlight = InFlight(original: Request, cause: HttpError)

  class Client {
    /** `localStorage` */
    const store: Storage
    /** The module-level `isRefreshing` gate. */
    var isRefreshing: bool
    /** The module-level `failedQueue`: the configs of the requests waiting. */
    var failedQueue: seq<Request>
    /** The refresh in flight, if any. */
    var inFlight: Option<InFlight>
    /** `axiosInstance.defaults.headers.common.Authorization` */
    var defaultAuthorization: Option<string>
    /** Whether `window.location.href = "/login"` has run. */
    var redirectedToLogin: bool
    /** The URLs of the refresh calls sent to the backend, in order. */
    var refreshRequests: seq<string>
    /** Every queue entry settled so far, in order. */
    var settled: seq<Settlement>

    /** The gate is set exactly while a refresh call is in flight. */
    ghost predicate Valid()
      reads this
    {
      isRefreshing <==> inFlight.Some?
    }

    constructor (store: Storage)
      ensures Valid() && this.store == store
      ensures !isRefreshing && failedQueue == [] && inFlight == None
      ensures defaultAuthorization == None && !redirectedToLogin
      ensures refreshRequests == [] && settled == []
    {
      this.store := store;
      isRefreshing := false;
      failedQueue := [];
      inFlight := None;
      defaultAuthorization := None;
      redirectedToLogin := false;
      refreshRequests := [];
      settled := [];
    }

    /** `processQueue(error, token)`: settles every queued entry in order and empties the queue. */
    method ProcessQueue(error: Option<Failure>, token: string)
      modifies this`failedQueue, this`settled
      ensures settled == old(settled) + SettleAll(old(failedQueue), error, token)
      ensures failedQueue == []
    {
      var queue := failedQueue;
      var done: seq<Settlement> := [];
      var i := 0;
      while i < |queue|
        invariant 0 <= i <= |queue|
        invariant done == SettleAll(queue[..i], error, token)
        invariant queue == old(failedQueue) && settled == old(settled)
      {
        var s := Settle(queue[i], error, token);
        assert queue[..i + 1] == queue[..i] + [queue[i]];
        SettleAllAppend(queue[..i], queue[i], error, token);
        assert SettleAll([queue[i]], error, token) == [s];
        done := done + [s];
        i := i + 1;
      }
      assert queue[..i] == queue;
      settled := settled + done;
      failedQueue := [];
    }

    /** Removes both tokens and navigates to the login page. */
    method ClearSession()
      modifies store, this`redirectedToLogin
      ensures store.entries == WithoutTokens(old(store.entries))
      ensures redirectedToLogin
    {
      store.RemoveItem(TokenKey);
      store.RemoveItem(RefreshTokenKey);
      redirectedToLogin := true;
    }

    /** The 401 check the handler reaches for every error it does not recover:
        a 401 outside `/api/auth/` clears the session. */
    method ClearIfUnauthenticated(e: HttpError)
      modifies store, this`redirectedToLogin
      ensures store.entries == if ClearsSession(e) then WithoutTokens(old(store.entries)) else old(store.entries)
      ensures redirectedToLogin == (old(redirectedToLogin) || ClearsSession(e))
    {
      if e.response.Some? && e.response.value.status == 401 {
        var isAuthEndpoint := Contains(e.config.url, AuthPathMarker);
        if !isAuthEndpoint {
          ClearSession();
        }
      }
    }

    /** The response-error interceptor, up to the refresh call. */
    method OnResponseError(e: HttpError) returns (o: Outcome)
      requires Valid()
      modifies this, store
      ensures Valid()
      ensures defaultAuthorization == old(defaultAuthorization)
      // a refresh is in flight: queue the request, start nothing
      ensures IsExpired(e) && old(isRefreshing) ==>
        && o == Enqueued
        && failedQueue == old(failedQueue) + [e.config]
        && isRefreshing && inFlight == old(inFlight)
        && refreshRequests == old(refreshRequests) && settled == old(settled)
        && store.entries == old(store.entries) && redirectedToLogin == old(redirectedToLogin)
      // no refresh token: reject everything, clear the session
      ensures IsExpired(e) && !old(isRefreshing) && !HasRefreshToken(old(store.entries)) ==>
        && o == Reject(Thrown(NoRefreshTokenMessage))
        && settled == old(settled) + SettleAll(old(failedQueue), Some(Thrown(NoRefreshTokenMessage)), "")
        && failedQueue == []
        && !isRefreshing && inFlight == None
        && refreshRequests == old(refreshRequests)
        && store.entries == WithoutTokens(old(store.entries)) && redirectedToLogin
      // start the one refresh call, marking the request `_retry`
      ensures IsExpired(e) && !old(isRefreshing) && HasRefreshToken(old(store.entries)) ==>
        && o == AwaitingRefresh
        && isRefreshing && inFlight == Some(InFlight(e.config.(retry := true), e))
        && refreshRequests == old(refreshRequests) + [ApiUrl + RefreshPath(old(store.entries)[RefreshTokenKey])]
        && failedQueue == old(failedQueue) && settled == old(settled)
        && store.entries == old(store.entries) && redirectedToLogin == old(redirectedToLogin)
      // any other failure is rejected, after the 401 check
      ensures !IsExpired(e) ==>
        && o == Reject(Http(e))
        && isRefreshing == old(isRefreshing) && inFlight == old(inFlight)
        && failedQueue == old(failedQueue) && settled == old(settled)
        && refreshRequests == old(refreshRequests)
        && store.entries == (if ClearsSession(e) then WithoutTokens(old(store.entries)) else old(store.entries))
        && redirectedToLogin == (old(redirectedToLogin) || ClearsSession(e))
    {
      if IsExpired(e) {
        if isRefreshing {
          failedQueue := failedQueue + [e.config];
          return Enqueued;
        }
        var originalRequest := e.config.(retry := true);
        isRefreshing := true;
        var refreshToken := store.GetItem(RefreshTokenKey);
        if refreshToken.None? || refreshToken.value == "" {
          // `throw new Error(...)` lands in the catch block, then `finally`
          var refreshError := Thrown(NoRefreshTokenMessage);
          ProcessQueue(Some(refreshError), "");
          ClearSession();
          isRefreshing := false;
          return Reject(refreshError);
        }
        refreshRequests := refreshRequests + [ApiUrl + RefreshPath(refreshToken.value)];
        inFlight := Some(InFlight(originalRequest, e));
        return AwaitingRefresh;
      }
      ClearIfUnauthenticated(e);
      o := Reject(Http(e));
    }

    /** The rest of the response-error interceptor, once the refresh call settles. */
    method OnRefreshReply(reply: RefreshReply) returns (o: Outcome)
      requires Valid() && inFlight.Some?
      modifies this, store
      ensures Valid() && !isRefreshing && inFlight == None
      ensures refreshRequests == old(refreshRequests)
      // the call threw: reject the queue and the caller, clear the session
      ensures reply.RefreshThrew? ==>
        && o == Reject(reply.error)
        && settled == old(settled) + SettleAll(old(failedQueue), Some(reply.error), "")
        && failedQueue == []
        && store.entries == WithoutTokens(old(store.entries)) && redirectedToLogin
        && defaultAuthorization == old(defaultAuthorization)
      // 200 with data: store the pair, replay the queue and the original request
      ensures RefreshSucceeded(reply) ==>
        var pair := reply.data.value;
        && o == Replay(old(inFlight).value.original)
        && store.entries == WithTokens(old(store.entries), pair.accessToken, pair.refreshToken)
        && defaultAuthorization == Some(Bearer(pair.accessToken))
        && settled == old(settled) + SettleAll(old(failedQueue), None, pair.accessToken)
        && failedQueue == []
        && redirectedToLogin == old(redirectedToLogin)
        && (pair.accessToken != "" ==>
              AttachToken(store.entries, o.request).authorization == Some(Bearer(pair.accessToken)))
      // any other reply: the queue is left as it is and the original error falls
      // through to the 401 check
      ensures reply.RefreshReplied? && !RefreshSucceeded(reply) ==>
        var cause := old(inFlight).value.cause;
        && o == Reject(Http(cause))
        && failedQueue == old(failedQueue) && settled == old(settled)
        && defaultAuthorization == old(defaultAuthorization)
        && store.entries == (if ClearsSession(cause) then WithoutTokens(old(store.entries)) else old(store.entries))
        && redirectedToLogin == (old(redirectedToLogin) || ClearsSession(cause))
    {
      var pending := inFlight.value;
      inFlight := None;
      match reply {
        case RefreshThrew(refreshError) =>
          ProcessQueue(Some(refreshError), "");
          ClearSession();
          isRefreshing := false;
          return Reject(refreshError);
        case RefreshReplied(status, data) =>
          if status == 200 && data.Some? {
            var newAccessToken := data.value.accessToken;
            store.SetItem(TokenKey, newAccessToken);
            store.SetItem(RefreshTokenKey, data.value.refreshToken);
            defaultAuthorization := Some(Bearer(newAccessToken));
            ProcessQueue(None, newAccessToken);
            isRefreshing := false;
            return Replay(pending.original);
          }
          isRefreshing := false;
          ClearIfUnauthenticated(pending.cause);
          return Reject(Http(pending.cause));
      }
    }
  }

  lemma {:induction false} SettleAllAppend(queue: seq<Request>, last: Request, error: Option<Failure>, token: string)
    ensures SettleAll(queue + [last], error, token) ==
      SettleAll(queue, error, token) + SettleAll([last], error, token)
    decreases |queue|
  {
    if queue != [] {
      assert (queue + [last])[1..] == queue[1..] + [last];
      SettleAllAppend(queue[1..], last, error, token);
    } else {
      assert queue + [last] == [last];
    }
  }
}
