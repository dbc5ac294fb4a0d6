/** Event sequences through the HTTP client, each checked against the
    contracts of `AxiosInstance.Client` alone. */
module SessionScenarios {
  import opened Wrappers
  import opened Text
  import opened LocalStorage
  import opened AxiosInstance

  function ExpiredFailure(url: string): HttpError {
    HttpError(Some(Response(401, TextBody(ExpiryMarker))), "Request failed with status code 401",
              "AxiosError: Request failed with status code 401", Request(url, Some(Bearer("T1")), false))
  }

  lemma ExpiredFailureIsExpired(url: string)
    ensures IsExpired(ExpiredFailure(url))
  {
    var e := ExpiredFailure(url);
    ContainsSelf(ExpiryMarker);
    assert e.response.value.data == TextBody(ExpiryMarker);
    assert HasMarker(e.response.value.data.text);
  }

  /** Three requests fail with an expired token while one refresh is
      outstanding: exactly one refresh call is sent, the two later requests are
      queued, and a successful refresh replays them with the new token. */
  method SingleRefreshForABurst(u1: string, u2: string, u3: string) {
    var initial := map[TokenKey := "T1", RefreshTokenKey := "R1"];
    assert HasRefreshToken(initial) && initial[RefreshTokenKey] == "R1";
    var store := new Storage(initial);
    var client := new Client(store);
    var e1, e2, e3 := ExpiredFailure(u1), ExpiredFailure(u2), ExpiredFailure(u3);
    ExpiredFailureIsExpired(u1);
    ExpiredFailureIsExpired(u2);
    ExpiredFailureIsExpired(u3);
    var o1 := client.OnResponseError(e1);
    assert o1 == AwaitingRefresh && client.isRefreshing && client.failedQueue == [];
    assert client.refreshRequests == [ApiUrl + RefreshPath("R1")];
    assert store.entries == initial;
    var o2 := client.OnResponseError(e2);
    assert o2 == Enqueued && client.failedQueue == [e2.config];
    var o3 := client.OnResponseError(e3);
    assert o3 == Enqueued && client.failedQueue == [e2.config, e3.config];
    assert client.refreshRequests == [ApiUrl + RefreshPath("R1")];
    assert client.settled == [] && store.entries == initial && !client.redirectedToLogin;
    assert client.inFlight == Some(InFlight(e1.config.(retry := true), e1));
    var o4 := client.OnRefreshReply(RefreshReplied(200, Some(TokenPair("T2", "R2"))));
    assert o4 == Replay(e1.config.(retry := true));
    var replayed := SettleAll([e2.config, e3.config], None, "T2");
    assert client.settled == replayed;
    assert |replayed| == 2;
    assert replayed[0] == Replayed(e2.config.(authorization := Some(Bearer("T2"))));
    assert replayed[1] == Replayed(e3.config.(authorization := Some(Bearer("T2"))));
    assert store.entries[TokenKey] == "T2" && store.entries[RefreshTokenKey] == "R2";
    assert !client.isRefreshing && !client.redirectedToLogin;
  }

  /** The refresh endpoint answers 400, which axios throws: the queue is
      rejected, both tokens are removed and the page goes to the login screen. */
  method RefreshRejected() {
    var store := new Storage(map[TokenKey := "T1", RefreshTokenKey := "R1"]);
    var client := new Client(store);
    var e1, e2 := ExpiredFailure("/api/tasks"), ExpiredFailure("/api/categories");
    ExpiredFailureIsExpired("/api/tasks");
    ExpiredFailureIsExpired("/api/categories");
    var o1 := client.OnResponseError(e1);
    var o2 := client.OnResponseError(e2);
    var refreshError := Http(HttpError(Some(Response(400, NoBody)), "Request failed with status code 400",
                                       "AxiosError", Request(ApiUrl + RefreshPath("R1"), None, false)));
    var o3 := client.OnRefreshReply(RefreshThrew(refreshError));
    assert o3 == Reject(refreshError);
    assert client.settled == [Rejected(e2.config, refreshError)];
    assert TokenKey !in store.entries && RefreshTokenKey !in store.entries;
    assert client.redirectedToLogin && !client.isRefreshing;
  }

  /** With no refresh token stored the request is rejected at once and no refresh call is sent. */
  method NoRefreshToken() {
    var store := new Storage(map[TokenKey := "T1"]);
    var client := new Client(store);
    var e1 := ExpiredFailure("/api/tasks");
    ExpiredFailureIsExpired("/api/tasks");
    var o1 := client.OnResponseError(e1);
    assert o1 == Reject(Thrown(NoRefreshTokenMessage));
    assert client.refreshRequests == [] && client.redirectedToLogin;
    assert TokenKey !in store.entries;
  }
}
