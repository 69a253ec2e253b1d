/** The authenticated API client: a request step that attaches the stored access
    token as a bearer credential, and a response step that, on a 401, refreshes
    the access token once and replays the requests that failed meanwhile.

    The browser runs each handler without interruption up to its `await`, so the
    response step is modelled as a sequence of atomic events: an error response
    reaching the handler, and the refresh call it awaits succeeding or failing.
    The handler suspended at that `await` is recorded as `awaiting`. */
module Axios {
  import opened Wrappers
  import opened Storage
  import opened AuthUtils
  import UseAuth

  const SIGN_IN_PATH := "/auth/signin"
  const REFRESH_PATH := "/auth/refresh"
  const AUTHORIZATION := "Authorization"

  /** A request configuration: its identity, its headers and the `_retry` mark
      the response step puts on a request it has started a refresh for. */
  datatype Request = Request(id: nat, headers: map<string, string>, retry: bool)

  /** A failed response reaching the response step: the HTTP status, if a
      response arrived at all, and the request that failed. */
  datatype HttpError = HttpError(status: Option<int>, config: Request)

  /** The failure of the refresh call itself. */
  datatype RefreshError = RefreshError(status: Option<int>)

  /** `"Bearer " + token`, the credential form of section 2.1 of RFC 6750. */
  function Bearer(token: string): string {
    "Bearer " + token
  }

  function WithAuthorization(r: Request, credential: string): Request {
    r.(headers := r.headers[AUTHORIZATION := credential])
  }

  /** The request step for a store holding `items`. */
  function Authorize(config: Request, items: map<string, string>): (c: Request)
    ensures c.id == config.id && c.retry == config.retry
    ensures forall k :: k != AUTHORIZATION ==>
      (k in c.headers <==> k in config.headers) && (k in config.headers ==> c.headers[k] == config.headers[k])
    ensures Present(TokensIn(items).accessToken) ==>
      AUTHORIZATION in c.headers && c.headers[AUTHORIZATION] == Bearer(items[TOKEN_KEY])
    ensures !Present(TokensIn(items).accessToken) ==> c == config
  {
    var accessToken := TokensIn(items).accessToken;
    if Present(accessToken) then WithAuthorization(config, Bearer(accessToken.value)) else config
  }

  /** Axios merges the client's `defaults.headers.common` into each request
      before the request step sees it; a header the request sets itself wins. */
  function WithDefaults(config: Request, defaultAuthorization: Option<string>): (c: Request)
    ensures c.id == config.id && c.retry == config.retry
    ensures forall k :: k != AUTHORIZATION ==>
      (k in c.headers <==> k in config.headers) && (k in config.headers ==> c.headers[k] == config.headers[k])
    ensures AUTHORIZATION in c.headers <==> AUTHORIZATION in config.headers || defaultAuthorization.Some?
    ensures AUTHORIZATION in config.headers ==> c.headers[AUTHORIZATION] == config.headers[AUTHORIZATION]
    ensures AUTHORIZATION !in config.headers && defaultAuthorization.Some? ==>
      c.headers[AUTHORIZATION] == defaultAuthorization.value
  {
    if AUTHORIZATION !in config.headers && defaultAuthorization.Some? then
      WithAuthorization(config, defaultAuthorization.value)
    else
      config
  }

  /** The request that leaves the client: the defaults merged in, then the request step. */
  function Outgoing(config: Request, defaultAuthorization: Option<string>, items: map<string, string>): Request {
    Authorize(WithDefaults(config, defaultAuthorization), items)
  }

  /** While an access token is stored, the request carries it, whatever the
      default header or the request's own header says. */
  lemma StoredTokenWinsOverDefault(config: Request, defaultAuthorization: Option<string>, items: map<string, string>)
    requires Present(TokensIn(items).accessToken)
    ensures var c := Outgoing(config, defaultAuthorization, items);
      AUTHORIZATION in c.headers && c.headers[AUTHORIZATION] == Bearer(items[TOKEN_KEY])
  {
  }

  /** Without a stored access token the default header decides: a request
      without a header of its own goes out with the default credential, if any. */
  lemma DefaultUsedWithoutStoredToken(config: Request, defaultAuthorization: Option<string>, items: map<string, string>)
    requires !Present(TokensIn(items).accessToken) && AUTHORIZATION !in config.headers
    ensures var c := Outgoing(config, defaultAuthorization, items);
      (AUTHORIZATION in c.headers <==> defaultAuthorization.Some?) &&
      (defaultAuthorization.Some? ==> c.headers[AUTHORIZATION] == defaultAuthorization.value)
  {
  }

  /** How one waiting entry is settled by `processQueue(error, token)`. */
  datatype Settlement =
    | Resolved(request: Request, token: Option<string>)
    | Rejected(request: Request, reason: RefreshError)

  function Settle(r: Request, error: Option<RefreshError>, token: Option<string>): Settlement {
    if error.Some? then Rejected(r, error.value) else Resolved(r, token)
  }

  /** The settlements `processQueue(error, token)` makes, in the order it makes them. */
  function SettleAll(queue: seq<Request>, error: Option<RefreshError>, token: Option<string>): seq<Settlement> {
    if queue == [] then [] else [Settle(queue[0], error, token)] + SettleAll(queue[1..], error, token)
  }

  /** Settling two queues one after the other settles their concatenation. */
  lemma {:induction false} SettleAllAppend(a: seq<Request>, b: seq<Request>, error: Option<RefreshError>, token: Option<string>)
    ensures SettleAll(a + b, error, token) == SettleAll(a, error, token) + SettleAll(b, error, token)
  {
    if a != [] {
      SettleAllAppend(a[1..], b, error, token);
      assert (a + b)[1..] == a[1..] + b;
    } else {
      assert a + b == b;
    }
  }

  /** The loop of `processQueue`: settles the entries one by one, in order. */
  method SettleQueue(queue: seq<Request>, error: Option<RefreshError>, token: Option<string>) returns (settled: seq<Settlement>)
    ensures settled == SettleAll(queue, error, token)
  {
    settled := [];
    var i := 0;
    while i < |queue|
      invariant 0 <= i <= |queue|
      invariant settled == SettleAll(queue[..i], error, token)
    {
      assert queue[..i + 1] == queue[..i] + [queue[i]];
      SettleAllAppend(queue[..i], [queue[i]], error, token);
      settled := settled + [Settle(queue[i], error, token)];
      i := i + 1;
    }
    assert queue[..i] == queue;
  }

  /** Every waiting entry is settled exactly once, in the order it was queued:
      all rejected with the error when there is one, all resolved with the token otherwise. */
  lemma {:induction false} SettleAllInOrder(queue: seq<Request>, error: Option<RefreshError>, token: Option<string>)
    ensures |SettleAll(queue, error, token)| == |queue|
    ensures forall i :: 0 <= i < |queue| ==> SettleAll(queue, error, token)[i].request == queue[i]
    ensures error.Some? ==> forall i :: 0 <= i < |queue| ==> SettleAll(queue, error, token)[i] == Rejected(queue[i], error.value)
    ensures error.None? ==> forall i :: 0 <= i < |queue| ==> SettleAll(queue, error, token)[i] == Resolved(queue[i], token)
  {
    if queue != [] {
      SettleAllInOrder(queue[1..], error, token);
    }
  }

  /** What the continuation of a resolved entry sends again: the request with the
      new credential, and without the `_retry` mark it never received. */
  function ReplayOf(s: Settlement): Request
    requires s.Resolved?
  {
    WithAuthorization(s.request, Bearer(if s.token.Some? then s.token.value else "null"))
  }

  /** The module-level state of the response step, with the store it reads. */
  datatype Coordinator = Coordinator(
    isRefreshing: bool,
    failedQueue: seq<Request>,
    awaiting: Option<Request>,
    defaultAuthorization: Option<string>,
    location: Option<string>,
    store: map<string, string>)

  function Initial(store: map<string, string>): Coordinator {
    Coordinator(false, [], None, None, None, store)
  }

  /** What the promise returned by the response step does. */
  datatype Outcome =
    | Propagated(error: HttpError)
    | Enqueued
    | RefreshCalled(refreshToken: string)
    | Retried(settled: seq<Settlement>, replay: Request)
    | RefreshFailed(settled: seq<Settlement>, reason: RefreshError)
    | NoHandler

  predicate StartsRefresh(e: HttpError) {
    e.status == Some(401) && !e.config.retry
  }

  /** The response step's error handler, up to its `await` or its `return`. */
  function OnError(s: Coordinator, e: HttpError): (Coordinator, Outcome) {
    if StartsRefresh(e) then
      if s.isRefreshing then
        (s.(failedQueue := s.failedQueue + [e.config]), Enqueued)
      else
        var marked := e.config.(retry := true);
        var refreshToken := TokensIn(s.store).refreshToken;
        if !Present(refreshToken) then
          (s.(isRefreshing := true, location := Some(SIGN_IN_PATH)), Propagated(HttpError(e.status, marked)))
        else
          (s.(isRefreshing := true, awaiting := Some(marked)), RefreshCalled(refreshToken.value))
    else
      (s, Propagated(e))
  }

  /** The suspended handler resumes after the refresh call returned a body whose
      top-level `accessToken` is `token` (`None`: the field is absent, so
      `undefined`). `setItem` and the template literals turn `undefined` into the
      text "undefined", while `processQueue`'s default parameter turns it into
      `null` for the waiting entries. */
  function OnRefreshSucceeded(s: Coordinator, token: Option<string>): (Coordinator, Outcome) {
    match s.awaiting
    case None => (s, NoHandler)
    case Some(original) =>
      var text := UseAuth.Stored(token);
      var settled := SettleAll(s.failedQueue, None, token);
      var next := s.(isRefreshing := false, failedQueue := [], awaiting := None,
                     defaultAuthorization := Some(Bearer(text)), store := WithAccessToken(s.store, text));
      (next, Retried(settled, WithAuthorization(original, Bearer(text))))
  }

  /** The suspended handler resumes after the refresh call failed. */
  function OnRefreshFailed(s: Coordinator, reason: RefreshError): (Coordinator, Outcome) {
    match s.awaiting
    case None => (s, NoHandler)
    case Some(_) =>
      var settled := SettleAll(s.failedQueue, Some(reason), None);
      var next := s.(isRefreshing := false, failedQueue := [], awaiting := None,
                     location := Some(SIGN_IN_PATH), store := map[]);
      (next, RefreshFailed(settled, reason))
  }

  datatype Event =
    | ErrorResponse(error: HttpError)
    | RefreshOk(token: Option<string>)
    | RefreshFail(reason: RefreshError)

  function Step(s: Coordinator, ev: Event): (Coordinator, Outcome) {
    match ev
    case ErrorResponse(e) => OnError(s, e)
    case RefreshOk(t) => OnRefreshSucceeded(s, t)
    case RefreshFail(r) => OnRefreshFailed(s, r)
  }

  /** The state after a sequence of events. */
  function Run(s: Coordinator, events: seq<Event>): Coordinator
    decreases |events|
  {
    if events == [] then s else Run(Step(s, events[0]).0, events[1..])
  }

  /** The outcomes of a sequence of events, one per event. */
  function Outcomes(s: Coordinator, events: seq<Event>): (r: seq<Outcome>)
    ensures |r| == |events|
    decreases |events|
  {
    if events == [] then [] else [Step(s, events[0]).1] + Outcomes(Step(s, events[0]).0, events[1..])
  }

  /** A handler is suspended at the refresh call only while the flag is set, and
      the request it will replay carries the `_retry` mark. */
  predicate Consistent(s: Coordinator) {
    s.awaiting.Some? ==> s.isRefreshing && s.awaiting.value.retry
  }

  lemma StepKeepsConsistent(s: Coordinator, ev: Event)
    requires Consistent(s)
    ensures Consistent(Step(s, ev).0)
  {
  }

  /** Every sequence of events keeps the state consistent. */
  lemma {:induction false} RunKeepsConsistent(s: Coordinator, events: seq<Event>)
    requires Consistent(s)
    ensures Consistent(Run(s, events))
    decreases |events|
  {
    if events != [] {
      StepKeepsConsistent(s, events[0]);
      RunKeepsConsistent(Step(s, events[0]).0, events[1..]);
    }
  }

  /** The single-flight promise: under the invariant, a 401 that issues a refresh
      call never finds a handler already suspended, so none is overwritten. */
  lemma RefreshCallFindsNoHandler(s: Coordinator, e: HttpError)
    requires Consistent(s)
    ensures OnError(s, e).1.RefreshCalled? ==>
      s.awaiting.None? && OnError(s, e).0.awaiting == Some(e.config.(retry := true))
  {
  }

  /** Along any sequence of events from a consistent state, every refresh call
      is issued while no handler is suspended. */
  lemma {:induction false} RunCallsRefreshSingly(s: Coordinator, events: seq<Event>)
    requires Consistent(s)
    ensures forall i :: 0 <= i < |events| && Outcomes(s, events)[i].RefreshCalled? ==>
      Run(s, events[..i]).awaiting.None?
    decreases |events|
  {
    if events != [] {
      var next := Step(s, events[0]).0;
      StepKeepsConsistent(s, events[0]);
      RunCallsRefreshSingly(next, events[1..]);
      forall i | 0 <= i < |events| && Outcomes(s, events)[i].RefreshCalled?
        ensures Run(s, events[..i]).awaiting.None?
      {
        if i == 0 {
          assert events[..0] == [];
          assert Step(s, events[0]).1.RefreshCalled?;
          RefreshCallFindsNoHandler(s, events[0].error);
        } else {
          assert Outcomes(s, events)[i] == Outcomes(next, events[1..])[i - 1];
          assert events[..i][1..] == events[1..][..i - 1];
        }
      }
    }
  }

  /** A 401 on a request without the mark, while a refresh is under way, only
      queues the request: no refresh call, the flag, the store and the suspended
      handler unchanged, and the queued request still unmarked. */
  lemma QueuedWhileRefreshing(s: Coordinator, e: HttpError)
    requires s.isRefreshing && StartsRefresh(e)
    ensures OnError(s, e).1 == Enqueued
    ensures OnError(s, e).0 == s.(failedQueue := s.failedQueue + [e.config])
    ensures !OnError(s, e).0.failedQueue[|s.failedQueue|].retry
  {
  }

  /** A 401 on an unmarked request while no refresh is under way marks the
      request, sets the flag, and issues exactly one refresh call with the stored
      refresh token, or, without one, redirects to sign-in and rejects with the
      original error while the flag stays set and the queue stays as it was. */
  lemma StartsOneRefresh(s: Coordinator, e: HttpError)
    requires !s.isRefreshing && StartsRefresh(e)
    ensures OnError(s, e).0.isRefreshing
    ensures OnError(s, e).0.failedQueue == s.failedQueue && OnError(s, e).0.store == s.store
    ensures Present(TokensIn(s.store).refreshToken) ==>
      OnError(s, e).1 == RefreshCalled(s.store[REFRESH_TOKEN_KEY]) &&
      OnError(s, e).0.awaiting == Some(e.config.(retry := true))
    ensures !Present(TokensIn(s.store).refreshToken) ==>
      OnError(s, e).1 == Propagated(HttpError(e.status, e.config.(retry := true))) &&
      OnError(s, e).0.location == Some(SIGN_IN_PATH) && OnError(s, e).0.awaiting == s.awaiting
  {
  }

  /** Any other failure (another status, no response, or a request that already
      carries the mark) is rejected unchanged and changes nothing. */
  lemma OtherErrorsPassThrough(s: Coordinator, e: HttpError)
    requires !StartsRefresh(e)
    ensures OnError(s, e) == (s, Propagated(e))
  {
  }

  /** After a successful refresh that returned a token, the store holds it beside
      the unchanged refresh token and the default header carries it, every
      queued request is replayed, in queue order, with its bearer credential, the
      original request is replayed with it too, and the queue is empty and the
      flag clear. */
  lemma RefreshSuccessEffects(s: Coordinator, token: string)
    requires s.awaiting.Some?
    ensures var (next, out) := OnRefreshSucceeded(s, Some(token));
      && TokensIn(next.store) == StoredTokens(Some(token), TokensIn(s.store).refreshToken)
      && next.defaultAuthorization == Some(Bearer(token))
      && next.failedQueue == [] && !next.isRefreshing && next.awaiting.None?
      && out.Retried?
      && |out.settled| == |s.failedQueue|
      && (forall i :: 0 <= i < |s.failedQueue| ==>
            out.settled[i].Resolved? && ReplayOf(out.settled[i]) == WithAuthorization(s.failedQueue[i], Bearer(token)))
      && out.replay == WithAuthorization(s.awaiting.value, Bearer(token))
  {
    SettleAllInOrder(s.failedQueue, None, Some(token));
  }

  /** A refresh body without a top-level `accessToken` (for instance one in the
      login's `data` envelope) still counts as a success: the text "undefined" is
      stored as the access token and sent as "Bearer undefined" by the default
      header and the original request, the waiting entries are resolved with
      `null` and replayed with "Bearer null", and every replay then leaves
      through the request step with "Bearer undefined". */
  lemma RefreshWithoutTokenSendsUndefined(s: Coordinator)
    requires s.awaiting.Some?
    ensures var (next, out) := OnRefreshSucceeded(s, None);
      && TokensIn(next.store) == StoredTokens(Some("undefined"), TokensIn(s.store).refreshToken)
      && next.defaultAuthorization == Some("Bearer undefined")
      && next.failedQueue == [] && !next.isRefreshing && next.awaiting.None?
      && out.Retried?
      && out.replay == WithAuthorization(s.awaiting.value, "Bearer undefined")
      && |out.settled| == |s.failedQueue|
      && (forall i :: 0 <= i < |s.failedQueue| ==>
            out.settled[i] == Resolved(s.failedQueue[i], None)
            && ReplayOf(out.settled[i]) == WithAuthorization(s.failedQueue[i], "Bearer null"))
      && (forall r: Request ::
            Outgoing(r, next.defaultAuthorization, next.store).headers[AUTHORIZATION] == "Bearer undefined")
  {
    SettleAllInOrder(s.failedQueue, None, None);
    assert Bearer("undefined") == "Bearer undefined";
    assert Bearer("null") == "Bearer null";
    var next := OnRefreshSucceeded(s, None).0;
    forall r: Request
      ensures Outgoing(r, next.defaultAuthorization, next.store).headers[AUTHORIZATION] == "Bearer undefined"
    {
      StoredTokenWinsOverDefault(r, next.defaultAuthorization, next.store);
    }
  }

  /** After a failed refresh every queued request is rejected with the refresh
      error, in queue order, the whole store is cleared, the user is sent to
      sign-in, and the queue is empty and the flag clear. */
  lemma RefreshFailureEffects(s: Coordinator, reason: RefreshError)
    requires s.awaiting.Some?
    ensures var (next, out) := OnRefreshFailed(s, reason);
      && next.store == map[] && next.failedQueue == [] && !next.isRefreshing && next.awaiting.None?
      && next.location == Some(SIGN_IN_PATH)
      && out == RefreshFailed(out.settled, reason)
      && |out.settled| == |s.failedQueue|
      && forall i :: 0 <= i < |s.failedQueue| ==> out.settled[i] == Rejected(s.failedQueue[i], reason)
  {
    SettleAllInOrder(s.failedQueue, Some(reason), None);
  }

  /** The default header set by a successful refresh outlives logging out:
      once the tokens are removed from the store, a request without a header of
      its own still goes out with the bearer credential of the refreshed token. */
  lemma StaleBearerAfterLogout(s: Coordinator, token: Option<string>, config: Request)
    requires s.awaiting.Some? && AUTHORIZATION !in config.headers
    ensures var next := OnRefreshSucceeded(s, token).0;
      var c := Outgoing(config, next.defaultAuthorization, UseAuth.LogoutWrites(next.store));
      AUTHORIZATION in c.headers && c.headers[AUTHORIZATION] == Bearer(UseAuth.Stored(token))
  {
    var next := OnRefreshSucceeded(s, token).0;
    DefaultUsedWithoutStoredToken(config, next.defaultAuthorization, UseAuth.LogoutWrites(next.store));
  }

  /** Once the flag is set with no handler suspended (the sign-in redirect taken
      for lack of a refresh token), no later event clears it: the queue only
      grows, nothing queued is ever settled, and no refresh call is made again. */
  lemma {:induction false} StuckAfterMissingRefreshToken(s: Coordinator, events: seq<Event>)
    requires s.isRefreshing && s.awaiting.None?
    ensures Run(s, events).isRefreshing && Run(s, events).awaiting.None?
    ensures s.failedQueue <= Run(s, events).failedQueue
    ensures Run(s, events).store == s.store
    ensures forall i :: 0 <= i < |events| ==>
      Outcomes(s, events)[i].Enqueued? || Outcomes(s, events)[i].Propagated? || Outcomes(s, events)[i].NoHandler?
    decreases |events|
  {
    if events != [] {
      var next := Step(s, events[0]).0;
      StuckAfterMissingRefreshToken(next, events[1..]);
      assert s.failedQueue <= next.failedQueue;
    }
  }

  /** The API client object: the module-level flag and queue, the default
      header, the page location and the shared `localStorage`. */
  class ApiClient {
    var isRefreshing: bool
    var failedQueue: seq<Request>
    var awaiting: Option<Request>
    var defaultAuthorization: Option<string>
    var location: Option<string>
    const storage: WebStorage

    function State(): Coordinator
      reads this, storage
    {
      Coordinator(isRefreshing, failedQueue, awaiting, defaultAuthorization, location, storage.items)
    }

    constructor (storage: WebStorage)
      ensures this.storage == storage
      ensures State() == Initial(storage.items)
    {
      this.storage := storage;
      isRefreshing := false;
      failedQueue := [];
      awaiting := None;
      defaultAuthorization := None;
      location := None;
    }

    /** A request on its way out: the default header merged in, then the
        request step attaching the stored access token, if any. */
    method InterceptRequest(config: Request) returns (c: Request)
      ensures c == Outgoing(config, defaultAuthorization, storage.items)
    {
      c := config;
      if AUTHORIZATION !in c.headers && defaultAuthorization.Some? {
        c := WithAuthorization(c, defaultAuthorization.value);
      }
      var tokens := GetStoredTokens(storage);
      if Present(tokens.accessToken) {
        c := WithAuthorization(c, Bearer(tokens.accessToken.value));
      }
    }

    /** `processQueue(error, token)`: settle every waiting entry in order, then empty the queue. */
    method ProcessQueue(error: Option<RefreshError>, token: Option<string>) returns (settled: seq<Settlement>)
      modifies this
      ensures settled == SettleAll(old(failedQueue), error, token)
      ensures failedQueue == []
      ensures isRefreshing == old(isRefreshing) && awaiting == old(awaiting)
      ensures defaultAuthorization == old(defaultAuthorization) && location == old(location)
    {
      settled := SettleQueue(failedQueue, error, token);
      failedQueue := [];
    }

    /** The response step's error handler, up to its `await` or its `return`. */
    method InterceptError(e: HttpError) returns (out: Outcome)
      modifies this
      ensures (State(), out) == OnError(old(State()), e)
    {
      if e.status == Some(401) && !e.config.retry {
        if isRefreshing {
          failedQueue := failedQueue + [e.config];
          return Enqueued;
        }
        var original := e.config.(retry := true);
        isRefreshing := true;
        var tokens := GetStoredTokens(storage);
        if !Present(tokens.refreshToken) {
          location := Some(SIGN_IN_PATH);
          return Propagated(HttpError(e.status, original));
        }
        awaiting := Some(original);
        return RefreshCalled(tokens.refreshToken.value);
      }
      out := Propagated(e);
    }

    /** The suspended handler resumes with the refresh body's `accessToken`
        (`None` when the field is absent). */
    method RefreshSucceeded(token: Option<string>) returns (out: Outcome)
      modifies this, storage
      ensures (State(), out) == OnRefreshSucceeded(old(State()), token)
    {
      if awaiting.None? {
        return NoHandler;
      }
      var original := awaiting.value;
      var text := UseAuth.Stored(token);
      UpdateAccessToken(storage, text);
      defaultAuthorization := Some(Bearer(text));
      var replay := WithAuthorization(original, Bearer(text));
      var settled := ProcessQueue(None, token);
      awaiting := None;
      isRefreshing := false;
      out := Retried(settled, replay);
    }

    /** The suspended handler resumes with the refresh call's failure. */
    method RefreshFailedWith(reason: RefreshError) returns (out: Outcome)
      modifies this, storage
      ensures (State(), out) == OnRefreshFailed(old(State()), reason)
    {
      if awaiting.None? {
        return NoHandler;
      }
      var settled := ProcessQueue(Some(reason), None);
      storage.Clear();
      location := Some(SIGN_IN_PATH);
      awaiting := None;
      isRefreshing := false;
      out := RefreshFailed(settled, reason);
    }
  }
}
