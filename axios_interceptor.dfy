/** The response interceptor of src/lib/axiosInterceptor.ts: a module-wide `isRefreshing`
    flag and `failedQueue` make every 401 that arrives during a token refresh wait for it.
    The asynchronous handler is modelled as events on one object: the 401 itself, and the
    two ways the awaited refresh call can come back. Everything the interceptor does to the
    outside world is appended to `effects`, in order. */
module AxiosInterceptor {
  import opened Common
  import opened ClientStorage

  /** An axios request config as the interceptor sees it: its identity and `_retry` mark. */
  datatype Request = Request(id: nat, retry: bool)

  /** The error the handler receives: the request's config and the HTTP status
      (`None` when there was no response at all). */
  datatype ResponseError = ResponseError(config: Request, status: Option<int>)

  /** How `processQueue` settles one queued promise. */
  datatype Settlement = Resolved(token: string) | Rejected(error: ResponseError)

  datatype Effect =
    | Enqueued(req: Request)                       // failedQueue.push({ resolve, reject })
    | Settled(req: Request, how: Settlement)       // prom.resolve(token) / prom.reject(error)
    | PostRefresh(refreshToken: string)            // axios.post('/auth/refresh-token', ...)
    | RefreshDone                                  // the awaiting handler resumed and finished
    | Replay(req: Request, authorization: string)  // axios(originalRequest) with the new header
    | RejectToCaller(error: ResponseError)         // Promise.reject(...) returned to the caller
    | GoToLogin                                    // window.location.href = '/login'

  /** The refresh the handler awaits, if any. `Blocked` is the state in which the refresh
      request's own failure sits in `failedQueue` (see RefreshRejectedAsWritten). */
  datatype RefreshCall = Idle | InFlight(original: Request) | Blocked(original: Request, call: Request)

  /** What the handler hands back to the caller of the failed request. */
  datatype HandlerResult = RejectedNow(error: ResponseError) | Queued | AwaitingRefresh

  /** The requests pushed onto the queue, in order. */
  function QueuedRequests(es: seq<Effect>): seq<Request>
  {
    if es == [] then []
    else
      var e := es[|es| - 1];
      if e.Enqueued? then QueuedRequests(es[..|es| - 1]) + [e.req] else QueuedRequests(es[..|es| - 1])
  }

  /** The queued promises settled, in order. */
  function SettledRequests(es: seq<Effect>): seq<Request>
  {
    if es == [] then []
    else
      var e := es[|es| - 1];
      if e.Settled? then SettledRequests(es[..|es| - 1]) + [e.req] else SettledRequests(es[..|es| - 1])
  }

  function RefreshesPosted(es: seq<Effect>): nat
  {
    if es == [] then 0 else RefreshesPosted(es[..|es| - 1]) + (if es[|es| - 1].PostRefresh? then 1 else 0)
  }

  function RefreshesDone(es: seq<Effect>): nat
  {
    if es == [] then 0 else RefreshesDone(es[..|es| - 1]) + (if es[|es| - 1] == RefreshDone then 1 else 0)
  }

  /** Appending one effect extends each view by that effect's contribution. */
  lemma LogAppendOne(es: seq<Effect>, e: Effect)
    ensures QueuedRequests(es + [e]) == if e.Enqueued? then QueuedRequests(es) + [e.req] else QueuedRequests(es)
    ensures SettledRequests(es + [e]) == if e.Settled? then SettledRequests(es) + [e.req] else SettledRequests(es)
    ensures RefreshesPosted(es + [e]) == RefreshesPosted(es) + (if e.PostRefresh? then 1 else 0)
    ensures RefreshesDone(es + [e]) == RefreshesDone(es) + (if e == RefreshDone then 1 else 0)
  {
    assert (es + [e])[..|es|] == es;
  }

  /** The four views of the log distribute over concatenation. */
  lemma {:induction false} LogAppend(a: seq<Effect>, b: seq<Effect>)
    ensures QueuedRequests(a + b) == QueuedRequests(a) + QueuedRequests(b)
    ensures SettledRequests(a + b) == SettledRequests(a) + SettledRequests(b)
    ensures RefreshesPosted(a + b) == RefreshesPosted(a) + RefreshesPosted(b)
    ensures RefreshesDone(a + b) == RefreshesDone(a) + RefreshesDone(b)
    decreases |b|
  {
    if b == [] {
      assert a + b == a;
    } else {
      var n := |b| - 1;
      assert a + b == (a + b[..n]) + [b[n]];
      assert b == b[..n] + [b[n]];
      LogAppend(a, b[..n]);
      LogAppendOne(a + b[..n], b[n]);
      LogAppendOne(b[..n], b[n]);
    }
  }

  /** `if (error) prom.reject(error) else prom.resolve(token)` for one entry. */
  function Settle(req: Request, error: Option<ResponseError>, token: string): Effect
  {
    Settled(req, if error.Some? then Rejected(error.value) else Resolved(token))
  }

  /** The effects of `failedQueue.forEach(...)`, in queue order. */
  function SettleAll(q: seq<Request>, error: Option<ResponseError>, token: string): seq<Effect>
  {
    if q == [] then [] else SettleAll(q[..|q| - 1], error, token) + [Settle(q[|q| - 1], error, token)]
  }

  /** Draining settles exactly the queued entries, each once, in order, all the same way. */
  lemma {:induction false} SettleAllLog(q: seq<Request>, error: Option<ResponseError>, token: string)
    ensures |SettleAll(q, error, token)| == |q|
    ensures forall k :: 0 <= k < |q| ==> SettleAll(q, error, token)[k] == Settle(q[k], error, token)
    ensures SettledRequests(SettleAll(q, error, token)) == q
    ensures QueuedRequests(SettleAll(q, error, token)) == []
    ensures RefreshesPosted(SettleAll(q, error, token)) == 0
    ensures RefreshesDone(SettleAll(q, error, token)) == 0
    decreases |q|
  {
    if q != [] {
      var n := |q| - 1;
      SettleAllLog(q[..n], error, token);
      LogAppendOne(SettleAll(q[..n], error, token), Settle(q[n], error, token));
      assert q[..n] + [q[n]] == q;
    }
  }

  /** Draining the queue into the log keeps queued = settled + waiting, with nothing waiting. */
  lemma DrainBalances(es: seq<Effect>, q: seq<Request>, error: Option<ResponseError>, token: string)
    requires QueuedRequests(es) == SettledRequests(es) + q
    ensures QueuedRequests(es + SettleAll(q, error, token)) == SettledRequests(es + SettleAll(q, error, token))
    ensures SettledRequests(es + SettleAll(q, error, token)) == SettledRequests(es) + q
    ensures RefreshesPosted(es + SettleAll(q, error, token)) == RefreshesPosted(es)
    ensures RefreshesDone(es + SettleAll(q, error, token)) == RefreshesDone(es)
  {
    LogAppend(es, SettleAll(q, error, token));
    SettleAllLog(q, error, token);
  }

  class RefreshCoordinator {
    var isRefreshing: bool
    var failedQueue: seq<Request>
    var refresh: RefreshCall
    var effects: seq<Effect>
    const browser: Browser

    /** Every entry ever queued has been settled exactly once, in queue order, or is still
        waiting; and every refresh call but the one being awaited has finished, so at most
        one is outstanding, and only while the flag is set. */
    ghost predicate Valid()
      reads this
    {
      (refresh != Idle ==> isRefreshing) &&
      QueuedRequests(effects) == SettledRequests(effects) + failedQueue &&
      RefreshesPosted(effects) == RefreshesDone(effects) + (if refresh == Idle then 0 else 1)
    }

    /** Module initialisation: `isRefreshing = false`, `failedQueue = []`. */
    constructor (browser: Browser)
      ensures Valid()
      ensures this.browser == browser
      ensures !isRefreshing && failedQueue == [] && refresh == Idle && effects == []
    {
      this.browser := browser;
      isRefreshing := false;
      failedQueue := [];
      refresh := Idle;
      effects := [];
    }

    /** Append one effect to the log, keeping the views of every other field intact. */
    method Emit(e: Effect)
      modifies this
      ensures effects == old(effects) + [e]
      ensures isRefreshing == old(isRefreshing) && failedQueue == old(failedQueue) && refresh == old(refresh)
      ensures QueuedRequests(effects) ==
                if e.Enqueued? then QueuedRequests(old(effects)) + [e.req] else QueuedRequests(old(effects))
      ensures SettledRequests(effects) ==
                if e.Settled? then SettledRequests(old(effects)) + [e.req] else SettledRequests(old(effects))
      ensures RefreshesPosted(effects) == RefreshesPosted(old(effects)) + (if e.PostRefresh? then 1 else 0)
      ensures RefreshesDone(effects) == RefreshesDone(old(effects)) + (if e == RefreshDone then 1 else 0)
    {
      LogAppendOne(effects, e);
      effects := effects + [e];
    }

    /** processQueue (lines 8-18). */
    method ProcessQueue(error: Option<ResponseError>, token: string)
      requires Valid()
      modifies this
      ensures Valid()
      ensures failedQueue == []
      ensures effects == old(effects) + SettleAll(old(failedQueue), error, token)
      ensures SettledRequests(effects) == SettledRequests(old(effects)) + old(failedQueue)
      ensures isRefreshing == old(isRefreshing) && refresh == old(refresh)
    {
      var i := 0;
      while i < |failedQueue|
        invariant 0 <= i <= |failedQueue|
        invariant failedQueue == old(failedQueue)
        invariant effects == old(effects) + SettleAll(failedQueue[..i], error, token)
        invariant isRefreshing == old(isRefreshing) && refresh == old(refresh)
      {
        assert failedQueue[..i + 1][..i] == failedQueue[..i];
        effects := effects + [Settle(failedQueue[i], error, token)];
        i := i + 1;
      }
      assert failedQueue[..i] == failedQueue;
      DrainBalances(old(effects), failedQueue, error, token);
      failedQueue := [];
    }

    /** Lines 31-41: a 401 that arrives while a refresh is in flight waits in the queue. */
    method Enqueue(req: Request)
      requires Valid() && isRefreshing
      modifies this
      ensures Valid()
      ensures failedQueue == old(failedQueue) + [req] && effects == old(effects) + [Enqueued(req)]
      ensures isRefreshing && refresh == old(refresh)
      ensures SettledRequests(effects) == SettledRequests(old(effects))
    {
      Emit(Enqueued(req));
      failedQueue := failedQueue + [req];
    }

    /** Lines 50-54: no refresh token is stored, so the access token is forgotten and the
        marked request rejected; this return comes before the try/finally, so the flag stays. */
    method GiveUp(marked: ResponseError)
      requires Valid()
      modifies this, browser
      ensures Valid()
      ensures effects == old(effects) + [GoToLogin, RejectToCaller(marked)]
      ensures SettledRequests(effects) == SettledRequests(old(effects))
      ensures isRefreshing == old(isRefreshing) && refresh == old(refresh) && failedQueue == old(failedQueue)
      ensures browser.accessToken == None && browser.refreshToken == None
      ensures browser.authorization == old(browser.authorization)
    {
      browser.accessToken := None;
      browser.refreshToken := None;
      Emit(GoToLogin);
      Emit(RejectToCaller(marked));
      assert effects == old(effects) + [GoToLogin, RejectToCaller(marked)];
    }

    /** Lines 56-59: post the stored refresh token and await the answer. */
    method StartRefresh(original: Request, refreshToken: string)
      requires Valid() && isRefreshing && refresh == Idle
      modifies this
      ensures Valid()
      ensures effects == old(effects) + [PostRefresh(refreshToken)]
      ensures SettledRequests(effects) == SettledRequests(old(effects))
      ensures isRefreshing && refresh == InFlight(original) && failedQueue == old(failedQueue)
    {
      Emit(PostRefresh(refreshToken));
      refresh := InFlight(original);
    }

    /** Lines 43-59: the first 401 marks its request and raises the flag, then gives up
        without a refresh token or starts the refresh with one. */
    method BeginRefresh(e: ResponseError) returns (o: HandlerResult)
      requires Valid() && !isRefreshing
      modifies this, browser
      ensures Valid()
      ensures !Truthy(old(browser.refreshToken)) ==>
                var marked := e.(config := e.config.(retry := true));
                o == RejectedNow(marked) && effects == old(effects) + [GoToLogin, RejectToCaller(marked)] &&
                refresh == Idle && browser.accessToken == None && browser.refreshToken == None &&
                browser.authorization == old(browser.authorization)
      ensures Truthy(old(browser.refreshToken)) ==>
                o == AwaitingRefresh && effects == old(effects) + [PostRefresh(old(browser.refreshToken).value)] &&
                refresh == InFlight(e.config.(retry := true)) && unchanged(browser)
      ensures isRefreshing && failedQueue == old(failedQueue)
      ensures SettledRequests(effects) == SettledRequests(old(effects))
    {
      var original := e.config.(retry := true);
      isRefreshing := true;
      var refreshToken := browser.refreshToken;
      if !Truthy(refreshToken) {
        var marked := e.(config := original);
        GiveUp(marked);
        o := RejectedNow(marked);
      } else {
        StartRefresh(original, refreshToken.value);
        o := AwaitingRefresh;
      }
    }

    /** The error handler (lines 24-87) on a failed response. */
    method OnResponseError(e: ResponseError) returns (o: HandlerResult)
      requires Valid()
      modifies this, browser
      ensures Valid()
      ensures !(e.status == Some(401) && !e.config.retry) ==>
                o == RejectedNow(e) && effects == old(effects) + [RejectToCaller(e)] &&
                isRefreshing == old(isRefreshing) && failedQueue == old(failedQueue) &&
                refresh == old(refresh) && unchanged(browser)
      ensures e.status == Some(401) && !e.config.retry && old(isRefreshing) ==>
                o == Queued && failedQueue == old(failedQueue) + [e.config] &&
                effects == old(effects) + [Enqueued(e.config)] &&
                isRefreshing && refresh == old(refresh) && unchanged(browser)
      ensures e.status == Some(401) && !e.config.retry && !old(isRefreshing) && !Truthy(old(browser.refreshToken)) ==>
                var marked := e.(config := e.config.(retry := true));
                o == RejectedNow(marked) && effects == old(effects) + [GoToLogin, RejectToCaller(marked)] &&
                isRefreshing && refresh == Idle && failedQueue == old(failedQueue) &&
                browser.accessToken == None && browser.refreshToken == None &&
                browser.authorization == old(browser.authorization)
      ensures e.status == Some(401) && !e.config.retry && !old(isRefreshing) && Truthy(old(browser.refreshToken)) ==>
                o == AwaitingRefresh && effects == old(effects) + [PostRefresh(old(browser.refreshToken).value)] &&
                isRefreshing && refresh == InFlight(e.config.(retry := true)) &&
                failedQueue == old(failedQueue) && unchanged(browser)
      ensures old(refresh).Blocked? ==> refresh == old(refresh) && isRefreshing && old(failedQueue) <= failedQueue
      ensures SettledRequests(effects) == SettledRequests(old(effects))
    {
      if e.status == Some(401) && !e.config.retry {
        if isRefreshing {
          Enqueue(e.config);
          o := Queued;
        } else {
          o := BeginRefresh(e);
        }
      } else {
        Emit(RejectToCaller(e));
        o := RejectedNow(e);
      }
    }

    /** `finally { isRefreshing = false }` once the awaited refresh has been dealt with. */
    method FinishRefresh()
      requires Valid() && refresh != Idle
      modifies this
      ensures Valid()
      ensures !isRefreshing && refresh == Idle && failedQueue == old(failedQueue)
      ensures effects == old(effects) + [RefreshDone]
      ensures SettledRequests(effects) == SettledRequests(old(effects))
    {
      isRefreshing := false;
      refresh := Idle;
      Emit(RefreshDone);
    }

    /** The refresh call answered with a new access token (lines 61-72, then `finally`):
        store it, resolve the queue with it, then retry the original request once. */
    method RefreshSucceeded(accessToken: string)
      requires Valid() && refresh.InFlight?
      modifies this, browser
      ensures Valid()
      ensures browser.accessToken == Some(accessToken) && browser.authorization == Some("Bearer " + accessToken)
      ensures browser.refreshToken == old(browser.refreshToken)
      ensures !isRefreshing && refresh == Idle && failedQueue == []
      ensures effects == old(effects) + SettleAll(old(failedQueue), None, accessToken) +
                         [Replay(old(refresh).original, "Bearer " + accessToken), RefreshDone]
      ensures SettledRequests(effects) == SettledRequests(old(effects)) + old(failedQueue)
    {
      var original := refresh.original;
      browser.accessToken := Some(accessToken);
      browser.authorization := Some("Bearer " + accessToken);
      ProcessQueue(None, accessToken);
      ghost var drained := effects;
      Emit(Replay(original, "Bearer " + accessToken));
      FinishRefresh();
      assert effects == drained + [Replay(original, "Bearer " + accessToken), RefreshDone];
    }

    /** Lines 75-80: forget both tokens and the header, go to the login page and hand the
        refresh error to the caller. */
    method EndSession(err: ResponseError)
      modifies this, browser
      ensures browser.accessToken == None && browser.refreshToken == None && browser.authorization == None
      ensures isRefreshing == old(isRefreshing) && refresh == old(refresh) && failedQueue == old(failedQueue)
      ensures effects == old(effects) + [GoToLogin, RejectToCaller(err)]
      ensures QueuedRequests(effects) == QueuedRequests(old(effects))
      ensures SettledRequests(effects) == SettledRequests(old(effects))
      ensures RefreshesPosted(effects) == RefreshesPosted(old(effects))
      ensures RefreshesDone(effects) == RefreshesDone(old(effects))
    {
      browser.accessToken := None;
      browser.refreshToken := None;
      browser.authorization := None;
      Emit(GoToLogin);
      Emit(RejectToCaller(err));
      assert effects == old(effects) + [GoToLogin, RejectToCaller(err)];
    }

    /** The awaited refresh call failed and the catch branch runs (lines 73-83): reject the
        whole queue with the refresh error, then end the session. */
    method RefreshFailed(err: ResponseError)
      requires Valid() && refresh.InFlight?
      modifies this, browser
      ensures Valid()
      ensures browser.accessToken == None && browser.refreshToken == None && browser.authorization == None
      ensures !isRefreshing && refresh == Idle && failedQueue == []
      ensures effects == old(effects) + SettleAll(old(failedQueue), Some(err), "") +
                         [GoToLogin, RejectToCaller(err), RefreshDone]
      ensures SettledRequests(effects) == SettledRequests(old(effects)) + old(failedQueue)
    {
      ProcessQueue(Some(err), "");
      ghost var drained := effects;
      EndSession(err);
      FinishRefresh();
      assert effects == drained + [GoToLogin, RejectToCaller(err), RefreshDone];
    }

    /** The refresh call failed, as the code is written: the POST goes through the same axios
        instance, so its error first reaches this interceptor (lines 28-41). The server answers
        every refresh failure with 401, and `isRefreshing` is set, so the refresh request joins
        `failedQueue`; its promise now waits for `processQueue`, which only the handler that
        awaits it would call. Only a failure with another status reaches the catch branch. */
    method RefreshRejectedAsWritten(err: ResponseError)
      requires Valid() && refresh.InFlight? && !err.config.retry
      modifies this, browser
      ensures Valid()
      ensures err.status == Some(401) ==>
                refresh == Blocked(old(refresh).original, err.config) && isRefreshing &&
                failedQueue == old(failedQueue) + [err.config] &&
                effects == old(effects) + [Enqueued(err.config)] && unchanged(browser) &&
                SettledRequests(effects) == SettledRequests(old(effects))
      ensures err.status != Some(401) ==>
                browser.accessToken == None && browser.refreshToken == None && browser.authorization == None &&
                !isRefreshing && refresh == Idle && failedQueue == [] &&
                effects == old(effects) + SettleAll(old(failedQueue), Some(err), "") +
                           [GoToLogin, RejectToCaller(err), RefreshDone]
      ensures err.status != Some(401) ==> SettledRequests(effects) == SettledRequests(old(effects)) + old(failedQueue)
    {
      if err.status == Some(401) {
        Emit(Enqueued(err.config));
        failedQueue := failedQueue + [err.config];
        refresh := Blocked(refresh.original, err.config);
      } else {
        RefreshFailed(err);
      }
    }
  }

  /** The finding on a concrete event sequence: request 1 starts a refresh, request 2 queues behind
      it, the server rejects the refresh with 401. As written, nothing is ever settled, the
      flag stays set and the refresh request itself waits in the queue. */
  method RejectedRefreshHangsAsWritten() returns (queue: seq<Request>, refreshing: bool,
                                                 settled: seq<Request>, blocked: bool)
    ensures queue == [Request(2, false), Request(3, false)]
    ensures refreshing && blocked && settled == []
  {
    var browser := new Browser(Some("expired-access"), Some("stale-refresh"));
    var c := new RefreshCoordinator(browser);
    var o1 := c.OnResponseError(ResponseError(Request(1, false), Some(401)));
    var o2 := c.OnResponseError(ResponseError(Request(2, false), Some(401)));
    c.RefreshRejectedAsWritten(ResponseError(Request(3, false), Some(401)));
    queue, refreshing, settled, blocked := c.failedQueue, c.isRefreshing, SettledRequests(c.effects), c.refresh.Blocked?;
  }

  /** The same event sequence with the refresh failure delivered to the catch branch: the queued
      request is rejected, the flag clears and both tokens are gone. */
  method RejectedRefreshSettles() returns (queue: seq<Request>, refreshing: bool,
                                          settled: seq<Request>, loggedOut: bool)
    ensures queue == [] && !refreshing && loggedOut
    ensures settled == [Request(2, false)]
  {
    var browser := new Browser(Some("expired-access"), Some("stale-refresh"));
    var c := new RefreshCoordinator(browser);
    var o1 := c.OnResponseError(ResponseError(Request(1, false), Some(401)));
    var o2 := c.OnResponseError(ResponseError(Request(2, false), Some(401)));
    var err := ResponseError(Request(3, false), Some(401));
    c.RefreshFailed(err);
    queue, refreshing, settled := c.failedQueue, c.isRefreshing, SettledRequests(c.effects);
    loggedOut := browser.accessToken == None && browser.refreshToken == None;
  }

  /** With no refresh token stored, the first 401 rejects and leaves the flag set (the return
      at line 53 comes before the try/finally); every later 401 is queued and no refresh is
      started to settle it. */
  method MissingRefreshTokenKeepsFlag() returns (first: HandlerResult, second: HandlerResult,
                                                refreshing: bool, queue: seq<Request>)
    ensures first.RejectedNow? && second == Queued
    ensures refreshing && queue == [Request(2, false)]
  {
    var browser := new Browser(Some("expired-access"), None);
    var c := new RefreshCoordinator(browser);
    first := c.OnResponseError(ResponseError(Request(1, false), Some(401)));
    second := c.OnResponseError(ResponseError(Request(2, false), Some(401)));
    refreshing, queue := c.isRefreshing, c.failedQueue;
  }
}
