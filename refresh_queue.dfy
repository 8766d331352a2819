/** The client's single-flight token refresh (client/src/api/axios.ts): the
    response interceptor of the API client, a module-level `isRefreshing`
    flag and the queue of requests waiting for the refresh in flight. The
    asynchronous interceptor is modelled as a sequential machine over three
    kinds of event: an error response arrives, the refresh call returns a
    token, the refresh call fails. What the program then does (replay a
    request, reject it, start a refresh, go to the login page) is returned as
    a list of effects. */
module RefreshQueue {
  import opened Js

  /** The failed call as the interceptor sees it: the response status and the
      `code` field of its body (both absent without a response), the
      `_retry` mark and the `Authorization` header. `id` names the call. */
  datatype Request = Request(id: nat, status: Option<int>, code: Option<string>, retried: bool, authorization: Option<string>)

  /** How the refresh call returned: with the `accessToken` field of its body
      (absent when the body has none), or by throwing `error`. An empty
      `error` stands for a thrown value that is falsy. */
  datatype RefreshResult = Refreshed(accessToken: Option<string>) | RefreshFailed(error: string)

  /** Why a call is rejected: with its own error, or with the refresh error. */
  datatype Reason = Unchanged | RefreshError(error: string)

  /** What the interceptor makes happen. */
  datatype Effect =
    | Replay(request: Request)             // `api(originalRequest)`
    | Reject(request: Request, reason: Reason)
    | StartRefresh(request: Request)       // `await refreshAccessToken()`
    | RedirectToLogin                      // `window.location.href = "/login"`

  /** The module state: the flag, the waiting requests, and the request whose
      interceptor call is suspended on the refresh. */
  datatype State = State(isRefreshing: bool, failedQueue: seq<Request>, initiator: Option<Request>)

  const Idle: State := State(false, [], None)

  /** The refresh path is taken for a 401 whose body says TOKEN_EXPIRED, once
      per request. */
  predicate Qualifies(req: Request) {
    req.status == Some(401) && req.code == Some("TOKEN_EXPIRED") && !req.retried
  }

  /** The states the program can be in: waiters exist only while a refresh is
      in flight, and the request that started it is marked as retried. */
  predicate Consistent(s: State) {
    && (!s.isRefreshing ==> s.failedQueue == [] && s.initiator.None?)
    && (s.isRefreshing ==> s.initiator.Some? && s.initiator.value.retried)
  }

  /** How one waiter is settled by `processQueue(error, token)`: a truthy error
      rejects it; otherwise it is resolved with the token and replayed, with
      the bearer header only when the token is a string. */
  function Settle(w: Request, result: RefreshResult): (e: Effect)
    ensures e.Replay? || e.Reject?
    ensures e.Replay? ==> e.request.id == w.id && e.request.retried == w.retried
    ensures e.Reject? ==> e.request == w
  {
    match result
    case Refreshed(token) =>
      if token.Some? then Replay(w.(authorization := Some("Bearer " + token.value))) else Replay(w)
    case RefreshFailed(error) =>
      if error != "" then Reject(w, RefreshError(error)) else Replay(w)
  }

  /** `failedQueue.forEach(...)`: one effect per waiter, in queue order. */
  function SettleAll(queue: seq<Request>, result: RefreshResult): (es: seq<Effect>)
    ensures |es| == |queue|
    ensures forall k :: 0 <= k < |queue| ==> es[k] == Settle(queue[k], result)
  {
    seq(|queue|, k requires 0 <= k < |queue| => Settle(queue[k], result))
  }

  /** All waiters meet the same fate: every one is replayed with the new
      bearer header after a refresh that returned a token, and every one is
      rejected with the refresh error after a refresh that threw. */
  lemma AllSettledAlike(queue: seq<Request>, result: RefreshResult)
    ensures result.Refreshed? && result.accessToken.Some? ==>
      forall k :: 0 <= k < |queue| ==>
        SettleAll(queue, result)[k] == Replay(queue[k].(authorization := Some("Bearer " + result.accessToken.value)))
    ensures result.RefreshFailed? && result.error != "" ==>
      forall k :: 0 <= k < |queue| ==> SettleAll(queue, result)[k] == Reject(queue[k], RefreshError(result.error))
  {
  }

  /** The error branch of the response interceptor. */
  function OnError(s: State, req: Request): (r: (State, seq<Effect>))
    // any other error is passed on and nothing changes
    ensures !Qualifies(req) ==> r == (s, [Reject(req, Unchanged)])
    // while a refresh is in flight: one more waiter, no second refresh
    ensures Qualifies(req) && s.isRefreshing ==>
      r == (s.(failedQueue := s.failedQueue + [req]), [])
    // otherwise this request starts the refresh, marked as retried
    ensures Qualifies(req) && !s.isRefreshing ==>
      && r.0 == State(true, s.failedQueue, Some(req.(retried := true)))
      && r.1 == [StartRefresh(req)]
  {
    if !Qualifies(req) then (s, [Reject(req, Unchanged)])
    else if s.isRefreshing then (s.(failedQueue := s.failedQueue + [req]), [])
    else (State(true, s.failedQueue, Some(req.(retried := true))), [StartRefresh(req)])
  }

  /** The end of the refresh started by `s.initiator`: the queue is drained,
      the initiator is replayed with `Bearer <token>` (the header is set even
      when the body had no token) or rejected after the redirect to the login
      page, and the flag is cleared in `finally`. */
  function OnSettled(s: State, result: RefreshResult): (r: (State, seq<Effect>))
    requires s.initiator.Some?
    ensures r.0 == Idle
    ensures |r.1| == |s.failedQueue| + (if result.Refreshed? then 1 else 2)
    ensures r.1[..|s.failedQueue|] == SettleAll(s.failedQueue, result)
    ensures result.Refreshed? ==>
      r.1[|s.failedQueue|] == Replay(s.initiator.value.(authorization := Some("Bearer " + Interpolate(result.accessToken))))
    ensures result.RefreshFailed? ==>
      r.1[|s.failedQueue|..] == [RedirectToLogin, Reject(s.initiator.value, RefreshError(result.error))]
  {
    var settled := SettleAll(s.failedQueue, result);
    var init := s.initiator.value;
    match result
    case Refreshed(token) =>
      (Idle, settled + [Replay(init.(authorization := Some("Bearer " + Interpolate(token))))])
    case RefreshFailed(error) =>
      (Idle, settled + [RedirectToLogin, Reject(init, RefreshError(error))])
  }

  datatype Event = ErrorResponse(request: Request) | RefreshReturned(result: RefreshResult)

  /** One event. A refresh result with no refresh in flight has no call to
      return to and changes nothing. */
  function Step(s: State, e: Event): (r: (State, seq<Effect>))
    ensures e.ErrorResponse? ==> r == OnError(s, e.request)
    ensures e.RefreshReturned? && s.isRefreshing && s.initiator.Some? ==> r == OnSettled(s, e.result)
  {
    match e
    case ErrorResponse(req) => OnError(s, req)
    case RefreshReturned(result) =>
      if s.isRefreshing && s.initiator.Some? then OnSettled(s, result) else (s, [])
  }

  /** Every event keeps the state consistent. */
  lemma StepConsistent(s: State, e: Event)
    requires Consistent(s)
    ensures Consistent(Step(s, e).0)
  {
  }

  /** A sequence of events, from the first. */
  function Run(s: State, events: seq<Event>): (r: (State, seq<Effect>))
    decreases |events|
  {
    if events == [] then (s, [])
    else
      var first := Step(s, events[0]);
      var rest := Run(first.0, events[1..]);
      (rest.0, first.1 + rest.1)
  }

  /** A run keeps the state consistent. */
  lemma {:induction false} RunConsistent(s: State, events: seq<Event>)
    requires Consistent(s)
    ensures Consistent(Run(s, events).0)
    decreases |events|
  {
    if events != [] {
      StepConsistent(s, events[0]);
      RunConsistent(Step(s, events[0]).0, events[1..]);
    }
  }

  function Starts(es: seq<Effect>): (n: nat)
    ensures n <= |es|
  {
    if es == [] then 0 else (if es[0].StartRefresh? then 1 else 0) + Starts(es[1..])
  }

  function Answers(es: seq<Effect>): (n: nat)
    ensures n <= |es|
  {
    if es == [] then 0 else (if es[0].Replay? || es[0].Reject? then 1 else 0) + Answers(es[1..])
  }

  function Returns(events: seq<Event>): (n: nat)
    ensures n <= |events|
  {
    if events == [] then 0 else (if events[0].RefreshReturned? then 1 else 0) + Returns(events[1..])
  }

  function Errors(events: seq<Event>): (n: nat)
    ensures n <= |events|
  {
    if events == [] then 0 else (if events[0].ErrorResponse? then 1 else 0) + Errors(events[1..])
  }

  /** The answers (replays and rejections) given to the request named `id`. */
  function AnswersTo(es: seq<Effect>, id: nat): (n: nat)
    ensures n <= |es|
  {
    if es == [] then 0
    else (if (es[0].Replay? || es[0].Reject?) && es[0].request.id == id then 1 else 0) + AnswersTo(es[1..], id)
  }

  /** The error responses for the request named `id`. */
  function ErrorsFrom(events: seq<Event>, id: nat): (n: nat)
    ensures n <= |events|
  {
    if events == [] then 0
    else (if events[0].ErrorResponse? && events[0].request.id == id then 1 else 0) + ErrorsFrom(events[1..], id)
  }

  /** The waiters in `queue` named `id`. */
  function QueuedAs(queue: seq<Request>, id: nat): (n: nat)
    ensures n <= |queue|
  {
    if queue == [] then 0 else (if queue[0].id == id then 1 else 0) + QueuedAs(queue[1..], id)
  }

  lemma {:induction false} CountsAppend(a: seq<Effect>, b: seq<Effect>)
    ensures Starts(a + b) == Starts(a) + Starts(b)
    ensures Answers(a + b) == Answers(a) + Answers(b)
    ensures forall id :: AnswersTo(a + b, id) == AnswersTo(a, id) + AnswersTo(b, id)
    decreases |a|
  {
    if a == [] {
      assert a + b == b;
    } else {
      assert (a + b)[0] == a[0];
      assert (a + b)[1..] == a[1..] + b;
      CountsAppend(a[1..], b);
    }
  }

  lemma {:induction false} QueuedAsAppend(queue: seq<Request>, req: Request, id: nat)
    ensures QueuedAs(queue + [req], id) == QueuedAs(queue, id) + (if req.id == id then 1 else 0)
    decreases |queue|
  {
    if queue == [] {
      assert queue + [req] == [req];
    } else {
      assert (queue + [req])[1..] == queue[1..] + [req];
      QueuedAsAppend(queue[1..], req, id);
    }
  }

  lemma {:induction false} SettledAnswered(queue: seq<Request>, result: RefreshResult)
    ensures Starts(SettleAll(queue, result)) == 0
    ensures Answers(SettleAll(queue, result)) == |queue|
    ensures forall id :: AnswersTo(SettleAll(queue, result), id) == QueuedAs(queue, id)
    decreases |queue|
  {
    if queue != [] {
      assert SettleAll(queue, result)[1..] == SettleAll(queue[1..], result);
      SettledAnswered(queue[1..], result);
    }
  }

  function InFlight(s: State): nat {
    if s.isRefreshing then 1 else 0
  }

  /** The requests the state still owes an answer: the waiters and the
      request suspended on the refresh. */
  function Pending(s: State): nat {
    |s.failedQueue| + (if s.initiator.Some? then 1 else 0)
  }

  /** The answers the state still owes the request named `id`. */
  function PendingFor(s: State, id: nat): nat {
    QueuedAs(s.failedQueue, id) + (if s.initiator.Some? && s.initiator.value.id == id then 1 else 0)
  }

  /** One event: a refresh starts only from a state with none in flight, and
      every error response is either answered by this step or left pending,
      request by request. */
  lemma StepCounts(s: State, e: Event, id: nat)
    requires Consistent(s)
    ensures Starts(Step(s, e).1) + InFlight(s) <= (if e.RefreshReturned? then 1 else 0) + InFlight(Step(s, e).0)
    ensures Answers(Step(s, e).1) + Pending(Step(s, e).0) == (if e.ErrorResponse? then 1 else 0) + Pending(s)
    ensures AnswersTo(Step(s, e).1, id) + PendingFor(Step(s, e).0, id) ==
      (if e.ErrorResponse? && e.request.id == id then 1 else 0) + PendingFor(s, id)
  {
    match e
    case ErrorResponse(req) =>
      if Qualifies(req) && s.isRefreshing {
        QueuedAsAppend(s.failedQueue, req, id);
      }
    case RefreshReturned(result) =>
      if s.isRefreshing {
        SettledCounts(s, result, id);
      }
  }

  /** The end of a refresh answers every waiter and the initiator, and
      starts nothing. */
  lemma SettledCounts(s: State, result: RefreshResult, id: nat)
    requires Consistent(s) && s.isRefreshing
    ensures Starts(OnSettled(s, result).1) == 0
    ensures Answers(OnSettled(s, result).1) == Pending(s)
    ensures AnswersTo(OnSettled(s, result).1, id) == PendingFor(s, id)
  {
    var settled := SettleAll(s.failedQueue, result);
    SettledAnswered(s.failedQueue, result);
    var init := s.initiator.value;
    match result
    case Refreshed(token) =>
      CountsAppend(settled, [Replay(init.(authorization := Some("Bearer " + Interpolate(token))))]);
    case RefreshFailed(error) =>
      var tail := [RedirectToLogin, Reject(init, RefreshError(error))];
      var last := [Reject(init, RefreshError(error))];
      assert tail[1..] == last && last[1..] == [];
      assert AnswersTo(tail, id) == AnswersTo(last, id) == (if init.id == id then 1 else 0);
      CountsAppend(settled, tail);
  }

  /** Over any run: the refreshes started exceed the refresh results by at
      most the one in flight at the end, and for every request the answers
      given and still owed add up to its error responses. */
  lemma {:induction false} RunCounts(s: State, events: seq<Event>, id: nat)
    requires Consistent(s)
    ensures Starts(Run(s, events).1) + InFlight(s) <= Returns(events) + InFlight(Run(s, events).0)
    ensures Answers(Run(s, events).1) + Pending(Run(s, events).0) == Errors(events) + Pending(s)
    ensures AnswersTo(Run(s, events).1, id) + PendingFor(Run(s, events).0, id) == ErrorsFrom(events, id) + PendingFor(s, id)
    decreases |events|
  {
    if events != [] {
      var first := Step(s, events[0]);
      StepCounts(s, events[0], id);
      StepConsistent(s, events[0]);
      RunCounts(first.0, events[1..], id);
      CountsAppend(first.1, Run(first.0, events[1..]).1);
    }
  }

  /** From the idle start: at most one refresh per refresh result, plus the
      one in flight; no request is lost or answered twice: each request gets
      one answer per error response it produced, except those still owed
      while a refresh is in flight. */
  lemma SingleFlight(events: seq<Event>, id: nat)
    ensures Starts(Run(Idle, events).1) <= Returns(events) + 1
    ensures Answers(Run(Idle, events).1) + Pending(Run(Idle, events).0) == Errors(events)
    ensures AnswersTo(Run(Idle, events).1, id) + PendingFor(Run(Idle, events).0, id) == ErrorsFrom(events, id)
    ensures AnswersTo(Run(Idle, events).1, id) <= ErrorsFrom(events, id)
    ensures !Run(Idle, events).0.isRefreshing ==>
      Answers(Run(Idle, events).1) == Errors(events) && AnswersTo(Run(Idle, events).1, id) == ErrorsFrom(events, id)
  {
    RunCounts(Idle, events, id);
    RunConsistent(Idle, events);
  }

  /** A burst of expired responses with no refresh in flight starts exactly
      one refresh; the rest wait. */
  lemma OneRefreshPerBurst(a: Request, b: Request, c: Request)
    requires Qualifies(a) && Qualifies(b) && Qualifies(c)
    ensures var r := Run(Idle, [ErrorResponse(a), ErrorResponse(b), ErrorResponse(c)]);
      r.1 == [StartRefresh(a)] && r.0.failedQueue == [b, c]
  {
    var s1 := OnError(Idle, a);
    var s2 := OnError(s1.0, b);
    var s3 := OnError(s2.0, c);
    assert s1 == (State(true, [], Some(a.(retried := true))), [StartRefresh(a)]);
    assert [] + [b] == [b] && [b] + [c] == [b, c];
    assert s2 == (State(true, [b], Some(a.(retried := true))), []);
    assert s3 == (State(true, [b, c], Some(a.(retried := true))), []);
    assert [ErrorResponse(a), ErrorResponse(b), ErrorResponse(c)][1..] == [ErrorResponse(b), ErrorResponse(c)];
    assert [ErrorResponse(b), ErrorResponse(c)][1..] == [ErrorResponse(c)];
    assert [ErrorResponse(c)][1..] == [];
    assert Run(s3.0, []) == (s3.0, []);
    assert Step(s2.0, ErrorResponse(c)) == s3;
    assert s3.1 + [] == [];
    assert Run(s2.0, [ErrorResponse(c)]) == (s3.0, []);
    assert Run(s1.0, [ErrorResponse(b), ErrorResponse(c)]) == (s3.0, []);
  }

  /** The interceptor's module state, updated in place. `initiator` stands for
      the interceptor call suspended on `await refreshAccessToken()`. */
  class RefreshCoordinator {
    var isRefreshing: bool
    var failedQueue: seq<Request>
    var initiator: Option<Request>

    function Snapshot(): (s: State)
      reads this
      ensures s.isRefreshing == isRefreshing && s.failedQueue == failedQueue && s.initiator == initiator
    {
      State(isRefreshing, failedQueue, initiator)
    }

    ghost predicate Valid()
      reads this
    {
      Consistent(Snapshot())
    }

    constructor()
      ensures Snapshot() == Idle
      ensures Valid()
    {
      isRefreshing := false;
      failedQueue := [];
      initiator := None;
    }

    /** `processQueue(error, token)`: settles the waiters in order and empties
        the queue. */
    method ProcessQueue(result: RefreshResult) returns (settled: seq<Effect>)
      modifies this
      ensures settled == SettleAll(old(failedQueue), result)
      ensures failedQueue == []
      ensures isRefreshing == old(isRefreshing) && initiator == old(initiator)
    {
      settled := [];
      var i := 0;
      while i < |failedQueue|
        invariant 0 <= i <= |failedQueue|
        invariant |settled| == i
        invariant forall k :: 0 <= k < i ==> settled[k] == Settle(failedQueue[k], result)
      {
        settled := settled + [Settle(failedQueue[i], result)];
        i := i + 1;
      }
      failedQueue := [];
    }

    /** The error branch of the interceptor, up to the `await`. */
    method OnResponseError(req: Request) returns (effects: seq<Effect>)
      requires Valid()
      modifies this
      ensures Valid()
      ensures (Snapshot(), effects) == OnError(old(Snapshot()), req)
    {
      if !(req.status == Some(401) && req.code == Some("TOKEN_EXPIRED") && !req.retried) {
        return [Reject(req, Unchanged)];
      }
      if isRefreshing {
        failedQueue := failedQueue + [req];
        return [];
      }
      var marked := req.(retried := true);
      isRefreshing := true;
      initiator := Some(marked);
      effects := [StartRefresh(req)];
    }

    /** The rest of the interceptor once the refresh call returns. */
    method OnRefreshReturned(result: RefreshResult) returns (effects: seq<Effect>)
      requires Valid() && isRefreshing
      modifies this
      ensures Valid()
      ensures (Snapshot(), effects) == OnSettled(old(Snapshot()), result)
    {
      var init := initiator.value;
      var settled := ProcessQueue(result);
      match result {
        case Refreshed(token) =>
          var replayed := init.(authorization := Some("Bearer " + Interpolate(token)));
          effects := settled + [Replay(replayed)];
        case RefreshFailed(error) =>
          effects := settled + [RedirectToLogin, Reject(init, RefreshError(error))];
      }
      isRefreshing := false;
      initiator := None;
    }
  }
}
