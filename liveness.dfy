/** The server-liveness record `serverStatus` and how it changes: the success
    interceptor, the error interceptor's retry-once rule, `wakeUpServer` and
    `cleanup`, as functions of the old record and of the environment's inputs
    (the current time, each network outcome, what other callers write while
    this one waits). The class `Client.ApiClient` is proved against these. */
module Liveness {
  import opened Http

  /** `serverStatus`: `lastWakeUp` is `null` until a first success. */
  datatype Status = Status(isAwake: bool, lastWakeUp: Option<int>, isWaking: bool)

  /** The record at load time and after `cleanup`. */
  const Initial := Status(false, None, false)

  /** Five minutes, in milliseconds. */
  const FreshWindow: int := 300000

  /** Most one-second waits a caller makes for someone else's wake-up. */
  const MaxPolls: nat := 20

  /** `GET /health`, tagged `_retry` so that the interceptor never retries it. */
  const HealthCheck := Request(Get, "/health", NoBody, true)

  /** The `GET /health` of `checkServerHealth`, which carries no tag. */
  const StatusRequest := Request(Get, "/health", NoBody, false)

  /** The fast-path test of `wakeUpServer`: awake, a truthy timestamp
      (`lastWakeUp &&` rejects both null and 0) and less than five minutes old. */
  predicate RecentlyAwake(s: Status, now: int)
  {
    s.isAwake && s.lastWakeUp.Some? && s.lastWakeUp.value != 0
    && now - s.lastWakeUp.value < FreshWindow
  }

  /** The failures that look like a sleeping server: 503, 502 or a timeout. */
  predicate Transient(e: ApiError)
  {
    StatusOf(e) == Some(503) || StatusOf(e) == Some(502) || e.code == Some("ECONNABORTED")
  }

  /** The error interceptor's condition for waking the server and retrying. */
  predicate ShouldRetry(e: ApiError, req: Request)
  {
    Transient(e) && !req.retry
  }

  /** The success interceptor's update. */
  function MarkAwake(s: Status, at: int): Status
  {
    s.(isAwake := true, lastWakeUp := Some(at))
  }

  /** The interceptors' effect on the record for a reply that is not retried:
      a response marks the server awake at its arrival time, a rejected error
      changes nothing. */
  function Settle(s: Status, reply: Reply): Status
  {
    if reply.Success? then MarkAwake(s, reply.at) else s
  }

  /** What one `wakeUpServer` call is given: the time at entry, the outcome of
      its own health check, and, for the k-th one-second wait, the record as
      the in-flight wake-up left it (a wait past the end sees no change). */
  datatype WakeEnv = WakeEnv(now: int, probe: Reply, polled: seq<Status>)

  /** What one `wakeUpServer` call does: the record afterwards, the boolean it
      resolves to, how many health checks it sent and how many waits it made. */
  datatype Wake = Wake(status: Status, awake: bool, probes: nat, polls: nat)

  /** The record after the k-th wait. */
  function Observed(s: Status, polled: seq<Status>, k: nat): Status
  {
    if k < |polled| then polled[k] else s
  }

  /** The `while (isWaking && attempts < 20)` loop, from `attempts` waits on:
      the final record and the final count. */
  function Poll(s: Status, polled: seq<Status>, attempts: nat): (r: (Status, nat))
    requires attempts <= MaxPolls
    ensures attempts <= r.1 <= MaxPolls
    ensures r.1 < MaxPolls ==> !r.0.isWaking
    decreases MaxPolls - attempts
  {
    if s.isWaking && attempts < MaxPolls then Poll(Observed(s, polled, attempts), polled, attempts + 1)
    else (s, attempts)
  }

  /** `wakeUpServer()`: the fast path, the wait for a wake-up in flight, or a
      health check of its own whose `finally` clears `isWaking`. */
  function WakeUp(s: Status, env: WakeEnv): Wake
  {
    if RecentlyAwake(s, env.now) then Wake(s, true, 0, 0)
    else if s.isWaking then
      var (t, n) := Poll(s, env.polled, 0);
      Wake(t, t.isAwake, 0, n)
    else
      var settled := Settle(s.(isWaking := true), env.probe);
      if env.probe.Success? then Wake(MarkAwake(settled, env.probe.at).(isWaking := false), true, 1, 0)
      else Wake(settled.(isAwake := false, isWaking := false), false, 1, 0)
  }

  /** What one request meets on the network: its first outcome, the inputs of
      the `wakeUpServer` call made before a retry, and the retry's outcome. */
  datatype Network = Network(first: Reply, rewake: WakeEnv, second: Reply)

  /** One request through the interceptors: the record afterwards, what the
      caller receives, how often the request was sent, how many health checks
      were sent on its behalf. */
  datatype Exchange = Exchange(status: Status, result: Reply, sends: nat, probes: nat)

  /** The network a retried request meets: the retry's outcome first. A
      tagged request never reads the other two inputs. */
  function RetryNetwork(net: Network): Network
  {
    Network(net.second, net.rewake, net.second)
  }

  /** A request and its response interceptors. On a retryable failure the
      record is marked asleep, the request is tagged, the server is woken and
      the tagged request goes through the interceptors again, whatever
      `wakeUpServer` resolved to, since it never throws. */
  function Dispatch(s: Status, req: Request, net: Network): Exchange
    decreases if req.retry then 0 else 1
  {
    if net.first.Failure? && ShouldRetry(net.first.error, req) then
      var w := WakeUp(s.(isAwake := false), net.rewake);
      var again := Dispatch(w.status, req.(retry := true), RetryNetwork(net));
      Exchange(again.status, again.result, 1 + again.sends, w.probes + again.probes)
    else Exchange(Settle(s, net.first), net.first, 1, 0)
  }

  /** A `productAPI` operation: `await wakeUpServer()`, then its request. */
  function Operation(s: Status, req: Request, wake: WakeEnv, net: Network): Exchange
  {
    var w := WakeUp(s, wake);
    var x := Dispatch(w.status, req, net);
    x.(probes := w.probes + x.probes)
  }

  // ---------------------------------------------------------------------------
  // wakeUpServer

  /** Fresh and awake: resolves to true, sends nothing, changes nothing. */
  lemma FreshWakeIsSilent(s: Status, env: WakeEnv)
    requires RecentlyAwake(s, env.now)
    ensures WakeUp(s, env) == Wake(s, true, 0, 0)
  {
  }

  /** With a wake-up in flight: no health check of its own, at most twenty
      waits, fewer only once the flag has been seen cleared, and the result is
      the record's `isAwake` at the end. */
  lemma WaitingCallerSendsNothing(s: Status, env: WakeEnv)
    requires !RecentlyAwake(s, env.now) && s.isWaking
    ensures var w := WakeUp(s, env);
      && w.probes == 0 && w.polls <= MaxPolls
      && w.awake == w.status.isAwake
      && (w.polls < MaxPolls ==> !w.status.isWaking)
  {
  }

  /** While the flag stays set, each wait sees the next record, up to the
      first one with the flag cleared; that one is the outcome. */
  lemma {:induction false} PollStopsAtFirstClear(s: Status, polled: seq<Status>, a: nat, k: nat)
    requires a < k <= MaxPolls && k <= |polled|
    requires s.isWaking
    requires forall j :: a <= j < k - 1 ==> polled[j].isWaking
    requires !polled[k - 1].isWaking
    ensures Poll(s, polled, a) == (polled[k - 1], k)
    decreases k - a
  {
    if a + 1 < k {
      PollStopsAtFirstClear(polled[a], polled, a + 1, k);
    }
  }

  /** If the flag is never seen cleared, the caller gives up after exactly
      twenty waits, and the flag is still set. */
  lemma {:induction false} PollGivesUp(s: Status, polled: seq<Status>, a: nat)
    requires a <= MaxPolls
    requires s.isWaking
    requires forall j :: a <= j < MaxPolls && j < |polled| ==> polled[j].isWaking
    ensures Poll(s, polled, a).1 == MaxPolls && Poll(s, polled, a).0.isWaking
    decreases MaxPolls - a
  {
    if a < MaxPolls {
      PollGivesUp(Observed(s, polled, a), polled, a + 1);
    }
  }

  /** A caller that waits for the in-flight wake-up and sees it succeed on
      its k-th wait resolves to that outcome after k waits. */
  lemma WaitSeesOtherOutcome(s: Status, env: WakeEnv, k: nat)
    requires !RecentlyAwake(s, env.now) && s.isWaking
    requires 0 < k <= MaxPolls && k <= |env.polled|
    requires forall j :: 0 <= j < k - 1 ==> env.polled[j].isWaking
    requires !env.polled[k - 1].isWaking
    ensures WakeUp(s, env) == Wake(env.polled[k - 1], env.polled[k - 1].isAwake, 0, k)
  {
    PollStopsAtFirstClear(s, env.polled, 0, k);
  }

  /** Its own attempt: exactly one health check, `isWaking` false on exit
      whatever happens; success records the arrival time and resolves to
      true; failure marks the server asleep, resolves to false and keeps the
      old timestamp. */
  lemma OwnAttemptClearsFlag(s: Status, env: WakeEnv)
    requires !RecentlyAwake(s, env.now) && !s.isWaking
    ensures var w := WakeUp(s, env);
      && w.probes == 1 && w.polls == 0 && !w.status.isWaking
      && w.awake == env.probe.Success?
      && (env.probe.Success? ==> w.status == Status(true, Some(env.probe.at), false))
      && (env.probe.Failure? ==> w.status == Status(false, s.lastWakeUp, false))
  {
  }

  /** Whatever the branch: at most one health check, none while another is
      in flight, and the boolean returned is the record's `isAwake`. */
  lemma WakeUpSummary(s: Status, env: WakeEnv)
    ensures var w := WakeUp(s, env);
      && w.probes <= 1
      && (s.isWaking ==> w.probes == 0)
      && w.awake == w.status.isAwake
      && (!s.isWaking ==> !w.status.isWaking)
  {
  }

  /** Two calls within the freshness window send at most one health check:
      once a health check has succeeded at a non-zero time `at`, a call made
      less than five minutes later takes the fast path. */
  lemma SecondWakeWithinWindowIsSilent(s: Status, e1: WakeEnv, e2: WakeEnv)
    requires !RecentlyAwake(s, e1.now) && !s.isWaking
    requires e1.probe.Success? && e1.probe.at != 0
    requires e2.now - e1.probe.at < FreshWindow
    ensures var w1 := WakeUp(s, e1);
      var w2 := WakeUp(w1.status, e2);
      w1.probes + w2.probes == 1 && w2.status == w1.status && w2.awake
  {
  }

  /** After `cleanup` the record is not fresh and no wake-up is in flight,
      so the next `wakeUpServer` sends a health check. */
  lemma CleanupForcesProbe(env: WakeEnv)
    ensures WakeUp(Initial, env).probes == 1
  {
  }

  // ---------------------------------------------------------------------------
  // The response interceptors

  /** A tagged request (a retry, or the health check) is never retried: the
      reply is passed on and only settles the record. */
  lemma TaggedRequestSettles(s: Status, req: Request, net: Network)
    requires req.retry
    ensures Dispatch(s, req, net) == Exchange(Settle(s, net.first), net.first, 1, 0)
  {
  }

  /** The retry branch, unfolded: the tagged resend only settles. */
  lemma RetryBranch(s: Status, req: Request, net: Network)
    requires net.first.Failure? && ShouldRetry(net.first.error, req)
    ensures var w := WakeUp(s.(isAwake := false), net.rewake);
      Dispatch(s, req, net) == Exchange(Settle(w.status, net.second), net.second, 2, w.probes)
  {
    var w := WakeUp(s.(isAwake := false), net.rewake);
    TaggedRequestSettles(w.status, req.(retry := true), RetryNetwork(net));
  }

  /** The retry branch is one more pass of the tagged request through the
      interceptors, after the wake-up; what the caller receives and the
      record afterwards do not depend on anything but the retry's outcome. */
  lemma RetrySendsTaggedRequest(s: Status, req: Request, net: Network, later: Network)
    requires net.first.Failure? && ShouldRetry(net.first.error, req)
    requires later.first == net.second
    ensures var w := WakeUp(s.(isAwake := false), net.rewake);
      var x := Dispatch(s, req, net);
      var again := Dispatch(w.status, req.(retry := true), later);
      x.status == again.status && x.result == again.result && x.sends == 1 + again.sends
  {
    var w := WakeUp(s.(isAwake := false), net.rewake);
    RetryBranch(s, req, net);
    TaggedRequestSettles(w.status, req.(retry := true), later);
  }

  /** A request is sent at most twice, and twice exactly when its first
      failure is retryable and it was not yet tagged: the tag set before the
      retry stops a second one. */
  lemma RetriedAtMostOnce(s: Status, req: Request, net: Network)
    ensures var x := Dispatch(s, req, net);
      && 1 <= x.sends <= 2
      && (x.sends == 2 <==> net.first.Failure? && Transient(net.first.error) && !req.retry)
  {
    if net.first.Failure? && ShouldRetry(net.first.error, req) {
      var w := WakeUp(s.(isAwake := false), net.rewake);
      RetrySendsTaggedRequest(s, req, net, RetryNetwork(net));
      TaggedRequestSettles(w.status, req.(retry := true), RetryNetwork(net));
    }
  }

  /** The health check never goes through the retry branch. */
  lemma HealthCheckNeverRetried(s: Status, net: Network)
    ensures Dispatch(s, HealthCheck, net).sends == 1
    ensures Dispatch(s, HealthCheck, net).result == net.first
  {
    TaggedRequestSettles(s, HealthCheck, net);
  }

  /** `checkServerHealth`'s `GET /health` carries no `_retry` tag, so unlike
      the wake-up probe it goes through the retry branch on a 503, 502 or
      timeout and is then sent twice. */
  lemma HealthStatusProbeIsRetried(s: Status, net: Network)
    requires net.first.Failure? && Transient(net.first.error)
    ensures Dispatch(s, StatusRequest, net).sends == 2
    ensures Dispatch(s, StatusRequest, net).result == net.second
  {
    RetryBranch(s, StatusRequest, net);
  }

  /** Any other failure is handed back unchanged and leaves the record alone. */
  lemma OtherFailuresRejectedUnchanged(s: Status, req: Request, net: Network)
    requires net.first.Failure? && !ShouldRetry(net.first.error, req)
    ensures Dispatch(s, req, net) == Exchange(s, net.first, 1, 0)
  {
  }

  /** After a retry the caller gets the retry's own outcome: its data, or its
      error propagated as it is. The wake-up in between never takes the fast
      path, since the record was just marked asleep. */
  lemma RetryGivesSecondOutcome(s: Status, req: Request, net: Network)
    requires net.first.Failure? && ShouldRetry(net.first.error, req)
    ensures var x := Dispatch(s, req, net);
      && x.result == net.second && x.sends == 2
      && x.probes == (if s.isWaking then 0 else 1)
  {
  }

  /** Whatever path a request took, if the caller receives a response, the
      record says awake since that response's arrival. */
  lemma SuccessMarksAwake(s: Status, req: Request, net: Network)
    requires Dispatch(s, req, net).result.Success?
    ensures var x := Dispatch(s, req, net);
      x.status.isAwake && x.status.lastWakeUp == Some(x.result.at)
  {
  }

  /** A request never leaves a wake-up flag behind it: if none was in flight
      when it started, none is in flight when it ends. */
  lemma DispatchLeavesNoFlag(s: Status, req: Request, net: Network)
    requires !s.isWaking
    ensures !Dispatch(s, req, net).status.isWaking
  {
    if net.first.Failure? && ShouldRetry(net.first.error, req) {
      WakeUpSummary(s.(isAwake := false), net.rewake);
    }
  }

  /** A whole operation sends at most two health checks and its request at
      most twice. */
  lemma OperationBounds(s: Status, req: Request, wake: WakeEnv, net: Network)
    ensures var x := Operation(s, req, wake, net);
      x.probes <= 2 && 1 <= x.sends <= 2
  {
    WakeUpSummary(s, wake);
    var w := WakeUp(s, wake);
    RetriedAtMostOnce(w.status, req, net);
    if net.first.Failure? && ShouldRetry(net.first.error, req) {
      RetryBranch(w.status, req, net);
      WakeUpSummary(w.status.(isAwake := false), net.rewake);
    }
  }
}
