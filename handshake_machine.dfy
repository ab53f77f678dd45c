/** The transition table of the `handshaker()` state machine
    (p2p/handshaker.py, `Handshaker.A` and its condition and action methods),
    as a pure function from the machine's state and counters and one event to
    the new state and counters and the side effects the step asks for. The
    imperative `Handshaker.A` in module Handshakes is proved to follow it. */
module HandshakeMachine {

  type Packet = string
  type Info = string

  datatype State =
    | AtStartup   // 'AT_STARTUP'
    | Cache       // 'CACHE': waiting for the identity cache
    | AckWait     // 'ACK?': waiting for the Ack() of the last identity packet
    | Success     // 'SUCCESS'
    | TimedOut    // 'TIMEOUT'
    | NoIdent     // 'NO_IDENT'
    | Failed      // 'FAILED'
  {
    predicate Terminal() {
      this in {Success, TimedOut, NoIdent, Failed}
    }
  }

  /** The events the machine is fed. The payloads that the transitions ignore
      (the fetched identity source, the fetch error, the timed-out packet, the
      Fail() response) are left out; the Ack() response and its delivery info
      are kept because the success report hands them to every waiter. */
  datatype Event =
    | CacheAndPing
    | Ping
    | RemoteIdentityCached
    | RemoteIdentityFailed
    | AckReceived(response: Packet, info: Info)
    | AckTimeout
    | FailReceived
    | OutboxFailed
    | IdentitySent

  /** What every waiter of a finished handshake receives: the success tuple or
      one of the three errbacks. */
  datatype Outcome =
    | Acked(response: Packet, info: Info)  // doReportSuccess
    | NoIdentity(cacheAttempts: int)        // doReportNoIdentity
    | PingFailed                            // doReportFailed
    | NoResponse(pingAttempts: int)         // doReportTimeOut

  /** A side effect of one step: one identity-cache fetch, one identity packet
      sent with the given attempt number, or the report of the outcome to all
      waiters followed by the removal of the machine from the registry. */
  datatype Action =
    | FetchIdentity
    | SendIdentity(attempt: int)
    | Report(outcome: Outcome)

  /** The part of a `Handshaker` that the transitions read and write. */
  datatype Machine = Machine(state: State, cacheAttempts: int, pingAttempts: int,
                             cacheRetries: int, pingRetries: int)

  datatype Step = Step(machine: Machine, actions: seq<Action>)

  /** A machine as `__init__` and `init()` leave it. */
  function Initial(cacheRetries: int, pingRetries: int): Machine {
    Machine(AtStartup, 0, 0, cacheRetries, pingRetries)
  }

  /** `isMoreCacheRetries`: inclusive, so a first fetch is retried while
      the attempts made so far do not exceed the retries allowed. */
  predicate MoreCacheRetries(m: Machine) {
    m.cacheAttempts <= m.cacheRetries
  }

  /** `isMorePingRetries`, inclusive in the same way. */
  predicate MorePingRetries(m: Machine) {
    m.pingAttempts <= m.pingRetries
  }

  /** `doCacheRemoteIDURL`: count the attempt, issue one fetch. */
  function CacheRemoteIdurl(m: Machine): Step {
    Step(m.(cacheAttempts := m.cacheAttempts + 1), [FetchIdentity])
  }

  /** `doSendMyIdentity`: count the attempt, send one packet carrying the new count. */
  function SendMyIdentity(m: Machine): Step {
    Step(m.(pingAttempts := m.pingAttempts + 1), [SendIdentity(m.pingAttempts + 1)])
  }

  /** One call of `A(event)`. `cached` is what `isCached` (the identity cache's
      `HasKey`) answers at that moment. Events without a listed transition,
      and every event in a terminal state, change nothing. */
  function Next(m: Machine, ev: Event, cached: bool): Step {
    match m.state
    case AtStartup =>
      if ev.CacheAndPing? || (ev.Ping? && !cached) then CacheRemoteIdurl(m.(state := Cache))
      else if ev.Ping? && cached then SendMyIdentity(m.(state := AckWait))
      else Step(m, [])
    case Cache =>
      if ev.RemoteIdentityFailed? && !MoreCacheRetries(m) then
        Step(m.(state := NoIdent), [Report(NoIdentity(m.cacheAttempts))])
      else if ev.RemoteIdentityFailed? && MoreCacheRetries(m) then CacheRemoteIdurl(m)
      else if ev.RemoteIdentityCached? then SendMyIdentity(m.(state := AckWait))
      else Step(m, [])
    case AckWait =>
      if ev.AckReceived? then Step(m.(state := Success), [Report(Acked(ev.response, ev.info))])
      else if ev.AckTimeout? && !MorePingRetries(m) then
        Step(m.(state := TimedOut), [Report(NoResponse(m.pingAttempts))])
      else if ev.AckTimeout? && MorePingRetries(m) then SendMyIdentity(m)
      else if ev.FailReceived? || ev.OutboxFailed? then Step(m.(state := Failed), [Report(PingFailed)])
      else Step(m, [])
    case _ => Step(m, [])
  }

  /** Feeding a sequence of events, one `A` call each, collecting the effects in order. */
  function Run(m: Machine, evs: seq<Event>, cached: bool): Step
    decreases |evs|
  {
    if evs == [] then Step(m, [])
    else
      var first := Next(m, evs[0], cached);
      var rest := Run(first.machine, evs[1..], cached);
      Step(rest.machine, first.actions + rest.actions)
  }

  /** The total number of fetches a machine with these retries may issue: `cache_retries + 1`
      (one when the retries are negative, since the first fetch always happens). */
  function CacheBudget(retries: int): nat {
    if retries < 0 then 1 else retries + 1
  }

  /** The total number of identity packets a machine may send: `ping_retries + 1`. */
  function PingBudget(retries: int): nat {
    if retries < 0 then 1 else retries + 1
  }

  function Repeat(ev: Event, n: nat): (r: seq<Event>)
    ensures |r| == n && forall i :: 0 <= i < n ==> r[i] == ev
  {
    if n == 0 then [] else [ev] + Repeat(ev, n - 1)
  }

  function Fetches(acts: seq<Action>): nat {
    if acts == [] then 0 else (if acts[0].FetchIdentity? then 1 else 0) + Fetches(acts[1..])
  }

  function Sends(acts: seq<Action>): nat {
    if acts == [] then 0 else (if acts[0].SendIdentity? then 1 else 0) + Sends(acts[1..])
  }

  function Reports(acts: seq<Action>): nat {
    if acts == [] then 0 else (if acts[0].Report? then 1 else 0) + Reports(acts[1..])
  }

  lemma {:induction false} CountsAppend(a: seq<Action>, b: seq<Action>)
    ensures Fetches(a + b) == Fetches(a) + Fetches(b)
    ensures Sends(a + b) == Sends(a) + Sends(b)
    ensures Reports(a + b) == Reports(a) + Reports(b)
  {
    if a == [] {
      assert a + b == b;
    } else {
      CountsAppend(a[1..], b);
      assert (a + b)[1..] == a[1..] + b;
    }
  }

  /** The machine invariant: the counters stay within their budgets, match the
      state (nothing issued before the first event; at least one fetch made in
      CACHE, at least one packet sent in ACK?), and a terminal state is only
      reached after the attempts that lead to it. */
  ghost predicate Inv(m: Machine) {
    && 0 <= m.cacheAttempts <= CacheBudget(m.cacheRetries)
    && 0 <= m.pingAttempts <= PingBudget(m.pingRetries)
    && (m.state == AtStartup ==> m.cacheAttempts == 0 && m.pingAttempts == 0)
    && (m.state == Cache ==> m.cacheAttempts >= 1 && m.pingAttempts == 0)
    && (m.state == AckWait ==> m.pingAttempts >= 1)
    && (m.state == NoIdent ==> m.cacheAttempts == CacheBudget(m.cacheRetries))
    && (m.state == TimedOut ==> m.pingAttempts == PingBudget(m.pingRetries))
  }

  /** Every step keeps the invariant, never touches the retry settings, never
      goes back to AT_STARTUP, and issues at most one network operation or
      one report (the machine has at most one fetch or send outstanding). */
  lemma NextKeepsInv(m: Machine, ev: Event, cached: bool)
    requires Inv(m)
    ensures var s := Next(m, ev, cached);
      && Inv(s.machine)
      && s.machine.cacheRetries == m.cacheRetries && s.machine.pingRetries == m.pingRetries
      && (m.state != AtStartup ==> s.machine.state != AtStartup)
      && |s.actions| <= 1
  {
  }

  /** From AT_STARTUP: `cache-and-ping`, or `ping` when the identity is not
      cached, enters CACHE with exactly one fetch; `ping` when it is cached
      enters ACK? with exactly one send (attempt 1) and no fetch. */
  lemma StartTransitions(cacheRetries: int, pingRetries: int, ev: Event, cached: bool)
    requires ev == CacheAndPing || ev == Ping
    ensures var s := Next(Initial(cacheRetries, pingRetries), ev, cached);
      if ev == CacheAndPing || !cached then
        s.machine == Machine(Cache, 1, 0, cacheRetries, pingRetries) && s.actions == [FetchIdentity]
      else
        s.machine == Machine(AckWait, 0, 1, cacheRetries, pingRetries) && s.actions == [SendIdentity(1)]
  {
  }

  /** `fail-received` and `outbox-failed` end a handshake in ACK? at once,
      whatever retry budget is left. */
  lemma FailEndsAtOnce(m: Machine, ev: Event, cached: bool)
    requires m.state == AckWait && (ev == FailReceived || ev == OutboxFailed)
    ensures Next(m, ev, cached) == Step(m.(state := Failed), [Report(PingFailed)])
  {
  }

  /** A terminal machine absorbs every sequence of events. */
  lemma {:induction false} TerminalAbsorbs(m: Machine, evs: seq<Event>, cached: bool)
    requires m.state.Terminal()
    ensures Run(m, evs, cached) == Step(m, [])
    decreases |evs|
  {
    if evs != [] {
      TerminalAbsorbs(m, evs[1..], cached);
    }
  }

  /** `identity-sent` is never a transition: it changes nothing in any state. */
  lemma IdentitySentIgnored(m: Machine, cached: bool)
    ensures Next(m, IdentitySent, cached) == Step(m, [])
  {
  }

  /** A run over a non-empty sequence is its first step followed by the run over the rest. */
  lemma RunCons(m: Machine, ev: Event, evs: seq<Event>, cached: bool)
    ensures var first := Next(m, ev, cached);
            var rest := Run(first.machine, evs, cached);
            Run(m, [ev] + evs, cached) == Step(rest.machine, first.actions + rest.actions)
  {
    assert ([ev] + evs)[0] == ev && ([ev] + evs)[1..] == evs;
  }

  /** A run over an event sequence split in two is the two runs one after the other. */
  lemma {:induction false} RunAppend(m: Machine, a: seq<Event>, b: seq<Event>, cached: bool)
    ensures var r1 := Run(m, a, cached);
            var r2 := Run(r1.machine, b, cached);
            Run(m, a + b, cached) == Step(r2.machine, r1.actions + r2.actions)
    decreases |a|
  {
    if a == [] {
      assert a + b == b;
    } else {
      var first := Next(m, a[0], cached);
      SplitFirst(a, b);
      RunCons(m, a[0], a[1..] + b, cached);
      RunCons(m, a[0], a[1..], cached);
      RunAppend(first.machine, a[1..], b, cached);
      var r1 := Run(first.machine, a[1..], cached);
      var r2 := Run(r1.machine, b, cached);
      Associates(first.actions, r1.actions, r2.actions);
    }
  }

  lemma SplitFirst<T>(a: seq<T>, b: seq<T>)
    requires a != []
    ensures a + b == [a[0]] + (a[1..] + b) && a == [a[0]] + a[1..]
  {
  }

  lemma Associates<T>(a: seq<T>, b: seq<T>, c: seq<T>)
    ensures a + (b + c) == (a + b) + c
  {
  }

  /** One step issues exactly as many fetches and sends as it adds to the counters. */
  lemma NextAccounting(m: Machine, ev: Event, cached: bool)
    ensures var s := Next(m, ev, cached);
      && Fetches(s.actions) == s.machine.cacheAttempts - m.cacheAttempts
      && Sends(s.actions) == s.machine.pingAttempts - m.pingAttempts
  {
  }

  /** The attempt counters account exactly for what a run issues: every fetch
      is one more `cache_attempts`, every packet one more `ping_attempts`. */
  lemma {:induction false} RunAccounting(m: Machine, evs: seq<Event>, cached: bool)
    ensures var r := Run(m, evs, cached);
      && Fetches(r.actions) == r.machine.cacheAttempts - m.cacheAttempts
      && Sends(r.actions) == r.machine.pingAttempts - m.pingAttempts
    decreases |evs|
  {
    if evs != [] {
      var first := Next(m, evs[0], cached);
      NextAccounting(m, evs[0], cached);
      RunAccounting(first.machine, evs[1..], cached);
      CountsAppend(first.actions, Run(first.machine, evs[1..], cached).actions);
    }
  }

  /** Runs keep the invariant. */
  lemma {:induction false} RunKeepsInv(m: Machine, evs: seq<Event>, cached: bool)
    requires Inv(m)
    ensures Inv(Run(m, evs, cached).machine)
    ensures Run(m, evs, cached).machine.cacheRetries == m.cacheRetries
    ensures Run(m, evs, cached).machine.pingRetries == m.pingRetries
    decreases |evs|
  {
    if evs != [] {
      NextKeepsInv(m, evs[0], cached);
      RunKeepsInv(Next(m, evs[0], cached).machine, evs[1..], cached);
    }
  }

  /** Whatever the events, one handshake issues at most `cache_retries + 1`
      fetches and at most `ping_retries + 1` identity packets. */
  lemma BudgetsBoundEveryRun(cacheRetries: int, pingRetries: int, evs: seq<Event>, cached: bool)
    ensures var r := Run(Initial(cacheRetries, pingRetries), evs, cached);
      && Fetches(r.actions) <= CacheBudget(cacheRetries)
      && Sends(r.actions) <= PingBudget(pingRetries)
  {
    RunAccounting(Initial(cacheRetries, pingRetries), evs, cached);
    RunKeepsInv(Initial(cacheRetries, pingRetries), evs, cached);
  }

  /** A run reports at most once, and it reports exactly when it takes a live
      machine to a terminal state: every waiter gets one outcome, never two. */
  lemma {:induction false} ReportsOnceOnTermination(m: Machine, evs: seq<Event>, cached: bool)
    ensures var r := Run(m, evs, cached);
      Reports(r.actions) == if !m.state.Terminal() && r.machine.state.Terminal() then 1 else 0
    decreases |evs|
  {
    if evs != [] {
      var first := Next(m, evs[0], cached);
      var rest := Run(first.machine, evs[1..], cached);
      NextReports(m, evs[0], cached);
      if first.machine.state.Terminal() {
        TerminalAbsorbs(first.machine, evs[1..], cached);
      } else {
        ReportsOnceOnTermination(first.machine, evs[1..], cached);
      }
      CountsAppend(first.actions, rest.actions);
    }
  }

  /** One step reports exactly when it takes a live machine to a terminal state. */
  lemma NextReports(m: Machine, ev: Event, cached: bool)
    ensures var s := Next(m, ev, cached);
      && Reports(s.actions) == (if !m.state.Terminal() && s.machine.state.Terminal() then 1 else 0)
      && (m.state.Terminal() ==> s.machine.state.Terminal())
  {
  }

  /** Failed fetches while budget remains: each one re-fetches and stays in CACHE. */
  lemma {:induction false} CacheRetrying(m: Machine, k: nat, cached: bool)
    requires m.state == Cache && 1 <= m.cacheAttempts
    requires m.cacheAttempts + k <= CacheBudget(m.cacheRetries)
    ensures Run(m, Repeat(RemoteIdentityFailed, k), cached)
            == Step(m.(cacheAttempts := m.cacheAttempts + k), seq(k, _ => FetchIdentity))
    decreases k
  {
    if k > 0 {
      var m1 := m.(cacheAttempts := m.cacheAttempts + 1);
      assert Next(m, RemoteIdentityFailed, cached) == Step(m1, [FetchIdentity]);
      assert Repeat(RemoteIdentityFailed, k)[1..] == Repeat(RemoteIdentityFailed, k - 1);
      CacheRetrying(m1, k - 1, cached);
      assert [FetchIdentity] + seq(k - 1, _ => FetchIdentity) == seq(k, _ => FetchIdentity);
    }
  }

  /** An identity cache that always fails: the handshake stays in CACHE through
      the first `cache_retries` failures, then the next failure ends it in
      NO_IDENT, after exactly `cache_retries + 1` fetches, all reported with that count. */
  lemma CacheExhaustion(cacheRetries: int, pingRetries: int, start: Event, cached: bool)
    requires start == CacheAndPing || (start == Ping && !cached)
    ensures var n := CacheBudget(cacheRetries);
      && (forall k :: 0 <= k < n ==>
            Run(Initial(cacheRetries, pingRetries), [start] + Repeat(RemoteIdentityFailed, k), cached).machine.state == Cache)
      && var r := Run(Initial(cacheRetries, pingRetries), [start] + Repeat(RemoteIdentityFailed, n), cached);
      && r.machine.state == NoIdent
      && r.actions == seq(n, _ => FetchIdentity) + [Report(NoIdentity(n))]
  {
    var m0 := Initial(cacheRetries, pingRetries);
    var n := CacheBudget(cacheRetries);
    var m1 := Machine(Cache, 1, 0, cacheRetries, pingRetries);
    StartTransitions(cacheRetries, pingRetries, start, cached);
    forall k | 0 <= k < n
      ensures Run(m0, [start] + Repeat(RemoteIdentityFailed, k), cached).machine.state == Cache
    {
      RunCons(m0, start, Repeat(RemoteIdentityFailed, k), cached);
      CacheRetrying(m1, k, cached);
    }
    RunCons(m0, start, Repeat(RemoteIdentityFailed, n), cached);
    CacheLastFailure(m1, n, cached);
    PrependOne(FetchIdentity, seq(n - 1, _ => FetchIdentity), seq(n, _ => FetchIdentity), Report(NoIdentity(n)));
  }

  /** From the first fetch, `n` failures with `n` the budget: `n - 1` re-fetches, then NO_IDENT. */
  lemma CacheLastFailure(m1: Machine, n: nat, cached: bool)
    requires m1 == Machine(Cache, 1, 0, m1.cacheRetries, m1.pingRetries) && n == CacheBudget(m1.cacheRetries)
    ensures Run(m1, Repeat(RemoteIdentityFailed, n), cached)
            == Step(m1.(cacheAttempts := n, state := NoIdent), seq(n - 1, _ => FetchIdentity) + [Report(NoIdentity(n))])
  {
    RepeatSnoc(RemoteIdentityFailed, n - 1);
    RunAppend(m1, Repeat(RemoteIdentityFailed, n - 1), [RemoteIdentityFailed], cached);
    CacheRetrying(m1, n - 1, cached);
    var mn := m1.(cacheAttempts := n);
    RunOne(mn, RemoteIdentityFailed, cached);
  }

  /** One more event at the end of a repetition. */
  lemma RepeatSnoc(ev: Event, n: nat)
    ensures Repeat(ev, n) + [ev] == Repeat(ev, n + 1)
  {
  }

  /** A run over one event is that event's step. */
  lemma RunOne(m: Machine, ev: Event, cached: bool)
    ensures Run(m, [ev], cached) == Next(m, ev, cached)
  {
    RunCons(m, ev, [], cached);
  }

  lemma PrependOne<T>(x: T, s: seq<T>, t: seq<T>, y: T)
    requires t == [x] + s
    ensures [x] + (s + [y]) == t + [y]
  {
  }

  /** Ack timeouts while budget remains: each one re-sends, numbering the
      attempts on, and stays in ACK?. */
  lemma {:induction false} AckRetrying(m: Machine, k: nat, cached: bool)
    requires m.state == AckWait && 1 <= m.pingAttempts
    requires m.pingAttempts + k <= PingBudget(m.pingRetries)
    ensures Run(m, Repeat(AckTimeout, k), cached)
            == Step(m.(pingAttempts := m.pingAttempts + k), seq(k, i => SendIdentity(m.pingAttempts + 1 + i)))
    decreases k
  {
    if k > 0 {
      var m1 := m.(pingAttempts := m.pingAttempts + 1);
      assert Next(m, AckTimeout, cached) == Step(m1, [SendIdentity(m.pingAttempts + 1)]);
      assert Repeat(AckTimeout, k)[1..] == Repeat(AckTimeout, k - 1);
      AckRetrying(m1, k - 1, cached);
      assert [SendIdentity(m.pingAttempts + 1)] + seq(k - 1, i => SendIdentity(m1.pingAttempts + 1 + i))
          == seq(k, i => SendIdentity(m.pingAttempts + 1 + i));
    }
  }

  /** A peer that never answers: starting from a cached identity, the machine
      stays in ACK? through the first `ping_retries` timeouts, then ends in
      TIMEOUT after exactly `ping_retries + 1` packets numbered 1, 2, ..., and no fetch. */
  lemma AckExhaustion(cacheRetries: int, pingRetries: int)
    ensures var n := PingBudget(pingRetries);
      && (forall k :: 0 <= k < n ==>
            Run(Initial(cacheRetries, pingRetries), [Ping] + Repeat(AckTimeout, k), true).machine.state == AckWait)
      && var r := Run(Initial(cacheRetries, pingRetries), [Ping] + Repeat(AckTimeout, n), true);
      && r.machine.state == TimedOut
      && r.actions == seq(n, i => SendIdentity(i + 1)) + [Report(NoResponse(n))]
  {
    var m0 := Initial(cacheRetries, pingRetries);
    var n := PingBudget(pingRetries);
    var m1 := Machine(AckWait, 0, 1, cacheRetries, pingRetries);
    assert Next(m0, Ping, true) == Step(m1, [SendIdentity(1)]);
    forall k | 0 <= k < n
      ensures Run(m0, [Ping] + Repeat(AckTimeout, k), true).machine.state == AckWait
    {
      assert ([Ping] + Repeat(AckTimeout, k))[1..] == Repeat(AckTimeout, k);
      AckRetrying(m1, k, true);
    }
    var evs := [Ping] + Repeat(AckTimeout, n);
    assert evs[1..] == Repeat(AckTimeout, n - 1) + [AckTimeout];
    RunAppend(m1, Repeat(AckTimeout, n - 1), [AckTimeout], true);
    AckRetrying(m1, n - 1, true);
    var mn := m1.(pingAttempts := n);
    RunOne(mn, AckTimeout, true);
    PrependOne(SendIdentity(1), seq(n - 1, i => SendIdentity(m1.pingAttempts + 1 + i)), seq(n, i => SendIdentity(i + 1)),
               Report(NoResponse(n)));
  }

  /** Whatever the events and the cache's answers, a handshake that ends in
      TIMEOUT has sent exactly `ping_retries + 1` identity packets. */
  lemma TimeoutSpendsPingBudget(cacheRetries: int, pingRetries: int, evs: seq<Event>, cached: bool)
    requires Run(Initial(cacheRetries, pingRetries), evs, cached).machine.state == TimedOut
    ensures Sends(Run(Initial(cacheRetries, pingRetries), evs, cached).actions) == PingBudget(pingRetries)
  {
    RunAccounting(Initial(cacheRetries, pingRetries), evs, cached);
    RunKeepsInv(Initial(cacheRetries, pingRetries), evs, cached);
  }

  /** Whatever the events, a handshake that ends in NO_IDENT has issued
      exactly `cache_retries + 1` identity fetches. */
  lemma NoIdentSpendsCacheBudget(cacheRetries: int, pingRetries: int, evs: seq<Event>, cached: bool)
    requires Run(Initial(cacheRetries, pingRetries), evs, cached).machine.state == NoIdent
    ensures Fetches(Run(Initial(cacheRetries, pingRetries), evs, cached).actions) == CacheBudget(cacheRetries)
  {
    RunAccounting(Initial(cacheRetries, pingRetries), evs, cached);
    RunKeepsInv(Initial(cacheRetries, pingRetries), evs, cached);
  }

  /** A cached peer whose first packet times out and whose second is
      acknowledged: two packets, success with the Ack() of the second. */
  lemma SecondAttemptAcked(cacheRetries: int, pingRetries: int, response: Packet, info: Info)
    requires pingRetries >= 1
    ensures Run(Initial(cacheRetries, pingRetries), [Ping, AckTimeout, AckReceived(response, info)], true)
            == Step(Machine(Success, 0, 2, cacheRetries, pingRetries),
                    [SendIdentity(1), SendIdentity(2), Report(Acked(response, info))])
  {
    var evs := [Ping, AckTimeout, AckReceived(response, info)];
    var m1 := Machine(AckWait, 0, 1, cacheRetries, pingRetries);
    var m2 := m1.(pingAttempts := 2);
    assert evs[1..] == [AckTimeout, AckReceived(response, info)];
    assert evs[1..][1..] == [AckReceived(response, info)];
    assert Run(m2, [AckReceived(response, info)], true)
        == Step(m2.(state := Success), [Report(Acked(response, info))]);
  }

  /** `force_cache` fetches once even when the identity is already cached, and
      a successful fetch then sends the first packet. */
  lemma ForcedCacheFetchesFirst(cacheRetries: int, pingRetries: int)
    ensures Run(Initial(cacheRetries, pingRetries), [CacheAndPing, RemoteIdentityCached], true)
            == Step(Machine(AckWait, 1, 1, cacheRetries, pingRetries), [FetchIdentity, SendIdentity(1)])
  {
    var evs := [CacheAndPing, RemoteIdentityCached];
    assert evs[1..] == [RemoteIdentityCached];
    var m1 := Machine(Cache, 1, 0, cacheRetries, pingRetries);
    assert Run(m1, [RemoteIdentityCached], true) == Step(m1.(state := AckWait, pingAttempts := 1), [SendIdentity(1)]);
  }
}
