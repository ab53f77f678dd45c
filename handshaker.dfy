/** The process-wide side of p2p/handshaker.py: the registry of running
    handshakes (`_RunningHandshakers`) with the callers waiting on each, the
    per-channel counters (`_KnownChannels`), `ping`, `is_running`,
    `on_identity_packet_outbox_status`, and the `Handshaker` object whose `A`
    steps its fields as the transition table `HandshakeMachine.Next` says.

    The module-level dictionaries become fields of one `Registry` object that
    every `Handshaker` holds. Each caller's `Deferred` is a `Waiter` number;
    firing it is recording its outcome in `Registry.outcomes`. The identity
    cache fetch and the packet send are recorded in `Registry.requests` instead
    of being performed. */
module Handshakes {
  import opened Wrappers
  import opened Text
  import opened HandshakeMachine

  type Idurl = string
  type Waiter = nat
  type Identity = string

  /** The keyword arguments of `ping`. */
  datatype Options = Options(
    ackTimeout: int, cacheTimeout: int, cacheRetries: int, pingRetries: int,
    forceCache: bool, skipOutbox: bool, keepAlive: bool,
    fakeIdentity: Option<Identity>, channel: string, channelCounter: bool)

  /** The defaults in `ping`'s signature. */
  const DefaultOptions := Options(15, 5, 2, 2, false, false, true, None, "identity", true)

  /** What the surroundings answer while one event is handled: whether the
      identity cache holds the peer (`identitycache.HasKey`), whether the
      identity about to be sent is `Valid()`, and the next `packetid.UniqueID()`. */
  datatype Env = Env(cached: bool, identityValid: bool, uid: string)

  /** A network operation handed to a collaborator. `identity` is the fake
      identity to send, `None` for the local one; `direct` is `skip_outbox`
      (`packet_out.create` rather than `gateway.outbox`). */
  datatype Request =
    | FetchRequest(idurl: Idurl, timeout: int)
    | SendRequest(remote: Idurl, packetId: string, identity: Option<Identity>,
                  responseTimeout: int, direct: bool, keepAlive: bool)

  /** One entry of `_RunningHandshakers`: the machine and the callers' Deferreds. */
  datatype Entry = Entry(instance: Handshaker, results: seq<Waiter>)

  datatype PingError = EmptyIdurl

  /** The `PacketID` of an identity packet: `channel:counter:attempt:uid` when
      the channel counter is used, `channel:attempt:uid` otherwise. */
  function PacketId(channel: string, counter: Option<int>, attempt: int, uid: string): string {
    match counter
    case Some(c) => channel + ":" + IntToString(c) + ":" + IntToString(attempt) + ":" + uid
    case None => channel + ":" + IntToString(attempt) + ":" + uid
  }

  /** The colon-separated fields of a packet id, before the unique id. */
  function PacketIdHead(channel: string, counter: Option<int>): string {
    match counter
    case Some(c) => channel + ":" + IntToString(c) + ":"
    case None => channel + ":"
  }

  lemma PacketIdShape(channel: string, counter: Option<int>, attempt: int, uid: string)
    ensures PacketId(channel, counter, attempt, uid)
            == PacketIdHead(channel, counter) + (IntToString(attempt) + [':'] + uid)
  {
  }

  /** Two identity packets of one channel and counter value share a packet id
      only when their attempt numbers agree, whatever unique ids
      `packetid.UniqueID()` handed out: the re-sends of one handshake never
      reuse a packet id. */
  lemma PacketIdsDifferByAttempt(channel: string, counter: Option<int>, a: int, b: int, u: string, v: string)
    ensures PacketId(channel, counter, a, u) == PacketId(channel, counter, b, v) ==> a == b
  {
    var head := PacketIdHead(channel, counter);
    var x := IntToString(a) + [':'] + u;
    var y := IntToString(b) + [':'] + v;
    PacketIdShape(channel, counter, a, u);
    PacketIdShape(channel, counter, b, v);
    if head + x == head + y {
      assert x == (head + x)[|head|..] && y == (head + y)[|head|..];
      IntToStringNoneOf(a, {':'});
      IntToStringNoneOf(b, {':'});
      SplitAt(IntToString(a), ':', u, {':'});
      SplitAt(IntToString(b), ':', v, {':'});
      assert IntToString(a) == Split(x, {':'})[0] == IntToString(b);
      IntToStringParses(a);
      IntToStringParses(b);
    }
  }

  /** How a packet id splits at its colons, when the channel holds none. */
  lemma PacketIdSplit(channel: string, counter: Option<int>, attempt: int, uid: string)
    requires NoneOf(channel, {':'})
    ensures var f := Split(PacketId(channel, counter, attempt, uid), {':'});
      match counter
      case Some(c) => f == [channel, IntToString(c), IntToString(attempt)] + Split(uid, {':'})
      case None => f == [channel, IntToString(attempt)] + Split(uid, {':'})
  {
    var at := IntToString(attempt);
    var rest := at + [':'] + uid;
    PacketIdShape(channel, counter, attempt, uid);
    IntToStringNoneOf(attempt, {':'});
    SplitAt(at, ':', uid, {':'});
    HeadSplits(channel, counter, rest);
    match counter
    case Some(c) => Regroup3(channel, IntToString(c), at, Split(uid, {':'}));
    case None => Regroup2(channel, at, Split(uid, {':'}));
  }

  /** The head of a packet id splits into the channel and the counter. */
  lemma HeadSplits(channel: string, counter: Option<int>, rest: string)
    requires NoneOf(channel, {':'})
    ensures Split(PacketIdHead(channel, counter) + rest, {':'}) == match counter
      case Some(c) => [channel] + ([IntToString(c)] + Split(rest, {':'}))
      case None => [channel] + Split(rest, {':'})
  {
    HeadRegroups(channel, counter, rest);
    match counter
    case Some(c) =>
      var ct := IntToString(c);
      IntToStringNoneOf(c, {':'});
      SplitAt(channel, ':', ct + [':'] + rest, {':'});
      SplitAt(ct, ':', rest, {':'});
    case None =>
      SplitAt(channel, ':', rest, {':'});
  }

  lemma HeadRegroups(channel: string, counter: Option<int>, rest: string)
    ensures PacketIdHead(channel, counter) + rest == match counter
      case Some(c) => channel + [':'] + (IntToString(c) + [':'] + rest)
      case None => channel + [':'] + rest
  {
  }

  lemma Regroup3<T>(a: T, b: T, c: T, tail: seq<T>)
    ensures [a] + ([b] + ([c] + tail)) == [a, b, c] + tail
  {
  }

  lemma Regroup2<T>(a: T, b: T, tail: seq<T>)
    ensures [a] + ([b] + tail) == [a, b] + tail
  {
  }

  /** A packet id reads back, at its colons, as the channel, the counter and
      the attempt number it was built from, followed by the unique id's fields. */
  lemma PacketIdFields(channel: string, counter: Option<int>, attempt: int, uid: string)
    requires NoneOf(channel, {':'})
    ensures var f := Split(PacketId(channel, counter, attempt, uid), {':'});
      match counter
      case Some(c) =>
        |f| >= 4 && f[0] == channel && ParseInt(f[1]) == Some(c) && ParseInt(f[2]) == Some(attempt)
        && f[3..] == Split(uid, {':'})
      case None =>
        |f| >= 3 && f[0] == channel && ParseInt(f[1]) == Some(attempt)
        && f[2..] == Split(uid, {':'})
  {
    PacketIdSplit(channel, counter, attempt, uid);
    IntToStringParses(attempt);
    if counter.Some? {
      IntToStringParses(counter.value);
    }
  }

  /** `_KnownChannels` after one `Handshaker` construction on `channel`: the
      counter starts at 0 when absent and goes up by one; no counter ever
      goes down or disappears. */
  function Bumped(counters: map<string, int>, channel: string): (r: map<string, int>)
    ensures r.Keys == counters.Keys + {channel}
    ensures r[channel] == (if channel in counters then counters[channel] else 0) + 1
    ensures forall c :: c in counters ==> r[c] >= counters[c]
    ensures forall c :: c in counters && c != channel ==> r[c] == counters[c]
  {
    var start := if channel in counters then counters else counters[channel := 0];
    start[channel := start[channel] + 1]
  }

  /** The outcome the callers of a finished handshake receive, if a step
      reports one (a report is always the last thing a step does). */
  function Reported(acts: seq<Action>): Option<Outcome> {
    if acts != [] && acts[|acts| - 1].Report? then Some(acts[|acts| - 1].outcome) else None
  }

  /** Every waiter of `ws` fired with `o`. */
  function Resolved(ws: seq<Waiter>, o: Outcome): (r: map<Waiter, Outcome>)
    ensures forall w :: w in r <==> w in ws
    ensures forall w :: w in r ==> r[w] == o
  {
    map w | w in ws :: o
  }

  lemma ResolvedSnoc(ws: seq<Waiter>, w: Waiter, o: Outcome)
    ensures Resolved(ws + [w], o) == Resolved(ws, o)[w := o]
  {
    assert forall x :: x in ws + [w] <==> x in ws || x == w;
  }

  lemma UnionUpdate(a: map<Waiter, Outcome>, b: map<Waiter, Outcome>, w: Waiter, o: Outcome)
    ensures (a + b)[w := o] == a + b[w := o]
  {
  }

  function WaitersOf(running: map<Idurl, Entry>, idurl: Idurl): seq<Waiter> {
    if idurl in running then running[idurl].results else []
  }

  /** The event `ping` feeds a new machine first. */
  function FirstEvent(opts: Options): Event {
    if opts.forceCache then CacheAndPing else Ping
  }

  predicate Distinct(ws: seq<Waiter>) {
    forall i, j :: 0 <= i < j < |ws| ==> ws[i] != ws[j]
  }

  /** The bookkeeping of the callers' Deferreds: every waiter of a running
      handshake was handed out and has not fired, no Deferred waits twice or
      on two handshakes, and only handed-out Deferreds have fired. */
  ghost predicate WaitersInvariant(running: map<Idurl, Entry>, outcomes: map<Waiter, Outcome>, nextWaiter: nat) {
    && (forall k, w :: k in running && w in running[k].results ==> w < nextWaiter)
    && (forall k, w :: k in running && w in running[k].results ==> w !in outcomes)
    && (forall k :: k in running ==> Distinct(running[k].results))
    && (forall k1, k2, w :: k1 in running && k2 in running && k1 != k2 && w in running[k1].results ==>
          w !in running[k2].results)
    && (forall w :: w in outcomes ==> w < nextWaiter)
  }

  /** Firing every waiter of one handshake and dropping its entry keeps the
      bookkeeping: none of those waiters is waiting anywhere else. */
  lemma FireKeepsWaiters(running: map<Idurl, Entry>, outcomes: map<Waiter, Outcome>, nextWaiter: nat,
                         idurl: Idurl, o: Outcome)
    requires WaitersInvariant(running, outcomes, nextWaiter) && idurl in running
    ensures WaitersInvariant(running - {idurl}, outcomes + Resolved(running[idurl].results, o), nextWaiter)
  {
    var rest := running - {idurl};
    var fired := outcomes + Resolved(running[idurl].results, o);
    forall k, w | k in rest && w in rest[k].results
      ensures w !in fired
    {
      assert w !in running[idurl].results;
    }
  }

  /** A second caller of a running handshake gets a fresh Deferred appended
      to its waiters. */
  lemma JoinKeepsWaiters(running: map<Idurl, Entry>, outcomes: map<Waiter, Outcome>, nextWaiter: nat,
                         idurl: Idurl)
    requires WaitersInvariant(running, outcomes, nextWaiter) && idurl in running
    ensures var joined := running[idurl].(results := running[idurl].results + [nextWaiter]);
            WaitersInvariant(running[idurl := joined], outcomes, nextWaiter + 1)
  {
    var ws := running[idurl].results;
    var joined := running[idurl := running[idurl].(results := ws + [nextWaiter])];
    // the new Deferred is newer than every waiter and every fired one
    assert nextWaiter !in ws && nextWaiter !in outcomes;
    forall i, j | 0 <= i < j < |ws + [nextWaiter]|
      ensures (ws + [nextWaiter])[i] != (ws + [nextWaiter])[j]
    {
      if j == |ws| {
        assert ws[i] in ws;
      }
    }
    forall k1, k2, w | k1 in joined && k2 in joined && k1 != k2 && w in joined[k1].results
      ensures w !in joined[k2].results
    {
      if k1 == idurl && w == nextWaiter {
        assert w !in running[k2].results;
      }
    }
  }

  /** A new handshake starts with one fresh Deferred. */
  lemma StartKeepsWaiters(running: map<Idurl, Entry>, outcomes: map<Waiter, Outcome>, nextWaiter: nat,
                          idurl: Idurl, h: Handshaker)
    requires WaitersInvariant(running, outcomes, nextWaiter) && idurl !in running
    ensures WaitersInvariant(running[idurl := Entry(h, [nextWaiter])], outcomes, nextWaiter + 1)
  {
    var started := running[idurl := Entry(h, [nextWaiter])];
    forall k1, k2, w | k1 in started && k2 in started && k1 != k2 && w in started[k1].results
      ensures w !in started[k2].results
    {
      if k1 == idurl {
        assert w == nextWaiter && nextWaiter !in running[k2].results;
      }
    }
  }

  /** `running` holds `h` as the machine of its idurl. */
  predicate HeldBy(running: map<Idurl, Entry>, h: Handshaker) {
    h.remoteIdurl in running && running[h.remoteIdurl].instance == h
  }

  /** `h` is a live machine for exactly `k`, bound to `reg`, in a
      non-terminal state that keeps the machine invariant, on a channel that
      has a counter, with at least one waiter in `results`. */
  ghost predicate LiveMachine(h: Handshaker, reg: Registry, k: Idurl, channels: map<string, int>, results: seq<Waiter>)
    reads h
  {
    && h.reg == reg
    && h.remoteIdurl == k
    && k != []
    && !h.state.Terminal()
    && Inv(h.View())
    && h.channel in channels
    && |results| >= 1
  }

  /** The registry invariant, over the registry's fields given as values.
      Every registered machine was built on `reg` and is live for its idurl,
      the waiters are consistent, and every machine built on `reg` that has
      not finished is the registered one for its idurl: no live machine runs
      outside the registry. */
  ghost predicate Coherent(reg: Registry, running: map<Idurl, Entry>, channels: map<string, int>,
                           outcomes: map<Waiter, Outcome>, nextWaiter: nat, machines: set<Handshaker>)
    reads machines
  {
    && (forall k :: k in running ==> running[k].instance in machines)
    && (forall k :: k in running ==> LiveMachine(running[k].instance, reg, k, channels, running[k].results))
    && WaitersInvariant(running, outcomes, nextWaiter)
    && (forall h :: h in machines && !h.state.Terminal() ==> h.reg == reg && HeldBy(running, h))
  }

  /** Firing the waiters of a machine that has just finished and dropping
      its entry leaves the registry coherent. */
  lemma DropKeepsCoherent(reg: Registry, running: map<Idurl, Entry>, channels: map<string, int>,
                          outcomes: map<Waiter, Outcome>, nextWaiter: nat, machines: set<Handshaker>,
                          h: Handshaker, o: Outcome)
    requires HeldBy(running, h) && h.state.Terminal()
    requires forall k :: k in running ==> running[k].instance in machines
    requires forall k :: k in running && k != h.remoteIdurl ==>
               LiveMachine(running[k].instance, reg, k, channels, running[k].results)
    requires WaitersInvariant(running, outcomes, nextWaiter)
    requires forall g :: g in machines && !g.state.Terminal() ==> g.reg == reg && HeldBy(running, g)
    ensures Coherent(reg, running - {h.remoteIdurl}, channels, outcomes + Resolved(running[h.remoteIdurl].results, o),
                     nextWaiter, machines)
  {
    FireKeepsWaiters(running, outcomes, nextWaiter, h.remoteIdurl, o);
  }

  /** Registering a machine just built for an idurl that has none keeps the
      registry coherent. */
  lemma RegisterKeepsCoherent(reg: Registry, running: map<Idurl, Entry>, channels: map<string, int>,
                              outcomes: map<Waiter, Outcome>, nextWaiter: nat, machines: set<Handshaker>,
                              idurl: Idurl, h: Handshaker)
    requires Coherent(reg, running, channels, outcomes, nextWaiter, machines)
    requires idurl !in running && h !in machines
    requires LiveMachine(h, reg, idurl, channels, [nextWaiter])
    ensures Coherent(reg, running[idurl := Entry(h, [nextWaiter])], channels, outcomes, nextWaiter + 1, machines + {h})
  {
    StartKeepsWaiters(running, outcomes, nextWaiter, idurl, h);
    var started := running[idurl := Entry(h, [nextWaiter])];
    forall g | g in machines + {h} && !g.state.Terminal()
      ensures HeldBy(started, g)
    {
      if g != h {
        assert HeldBy(running, g);
      }
    }
  }

  class Registry {
    /** `_RunningHandshakers`. */
    var running: map<Idurl, Entry>
    /** `_KnownChannels`. */
    var knownChannels: map<string, int>
    /** The value each fired Deferred was fired with. */
    var outcomes: map<Waiter, Outcome>
    /** The next Deferred to hand out. */
    var nextWaiter: nat
    /** Fetches and sends issued so far, in order. */
    var requests: seq<Request>
    /** Every machine `ping` has built on this registry, finished or not. */
    ghost var machines: set<Handshaker>

    /** The entry for `k` holds a live machine for exactly that idurl. */
    ghost predicate LiveEntry(k: Idurl)
      requires k in running
      reads this, running[k].instance
    {
      LiveMachine(running[k].instance, this, k, knownChannels, running[k].results)
    }

    /** The registry invariant. */
    ghost predicate Valid()
      reads this, machines
    {
      Coherent(this, running, knownChannels, outcomes, nextWaiter, machines)
    }

    /** The coalescing invariant: at most one live machine per idurl, so
        concurrent pings towards one peer never run two handshakes. */
    lemma OneLiveMachinePerIdurl(h1: Handshaker, h2: Handshaker)
      requires Valid() && h1 in machines && h2 in machines
      requires !h1.state.Terminal() && !h2.state.Terminal() && h1.remoteIdurl == h2.remoteIdurl
      ensures h1 == h2
    {
    }

    constructor ()
      ensures Valid()
      ensures running == map[] && knownChannels == map[] && outcomes == map[]
      ensures nextWaiter == 0 && requests == [] && machines == {}
    {
      machines := {};
      running := map[];
      knownChannels := map[];
      outcomes := map[];
      nextWaiter := 0;
      requests := [];
    }

    /** `is_running`: an empty idurl is never running. */
    method IsRunning(idurl: Idurl) returns (b: bool)
      ensures b <==> idurl != [] && idurl in running
    {
      if idurl == [] {
        return false;
      }
      b := idurl in running;
    }

    /** `ping`. An empty idurl raises. A running handshake for the idurl gets
        one more waiter and nothing else: no second machine, and this call's
        options are ignored. Otherwise a new machine is built with these
        options, registered with this caller as its only waiter, and fed
        `cache-and-ping` when `force_cache` is set, `ping` otherwise. */
    method Ping(idurl: Idurl, opts: Options, env: Env) returns (r: Result<Waiter, PingError>)
      requires Valid()
      requires idurl != [] && idurl !in running && !opts.forceCache && env.cached ==> env.identityValid
      modifies this
      ensures Valid()
      ensures idurl == [] ==> r == Err(EmptyIdurl) && unchanged(this)
      ensures idurl != [] ==> r == Ok(old(nextWaiter)) && nextWaiter == old(nextWaiter) + 1
      ensures idurl != [] && idurl in old(running) ==>
        && running == old(running)[idurl := old(running)[idurl].(results := old(running)[idurl].results + [old(nextWaiter)])]
        && machines == old(machines)
        && knownChannels == old(knownChannels)
        && outcomes == old(outcomes)
        && requests == old(requests)
      ensures idurl != [] && idurl !in old(running) ==>
        && idurl in running
        && running == old(running)[idurl := Entry(running[idurl].instance, [old(nextWaiter)])]
        && fresh(running[idurl].instance)
        && running[idurl].instance.Settings() == opts.(forceCache := false)
        && machines == old(machines) + {running[idurl].instance}
        && running[idurl].instance.View()
           == Next(Initial(opts.cacheRetries, opts.pingRetries), FirstEvent(opts), env.cached).machine
        && knownChannels == Bumped(old(knownChannels), opts.channel)
        && outcomes == old(outcomes)
        && requests == old(requests) + running[idurl].instance.RequestsFor(
             Next(Initial(opts.cacheRetries, opts.pingRetries), FirstEvent(opts), env.cached).actions,
             knownChannels, env.uid)
    {
      if idurl == [] {
        return Err(EmptyIdurl);
      }
      if idurl in running {
        var w := Join(idurl);
        return Ok(w);
      }
      var h, w := Start(idurl, opts, env);
      return Ok(w);
    }

    /** The new-handshake branch of `ping`: build and register the machine,
        then feed it its first event. */
    method Start(idurl: Idurl, opts: Options, env: Env) returns (h: Handshaker, w: Waiter)
      requires Valid() && idurl != [] && idurl !in running
      requires !opts.forceCache && env.cached ==> env.identityValid
      modifies this
      ensures Valid()
      ensures fresh(h) && h.Settings() == opts.(forceCache := false) && machines == old(machines) + {h}
      ensures h.View() == Next(Initial(opts.cacheRetries, opts.pingRetries), FirstEvent(opts), env.cached).machine
      ensures w == old(nextWaiter) && nextWaiter == old(nextWaiter) + 1
      ensures running == old(running)[idurl := Entry(h, [w])]
      ensures knownChannels == Bumped(old(knownChannels), opts.channel)
      ensures outcomes == old(outcomes)
      ensures requests == old(requests) + h.RequestsFor(
                Next(Initial(opts.cacheRetries, opts.pingRetries), FirstEvent(opts), env.cached).actions,
                knownChannels, env.uid)
    {
      h, w := Launch(idurl, opts);
      StartTransitions(opts.cacheRetries, opts.pingRetries, FirstEvent(opts), env.cached);
      ghost var step := Next(Initial(opts.cacheRetries, opts.pingRetries), FirstEvent(opts), env.cached);
      assert Reported(step.actions).None? && (Sends(step.actions) > 0 ==> env.identityValid);
      h.A(FirstEvent(opts), env);
    }

    /** A further caller of the running handshake for `idurl`: a fresh
        Deferred appended to its waiters. */
    method Join(idurl: Idurl) returns (w: Waiter)
      requires Valid() && idurl in running
      modifies this
      ensures Valid()
      ensures w == old(nextWaiter) && nextWaiter == old(nextWaiter) + 1
      ensures running == old(running)[idurl := old(running)[idurl].(results := old(running)[idurl].results + [w])]
      ensures knownChannels == old(knownChannels) && outcomes == old(outcomes) && requests == old(requests)
      ensures machines == old(machines)
    {
      JoinKeepsWaiters(running, outcomes, nextWaiter, idurl);
      w := nextWaiter;
      var joined := running[idurl := running[idurl].(results := running[idurl].results + [w])];
      forall k | k in joined
        ensures LiveMachine(joined[k].instance, this, k, knownChannels, joined[k].results)
      {
        assert LiveEntry(k);
      }
      forall h | h in machines && !h.state.Terminal()
        ensures HeldBy(joined, h)
      {
        assert HeldBy(running, h);
      }
      running := joined;
      nextWaiter := nextWaiter + 1;
    }

    /** A new machine for `idurl` built with `opts` and registered with one
        fresh Deferred, before its first event. */
    method Launch(idurl: Idurl, opts: Options) returns (h: Handshaker, w: Waiter)
      requires Valid() && idurl != [] && idurl !in running
      modifies this
      ensures Valid()
      ensures fresh(h) && h.reg == this && h.remoteIdurl == idurl && h.Registered()
      ensures machines == old(machines) + {h}
      ensures h.Settings() == opts.(forceCache := false)
      ensures h.View() == Initial(opts.cacheRetries, opts.pingRetries)
      ensures w == old(nextWaiter) && nextWaiter == old(nextWaiter) + 1
      ensures running == old(running)[idurl := Entry(h, [w])]
      ensures knownChannels == Bumped(old(knownChannels), opts.channel)
      ensures outcomes == old(outcomes) && requests == old(requests)
    {
      h := new Handshaker(this, idurl, opts);
      w := Register(idurl, h);
    }

    /** `_RunningHandshakers[idurl] = {'instance': h, 'results': [result]}` for
        a machine just built: a fresh Deferred is its only waiter. */
    method Register(idurl: Idurl, h: Handshaker) returns (w: Waiter)
      requires Valid() && idurl != [] && idurl !in running && h !in machines
      requires h.reg == this && h.remoteIdurl == idurl && h.state == AtStartup
      requires Inv(h.View()) && h.channel in knownChannels
      modifies this
      ensures Valid()
      ensures w == old(nextWaiter) && nextWaiter == old(nextWaiter) + 1
      ensures running == old(running)[idurl := Entry(h, [w])]
      ensures machines == old(machines) + {h}
      ensures knownChannels == old(knownChannels) && outcomes == old(outcomes) && requests == old(requests)
    {
      assert LiveMachine(h, this, idurl, knownChannels, [nextWaiter]);
      RegisterKeepsCoherent(this, running, knownChannels, outcomes, nextWaiter, machines, idurl, h);
      w := nextWaiter;
      running := running[idurl := Entry(h, [w])];
      nextWaiter := nextWaiter + 1;
      machines := machines + {h};
    }

    /** `on_identity_packet_outbox_status`: the outbox's verdict on an identity
        packet goes to the running machine of its recipient, if any, as
        `identity-sent` when it finished and `outbox-failed` otherwise. */
    method OnOutboxStatus(remote: Idurl, finished: bool, env: Env)
      requires Valid()
      modifies this, if remote in running then {running[remote].instance} else {}
      ensures Valid()
      ensures knownChannels == old(knownChannels) && requests == old(requests) && nextWaiter == old(nextWaiter)
      ensures machines == old(machines)
      ensures remote in old(running) && (finished || old(running[remote].instance.state) != AckWait) ==>
        old(running)[remote].instance.View() == old(running[remote].instance.View())
      ensures remote !in old(running) || finished ==> running == old(running) && outcomes == old(outcomes)
      ensures remote in old(running) && !finished && old(running[remote].instance.state) == AckWait ==>
        && running == old(running) - {remote}
        && outcomes == old(outcomes) + Resolved(old(running)[remote].results, PingFailed)
      ensures remote in old(running) && !finished && old(running[remote].instance.state) != AckWait ==>
        running == old(running) && outcomes == old(outcomes)
      ensures remote in old(running) && !finished && old(running[remote].instance.state) == AckWait ==>
        old(running)[remote].instance.View() == old(running[remote].instance.View()).(state := Failed)
    {
      if remote in running {
        var inst := running[remote].instance;
        var ev := if finished then IdentitySent else OutboxFailed;
        inst.A(ev, env);
      }
    }
  }

  class Handshaker {
    const reg: Registry
    const remoteIdurl: Idurl
    const ackTimeout: int
    const cacheTimeout: int
    const cacheRetries: int
    const pingRetries: int
    const skipOutbox: bool
    const keepAlive: bool
    const fakeIdentity: Option<Identity>
    const channel: string
    const channelCounter: bool
    var state: State
    var cacheAttempts: int
    var pingAttempts: int

    /** The options this machine was built with (`force_cache` only picks the first event). */
    function Settings(): Options {
      Options(ackTimeout, cacheTimeout, cacheRetries, pingRetries, false, skipOutbox, keepAlive,
              fakeIdentity, channel, channelCounter)
    }

    function View(): Machine
      reads this
    {
      Machine(state, cacheAttempts, pingAttempts, cacheRetries, pingRetries)
    }

    predicate Registered()
      reads reg
    {
      remoteIdurl in reg.running && reg.running[remoteIdurl].instance == this
    }

    /** The identity packet for attempt `attempt`, as `doSendMyIdentity` builds and sends it. */
    function SendRequestFor(attempt: int, counters: map<string, int>, uid: string): Request
      requires channel in counters
    {
      var id := PacketId(channel, if channelCounter then Some(counters[channel]) else None, attempt, uid);
      SendRequest(remoteIdurl, id, fakeIdentity, ackTimeout, skipOutbox, keepAlive)
    }

    /** The network operations a list of actions issues, in order. */
    function RequestsFor(acts: seq<Action>, counters: map<string, int>, uid: string): seq<Request>
      requires Sends(acts) > 0 ==> channel in counters
    {
      if acts == [] then []
      else
        var first := match acts[0]
          case FetchIdentity => [FetchRequest(remoteIdurl, cacheTimeout)]
          case SendIdentity(n) => [SendRequestFor(n, counters, uid)]
          case Report(_) => [];
        first + RequestsFor(acts[1..], counters, uid)
    }

    /** `__init__` followed by `init()`: bump the channel's counter, start in
        AT_STARTUP with both attempt counters at 0. */
    constructor (reg: Registry, remoteIdurl: Idurl, opts: Options)
      modifies reg
      ensures this.reg == reg && this.remoteIdurl == remoteIdurl
      ensures Settings() == opts.(forceCache := false)
      ensures View() == Initial(opts.cacheRetries, opts.pingRetries)
      ensures reg.knownChannels == Bumped(old(reg.knownChannels), opts.channel)
      ensures reg.running == old(reg.running) && reg.outcomes == old(reg.outcomes)
      ensures reg.nextWaiter == old(reg.nextWaiter) && reg.requests == old(reg.requests)
      ensures reg.machines == old(reg.machines)
    {
      this.reg := reg;
      this.remoteIdurl := remoteIdurl;
      ackTimeout := opts.ackTimeout;
      cacheTimeout := opts.cacheTimeout;
      cacheRetries := opts.cacheRetries;
      pingRetries := opts.pingRetries;
      skipOutbox := opts.skipOutbox;
      keepAlive := opts.keepAlive;
      fakeIdentity := opts.fakeIdentity;
      channel := opts.channel;
      channelCounter := opts.channelCounter;
      state := AtStartup;
      cacheAttempts := 0;
      pingAttempts := 0;
      new;
      if opts.channel !in reg.knownChannels {
        reg.knownChannels := reg.knownChannels[opts.channel := 0];
      }
      reg.knownChannels := reg.knownChannels[opts.channel := reg.knownChannels[opts.channel] + 1];
    }

    /** `doCacheRemoteIDURL`. */
    method DoCacheRemoteIdurl()
      modifies this`cacheAttempts, reg`requests
      ensures cacheAttempts == old(cacheAttempts) + 1
      ensures reg.requests == old(reg.requests) + [FetchRequest(remoteIdurl, cacheTimeout)]
    {
      cacheAttempts := cacheAttempts + 1;
      reg.requests := reg.requests + [FetchRequest(remoteIdurl, cacheTimeout)];
    }

    /** `doSendMyIdentity`; the identity to send must be valid (the source raises otherwise). */
    method DoSendMyIdentity(env: Env)
      requires env.identityValid
      requires channel in reg.knownChannels
      modifies this`pingAttempts, reg`requests
      ensures pingAttempts == old(pingAttempts) + 1
      ensures reg.requests == old(reg.requests) + [SendRequestFor(pingAttempts, reg.knownChannels, env.uid)]
    {
      pingAttempts := pingAttempts + 1;
      var counter := if channelCounter then Some(reg.knownChannels[channel]) else None;
      var packetId := PacketId(channel, counter, pingAttempts, env.uid);
      reg.requests := reg.requests + [SendRequest(remoteIdurl, packetId, fakeIdentity, ackTimeout, skipOutbox, keepAlive)];
    }

    /** `doReportSuccess`, `doReportNoIdentity`, `doReportFailed`,
        `doReportTimeOut`: fire every waiter of this idurl with the same outcome. */
    method DoReport(o: Outcome)
      requires remoteIdurl in reg.running
      requires Distinct(reg.running[remoteIdurl].results)
      requires forall w :: w in reg.running[remoteIdurl].results ==> w !in reg.outcomes
      modifies reg`outcomes
      ensures reg.outcomes == old(reg.outcomes) + Resolved(reg.running[remoteIdurl].results, o)
    {
      var results := reg.running[remoteIdurl].results;
      ghost var before := reg.outcomes;
      var i := 0;
      while i < |results|
        invariant 0 <= i <= |results|
        invariant reg.outcomes == before + Resolved(results[..i], o)
      {
        var w := results[i];
        // a Deferred fires once: no waiter of this list has been fired yet
        assert w !in results[..i];
        assert w !in reg.outcomes;
        ResolvedSnoc(results[..i], w, o);
        UnionUpdate(before, Resolved(results[..i], o), w, o);
        assert results[..i + 1] == results[..i] + [w];
        reg.outcomes := reg.outcomes[w := o];
        i := i + 1;
      }
      assert results[..i] == results;
    }

    /** `doDestroyMe`: drop this idurl's entry from the registry. */
    method DoDestroyMe()
      modifies reg`running
      ensures reg.running == old(reg.running) - {remoteIdurl}
    {
      if remoteIdurl in reg.running {
        reg.running := reg.running - {remoteIdurl};
      }
    }

    /** `isMoreCacheRetries`, read off the machine's fields. */
    function IsMoreCacheRetries(): bool
      reads this
    {
      MoreCacheRetries(View())
    }

    /** `isMorePingRetries`, read off the machine's fields. */
    function IsMorePingRetries(): bool
      reads this
    {
      MorePingRetries(View())
    }

    /** A transition into the live state `s` that issues one fetch:
        `self.state = s` followed by `doCacheRemoteIDURL`. */
    method FetchIn(s: State)
      requires reg.Valid() && Registered()
      requires !s.Terminal() && Inv(View().(state := s, cacheAttempts := cacheAttempts + 1))
      modifies this, reg
      ensures reg.Valid()
      ensures state == s && cacheAttempts == old(cacheAttempts) + 1 && pingAttempts == old(pingAttempts)
      ensures reg.requests == old(reg.requests) + [FetchRequest(remoteIdurl, cacheTimeout)]
      ensures reg.running == old(reg.running) && reg.outcomes == old(reg.outcomes)
      ensures reg.knownChannels == old(reg.knownChannels) && reg.nextWaiter == old(reg.nextWaiter)
      ensures reg.machines == old(reg.machines)
    {
      state := s;
      DoCacheRemoteIdurl();
      forall k | k in reg.running
        ensures reg.LiveEntry(k)
      {
        assert old(reg.LiveEntry(k));
      }
    }

    /** A transition into the live state `s` that sends one identity packet:
        `self.state = s` followed by `doSendMyIdentity`. */
    method SendIn(s: State, env: Env)
      requires reg.Valid() && Registered() && env.identityValid
      requires !s.Terminal() && Inv(View().(state := s, pingAttempts := pingAttempts + 1))
      modifies this, reg
      ensures reg.Valid()
      ensures state == s && pingAttempts == old(pingAttempts) + 1 && cacheAttempts == old(cacheAttempts)
      ensures channel in reg.knownChannels
      ensures reg.requests == old(reg.requests) + [SendRequestFor(pingAttempts, reg.knownChannels, env.uid)]
      ensures reg.running == old(reg.running) && reg.outcomes == old(reg.outcomes)
      ensures reg.knownChannels == old(reg.knownChannels) && reg.nextWaiter == old(reg.nextWaiter)
      ensures reg.machines == old(reg.machines)
    {
      assert reg.LiveEntry(remoteIdurl);
      state := s;
      DoSendMyIdentity(env);
      forall k | k in reg.running
        ensures reg.LiveEntry(k)
      {
        assert old(reg.LiveEntry(k));
      }
    }

    /** A transition into the terminal state `s`: `self.state = s`, the
        report of `o` to every waiter, then `doDestroyMe`. */
    method Finish(s: State, o: Outcome)
      requires reg.Valid() && Registered() && s.Terminal()
      modifies this, reg
      ensures reg.Valid()
      ensures state == s && cacheAttempts == old(cacheAttempts) && pingAttempts == old(pingAttempts)
      ensures reg.running == old(reg.running) - {remoteIdurl}
      ensures reg.outcomes == old(reg.outcomes) + Resolved(WaitersOf(old(reg.running), remoteIdurl), o)
      ensures reg.requests == old(reg.requests)
      ensures reg.knownChannels == old(reg.knownChannels) && reg.nextWaiter == old(reg.nextWaiter)
      ensures reg.machines == old(reg.machines)
    {
      assert reg.LiveEntry(remoteIdurl);
      state := s;
      forall k | k in reg.running && k != remoteIdurl
        ensures LiveMachine(reg.running[k].instance, reg, k, reg.knownChannels, reg.running[k].results)
      {
        assert old(reg.LiveEntry(k));
      }
      Retire(o);
    }

    /** The report of `o` to every waiter and `doDestroyMe`, for a machine
        that has just entered a terminal state while still registered. */
    method Retire(o: Outcome)
      requires state.Terminal() && Registered()
      requires forall k :: k in reg.running ==> reg.running[k].instance in reg.machines
      requires forall k :: k in reg.running && k != remoteIdurl ==>
                 LiveMachine(reg.running[k].instance, reg, k, reg.knownChannels, reg.running[k].results)
      requires WaitersInvariant(reg.running, reg.outcomes, reg.nextWaiter)
      requires forall g :: g in reg.machines && !g.state.Terminal() ==> g.reg == reg && HeldBy(reg.running, g)
      modifies reg
      ensures reg.Valid()
      ensures reg.running == old(reg.running) - {remoteIdurl}
      ensures reg.outcomes == old(reg.outcomes) + Resolved(old(reg.running)[remoteIdurl].results, o)
      ensures reg.requests == old(reg.requests)
      ensures reg.knownChannels == old(reg.knownChannels) && reg.nextWaiter == old(reg.nextWaiter)
      ensures reg.machines == old(reg.machines)
    {
      ghost var rest := reg.running - {remoteIdurl};
      ghost var fired := reg.outcomes + Resolved(reg.running[remoteIdurl].results, o);
      DropKeepsCoherent(reg, reg.running, reg.knownChannels, reg.outcomes, reg.nextWaiter, reg.machines, this, o);
      assert Coherent(reg, rest, reg.knownChannels, fired, reg.nextWaiter, reg.machines);
      DoReport(o);
      DoDestroyMe();
      assert reg.running == rest && reg.outcomes == fired;
    }

    /** `A` in AT_STARTUP. */
    method AtStartupStep(ev: Event, env: Env, ghost step: Step)
      requires state == AtStartup
      requires step == Next(View(), ev, env.cached)
      requires reg.Valid()
      requires Registered()
      requires Sends(step.actions) > 0 ==> env.identityValid
      modifies this, reg
      ensures reg.Valid()
      ensures View() == step.machine
      ensures reg.knownChannels == old(reg.knownChannels) && reg.nextWaiter == old(reg.nextWaiter)
      ensures reg.machines == old(reg.machines)
      ensures Sends(step.actions) > 0 ==> channel in reg.knownChannels
      ensures reg.requests == old(reg.requests)
                + RequestsFor(step.actions, reg.knownChannels, env.uid)
      ensures match Reported(step.actions)
        case Some(o) =>
          && reg.running == old(reg.running) - {remoteIdurl}
          && reg.outcomes == old(reg.outcomes) + Resolved(WaitersOf(old(reg.running), remoteIdurl), o)
        case None =>
          && reg.running == old(reg.running)
          && reg.outcomes == old(reg.outcomes)
    {
      assert reg.LiveEntry(remoteIdurl);
      NextKeepsInv(View(), ev, env.cached);
      if ev.CacheAndPing? || (ev.Ping? && !env.cached) {
        FetchIn(Cache);
      } else if ev.Ping? && env.cached {
        SendIn(AckWait, env);
      }
    }

    /** `A` in CACHE. */
    method CacheStep(ev: Event, env: Env, ghost step: Step)
      requires state == Cache
      requires step == Next(View(), ev, env.cached)
      requires reg.Valid()
      requires Registered()
      requires Sends(step.actions) > 0 ==> env.identityValid
      modifies this, reg
      ensures reg.Valid()
      ensures View() == step.machine
      ensures reg.knownChannels == old(reg.knownChannels) && reg.nextWaiter == old(reg.nextWaiter)
      ensures reg.machines == old(reg.machines)
      ensures Sends(step.actions) > 0 ==> channel in reg.knownChannels
      ensures reg.requests == old(reg.requests)
                + RequestsFor(step.actions, reg.knownChannels, env.uid)
      ensures match Reported(step.actions)
        case Some(o) =>
          && reg.running == old(reg.running) - {remoteIdurl}
          && reg.outcomes == old(reg.outcomes) + Resolved(WaitersOf(old(reg.running), remoteIdurl), o)
        case None =>
          && reg.running == old(reg.running)
          && reg.outcomes == old(reg.outcomes)
    {
      assert reg.LiveEntry(remoteIdurl);
      NextKeepsInv(View(), ev, env.cached);
      if ev.RemoteIdentityFailed? && !IsMoreCacheRetries() {
        assert step.actions == [Report(NoIdentity(cacheAttempts))];
        assert RequestsFor(step.actions, reg.knownChannels, env.uid) == [];
        Finish(NoIdent, NoIdentity(cacheAttempts));
      } else if ev.RemoteIdentityFailed? && IsMoreCacheRetries() {
        FetchIn(Cache);
      } else if ev.RemoteIdentityCached? {
        SendIn(AckWait, env);
      }
    }

    /** `A` in ACK?. */
    method AckWaitStep(ev: Event, env: Env, ghost step: Step)
      requires state == AckWait
      requires step == Next(View(), ev, env.cached)
      requires reg.Valid()
      requires Registered()
      requires Sends(step.actions) > 0 ==> env.identityValid
      modifies this, reg
      ensures reg.Valid()
      ensures View() == step.machine
      ensures reg.knownChannels == old(reg.knownChannels) && reg.nextWaiter == old(reg.nextWaiter)
      ensures reg.machines == old(reg.machines)
      ensures Sends(step.actions) > 0 ==> channel in reg.knownChannels
      ensures reg.requests == old(reg.requests)
                + RequestsFor(step.actions, reg.knownChannels, env.uid)
      ensures match Reported(step.actions)
        case Some(o) =>
          && reg.running == old(reg.running) - {remoteIdurl}
          && reg.outcomes == old(reg.outcomes) + Resolved(WaitersOf(old(reg.running), remoteIdurl), o)
        case None =>
          && reg.running == old(reg.running)
          && reg.outcomes == old(reg.outcomes)
    {
      assert reg.LiveEntry(remoteIdurl);
      NextKeepsInv(View(), ev, env.cached);
      if ev.AckReceived? {
        assert step.actions == [Report(Acked(ev.response, ev.info))];
        assert RequestsFor(step.actions, reg.knownChannels, env.uid) == [];
        Finish(Success, Acked(ev.response, ev.info));
      } else if ev.AckTimeout? && !IsMorePingRetries() {
        assert step.actions == [Report(NoResponse(pingAttempts))];
        assert RequestsFor(step.actions, reg.knownChannels, env.uid) == [];
        Finish(TimedOut, NoResponse(pingAttempts));
      } else if ev.AckTimeout? && IsMorePingRetries() {
        SendIn(AckWait, env);
      } else if ev.FailReceived? || ev.OutboxFailed? {
        assert step.actions == [Report(PingFailed)];
        assert RequestsFor(step.actions, reg.knownChannels, env.uid) == [];
        Finish(Failed, PingFailed);
      }
    }

    /** `A(event)`: one step of the machine, as `HandshakeMachine.Next` gives
        it, with its fetch or send issued, and, when it ends the handshake,
        every waiter fired with the outcome and the idurl removed from the
        registry. A finished machine that still gets an event does nothing. */
    method A(ev: Event, env: Env)
      requires reg.Valid()
      requires this in reg.machines
      requires Sends(Next(View(), ev, env.cached).actions) > 0 ==> env.identityValid
      modifies this, reg
      ensures reg.Valid()
      ensures View() == Next(old(View()), ev, env.cached).machine
      ensures reg.knownChannels == old(reg.knownChannels) && reg.nextWaiter == old(reg.nextWaiter)
      ensures reg.machines == old(reg.machines)
      ensures Sends(Next(old(View()), ev, env.cached).actions) > 0 ==> channel in reg.knownChannels
      ensures reg.requests == old(reg.requests)
                + RequestsFor(Next(old(View()), ev, env.cached).actions, reg.knownChannels, env.uid)
      ensures match Reported(Next(old(View()), ev, env.cached).actions)
        case Some(o) =>
          && reg.running == old(reg.running) - {remoteIdurl}
          && reg.outcomes == old(reg.outcomes) + Resolved(WaitersOf(old(reg.running), remoteIdurl), o)
        case None =>
          && reg.running == old(reg.running)
          && reg.outcomes == old(reg.outcomes)
    {
      if state == AtStartup {
        AtStartupStep(ev, env, Next(View(), ev, env.cached));
      } else if state == Cache {
        CacheStep(ev, env, Next(View(), ev, env.cached));
      } else if state == AckWait {
        AckWaitStep(ev, env, Next(View(), ev, env.cached));
      }
    }
  }
}
