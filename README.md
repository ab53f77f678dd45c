# BitDust handshaker and entangled-DHT start-up, in Dafny

This project models two parts of BitDust, a peer-to-peer storage network.

**The handshaker** (`p2p/handshaker.py`) pings a remote peer. It fetches the peer's identity into the identity cache, sends our own identity packet and waits for an `Ack()`. Concurrent `ping` calls for one idurl share a single `Handshaker` state machine, kept in the process-wide registry `_RunningHandshakers`. Each caller gets its own Deferred, and every caller receives the same outcome when the machine reaches a terminal state. Two inclusive budgets bound the work: identity fetches (`cache_retries`) and identity packets (`ping_retries`). A per-channel counter (`_KnownChannels`) goes into each packet id.

The model has three parts:
- `HandshakeMachine` is the transition table of `Handshaker.A` as a pure function `Next`, plus `Run` for a sequence of events. Lemmas prove:
  - the exact number of fetches and sends before NO_IDENT and TIMEOUT;
  - that terminal states absorb every event;
  - that a run reports exactly once, when it ends;
  - that the attempt counters account for every network operation.
- `Handshakes` holds two classes. `Registry` models `_RunningHandshakers`, `_KnownChannels`, the fired Deferreds and the network requests issued. `Handshaker` keeps the machine's fields and its action methods. `Handshaker.A` is proved to step its fields exactly as `Next` does. Its contract also states what it sends and whom it reports to. `Registry.Valid()` states the registry invariant:
  - each entry holds a live machine for its own idurl;
  - no Deferred waits twice;
  - no Deferred fires twice;
  - every machine `ping` has built and that has not finished is the registered one for its idurl. So concurrent pings towards one peer never run two machines (`Registry.OneLiveMachinePerIdurl`).

**The entangled-DHT service** (`services/service_entangled_dht.py`) contributes three pieces, all in module `EntangledDht`:
- the parser of the `known-nodes` setting, as a loop method proved against a function;
- the split of the `attached-layers` setting into extra DHT layer connects;
- the guard that fires the service's `starting_deferred` at most once across its three completion handlers (class `DhtService`).

The Python built-ins the code depends on are modelled in module `Text`: `str.strip()`, `re.split` on single characters, `str.split`, `'%d'` and `int()`. Each comes with its partner lemmas: idempotence and the split/join and print/parse round trips.

## Model

| member | source | states |
|---|---|---|
| Handshakes.Registry.constructor | p2p/handshaker.py:80-81 | The registry starts with no running handshake and no channel counter. |
| Handshakes.Registry.Ping | p2p/handshaker.py:85-134 | An empty idurl is an error and changes nothing. A running idurl only gains one fresh waiter: no new machine, and the new options are ignored. A new idurl gets a fresh machine with these options and the caller as its only waiter. That machine has taken the first step `cache-and-ping` (force_cache) or `ping` and issued that step's request. The channel counter is bumped. Registry validity is kept. |
| Handshakes.Registry.Join | p2p/handshaker.py:103-107 | Appends exactly one fresh waiter to the running entry and changes nothing else. |
| Handshakes.Registry.Start | p2p/handshaker.py:108-134 | Registers the new machine with one waiter, then feeds it its first event. Its state and requests are those of `Next` from the initial machine. |
| Handshakes.Registry.Launch | p2p/handshaker.py:108-129 | Builds the machine (counters at 0, AT_STARTUP), bumps the channel counter and registers the entry with a single-element waiter list. |
| Handshakes.Registry.Register | p2p/handshaker.py:108-111 | Records a just-built machine under its idurl with one fresh waiter and counts it among the machines built. Registry validity is kept; channel counters, fired outcomes and requests are unchanged. |
| Handshakes.Registry.OneLiveMachinePerIdurl | p2p/handshaker.py:103-111 | Two unfinished machines built on a valid registry for the same idurl are the same machine: a second `ping` never starts a second handshake. |
| Handshakes.Registry.IsRunning | p2p/handshaker.py:137-145 | True exactly when the idurl is non-empty and has a registry entry. |
| Handshakes.Registry.OnOutboxStatus | p2p/handshaker.py:149-157 | Unregistered idurls and `finished` reports change nothing. A failed report to a machine in ACK? fires every waiter with the failure and removes the entry. A failed report to a machine still in AT_STARTUP or CACHE changes nothing. No waiter is handed out and no counter or request changes. Only the addressed machine and the registry may change, and that machine's state and counters stay as they were unless it was in ACK? and the report failed; then its state becomes FAILED and its counters stay. |
| Handshakes.Handshaker.constructor | p2p/handshaker.py:166-206 | Keeps the options, starts in AT_STARTUP with both attempt counters at 0, and bumps `_KnownChannels[channel]` from 0 when absent. |
| Handshakes.Handshaker.DoCacheRemoteIdurl | p2p/handshaker.py:297-304 | One more cache attempt and exactly one fetch request, with the cache timeout. |
| Handshakes.Handshaker.DoSendMyIdentity | p2p/handshaker.py:306-353 | One more ping attempt and exactly one identity packet. The packet carries the packet id built from channel, counter and the new attempt number, plus the fake identity, ack timeout, outbox choice and keep-alive. |
| Handshakes.Handshaker.DoReport | p2p/handshaker.py:357-395 | Loops over the entry's waiters: each is fired once with the same outcome, and nothing else is fired. |
| Handshakes.Handshaker.DoDestroyMe | p2p/handshaker.py:397-406 | Removes this idurl's entry, whether or not it is still there. |
| Handshakes.Handshaker.FetchIn | p2p/handshaker.py:226-228 | Enters the given live state with one fetch. Registry validity is kept and nothing else changes. |
| Handshakes.Handshaker.SendIn | p2p/handshaker.py:230-232 | Enters the given live state with one identity packet. Registry validity is kept and nothing else changes. |
| Handshakes.Handshaker.Finish | p2p/handshaker.py:246-249 | Enters the given terminal state, fires every waiter with the outcome and removes the entry. Registry validity is kept. |
| Handshakes.Handshaker.Retire | p2p/handshaker.py:357-406 | For a machine that has just finished while still registered: fires every waiter of its entry with the outcome, pops the entry, and leaves the registry valid. |
| Handshakes.Handshaker.AtStartupStep | p2p/handshaker.py:224-232 | `A` in AT_STARTUP agrees with `Next`, requests included. |
| Handshakes.Handshaker.CacheStep | p2p/handshaker.py:234-243 | `A` in CACHE agrees with `Next`: retry, give up with NO_IDENT, or move to ACK?. |
| Handshakes.Handshaker.AckWaitStep | p2p/handshaker.py:245-259 | `A` in ACK? agrees with `Next`: success, re-send, TIMEOUT or FAILED. |
| Handshakes.Handshaker.A | p2p/handshaker.py:219-272 | For a machine built on a valid registry: the new state and counters are those of `Next`, and the requests are those its actions issue. A reporting step fires every waiter of the idurl with that outcome and removes the entry; any other step leaves entries and outcomes alone. Registry validity is kept. |
| Handshakes.Bumped | p2p/handshaker.py:186-188 | The channel gains a counter of (old or 0) + 1. Other counters are unchanged and none decreases or disappears. |
| Handshakes.Resolved | p2p/handshaker.py:364-366 | Exactly the given waiters, each mapped to the one outcome. |
| Handshakes.PacketId | p2p/handshaker.py:318-321 | The packet id of attempt `n`: `channel:counter:n:uid` when the channel counter is used, `channel:n:uid` otherwise, with both numbers in `'%d'` form. |
| Handshakes.FirstEvent | p2p/handshaker.py:130-133 | The first event `ping` feeds a new machine: `cache-and-ping` when `force_cache` is set, `ping` otherwise. |
| Handshakes.Coherent | p2p/handshaker.py:80-134 | The registry invariant over values: every entry holds a live machine for its own idurl; no Deferred waits twice or on two entries, every waiter was handed out and has not fired; every machine built and not finished is the one held under its idurl. |
| Handshakes.Registry.Valid | p2p/handshaker.py:80-81 | `_RunningHandshakers` and `_KnownChannels` together with the fired Deferreds satisfy `Coherent`. |
| Handshakes.Handshaker.SendRequestFor | p2p/handshaker.py:306-353 | The identity packet of attempt `n`: to this idurl, with `PacketId` of the channel, the current counter when the channel counter is used, `n` and the unique id, plus the fake identity, ack timeout, outbox choice and keep-alive. |
| Handshakes.Handshaker.RequestsFor | p2p/handshaker.py:297-353 | The network operations a list of actions issues, in order: a fetch with the cache timeout for each `doCacheRemoteIDURL`, a `SendRequestFor` packet for each `doSendMyIdentity`, nothing for a report. |
| Handshakes.PacketIdFields | p2p/handshaker.py:318-321 | Read back at its colons, a packet id gives the channel, the counter (when used), the attempt number, then the unique id's fields. |
| Handshakes.PacketIdSplit | p2p/handshaker.py:318-321 | The exact colon split of both packet id formats. |
| Handshakes.PacketIdsDifferByAttempt | p2p/handshaker.py:318-321 | On one channel and counter, equal packet ids mean equal attempt numbers, whatever the unique ids. |
| Handshakes.FireKeepsWaiters | p2p/handshaker.py:394-404 | Firing all waiters of one entry and popping it keeps the waiter bookkeeping: no waiter is left or fired twice. |
| Handshakes.JoinKeepsWaiters | p2p/handshaker.py:103-104 | Appending a fresh waiter keeps the waiter bookkeeping. |
| Handshakes.StartKeepsWaiters | p2p/handshaker.py:108-111 | A new entry with one fresh waiter keeps the waiter bookkeeping. |
| Handshakes.RegisterKeepsCoherent | p2p/handshaker.py:108-129 | Registering a live machine under an idurl that has no entry keeps the whole registry invariant, the new machine included among those built. |
| Handshakes.DropKeepsCoherent | p2p/handshaker.py:390-406 | Firing the waiters of a machine that has just finished and popping its entry keeps the whole registry invariant: every other unfinished machine is still held under its own idurl. |
| HandshakeMachine.Initial | p2p/handshaker.py:166-206 | A machine as `__init__` and `init()` leave it: AT_STARTUP, both attempt counters at 0, the given retry settings. |
| HandshakeMachine.MoreCacheRetries | p2p/handshaker.py:280-284 | `isMoreCacheRetries`: the fetches made so far do not exceed `cache_retries` (inclusive). |
| HandshakeMachine.MorePingRetries | p2p/handshaker.py:286-290 | `isMorePingRetries`: the packets sent so far do not exceed `ping_retries` (inclusive). |
| HandshakeMachine.CacheRemoteIdurl | p2p/handshaker.py:297-304 | `doCacheRemoteIDURL`: one more cache attempt and one fetch. |
| HandshakeMachine.SendMyIdentity | p2p/handshaker.py:306-311 | `doSendMyIdentity`: one more ping attempt and one packet carrying the new attempt number. |
| HandshakeMachine.Next | p2p/handshaker.py:219-272 | One `A(event)` call. AT_STARTUP: `cache-and-ping`, or `ping` when not cached, goes to CACHE and fetches; `ping` when cached goes to ACK? and sends. CACHE: a failed fetch re-fetches while retries remain and otherwise goes to NO_IDENT and reports; `remote-identity-cached` goes to ACK? and sends. ACK?: an Ack goes to SUCCESS and reports; a timeout re-sends while retries remain and otherwise goes to TIMEOUT and reports; `fail-received` or `outbox-failed` goes to FAILED and reports. Every other event, and every event in a terminal state, changes nothing. |
| HandshakeMachine.Run | p2p/handshaker.py:219-272 | A sequence of `A` calls: the machine after the last one and all actions in order. |
| HandshakeMachine.NextKeepsInv | p2p/handshaker.py:219-272 | Each step keeps the counters within `retries + 1` and consistent with the state. It never changes the retry settings, never returns to AT_STARTUP and issues at most one action. |
| HandshakeMachine.RunKeepsInv | p2p/handshaker.py:219-272 | The same invariant holds after any sequence of events. |
| HandshakeMachine.StartTransitions | p2p/handshaker.py:224-232 | `cache-and-ping`, or `ping` when not cached, goes to CACHE with exactly one fetch. `ping` when cached goes to ACK? with exactly one send and no fetch. |
| HandshakeMachine.FailEndsAtOnce | p2p/handshaker.py:256-259 | In ACK?, `fail-received` or `outbox-failed` goes to FAILED at once, whatever budget remains. |
| HandshakeMachine.TerminalAbsorbs | p2p/handshaker.py:260-271 | A terminal machine ignores every event sequence and issues nothing. |
| HandshakeMachine.IdentitySentIgnored | p2p/handshaker.py:219-272 | `identity-sent` has no transition in any state. |
| HandshakeMachine.NextAccounting | p2p/handshaker.py:297-311 | One step issues exactly as many fetches and sends as it adds to `cache_attempts` and `ping_attempts`. |
| HandshakeMachine.RunAccounting | p2p/handshaker.py:297-311 | Over any run, fetches and sends equal the growth of the two attempt counters. |
| HandshakeMachine.BudgetsBoundEveryRun | p2p/handshaker.py:280-290 | Whatever the events, one handshake fetches at most `cache_retries + 1` times and sends at most `ping_retries + 1` packets. |
| HandshakeMachine.NextReports | p2p/handshaker.py:235-259 | A step reports exactly when it takes a live machine to a terminal state. |
| HandshakeMachine.ReportsOnceOnTermination | p2p/handshaker.py:235-259 | A run reports once if it ends a live machine and never otherwise: no waiter gets two outcomes. |
| HandshakeMachine.CacheRetrying | p2p/handshaker.py:239-240 | While budget remains, each failed fetch re-fetches and stays in CACHE. |
| HandshakeMachine.CacheExhaustion | p2p/handshaker.py:234-240 | With an always-failing cache, the machine stays in CACHE for the first `cache_retries` failures. The next failure gives NO_IDENT after exactly `cache_retries + 1` fetches, reported with that count. |
| HandshakeMachine.AckRetrying | p2p/handshaker.py:254-255 | While budget remains, each ack timeout re-sends with the next attempt number and stays in ACK?. |
| HandshakeMachine.AckExhaustion | p2p/handshaker.py:250-255 | From a cached identity, a silent peer gets exactly `ping_retries + 1` packets, numbered 1, 2, ..., and then TIMEOUT, reported with that count. |
| HandshakeMachine.TimeoutSpendsPingBudget | p2p/handshaker.py:250-253 | From any start and whatever the events, a handshake that ends in TIMEOUT has sent exactly `ping_retries + 1` packets. |
| HandshakeMachine.NoIdentSpendsCacheBudget | p2p/handshaker.py:235-238 | From any start and whatever the events, a handshake that ends in NO_IDENT has fetched exactly `cache_retries + 1` times. |
| HandshakeMachine.SecondAttemptAcked | p2p/handshaker.py:245-255 | A timeout followed by an Ack gives two sends and success with that Ack. |
| HandshakeMachine.ForcedCacheFetchesFirst | p2p/handshaker.py:224-243 | `force_cache` fetches even for a cached identity, and then sends once the fetch succeeds. |
| EntangledDht.NodePieces | services/service_entangled_dht.py:55-58 | The pieces the loop visits: none when the stripped setting is empty, otherwise its `re.split` at newline, `;`, `,` and space. |
| EntangledDht.ParseNodeEntry | services/service_entangled_dht.py:59-65 | One piece: skipped when blank after stripping; otherwise split at `:` and read by `NodeOfFields`. |
| EntangledDht.NodeOfFields | services/service_entangled_dht.py:61-65 | Skipped when there is no second field (`IndexError`) or its stripped text is not an integer (`ValueError`); otherwise the stripped first field as host and that integer as port. Further fields are ignored. |
| EntangledDht.ParsedNodes | services/service_entangled_dht.py:58-69 | The nodes of the pieces that parse, in the pieces' order. |
| EntangledDht.KnownNodesOf | services/service_entangled_dht.py:55-73 | The parsed nodes of the setting, or the defaults when none parses. |
| EntangledDht.KnownNodes | services/service_entangled_dht.py:55-73 | The parsing loop with `continue` returns what `KnownNodesOf` gives: the parsed nodes in order, or the defaults when none parses. |
| EntangledDht.ParsedNodesAppend | services/service_entangled_dht.py:58-69 | Entries keep their input order: the nodes of a concatenation are the nodes of each part in turn. |
| EntangledDht.ParsedNodesFromPieces | services/service_entangled_dht.py:58-69 | Every node collected comes from one piece that parses to it. |
| EntangledDht.NoColonSkipped | services/service_entangled_dht.py:60-65 | A piece without `:` is skipped. |
| EntangledDht.ExtraFieldsIgnored | services/service_entangled_dht.py:61-63 | `host:port:anything` parses to host and port, whatever follows the second colon (trailing whitespace included); the extra fields are ignored. |
| EntangledDht.EntryRoundTrip | services/service_entangled_dht.py:59-69 | `host:port` parses back to its node, the empty host included. |
| EntangledDht.ParsedFormatted | services/service_entangled_dht.py:58-69 | A list of `host:port` pieces parses to exactly those nodes. |
| EntangledDht.FormattedPieces | services/service_entangled_dht.py:55-58 | The pieces of a comma-joined list of `host:port` entries are those entries. |
| EntangledDht.KnownNodesRoundTrip | services/service_entangled_dht.py:55-81 | Seed nodes written as `host:port` and comma-joined read back as exactly those nodes. The empty list gives the defaults. |
| EntangledDht.LayerPieces | services/service_entangled_dht.py:140-141 | The pieces of `attached-layers`: none when it is empty, otherwise its split at `,`. |
| EntangledDht.ClassifyPiece | services/service_entangled_dht.py:142-145 | A piece is blank after stripping, or not an integer, or the layer id `int` gives. |
| EntangledDht.ScanLayers | services/service_entangled_dht.py:141-147 | The layer loop: blank pieces are skipped, ids are connected in order, and the first non-integer piece stops the loop and is returned as the failure. |
| EntangledDht.ConnectLayers | services/service_entangled_dht.py:141-147 | The loop strips each piece, skips it when blank, and otherwise applies `int`. It connects the layer ids of `ScanLayers` in order, and stops at the first piece `int` rejects. |
| EntangledDht.LayersRoundTrip | services/service_entangled_dht.py:138-147 | Comma-joined decimal ids connect exactly those layers, in order, with no failure. The empty list, an empty setting, connects nothing. |
| EntangledDht.ScanDecimal | services/service_entangled_dht.py:141-147 | Decimal pieces connect their ids in order. |
| EntangledDht.ScanStopsAtBadPiece | services/service_entangled_dht.py:141-147 | A non-integer piece stops the loop. The layers before it are connected; the ones after it are never looked at. |
| EntangledDht.BlankPiecesSkipped | services/service_entangled_dht.py:139-142 | Blank pieces connect nothing and fail nothing. |
| EntangledDht.Fire | services/service_entangled_dht.py:153-155 | Fires the pending Deferred, if any, with the outcome and clears it. Earlier outcomes are never changed. |
| EntangledDht.FireOnce | services/service_entangled_dht.py:158-169 | After a fire, every further handler call changes nothing, whatever it would fire with. |
| EntangledDht.DhtService.constructor | services/service_entangled_dht.py:41-44 | No pending Deferred, none fired, no connect issued. |
| EntangledDht.DhtService.Start | services/service_entangled_dht.py:84-109 | A fresh pending Deferred and one connect of layer 0. |
| EntangledDht.DhtService.OnConnected | services/service_entangled_dht.py:127-156 | Connects the scanned layer ids in order. With none, the start succeeds now; with some, it waits. A bad piece fails the start with that piece. |
| EntangledDht.DhtService.OnLayersAttached | services/service_entangled_dht.py:158-162 | The start succeeds if still pending. |
| EntangledDht.DhtService.OnConnectFailed | services/service_entangled_dht.py:164-170 | The start fails with the error if still pending. |
| EntangledDht.DhtService.Resolve | services/service_entangled_dht.py:153-155 | Test-and-clear of `starting_deferred`, as `Fire` states. Validity is kept. |
| Text.IsSpace | services/service_entangled_dht.py:55 | Python 3's `str.isspace()` on one character: the whitespace `str.strip()` removes. |
| Text.Split | services/service_entangled_dht.py:58 | Cuts a string at every separator character: adjacent separators and separators at either end give empty pieces, and there is always at least one piece. With one character this is `str.split`, as at services/service_entangled_dht.py line 141. |
| Text.Join | services/service_entangled_dht.py:141 | `sep.join(pieces)` with a one-character separator, the inverse of the `split(',')` there. |
| Text.ParseInt | services/service_entangled_dht.py:63 | `int()` on a `str`: surrounding whitespace ignored, an optional sign, then ASCII digits with single underscores between digits; anything else is an error. Also used at line 145. |
| Text.IntToString | p2p/handshaker.py:319-321 | `'%d' % n`: a minus sign before the digits of a negative number. The text is never empty and holds only a sign and digits. |
| Text.Strip | services/service_entangled_dht.py:55 | The strip is no longer than the string, and neither starts nor ends with whitespace. |
| Text.StripIsSlice | services/service_entangled_dht.py:55 | The strip is a slice of the string with only whitespace cut on either side. |
| Text.StripIdempotent | services/service_entangled_dht.py:63 | Stripping twice equals stripping once, so `int(dht_node[1].strip())` reads an already-stripped field the same; likewise `int(layer_id.strip())` at line 145. |
| Text.StripChars | services/service_entangled_dht.py:61 | Every character of the strip is in the original. |
| Text.SplitPiecesAvoid | services/service_entangled_dht.py:58 | No piece of a split holds a separator. |
| Text.SplitWeave | services/service_entangled_dht.py:58 | A split by several separator characters loses nothing: there is one more piece than separators in the string, and putting each separator back between the pieces it cut gives the string again. |
| Text.SplitJoin | services/service_entangled_dht.py:58 | Joining separator-free pieces and splitting again gives the pieces back. |
| Text.JoinSplit | services/service_entangled_dht.py:141 | Splitting at a character and joining again gives the string back. |
| Text.IntToStringParses | services/service_entangled_dht.py:63 | `int('%d' % n) == n` for every integer. |
| Text.ParseIntNeedsDigit | services/service_entangled_dht.py:63 | `int()` succeeds only on a string holding a digit. |

## Left out

- Twisted `Deferred`, `DeferredList` and the `automat.Automat` base class are not modelled as such. Each Deferred is a number, firing it records its outcome, and each callback is a call of the handler or an event of `A`.
- Network operations and the identity cache are recorded as requests or taken as inputs, not performed:
  - the fetch, the send and the outbox, recorded in `Registry.requests`;
  - `identitycache.HasKey`, `identity.Valid()` and `packetid.UniqueID()`, taken as the `Env` input of each step;
  - packet signing and serialisation, left out.
- Handshakes.Handshaker.A: when the identity to send is invalid, the source raises; the model makes a valid identity a precondition of every step that sends.
- Handshakes.Handshaker.DoDestroyMe: the nulling of the machine's fields and `destroy()` are not modelled. Only the registry pop is, because nothing reads the fields afterwards.
- Logging, the `_Debug` flags and the debug levels are left out.
- Re-entrancy while the waiter list is iterated (a waiter's callback calling `ping`) is left out: it is callback-ordering concurrency.
- Text.ParseInt: `int()` also accepts non-ASCII Unicode digits; the model accepts ASCII digits only.
- Kademlia constants and `read_network_config_file` are left out. The default node list is the `defaults` parameter of `KnownNodes`.
- `stop`, `health_check`, the RPC validation hooks and the udp-port config notifier are left out. So are `dht_service.init`, `connect`, `disconnect` and `shutdown`: only the layer id of each connect is recorded.
- EntangledDht.DhtService.OnLayersAttached: `DeferredList` with its default arguments calls back even when some extra layer fails, so the start succeeds; the model states exactly that.
- EntangledDht.DhtService.OnConnected: a non-integer piece raises out of the callback, and Twisted hands the raise to the errback chained after it. The model sends it straight to `OnConnectFailed`, with the connects issued before it left in flight.
- EntangledDht.DhtService.Start: a second `start` overwrites a still-pending `starting_deferred`, and the model does the same. The orphaned Deferred never fires.
- EntangledDht.DhtService.Start: the model takes `dht_service.connect` to complete later, so `start` always returns a pending Deferred. If `connect` returned an already-fired Deferred and no extra layers were set, `_on_connected` would clear `starting_deferred` during `start`, which would then return None (services/service_entangled_dht.py:107-109); that case is not modelled.
