# hyper's HTTP connector and drain barrier, in Dafny

This project models two parts of hyper (the Rust HTTP library) and proves properties of them.

- The client's HTTP connector, `src/client/connect/http.rs`:
  - `HttpConnector::connect` checks a destination URI before any I/O and picks the port.
  - The future it returns, `HttpConnecting`, moves forward through `Lazy -> Resolving -> Connecting`. A rejected URI instead gets an `Error` state that yields its error once.
  - In `Connecting`, a Happy Eyeballs coordinator (`ConnectingTcp`, RFC 6555 section 4) drives a sequential dialer (`ConnectingTcpRemote`) over the preferred address family. A second dialer over the other family joins after a delay.
  - Once a socket is connected, the options are set in a fixed order and the peer address is recorded.
- The graceful-shutdown barrier, `src/common/drain.rs`:
  - `Signal::drain` closes a broadcast that every `Watch` observes.
  - `Draining` completes once every `Watch` handle is gone.
  - `Watching` wraps a task so that its `on_drain` callback runs exactly once, on the first poll that sees the broadcast closed, and before the task itself is polled.

Each stateful part of the source is a class whose methods update fields in place (`ConnectingTcpRemote`, `ConnectingTcp`, `HttpConnecting`, `Signal`, `Watch`, `Draining`, `Watching`).
- The three poll loops of the connector are each proved equal to a pure step function: `Dialer.Step`, `HappyEyeballs.RacePoll` and `Http.ConnPoll`. The lemmas state the source's promises about those functions.
- `Watching.Poll` is proved to follow `Drain.Notice` on each call. The lemmas about whole runs of polls are stated over `Drain.Firings`, which repeats `Notice` once per poll. No lemma ties a sequence of `Watching.Poll` calls to `Firings`.
- `Signal.Drain`, `Watch.Clone`, `Watch.Drop`, `Watch.Watch` and `Draining.Poll` have direct contracts on the shared channel state.

The parts of the outside world the core only calls are inputs:
- Socket creation and binding (`connect`, http.rs:494-527) is `Network.connect`.
- The current outcome of the connect future towards an address is `Network.attempt`, keyed by the address.
- The Happy Eyeballs delay is an `elapsed` flag per poll.
- The resolver's answer is `PollInputs.resolved`.
- The literal-address parser `IpAddrs::try_parse` is `PollInputs.tryParse`.
- Socket-option calls and `peer_addr` are `SocketOps`.

Files:
- `wrappers.dfy`: `Option`, `Result` and `Poll`.
- `net.dfy`: addresses, errors and the network oracle.
- `dns.dfy`: the address-list operations.
- `dialer.dfy`: the sequential dialer.
- `happy_eyeballs.dfy`: the coordinator.
- `http_connector.dfy`: validation and the establishment future.
- `drain.dfy`: the drain barrier.

Notes on the source's behaviour:
- A resolver error, or an error from the coordinator, is returned from `HttpConnecting::poll` through `?`. The state stays `Resolving` or `Connecting`. It does not move to a failed state (http.rs:344, 354).
- When both dialers are exhausted, the error returned comes from the dialer exhausted last. After a preferred failure, that is the promoted fallback's error, not the preferred family's (http.rs:562-566).
- After the preferred dialer fails, the promoted fallback is polled at once, even before its delay has elapsed (http.rs:562-566).

## Model

| member | source | states |
|---|---|---|
| Dns.OfFamily | src/client/connect/http.rs:406 | The addresses of one family, each taken from the input, never more than the input |
| Dns.OfFamilyAppend | src/client/connect/http.rs:406 | Filtering by family distributes over concatenation, so input order is kept |
| Dns.OfFamilyPartition | src/client/connect/http.rs:406 | The two families' lists together hold exactly the input's multiset of addresses |
| Dns.OfFamilyEmpty | src/client/connect/http.rs:406-407 | A family's list is empty if and only if no input address is of that family |
| Dns.SplitByPreference | src/client/connect/http.rs:406 | The preferred list starts with the first address and holds its family; the fallback list holds only the other family; empty input gives two empty lists |
| Dns.SplitIsPartition | src/client/connect/http.rs:406 | Splitting loses no address and duplicates none (multiset equality) |
| Dns.SplitFallbackEmpty | src/client/connect/http.rs:406-414 | The fallback list is empty if and only if every address has the first one's family |
| Dns.WithPort | src/client/connect/http.rs:345-349 | Each resolved IP is paired with the destination port, in resolver order, one address per IP |
| Dialer.Step | src/client/connect/http.rs:457-491 | A poll never changes the address list and only advances the cursor. Unless it reports an error, it returns the outcome of the attempt it leaves in flight |
| Dialer.LiveAttemptIsAwaited | src/client/connect/http.rs:466-472 | An in-flight attempt that has not failed is awaited: its outcome is returned and nothing new is dialed |
| Dialer.StopsAtFirstLive | src/client/connect/http.rs:473-487 | From an idle dialer, the remaining addresses are dialed in order, each once. The poll stops at the first whose set-up or attempt does not fail, with that one's set-up error or attempt outcome |
| Dialer.ExhaustsAfterAllFail | src/client/connect/http.rs:473-489 | When every remaining dial fails, all of them are tried. The result is the last attempt's error, and the cursor reaches the end |
| Dialer.ExhaustionReportsLastError | src/client/connect/http.rs:464-489 | A fresh dialer whose addresses all fail tries each once, in order, and returns the last address's error |
| Dialer.ConnectingTcpRemote.constructor | src/client/connect/http.rs:446-453 | A new dialer has taken no address and has nothing in flight |
| Dialer.ConnectingTcpRemote.Poll | src/client/connect/http.rs:457-491 | The in-place poll loop yields exactly Step's result and new state |
| HappyEyeballs.NoTimeoutNoRace | src/client/connect/http.rs:425-432 | Without a timeout, one dialer covers the whole list and there is no fallback |
| HappyEyeballs.RaceSplitsFamilies | src/client/connect/http.rs:405-424 | With a timeout, a fallback exists if and only if the list mixes families. The two dialers partition the list, the preferred one takes the first address's family, and both start fresh |
| HappyEyeballs.NewRace | src/client/connect/http.rs:398-434 | Both dialers start fresh with the given options. A fallback exists only when a timeout is given. A coordinator built over a non-empty list can be polled without the "missing connect error" panic |
| HappyEyeballs.RacePoll | src/client/connect/http.rs:529-570 | A pending poll leaves both dialers pollable, and the dial options never change |
| HappyEyeballs.PreferredSuccessWins | src/client/connect/http.rs:533-537 | A preferred success is returned whatever the delay, and the fallback is dropped |
| HappyEyeballs.PreferredFailurePromotesFallback | src/client/connect/http.rs:562-566 | A preferred failure promotes the fallback dialer to preferred and polls it in the same call, even before the delay |
| HappyEyeballs.FallbackWaitsForDelay | src/client/connect/http.rs:556-560 | Before the delay, the fallback dialer is kept unchanged and the poll is pending |
| HappyEyeballs.FallbackOutcome | src/client/connect/http.rs:538-555 | After the delay: a fallback success is returned and the fallback becomes preferred; a fallback error is discarded and only the preferred dialer remains; a pending fallback is kept |
| HappyEyeballs.ReadyDropsFallback | src/client/connect/http.rs:531-567 | After any ready result there is no fallback dialer |
| HappyEyeballs.SingleDialerStaysSingle | src/client/connect/http.rs:531-532 | A coordinator without a fallback never gains one, and its address list never changes, over any number of polls |
| HappyEyeballs.NoTimeoutNeverRaces | src/client/connect/http.rs:425-432 | With no timeout, over any number of polls only the original list is ever dialed |
| HappyEyeballs.FallbackUntouchedBeforeDelay | src/client/connect/http.rs:538-560 | While the delay has not elapsed, the fallback dialer is never advanced: it is either as built, or gone |
| HappyEyeballs.ConnectingTcp.constructor | src/client/connect/http.rs:398-434 | The built coordinator equals NewRace over the split lists |
| HappyEyeballs.ConnectingTcp.Poll | src/client/connect/http.rs:529-570 | The in-place poll, with the fallback taken and put back, yields exactly RacePoll's result and new state |
| Http.NewWithResolver | src/client/connect/http.rs:102-115 | Defaults: http enforced, a 300 ms Happy Eyeballs timeout, no keepalive, no local address, nodelay and reuse-address off, no buffer sizes |
| Http.SelectPort | src/client/connect/http.rs:237-240 | The explicit port if given, else 443 for https and 80 otherwise |
| Http.CheckDestination | src/client/connect/http.rs:225-240 | Exactly when each of NotHttp, MissingScheme and MissingAuthority is reported, checked in that order, and exactly when the target (host, selected port) is accepted |
| Http.EnforcedHttpDefaultsTo80 | src/client/connect/http.rs:225-240 | With http enforced, an accepted destination without a port always gets port 80 |
| Http.ApplyAll | src/client/connect/http.rs:356-368 | The options succeed together if and only if each one does. On failure, the error is that of the first option that fails |
| Http.ApplyAppend | src/client/connect/http.rs:356-368 | Applying two option lists in a row is applying their concatenation |
| Http.PostConnectFollowsSteps | src/client/connect/http.rs:353-376 | The post-connect sequence fails with the first failing option's error, else with the peer-address error; otherwise it yields the socket with its peer address as remote_addr |
| Http.OptionSteps | src/client/connect/http.rs:356-368 | Each of keepalive, send buffer and receive buffer appears, with its configured value, exactly when it is configured. nodelay always appears, with the configured flag, and comes last |
| Http.OptionStepsOrdered | src/client/connect/http.rs:356-368 | The options come in the fixed order keepalive, send buffer, receive buffer, nodelay, each kind at most once |
| Http.ApplyInTurn | src/client/connect/http.rs:356-368 | Applying four option lists one after another stops at the first list that fails, with that list's error |
| Http.PostConnect | src/client/connect/http.rs:353-376 | A success has set nodelay and yields the same socket with its peer address as remote_addr. A failure's error is that of some configured option or of peer_addr |
| Http.RecordPeer | src/client/connect/http.rs:370-372 | Succeeds exactly when peer_addr does, recording it as remote_addr. Otherwise it fails with peer_addr's error |
| Http.ConnPoll | src/client/connect/http.rs:327-382 | States never move backward. The Error state is entered only from itself. At most one resolver call per poll, and only from Lazy. A pending poll rests in Resolving, or in Connecting with a pollable coordinator |
| Http.LiteralHostSkipsResolver | src/client/connect/http.rs:332-337 | A literal IP host goes straight to Connecting with one address, that IP at the configured port, with no fallback and no resolver call |
| Http.HostnameResolvedOnce | src/client/connect/http.rs:338-344 | Any other host is handed to the resolver exactly once and leaves Lazy. While the answer is pending, the poll is pending in Resolving |
| Http.ResolvedAddressesUsePort | src/client/connect/http.rs:343-351 | Every address the coordinator will dial, in the preferred and in the fallback dialer, is a resolved IP at the configured port |
| Http.ResolverErrorIsReturned | src/client/connect/http.rs:343-344 | A resolver error is the poll's error, and the state stays Resolving |
| Http.ErrorYieldsOnce | src/client/connect/http.rs:378 | The Error state yields its error on the first poll and then cannot be polled again |
| Http.ConnectedRunsPostConnect | src/client/connect/http.rs:353-376 | A connected socket's result is the post-connect sequence's. An option failure is final, and no other address is tried |
| Http.LiteralAddressScenario | src/client/connect/http.rs:217-376 | http://192.0.2.1/ with default settings is accepted with port 80, skips the resolver, and connects with remote_addr 192.0.2.1:80 |
| Http.HttpConnecting.Invalid | src/client/connect/http.rs:263-276 | invalid_url: the future is in the Error state holding InvalidInput of the kind, and nothing is configured |
| Http.HttpConnecting.Start | src/client/connect/http.rs:242-252 | An accepted destination starts Lazy with the host and local address, and the settings are copied from the connector |
| Http.HttpConnecting.Poll | src/client/connect/http.rs:327-382 | The in-place poll loop yields exactly ConnPoll's result and state, and logs each resolver call |
| Http.Connect | src/client/connect/http.rs:217-253 | A rejected destination gives an invalid_url future with that kind. An accepted one gives a Lazy future with the connector's settings and the selected port |
| Drain.Channel | src/common/drain.rs:15-28 | The signal and the first watch share fresh channels. The broadcast is open, and that watch is the only completion sender |
| Drain.Signal.Drain | src/common/drain.rs:57-64 | Draining closes the broadcast, keeps the senders, and returns a Draining future over the same channels |
| Drain.Draining.Poll | src/common/drain.rs:66-75 | Ready exactly when no Watch handle is left |
| Drain.Watch.Clone | src/common/drain.rs:39-43 | Only a handle still held directly can be cloned. The clone is a new completion sender on the same channels |
| Drain.Watch.Drop | src/common/drain.rs:40-43 | Only a handle still held directly can be dropped. It removes exactly its own sender |
| Drain.Watch.Watch | src/common/drain.rs:77-89 | Wrapping moves the handle into the new wrapper, which keeps the future and arms the callback. Afterwards the handle can no longer be cloned, dropped or wrapped again, so only that wrapper can release its sender |
| Drain.Notice | src/common/drain.rs:100-121 | The callback runs exactly when the state is armed and the broadcast is closed. The state becomes fired exactly when it was fired or the broadcast is closed, and otherwise stays the same armed state |
| Drain.Task.Poll | src/common/drain.rs:141-153 | The test future counts its polls and is ready exactly when finished |
| Drain.Task.OnDrain | src/common/drain.rs:165-167 | The test callback sets the draining flag |
| Drain.Firings | src/common/drain.rs:98-122 | There is one callback decision per poll of the run |
| Drain.FiredNeverFires | src/common/drain.rs:117-119 | Once fired, the callback never runs again |
| Drain.FiresOnFirstClosedPoll | src/common/drain.rs:100-116 | From armed, the callback runs on a poll if and only if it is the first poll to observe the broadcast closed |
| Drain.AtMostOnce | src/common/drain.rs:100-121 | Over any run of polls, the callback runs at most once |
| Drain.Watching.constructor | src/common/drain.rs:83-87 | A new wrapper holds the future and the handle, with the callback armed |
| Drain.Watching.Poll | src/common/drain.rs:98-122 | The callback runs if and only if the wrapper is armed and the broadcast is closed, and it runs before the task's poll. The task is polled exactly once per call, and its result is the result |
| Drain.Watching.Drop | src/common/drain.rs:46-50 | Dropping the wrapper releases its watch handle's sender, once |
| Drain.SingleWatcherScenario | src/common/drain.rs:155-202 | Poll counts 0,1,2,2,3,4. The drain is noticed only on the next poll. Draining is pending until the wrapper is dropped, then ready |
| Drain.TwoWatchersScenario | src/common/drain.rs:204-245 | With two watchers, draining is pending, still pending after one is dropped, and ready after both are |
| Drain.DrainWaitsForEveryWatch | src/common/drain.rs:204-245 | With n handles, draining is pending after each of the first n-1 drops and ready after the n-th |

## Left out

- `src/server/mod.rs` is not part of this model. It reaches the drain barrier only through `shutdown::Graceful`, which is not part of this model either.
- The socket-building `connect` (http.rs:494-527) is an oracle, `Network.connect`. Its steps (builder, reuse-address, bind, the Windows bind, the reactor handle) are not modelled.
- Timers are not modelled. `Delay` and `Instant::now() + fallback_timeout` become one `elapsed` flag per poll, and the 300 ms value is kept only as a number.
- `dns.rs` is not part of this model:
  - `GaiResolver` is replaced by the `resolved` poll input.
  - `IpAddrs::try_parse` is the `tryParse` input.
  - `split_by_preference` is defined by its behaviour: the first address's family is preferred, and input order is kept.
- Dialer.Step: an empty resolver answer panics with "missing connect error". The model excludes it with a precondition (`Http.AnswerNotEmpty`) and does not model the panic.
- Http.ErrorYieldsOnce: polling `Error(None)` panics ("polled more than once"). The model states it as a precondition that no input can meet, not as a panic.
- Net.Network: connect outcomes are keyed by address, not by connect future. If an address list holds the same address twice, both attempts see the same outcome within one poll; two real connect futures need not.
- Drain.Watching.constructor: the constructor can be called directly on a handle that is already wrapped. Only `Watch.Watch` enforces that a handle is moved once.
- Wakers, `Pin`, `task::Context` and the tokio `watch`/`mpsc` channel internals are not modelled. The broadcast is a flag, and the completion channel is the set of live `Watch` handles.
- Dropping a `Signal` without calling `drain` also closes the broadcast (drain.rs:59). Only `drain` is modelled.
- `on_drain` is a generic `FnOnce`. The model carries its value in the state and applies the tests' callback effect (`Task.OnDrain`, setting the draining flag).
- Not modelled: the connector's setter methods, `Debug`/`Display`, `trace!`/`debug!` logging, and the `HttpConnector::new` and `new_with_tokio_threadpool_resolver` constructors, which only choose a resolver before calling `new_with_resolver`.
- Ports, buffer sizes and durations are unbounded naturals. The source's `u16` port is a `Port` subset type. `usize` sizes and `Duration` are not bounded, because the core never does arithmetic on them.
