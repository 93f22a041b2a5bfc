/** `HttpConnector` and the future it returns, `HttpConnecting`: destination
    checks before any I/O, then the forward-only establishment state machine
    `Lazy -> Resolving -> Connecting`, plus an `Error` state that yields its error
    once. */
module Http {
  import opened Wrappers
  import opened Net
  import opened Dns
  import opened Dialer
  import opened HappyEyeballs

  datatype Scheme = Http | Https | OtherScheme(name: string)

  /** The parts of a destination URI the connector looks at. */
  datatype Uri = Uri(scheme: Option<Scheme>, host: Option<string>, port: Option<Port>)

  /** The connector's configuration. Durations are in milliseconds. The reactor
      handle is not modelled; the resolver is an input of each poll. */
  datatype HttpConnector = HttpConnector(
    enforceHttp: bool,
    happyEyeballsTimeout: Option<nat>,
    keepAliveTimeout: Option<nat>,
    localAddress: Option<IpAddr>,
    nodelay: bool,
    reuseAddress: bool,
    sendBufferSize: Option<nat>,
    recvBufferSize: Option<nat>)

  /** `HttpConnector::new_with_resolver`: the documented defaults. */
  function NewWithResolver(): (c: HttpConnector)
    ensures c.enforceHttp
    ensures c.happyEyeballsTimeout == Some(300)
    ensures c.keepAliveTimeout.None? && c.localAddress.None?
    ensures !c.nodelay && !c.reuseAddress
    ensures c.sendBufferSize.None? && c.recvBufferSize.None?
  {
    HttpConnector(true, Some(300), None, None, false, false, None, None)
  }

  /** The scheme passes the connector's check: exactly `http` when HTTP is
      enforced (a missing scheme does not), any scheme otherwise. */
  predicate SchemeAccepted(enforceHttp: bool, scheme: Option<Scheme>)
  {
    if enforceHttp then scheme == Some(Http) else scheme.Some?
  }

  /** The port to connect to: the explicit one, else 443 for `https` and 80 for
      everything else (RFC 7230, sections 2.7.1 and 2.7.2). */
  function SelectPort(dst: Uri): (port: Port)
    ensures dst.port.Some? ==> port == dst.port.value
    ensures dst.port.None? && dst.scheme == Some(Https) ==> port == 443
    ensures dst.port.None? && dst.scheme != Some(Https) ==> port == 80
  {
    match dst.port
    case Some(p) => p
    case None => if dst.scheme == Some(Https) then 443 else 80
  }

  /** A destination that passed the checks: the host to reach and the port. */
  datatype Target = Target(host: string, port: Port)

  /** The checks of `HttpConnector::connect`, made before any I/O. */
  function CheckDestination(enforceHttp: bool, dst: Uri): (r: Result<Target, InvalidUrl>)
    ensures r == Failure(NotHttp) <==> enforceHttp && dst.scheme != Some(Http)
    ensures r == Failure(MissingScheme) <==> !enforceHttp && dst.scheme.None?
    ensures r == Failure(MissingAuthority) <==> SchemeAccepted(enforceHttp, dst.scheme) && dst.host.None?
    ensures r.Success? <==> SchemeAccepted(enforceHttp, dst.scheme) && dst.host.Some?
    ensures r.Success? ==> r.value == Target(dst.host.value, SelectPort(dst))
  {
    if enforceHttp && dst.scheme != Some(Http) then Failure(NotHttp)
    else if !enforceHttp && dst.scheme.None? then Failure(MissingScheme)
    else if dst.host.None? then Failure(MissingAuthority)
    else Success(Target(dst.host.value, SelectPort(dst)))
  }

  /** With HTTP enforced, a destination without an explicit port always uses 80:
      `https` never gets past the scheme check. */
  lemma EnforcedHttpDefaultsTo80(dst: Uri)
    requires CheckDestination(true, dst).Success? && dst.port.None?
    ensures CheckDestination(true, dst).value.port == 80
  {
  }

  /** The fields of `HttpConnecting` besides its state (the reactor handle is not
      modelled). */
  datatype Settings = Settings(
    happyEyeballsTimeout: Option<nat>,
    keepAliveTimeout: Option<nat>,
    nodelay: bool,
    port: Port,
    reuseAddress: bool,
    sendBufferSize: Option<nat>,
    recvBufferSize: Option<nat>)

  /** What `invalid_url` stores beside the error: nothing is configured. */
  const InvalidSettings := Settings(None, None, false, 0, false, None, None)

  /** What `connect` copies from the connector for an accepted destination. */
  function SettingsFor(c: HttpConnector, port: Port): Settings
  {
    Settings(c.happyEyeballsTimeout, c.keepAliveTimeout, c.nodelay, port, c.reuseAddress,
             c.sendBufferSize, c.recvBufferSize)
  }

  /** A socket option set after the connection is established. */
  datatype SockOpt = KeepAlive(dur: nat) | SendBufferSize(size: nat) | RecvBufferSize(size: nat) | NoDelay(on: bool)

  /** The socket-option capability: setting an option, and reading the peer address. */
  datatype SocketOps = SocketOps(
    setOption: (Socket, SockOpt) -> Result<(), IoError>,
    peerAddr: Socket -> Result<SocketAddr, IoError>)

  /** `HttpInfo`: the transport information attached to the connection. */
  datatype HttpInfo = HttpInfo(remoteAddr: SocketAddr)

  datatype Connection = Connection(sock: Socket, info: HttpInfo)

  /** Where each kind of option comes in the post-connect sequence. */
  function ApplyOrder(o: SockOpt): nat
  {
    match o
    case KeepAlive(_) => 0
    case SendBufferSize(_) => 1
    case RecvBufferSize(_) => 2
    case NoDelay(_) => 3
  }

  /** The options applied to a new connection, in the order they are applied:
      keepalive, send buffer and receive buffer when configured, then no-delay. */
  function OptionSteps(s: Settings): (steps: seq<SockOpt>)
    ensures forall d: nat :: KeepAlive(d) in steps <==> s.keepAliveTimeout == Some(d)
    ensures forall n: nat :: SendBufferSize(n) in steps <==> s.sendBufferSize == Some(n)
    ensures forall n: nat :: RecvBufferSize(n) in steps <==> s.recvBufferSize == Some(n)
    ensures forall b :: NoDelay(b) in steps <==> b == s.nodelay
    ensures |steps| > 0 && steps[|steps| - 1] == NoDelay(s.nodelay)
  {
    (if s.keepAliveTimeout.Some? then [KeepAlive(s.keepAliveTimeout.value)] else [])
    + (if s.sendBufferSize.Some? then [SendBufferSize(s.sendBufferSize.value)] else [])
    + (if s.recvBufferSize.Some? then [RecvBufferSize(s.recvBufferSize.value)] else [])
    + [NoDelay(s.nodelay)]
  }

  /** Applying `steps` in order, stopping at the first that fails. */
  function ApplyAll(sock: Socket, steps: seq<SockOpt>, ops: SocketOps): (r: Result<(), IoError>)
    ensures r.Success? <==> forall i :: 0 <= i < |steps| ==> ops.setOption(sock, steps[i]).Success?
    ensures r.Failure? ==> exists i :: 0 <= i < |steps| && ops.setOption(sock, steps[i]) == Failure(r.error)
                                       && forall k :: 0 <= k < i ==> ops.setOption(sock, steps[k]).Success?
  {
    if steps == [] then Success(())
    else
      match ops.setOption(sock, steps[0])
      case Failure(e) => Failure(e)
      case Success(_) =>
        var rest := ApplyAll(sock, steps[1..], ops);
        assert forall i :: 1 <= i < |steps| ==> steps[i] == steps[1..][i - 1];
        rest
  }

  /** The steps after the socket is connected, as the poll takes them: each
      option in turn, the first failure ending establishment, then the peer
      address recorded as the connection's remote address. */
  function PostConnect(s: Settings, sock: Socket, ops: SocketOps): (r: Result<Connection, IoError>)
    ensures r.Success? ==>
              && ops.setOption(sock, NoDelay(s.nodelay)).Success?
              && r.value.sock == sock && ops.peerAddr(sock) == Success(r.value.info.remoteAddr)
    ensures r.Failure? ==>
              (exists o :: o in OptionSteps(s) && ops.setOption(sock, o) == Failure(r.error))
              || ops.peerAddr(sock) == Failure(r.error)
  {
    var keepAlive := if s.keepAliveTimeout.Some? then ops.setOption(sock, KeepAlive(s.keepAliveTimeout.value)) else Success(());
    if keepAlive.Failure? then Failure(keepAlive.error) else
    var sendBuffer := if s.sendBufferSize.Some? then ops.setOption(sock, SendBufferSize(s.sendBufferSize.value)) else Success(());
    if sendBuffer.Failure? then Failure(sendBuffer.error) else
    var recvBuffer := if s.recvBufferSize.Some? then ops.setOption(sock, RecvBufferSize(s.recvBufferSize.value)) else Success(());
    if recvBuffer.Failure? then Failure(recvBuffer.error) else
    var noDelay := ops.setOption(sock, NoDelay(s.nodelay));
    if noDelay.Failure? then Failure(noDelay.error) else
    RecordPeer(sock, ops)
  }

  /** The last post-connect step: the peer address becomes `remote_addr`. */
  function RecordPeer(sock: Socket, ops: SocketOps): (r: Result<Connection, IoError>)
    ensures r.Success? <==> ops.peerAddr(sock).Success?
    ensures r.Success? ==> r.value == Connection(sock, HttpInfo(ops.peerAddr(sock).value))
    ensures r.Failure? ==> ops.peerAddr(sock) == Failure(r.error)
  {
    var peer := ops.peerAddr(sock);
    if peer.Failure? then Failure(peer.error) else Success(Connection(sock, HttpInfo(peer.value)))
  }

  /** The post-connect sequence applies exactly `OptionSteps` in order: its error
      is the first failing option's, else the peer-address error, else success
      with the peer address as `remote_addr`. */
  lemma PostConnectFollowsSteps(s: Settings, sock: Socket, ops: SocketOps)
    ensures var applied := ApplyAll(sock, OptionSteps(s), ops);
      PostConnect(s, sock, ops) == if applied.Failure? then Failure(applied.error) else RecordPeer(sock, ops)
  {
    var ka := if s.keepAliveTimeout.Some? then [KeepAlive(s.keepAliveTimeout.value)] else [];
    var sb := if s.sendBufferSize.Some? then [SendBufferSize(s.sendBufferSize.value)] else [];
    var rb := if s.recvBufferSize.Some? then [RecvBufferSize(s.recvBufferSize.value)] else [];
    var nd := [NoDelay(s.nodelay)];
    assert OptionSteps(s) == ka + sb + rb + nd;
    ApplyInTurn(sock, ka, sb, rb, nd, ops);
  }

  /** Applying four step lists in a row, one after the other. */
  lemma ApplyInTurn(sock: Socket, ka: seq<SockOpt>, sb: seq<SockOpt>, rb: seq<SockOpt>, nd: seq<SockOpt>, ops: SocketOps)
    ensures ApplyAll(sock, ka + sb + rb + nd, ops) ==
      if ApplyAll(sock, ka, ops).Failure? then ApplyAll(sock, ka, ops)
      else if ApplyAll(sock, sb, ops).Failure? then ApplyAll(sock, sb, ops)
      else if ApplyAll(sock, rb, ops).Failure? then ApplyAll(sock, rb, ops)
      else ApplyAll(sock, nd, ops)
  {
    assert ka + sb + rb + nd == ka + (sb + (rb + nd));
    ApplyAppend(sock, ka, sb + (rb + nd), ops);
    ApplyAppend(sock, sb, rb + nd, ops);
    ApplyAppend(sock, rb, nd, ops);
  }

  /** Applying two step lists in a row is applying their concatenation. */
  lemma {:induction false} ApplyAppend(sock: Socket, xs: seq<SockOpt>, ys: seq<SockOpt>, ops: SocketOps)
    ensures ApplyAll(sock, xs + ys, ops) ==
              if ApplyAll(sock, xs, ops).Failure? then ApplyAll(sock, xs, ops) else ApplyAll(sock, ys, ops)
  {
    if xs == [] {
      assert xs + ys == ys;
    } else {
      assert (xs + ys)[1..] == xs[1..] + ys;
      ApplyAppend(sock, xs[1..], ys, ops);
    }
  }

  /** The options come in a fixed order, each kind at most once: keepalive, send
      buffer, receive buffer, no-delay. */
  lemma OptionStepsOrdered(s: Settings)
    ensures forall i, j :: 0 <= i < j < |OptionSteps(s)| ==> ApplyOrder(OptionSteps(s)[i]) < ApplyOrder(OptionSteps(s)[j])
  {
    var ka := if s.keepAliveTimeout.Some? then [KeepAlive(s.keepAliveTimeout.value)] else [];
    var sb := if s.sendBufferSize.Some? then [SendBufferSize(s.sendBufferSize.value)] else [];
    var rb := if s.recvBufferSize.Some? then [RecvBufferSize(s.recvBufferSize.value)] else [];
    var steps := ka + sb + rb + [NoDelay(s.nodelay)];
    assert OptionSteps(s) == steps;
    forall i | 0 <= i < |steps|
      ensures ApplyOrder(steps[i]) == (if i < |ka| then 0 else if i < |ka| + |sb| then 1 else if i < |ka| + |sb| + |rb| then 2 else 3)
    {
    }
    forall i, j | 0 <= i < j < |steps| ensures ApplyOrder(steps[i]) < ApplyOrder(steps[j]) {
      assert |ka| <= 1 && |sb| <= 1 && |rb| <= 1;
    }
  }

  /** One poll's inputs. `tryParse` is the resolver module's literal-address
      parser; `resolved` is what polling the pending resolution yields now;
      `elapsed` says whether the Happy Eyeballs delay has elapsed. */
  datatype PollInputs = PollInputs(
    tryParse: string -> Option<IpAddr>,
    resolved: Poll<Result<seq<IpAddr>, IoError>>,
    elapsed: bool,
    net: Network,
    sock: SocketOps)

  /** A resolver answer without addresses would leave the dialer with nothing to
      dial, which panics with "missing connect error". */
  predicate AnswerNotEmpty(inp: PollInputs)
  {
    inp.resolved.Ready? && inp.resolved.value.Success? ==> |inp.resolved.value.value| > 0
  }

  /** The establishment state, over the coordinator `C`: the class keeps a
      `ConnectingTcp` object in `Connecting`, the specification its value. */
  datatype State<C> =
    | Lazy(host: string, localAddr: Option<IpAddr>)
    | Resolving(name: string, localAddr: Option<IpAddr>)
    | Connecting(tcp: C)
    | Error(err: Option<IoError>)

  /** States only move forward: a state of higher rank is never re-entered. */
  function Rank<C>(p: State<C>): nat
  {
    match p
    case Lazy(_, _) => 2
    case Resolving(_, _) => 1
    case Connecting(_) => 0
    case Error(_) => 0
  }

  /** Polling `p` does not panic: no dialer left without an address to dial, and
      an `Error` state whose error has not been taken yet ("polled more than once"). */
  predicate CanPoll(p: State<Race>, inp: PollInputs)
  {
    match p
    case Lazy(_, _) => AnswerNotEmpty(inp)
    case Resolving(_, _) => AnswerNotEmpty(inp)
    case Connecting(t) => RacePollable(t)
    case Error(e) => e.Some?
  }

  /** One call of `HttpConnecting::poll`: the result, the new state, and the names
      handed to the resolver during the call. */
  function ConnPoll(s: Settings, p: State<Race>, inp: PollInputs)
    : (res: (Poll<Result<Connection, IoError>>, State<Race>, seq<string>))
    requires CanPoll(p, inp)
    ensures Rank(res.1) <= Rank(p)
    ensures res.1.Error? <==> p.Error?
    ensures |res.2| <= 1 && (!p.Lazy? ==> res.2 == [])
    ensures res.0.Pending? ==> res.1.Resolving? || (res.1.Connecting? && RacePollable(res.1.tcp))
    decreases Rank(p)
  {
    match p
    case Lazy(host, localAddr) =>
      (match inp.tryParse(host)
       case Some(ip) =>
         ConnPoll(s, Connecting(NewRace(DialOptions(localAddr, s.reuseAddress), [SocketAddr(ip, s.port)],
                                        s.happyEyeballsTimeout)), inp)
       case None =>
         var (r, p', names) := ConnPoll(s, Resolving(host, localAddr), inp);
         (r, p', [host] + names))
    case Resolving(_, localAddr) =>
      (match inp.resolved
       case Pending => (Pending, p, [])
       case Ready(Failure(e)) => (Ready(Failure(e)), p, [])
       case Ready(Success(ips)) =>
         ConnPoll(s, Connecting(NewRace(DialOptions(localAddr, s.reuseAddress), WithPort(ips, s.port),
                                        s.happyEyeballsTimeout)), inp))
    case Connecting(t) =>
      var (r, t') := RacePoll(t, inp.elapsed, inp.net);
      (match r
       case Pending => (Pending, Connecting(t'), [])
       case Ready(Failure(e)) => (Ready(Failure(e)), Connecting(t'), [])
       case Ready(Success(sock)) => (Ready(PostConnect(s, sock, inp.sock)), Connecting(t'), []))
    case Error(e) => (Ready(Failure(e.value)), Error(None), [])
  }

  /** A host that parses as a literal IP goes straight to `Connecting` with that
      one address and the configured port; the resolver is never called. */
  lemma LiteralHostSkipsResolver(s: Settings, host: string, localAddr: Option<IpAddr>, inp: PollInputs)
    requires AnswerNotEmpty(inp) && inp.tryParse(host).Some?
    ensures var (_, p', names) := ConnPoll(s, Lazy(host, localAddr), inp);
      && names == []
      && p'.Connecting?
      && p'.tcp.fallback.None?
      && p'.tcp.preferred.addrs == [SocketAddr(inp.tryParse(host).value, s.port)]
  {
    var a := SocketAddr(inp.tryParse(host).value, s.port);
    var t := NewRace(DialOptions(localAddr, s.reuseAddress), [a], s.happyEyeballsTimeout);
    if s.happyEyeballsTimeout.Some? {
      SplitFallbackEmpty([a]);
    }
    assert t.fallback.None? && t.preferred.addrs == [a];
  }

  /** Any other host is handed to the resolver exactly once, and the state moves
      to `Resolving`; while the answer is pending the poll is pending there. */
  lemma HostnameResolvedOnce(s: Settings, host: string, localAddr: Option<IpAddr>, inp: PollInputs)
    requires AnswerNotEmpty(inp) && inp.tryParse(host).None?
    ensures ConnPoll(s, Lazy(host, localAddr), inp).2 == [host]
    ensures !ConnPoll(s, Lazy(host, localAddr), inp).1.Lazy?
    ensures inp.resolved.Pending? ==>
              ConnPoll(s, Lazy(host, localAddr), inp) == (Pending, Resolving(host, localAddr), [host])
  {
  }

  /** Every address the coordinator will dial is one of the resolved IPs paired
      with the configured port. */
  lemma ResolvedAddressesUsePort(s: Settings, name: string, localAddr: Option<IpAddr>, inp: PollInputs)
    requires AnswerNotEmpty(inp) && inp.resolved.Ready? && inp.resolved.value.Success?
    ensures var p' := ConnPoll(s, Resolving(name, localAddr), inp).1;
      && p'.Connecting?
      && (forall a :: a in p'.tcp.preferred.addrs ==> a.port == s.port && a.ip in inp.resolved.value.value)
      && (p'.tcp.fallback.Some? ==>
            forall a :: a in p'.tcp.fallback.value.addrs ==> a.port == s.port && a.ip in inp.resolved.value.value)
  {
    var ips := inp.resolved.value.value;
    var addrs := WithPort(ips, s.port);
    assert forall a :: a in addrs ==> a.port == s.port && a.ip in ips by {
      forall a | a in addrs ensures a.port == s.port && a.ip in ips {
        var i :| 0 <= i < |addrs| && addrs[i] == a;
      }
    }
  }

  /** A resolver error is the poll's error. The state stays `Resolving`. */
  lemma ResolverErrorIsReturned(s: Settings, name: string, localAddr: Option<IpAddr>, inp: PollInputs, e: IoError)
    requires AnswerNotEmpty(inp) && inp.resolved == Ready(Failure(e))
    ensures ConnPoll(s, Resolving(name, localAddr), inp) == (Ready(Failure(e)), Resolving(name, localAddr), [])
  {
  }

  /** The `Error` state yields its error on the first poll, and cannot be polled again. */
  lemma ErrorYieldsOnce(s: Settings, e: IoError, inp: PollInputs, later: PollInputs)
    ensures CanPoll(Error(Some(e)), inp)
    ensures ConnPoll(s, Error(Some(e)), inp) == (Ready(Failure(e)), Error(None), [])
    ensures !CanPoll(Error(None), later)
  {
  }

  /** When the coordinator yields a socket, the poll's result is the post-connect
      sequence's: an option failure is final, no other address is tried. */
  lemma ConnectedRunsPostConnect(s: Settings, t: Race, inp: PollInputs, sock: Socket)
    requires RacePollable(t) && RacePoll(t, inp.elapsed, inp.net).0 == Ready(Success(sock))
    ensures ConnPoll(s, Connecting(t), inp) ==
              (Ready(PostConnect(s, sock, inp.sock)), Connecting(RacePoll(t, inp.elapsed, inp.net).1), [])
  {
  }

  /** The literal-address scenario: `http://192.0.2.1/` reaches `Connecting`
      without a resolver call and, when the dial and every option succeed,
      yields a connection whose remote address is 192.0.2.1:80. */
  lemma LiteralAddressScenario(inp: PollInputs, sock: Socket)
    requires AnswerNotEmpty(inp)
    requires inp.tryParse("192.0.2.1") == Some(V4(0xC000_0201))
    requires forall a, o :: inp.net.connect(a, o).Success?
    requires inp.net.attempt(SocketAddr(V4(0xC000_0201), 80)) == Ready(Success(sock))
    requires forall o :: inp.sock.setOption(sock, o).Success?
    requires inp.sock.peerAddr(sock) == Success(SocketAddr(V4(0xC000_0201), 80))
    ensures var c := NewWithResolver();
      var dst := Uri(Some(Http), Some("192.0.2.1"), None);
      && CheckDestination(c.enforceHttp, dst) == Success(Target("192.0.2.1", 80))
      && ConnPoll(SettingsFor(c, 80), Lazy("192.0.2.1", c.localAddress), inp).2 == []
      && ConnPoll(SettingsFor(c, 80), Lazy("192.0.2.1", c.localAddress), inp).0
         == Ready(Success(Connection(sock, HttpInfo(SocketAddr(V4(0xC000_0201), 80)))))
  {
    var c := NewWithResolver();
    var a := SocketAddr(V4(0xC000_0201), 80);
    LiteralHostSkipsResolver(SettingsFor(c, 80), "192.0.2.1", c.localAddress, inp);
    var t := NewRace(DialOptions(None, false), [a], Some(300));
    SplitFallbackEmpty([a]);
    assert t == Race(DialOptions(None, false), Remote([a], 0, None), None);
    assert Step(t.preferred, t.opts, inp.net) == (Ready(Success(sock)), Remote([a], 1, Some(a)));
  }

  /** `HttpConnecting`: the establishment future, updated in place by each poll. */
  class HttpConnecting {
    var state: State<ConnectingTcp>
    const settings: Settings
    /** Every name handed to the resolver, in order. */
    ghost var resolveCalls: seq<string>
    ghost var Repr: set<object>

    ghost predicate Valid()
      reads this, Repr
    {
      && this in Repr
      && (state.Connecting? ==>
            && state.tcp in Repr && state.tcp.Repr <= Repr && this !in state.tcp.Repr
            && state.tcp.Valid())
    }

    ghost function Model(): State<Race>
      reads this, Repr
      requires Valid()
    {
      match state
      case Lazy(host, localAddr) => Lazy(host, localAddr)
      case Resolving(name, localAddr) => Resolving(name, localAddr)
      case Connecting(tcp) => Connecting(tcp.Model())
      case Error(e) => Error(e)
    }

    /** `invalid_url`: a future that fails with `InvalidInput` on its first poll,
        nothing else configured. */
    constructor Invalid(kind: InvalidUrl)
      ensures Valid() && fresh(Repr)
      ensures Model() == Error(Some(InvalidInput(kind)))
      ensures settings == InvalidSettings && resolveCalls == []
    {
      state := Error(Some(InvalidInput(kind)));
      settings := InvalidSettings;
      resolveCalls := [];
      new;
      Repr := {this};
    }

    /** The future for an accepted destination, starting `Lazy`. */
    constructor Start(c: HttpConnector, target: Target)
      ensures Valid() && fresh(Repr)
      ensures Model() == Lazy(target.host, c.localAddress)
      ensures settings == SettingsFor(c, target.port) && resolveCalls == []
    {
      state := Lazy(target.host, c.localAddress);
      settings := SettingsFor(c, target.port);
      resolveCalls := [];
      new;
      Repr := {this};
    }

    /** `HttpConnecting::poll`. */
    method Poll(inp: PollInputs) returns (r: Poll<Result<Connection, IoError>>)
      requires Valid() && CanPoll(Model(), inp)
      modifies Repr
      ensures Valid() && fresh(Repr - old(Repr))
      ensures var (r', p', names) := ConnPoll(settings, old(Model()), inp);
        r == r' && Model() == p' && resolveCalls == old(resolveCalls) + names
    {
      ghost var spec := ConnPoll(settings, Model(), inp);
      while true
        invariant Valid() && fresh(Repr - old(Repr))
        invariant CanPoll(Model(), inp)
        invariant var (r', p', names) := ConnPoll(settings, Model(), inp);
          r' == spec.0 && p' == spec.1 && old(resolveCalls) + spec.2 == resolveCalls + names
        decreases Rank(state)
      {
        if state.Lazy? {
            var host, localAddr := state.host, state.localAddr;
            var parsed := inp.tryParse(host);
            if parsed.Some? {
              // a literal IP address: skip the resolver
              var tcp := new ConnectingTcp(DialOptions(localAddr, settings.reuseAddress),
                                           [SocketAddr(parsed.value, settings.port)], settings.happyEyeballsTimeout);
              state := Connecting(tcp);
              Repr := Repr + tcp.Repr;
            } else {
              resolveCalls := resolveCalls + [host];
              state := Resolving(host, localAddr);
            }
        } else if state.Resolving? {
            var localAddr := state.localAddr;
            if inp.resolved.Pending? {
              return Pending;
            }
            var answer := inp.resolved.value;
            if answer.Failure? {
              return Ready(Failure(answer.error));
            }
            var tcp := new ConnectingTcp(DialOptions(localAddr, settings.reuseAddress),
                                         WithPort(answer.value, settings.port), settings.happyEyeballsTimeout);
            state := Connecting(tcp);
            Repr := Repr + tcp.Repr;
        } else if state.Connecting? {
            var tcp := state.tcp;
            var polled := tcp.Poll(inp.elapsed, inp.net);
            match polled {
              case Pending =>
                return Pending;
              case Ready(Failure(e)) =>
                return Ready(Failure(e));
              case Ready(Success(sock)) =>
                if settings.keepAliveTimeout.Some? {
                  var applied := inp.sock.setOption(sock, KeepAlive(settings.keepAliveTimeout.value));
                  if applied.Failure? {
                    return Ready(Failure(applied.error));
                  }
                }
                if settings.sendBufferSize.Some? {
                  var applied := inp.sock.setOption(sock, SendBufferSize(settings.sendBufferSize.value));
                  if applied.Failure? {
                    return Ready(Failure(applied.error));
                  }
                }
                if settings.recvBufferSize.Some? {
                  var applied := inp.sock.setOption(sock, RecvBufferSize(settings.recvBufferSize.value));
                  if applied.Failure? {
                    return Ready(Failure(applied.error));
                  }
                }
                var applied := inp.sock.setOption(sock, NoDelay(settings.nodelay));
                if applied.Failure? {
                  return Ready(Failure(applied.error));
                }
                var peer := inp.sock.peerAddr(sock);
                if peer.Failure? {
                  return Ready(Failure(peer.error));
                }
                return Ready(Success(Connection(sock, HttpInfo(peer.value))));
            }
        } else {
            var e := state.err;
            state := Error(None);
            return Ready(Failure(e.value));
        }
      }
    }
  }

  /** `HttpConnector::connect`: an invalid destination becomes a future that fails
      on its first poll, before any I/O; an accepted one a future that starts `Lazy`. */
  method Connect(c: HttpConnector, dst: Uri) returns (f: HttpConnecting)
    ensures f.Valid() && fresh(f.Repr) && f.resolveCalls == []
    ensures match CheckDestination(c.enforceHttp, dst)
      case Failure(kind) => f.Model() == Error(Some(InvalidInput(kind))) && f.settings == InvalidSettings
      case Success(target) => f.Model() == Lazy(target.host, c.localAddress) && f.settings == SettingsFor(c, target.port)
  {
    var checked := CheckDestination(c.enforceHttp, dst);
    if checked.Failure? {
      f := new HttpConnecting.Invalid(checked.error);
    } else {
      f := new HttpConnecting.Start(c, checked.value);
    }
  }
}
