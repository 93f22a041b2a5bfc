/** The sequential dialer (`ConnectingTcpRemote`): it walks one address list,
    dialing one address at a time, and moves to the next address only when the
    attempt in flight has failed. */
module Dialer {
  import opened Wrappers
  import opened Net

  /** The state of one dialer: its address list, the cursor of the address
      iterator (the addresses before it have been taken), and the address whose
      connect future is in flight, if any. A single `current` slot is what keeps
      at most one attempt in flight. */
  datatype Remote = Remote(addrs: seq<SocketAddr>, cursor: nat, current: Option<SocketAddr>)

  /** Polling `d` cannot reach the "missing connect error" panic: an attempt is
      in flight, or an address is left to dial. */
  predicate Pollable(d: Remote)
  {
    d.cursor <= |d.addrs| && (d.current.Some? || d.cursor < |d.addrs|)
  }

  /** Polling the connect future towards `a` now yields an error. */
  predicate Failed(net: Network, a: SocketAddr)
  {
    net.attempt(a).Ready? && net.attempt(a).value.Failure?
  }

  /** Nothing live is in flight: no attempt at all, or one that has just failed. */
  predicate Idle(d: Remote, net: Network)
  {
    d.current.None? || Failed(net, d.current.value)
  }

  /** One call of `ConnectingTcpRemote::poll`: the result and the dialer's new state. */
  function Step(d: Remote, opts: DialOptions, net: Network): (res: (Poll<Result<Socket, IoError>>, Remote))
    requires Pollable(d)
    ensures res.1.addrs == d.addrs && d.cursor <= res.1.cursor <= |d.addrs|
    ensures !(res.0.Ready? && res.0.value.Failure?) ==>
              res.1.current.Some? && net.attempt(res.1.current.value) == res.0
    decreases |d.addrs| - d.cursor
  {
    if d.current.Some? && (!Failed(net, d.current.value) || d.cursor == |d.addrs|) then
      // the attempt in flight is pending or done; a failure here means no address is left
      (net.attempt(d.current.value), d)
    else
      var a := d.addrs[d.cursor];
      var taken := d.(cursor := d.cursor + 1);
      match net.connect(a, opts)
      case Failure(e) => (Ready(Failure(e)), taken)
      case Success(_) => Step(taken.(current := Some(a)), opts, net)
  }

  /** An attempt in flight that has not failed is awaited: nothing new is dialed. */
  lemma LiveAttemptIsAwaited(d: Remote, opts: DialOptions, net: Network)
    requires Pollable(d) && !Idle(d, net)
    ensures Step(d, opts, net) == (net.attempt(d.current.value), d)
  {
  }

  /** From an idle dialer, the poll dials the remaining addresses in list order,
      each once, skipping past every one that fails, and stops at the first that
      does not: its set-up error, or its attempt's outcome, is the result. */
  lemma {:induction false} StopsAtFirstLive(d: Remote, opts: DialOptions, net: Network, j: nat)
    requires d.cursor <= j < |d.addrs| && Idle(d, net)
    requires forall i :: d.cursor <= i < j ==> Fails(net, opts, d.addrs[i])
    requires !Fails(net, opts, d.addrs[j])
    ensures Pollable(d)
    ensures Step(d, opts, net).1.cursor == j + 1
    ensures Step(d, opts, net).0 ==
              match net.connect(d.addrs[j], opts)
              case Failure(e) => Ready(Failure(e))
              case Success(_) => net.attempt(d.addrs[j])
    decreases j - d.cursor
  {
    var a := d.addrs[d.cursor];
    var taken := d.(cursor := d.cursor + 1);
    if d.cursor < j {
      assert Fails(net, opts, a);
      StopsAtFirstLive(taken.(current := Some(a)), opts, net, j);
    }
  }

  /** From an idle dialer whose remaining addresses all fail, the poll dials every
      one of them and reports the error of the last attempt made. */
  lemma {:induction false} ExhaustsAfterAllFail(d: Remote, opts: DialOptions, net: Network)
    requires Pollable(d) && Idle(d, net)
    requires forall i :: d.cursor <= i < |d.addrs| ==> Fails(net, opts, d.addrs[i])
    ensures Step(d, opts, net).1.cursor == |d.addrs|
    ensures Step(d, opts, net).1.current.Some?
    ensures Step(d, opts, net).0 == net.attempt(Step(d, opts, net).1.current.value)
    ensures Step(d, opts, net).1.current.value ==
              if d.cursor < |d.addrs| then d.addrs[|d.addrs| - 1] else d.current.value
    ensures Failed(net, Step(d, opts, net).1.current.value)
    decreases |d.addrs| - d.cursor
  {
    if d.cursor < |d.addrs| {
      var a := d.addrs[d.cursor];
      ExhaustsAfterAllFail(d.(cursor := d.cursor + 1, current := Some(a)), opts, net);
    }
  }

  /** A fresh dialer over a non-empty list in which every dial fails tries every
      address exactly once, in order, and surfaces the last address's error. */
  lemma ExhaustionReportsLastError(addrs: seq<SocketAddr>, opts: DialOptions, net: Network)
    requires |addrs| > 0
    requires forall a :: a in addrs ==> Fails(net, opts, a)
    ensures Pollable(Remote(addrs, 0, None))
    ensures Step(Remote(addrs, 0, None), opts, net) ==
              (net.attempt(addrs[|addrs| - 1]), Remote(addrs, |addrs|, Some(addrs[|addrs| - 1])))
    ensures net.attempt(addrs[|addrs| - 1]).Ready? && net.attempt(addrs[|addrs| - 1]).value.Failure?
  {
    ExhaustsAfterAllFail(Remote(addrs, 0, None), opts, net);
  }

  /** `ConnectingTcpRemote`: the dialer as the source keeps it, updated in place. */
  class ConnectingTcpRemote {
    var addrs: seq<SocketAddr>
    var cursor: nat
    var current: Option<SocketAddr>

    function Model(): Remote
      reads this
    {
      Remote(addrs, cursor, current)
    }

    /** `ConnectingTcpRemote::new`: nothing taken, nothing in flight. */
    constructor (addrs: seq<SocketAddr>)
      ensures Model() == Remote(addrs, 0, None)
    {
      this.addrs := addrs;
      cursor := 0;
      current := None;
    }

    /** `ConnectingTcpRemote::poll`. */
    method Poll(opts: DialOptions, net: Network) returns (r: Poll<Result<Socket, IoError>>)
      requires Pollable(Model())
      modifies this
      ensures (r, Model()) == Step(old(Model()), opts, net)
    {
      var err: Option<IoError> := None;
      while true
        invariant Pollable(Model()) && addrs == old(addrs)
        invariant Step(Model(), opts, net) == Step(old(Model()), opts, net)
        decreases |addrs| - cursor
      {
        if current.Some? {
          match net.attempt(current.value)
          case Ready(Success(tcp)) =>
            return Ready(Success(tcp));
          case Pending =>
            return Pending;
          case Ready(Failure(e)) =>
            err := Some(e);
            if cursor < |addrs| {
              var addr := addrs[cursor];
              cursor := cursor + 1;
              var dial := net.connect(addr, opts);
              if dial.Failure? {
                return Ready(Failure(dial.error));
              }
              current := Some(addr);
              continue;
            }
        } else if cursor < |addrs| {
          var addr := addrs[cursor];
          cursor := cursor + 1;
          var dial := net.connect(addr, opts);
          if dial.Failure? {
            return Ready(Failure(dial.error));
          }
          current := Some(addr);
          continue;
        }
        return Ready(Failure(err.value));
      }
    }
  }
}
