/** The Happy Eyeballs coordinator (`ConnectingTcp`, RFC 6555 section 4): a
    preferred dialer that runs at once, and a dialer for the other address family
    that joins only once its delay has elapsed. The delay is not a clock here: each
    poll is told whether it has elapsed. */
module HappyEyeballs {
  import opened Wrappers
  import opened Net
  import opened Dns
  import opened Dialer

  /** The coordinator's state: the options handed to every dial, the preferred
      dialer, and the fallback dialer waiting behind its delay, if any. */
  datatype Race = Race(opts: DialOptions, preferred: Remote, fallback: Option<Remote>)

  /** Neither dialer the next poll may drive can reach the "missing connect error" panic. */
  predicate RacePollable(t: Race)
  {
    Pollable(t.preferred) && (t.fallback.Some? ==> Pollable(t.fallback.value))
  }

  /** `ConnectingTcp::new`. */
  function NewRace(opts: DialOptions, addrs: seq<SocketAddr>, fallbackTimeout: Option<nat>): (t: Race)
    ensures t.opts == opts && t.preferred.cursor == 0 && t.preferred.current.None?
    ensures t.fallback.Some? ==> fallbackTimeout.Some? && t.fallback.value.cursor == 0 && t.fallback.value.current.None?
    ensures |addrs| > 0 ==> RacePollable(t)
  {
    if fallbackTimeout.Some? then
      var (preferredAddrs, fallbackAddrs) := SplitByPreference(addrs);
      if fallbackAddrs == [] then Race(opts, Remote(preferredAddrs, 0, None), None)
      else Race(opts, Remote(preferredAddrs, 0, None), Some(Remote(fallbackAddrs, 0, None)))
    else
      Race(opts, Remote(addrs, 0, None), None)
  }

  /** Without a timeout there is one dialer over the whole list, and no race. */
  lemma NoTimeoutNoRace(opts: DialOptions, addrs: seq<SocketAddr>)
    ensures NewRace(opts, addrs, None) == Race(opts, Remote(addrs, 0, None), None)
  {
  }

  /** With a timeout, a fallback dialer exists exactly when the list mixes address
      families; the two dialers split the list between them without losing or
      repeating an address, the preferred one taking the first address's family. */
  lemma RaceSplitsFamilies(opts: DialOptions, addrs: seq<SocketAddr>, timeout: nat)
    ensures var t := NewRace(opts, addrs, Some(timeout));
      && t.preferred == Remote(SplitByPreference(addrs).0, 0, None)
      && (t.fallback.Some? <==> exists a :: a in addrs && IsV6(a) != IsV6(addrs[0]))
      && multiset(t.preferred.addrs)
         + multiset(if t.fallback.Some? then t.fallback.value.addrs else []) == multiset(addrs)
      && (forall a :: a in t.preferred.addrs ==> IsV6(a) == IsV6(addrs[0]))
      && (t.fallback.Some? ==> t.fallback.value.cursor == 0 && t.fallback.value.current.None?)
  {
    SplitFallbackEmpty(addrs);
    SplitIsPartition(addrs);
  }

  /** One call of `ConnectingTcp::poll`: the preferred dialer is driven first; the
      fallback dialer only when the preferred one is pending and the delay has
      elapsed, or when the preferred one has failed and the fallback replaces it. */
  function RacePoll(t: Race, elapsed: bool, net: Network): (res: (Poll<Result<Socket, IoError>>, Race))
    requires RacePollable(t)
    ensures res.0.Pending? ==> RacePollable(res.1)
    ensures res.1.opts == t.opts
  {
    var (r, p) := Step(t.preferred, t.opts, net);
    match t.fallback
    case None => (r, t.(preferred := p))
    case Some(f) =>
      match r
      case Ready(Success(_)) => (r, t.(preferred := p, fallback := None))
      case Ready(Failure(_)) =>
        var (rf, f') := Step(f, t.opts, net);
        (rf, t.(preferred := f', fallback := None))
      case Pending =>
        if !elapsed then (Pending, t.(preferred := p))
        else
          var (rf, f') := Step(f, t.opts, net);
          match rf
          case Ready(Success(_)) => (rf, t.(preferred := f', fallback := None))
          case Pending => (Pending, t.(preferred := p, fallback := Some(f')))
          case Ready(Failure(_)) => (Pending, t.(preferred := p, fallback := None))
  }

  /** Tie-break: the preferred family wins whenever its dialer succeeds, whatever the
      fallback's delay and outcome; the fallback is dropped. */
  lemma PreferredSuccessWins(t: Race, elapsed: bool, net: Network)
    requires RacePollable(t)
    requires Step(t.preferred, t.opts, net).0.Ready? && Step(t.preferred, t.opts, net).0.value.Success?
    ensures RacePoll(t, elapsed, net) ==
              (Step(t.preferred, t.opts, net).0, t.(preferred := Step(t.preferred, t.opts, net).1, fallback := None))
  {
  }

  /** Preferred exhaustion promotes the fallback to preferred and polls it in the
      same call, whether or not the delay has elapsed. */
  lemma PreferredFailurePromotesFallback(t: Race, elapsed: bool, net: Network)
    requires RacePollable(t) && t.fallback.Some?
    requires Step(t.preferred, t.opts, net).0.Ready? && Step(t.preferred, t.opts, net).0.value.Failure?
    ensures RacePoll(t, elapsed, net) ==
              (Step(t.fallback.value, t.opts, net).0, Race(t.opts, Step(t.fallback.value, t.opts, net).1, None))
  {
  }

  /** While the preferred dialer is pending and the delay has not elapsed, the
      fallback dialer is kept exactly as it was and the poll is pending. */
  lemma FallbackWaitsForDelay(t: Race, net: Network)
    requires RacePollable(t) && t.fallback.Some?
    requires Step(t.preferred, t.opts, net).0.Pending?
    ensures RacePoll(t, false, net) == (Pending, t.(preferred := Step(t.preferred, t.opts, net).1))
  {
  }

  /** After the delay, a fallback success is returned and the fallback dialer
      replaces the preferred one; a fallback error is discarded: the poll is
      pending and only the preferred dialer remains. */
  lemma FallbackOutcome(t: Race, net: Network)
    requires RacePollable(t) && t.fallback.Some?
    requires Step(t.preferred, t.opts, net).0.Pending?
    ensures var (rf, f') := Step(t.fallback.value, t.opts, net);
      && (rf.Ready? && rf.value.Success? ==> RacePoll(t, true, net) == (rf, Race(t.opts, f', None)))
      && (rf.Ready? && rf.value.Failure? ==>
            RacePoll(t, true, net) == (Pending, Race(t.opts, Step(t.preferred, t.opts, net).1, None)))
      && (rf.Pending? ==>
            RacePoll(t, true, net) == (Pending, Race(t.opts, Step(t.preferred, t.opts, net).1, Some(f'))))
  {
  }

  /** The fallback survives a poll only on the two pending paths: it is `None`
      after every ready result. */
  lemma ReadyDropsFallback(t: Race, elapsed: bool, net: Network)
    requires RacePollable(t)
    requires RacePoll(t, elapsed, net).0.Ready?
    ensures RacePoll(t, elapsed, net).1.fallback.None?
  {
  }

  /** One poll's inputs: whether the fallback delay has elapsed, and the network. */
  datatype Tick = Tick(elapsed: bool, net: Network)

  /** Polling repeatedly, once per tick, until a poll is ready or the ticks run out. */
  function Run(t: Race, ticks: seq<Tick>): (res: (Poll<Result<Socket, IoError>>, Race))
    requires RacePollable(t)
    decreases |ticks|
  {
    if ticks == [] then (Pending, t)
    else
      var (r, t') := RacePoll(t, ticks[0].elapsed, ticks[0].net);
      if r.Ready? || |ticks| == 1 then (r, t') else Run(t', ticks[1..])
  }

  /** A coordinator without a fallback never acquires one: over any number of
      polls only the preferred dialer's list is ever dialed. */
  lemma {:induction false} SingleDialerStaysSingle(t: Race, ticks: seq<Tick>)
    requires RacePollable(t) && t.fallback.None?
    ensures Run(t, ticks).1.fallback.None?
    ensures Run(t, ticks).1.preferred.addrs == t.preferred.addrs
    decreases |ticks|
  {
    if ticks != [] {
      var (r, t') := RacePoll(t, ticks[0].elapsed, ticks[0].net);
      if !(r.Ready? || |ticks| == 1) {
        SingleDialerStaysSingle(t', ticks[1..]);
      }
    }
  }

  /** With no Happy Eyeballs timeout, however long the preferred dialer takes, no
      fallback is ever attempted: every address dialed comes from the one list. */
  lemma NoTimeoutNeverRaces(opts: DialOptions, addrs: seq<SocketAddr>, ticks: seq<Tick>)
    requires |addrs| > 0
    ensures RacePollable(NewRace(opts, addrs, None))
    ensures Run(NewRace(opts, addrs, None), ticks).1.fallback.None?
    ensures Run(NewRace(opts, addrs, None), ticks).1.preferred.addrs == addrs
  {
    SingleDialerStaysSingle(NewRace(opts, addrs, None), ticks);
  }

  /** As long as the delay has not elapsed, the fallback dialer is never polled:
      after any number of polls it is either exactly as it was built, or gone
      (promoted after a preferred failure, or dropped after a success). */
  lemma {:induction false} FallbackUntouchedBeforeDelay(t: Race, ticks: seq<Tick>)
    requires RacePollable(t)
    requires forall i :: 0 <= i < |ticks| ==> !ticks[i].elapsed
    ensures Run(t, ticks).1.fallback.None? || Run(t, ticks).1.fallback == t.fallback
    decreases |ticks|
  {
    if ticks != [] {
      var (r, t') := RacePoll(t, ticks[0].elapsed, ticks[0].net);
      if !(r.Ready? || |ticks| == 1) {
        FallbackUntouchedBeforeDelay(t', ticks[1..]);
      }
    }
  }

  /** `ConnectingTcp`: the coordinator as the source keeps it, owning its dialers. */
  class ConnectingTcp {
    const opts: DialOptions
    var preferred: ConnectingTcpRemote
    var fallback: Option<ConnectingTcpRemote>
    ghost var Repr: set<object>

    ghost predicate Valid()
      reads this, Repr
    {
      && this in Repr && preferred in Repr
      && (fallback.Some? ==> fallback.value in Repr && fallback.value != preferred)
      && Repr == {this, preferred} + (if fallback.Some? then {fallback.value} else {})
    }

    ghost function Model(): Race
      reads this, Repr
      requires Valid()
    {
      Race(opts, preferred.Model(), if fallback.Some? then Some(fallback.value.Model()) else None)
    }

    /** `ConnectingTcp::new`. */
    constructor (opts: DialOptions, addrs: seq<SocketAddr>, fallbackTimeout: Option<nat>)
      ensures Valid() && fresh(Repr)
      ensures Model() == NewRace(opts, addrs, fallbackTimeout)
    {
      this.opts := opts;
      if fallbackTimeout.Some? {
        var (preferredAddrs, fallbackAddrs) := SplitByPreference(addrs);
        preferred := new ConnectingTcpRemote(preferredAddrs);
        if fallbackAddrs == [] {
          fallback := None;
        } else {
          var remote := new ConnectingTcpRemote(fallbackAddrs);
          fallback := Some(remote);
        }
      } else {
        preferred := new ConnectingTcpRemote(addrs);
        fallback := None;
      }
      new;
      Repr := {this, preferred} + (if fallback.Some? then {fallback.value} else {});
    }

    /** `ConnectingTcp::poll`. */
    method Poll(elapsed: bool, net: Network) returns (r: Poll<Result<Socket, IoError>>)
      requires Valid() && RacePollable(Model())
      modifies Repr
      ensures Valid() && Repr <= old(Repr)
      ensures (r, Model()) == RacePoll(old(Model()), elapsed, net)
    {
      var taken := fallback;
      fallback := None;
      match taken {
        case None =>
          r := preferred.Poll(opts, net);
        case Some(f) =>
          r := preferred.Poll(opts, net);
          match r {
            case Ready(Success(_)) =>
              // preferred successful: drop the fallback
            case Pending =>
              if elapsed {
                var rf := f.Poll(opts, net);
                match rf {
                  case Ready(Success(_)) =>
                    // fallback successful: it becomes the preferred dialer
                    preferred := f;
                    r := rf;
                  case Pending =>
                    fallback := Some(f);
                  case Ready(Failure(_)) =>
                    // fallback failed: resume with the preferred dialer only
                }
              } else {
                // too early to attempt the fallback
                fallback := Some(f);
              }
            case Ready(Failure(_)) =>
              // preferred failed: the fallback becomes the preferred dialer
              preferred := f;
              r := preferred.Poll(opts, net);
          }
      }
      Repr := {this, preferred} + (if fallback.Some? then {fallback.value} else {});
    }
  }
}
