/** The drain (graceful-shutdown) barrier: a `Signal` whose `drain` closes a
    broadcast that every `Watch` observes, and a `Draining` future that completes
    once no `Watch` handle is left alive. `Watching` wraps a task so that its
    `on_drain` callback runs once, on the first poll that sees the broadcast closed. */
module Drain {
  import opened Wrappers

  /** The two channels one `channel()` call creates, shared by the `Signal`, the
      `Draining` it becomes, and every `Watch`: the broadcast, open until the
      signal is drained, and the completion channel, whose senders are the live
      `Watch` handles. */
  class Channels {
    var open: bool
    var senders: set<Watch>

    constructor ()
      ensures open && senders == {}
    {
      open := true;
      senders := {};
    }
  }

  /** The shutdown side: drains once. */
  class Signal {
    const chan: Channels
    /** Whether `drain` has consumed this signal. */
    ghost var drained: bool

    constructor (chan: Channels)
      ensures this.chan == chan && !drained
    {
      this.chan := chan;
      drained := false;
    }

    /** `Signal::drain`: dropping the broadcast sender closes the broadcast; the
        returned future holds only the completion receiver. */
    method Drain() returns (d: Draining)
      requires !drained
      modifies this, chan
      ensures drained && fresh(d) && d.chan == chan
      ensures !chan.open && chan.senders == old(chan.senders)
    {
      chan.open := false;
      drained := true;
      d := new Draining(chan);
    }
  }

  /** The future a drained signal becomes. */
  class Draining {
    const chan: Channels

    constructor (chan: Channels)
      ensures this.chan == chan
    {
      this.chan := chan;
    }

    /** `Draining::poll`: ready exactly when the completion channel has no sender
        left, that is when every `Watch` handle has been dropped. */
    method Poll() returns (r: Poll<()>)
      ensures r == if chan.senders == {} then Ready(()) else Pending
    {
      r := if chan.senders == {} then Ready(()) else Pending;
    }
  }

  /** A watcher's handle: a broadcast receiver and a completion sender. The handle
      is live while its sender is in `chan.senders`; `watch` moves it into a
      `Watching`, after which only that wrapper can release it. */
  class Watch {
    const chan: Channels
    /** Whether `watch` has moved this handle into a `Watching`. */
    ghost var wrapped: bool

    constructor (chan: Channels)
      ensures this.chan == chan && !wrapped
    {
      this.chan := chan;
      wrapped := false;
    }

    /** The handle is still held directly by its owner: not dropped, not moved. */
    ghost predicate Owned()
      reads this, chan
    {
      this in chan.senders && !wrapped
    }

    /** Cloning a live handle adds one more completion sender. */
    method Clone() returns (w: Watch)
      requires Owned()
      modifies chan
      ensures fresh(w) && w.chan == chan && w.Owned()
      ensures chan.senders == old(chan.senders) + {w} && chan.open == old(chan.open)
    {
      w := new Watch(chan);
      chan.senders := chan.senders + {w};
    }

    /** Dropping a handle releases its completion sender; other watchers are unaffected. */
    method Drop()
      requires Owned()
      modifies chan
      ensures chan.senders == old(chan.senders) - {this} && chan.open == old(chan.open)
    {
      chan.senders := chan.senders - {this};
    }

    /** `Watch::watch`: moves this handle, with the future and the callback, into
        a new wrapper; the handle can no longer be cloned, dropped or wrapped again
        except through that wrapper. */
    method Watch<FN>(future: Task, onDrain: FN) returns (w: Watching<FN>)
      requires Owned()
      modifies this
      ensures wrapped && fresh(w) && w.future == future && w.watch == this
      ensures w.state == Armed(onDrain) && w.notified == 0 && w.Valid()
    {
      wrapped := true;
      w := new Watching(future, onDrain, this);
    }
  }

  /** `channel()`: a signal and its first watch over fresh channels; the broadcast
      starts open and the one watch is the only completion sender. */
  method Channel() returns (signal: Signal, watch: Watch)
    ensures fresh(signal) && fresh(watch) && fresh(signal.chan)
    ensures watch.chan == signal.chan && !signal.drained && !watch.wrapped
    ensures signal.chan.open && signal.chan.senders == {watch}
  {
    var chan := new Channels();
    signal := new Signal(chan);
    watch := new Watch(chan);
    chan.senders := {watch};
  }

  /** What happens to a task, in order: the drain callback, or a poll that saw the
      task's drain flag as it then was. */
  datatype TaskEvent = DrainCallback | Polled(sawDraining: bool)

  /** The inner future: a poll counter, the flag the drain callback sets, and
      whether it has finished. */
  class Task {
    var pollCount: nat
    var draining: bool
    var finished: bool
    ghost var trace: seq<TaskEvent>

    constructor ()
      ensures pollCount == 0 && !draining && !finished && trace == []
    {
      pollCount := 0;
      draining := false;
      finished := false;
      trace := [];
    }

    method Poll() returns (r: Poll<()>)
      modifies this
      ensures pollCount == old(pollCount) + 1 && draining == old(draining) && finished == old(finished)
      ensures trace == old(trace) + [Polled(draining)]
      ensures r == if finished then Ready(()) else Pending
    {
      pollCount := pollCount + 1;
      trace := trace + [Polled(draining)];
      r := if finished then Ready(()) else Pending;
    }

    /** The drain callback's effect on the task: it starts draining. */
    method OnDrain()
      modifies this
      ensures draining && pollCount == old(pollCount) && finished == old(finished)
      ensures trace == old(trace) + [DrainCallback]
    {
      draining := true;
      trace := trace + [DrainCallback];
    }
  }

  /** `Watching`'s state: `Armed` (the source's `State::Watch`) still holds the
      callback; `Fired` (the source's `State::Draining`) once it has been taken. */
  datatype State<FN> = Armed(onDrain: FN) | Fired

  /** One poll's handling of the drain notification: whether the callback runs,
      and the new state, given whether the poll observes the broadcast closed. */
  function Notice<FN>(st: State<FN>, closed: bool): (res: (bool, State<FN>))
    ensures res.0 <==> st.Armed? && closed
    ensures res.1.Fired? <==> st.Fired? || closed
    ensures res.1.Armed? ==> res.1 == st
  {
    match st
    case Armed(_) => if closed then (true, Fired) else (false, st)
    case Fired => (false, Fired)
  }

  /** Over a run of polls, whether the callback runs on each; `closed[i]` says
      whether poll `i` observes the broadcast closed. */
  function Firings<FN>(st: State<FN>, closed: seq<bool>): (fired: seq<bool>)
    ensures |fired| == |closed|
    decreases |closed|
  {
    if closed == [] then []
    else
      var (fires, st') := Notice(st, closed[0]);
      [fires] + Firings(st', closed[1..])
  }

  /** Once fired, the callback never runs again, however often the task is polled. */
  lemma {:induction false} FiredNeverFires<FN>(closed: seq<bool>)
    ensures forall i :: 0 <= i < |closed| ==> !Firings<FN>(Fired, closed)[i]
  {
    if closed != [] {
      FiredNeverFires<FN>(closed[1..]);
    }
  }

  /** Poll `i` is the first in the run to observe the broadcast closed. */
  predicate FirstClosed(closed: seq<bool>, i: nat)
    requires i < |closed|
  {
    closed[i] && forall k :: 0 <= k < i ==> !closed[k]
  }

  /** Edge trigger: from `Armed`, the callback runs on poll `i` exactly when poll
      `i` is the first to observe the broadcast closed. */
  lemma {:induction false} FiresOnFirstClosedPoll<FN>(cb: FN, closed: seq<bool>)
    ensures forall i :: 0 <= i < |closed| ==> (Firings(Armed(cb), closed)[i] <==> FirstClosed(closed, i))
  {
    if closed != [] {
      if closed[0] {
        FiredNeverFires<FN>(closed[1..]);
      } else {
        FiresOnFirstClosedPoll(cb, closed[1..]);
        forall i | 1 <= i < |closed|
          ensures FirstClosed(closed, i) <==> FirstClosed(closed[1..], i - 1)
        {
          if FirstClosed(closed[1..], i - 1) {
            forall k | 0 <= k < i ensures !closed[k] {
              if k > 0 { assert closed[k] == closed[1..][k - 1]; }
            }
          }
        }
      }
    }
  }

  /** The callback runs at most once over any run of polls. */
  lemma AtMostOnce<FN>(st: State<FN>, closed: seq<bool>)
    ensures forall i, j :: 0 <= i < j < |closed| && Firings(st, closed)[i] ==> !Firings(st, closed)[j]
  {
    if st.Armed? {
      FiresOnFirstClosedPoll(st.onDrain, closed);
    } else {
      FiredNeverFires<FN>(closed);
    }
  }

  /** `Watching`: a task, its callback state, and the watch handle it keeps alive. */
  class Watching<FN> {
    const future: Task
    var state: State<FN>
    const watch: Watch
    /** How many times the callback has run. */
    ghost var notified: nat

    ghost predicate Valid()
      reads this
    {
      notified <= 1 && (state.Fired? <==> notified == 1)
    }

    constructor (future: Task, onDrain: FN, watch: Watch)
      ensures this.future == future && this.watch == watch
      ensures state == Armed(onDrain) && notified == 0 && Valid()
    {
      this.future := future;
      this.watch := watch;
      state := Armed(onDrain);
      notified := 0;
    }

    /** `Watching::poll`: the callback runs when this poll is the first to see the
        broadcast closed, before the task is polled; the task is polled exactly
        once on every call and its result is the result. */
    method Poll() returns (r: Poll<()>)
      requires Valid()
      modifies this, future
      ensures Valid()
      ensures var (fires, st') := Notice(old(state), !watch.chan.open);
        && state == st'
        && notified == old(notified) + (if fires then 1 else 0)
        && future.trace == old(future.trace) + (if fires then [DrainCallback] else []) + [Polled(future.draining)]
        && future.draining == (old(future.draining) || fires)
      ensures future.pollCount == old(future.pollCount) + 1 && future.finished == old(future.finished)
      ensures r == if future.finished then Ready(()) else Pending
    {
      while true
        invariant Valid()
        invariant state == old(state) || (old(state).Armed? && !watch.chan.open && state == Fired)
        invariant state == old(state) ==>
          future.trace == old(future.trace) && future.draining == old(future.draining) && notified == old(notified)
        invariant state != old(state) ==>
          future.trace == old(future.trace) + [DrainCallback] && future.draining && notified == old(notified) + 1
        invariant future.pollCount == old(future.pollCount) && future.finished == old(future.finished)
        decreases if state.Armed? then 1 else 0
      {
        var taken := state;
        state := Fired;
        if taken.Armed? {
          if !watch.chan.open {
            // the broadcast is closed: drain has been triggered
            future.OnDrain();
            notified := notified + 1;
          } else {
            state := taken;
            r := future.Poll();
            return;
          }
        } else {
          r := future.Poll();
          return;
        }
      }
    }

    /** Dropping the wrapper drops the handle moved into it; it can be dropped once. */
    method Drop()
      requires watch in watch.chan.senders
      modifies watch.chan
      ensures watch.chan.senders == old(watch.chan.senders) - {watch} && watch.chan.open == old(watch.chan.open)
    {
      watch.chan.senders := watch.chan.senders - {watch};
    }
  }

  /** The single-watcher scenario: the task is polled on every poll; the drain is
      noticed only by the next poll, whose callback runs before the task's poll;
      draining waits until the wrapper is dropped, even after the task finished. */
  method SingleWatcherScenario()
    returns (pollCounts: seq<nat>, results: seq<Poll<()>>, drainingSeen: seq<bool>,
             drainedBeforeDrop: bool, drainedAfterDrop: bool)
    ensures pollCounts == [0, 1, 2, 2, 3, 4]
    ensures results == [Pending, Pending, Pending, Ready(())]
    ensures drainingSeen == [false, true]
    ensures !drainedBeforeDrop && drainedAfterDrop
  {
    var signal, watch := Channel();
    var task := new Task();
    var watching := watch.Watch(task, ());
    pollCounts := [task.pollCount];
    var r := watching.Poll();
    results := [r];
    pollCounts := pollCounts + [task.pollCount];
    r := watching.Poll();
    results := results + [r];
    pollCounts := pollCounts + [task.pollCount];
    var draining := signal.Drain();
    drainingSeen := [task.draining];
    pollCounts := pollCounts + [task.pollCount];
    r := watching.Poll();
    results := results + [r];
    pollCounts := pollCounts + [task.pollCount];
    drainingSeen := drainingSeen + [task.draining];
    var d := draining.Poll();
    drainedBeforeDrop := d.Ready?;
    task.finished := true;
    r := watching.Poll();
    results := results + [r];
    pollCounts := pollCounts + [task.pollCount];
    watching.Drop();
    d := draining.Poll();
    drainedAfterDrop := d.Ready?;
  }

  /** The two-watcher scenario: draining stays pending while either watcher is
      alive and completes once both are dropped. */
  method TwoWatchersScenario() returns (afterDrain: Poll<()>, afterFirstDrop: Poll<()>, afterSecondDrop: Poll<()>)
    ensures afterDrain == Pending && afterFirstDrop == Pending && afterSecondDrop == Ready(())
  {
    var signal, watch := Channel();
    var first := new Task();
    var second := new Task();
    var clone := watch.Clone();
    var watching1 := clone.Watch(first, ());
    var watching2 := watch.Watch(second, ());
    var draining := signal.Drain();
    afterDrain := draining.Poll();
    watching1.Drop();
    afterFirstDrop := draining.Poll();
    watching2.Drop();
    afterSecondDrop := draining.Poll();
  }

  /** With `n` watch handles (the original and `n - 1` clones), draining stays
      pending until exactly `n` handles have been dropped, then completes. */
  method DrainWaitsForEveryWatch(n: nat) returns (polls: seq<Poll<()>>)
    requires n > 0
    ensures |polls| == n + 1
    ensures forall i :: 0 <= i < n ==> polls[i] == Pending
    ensures polls[n] == Ready(())
  {
    var signal, watch := Channel();
    var watches := [watch];
    while |watches| < n
      invariant 0 < |watches| <= n && watches[0] == watch
      invariant watch.chan == signal.chan && !signal.drained
      invariant forall i :: 0 <= i < |watches| ==> watches[i].chan == signal.chan && watches[i].Owned()
      invariant forall i, j :: 0 <= i < j < |watches| ==> watches[i] != watches[j]
      invariant |signal.chan.senders| == |watches|
    {
      var w := watch.Clone();
      watches := watches + [w];
    }
    var draining := signal.Drain();
    polls := [];
    var k := 0;
    while k < n
      invariant 0 <= k <= n && |polls| == k && draining.chan == signal.chan
      invariant forall i :: 0 <= i < k ==> polls[i] == Pending
      invariant forall i :: 0 <= i < n ==> watches[i].chan == signal.chan && !watches[i].wrapped
      invariant forall i :: k <= i < n ==> watches[i] in signal.chan.senders
      invariant |signal.chan.senders| == n - k
    {
      var p := draining.Poll();
      polls := polls + [p];
      watches[k].Drop();
      k := k + 1;
    }
    var p := draining.Poll();
    polls := polls + [p];
  }
}
