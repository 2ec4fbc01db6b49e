/**
 * The trailing-edge `debounce(func, delay)` of anime/src/search.jsx: one
 * pending slot (the `timeout` variable); each call clears the pending timer
 * and schedules its own arguments, and when the timer expires `func` runs
 * once with them. Wall-clock time is not modelled: `Tick` is the moment the
 * pending timer expires.
 */
module Debounce {
  import opened Wrappers

  datatype Event<A> = Call(args: A) | Tick

  /** The pending arguments after a run of events. */
  function PendingAfter<A>(pending: Option<A>, events: seq<Event<A>>): Option<A>
    decreases |events|
  {
    if events == [] then pending
    else PendingAfter(match events[0] case Call(a) => Some(a) case Tick => None, events[1..])
  }

  /** The arguments `func` is invoked with, in order, during a run of events. */
  function Replay<A>(pending: Option<A>, events: seq<Event<A>>): seq<A>
    decreases |events|
  {
    if events == [] then []
    else match events[0]
      case Call(a) => Replay(Some(a), events[1..])
      case Tick => (if pending.Some? then [pending.value] else []) + Replay(None, events[1..])
  }

  /** What one more event adds: a call replaces the slot; a tick empties it and fires what it held. */
  lemma {:induction false} ReplaySnoc<A>(pending: Option<A>, events: seq<Event<A>>, e: Event<A>)
    ensures PendingAfter(pending, events + [e]) == (if e.Call? then Some(e.args) else None)
    ensures Replay(pending, events + [e]) ==
      Replay(pending, events) +
      (if e.Tick? && PendingAfter(pending, events).Some? then [PendingAfter(pending, events).value] else [])
    decreases |events|
  {
    if events != [] {
      assert (events + [e])[1..] == events[1..] + [e];
      var next := match events[0] case Call(a) => Some(a) case Tick => None;
      ReplaySnoc(next, events[1..], e);
    }
  }

  /** The slot holds the arguments of the last event when that was a call, and nothing after a tick. */
  lemma PendingIsLastCall<A>(pending: Option<A>, events: seq<Event<A>>)
    requires events != []
    ensures PendingAfter(pending, events) ==
      (if events[|events| - 1].Call? then Some(events[|events| - 1].args) else None)
  {
    var n := |events| - 1;
    assert events == events[..n] + [events[n]];
    ReplaySnoc(pending, events[..n], events[n]);
  }

  function Calls<A>(args: seq<A>): (events: seq<Event<A>>)
    ensures |events| == |args|
    ensures forall i :: 0 <= i < |args| ==> events[i] == Call(args[i])
  {
    if args == [] then [] else [Call(args[0])] + Calls(args[1..])
  }

  /** A burst of calls followed by the timer firing runs `func` once, with the most recent call's arguments. */
  lemma {:induction false} BurstFiresLast<A>(pending: Option<A>, args: seq<A>)
    requires args != []
    ensures Replay(pending, Calls(args) + [Tick]) == [args[|args| - 1]]
    decreases |args|
  {
    if |args| == 1 {
      assert Calls(args) + [Tick] == [Call(args[0]), Tick];
      assert Replay(Some(args[0]), [Tick]) == [args[0]] + Replay(None, []);
    } else {
      assert (Calls(args) + [Tick])[1..] == Calls(args[1..]) + [Tick];
      BurstFiresLast(Some(args[0]), args[1..]);
    }
  }

  /** The number of ticks in a run of events. */
  function Ticks<A>(events: seq<Event<A>>): nat {
    if events == [] then 0 else (if events[0].Tick? then 1 else 0) + Ticks(events[1..])
  }

  /**
   * At most one invocation per tick, and every invocation uses the arguments
   * of some call in the run (or of what was already pending).
   */
  lemma {:induction false} ReplayFromCalls<A>(pending: Option<A>, events: seq<Event<A>>)
    ensures |Replay(pending, events)| <= Ticks(events)
    ensures forall x :: x in Replay(pending, events) ==> Call(x) in events || pending == Some(x)
    decreases |events|
  {
    if events != [] {
      var next := match events[0] case Call(a) => Some(a) case Tick => None;
      ReplayFromCalls(next, events[1..]);
      forall x | x in Replay(pending, events)
        ensures Call(x) in events || pending == Some(x)
      {
        if Call(x) in events[1..] {
          assert Call(x) in events;
        } else if events[0].Call? {
          assert Call(x) == events[0];
        }
      }
    }
  }

  /** The debounced wrapper: the pending slot, with the history of events it has seen. */
  class Debouncer<A> {
    var pending: Option<A>
    ghost var history: seq<Event<A>>
    ghost var fired: seq<A>

    ghost predicate Valid()
      reads this
    {
      pending == PendingAfter(None, history) && fired == Replay(None, history)
    }

    constructor ()
      ensures Valid() && pending == None && history == [] && fired == []
    {
      pending := None;
      history := [];
      fired := [];
    }

    /** Calling the debounced function: `clearTimeout(timeout); timeout = setTimeout(...)`. */
    method Invoke(args: A)
      requires Valid()
      modifies this
      ensures Valid()
      ensures pending == Some(args)
      ensures history == old(history) + [Call(args)] && fired == old(fired)
    {
      ReplaySnoc(None, history, Call(args));
      pending := Some(args);
      history := history + [Call(args)];
    }

    /** The pending timer expires: return the arguments `func` now runs with, if any. */
    method Elapse() returns (run: Option<A>)
      requires Valid()
      modifies this
      ensures Valid()
      ensures run == old(pending) && pending == None
      ensures history == old(history) + [Tick]
      ensures fired == old(fired) + (if run.Some? then [run.value] else [])
    {
      ReplaySnoc(None, history, Tick);
      run := pending;
      pending := None;
      history := history + [Tick];
      fired := fired + (if run.Some? then [run.value] else []);
    }
  }
}
