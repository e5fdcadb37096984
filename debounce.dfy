/**
 * A trailing-edge debouncer, as the editor's autosave is wrapped
 * (`debounce(fn, 3000)`): every call replaces the pending argument and
 * restarts the quiet period; when the clock reaches the deadline the
 * pending argument is delivered once. Time is an abstract millisecond
 * counter supplied by the caller.
 */
module Debounce {
  import opened Wrappers

  /** At most one pending argument, due at `deadline`. */
  datatype State<T> = State(pending: Option<T>, deadline: int)

  /** Calling the debounced function at `now`. */
  function Invoke<T>(s: State<T>, arg: T, now: int, wait: nat): (r: State<T>)
    ensures r.pending == Some(arg) && r.deadline == now + wait
  {
    State(Some(arg), now + wait)
  }

  /** The clock advancing to `now`: a due pending argument is delivered and cleared. */
  function Advance<T>(s: State<T>, now: int): (r: (State<T>, Option<T>))
    ensures s.pending.Some? && s.deadline <= now ==> r.1 == s.pending && r.0.pending.None?
    ensures !(s.pending.Some? && s.deadline <= now) ==> r == (s, None)
  {
    if s.pending.Some? && s.deadline <= now then (State(None, s.deadline), s.pending) else (s, None)
  }

  /** Two calls leave only the later one pending: the single-instance guarantee. */
  lemma InvokeSupersedes<T>(s: State<T>, a: T, b: T, t1: int, t2: int, wait: nat)
    ensures Invoke(Invoke(s, a, t1, wait), b, t2, wait) == Invoke(s, b, t2, wait)
  {
  }

  datatype Event<T> = Edit(at: int, arg: T) | Tick(at: int)

  function Step<T>(s: State<T>, e: Event<T>, wait: nat): (State<T>, Option<T>) {
    match e
    case Edit(t, a) => (Invoke(s, a, t, wait), None)
    case Tick(t) => Advance(s, t)
  }

  /** Runs a trace of events; the second component lists the delivered arguments in order. */
  function Run<T>(s: State<T>, events: seq<Event<T>>, wait: nat): (State<T>, seq<T>)
    decreases |events|
  {
    if events == [] then (s, [])
    else
      var (s1, fired) := Step(s, events[0], wait);
      var (s2, rest) := Run(s1, events[1..], wait);
      (s2, (if fired.Some? then [fired.value] else []) + rest)
  }

  /** A burst of edits: before each edit the clock advances to that edit's time. */
  function Burst<T>(edits: seq<(int, T)>): (r: seq<Event<T>>)
    ensures |r| == 2 * |edits|
  {
    if edits == [] then [] else [Tick(edits[0].0), Edit(edits[0].0, edits[0].1)] + Burst(edits[1..])
  }

  /** Consecutive edits are less than `wait` apart. */
  predicate Dense<T>(edits: seq<(int, T)>, wait: nat) {
    forall i :: 0 < i < |edits| ==> edits[i - 1].0 <= edits[i].0 < edits[i - 1].0 + wait
  }

  /**
   * A dense burst that starts before any earlier pending call is due
   * delivers nothing while it lasts and leaves exactly its last argument
   * pending, due `wait` after the last edit.
   */
  lemma {:induction false} BurstLeavesLastPending<T>(s: State<T>, edits: seq<(int, T)>, wait: nat)
    requires edits != [] && Dense(edits, wait)
    requires s.pending.Some? ==> edits[0].0 < s.deadline
    ensures Run(s, Burst(edits), wait) == (State(Some(edits[|edits| - 1].1), edits[|edits| - 1].0 + wait), [])
    decreases |edits|
  {
    var s1 := Invoke(s, edits[0].1, edits[0].0, wait);
    var ev := Burst(edits);
    assert ev[0] == Tick(edits[0].0) && ev[1..][0] == Edit(edits[0].0, edits[0].1);
    assert ev[1..][1..] == Burst(edits[1..]);
    assert Step(s, ev[0], wait) == (s, None);
    assert Step(s, ev[1..][0], wait) == (s1, None);
    var after := Run(s1, Burst(edits[1..]), wait);
    assert Run(s, ev[1..], wait).0 == after.0 && Run(s, ev[1..], wait).1 == [] + after.1;
    assert Run(s, ev, wait).0 == after.0 && Run(s, ev, wait).1 == [] + ([] + after.1);
    assert [] + ([] + after.1) == after.1;
    if |edits| > 1 {
      var tail := edits[1..];
      assert Dense(tail, wait) by {
        forall i | 0 < i < |tail| ensures tail[i - 1].0 <= tail[i].0 < tail[i - 1].0 + wait {
          assert tail[i - 1] == edits[i] && tail[i] == edits[i + 1];
        }
      }
      assert edits[1].0 < edits[0].0 + wait;
      BurstLeavesLastPending(s1, tail, wait);
    }
  }

  /**
   * After a dense burst from an idle state, a tick at or after the last
   * edit's deadline delivers exactly one argument, the last one; an
   * earlier tick delivers nothing.
   */
  lemma BurstThenQuiet<T>(edits: seq<(int, T)>, wait: nat, t: int)
    requires edits != [] && Dense(edits, wait)
    ensures var s0: State<T> := State(None, 0);
      var last := edits[|edits| - 1];
      Run(s0, Burst(edits) + [Tick(t)], wait).1 == if last.0 + wait <= t then [last.1] else []
  {
    var s0: State<T> := State(None, 0);
    BurstLeavesLastPending(s0, edits, wait);
    RunAppend(s0, Burst(edits), [Tick(t)], wait);
  }

  /** Running two traces one after the other. */
  lemma {:induction false} RunAppend<T>(s: State<T>, a: seq<Event<T>>, b: seq<Event<T>>, wait: nat)
    ensures Run(s, a + b, wait) == (Run(Run(s, a, wait).0, b, wait).0, Run(s, a, wait).1 + Run(Run(s, a, wait).0, b, wait).1)
    decreases |a|
  {
    if a == [] {
      assert a + b == b;
      assert Run(s, a, wait) == (s, []);
      assert [] + Run(s, b, wait).1 == Run(s, b, wait).1;
    } else {
      assert (a + b)[0] == a[0] && (a + b)[1..] == a[1..] + b;
      var (s1, fired) := Step(s, a[0], wait);
      RunAppend(s1, a[1..], b, wait);
      var f := if fired.Some? then [fired.value] else [];
      var mid := Run(s1, a[1..], wait);
      assert Run(s, a, wait) == (mid.0, f + mid.1);
      assert Run(s, a + b, wait) == (Run(mid.0, b, wait).0, f + (mid.1 + Run(mid.0, b, wait).1));
      assert f + (mid.1 + Run(mid.0, b, wait).1) == (f + mid.1) + Run(mid.0, b, wait).1;
    }
  }

  /** The debouncer instance: the pending argument and its deadline, updated in place. */
  class Debouncer<T> {
    const wait: nat
    var pending: Option<T>
    var deadline: int

    constructor (wait: nat)
      ensures this.wait == wait && pending.None?
    {
      this.wait := wait;
      pending := None;
      deadline := 0;
    }

    method Call(arg: T, now: int)
      modifies this
      ensures State(pending, deadline) == Invoke(old(State(pending, deadline)), arg, now, wait)
    {
      pending := Some(arg);
      deadline := now + wait;
    }

    method AdvanceTo(now: int) returns (fired: Option<T>)
      modifies this
      ensures (State(pending, deadline), fired) == Advance(old(State(pending, deadline)), now)
    {
      if pending.Some? && deadline <= now {
        fired := pending;
        pending := None;
      } else {
        fired := None;
      }
    }
  }
}
