/**
 Interleavings.  A machine is a function `next(state, choice)`; a choice names the thread that the scheduler
 lets execute its next atomic statement, and a thread that cannot execute leaves the state as it is.  A run is
 any sequence of choices.
 */
module Runs {
  import opened Census

  function Exec<S, C>(next: (S, C) -> S, s: S, run: seq<C>): S {
    if run == [] then s else Exec(next, next(s, run[0]), run[1..])
  }

  /** The choices of a run at which the event `ev` happens, in order. */
  function Events<S, C>(next: (S, C) -> S, ev: (S, C) -> bool, s: S, run: seq<C>): seq<C> {
    if run == [] then []
    else (if ev(s, run[0]) then [run[0]] else []) + Events(next, ev, next(s, run[0]), run[1..])
  }

  /** How often thread `u` occurs in a log of events. */
  function Times(log: seq<nat>, u: nat): nat { multiset(log)[u] }

  lemma {:induction false} Always<S(!new), C(!new)>(next: (S, C) -> S, inv: S -> bool, s: S, run: seq<C>)
    requires inv(s)
    requires forall x, c {:trigger next(x, c)} :: inv(x) ==> inv(next(x, c))
    ensures inv(Exec(next, s, run))
  {
    if run == [] {
    } else {
      assert inv(next(s, run[0]));
      Always(next, inv, next(s, run[0]), run[1..]);
    }
  }

  /** What no step changes, no run changes. */
  lemma {:induction false} Conserved<S(!new), C(!new), Q>(
      next: (S, C) -> S, inv: S -> bool, q: S -> Q, s: S, run: seq<C>)
    requires inv(s)
    requires forall x, c {:trigger next(x, c)} :: inv(x) ==> inv(next(x, c)) && q(next(x, c)) == q(x)
    ensures q(Exec(next, s, run)) == q(s)
  {
    if run == [] {
    } else {
      Conserved(next, inv, q, next(s, run[0]), run[1..]);
    }
  }

  /** One more choice at the end of a run. */
  lemma {:induction false} Extend<S, C>(next: (S, C) -> S, s: S, run: seq<C>, c: C)
    ensures Exec(next, s, run + [c]) == next(Exec(next, s, run), c)
  {
    if run == [] {
      assert run + [c] == [c] && [c][1..] == [];
    } else {
      assert (run + [c])[0] == run[0] && (run + [c])[1..] == run[1..] + [c];
      Extend(next, next(s, run[0]), run[1..], c);
    }
  }

  /**
   Bounded work: when every effective step uses up at least one unit of `work`, a run has at most as many
   effective steps as there was work at its start.
   */
  lemma {:induction false} WorkBoundsSteps<S(!new), C(!new)>(
      next: (S, C) -> S, ev: (S, C) -> bool, inv: S -> bool, work: S -> nat, s: S, run: seq<C>)
    requires inv(s)
    requires forall x, c {:trigger next(x, c)} :: inv(x) ==> inv(next(x, c))
    requires forall x, c {:trigger next(x, c)} :: inv(x) ==> work(next(x, c)) + (if ev(x, c) then 1 else 0) <= work(x)
    ensures |Events(next, ev, s, run)| + work(Exec(next, s, run)) <= work(s)
  {
    if run == [] {
    } else {
      assert inv(next(s, run[0]));
      WorkBoundsSteps(next, ev, inv, work, next(s, run[0]), run[1..]);
    }
  }

  /** Metering: when every event `ev` takes one unit off `meter` and nothing else moves it, it counts the events. */
  lemma {:induction false} Metered<S(!new), C(!new)>(
      next: (S, C) -> S, ev: (S, C) -> bool, inv: S -> bool, meter: S -> int, s: S, run: seq<C>)
    requires inv(s)
    requires forall x, c {:trigger next(x, c)} :: inv(x) ==> inv(next(x, c))
    requires forall x, c {:trigger next(x, c)} :: inv(x) ==> meter(next(x, c)) + (if ev(x, c) then 1 else 0) == meter(x)
    ensures |Events(next, ev, s, run)| + meter(Exec(next, s, run)) == meter(s)
  {
    if run == [] {
    } else {
      assert inv(next(s, run[0]));
      Metered(next, ev, inv, meter, next(s, run[0]), run[1..]);
    }
  }

  /** One step of emptying a room. */
  ghost predicate Leaves<S, C>(next: (S, C) -> S, inv: S -> bool, stop: (S, C) -> bool,
      barred: (S, C) -> bool, ev: (S, C) -> bool, room: S -> set<C>, x: S, c: C)
  {
    inv(x) && !stop(x, c) ==>
      && inv(next(x, c)) && !barred(x, c)
      && (ev(x, c) ==> c in room(x))
      && room(next(x, c)) == room(x) - (if ev(x, c) then {c} else {})
  }

  /**
   Emptying a room: as long as `stop` does not happen, `barred` does not happen either, and each event `ev` takes its
   thread out of `room`, into which nobody comes.  Then the events are threads that were in the room, each at most once.
   */
  lemma {:induction false} Drains<S(!new), C(!new)>(next: (S, C) -> S, inv: S -> bool, stop: (S, C) -> bool,
      barred: (S, C) -> bool, ev: (S, C) -> bool, room: S -> set<C>, s: S, run: seq<C>)
    requires inv(s) && Events(next, stop, s, run) == []
    requires forall x, c :: Leaves(next, inv, stop, barred, ev, room, x, c)
    ensures inv(Exec(next, s, run)) && Events(next, barred, s, run) == []
    ensures multiset(Events(next, ev, s, run)) + multiset(room(Exec(next, s, run))) == multiset(room(s))
  {
    if run == [] {
    } else {
      var c, s', rest := run[0], next(s, run[0]), run[1..];
      assert Leaves(next, inv, stop, barred, ev, room, s, c);
      assert !stop(s, c) && Events(next, stop, s', rest) == [];
      Drains(next, inv, stop, barred, ev, room, s', rest);
      assert Events(next, barred, s, run) == [];
      assert multiset(room(s)) == multiset(if ev(s, c) then [c] else []) + multiset(room(s'));
    }
  }

  /**
   A budget: until thread `t` has its event, each event of thread `u` uses up one unit of `budget`, and no step adds
   to it.
   */
  lemma {:induction false} Budgeted<S(!new)>(next: (S, nat) -> S, inv: S -> bool, ev: (S, nat) -> bool,
      budget: S -> nat, t: nat, u: nat, s: S, run: seq<nat>)
    requires inv(s) && t !in Events(next, ev, s, run)
    requires forall x, c: nat {:trigger next(x, c)} :: inv(x) && !(c == t && ev(x, c)) ==>
      inv(next(x, c)) && budget(next(x, c)) + (if c == u && ev(x, c) then 1 else 0) <= budget(x)
    ensures Times(Events(next, ev, s, run), u) <= budget(s)
    decreases |run|
  {
    if run == [] {
    } else {
      var tail := Events(next, ev, next(s, run[0]), run[1..]);
      assert forall c :: c in tail ==> c in Events(next, ev, s, run);
      assert !(run[0] == t && ev(s, t));
      Budgeted(next, inv, ev, budget, t, u, next(s, run[0]), run[1..]);
    }
  }

  /** A log of threads below `n` other than `t`, each at most `k` times, has at most `k * (n - 1)` entries. */
  lemma AtMostEach(log: seq<nat>, n: nat, t: nat, k: nat)
    requires t < n && t !in log
    requires forall x: nat :: x in log ==> x < n
    requires forall u: nat :: Times(log, u) <= k
    ensures |log| <= k * (n - 1)
  {
    forall u | u in multiset(log) ensures u in Below(n) - {t} && multiset(log)[u] <= k {
      assert u in log && Times(log, u) <= k;
    }
    Multiplicity(multiset(log), Below(n) - {t}, k);
    assert |multiset(log)| == |log|;
  }

  // ---------- overtaking ----------

  /**
   The run from `s` to `end` consists of steps of thread `c`, in which it has the event `ev` that many times, and of
   turns of thread `t`, none of which it can use.
   */
  ghost predicate Overtakes<S>(next: (S, nat) -> S, can: (S, nat) -> bool, ev: (S, nat) -> bool, t: nat, c: nat,
      s: S, run: seq<nat>, entries: nat, turns: nat, end: S)
  {
    && Exec(next, s, run) == end
    && Times(Events(next, ev, s, run), c) == |Events(next, ev, s, run)| == entries
    && t !in Events(next, can, s, run)
    && Times(run, t) == turns && (forall x: nat :: x in run ==> x == t || x == c)
  }

  lemma OvertakeStep<S>(next: (S, nat) -> S, can: (S, nat) -> bool, ev: (S, nat) -> bool, t: nat, c: nat,
      s: S, run: seq<nat>, entries: nat, turns: nat, end: S)
    requires Overtakes(next, can, ev, t, c, next(s, c), run, entries, turns, end) && c != t
    ensures Overtakes(next, can, ev, t, c, s, [c] + run, entries + One(ev(s, c)), turns, end)
  {
    assert ([c] + run)[0] == c && ([c] + run)[1..] == run;
  }

  lemma OvertakeTurn<S>(next: (S, nat) -> S, can: (S, nat) -> bool, ev: (S, nat) -> bool, t: nat, c: nat,
      s: S, run: seq<nat>, entries: nat, turns: nat, end: S)
    requires Overtakes(next, can, ev, t, c, s, run, entries, turns, end)
    requires !can(s, t) && !ev(s, t) && next(s, t) == s
    ensures Overtakes(next, can, ev, t, c, s, [t] + run, entries, turns + 1, end)
  {
    assert ([t] + run)[0] == t && ([t] + run)[1..] == run;
  }
}
