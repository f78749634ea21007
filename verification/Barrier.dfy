/**
 The one-shot barrier: N threads call `barrier` once each.  The test of `count` is made outside `mutex`, so several
 threads may find it complete and open the barrier.
 */
module Barrier {
  import opened Census
  import opened Runs

  /** Program counters, with source lines; `reg` is the value last loaded. */
  datatype Pc =
    | WaitMutex          // 44
    | LoadCount          // 45
    | StoreCount(reg: int) // 45
    | PostMutex          // 46
    | TestCount          // 47
    | Open               // 48
    | WaitBarrier        // 50
    | PassOn             // 52
    | Done

  /** `opener` records whether the thread executed line 48; no step reads it. */
  datatype Thread = Thread(pc: Pc, opener: bool)

  /** The fields of the barrier; `total` is its field `threads`, the number it waits for. */
  datatype Memory = Memory(total: nat, count: int, mutex: int, barrier: int)

  datatype State = State(m: Memory, threads: seq<Thread>)

  function Init(n: nat): State { State(Memory(n, 0, 1, 0), seq(n, _ => Thread(WaitMutex, false))) }

  predicate Enabled(m: Memory, th: Thread) {
    match th.pc
    case WaitMutex => m.mutex > 0
    case WaitBarrier => m.barrier > 0
    case Done => false
    case _ => true
  }

  function At(th: Thread, pc: Pc): Thread { th.(pc := pc) }

  /** What the next statement of a thread does to the shared memory and to the thread. */
  function Execute(m: Memory, th: Thread): (Memory, Thread) {
    match th.pc
    case WaitMutex => (m.(mutex := m.mutex - 1), At(th, LoadCount))
    case LoadCount => (m, At(th, StoreCount(m.count)))
    case StoreCount(reg) => (m.(count := reg + 1), At(th, PostMutex))
    case PostMutex => (m.(mutex := m.mutex + 1), At(th, TestCount))
    case TestCount => (m, At(th, if m.count == m.total then Open else WaitBarrier))
    case Open => (m.(barrier := m.barrier + 1), Thread(WaitBarrier, true))
    case WaitBarrier => (m.(barrier := m.barrier - 1), At(th, PassOn))
    case PassOn => (m.(barrier := m.barrier + 1), At(th, Done))
    case Done => (m, th)
  }

  predicate CanStep(s: State, t: nat) { t < |s.threads| && Enabled(s.m, s.threads[t]) }

  /** Thread `t` executes its next statement, if it can. */
  function Next(s: State, t: nat): State {
    if CanStep(s, t) then
      var (m, th) := Execute(s.m, s.threads[t]);
      State(m, s.threads[t := th])
    else s
  }

  predicate HasMutex(pc: Pc) { pc.LoadCount? || pc.StoreCount? || pc.PostMutex? }
  predicate Arrived(pc: Pc) { !pc.WaitMutex? && !pc.LoadCount? && !pc.StoreCount? }
  predicate Past(pc: Pc) { pc.PassOn? || pc.Done? }

  /** Has opened the barrier, or will: it has yet to test `count`. */
  predicate MayOpen(th: Thread) { th.opener || th.pc.PostMutex? || th.pc.TestCount? || th.pc.Open? }

  function MutexWeight(th: Thread): nat { One(HasMutex(th.pc)) }
  function ArrivedWeight(th: Thread): nat { One(Arrived(th.pc)) }
  function HandWeight(th: Thread): nat { One(th.pc.PassOn?) }
  function OpenedWeight(th: Thread): nat { One(th.opener) }
  function MayOpenWeight(th: Thread): nat { One(MayOpen(th)) }

  /** Opening posts made so far. */
  function Opens(s: State): nat { Tally(s.threads, OpenedWeight) }

  predicate Local(m: Memory, th: Thread) {
    && (th.pc.StoreCount? ==> th.pc.reg == m.count)
    && (th.pc.Open? || th.opener ==> m.count == m.total)
    && (th.opener ==> th.pc.WaitBarrier? || Past(th.pc))
  }

  ghost predicate Inv(s: State) {
    && s.m.total == |s.threads|
    && 0 <= s.m.mutex && s.m.mutex + Tally(s.threads, MutexWeight) == 1
    && s.m.count == Tally(s.threads, ArrivedWeight)
    && 0 <= s.m.barrier && s.m.barrier + Tally(s.threads, HandWeight) == Opens(s)
    && (forall u: nat :: u < |s.threads| ==> Local(s.m, s.threads[u]))
    && (forall u: nat :: u < |s.threads| && Past(s.threads[u].pc) ==> Opens(s) > 0)
    && (s.m.count == |s.threads| > 0 ==> Tally(s.threads, MayOpenWeight) > 0)
  }

  lemma InitInv(n: nat)
    ensures Inv(Init(n))
  {
    var ths := Init(n).threads;
    Zero(ths, MutexWeight);
    Zero(ths, ArrivedWeight);
    Zero(ths, HandWeight);
    Zero(ths, OpenedWeight);
  }

  lemma Sums(s: State, t: nat)
    requires CanStep(s, t)
    ensures var a, b := s.threads, Next(s, t).threads;
      && |a| == |b| && (forall u: nat :: u < |a| && u != t ==> b[u] == a[u])
      && Tally(b, MutexWeight) + MutexWeight(a[t]) == Tally(a, MutexWeight) + MutexWeight(b[t])
      && Tally(b, ArrivedWeight) + ArrivedWeight(a[t]) == Tally(a, ArrivedWeight) + ArrivedWeight(b[t])
      && Tally(b, HandWeight) + HandWeight(a[t]) == Tally(a, HandWeight) + HandWeight(b[t])
      && Tally(b, OpenedWeight) + OpenedWeight(a[t]) == Tally(a, OpenedWeight) + OpenedWeight(b[t])
      && Tally(b, MayOpenWeight) + MayOpenWeight(a[t]) == Tally(a, MayOpenWeight) + MayOpenWeight(b[t])
  {
    var x := Execute(s.m, s.threads[t]).1;
    Update(s.threads, t, x, MutexWeight);
    Update(s.threads, t, x, ArrivedWeight);
    Update(s.threads, t, x, HandWeight);
    Update(s.threads, t, x, OpenedWeight);
    Update(s.threads, t, x, MayOpenWeight);
  }

  lemma Shares(s: State, t: nat)
    requires Inv(s) && t < |s.threads|
    ensures forall u: nat :: u < |s.threads| && u != t && HasMutex(s.threads[t].pc) ==> !HasMutex(s.threads[u].pc)
    ensures Tally(s.threads, ArrivedWeight) <= |s.threads|
    ensures !Arrived(s.threads[t].pc) ==> Tally(s.threads, ArrivedWeight) < |s.threads|
    ensures MayOpenWeight(s.threads[t]) <= Tally(s.threads, MayOpenWeight)
    ensures OpenedWeight(s.threads[t]) <= Opens(s)
  {
    Exclusive(s.threads, MutexWeight);
    AtMost(s.threads, ArrivedWeight, 1);
    Member(s.threads, t, MayOpenWeight);
    Member(s.threads, t, OpenedWeight);
    if !Arrived(s.threads[t].pc) {
      var x := Thread(Done, false);
      Update(s.threads, t, x, ArrivedWeight);
      AtMost(s.threads[t := x], ArrivedWeight, 1);
    }
  }

  lemma InvKept(s: State, t: nat)
    requires Inv(s)
    ensures Inv(Next(s, t))
  {
    if CanStep(s, t) {
      var s' := Next(s, t);
      assert Local(s.m, s.threads[t]);
      Sums(s, t);
      Shares(s, t);
      assert Local(s'.m, s'.threads[t]);
      forall u: nat | u < |s'.threads| && u != t ensures Local(s'.m, s'.threads[u]) {
        assert Local(s.m, s.threads[u]);
      }
      if s'.m.count == |s.threads| {
        Member(s'.threads, t, MayOpenWeight);
      }
    }
  }

  function Reached(n: nat, run: seq<nat>): State { Exec(Next, Init(n), run) }

  function Size(s: State): nat { |s.threads| }

  function ToGo(th: Thread): nat {
    match th.pc
    case WaitMutex => 8 case LoadCount => 7 case StoreCount(_) => 6 case PostMutex => 5 case TestCount => 4
    case Open => 3 case WaitBarrier => 2 case PassOn => 1 case Done => 0
  }

  function Work(s: State): nat { Tally(s.threads, ToGo) }

  lemma StepWork(s: State, t: nat)
    ensures Work(Next(s, t)) + One(CanStep(s, t)) <= Work(s) && Size(Next(s, t)) == Size(s)
  {
    if CanStep(s, t) {
      Update(s.threads, t, Next(s, t).threads[t], ToGo);
    }
  }

  lemma ReachedInv(n: nat, run: seq<nat>)
    ensures Inv(Reached(n, run)) && Size(Reached(n, run)) == n
    ensures |Events(Next, CanStep, Init(n), run)| + Work(Reached(n, run)) <= 8 * n
  {
    InitInv(n);
    forall x, c | Inv(x)
      ensures Inv(Next(x, c)) && Size(Next(x, c)) == Size(x)
      ensures Work(Next(x, c)) + (if CanStep(x, c) then 1 else 0) <= Work(x)
    {
      InvKept(x, c);
      StepWork(x, c);
    }
    Always(Next, Inv, Init(n), run);
    Conserved(Next, Inv, Size, Init(n), run);
    WorkBoundsSteps(Next, CanStep, Inv, Work, Init(n), run);
    AtMost(Init(n).threads, ToGo, 8);
  }

  lemma AllCounted(s: State, t: nat)
    requires Inv(s) && t < |s.threads| && Past(s.threads[t].pc)
    ensures s.m.count == |s.threads|
  {
    var o := Witness(s.threads, OpenedWeight);
    assert Local(s.m, s.threads[o]);
  }

  lemma PassedMeansCounted(s: State, t: nat)
    requires Inv(s)
    ensures t < |s.threads| && Past(s.threads[t].pc) ==> s.m.count == |s.threads|
  {
    if t < |s.threads| && Past(s.threads[t].pc) {
      AllCounted(s, t);
    }
  }

  /** Safety: no thread is past the barrier before all N have been counted. */
  lemma NobodyPassesEarly(n: nat, run: seq<nat>, t: nat)
    ensures var s := Reached(n, run);
      |s.threads| == n && (t < n && Past(s.threads[t].pc) ==>
        s.m.count == n && forall u: nat :: u < n ==> Arrived(s.threads[u].pc))
  {
    ReachedInv(n, run);
    var s := Reached(n, run);
    if t < |s.threads| && Past(s.threads[t].pc) {
      AllCounted(s, t);
      forall u: nat | u < n ensures Arrived(s.threads[u].pc) {
        Shares(s, u);
      }
    }
  }

  lemma {:induction false} NotArrived(ths: seq<Thread>) returns (u: nat)
    requires Tally(ths, ArrivedWeight) < |ths|
    ensures u < |ths| && !Arrived(ths[u].pc)
  {
    if !Arrived(ths[0].pc) {
      u := 0;
    } else {
      u := NotArrived(ths[1..]);
      u := u + 1;
    }
  }

  /** An unfinished thread means that some thread can step. */
  lemma Progress(s: State, t: nat) returns (u: nat)
    requires Inv(s) && t < |s.threads| && !s.threads[t].pc.Done?
    ensures CanStep(s, u)
  {
    if CanStep(s, t) {
      return t;
    }
    Shares(s, t);
    if s.m.mutex == 0 {
      u := Witness(s.threads, MutexWeight);
    } else if Tally(s.threads, ArrivedWeight) < |s.threads| {
      u := NotArrived(s.threads);
      Member(s.threads, u, MutexWeight);
    } else {
      u := Witness(s.threads, MayOpenWeight);
      if s.threads[u].opener {
        Member(s.threads, u, OpenedWeight);
        if s.m.barrier == 0 {
          u := Witness(s.threads, HandWeight);
        } else {
          u := t;
        }
      }
    }
  }

  /** A test of `count` at line 47 that finds it complete. */
  predicate TestsFull(s: State, t: nat) { CanStep(s, t) && s.threads[t].pc.TestCount? && s.m.count == |s.threads| }

  function OpeningWeight(th: Thread): nat { One(th.pc.Open? || th.opener) }

  lemma TestStep(s: State, t: nat)
    requires Inv(s)
    ensures Tally(Next(s, t).threads, OpeningWeight) == Tally(s.threads, OpeningWeight) + One(TestsFull(s, t))
  {
    if CanStep(s, t) {
      assert Local(s.m, s.threads[t]);
      Update(s.threads, t, Next(s, t).threads[t], OpeningWeight);
    }
  }

  /** In every run, the threads that have opened the barrier or are about to are as many as found `count` complete. */
  lemma OpenersTested(n: nat, run: seq<nat>)
    ensures |Events(Next, TestsFull, Init(n), run)| == Tally(Reached(n, run).threads, OpeningWeight)
  {
    ghost var meter := (x: State) => 0 - Tally(x.threads, OpeningWeight);
    InitInv(n);
    Zero(Init(n).threads, OpeningWeight);
    forall x, c | Inv(x) ensures Inv(Next(x, c)) && meter(Next(x, c)) + (if TestsFull(x, c) then 1 else 0) == meter(x) {
      InvKept(x, c);
      TestStep(x, c);
    }
    Metered(Next, TestsFull, Inv, meter, Init(n), run);
  }

  /**
   In every reachable state, a thread that is not done waits exactly for somebody who holds `mutex` at line 44, or
   exactly while every unit posted at line 48 is being passed on at line 50, and nowhere else.
   */
  lemma WaitsExactly(n: nat, run: seq<nat>, t: nat)
    ensures var s := Reached(n, run);
      t < |s.threads| && !s.threads[t].pc.Done? ==>
        (!CanStep(s, t) <==>
          || (s.threads[t].pc.WaitMutex? && exists u: nat :: u < |s.threads| && u != t && HasMutex(s.threads[u].pc))
          || (s.threads[t].pc.WaitBarrier? && Tally(s.threads, HandWeight) == Opens(s)))
  {
    ReachedInv(n, run);
    var s := Reached(n, run);
    if t < |s.threads| && s.threads[t].pc.WaitMutex? {
      if s.m.mutex == 0 {
        var u := Witness(s.threads, MutexWeight);
      } else if u: nat :| u < |s.threads| && HasMutex(s.threads[u].pc) {
        Member(s.threads, u, MutexWeight);
      }
    }
  }

  /**
   Completion: a run executes at most 8 statements per thread, and where no thread can step all N have passed; at
   least one thread has opened the barrier, and the semaphore ends with as many units as threads did, which is how many
   found `count` complete at line 47, between 1 and N.
   */
  lemma Completion(n: nat, run: seq<nat>)
    ensures var s := Reached(n, run);
      && |Events(Next, CanStep, Init(n), run)| <= 8 * n && |s.threads| == n
      && ((forall t: nat :: !CanStep(s, t)) ==>
          && (forall t: nat :: t < n ==> s.threads[t].pc.Done?)
          && s.m.count == n && s.m.barrier == Opens(s) == |Events(Next, TestsFull, Init(n), run)|
          && (n > 0 ==> 1 <= s.m.barrier <= n))
  {
    ReachedInv(n, run);
    var s := Reached(n, run);
    if forall t: nat :: !CanStep(s, t) {
      forall t: nat | t < n ensures s.threads[t].pc.Done? {
        if !s.threads[t].pc.Done? {
          var u := Progress(s, t);
        }
      }
      AllEqual(s.threads, ArrivedWeight, 1);
      Zero(s.threads, HandWeight);
      AtMost(s.threads, OpenedWeight, 1);
      OpenersTested(n, run);
      Same(s.threads, OpeningWeight, s.threads, OpenedWeight);
    }
  }

  // ---------- every number of openings is possible ----------

  lemma Append(n: nat, run: seq<nat>, t: nat)
    ensures Reached(n, run + [t]) == Next(Reached(n, run), t)
  {
    Extend(Next, Init(n), run, t);
  }

  /** Lines 44 to 46 in thread `t`, undisturbed. */
  lemma CountIn(n: nat, before: seq<nat>, t: nat) returns (run: seq<nat>)
    requires var s := Reached(n, before); t < |s.threads| && s.threads[t] == Thread(WaitMutex, false) && s.m.mutex == 1
    ensures var s := Reached(n, before);
      Reached(n, run) == State(s.m.(count := s.m.count + 1), s.threads[t := Thread(TestCount, false)])
  {
    var s := Reached(n, before);
    run := before + [t] + [t] + [t] + [t];
    Append(n, before, t);
    Append(n, before + [t], t);
    Append(n, before + [t] + [t], t);
    Append(n, before + [t] + [t] + [t], t);
    var locked := s.m.(mutex := 0);
    assert Reached(n, before + [t]) == State(locked, s.threads[t := Thread(LoadCount, false)]);
    assert Reached(n, before + [t] + [t]) == State(locked, s.threads[t := Thread(StoreCount(s.m.count), false)]);
    assert Reached(n, before + [t] + [t] + [t])
        == State(locked.(count := s.m.count + 1), s.threads[t := Thread(PostMutex, false)]);
  }

  /** The last `early` threads tested before all were counted, and then the first `late` threads were counted. */
  ghost predicate Arriving(s: State, n: nat, early: nat, late: nat) {
    && early + late <= n && s.m == Memory(n, early + late, 1, 0) && |s.threads| == n
    && forall i: nat :: i < n ==>
         s.threads[i] == Thread(if i < late then TestCount else if i < n - early then WaitMutex else WaitBarrier, false)
  }

  lemma {:induction false} ArriveEarly(n: nat, early: nat) returns (run: seq<nat>)
    requires early < n
    ensures Arriving(Reached(n, run), n, early, 0)
  {
    if early == 0 {
      run := [];
    } else {
      run := ArriveEarly(n, early - 1);
      run := CountIn(n, run, n - early);
      Append(n, run, n - early);
      run := run + [n - early];
    }
  }

  lemma {:induction false} ArriveLate(n: nat, early: nat, late: nat) returns (run: seq<nat>)
    requires early < n && early + late <= n
    ensures Arriving(Reached(n, run), n, early, late)
  {
    if late == 0 {
      run := ArriveEarly(n, early);
    } else {
      run := ArriveLate(n, early, late - 1);
      run := CountIn(n, run, late - 1);
    }
  }

  /** All are counted, the first `posted` threads have opened the barrier, and those up to `k` have yet to test. */
  ghost predicate Opening(s: State, n: nat, k: nat, posted: nat) {
    && posted <= k <= n && s.m == Memory(n, n, 1, posted) && |s.threads| == n
    && forall i: nat :: i < n ==>
         s.threads[i] == Thread(if posted <= i < k then TestCount else WaitBarrier, i < posted)
  }

  lemma {:induction false} OpenUp(n: nat, k: nat, posted: nat) returns (run: seq<nat>)
    requires 0 < k <= n && posted <= k
    ensures Opening(Reached(n, run), n, k, posted)
  {
    if posted == 0 {
      run := ArriveLate(n, n - k, k);
    } else {
      run := OpenUp(n, k, posted - 1);
      Append(n, run, posted - 1);
      Append(n, run + [posted - 1], posted - 1);
      run := run + [posted - 1] + [posted - 1];
    }
  }

  /** Nobody has yet to test `count` or to open, so no more units are posted at line 48. */
  ghost predicate Opened(s: State, k: nat) {
    && Inv(s) && Opens(s) == k
    && forall i: nat :: i < |s.threads| ==> s.threads[i].pc.WaitBarrier? || Past(s.threads[i].pc)
  }

  lemma OpenedKept(s: State, k: nat, t: nat)
    requires Opened(s, k)
    ensures Opened(Next(s, t), k)
  {
    InvKept(s, t);
    if CanStep(s, t) {
      Sums(s, t);
    }
  }

  lemma {:induction false} Finish(n: nat, before: seq<nat>, k: nat) returns (run: seq<nat>)
    requires Opened(Reached(n, before), k)
    ensures Opened(Reached(n, run), k) && forall t: nat :: !CanStep(Reached(n, run), t)
    decreases Work(Reached(n, before))
  {
    if t: nat :| CanStep(Reached(n, before), t) {
      Append(n, before, t);
      OpenedKept(Reached(n, before), k, t);
      StepWork(Reached(n, before), t);
      run := Finish(n, before + [t], k);
    } else {
      run := before;
    }
  }

  lemma {:induction false} CountOpeners(ths: seq<Thread>, k: nat)
    requires k <= |ths| && forall i: nat :: i < |ths| ==> (ths[i].opener <==> i < k)
    ensures Tally(ths, OpenedWeight) == k
  {
    if k == 0 {
      Zero(ths, OpenedWeight);
    } else {
      assert forall i: nat :: i < |ths[1..]| ==> ths[1..][i] == ths[i + 1];
      CountOpeners(ths[1..], k - 1);
    }
  }

  /** For every `k` from 1 to N some run ends with exactly `k` units in the semaphore. */
  lemma EveryCount(n: nat, k: nat) returns (run: seq<nat>)
    requires 1 <= k <= n
    ensures (forall t: nat :: !CanStep(Reached(n, run), t)) && Reached(n, run).m.barrier == k
  {
    run := OpenUp(n, k, k);
    ReachedInv(n, run);
    CountOpeners(Reached(n, run).threads, k);
    run := Finish(n, run, k);
    Completion(n, run);
  }

  // ---------- the barrier itself, updated in place ----------

  class BarrierT {
    const total: nat
    var count: int
    var mutex: int
    var barrier: int
    var threads: seq<Thread>

    function Snapshot(): State
      reads this
    {
      State(Memory(total, count, mutex, barrier), threads)
    }

    ghost predicate Valid()
      reads this
    {
      Inv(Snapshot())
    }

    constructor (n: nat)
      ensures Valid() && Snapshot() == Init(n)
    {
      total := n;
      count, mutex, barrier := 0, 1, 0;
      threads := Init(n).threads;
      new;
      InitInv(n);
    }

    method Goto(t: nat, pc: Pc)
      requires t < |threads|
      modifies this`threads
      ensures threads == old(threads)[t := old(threads)[t].(pc := pc)]
    {
      threads := threads[t := threads[t].(pc := pc)];
    }

    /** The next statement of `barrier` in thread `t`; once it is past the wait, every thread has been counted. */
    method Barrier(t: nat)
      requires Valid() && CanStep(Snapshot(), t)
      modifies this
      ensures Valid() && Snapshot() == Next(old(Snapshot()), t)
      ensures Past(threads[t].pc) ==> count == total
    {
      ghost var s' := Next(Snapshot(), t);
      InvKept(Snapshot(), t);
      PassedMeansCounted(s', t);
      match threads[t].pc {
        case WaitMutex => mutex := mutex - 1; Goto(t, LoadCount);
        case LoadCount => Goto(t, StoreCount(count));
        case StoreCount(reg) => count := reg + 1; Goto(t, PostMutex);
        case PostMutex => mutex := mutex + 1; Goto(t, TestCount);
        case TestCount =>
          if count == total {
            Goto(t, Open);
          } else {
            Goto(t, WaitBarrier);
          }
        case Open =>
          barrier := barrier + 1;
          threads := threads[t := Thread(WaitBarrier, true)];
        case WaitBarrier => barrier := barrier - 1; Goto(t, PassOn);
        case PassOn => barrier := barrier + 1; Goto(t, Done);
      }
      assert Snapshot() == s';
    }
  }
}
