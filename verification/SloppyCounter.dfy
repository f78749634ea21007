/**
 The sloppy counter: increments go to one of several local counts and are flushed to the global value when a local
 count reaches the threshold.  Any number of threads execute any programs of increments, each on any of the local
 counts, and reads; `c->local[i] += 1` and `c->value += c->local[i]` are split into their loads and stores.
 */
module SloppyCounter {
  import opened Census
  import opened Primitives
  import opened Runs

  datatype Op = Increment(id: nat) | Get

  /** Program counters, with source lines; `reg`, `amount` and `rc` are values loaded. */
  datatype Pc =
    | Idle                               // 35 for an increment, 48 for a read
    | LoadLocal                          // 36
    | StoreLocal(reg: int)               // 36
    | TestLocal                          // 37
    | LockGlobal                         // 38
    | LoadAmount                         // 39  reads local[threadId]
    | LoadValue(amount: int)             // 39  reads value
    | StoreValue(amount: int, reg: int)  // 39
    | UnlockGlobal                       // 40
    | ResetLocal                         // 41
    | UnlockLocal                        // 44
    | ReadValue                          // 49
    | UnlockGet(rc: int)                 // 50, 51

  /** `todo` is what is left of the thread's program, the current operation first. */
  datatype Thread = Thread(pc: Pc, todo: seq<Op>)

  /** `performed` (increments stored) and `flushes` (flushes stored), one entry for each id, are history. */
  datatype Memory = Memory(value: int, globalLocked: bool, local: seq<int>, lock: seq<Lock>, threshold: int,
                           performed: seq<nat>, flushes: seq<nat>)

  datatype State = State(m: Memory, threads: seq<Thread>)

  function Zeros(n: nat): (r: seq<nat>)
    ensures |r| == n && forall i: nat :: i < n ==> r[i] == 0
  {
    seq(n, _ => 0)
  }

  function Init(ids: nat, threshold: int, programs: seq<seq<Op>>): State {
    State(Memory(0, false, Zeros(ids), seq(ids, _ => Unlocked), threshold, Zeros(ids), Zeros(ids)),
          seq(|programs|, i requires 0 <= i < |programs| => Thread(Idle, programs[i])))
  }

  /** The array index that the current operation uses. */
  function IdOf(th: Thread): nat { if th.todo != [] && th.todo[0].Increment? then th.todo[0].id else 0 }

  function LocalAt(m: Memory, id: nat): int { if id < |m.local| then m.local[id] else 0 }
  function SetLocal(m: Memory, id: nat, v: int): Memory { if id < |m.local| then m.(local := m.local[id := v]) else m }
  function SetLock(m: Memory, id: nat, l: Lock): Memory { if id < |m.lock| then m.(lock := m.lock[id := l]) else m }

  function Bump(counts: seq<nat>, id: nat): seq<nat> { if id < |counts| then counts[id := counts[id] + 1] else counts }

  function At(th: Thread, pc: Pc): Thread { th.(pc := pc) }
  function Return(th: Thread): Thread { Thread(Idle, if th.todo == [] then [] else th.todo[1..]) }

  predicate Enabled(m: Memory, th: Thread) {
    match th.pc
    case Idle => th.todo != [] &&
      (if th.todo[0].Increment? then IdOf(th) < |m.lock| && m.lock[IdOf(th)] == Unlocked else !m.globalLocked)
    case LockGlobal => !m.globalLocked
    case _ => true
  }

  /** What the next statement of thread `t` does to the shared memory and to the thread. */
  function Execute(m: Memory, t: nat, th: Thread): (Memory, Thread) {
    var id := IdOf(th);
    match th.pc
    case Idle =>
      if th.todo != [] && th.todo[0].Increment? then (SetLock(m, id, Held(t)), At(th, LoadLocal))
      else (m.(globalLocked := true), At(th, ReadValue))
    case LoadLocal => (m, At(th, StoreLocal(LocalAt(m, id))))
    case StoreLocal(reg) => (SetLocal(m, id, reg + 1).(performed := Bump(m.performed, id)), At(th, TestLocal))
    case TestLocal => (m, At(th, if LocalAt(m, id) >= m.threshold then LockGlobal else UnlockLocal))
    case LockGlobal => (m.(globalLocked := true), At(th, LoadAmount))
    case LoadAmount => (m, At(th, LoadValue(LocalAt(m, id))))
    case LoadValue(amount) => (m, At(th, StoreValue(amount, m.value)))
    case StoreValue(amount, reg) => (m.(value := reg + amount, flushes := Bump(m.flushes, id)), At(th, UnlockGlobal))
    case UnlockGlobal => (m.(globalLocked := false), At(th, ResetLocal))
    case ResetLocal => (SetLocal(m, id, 0), At(th, UnlockLocal))
    case UnlockLocal => (SetLock(m, id, Unlocked), Return(th))
    case ReadValue => (m, At(th, UnlockGet(m.value)))
    case UnlockGet(rc) => (m.(globalLocked := false), Return(th))
  }

  predicate CanStep(s: State, t: nat) { t < |s.threads| && Enabled(s.m, s.threads[t]) }

  /** Thread `t` executes its next statement, if it can. */
  function Next(s: State, t: nat): State {
    if CanStep(s, t) then
      var (m, th) := Execute(s.m, t, s.threads[t]);
      State(m, s.threads[t := th])
    else s
  }

  // ---------- the inductive invariant ----------

  /** The threshold that takes effect: after its increment a local count is at least 1. */
  function Effective(m: Memory): nat { if m.threshold < 1 then 1 else m.threshold }

  predicate Getting(pc: Pc) { pc.ReadValue? || pc.UnlockGet? }

  predicate Incrementing(pc: Pc) { !pc.Idle? && !Getting(pc) }
  predicate HasGlobal(pc: Pc) {
    pc.LoadAmount? || pc.LoadValue? || pc.StoreValue? || pc.UnlockGlobal? || Getting(pc)
  }

  /** Has flushed its local count to the global value and has yet to reset it. */
  predicate Flushed(pc: Pc) { pc.UnlockGlobal? || pc.ResetLocal? }

  function GlobalWeight(th: Thread): nat { One(HasGlobal(th.pc)) }
  predicate ValidOps(ids: nat, todo: seq<Op>) {
    forall i: nat :: i < |todo| && todo[i].Increment? ==> todo[i].id < ids
  }

  predicate Sizes(m: Memory) { |m.local| == |m.lock| == |m.performed| == |m.flushes| }

  /** How far the local count of a thread that holds its lock can be. */
  predicate InRange(m: Memory, pc: Pc, local: int) {
    match pc
    case LoadLocal => 0 <= local < Effective(m)
    case StoreLocal(reg) => reg == local && 0 <= local < Effective(m)
    case TestLocal => 1 <= local <= Effective(m)
    case LockGlobal => local == Effective(m)
    case LoadAmount => local == Effective(m)
    case LoadValue(amount) => amount == local == Effective(m)
    case StoreValue(amount, reg) => amount == local == Effective(m) && reg == m.value
    case UnlockGlobal => local == Effective(m)
    case ResetLocal => local == Effective(m)
    case UnlockLocal => 0 <= local < Effective(m)
    case UnlockGet(rc) => rc == m.value
    case _ => true
  }

  predicate Local(m: Memory, t: nat, th: Thread) {
    && ValidOps(|m.lock|, th.todo)
    && (HasGlobal(th.pc) ==> m.globalLocked)
    && (!th.pc.Idle? ==> th.todo != [] && (th.todo[0].Increment? <==> Incrementing(th.pc)))
    && (Incrementing(th.pc) ==> IdOf(th) < |m.lock| && m.lock[IdOf(th)] == Held(t))
    && InRange(m, th.pc, LocalAt(m, IdOf(th)))
  }

  ghost predicate Locals(s: State) {
    forall t: nat :: t < |s.threads| ==> Local(s.m, t, s.threads[t])
  }

  predicate HeldBy(s: State, id: nat, t: nat) {
    t < |s.threads| && Incrementing(s.threads[t].pc) && IdOf(s.threads[t]) == id
  }

  ghost predicate Locks(s: State) {
    && One(s.m.globalLocked) == Tally(s.threads, GlobalWeight)
    && (forall id: nat :: id < |s.m.lock| && s.m.lock[id].Held? ==> HeldBy(s, id, s.m.lock[id].owner))
    && (forall id: nat :: id < |s.m.lock| && s.m.lock[id].Unlocked? ==> 0 <= LocalAt(s.m, id) < Effective(s.m))
  }

  /** What the global value still misses of the local count `id`. */
  function Unflushed(s: State, id: nat): int {
    if id < |s.m.lock| && s.m.lock[id].Held? && s.m.lock[id].owner < |s.threads|
       && Flushed(s.threads[s.m.lock[id].owner].pc) then 0
    else LocalAt(s.m, id)
  }

  predicate ExactAt(s: State, id: nat)
    requires id < |s.m.lock|
  {
    id < |s.m.performed| && id < |s.m.flushes|
    && s.m.performed[id] == Product(s.m.flushes[id], Effective(s.m)) + Unflushed(s, id)
  }

  /** Every increment of `id` is in one of its flushes, of the size of the threshold each, or not flushed yet. */
  ghost predicate Exact(s: State) {
    && s.m.value == Product(Tally(s.m.flushes, Id), Effective(s.m))
    && forall id: nat :: id < |s.m.lock| ==> ExactAt(s, id)
  }

  ghost predicate Inv(s: State) { Sizes(s.m) && Locals(s) && Locks(s) && Exact(s) }

  lemma InitInv(ids: nat, threshold: int, programs: seq<seq<Op>>)
    requires forall i: nat :: i < |programs| ==> ValidOps(ids, programs[i])
    ensures Inv(Init(ids, threshold, programs))
  {
    var s := Init(ids, threshold, programs);
    Zero(s.threads, GlobalWeight);
    Zero(s.m.flushes, Id);
    MoreOf(0, 0, Effective(s.m));
  }

  lemma Shares(s: State, t: nat)
    requires Inv(s) && t < |s.threads|
    ensures forall u: nat :: u < |s.threads| && u != t && HasGlobal(s.threads[t].pc) ==> !HasGlobal(s.threads[u].pc)
  {
    Exclusive(s.threads, GlobalWeight);
  }

  /** What a statement does to its own thread. */
  lemma OwnRange(m: Memory, t: nat, a: Thread)
    requires Sizes(m) && Local(m, t, a) && Enabled(m, a)
    requires a.pc.Idle? && a.todo[0].Increment? ==> 0 <= LocalAt(m, IdOf(a)) < Effective(m)
    ensures var (m', b) := Execute(m, t, a); InRange(m', b.pc, LocalAt(m', IdOf(b)))
  {
  }

  lemma OwnLocks(m: Memory, t: nat, a: Thread)
    requires Sizes(m) && Local(m, t, a) && Enabled(m, a)
    ensures var (m', b) := Execute(m, t, a);
      && Sizes(m') && m'.threshold == m.threshold && |m'.lock| == |m.lock|
      && One(m'.globalLocked) + GlobalWeight(a) == One(m.globalLocked) + GlobalWeight(b)
      && (HasGlobal(b.pc) ==> m'.globalLocked)
      && (Incrementing(b.pc) ==> IdOf(b) < |m'.lock| && m'.lock[IdOf(b)] == Held(t))
      && (!b.pc.Idle? ==> b.todo == a.todo && (b.todo[0].Increment? <==> Incrementing(b.pc)))
      && (b.pc.Idle? ==> b.todo == a.todo[1..])
  {
  }

  /** What it does to everything else: nothing but the entries of its own id and, with the global lock, `value`. */
  lemma Untouched(m: Memory, t: nat, a: Thread)
    requires Sizes(m) && Local(m, t, a) && Enabled(m, a)
    ensures var (m', b) := Execute(m, t, a);
      && (forall j: nat :: j < |m.lock| && (j != IdOf(a) || Getting(b.pc) || Getting(a.pc)) ==>
            m'.local[j] == m.local[j] && m'.lock[j] == m.lock[j]
            && m'.performed[j] == m.performed[j] && m'.flushes[j] == m.flushes[j])
      && (!HasGlobal(a.pc) ==> m'.value == m.value)
      && (m.globalLocked && !m'.globalLocked ==> HasGlobal(a.pc))
      && (Incrementing(b.pc) ==> IdOf(b) == IdOf(a))
  {
  }

  lemma OwnLocal(s: State, t: nat)
    requires Inv(s) && CanStep(s, t)
    ensures var (m', b) := Execute(s.m, t, s.threads[t]);
      Local(m', t, b) && Sizes(m') && Effective(m') == Effective(s.m) && |m'.lock| == |s.m.lock|
  {
    assert Local(s.m, t, s.threads[t]);
    OwnRange(s.m, t, s.threads[t]);
    OwnLocks(s.m, t, s.threads[t]);
  }

  /** A step leaves the lock of another increment, and the count behind it, as they are. */
  lemma OtherId(s: State, t: nat, u: nat)
    requires Inv(s) && CanStep(s, t) && u < |s.threads| && u != t && Incrementing(s.threads[u].pc)
    ensures var m', id := Execute(s.m, t, s.threads[t]).0, IdOf(s.threads[u]);
      Sizes(m') && id < |m'.lock| && m'.lock[id] == s.m.lock[id] && LocalAt(m', id) == LocalAt(s.m, id)
  {
    assert Local(s.m, t, s.threads[t]) && Local(s.m, u, s.threads[u]);
    Untouched(s.m, t, s.threads[t]);
    OwnLocks(s.m, t, s.threads[t]);
  }

  lemma OthersLocal(s: State, t: nat, u: nat)
    requires Inv(s) && CanStep(s, t) && u < |s.threads| && u != t
    ensures Local(Execute(s.m, t, s.threads[t]).0, u, s.threads[u])
  {
    assert Local(s.m, t, s.threads[t]) && Local(s.m, u, s.threads[u]);
    Untouched(s.m, t, s.threads[t]);
    OwnLocks(s.m, t, s.threads[t]);
    Shares(s, t);
    if Incrementing(s.threads[u].pc) {
      OtherId(s, t, u);
    }
  }

  /** A thread frees its lock only at line 44, with its count back in range. */
  lemma OwnRelease(m: Memory, t: nat, a: Thread)
    requires Sizes(m) && Local(m, t, a) && Enabled(m, a) && a.todo != [] && a.todo[0].Increment?
    ensures var (m', b) := Execute(m, t, a);
      && m'.lock[IdOf(a)] == (if a.pc.UnlockLocal? then Unlocked else Held(t))
      && (b.pc.Idle? <==> a.pc.UnlockLocal?)
      && (a.pc.UnlockLocal? ==> LocalAt(m', IdOf(a)) == LocalAt(m, IdOf(a)))
  {
  }

  lemma LocksKept(s: State, t: nat)
    requires Inv(s) && CanStep(s, t)
    ensures Locks(Next(s, t))
  {
    var s', a := Next(s, t), s.threads[t];
    assert Local(s.m, t, a);
    OwnLocal(s, t);
    OwnLocks(s.m, t, a);
    Untouched(s.m, t, a);
    Update(s.threads, t, s'.threads[t], GlobalWeight);
    forall id: nat | id < |s'.m.lock|
      ensures s'.m.lock[id].Held? ==> HeldBy(s', id, s'.m.lock[id].owner)
      ensures s'.m.lock[id].Unlocked? ==> 0 <= LocalAt(s'.m, id) < Effective(s'.m)
    {
      assert s.m.lock[id].Held? ==> HeldBy(s, id, s.m.lock[id].owner);
      if id == IdOf(a) && !Getting(a.pc) && !Getting(s'.threads[t].pc) {
        OwnRelease(s.m, t, a);
      }
    }
  }

  lemma OtherExact(s: State, t: nat, id: nat)
    requires Inv(s) && CanStep(s, t) && id < |s.m.lock| == |Next(s, t).m.lock| && Sizes(Next(s, t).m)
    requires id != IdOf(s.threads[t]) || s.threads[t].todo == [] || s.threads[t].todo[0].Get?
    ensures ExactAt(Next(s, t), id)
  {
    var a := s.threads[t];
    assert Local(s.m, t, a) && ExactAt(s, id);
    assert s.m.lock[id].Held? ==> HeldBy(s, id, s.m.lock[id].owner);
    Untouched(s.m, t, a);
    OwnLocks(s.m, t, a);
  }

  lemma SameFlushes(m: Memory, t: nat, a: Thread)
    requires !a.pc.StoreValue?
    ensures Execute(m, t, a).0.flushes == m.flushes && Execute(m, t, a).0.value == m.value
  {
  }

  /** What a statement of an increment does to the account of its id. */
  lemma OwnAccount(m: Memory, t: nat, a: Thread)
    requires Sizes(m) && Local(m, t, a) && Enabled(m, a) && a.todo != [] && a.todo[0].Increment?
    ensures var (m', b) := Execute(m, t, a);
      var id := IdOf(a);
      var u, u' := if Flushed(a.pc) then 0 else LocalAt(m, id), if Flushed(b.pc) then 0 else LocalAt(m', id);
      if a.pc.StoreValue? then
        m'.performed[id] == m.performed[id] && m'.flushes[id] == m.flushes[id] + 1 && u == u' + Effective(m)
      else m'.flushes[id] == m.flushes[id] && m'.performed[id] - u' == m.performed[id] - u
  {
  }

  lemma OwnExact(s: State, t: nat)
    requires Inv(s) && CanStep(s, t) && s.threads[t].todo != [] && s.threads[t].todo[0].Increment?
    requires IdOf(s.threads[t]) < |Next(s, t).m.lock| == |s.m.lock| && Sizes(Next(s, t).m)
    ensures ExactAt(Next(s, t), IdOf(s.threads[t]))
  {
    var s', a, id := Next(s, t), s.threads[t], IdOf(s.threads[t]);
    assert Local(s.m, t, a) && ExactAt(s, id);
    OwnAccount(s.m, t, a);
    OwnRelease(s.m, t, a);
    OwnLocks(s.m, t, a);
    MoreOf(s.m.flushes[id], 1, Effective(s.m));
  }

  lemma ExactKept(s: State, t: nat)
    requires Inv(s) && CanStep(s, t)
    ensures Exact(Next(s, t))
  {
    var s', a := Next(s, t), s.threads[t];
    assert Local(s.m, t, a);
    OwnLocal(s, t);
    forall id: nat | id < |s'.m.lock| ensures ExactAt(s', id) {
      if id == IdOf(a) && a.todo != [] && a.todo[0].Increment? {
        OwnExact(s, t);
      } else {
        OtherExact(s, t, id);
      }
    }
    if a.pc.StoreValue? {
      var f := s.m.flushes[IdOf(a)];
      Update(s.m.flushes, IdOf(a), f + 1, Id);
      MoreOf(Tally(s.m.flushes, Id), 1, Effective(s.m));
    } else {
      SameFlushes(s.m, t, a);
    }
  }

  lemma InvKept(s: State, t: nat)
    requires Inv(s)
    ensures Inv(Next(s, t))
  {
    if CanStep(s, t) {
      var s' := Next(s, t);
      OwnLocal(s, t);
      LocksKept(s, t);
      ExactKept(s, t);
      forall u: nat | u < |s'.threads| ensures Local(s'.m, u, s'.threads[u]) {
        if u != t {
          OthersLocal(s, t, u);
        }
      }
    }
  }

  function Reached(ids: nat, threshold: int, programs: seq<seq<Op>>, run: seq<nat>): State {
    Exec(Next, Init(ids, threshold, programs), run)
  }

  ghost predicate ValidPrograms(ids: nat, programs: seq<seq<Op>>) {
    forall i: nat :: i < |programs| ==> ValidOps(ids, programs[i])
  }

  function Shape(s: State): (int, nat, nat) { (s.m.threshold, |s.m.lock|, |s.threads|) }

  lemma ShapeKept(s: State, t: nat)
    requires Inv(s)
    ensures Shape(Next(s, t)) == Shape(s)
  {
    if CanStep(s, t) {
      assert Local(s.m, t, s.threads[t]);
      OwnLocks(s.m, t, s.threads[t]);
    }
  }

  lemma ReachedInv(ids: nat, threshold: int, programs: seq<seq<Op>>, run: seq<nat>)
    requires ValidPrograms(ids, programs)
    ensures var s := Reached(ids, threshold, programs, run);
      Inv(s) && s.m.threshold == threshold && |s.m.lock| == ids && |s.threads| == |programs|
  {
    var i := Init(ids, threshold, programs);
    InitInv(ids, threshold, programs);
    forall x, c | Inv(x) ensures Inv(Next(x, c)) && Shape(Next(x, c)) == Shape(x) {
      InvKept(x, c);
      ShapeKept(x, c);
    }
    Always(Next, Inv, i, run);
    Conserved(Next, Inv, Shape, i, run);
  }

  // ---------- conservation and the error bound ----------

  /** The increments stored so far. */
  function Performed(s: State): nat { Tally(s.m.performed, Id) }

  /** Its local count may have reached the threshold: incremented, and not added to the global value yet. */
  predicate Filling(pc: Pc) { pc.TestLocal? || pc.LockGlobal? || pc.LoadAmount? || pc.LoadValue? || pc.StoreValue? }

  lemma UnflushedRange(s: State, id: nat)
    requires Inv(s) && id < |s.m.lock|
    ensures 0 <= Unflushed(s, id) <= Effective(s.m)
    ensures (forall t: nat :: t < |s.threads| ==> !Filling(s.threads[t].pc)) ==> Unflushed(s, id) < Effective(s.m)
  {
    if s.m.lock[id].Held? {
      var t := s.m.lock[id].owner;
      assert HeldBy(s, id, t);
      assert Local(s.m, t, s.threads[t]);
    }
  }

  /** What the global value misses, one entry for each id. */
  ghost function Missing(s: State): seq<nat>
    requires Inv(s)
  {
    seq(|s.m.lock|, id requires 0 <= id < |s.m.lock| => UnflushedRange(s, id); Unflushed(s, id))
  }

  lemma {:induction false} Parts(total: seq<nat>, factor: nat, whole: seq<nat>, rest: seq<nat>)
    requires |total| == |whole| == |rest|
    requires forall i: nat :: i < |total| ==> total[i] == Product(whole[i], factor) + rest[i]
    ensures Tally(total, Id) == Product(Tally(whole, Id), factor) + Tally(rest, Id)
  {
    if total == [] {
    } else {
      assert forall i: nat :: i < |total[1..]| ==> total[1..][i] == total[i + 1];
      assert forall i: nat :: i < |total[1..]| ==> whole[1..][i] == whole[i + 1] && rest[1..][i] == rest[i + 1];
      Parts(total[1..], factor, whole[1..], rest[1..]);
      MoreOf(whole[0], Tally(whole[1..], Id), factor);
    }
  }

  lemma Conserves(s: State)
    requires Inv(s)
    ensures Performed(s) == s.m.value + Tally(Missing(s), Id)
    ensures Tally(Missing(s), Id) <= |s.m.lock| * Effective(s.m)
    ensures (forall t: nat :: t < |s.threads| ==> !Filling(s.threads[t].pc)) ==>
      Tally(Missing(s), Id) <= |s.m.lock| * (Effective(s.m) - 1)
  {
    var missing := Missing(s);
    forall id: nat | id < |s.m.lock|
      ensures s.m.performed[id] == Product(s.m.flushes[id], Effective(s.m)) + missing[id]
      ensures missing[id] == Unflushed(s, id)
    {
      assert ExactAt(s, id);
    }
    Parts(s.m.performed, Effective(s.m), s.m.flushes, missing);
    forall id: nat | id < |missing| ensures Id(missing[id]) <= Effective(s.m) {
      UnflushedRange(s, id);
    }
    AtMost(missing, Id, Effective(s.m));
    if forall t: nat :: t < |s.threads| ==> !Filling(s.threads[t].pc) {
      forall id: nat | id < |missing| ensures Id(missing[id]) <= Effective(s.m) - 1 {
        UnflushedRange(s, id);
      }
      AtMost(missing, Id, Effective(s.m) - 1);
    }
  }

  /**
   In every reachable state the global value and what is not flushed make up exactly the increments performed; the
   value is a multiple of the threshold and lags by at most `ids * threshold`, and by at most `ids * (threshold - 1)`
   when no thread stands between its increment and its flush.  A threshold below 1 acts like 1.
   */
  lemma SloppyBound(ids: nat, threshold: int, programs: seq<seq<Op>>, run: seq<nat>)
    requires ValidPrograms(ids, programs)
    ensures var s, step := Reached(ids, threshold, programs, run), if threshold < 1 then 1 else threshold;
      && Inv(s) && Performed(s) == s.m.value + Tally(Missing(s), Id)
      && s.m.value == Tally(s.m.flushes, Id) * step
      && 0 <= Performed(s) - s.m.value <= ids * step
      && ((forall t: nat :: t < |s.threads| ==> !Filling(s.threads[t].pc)) ==>
            Performed(s) - s.m.value <= ids * (step - 1))
  {
    ReachedInv(ids, threshold, programs, run);
    Conserves(Reached(ids, threshold, programs, run));
  }

  /** What `get` is about to return is still the global value, so it lags by no more. */
  lemma GetIsClose(ids: nat, threshold: int, programs: seq<seq<Op>>, run: seq<nat>, t: nat)
    requires ValidPrograms(ids, programs)
    requires var s := Reached(ids, threshold, programs, run); t < |s.threads| && s.threads[t].pc.UnlockGet?
    ensures var s, step := Reached(ids, threshold, programs, run), if threshold < 1 then 1 else threshold;
      0 <= Performed(s) - s.threads[t].pc.rc <= ids * step
  {
    var s := Reached(ids, threshold, programs, run);
    ReachedInv(ids, threshold, programs, run);
    Conserves(s);
    assert Local(s.m, t, s.threads[t]);
  }

  // ---------- progress and the final value ----------

  predicate Finished(th: Thread) { th.pc.Idle? && th.todo == [] }

  /** An unfinished thread means that some thread can step. */
  lemma Progress(s: State, t: nat) returns (u: nat)
    requires Inv(s) && t < |s.threads| && !Finished(s.threads[t])
    ensures CanStep(s, u)
  {
    assert Local(s.m, t, s.threads[t]);
    if s.m.globalLocked {
      u := Witness(s.threads, GlobalWeight);
    } else if CanStep(s, t) {
      u := t;
    } else {
      u := s.m.lock[IdOf(s.threads[t])].owner;
      assert HeldBy(s, IdOf(s.threads[t]), u);
    }
  }

  /** Thread `u` keeps `t` waiting: it is in an increment of the same id, or holds the global lock. */
  predicate Bars(s: State, t: nat, u: nat)
    requires t < |s.threads| && u < |s.threads|
  {
    var th := s.threads[t];
    match th.pc
    case Idle =>
      if th.todo != [] && th.todo[0].Increment? then HeldBy(s, IdOf(th), u) else HasGlobal(s.threads[u].pc)
    case LockGlobal => HasGlobal(s.threads[u].pc)
    case _ => false
  }

  lemma GlobalHolder(s: State)
    requires Inv(s)
    ensures s.m.globalLocked <==> exists u: nat :: u < |s.threads| && HasGlobal(s.threads[u].pc)
  {
    if s.m.globalLocked {
      var u := Witness(s.threads, GlobalWeight);
    } else if u: nat :| u < |s.threads| && HasGlobal(s.threads[u].pc) {
      Member(s.threads, u, GlobalWeight);
    }
  }

  lemma LocalHolder(s: State, id: nat)
    requires Inv(s) && id < |s.m.lock|
    ensures s.m.lock[id].Held? <==> exists u: nat :: HeldBy(s, id, u)
  {
    forall u: nat | HeldBy(s, id, u) ensures s.m.lock[id] == Held(u) {
      assert Local(s.m, u, s.threads[u]);
    }
    if s.m.lock[id].Held? {
      assert HeldBy(s, id, s.m.lock[id].owner);
    }
  }

  lemma WaitsFor(s: State, t: nat)
    requires Inv(s) && t < |s.threads| && !Finished(s.threads[t])
    ensures CanStep(s, t) <==> forall u: nat :: u < |s.threads| && u != t ==> !Bars(s, t, u)
  {
    var th := s.threads[t];
    assert Local(s.m, t, th);
    if th.pc.Idle? && th.todo[0].Increment? {
      LocalHolder(s, IdOf(th));
      if !CanStep(s, t) {
        var u: nat :| HeldBy(s, IdOf(th), u);
        assert Bars(s, t, u);
      }
    } else if th.pc.Idle? || th.pc.LockGlobal? {
      GlobalHolder(s);
      if !CanStep(s, t) {
        var u: nat :| u < |s.threads| && HasGlobal(s.threads[u].pc);
        assert Bars(s, t, u);
      }
    }
  }

  /** In every reachable state an unfinished thread waits exactly for one that bars it. */
  lemma WaitsExactly(ids: nat, threshold: int, programs: seq<seq<Op>>, run: seq<nat>, t: nat)
    requires ValidPrograms(ids, programs)
    ensures var s := Reached(ids, threshold, programs, run);
      t < |s.threads| && !Finished(s.threads[t]) ==>
        (CanStep(s, t) <==> forall u: nat :: u < |s.threads| && u != t ==> !Bars(s, t, u))
  {
    var s := Reached(ids, threshold, programs, run);
    ReachedInv(ids, threshold, programs, run);
    if t < |s.threads| && !Finished(s.threads[t]) {
      WaitsFor(s, t);
    }
  }

  function ToGo(pc: Pc): nat {
    match pc
    case Idle => 11 case LoadLocal => 10 case StoreLocal(_) => 9 case TestLocal => 8 case LockGlobal => 7
    case LoadAmount => 6 case LoadValue(_) => 5 case StoreValue(_, _) => 4 case UnlockGlobal => 3 case ResetLocal => 2
    case UnlockLocal => 1 case ReadValue => 2 case UnlockGet(_) => 1
  }

  function WorkOf(th: Thread): nat { if th.todo == [] then 0 else (|th.todo| - 1) * 11 + ToGo(th.pc) }
  function Work(s: State): nat { Tally(s.threads, WorkOf) }

  /** How many increments of `id` a program asks for. */
  function Asked(todo: seq<Op>, id: nat): nat {
    if todo == [] then 0 else One(todo[0] == Increment(id)) + Asked(todo[1..], id)
  }

  /** How many of them the thread has yet to store. */
  function Owed(th: Thread, id: nat): nat {
    if th.todo != [] && !(th.pc.Idle? || th.pc.LoadLocal? || th.pc.StoreLocal?) then Asked(th.todo[1..], id)
    else Asked(th.todo, id)
  }

  function OwedOf(id: nat): Thread -> nat { th => Owed(th, id) }
  function AskedOf(id: nat): seq<Op> -> nat { todo => Asked(todo, id) }

  function Promised(id: nat, s: State): nat {
    (if id < |s.m.performed| then s.m.performed[id] else 0) + Tally(s.threads, OwedOf(id))
  }

  lemma ThreadOwes(m: Memory, t: nat, a: Thread, id: nat)
    requires Sizes(m) && Local(m, t, a) && Enabled(m, a) && id < |m.lock|
    ensures var (m', b) := Execute(m, t, a);
      id < |m'.performed| && m'.performed[id] + Owed(b, id) == m.performed[id] + Owed(a, id)
  {
  }

  lemma ThreadWork(m: Memory, t: nat, a: Thread)
    requires Local(m, t, a) && Enabled(m, a)
    ensures WorkOf(Execute(m, t, a).1) + 1 <= WorkOf(a)
  {
  }

  lemma StepAccounts(s: State, t: nat, id: nat)
    requires Inv(s)
    ensures Work(Next(s, t)) + One(CanStep(s, t)) <= Work(s)
    ensures id < |s.m.lock| ==> Promised(id, Next(s, t)) == Promised(id, s)
  {
    if CanStep(s, t) {
      var a, b := s.threads[t], Execute(s.m, t, s.threads[t]).1;
      assert Local(s.m, t, a);
      Update(s.threads, t, b, WorkOf);
      ThreadWork(s.m, t, a);
      if id < |s.m.lock| {
        Update(s.threads, t, b, OwedOf(id));
        ThreadOwes(s.m, t, a, id);
      }
    }
  }

  lemma {:induction false} PromiseKept(s: State, run: seq<nat>, id: nat)
    requires Inv(s) && id < |s.m.lock|
    ensures Promised(id, Exec(Next, s, run)) == Promised(id, s)
    decreases |run|
  {
    if run == [] {
    } else {
      StepAccounts(s, run[0], id);
      InvKept(s, run[0]);
      ShapeKept(s, run[0]);
      PromiseKept(Next(s, run[0]), run[1..], id);
    }
  }

  lemma Multiples(step: nat, a: nat, b: nat)
    requires a > b
    ensures Product(a, step) >= Product(b, step) + step
  {
    MoreOf(a - b - 1, b + 1, step);
    MoreOf(b, 1, step);
  }

  /** The quotient of a division is unique. */
  lemma DivideBy(n: nat, step: nat, q: nat, r: nat)
    requires step > 0 && n == Product(q, step) + r && r < step
    ensures n / step == q
  {
    var p := n / step;
    assert n == Product(p, step) + n % step;
    if p > q {
      Multiples(step, p, q);
    } else if p < q {
      Multiples(step, q, p);
    }
  }

  lemma AllDone(s: State)
    requires Inv(s) && forall t: nat :: !CanStep(s, t)
    ensures forall t: nat :: t < |s.threads| ==> Finished(s.threads[t])
    ensures forall id: nat :: id < |s.m.lock| ==> s.m.performed[id] / Effective(s.m) == s.m.flushes[id]
  {
    forall t: nat | t < |s.threads| ensures Finished(s.threads[t]) {
      if !Finished(s.threads[t]) {
        var u := Progress(s, t);
      }
    }
    forall id: nat | id < |s.m.lock| ensures s.m.performed[id] / Effective(s.m) == s.m.flushes[id] {
      assert ExactAt(s, id);
      UnflushedRange(s, id);
      DivideBy(s.m.performed[id], Effective(s.m), s.m.flushes[id], Unflushed(s, id));
    }
  }

  /** What the counter ends at: of the increments of each id, all but the last incomplete batch. */
  function FinalValue(step: nat, asked: seq<nat>): nat
    requires step > 0
  {
    if asked == [] then 0 else Product(asked[0] / step, step) + FinalValue(step, asked[1..])
  }

  lemma {:induction false} FinalFlushes(step: nat, asked: seq<nat>, flushes: seq<nat>)
    requires step > 0 && |asked| == |flushes| && forall i: nat :: i < |asked| ==> asked[i] / step == flushes[i]
    ensures FinalValue(step, asked) == Product(Tally(flushes, Id), step)
  {
    if asked == [] {
    } else {
      assert forall i: nat :: i < |asked[1..]| ==> asked[1..][i] == asked[i + 1] && flushes[1..][i] == flushes[i + 1];
      FinalFlushes(step, asked[1..], flushes[1..]);
      MoreOf(flushes[0], Tally(flushes[1..], Id), step);
    }
  }

  function AskedFor(ids: nat, programs: seq<seq<Op>>): seq<nat> {
    seq(ids, id requires 0 <= id < ids => Tally(programs, AskedOf(id)))
  }

  function Length(p: seq<Op>): nat { |p| }

  lemma {:induction false} WorkAtStart(ths: seq<Thread>, programs: seq<seq<Op>>)
    requires |ths| == |programs| && forall i: nat :: i < |ths| ==> ths[i] == Thread(Idle, programs[i])
    ensures Tally(ths, WorkOf) == 11 * Tally(programs, Length)
  {
    if ths == [] {
    } else {
      WorkAtStart(ths[1..], programs[1..]);
    }
  }

  /** Thread `t` stores an increment or reads the value. */
  function ActsAs(t: nat): (State, nat) -> bool {
    (s: State, c: nat) => c == t && CanStep(s, c) && (s.threads[c].pc.StoreLocal? || s.threads[c].pc.ReadValue?)
  }

  /** The operations that have yet to do so. */
  function Unacted(th: Thread): nat {
    if th.todo == [] then 0
    else if th.pc.Idle? || th.pc.LoadLocal? || th.pc.StoreLocal? || th.pc.ReadValue? then |th.todo|
    else |th.todo| - 1
  }

  lemma ThreadActs(m: Memory, t: nat, a: Thread)
    requires Local(m, t, a) && Enabled(m, a)
    ensures Unacted(Execute(m, t, a).1) + One(a.pc.StoreLocal? || a.pc.ReadValue?) == Unacted(a)
  {
  }

  ghost function UnactedOf(s: State, t: nat): int { if t < |s.threads| then Unacted(s.threads[t]) else 0 }

  lemma ActCounted(s: State, t: nat, c: nat)
    requires Inv(s)
    ensures UnactedOf(Next(s, c), t) + One(ActsAs(t)(s, c)) == UnactedOf(s, t)
  {
    if CanStep(s, c) {
      assert Local(s.m, c, s.threads[c]);
      ThreadActs(s.m, c, s.threads[c]);
    }
  }

  /** In every run, each operation of a thread stores one increment or reads the value once, or has yet to do so. */
  lemma EveryOperation(ids: nat, threshold: int, programs: seq<seq<Op>>, run: seq<nat>, t: nat)
    requires ValidPrograms(ids, programs) && t < |programs|
    ensures var i, s := Init(ids, threshold, programs), Reached(ids, threshold, programs, run);
      t < |s.threads| && |Events(Next, ActsAs(t), i, run)| + Unacted(s.threads[t]) == |programs[t]|
  {
    ghost var meter := (x: State) => UnactedOf(x, t);
    InitInv(ids, threshold, programs);
    ReachedInv(ids, threshold, programs, run);
    forall x, c: nat | Inv(x)
      ensures Inv(Next(x, c)) && meter(Next(x, c)) + (if ActsAs(t)(x, c) then 1 else 0) == meter(x)
    {
      InvKept(x, c);
      ActCounted(x, t, c);
    }
    Metered(Next, ActsAs(t), Inv, meter, Init(ids, threshold, programs), run);
  }

  /**
   A run executes at most 11 statements per operation, and the final value does not depend on the interleaving: where no
   thread can step, every thread has finished, and for each id the increments asked for have been performed and all
   but the remainder modulo the threshold are in it.
   */
  lemma Completion(ids: nat, threshold: int, programs: seq<seq<Op>>, run: seq<nat>)
    requires ValidPrograms(ids, programs)
    ensures var s, step := Reached(ids, threshold, programs, run), if threshold < 1 then 1 else threshold;
      && |Events(Next, CanStep, Init(ids, threshold, programs), run)| <= 11 * Tally(programs, Length)
      && ((forall t: nat :: !CanStep(s, t)) ==>
            && (forall t: nat :: t < |s.threads| ==> Finished(s.threads[t]))
            && s.m.performed == AskedFor(ids, programs)
            && s.m.value == FinalValue(step, AskedFor(ids, programs)))
  {
    var i, s := Init(ids, threshold, programs), Reached(ids, threshold, programs, run);
    ReachedInv(ids, threshold, programs, run);
    InitInv(ids, threshold, programs);
    forall x, c | Inv(x) ensures Inv(Next(x, c)) && Work(Next(x, c)) + (if CanStep(x, c) then 1 else 0) <= Work(x) {
      InvKept(x, c);
      StepAccounts(x, c, 0);
    }
    WorkBoundsSteps(Next, CanStep, Inv, Work, i, run);
    WorkAtStart(i.threads, programs);
    if forall t: nat :: !CanStep(s, t) {
      AllDone(s);
      forall id: nat | id < ids ensures s.m.performed[id] == AskedFor(ids, programs)[id] {
        PromiseKept(i, run, id);
        Same(i.threads, OwedOf(id), programs, AskedOf(id));
        Zero(s.threads, OwedOf(id));
      }
      FinalFlushes(Effective(s.m), s.m.performed, s.m.flushes);
    }
  }

  // ---------- the counter itself, updated in place ----------

  lemma AlwaysInBounds(s: State, t: nat)
    requires Inv(s) && CanStep(s, t)
    ensures var th := s.threads[t];
      && th.todo != [] && Sizes(s.m)
      && (th.todo[0].Increment? ==> IdOf(th) < |s.m.local| && !Getting(th.pc))
      && (th.todo[0].Get? ==> !Incrementing(th.pc))
  {
    assert Local(s.m, t, s.threads[t]);
  }

  class Counter {
    var value: int
    var globallock: bool
    const local: array<int>
    const locallock: array<Lock>
    const threshold: int
    var threads: seq<Thread>
    ghost var performed: seq<nat>
    ghost var flushes: seq<nat>

    ghost function Snapshot(): State
      reads this, local, locallock
    {
      State(Memory(value, globallock, local[..], locallock[..], threshold, performed, flushes), threads)
    }

    ghost predicate Valid()
      reads this, local, locallock
    {
      Inv(Snapshot())
    }

    /** Lines 24 to 32; the loop sets every local count and every lock. */
    constructor (ids: nat, threshold: int, programs: seq<seq<Op>>)
      requires ValidPrograms(ids, programs)
      ensures Valid() && Snapshot() == Init(ids, threshold, programs)
      ensures fresh(local) && fresh(locallock)
    {
      this.threshold := threshold;
      value, globallock := 0, false;
      local, locallock := new int[ids], new Lock[ids];
      threads := Init(ids, threshold, programs).threads;
      performed, flushes := Zeros(ids), Zeros(ids);
      new;
      for i := 0 to ids
        modifies local, locallock
        invariant forall j: nat :: j < i ==> local[j] == 0 && locallock[j] == Unlocked
      {
        local[i] := 0;
        locallock[i] := Unlocked;
      }
      assert Snapshot() == Init(ids, threshold, programs);
      InitInv(ids, threshold, programs);
    }

    method Goto(t: nat, pc: Pc)
      requires t < |threads|
      modifies this`threads
      ensures threads == old(threads)[t := old(threads)[t].(pc := pc)]
    {
      threads := threads[t := threads[t].(pc := pc)];
    }

    /** The next statement of `increment` in thread `t`. */
    method Increment(t: nat)
      requires CanStep(Snapshot(), t) && threads[t].todo != [] && threads[t].todo[0].Increment?
      requires IdOf(threads[t]) < local.Length == locallock.Length == |performed| == |flushes|
      requires !Getting(threads[t].pc)
      modifies this, local, locallock
      ensures Snapshot() == Next(old(Snapshot()), t)
    {
      ghost var s' := Next(Snapshot(), t);
      var id := threads[t].todo[0].id;
      match threads[t].pc {
        case Idle => locallock[id] := Held(t); Goto(t, LoadLocal);
        case LoadLocal => Goto(t, StoreLocal(local[id]));
        case StoreLocal(reg) =>
          local[id] := reg + 1;
          performed := Bump(performed, id);
          Goto(t, TestLocal);
        case TestLocal =>
          if local[id] >= threshold {
            Goto(t, LockGlobal);
          } else {
            Goto(t, UnlockLocal);
          }
        case LockGlobal => globallock := true; Goto(t, LoadAmount);
        case LoadAmount => Goto(t, LoadValue(local[id]));
        case LoadValue(amount) => Goto(t, StoreValue(amount, value));
        case StoreValue(amount, reg) =>
          value := reg + amount;
          flushes := Bump(flushes, id);
          Goto(t, UnlockGlobal);
        case UnlockGlobal => globallock := false; Goto(t, ResetLocal);
        case ResetLocal => local[id] := 0; Goto(t, UnlockLocal);
        case UnlockLocal =>
          locallock[id] := Unlocked;
          threads := threads[t := Thread(Idle, threads[t].todo[1..])];
      }
      assert Snapshot() == s';
    }

    /** The next statement of `get` in thread `t`. */
    method Get(t: nat)
      requires CanStep(Snapshot(), t) && threads[t].todo != [] && threads[t].todo[0].Get?
      requires !Incrementing(threads[t].pc)
      modifies this
      ensures Snapshot() == Next(old(Snapshot()), t)
    {
      ghost var s' := Next(Snapshot(), t);
      match threads[t].pc {
        case Idle => globallock := true; Goto(t, ReadValue);
        case ReadValue => Goto(t, UnlockGet(value));
        case UnlockGet(rc) =>
          globallock := false;
          threads := threads[t := Thread(Idle, threads[t].todo[1..])];
      }
      assert Snapshot() == s';
    }

    /** A thread executes its next statement; every index it uses is in bounds. */
    method Step(t: nat)
      requires Valid() && CanStep(Snapshot(), t)
      modifies this, local, locallock
      ensures Valid() && Snapshot() == Next(old(Snapshot()), t)
    {
      InvKept(Snapshot(), t);
      AlwaysInBounds(Snapshot(), t);
      if threads[t].todo[0].Increment? {
        Increment(t);
      } else {
        Get(t);
      }
    }
  }
}
