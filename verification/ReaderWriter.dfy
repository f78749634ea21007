/**
 The two readers-writers locks.  They differ only in the turnstile, so one machine models both: with `noStarve` it
 is the lock of reader-writer-nostarve.c, without it the lock of reader-writer.c, whose threads skip the turnstile.
 Any number of readers and writers run their loops; every shared load, store, wait and post is one step.
 */
module ReaderWriter {
  import opened Census
  import opened Runs

  /** Program counters, with the lines of reader-writer-nostarve.c; `reg` is the value last loaded. */
  datatype Pc =
    | RWaitTurnstile      // 39
    | RPostTurnstile      // 40
    | RWaitMutex          // 41
    | RLoad               // 42
    | RStore(reg: int)    // 42
    | RTest               // 44
    | RWaitLock           // 45
    | RPostMutex          // 47
    | RRead               // 84
    | RWaitMutexOut       // 51
    | RLoadOut            // 52
    | RStoreOut(reg: int) // 52
    | RTestOut            // 54
    | RPostLock           // 55
    | RPostMutexOut       // 57
    | WWaitTurnstile      // 62
    | WWaitLock           // 63
    | WLoad               // 94
    | WStore(reg: int)    // 94
    | WPrint              // 95
    | WPostTurnstile      // 67
    | WPostLock           // 68

  /** `left` is the number of loop iterations the thread has yet to complete, the current one included. */
  datatype Thread = Thread(pc: Pc, left: nat)

  /** The fields of the lock, the global `value`, and which of the two locks it is. */
  datatype Memory = Memory(noStarve: bool, mutex: int, writelock: int, turnstile: int, readers: int, value: int)

  datatype State = State(m: Memory, threads: seq<Thread>)

  function ReadBegin(noStarve: bool): Pc { if noStarve then RWaitTurnstile else RWaitMutex }
  function WriteBegin(noStarve: bool): Pc { if noStarve then WWaitTurnstile else WWaitLock }

  function InitThreads(noStarve: bool, readers: nat, writers: nat, loops: nat): seq<Thread> {
    seq(readers, _ => Thread(ReadBegin(noStarve), loops)) + seq(writers, _ => Thread(WriteBegin(noStarve), loops))
  }

  /** The readers are threads `0..readers`, the writers come after them. */
  function Init(noStarve: bool, readers: nat, writers: nat, loops: nat): State {
    State(Memory(noStarve, 1, 1, 1, 0, 0), InitThreads(noStarve, readers, writers, loops))
  }

  predicate AtBegin(m: Memory, th: Thread) { th.pc == ReadBegin(m.noStarve) || th.pc == WriteBegin(m.noStarve) }
  predicate Finished(m: Memory, th: Thread) { AtBegin(m, th) && th.left == 0 }

  predicate Enabled(m: Memory, th: Thread) {
    th.left > 0 &&
    match th.pc
    case RWaitTurnstile => m.turnstile > 0
    case WWaitTurnstile => m.turnstile > 0
    case RWaitMutex => m.mutex > 0
    case RWaitMutexOut => m.mutex > 0
    case RWaitLock => m.writelock > 0
    case WWaitLock => m.writelock > 0
    case _ => true
  }

  function At(th: Thread, pc: Pc): Thread { th.(pc := pc) }

  function Loop(th: Thread, begin: Pc): Thread { Thread(begin, if th.left == 0 then 0 else th.left - 1) }

  /** What the next statement of a thread does to the shared memory and to the thread. */
  function Execute(m: Memory, th: Thread): (Memory, Thread) {
    match th.pc
    case RWaitTurnstile => (m.(turnstile := m.turnstile - 1), At(th, RPostTurnstile))
    case RPostTurnstile => (m.(turnstile := m.turnstile + 1), At(th, RWaitMutex))
    case RWaitMutex => (m.(mutex := m.mutex - 1), At(th, RLoad))
    case RLoad => (m, At(th, RStore(m.readers)))
    case RStore(reg) => (m.(readers := reg + 1), At(th, RTest))
    case RTest => (m, At(th, if m.readers == 1 then RWaitLock else RPostMutex))
    case RWaitLock => (m.(writelock := m.writelock - 1), At(th, RPostMutex))
    case RPostMutex => (m.(mutex := m.mutex + 1), At(th, RRead))
    case RRead => (m, At(th, RWaitMutexOut))
    case RWaitMutexOut => (m.(mutex := m.mutex - 1), At(th, RLoadOut))
    case RLoadOut => (m, At(th, RStoreOut(m.readers)))
    case RStoreOut(reg) => (m.(readers := reg - 1), At(th, RTestOut))
    case RTestOut => (m, At(th, if m.readers == 0 then RPostLock else RPostMutexOut))
    case RPostLock => (m.(writelock := m.writelock + 1), At(th, RPostMutexOut))
    case RPostMutexOut => (m.(mutex := m.mutex + 1), Loop(th, ReadBegin(m.noStarve)))
    case WWaitTurnstile => (m.(turnstile := m.turnstile - 1), At(th, WWaitLock))
    case WWaitLock => (m.(writelock := m.writelock - 1), At(th, WLoad))
    case WLoad => (m, At(th, WStore(m.value)))
    case WStore(reg) => (m.(value := reg + 1), At(th, WPrint))
    case WPrint => (m, At(th, if m.noStarve then WPostTurnstile else WPostLock))
    case WPostTurnstile => (m.(turnstile := m.turnstile + 1), At(th, WPostLock))
    case WPostLock => (m.(writelock := m.writelock + 1), Loop(th, WriteBegin(m.noStarve)))
  }

  predicate CanStep(s: State, t: nat) { t < |s.threads| && Enabled(s.m, s.threads[t]) }

  /** Thread `t` executes its next statement, if it can. */
  function Next(s: State, t: nat): State {
    if CanStep(s, t) then
      var (m, th) := Execute(s.m, s.threads[t]);
      State(m, s.threads[t := th])
    else s
  }

  // ---------- where a thread is ----------

  predicate HasMutex(pc: Pc) {
    pc.RLoad? || pc.RStore? || pc.RTest? || pc.RWaitLock? || pc.RPostMutex? || pc.RLoadOut? || pc.RStoreOut?
    || pc.RTestOut? || pc.RPostLock? || pc.RPostMutexOut?
  }

  /** Counted by `readers`: between its increment and its decrement. */
  predicate Counted(pc: Pc) {
    pc.RTest? || pc.RWaitLock? || pc.RPostMutex? || pc.RRead? || pc.RWaitMutexOut? || pc.RLoadOut? || pc.RStoreOut?
  }

  predicate ReaderInside(pc: Pc) { Counted(pc) && !pc.RTest? && !pc.RWaitLock? }
  predicate WriterInside(pc: Pc) { pc.WLoad? || pc.WStore? || pc.WPrint? || pc.WPostTurnstile? || pc.WPostLock? }

  predicate HasTurnstile(pc: Pc) {
    pc.RPostTurnstile? || pc.WWaitLock? || pc.WLoad? || pc.WStore? || pc.WPrint? || pc.WPostTurnstile?
  }

  predicate UsesTurnstile(pc: Pc) {
    pc.RWaitTurnstile? || pc.RPostTurnstile? || pc.WWaitTurnstile? || pc.WPostTurnstile?
  }

  /** A reader past the turnstile and not yet in. */
  predicate PastTurnstile(pc: Pc) {
    pc.RPostTurnstile? || pc.RWaitMutex? || pc.RLoad? || pc.RStore? || pc.RTest? || pc.RWaitLock?
  }

  predicate IsWriter(pc: Pc) { pc.WWaitTurnstile? || pc.WWaitLock? || WriterInside(pc) }

  function MutexWeight(th: Thread): nat { One(HasMutex(th.pc)) }
  function CountedWeight(th: Thread): nat { One(Counted(th.pc)) }
  function WriterWeight(th: Thread): nat { One(WriterInside(th.pc)) }
  function TurnstileWeight(th: Thread): nat { One(HasTurnstile(th.pc)) }

  /** Increments of `value` the thread has yet to store. */
  function Owed(th: Thread): nat {
    if !IsWriter(th.pc) || th.left == 0 then 0
    else if th.pc.WPrint? || th.pc.WPostTurnstile? || th.pc.WPostLock? then th.left - 1
    else th.left
  }

  /** The first reader, counted but without `writelock` yet. */
  predicate Acquiring(m: Memory, pc: Pc) { pc.RWaitLock? || (pc.RTest? && m.readers == 1) }

  /** The last reader, no longer counted but with `writelock` still to be posted. */
  predicate Releasing(m: Memory, pc: Pc) { pc.RPostLock? || (pc.RTestOut? && m.readers == 0) }

  /** The readers, as a group, own `writelock`. */
  ghost predicate GroupOwns(s: State) {
    || (s.m.readers > 0 && !exists t: nat :: t < |s.threads| && Acquiring(s.m, s.threads[t].pc))
    || (exists t: nat :: t < |s.threads| && Releasing(s.m, s.threads[t].pc))
  }

  // ---------- the inductive invariant ----------

  predicate Local(m: Memory, th: Thread) {
    && (th.left == 0 ==> AtBegin(m, th))
    && (UsesTurnstile(th.pc) ==> m.noStarve)
    && match th.pc
       case RStore(reg) => reg == m.readers
       case RStoreOut(reg) => reg == m.readers
       case RWaitLock => m.readers == 1
       case RPostLock => m.readers == 0
       case WStore(reg) => reg == m.value
       case _ => true
  }

  ghost predicate Locals(s: State) {
    forall u: nat :: u < |s.threads| ==> Local(s.m, s.threads[u])
  }

  ghost predicate Counts(s: State) {
    && 0 <= s.m.mutex && s.m.mutex + Tally(s.threads, MutexWeight) == 1
    && s.m.readers == Tally(s.threads, CountedWeight)
    && (s.m.noStarve ==> 0 <= s.m.turnstile && s.m.turnstile + Tally(s.threads, TurnstileWeight) == 1)
  }

  /** `writelock` is free, or owned by exactly one writer, or owned by the readers as a group. */
  ghost predicate Ownership(s: State) {
    0 <= s.m.writelock && s.m.writelock + Tally(s.threads, WriterWeight) + One(GroupOwns(s)) == 1
  }

  ghost predicate Inv(s: State) { Counts(s) && Locals(s) && Ownership(s) }

  lemma InitWeights(noStarve: bool, readers: nat, writers: nat, loops: nat)
    ensures var ths := InitThreads(noStarve, readers, writers, loops);
      && Tally(ths, MutexWeight) == Tally(ths, CountedWeight) == Tally(ths, WriterWeight) == 0
      && (noStarve ==> Tally(ths, TurnstileWeight) == 0)
  {
    var ths := InitThreads(noStarve, readers, writers, loops);
    Zero(ths, MutexWeight);
    Zero(ths, CountedWeight);
    Zero(ths, WriterWeight);
    if noStarve {
      Zero(ths, TurnstileWeight);
    }
  }

  lemma InitInv(noStarve: bool, readers: nat, writers: nat, loops: nat)
    ensures Inv(Init(noStarve, readers, writers, loops))
  {
    InitWeights(noStarve, readers, writers, loops);
  }

  lemma Sums(s: State, t: nat)
    requires CanStep(s, t)
    ensures var a, b := s.threads, Next(s, t).threads;
      && |a| == |b| && (forall u: nat :: u < |a| && u != t ==> b[u] == a[u])
      && Tally(b, MutexWeight) + MutexWeight(a[t]) == Tally(a, MutexWeight) + MutexWeight(b[t])
      && Tally(b, CountedWeight) + CountedWeight(a[t]) == Tally(a, CountedWeight) + CountedWeight(b[t])
      && Tally(b, WriterWeight) + WriterWeight(a[t]) == Tally(a, WriterWeight) + WriterWeight(b[t])
      && Tally(b, TurnstileWeight) + TurnstileWeight(a[t]) == Tally(a, TurnstileWeight) + TurnstileWeight(b[t])
  {
    var x := Execute(s.m, s.threads[t]).1;
    Update(s.threads, t, x, MutexWeight);
    Update(s.threads, t, x, CountedWeight);
    Update(s.threads, t, x, WriterWeight);
    Update(s.threads, t, x, TurnstileWeight);
  }

  /** A statement changes each semaphore and counter by exactly what it changes in the weight of its thread. */
  lemma Deltas(m: Memory, a: Thread)
    requires Enabled(m, a) && Local(m, a)
    ensures var (m', b) := Execute(m, a);
      && m'.noStarve == m.noStarve
      && m'.mutex + MutexWeight(b) == m.mutex + MutexWeight(a)
      && m'.readers + CountedWeight(a) == m.readers + CountedWeight(b)
      && (m.noStarve ==> m'.turnstile + TurnstileWeight(b) == m.turnstile + TurnstileWeight(a))
      && (0 <= m.mutex ==> 0 <= m'.mutex) && (0 <= m.turnstile ==> 0 <= m'.turnstile)
      && (0 <= m.writelock ==> 0 <= m'.writelock)
  {
  }

  lemma OwnLocal(m: Memory, a: Thread)
    requires Enabled(m, a) && Local(m, a)
    ensures var (m', b) := Execute(m, a); Local(m', b) && m'.noStarve == m.noStarve
  {
  }

  lemma Untouched(m: Memory, a: Thread)
    requires Enabled(m, a) && Local(m, a)
    ensures var m' := Execute(m, a).0;
      && (!HasMutex(a.pc) ==> m'.readers == m.readers)
      && (!WriterInside(a.pc) ==> m'.value == m.value)
  {
  }

  lemma Shares(s: State, t: nat)
    requires Inv(s) && t < |s.threads|
    ensures HasMutex(s.threads[t].pc) ==>
      forall u: nat :: u < |s.threads| && u != t ==> !HasMutex(s.threads[u].pc)
    ensures WriterInside(s.threads[t].pc) ==>
      forall u: nat :: u < |s.threads| && u != t ==> !WriterInside(s.threads[u].pc)
    ensures s.m.noStarve && HasTurnstile(s.threads[t].pc) ==>
      forall u: nat :: u < |s.threads| && u != t ==> !HasTurnstile(s.threads[u].pc)
    ensures MutexWeight(s.threads[t]) <= Tally(s.threads, MutexWeight)
    ensures CountedWeight(s.threads[t]) <= Tally(s.threads, CountedWeight)
    ensures WriterWeight(s.threads[t]) <= Tally(s.threads, WriterWeight)
    ensures TurnstileWeight(s.threads[t]) <= Tally(s.threads, TurnstileWeight)
  {
    Exclusive(s.threads, MutexWeight);
    Exclusive(s.threads, WriterWeight);
    if s.m.noStarve {
      Exclusive(s.threads, TurnstileWeight);
    }
    Member(s.threads, t, MutexWeight);
    Member(s.threads, t, CountedWeight);
    Member(s.threads, t, WriterWeight);
    Member(s.threads, t, TurnstileWeight);
  }

  lemma CountsKept(s: State, t: nat)
    requires Inv(s)
    ensures Counts(Next(s, t))
  {
    if CanStep(s, t) {
      assert Local(s.m, s.threads[t]);
      Sums(s, t);
      Deltas(s.m, s.threads[t]);
    }
  }

  lemma LocalsKept(s: State, t: nat)
    requires Inv(s)
    ensures Locals(Next(s, t))
  {
    if CanStep(s, t) {
      var s' := Next(s, t);
      assert Local(s.m, s.threads[t]);
      OwnLocal(s.m, s.threads[t]);
      Sums(s, t);
      Untouched(s.m, s.threads[t]);
      Shares(s, t);
      forall u: nat | u < |s'.threads| && u != t ensures Local(s'.m, s'.threads[u]) {
        assert Local(s.m, s.threads[u]);
      }
    }
  }

  /** Who holds `mutex` decides whether the group owns `writelock`. */
  predicate GroupBy(m: Memory, pc: Pc) { (m.readers > 0 && !Acquiring(m, pc)) || Releasing(m, pc) }

  lemma GroupByHolder(s: State, t: nat)
    requires t < |s.threads|
    requires forall u: nat :: u < |s.threads| && u != t ==> !HasMutex(s.threads[u].pc)
    ensures GroupOwns(s) <==> GroupBy(s.m, s.threads[t].pc)
  {
  }

  lemma WriterMoves(m: Memory, a: Thread)
    requires Enabled(m, a) && Local(m, a) && 0 <= m.readers
    ensures var (m', b) := Execute(m, a);
      && (HasMutex(a.pc) || HasMutex(b.pc) ==>
          m'.writelock + WriterWeight(b) + One(GroupBy(m', b.pc))
          == m.writelock + WriterWeight(a) + One(GroupBy(m, a.pc)))
      && (!HasMutex(a.pc) ==> m'.writelock + WriterWeight(b) == m.writelock + WriterWeight(a))
      && (!HasMutex(a.pc) && HasMutex(b.pc) ==> m.mutex > 0)
  {
  }

  lemma GroupUntouched(s: State, t: nat)
    requires Inv(s) && CanStep(s, t) && !HasMutex(s.threads[t].pc) && !HasMutex(Next(s, t).threads[t].pc)
    ensures GroupOwns(Next(s, t)) <==> GroupOwns(s)
  {
    var s' := Next(s, t);
    assert Local(s.m, s.threads[t]);
    Sums(s, t);
    Untouched(s.m, s.threads[t]);
    assert forall u: nat :: u < |s.threads| ==> Acquiring(s'.m, s'.threads[u].pc) == Acquiring(s.m, s.threads[u].pc);
    assert forall u: nat :: u < |s.threads| ==> Releasing(s'.m, s'.threads[u].pc) == Releasing(s.m, s.threads[u].pc);
  }

  lemma OwnershipKept(s: State, t: nat)
    requires Inv(s)
    ensures Ownership(Next(s, t))
  {
    if CanStep(s, t) {
      var s' := Next(s, t);
      assert Local(s.m, s.threads[t]);
      Sums(s, t);
      Deltas(s.m, s.threads[t]);
      WriterMoves(s.m, s.threads[t]);
      if HasMutex(s.threads[t].pc) || HasMutex(s'.threads[t].pc) {
        forall u: nat | u < |s.threads| && u != t ensures !HasMutex(s.threads[u].pc) {
          Shares(s, t);
          Shares(s, u);
        }
        GroupByHolder(s, t);
        GroupByHolder(s', t);
      } else {
        GroupUntouched(s, t);
      }
    }
  }

  lemma InvKept(s: State, t: nat)
    requires Inv(s)
    ensures Inv(Next(s, t))
  {
    CountsKept(s, t);
    LocalsKept(s, t);
    OwnershipKept(s, t);
  }

  function Reached(noStarve: bool, readers: nat, writers: nat, loops: nat, run: seq<nat>): State {
    Exec(Next, Init(noStarve, readers, writers, loops), run)
  }

  lemma ReachedInv(noStarve: bool, readers: nat, writers: nat, loops: nat, run: seq<nat>)
    ensures Inv(Reached(noStarve, readers, writers, loops, run))
  {
    InitInv(noStarve, readers, writers, loops);
    forall x, c | Inv(x) ensures Inv(Next(x, c)) { InvKept(x, c); }
    Always(Next, Inv, Init(noStarve, readers, writers, loops), run);
  }

  // ---------- refinement of one abstract readers/writer room ----------

  datatype Room = Room(readers: set<nat>, writers: set<nat>)

  ghost predicate SpecStep(a: Room, b: Room) {
    || b == a
    || (exists i :: i !in a.readers && a.writers == {} && b == a.(readers := a.readers + {i}))
    || (exists i :: i in a.readers && b == a.(readers := a.readers - {i}))
    || (exists i :: a == Room({}, {}) && b == Room({}, {i}))
    || (exists i :: i in a.writers && b == a.(writers := a.writers - {i}))
  }

  ghost predicate Steps(rooms: seq<Room>) {
    forall k: nat :: k + 1 < |rooms| ==> SpecStep(rooms[k], rooms[k + 1])
  }

  ghost predicate SpecRun(rooms: seq<Room>) {
    |rooms| > 0 && rooms[0] == Room({}, {}) && Steps(rooms)
  }

  /** What the abstract room promises: readers or a writer, never both, and one writer at most. */
  predicate Safe(a: Room) { (a.readers == {} || a.writers == {}) && |a.writers| <= 1 }

  lemma {:induction false} SpecRunIsSafe(rooms: seq<Room>, k: nat)
    requires SpecRun(rooms) && k < |rooms|
    ensures Safe(rooms[k])
  {
    if k == 0 {
    } else {
      SpecRunIsSafe(rooms, k - 1);
      var a, b := rooms[k - 1], rooms[k - 1 + 1];
      assert SpecStep(a, b);
      if b.writers != a.writers && !(exists i :: a == Room({}, {}) && b == Room({}, {i})) {
        var i :| i in a.writers && b == a.(writers := a.writers - {i});
        assert |a.writers - {i}| == |a.writers| - 1;
      }
    }
  }

  ghost function Occupants(s: State): Room {
    Room(set t: nat | t < |s.threads| && ReaderInside(s.threads[t].pc),
         set t: nat | t < |s.threads| && WriterInside(s.threads[t].pc))
  }

  /** The rooms that a run goes through. */
  ghost function Rooms(s: State, run: seq<nat>): seq<Room>
    decreases |run|
  {
    [Occupants(s)] + if run == [] then [] else Rooms(Next(s, run[0]), run[1..])
  }

  predicate Enters(m: Memory, pc: Pc) { pc.RWaitLock? || (pc.RTest? && m.readers != 1) }

  predicate EntersRead(s: State, t: nat) {
    CanStep(s, t) && Enters(s.m, s.threads[t].pc)
  }
  predicate LeavesRead(s: State, t: nat) { CanStep(s, t) && s.threads[t].pc.RStoreOut? }
  predicate EntersWrite(s: State, t: nat) { CanStep(s, t) && s.threads[t].pc.WWaitLock? }
  predicate LeavesWrite(s: State, t: nat) { CanStep(s, t) && s.threads[t].pc.WPostLock? }

  lemma Moves(m: Memory, th: Thread)
    requires Enabled(m, th) && Local(m, th)
    ensures var a, b := th.pc, Execute(m, th).1.pc;
      && (ReaderInside(b) <==> Enters(m, a) || (ReaderInside(a) && !a.RStoreOut?))
      && (WriterInside(b) <==> a.WWaitLock? || (WriterInside(a) && !a.WPostLock?))
  {
  }

  /** A reader inside means that the group owns `writelock`. */
  lemma InsideOwns(s: State, t: nat)
    requires Inv(s) && t < |s.threads|
    requires ReaderInside(s.threads[t].pc) || (s.threads[t].pc.RTest? && s.m.readers != 1)
    ensures GroupOwns(s) && s.m.writelock == 0
    ensures forall u: nat :: u < |s.threads| ==> !WriterInside(s.threads[u].pc)
  {
    Shares(s, t);
    if u: nat :| u < |s.threads| && Acquiring(s.m, s.threads[u].pc) {
      assert Local(s.m, s.threads[u]);
      Pair(s.threads, t, u, CountedWeight);
    }
    forall u: nat | u < |s.threads| ensures !WriterInside(s.threads[u].pc) {
      Shares(s, u);
    }
  }

  lemma ReadersStep(s: State, t: nat)
    requires Inv(s) && CanStep(s, t)
    ensures var a, b := Occupants(s).readers, Occupants(Next(s, t)).readers;
      && b == (if EntersRead(s, t) then a + {t} else if LeavesRead(s, t) then a - {t} else a)
      && (EntersRead(s, t) ==> t !in a) && (LeavesRead(s, t) ==> t in a)
  {
    assert Local(s.m, s.threads[t]);
    Sums(s, t);
    Moves(s.m, s.threads[t]);
  }

  lemma WritersStep(s: State, t: nat)
    requires Inv(s) && CanStep(s, t)
    ensures var a, b := Occupants(s).writers, Occupants(Next(s, t)).writers;
      && b == (if EntersWrite(s, t) then a + {t} else if LeavesWrite(s, t) then a - {t} else a)
      && (LeavesWrite(s, t) ==> t in a)
  {
    assert Local(s.m, s.threads[t]);
    Sums(s, t);
    Moves(s.m, s.threads[t]);
  }

  lemma NoWriters(s: State, t: nat)
    requires Inv(s) && EntersRead(s, t)
    ensures Occupants(s).writers == {}
  {
    forall u | u in Occupants(s).writers ensures false {
      if s.threads[t].pc.RTest? {
        InsideOwns(s, t);
      } else {
        Member(s.threads, u, WriterWeight);
      }
    }
  }

  lemma EmptyRoom(s: State)
    requires Inv(s) && s.m.writelock > 0
    ensures Occupants(s) == Room({}, {})
  {
    var a := Occupants(s);
    forall u | u in a.readers ensures false { InsideOwns(s, u); }
    forall u | u in a.writers ensures false { Member(s.threads, u, WriterWeight); }
    assert a.readers == {} && a.writers == {};
  }

  lemma Refines(s: State, t: nat)
    requires Inv(s)
    ensures SpecStep(Occupants(s), Occupants(Next(s, t)))
  {
    if CanStep(s, t) {
      ReadersStep(s, t);
      WritersStep(s, t);
      if EntersRead(s, t) {
        NoWriters(s, t);
      } else if EntersWrite(s, t) {
        EmptyRoom(s);
      }
    }
  }

  lemma NoWritersAfter(s: State, t: nat)
    requires Inv(s) && CanStep(s, t)
    ensures ReaderInside(Next(s, t).threads[t].pc) ==> Occupants(Next(s, t)).writers == {}
  {
    InvKept(s, t);
    Sums(s, t);
    if ReaderInside(Next(s, t).threads[t].pc) {
      InsideOwns(Next(s, t), t);
    }
  }

  lemma StepsFrom(a: Room, rooms: seq<Room>)
    requires |rooms| > 0 && SpecStep(a, rooms[0]) && Steps(rooms)
    ensures Steps([a] + rooms)
  {
    forall k: nat | k + 1 < |[a] + rooms| ensures SpecStep(([a] + rooms)[k], ([a] + rooms)[k + 1]) {
      if k > 0 {
        assert SpecStep(rooms[k - 1], rooms[k - 1 + 1]);
      }
    }
  }

  lemma {:induction false} RefinesRun(s: State, run: seq<nat>)
    requires Inv(s)
    ensures |Rooms(s, run)| == |run| + 1 && Rooms(s, run)[0] == Occupants(s)
    ensures Rooms(s, run)[|run|] == Occupants(Exec(Next, s, run))
    ensures Steps(Rooms(s, run))
    decreases |run|
  {
    if run == [] {
    } else {
      var s' := Next(s, run[0]);
      Refines(s, run[0]);
      InvKept(s, run[0]);
      RefinesRun(s', run[1..]);
      StepsFrom(Occupants(s), Rooms(s', run[1..]));
    }
  }

  /** Every run of either lock is a run of the abstract room, so readers and a writer are never inside together. */
  lemma Refinement(noStarve: bool, readers: nat, writers: nat, loops: nat, run: seq<nat>)
    ensures var rooms := Rooms(Init(noStarve, readers, writers, loops), run);
      && SpecRun(rooms) && |rooms| == |run| + 1
      && rooms[|run|] == Occupants(Reached(noStarve, readers, writers, loops, run))
      && Safe(rooms[|run|])
  {
    var s := Init(noStarve, readers, writers, loops);
    InitInv(noStarve, readers, writers, loops);
    RefinesRun(s, run);
    assert Occupants(s) == Room({}, {});
    SpecRunIsSafe(Rooms(s, run), |run|);
  }

  // ---------- who waits for whom ----------

  /**
   Thread `u` keeps `t` waiting: it holds the turnstile or `mutex`; or it is a writer inside; or, for a writer, it is a
   reader inside or the last reader, who has yet to post `writelock`.
   */
  predicate Bars(s: State, t: nat, u: nat)
    requires t < |s.threads| && u < |s.threads|
  {
    var other := s.threads[u].pc;
    match s.threads[t].pc
    case RWaitTurnstile => HasTurnstile(other)
    case WWaitTurnstile => HasTurnstile(other)
    case RWaitMutex => HasMutex(other)
    case RWaitMutexOut => HasMutex(other)
    case RWaitLock => WriterInside(other)
    case WWaitLock => WriterInside(other) || ReaderInside(other) || Releasing(s.m, other)
    case _ => false
  }

  ghost predicate Free(s: State, t: nat)
    requires t < |s.threads|
  {
    forall u: nat :: u < |s.threads| && u != t ==> !Bars(s, t, u)
  }

  lemma BarsTurnstile(s: State, t: nat)
    requires Inv(s) && t < |s.threads| && (s.threads[t].pc.RWaitTurnstile? || s.threads[t].pc.WWaitTurnstile?)
    ensures s.m.turnstile > 0 <==> Free(s, t)
  {
    assert Local(s.m, s.threads[t]);
    if s.m.turnstile > 0 {
      forall u: nat | u < |s.threads| ensures !Bars(s, t, u) { Shares(s, u); }
    } else {
      var u := Witness(s.threads, TurnstileWeight);
      assert Bars(s, t, u);
    }
  }

  lemma BarsMutex(s: State, t: nat)
    requires Inv(s) && t < |s.threads| && (s.threads[t].pc.RWaitMutex? || s.threads[t].pc.RWaitMutexOut?)
    ensures s.m.mutex > 0 <==> Free(s, t)
  {
    if s.m.mutex > 0 {
      forall u: nat | u < |s.threads| ensures !Bars(s, t, u) { Shares(s, u); }
    } else {
      var u := Witness(s.threads, MutexWeight);
      assert Bars(s, t, u);
    }
  }

  lemma BarsFirst(s: State, t: nat)
    requires Inv(s) && t < |s.threads| && s.threads[t].pc.RWaitLock?
    ensures s.m.writelock > 0 <==> Free(s, t)
  {
    GroupByHolder(s, t) by { Shares(s, t); }
    if s.m.writelock > 0 {
      forall u: nat | u < |s.threads| ensures !Bars(s, t, u) { Member(s.threads, u, WriterWeight); }
    } else {
      var u := Witness(s.threads, WriterWeight);
      assert Bars(s, t, u);
    }
  }

  /** When the readers own `writelock`, one of them is inside, or the last of them has yet to post it. */
  lemma SomeOwner(s: State) returns (u: nat)
    requires Inv(s) && GroupOwns(s)
    ensures u < |s.threads| && (ReaderInside(s.threads[u].pc) || Releasing(s.m, s.threads[u].pc))
  {
    if v: nat :| v < |s.threads| && Releasing(s.m, s.threads[v].pc) {
      u := v;
    } else {
      u := Witness(s.threads, CountedWeight);
      if s.threads[u].pc.RTest? {
        // there is another reader, and it does not hold `mutex`
        var x := s.threads[u].(pc := RWaitMutex);
        Update(s.threads, u, x, CountedWeight);
        Shares(s, u);
        u := Witness(s.threads[u := x], CountedWeight);
      }
    }
  }

  lemma BarsWriter(s: State, t: nat)
    requires Inv(s) && t < |s.threads| && s.threads[t].pc.WWaitLock?
    ensures s.m.writelock > 0 <==> Free(s, t)
  {
    if s.m.writelock > 0 {
      EmptyRoom(s);
      forall u: nat | u < |s.threads| ensures !Bars(s, t, u) {
        assert u !in Occupants(s).readers && u !in Occupants(s).writers;
      }
    } else if Tally(s.threads, WriterWeight) > 0 {
      var u := Witness(s.threads, WriterWeight);
      assert Bars(s, t, u);
    } else {
      var u := SomeOwner(s);
      assert Bars(s, t, u);
    }
  }

  /** No unfinished thread waits without somebody who keeps it waiting, and whoever is kept waiting cannot step. */
  lemma WaitsFor(s: State, t: nat)
    requires Inv(s) && t < |s.threads| && !Finished(s.m, s.threads[t])
    ensures CanStep(s, t) <==> Free(s, t)
  {
    assert Local(s.m, s.threads[t]);
    match s.threads[t].pc
    case RWaitTurnstile => BarsTurnstile(s, t);
    case WWaitTurnstile => BarsTurnstile(s, t);
    case RWaitMutex => BarsMutex(s, t);
    case RWaitMutexOut => BarsMutex(s, t);
    case RWaitLock => BarsFirst(s, t);
    case WWaitLock => BarsWriter(s, t);
    case _ =>
  }

  /** In every reachable state of either lock an unfinished thread waits exactly for one that bars it. */
  lemma WaitsExactly(noStarve: bool, readers: nat, writers: nat, loops: nat, run: seq<nat>, t: nat)
    ensures var s := Reached(noStarve, readers, writers, loops, run);
      t < |s.threads| && !Finished(s.m, s.threads[t]) ==>
        (CanStep(s, t) <==> forall u: nat :: u < |s.threads| && u != t ==> !Bars(s, t, u))
  {
    var s := Reached(noStarve, readers, writers, loops, run);
    ReachedInv(noStarve, readers, writers, loops, run);
    if t < |s.threads| && !Finished(s.m, s.threads[t]) {
      WaitsFor(s, t);
    }
  }

  // ---------- what a reader sees ----------

  lemma {:induction false} StableWhileInside(s: State, r: nat, run: seq<nat>)
    requires Inv(s) && r < |s.threads| && ReaderInside(s.threads[r].pc)
    requires r !in Events(Next, LeavesRead, s, run)
    ensures var end := Exec(Next, s, run);
      Inv(end) && r < |end.threads| && ReaderInside(end.threads[r].pc) && end.m.value == s.m.value
    decreases |run|
  {
    if run == [] {
    } else {
      InvKept(s, run[0]);
      InsideOwns(s, r);
      if CanStep(s, run[0]) {
        assert Local(s.m, s.threads[run[0]]);
        Sums(s, run[0]);
        Moves(s.m, s.threads[run[0]]);
        Untouched(s.m, s.threads[run[0]]);
      }
      StableWhileInside(Next(s, run[0]), r, run[1..]);
    }
  }

  /** From its entry to its exit, whatever the others do, a reader sees one and the same `value`. */
  lemma ReaderSeesOneValue(noStarve: bool, readers: nat, writers: nat, loops: nat, before: seq<nat>, r: nat,
      during: seq<nat>)
    requires var s := Reached(noStarve, readers, writers, loops, before);
      r < |s.threads| && ReaderInside(s.threads[r].pc) && r !in Events(Next, LeavesRead, s, during)
    ensures var s := Reached(noStarve, readers, writers, loops, before);
      Exec(Next, s, during).m.value == s.m.value
  {
    ReachedInv(noStarve, readers, writers, loops, before);
    StableWhileInside(Reached(noStarve, readers, writers, loops, before), r, during);
  }

  // ---------- deadlock freedom, completion and lost updates ----------

  /** When the group owns `writelock` and nobody holds `mutex`, some reader inside can go on. */
  lemma IdleGroup(s: State) returns (u: nat)
    requires Inv(s) && s.m.mutex > 0 && s.m.writelock == 0 && Tally(s.threads, WriterWeight) == 0
    ensures CanStep(s, u)
  {
    forall v: nat | v < |s.threads| ensures !HasMutex(s.threads[v].pc) {
      Member(s.threads, v, MutexWeight);
    }
    u := Witness(s.threads, CountedWeight);
    assert Local(s.m, s.threads[u]);
  }

  /** In a state of the invariant, an unfinished thread means that some thread can step. */
  lemma Progress(s: State, t: nat) returns (u: nat)
    requires Inv(s) && t < |s.threads| && !Finished(s.m, s.threads[t])
    ensures CanStep(s, u)
  {
    if CanStep(s, t) {
      return t;
    }
    assert Local(s.m, s.threads[t]);
    if Tally(s.threads, WriterWeight) > 0 {
      u := Witness(s.threads, WriterWeight);
      assert Local(s.m, s.threads[u]);
    } else if s.m.mutex == 0 {
      u := Witness(s.threads, MutexWeight);
      assert Local(s.m, s.threads[u]);
      if s.threads[u].pc.RWaitLock? {
        // the first reader waits for writelock, which nobody owns
        GroupByHolder(s, u) by { Shares(s, u); }
      }
    } else if s.m.writelock == 0 {
      u := IdleGroup(s);
    } else if s.m.noStarve && s.m.turnstile == 0 {
      u := Witness(s.threads, TurnstileWeight);
      assert Local(s.m, s.threads[u]);
      Member(s.threads, u, WriterWeight);
    } else {
      u := t;
      Member(s.threads, t, MutexWeight);
    }
  }

  lemma AllDone(s: State)
    requires Inv(s) && forall t: nat :: !CanStep(s, t)
    ensures forall t: nat :: t < |s.threads| ==> Finished(s.m, s.threads[t])
  {
    forall t: nat | t < |s.threads| ensures Finished(s.m, s.threads[t]) {
      if !Finished(s.m, s.threads[t]) {
        var u := Progress(s, t);
      }
    }
  }

  /** Statements left in the current iteration. */
  function ToGo(pc: Pc): nat {
    match pc
    case RWaitTurnstile => 15 case RPostTurnstile => 14 case RWaitMutex => 13 case RLoad => 12 case RStore(_) => 11
    case RTest => 10 case RWaitLock => 9 case RPostMutex => 8 case RRead => 7 case RWaitMutexOut => 6
    case RLoadOut => 5 case RStoreOut(_) => 4 case RTestOut => 3 case RPostLock => 2 case RPostMutexOut => 1
    case WWaitTurnstile => 7 case WWaitLock => 6 case WLoad => 5 case WStore(_) => 4 case WPrint => 3
    case WPostTurnstile => 2 case WPostLock => 1
  }

  function WorkOf(th: Thread): nat { if th.left == 0 then 0 else (th.left - 1) * 15 + ToGo(th.pc) }
  function Work(s: State): nat { Tally(s.threads, WorkOf) }
  function Promised(s: State): int { s.m.value + Tally(s.threads, Owed) }

  lemma ThreadAccounts(m: Memory, a: Thread)
    requires Enabled(m, a) && Local(m, a)
    ensures var (m', b) := Execute(m, a);
      WorkOf(b) + 1 <= WorkOf(a) && m'.value + Owed(b) == m.value + Owed(a) && m'.noStarve == m.noStarve
  {
  }

  function Shape(s: State): (nat, bool) { (|s.threads|, s.m.noStarve) }

  lemma StepAccounts(s: State, t: nat)
    requires Inv(s)
    ensures Work(Next(s, t)) + One(CanStep(s, t)) <= Work(s)
    ensures Promised(Next(s, t)) == Promised(s)
    ensures Shape(Next(s, t)) == Shape(s)
  {
    if CanStep(s, t) {
      var x := Next(s, t).threads[t];
      assert Local(s.m, s.threads[t]);
      Update(s.threads, t, x, WorkOf);
      Update(s.threads, t, x, Owed);
      ThreadAccounts(s.m, s.threads[t]);
    }
  }

  lemma RunAccounts(s: State, run: seq<nat>)
    requires Inv(s)
    ensures |Events(Next, CanStep, s, run)| + Work(Exec(Next, s, run)) <= Work(s)
    ensures Promised(Exec(Next, s, run)) == Promised(s)
    ensures Shape(Exec(Next, s, run)) == Shape(s)
  {
    forall x, c | Inv(x)
      ensures Inv(Next(x, c)) && Promised(Next(x, c)) == Promised(x) && Shape(Next(x, c)) == Shape(x)
      ensures Work(Next(x, c)) + (if CanStep(x, c) then 1 else 0) <= Work(x)
    {
      InvKept(x, c);
      StepAccounts(x, c);
    }
    WorkBoundsSteps(Next, CanStep, Inv, Work, s, run);
    Conserved(Next, Inv, Promised, s, run);
    Conserved(Next, Inv, Shape, s, run);
  }

  lemma ReachedShape(noStarve: bool, readers: nat, writers: nat, loops: nat, run: seq<nat>)
    ensures Shape(Reached(noStarve, readers, writers, loops, run)) == (readers + writers, noStarve)
  {
    InitInv(noStarve, readers, writers, loops);
    RunAccounts(Init(noStarve, readers, writers, loops), run);
  }

  lemma {:induction false} Concat(a: seq<Thread>, b: seq<Thread>, w: Thread -> nat)
    ensures Tally(a + b, w) == Tally(a, w) + Tally(b, w)
  {
    if a == [] {
      assert a + b == b;
    } else {
      assert (a + b)[1..] == a[1..] + b;
      Concat(a[1..], b, w);
    }
  }

  lemma InitAccounts(noStarve: bool, readers: nat, writers: nat, loops: nat)
    ensures Promised(Init(noStarve, readers, writers, loops)) == writers * loops
    ensures Work(Init(noStarve, readers, writers, loops)) <= (readers + writers) * (loops * 15)
  {
    var r := seq(readers, _ => Thread(ReadBegin(noStarve), loops));
    var w := seq(writers, _ => Thread(WriteBegin(noStarve), loops));
    Concat(r, w, Owed);
    Zero(r, Owed);
    AllEqual(w, Owed, loops);
    AtMost(r + w, WorkOf, loops * 15);
  }

  /** Thread `t` enters, as a reader or as a writer. */
  function EntersAs(t: nat): (State, nat) -> bool {
    (s: State, c: nat) => c == t && (EntersRead(s, c) || EntersWrite(s, c))
  }

  /** How often a thread will still enter. */
  function Entries(m: Memory, th: Thread): nat {
    if th.left == 0 then 0
    else if AtBegin(m, th) || PastTurnstile(th.pc) || th.pc.WWaitLock? then th.left
    else th.left - 1
  }

  lemma EntriesMove(m: Memory, th: Thread)
    requires Enabled(m, th) && Local(m, th)
    ensures var (m', th') := Execute(m, th);
      m'.noStarve == m.noStarve && Entries(m, th) == Entries(m', th') + One(Enters(m, th.pc) || th.pc.WWaitLock?)
  {
  }

  ghost function EntriesOf(s: State, t: nat): int { if t < |s.threads| then Entries(s.m, s.threads[t]) else 0 }

  lemma EntryCounted(s: State, t: nat, c: nat)
    requires Inv(s)
    ensures EntriesOf(Next(s, c), t) + One(EntersAs(t)(s, c)) == EntriesOf(s, t)
  {
    if CanStep(s, c) {
      assert Local(s.m, s.threads[c]);
      EntriesMove(s.m, s.threads[c]);
    }
  }

  /** In every run of either lock, the entries of a thread and those it has yet to make are its loops. */
  lemma EveryEntry(noStarve: bool, readers: nat, writers: nat, loops: nat, run: seq<nat>, t: nat)
    requires t < readers + writers
    ensures var i, s := Init(noStarve, readers, writers, loops), Reached(noStarve, readers, writers, loops, run);
      t < |s.threads| && |Events(Next, EntersAs(t), i, run)| + Entries(s.m, s.threads[t]) == loops
  {
    ghost var meter := (x: State) => EntriesOf(x, t);
    var i := Init(noStarve, readers, writers, loops);
    InitInv(noStarve, readers, writers, loops);
    ReachedShape(noStarve, readers, writers, loops, run);
    forall x, c: nat | Inv(x)
      ensures Inv(Next(x, c)) && meter(Next(x, c)) + (if EntersAs(t)(x, c) then 1 else 0) == meter(x)
    {
      InvKept(x, c);
      EntryCounted(x, t, c);
    }
    Metered(Next, EntersAs(t), Inv, meter, i, run);
  }

  /**
   No deadlock and no lost update: a run executes at most 15 statements per loop iteration, and where no thread can
   step, every thread has finished its loops and entered in each of them, and `value` counts every write.
   */
  lemma Completion(noStarve: bool, readers: nat, writers: nat, loops: nat, run: seq<nat>)
    ensures var s := Reached(noStarve, readers, writers, loops, run);
      && |Events(Next, CanStep, Init(noStarve, readers, writers, loops), run)| <= (readers + writers) * (loops * 15)
      && |s.threads| == readers + writers
      && ((forall t: nat :: !CanStep(s, t)) ==>
          && s.m.value == writers * loops
          && (forall t: nat :: t < readers + writers ==>
              && Finished(s.m, s.threads[t])
              && |Events(Next, EntersAs(t), Init(noStarve, readers, writers, loops), run)| == loops))
  {
    var i := Init(noStarve, readers, writers, loops);
    var s := Reached(noStarve, readers, writers, loops, run);
    ReachedInv(noStarve, readers, writers, loops, run);
    InitInv(noStarve, readers, writers, loops);
    RunAccounts(i, run);
    InitAccounts(noStarve, readers, writers, loops);
    if forall t: nat :: !CanStep(s, t) {
      AllDone(s);
      Zero(s.threads, Owed);
      forall t: nat | t < readers + writers ensures |Events(Next, EntersAs(t), i, run)| == loops {
        EveryEntry(noStarve, readers, writers, loops, run, t);
      }
    }
  }

  // ---------- writers do not starve behind the turnstile ----------

  predicate PassesTurnstile(s: State, t: nat) {
    CanStep(s, t) && (s.threads[t].pc.RWaitTurnstile? || s.threads[t].pc.WWaitTurnstile?)
  }

  ghost function Approaching(s: State): set<nat> {
    set t: nat | t < |s.threads| && PastTurnstile(s.threads[t].pc)
  }

  /** Writer `w` has passed the turnstile and waits for `writelock`. */
  ghost predicate WriterWaits(s: State, w: nat) {
    Inv(s) && s.m.noStarve && w < |s.threads| && s.threads[w].pc.WWaitLock?
  }

  lemma ApproachMoves(m: Memory, th: Thread)
    requires Enabled(m, th) && Local(m, th) && m.noStarve
    ensures PastTurnstile(Execute(m, th).1.pc) <==>
      th.pc.RWaitTurnstile? || (PastTurnstile(th.pc) && !Enters(m, th.pc))
  {
  }

  lemma ApproachStep(s: State, t: nat)
    requires CanStep(s, t)
    ensures var rest := Approaching(s) - {t};
      Approaching(Next(s, t)) == if PastTurnstile(Next(s, t).threads[t].pc) then rest + {t} else rest
  {
  }

  lemma WriterWaitsStep(s: State, w: nat, t: nat)
    requires WriterWaits(s, w)
    ensures EntersWrite(s, t) ==> t == w
    ensures !PassesTurnstile(s, t)
    ensures EntersRead(s, t) ==> t in Approaching(s)
    ensures Approaching(Next(s, t)) == Approaching(s) - (if EntersRead(s, t) then {t} else {})
    ensures !EntersWrite(s, t) ==> WriterWaits(Next(s, t), w)
  {
    Shares(s, w);
    InvKept(s, t);
    if CanStep(s, t) {
      assert Local(s.m, s.threads[t]);
      ApproachMoves(s.m, s.threads[t]);
      ApproachStep(s, t);
      Deltas(s.m, s.threads[t]);
    }
  }

  lemma {:induction false} OnlyThatWriter(s: State, w: nat, run: seq<nat>)
    requires WriterWaits(s, w) && w !in Events(Next, EntersWrite, s, run)
    ensures Events(Next, EntersWrite, s, run) == []
    decreases |run|
  {
    if run == [] {
    } else {
      WriterWaitsStep(s, w, run[0]);
      assert !EntersWrite(s, run[0]);
      OnlyThatWriter(Next(s, run[0]), w, run[1..]);
    }
  }

  /**
   No starvation of writers: from the time writer `w` has passed the turnstile until it enters, nobody passes the
   turnstile, no other writer enters, and the readers that enter are those that were past the turnstile and not
   yet in, each at most once.
   */
  lemma WriterBound(readers: nat, writers: nat, loops: nat, before: seq<nat>, w: nat, after: seq<nat>)
    requires var s := Reached(true, readers, writers, loops, before);
      w < |s.threads| && s.threads[w].pc.WWaitLock? && w !in Events(Next, EntersWrite, s, after)
    ensures var s := Reached(true, readers, writers, loops, before);
      var entries := Events(Next, EntersRead, s, after);
      && Events(Next, PassesTurnstile, s, after) == [] && Events(Next, EntersWrite, s, after) == []
      && multiset(entries) + multiset(Approaching(Exec(Next, s, after))) == multiset(Approaching(s))
      && |entries| <= |Approaching(s)|
  {
    var s := Reached(true, readers, writers, loops, before);
    ReachedInv(true, readers, writers, loops, before);
    ReachedShape(true, readers, writers, loops, before);
    OnlyThatWriter(s, w, after);
    ghost var inv := (x: State) => WriterWaits(x, w);
    forall x, c ensures Leaves(Next, inv, EntersWrite, PassesTurnstile, EntersRead, Approaching, x, c) {
      if inv(x) && !EntersWrite(x, c) {
        WriterWaitsStep(x, w, c);
      }
    }
    Drains(Next, inv, EntersWrite, PassesTurnstile, EntersRead, Approaching, s, after);
    var entries := Events(Next, EntersRead, s, after);
    assert |multiset(entries)| <= |multiset(entries) + multiset(Approaching(Exec(Next, s, after)))|;
  }

  // ---------- before the turnstile, and without one, they do ----------

  /**
   Reader `c` runs and writer `w` waits at the start of its acquisition, like everybody else but reader `r`, who is
   inside the plain lock.
   */
  ghost predicate Alone(s: State, r: nat, w: nat, c: nat) {
    && Inv(s) && w < |s.threads| && c < |s.threads| && w != c && !IsWriter(s.threads[c].pc)
    && s.threads[w].pc == WriteBegin(s.m.noStarve) && s.threads[w].left > 0
    && (!s.m.noStarve ==> r < |s.threads| && r != c && s.threads[r].pc.RRead?)
    && forall u: nat :: u < |s.threads| && u != c && (s.m.noStarve || u != r) ==> AtBegin(s.m, s.threads[u])
  }

  /** Where a reader stands while the writer has its turn: it holds the turnstile, or there is none. */
  predicate Chance(m: Memory, pc: Pc) { if m.noStarve then pc.RPostTurnstile? else pc.RLoad? }

  function Chances(m: Memory, th: Thread): nat {
    if th.left == 0 then 0 else if AtBegin(m, th) || Chance(m, th.pc) then th.left else th.left - 1
  }

  lemma ChancesMove(m: Memory, th: Thread)
    requires Enabled(m, th) && Local(m, th) && !IsWriter(th.pc)
    ensures var (m', th') := Execute(m, th);
      Chances(m, th) == Chances(m', th') + One(Chance(m, th.pc))
  {
  }

  lemma StaysReader(m: Memory, th: Thread)
    requires Enabled(m, th)
    ensures IsWriter(Execute(m, th).1.pc) <==> IsWriter(th.pc)
  {
  }

  /** Nobody keeps reader `c` waiting. */
  lemma AloneCanStep(s: State, r: nat, w: nat, c: nat)
    requires Alone(s, r, w, c) && s.threads[c].left > 0
    ensures CanStep(s, c)
  {
    assert Local(s.m, s.threads[c]);
    WaitsFor(s, c);
  }

  lemma AloneStep(s: State, r: nat, w: nat, c: nat)
    requires Alone(s, r, w, c) && s.threads[c].left > 0
    ensures var s', th := Next(s, c), s.threads[c];
      && CanStep(s, c) && Alone(s', r, w, c) && s'.threads[w] == s.threads[w] && s'.m.noStarve == s.m.noStarve
      && WorkOf(s'.threads[c]) < WorkOf(th)
      && Entries(s.m, th) == Entries(s'.m, s'.threads[c]) + One(EntersRead(s, c))
      && Chances(s.m, th) == Chances(s'.m, s'.threads[c]) + One(Chance(s.m, th.pc))
  {
    AloneCanStep(s, r, w, c);
    InvKept(s, c);
    assert Local(s.m, s.threads[c]);
    StaysReader(s.m, s.threads[c]);
    ThreadAccounts(s.m, s.threads[c]);
    EntriesMove(s.m, s.threads[c]);
    ChancesMove(s.m, s.threads[c]);
  }

  /** The writer cannot use its turn: the turnstile is taken, or reader `r` is inside. */
  lemma Barred(s: State, r: nat, w: nat, c: nat)
    requires Alone(s, r, w, c) && Chance(s.m, s.threads[c].pc)
    ensures !CanStep(s, w)
  {
    Member(s.threads, c, TurnstileWeight);
    if !s.m.noStarve {
      InsideOwns(s, r);
    }
  }

  /** A turn that the writer cannot use. */
  lemma AloneTurn(s: State, r: nat, w: nat, c: nat, run: seq<nat>, n: nat, k: nat, end: State)
    requires Alone(s, r, w, c) && Chance(s.m, s.threads[c].pc)
    requires Overtakes(Next, CanStep, EntersRead, w, c, s, run, n, k, end)
    ensures Overtakes(Next, CanStep, EntersRead, w, c, s, [w] + run, n, k + 1, end)
  {
    Barred(s, r, w, c);
    OvertakeTurn(Next, CanStep, EntersRead, w, c, s, run, n, k, end);
  }

  /** One step of reader `c`, after a turn of the writer where it cannot use it. */
  lemma AloneFirst(s: State, r: nat, w: nat, c: nat, rest: seq<nat>, n: nat, k: nat, end: State)
    returns (run: seq<nat>)
    requires Alone(s, r, w, c) && Overtakes(Next, CanStep, EntersRead, w, c, Next(s, c), rest, n, k, end)
    ensures Overtakes(Next, CanStep, EntersRead, w, c, s, run,
                      n + One(EntersRead(s, c)), k + One(Chance(s.m, s.threads[c].pc)), end)
  {
    OvertakeStep(Next, CanStep, EntersRead, w, c, s, rest, n, k, end);
    run := [c] + rest;
    if Chance(s.m, s.threads[c].pc) {
      AloneTurn(s, r, w, c, run, n + One(EntersRead(s, c)), k, end);
      run := [w] + run;
    }
  }

  lemma {:induction false} AloneRun(s: State, r: nat, w: nat, c: nat) returns (run: seq<nat>, end: State)
    requires Alone(s, r, w, c)
    ensures Alone(end, r, w, c) && end.threads[w] == s.threads[w] && end.m.noStarve == s.m.noStarve
    ensures Overtakes(Next, CanStep, EntersRead, w, c, s, run,
                      Entries(s.m, s.threads[c]), Chances(s.m, s.threads[c]), end)
    decreases WorkOf(s.threads[c])
  {
    if s.threads[c].left == 0 {
      run, end := [], s;
    } else {
      AloneStep(s, r, w, c);
      var s' := Next(s, c);
      run, end := AloneRun(s', r, w, c);
      run := AloneFirst(s, r, w, c, run, Entries(s'.m, s'.threads[c]), Chances(s'.m, s'.threads[c]), end);
    }
  }

  /**
   The weak semaphore `turnstile` bounds nothing: there is a run of the no-starve lock in which reader `c` enters in
   each of its loops while writer `w` waits at line 62, where it has as many turns and finds the turnstile taken.
   */
  lemma Overtake(readers: nat, writers: nat, loops: nat, w: nat, c: nat) returns (run: seq<nat>)
    requires c < readers <= w < readers + writers && loops > 0
    ensures var s := Init(true, readers, writers, loops);
      var end, entries := Exec(Next, s, run), Events(Next, EntersRead, s, run);
      && w < |end.threads| && end.threads[w] == s.threads[w] == Thread(WWaitTurnstile, loops)
      && Times(entries, c) == |entries| == loops
      && Times(run, w) == loops && w !in Events(Next, CanStep, s, run)
  {
    var s, end := Init(true, readers, writers, loops), Init(true, readers, writers, loops);
    InitInv(true, readers, writers, loops);
    run, end := AloneRun(s, 0, w, c);
  }

  /** Who cannot step does not enter. */
  lemma {:induction false} OnlySteps(s: State, run: seq<nat>)
    ensures forall t: nat :: t in Events(Next, EntersWrite, s, run) ==> t in Events(Next, CanStep, s, run)
    decreases |run|
  {
    if run == [] {
    } else {
      OnlySteps(Next(s, run[0]), run[1..]);
    }
  }

  /** Writer `w` is on its way in, past the turnstile or not as `past` says, and `after` does not let it in. */
  ghost predicate Delayed(past: bool, readers: nat, writers: nat, loops: nat, before: seq<nat>, w: nat,
      after: seq<nat>)
  {
    var s := Reached(true, readers, writers, loops, before);
    && w < |s.threads| && IsWriter(s.threads[w].pc) && !WriterInside(s.threads[w].pc) && !Finished(s.m, s.threads[w])
    && (past <==> !s.threads[w].pc.WWaitTurnstile?) && w !in Events(Next, EntersWrite, s, after)
  }

  /** At most `k` readers enter ahead of such a writer. */
  ghost predicate DelayAtMost(readers: nat, writers: nat, past: bool, k: int) {
    forall loops, before, w, after :: Delayed(past, readers, writers, loops, before, w, after) ==>
      |Events(Next, EntersRead, Reached(true, readers, writers, loops, before), after)| <= k
  }

  lemma ApproachingSize(s: State)
    ensures |Approaching(s)| <= |s.threads|
  {
    SubsetSize(Approaching(s), Below(|s.threads|));
  }

  /** The readers that enter ahead of a waiting writer are bounded exactly if it has got past the turnstile. */
  lemma DelayExactly(readers: nat, writers: nat, past: bool)
    requires readers > 0 && writers > 0
    ensures (exists k: int :: DelayAtMost(readers, writers, past, k)) <==> past
  {
    if past {
      forall loops, before, w, after | Delayed(past, readers, writers, loops, before, w, after)
        ensures |Events(Next, EntersRead, Reached(true, readers, writers, loops, before), after)| <= readers + writers
      {
        WriterBound(readers, writers, loops, before, w, after);
        ReachedShape(true, readers, writers, loops, before);
        ApproachingSize(Reached(true, readers, writers, loops, before));
      }
      assert DelayAtMost(readers, writers, past, readers + writers);
    } else if k: int :| DelayAtMost(readers, writers, past, k) {
      var loops := if k < 0 then 1 else k + 1;
      var run := Overtake(readers, writers, loops, readers, 0);
      OnlySteps(Init(true, readers, writers, loops), run);
      assert Delayed(past, readers, writers, loops, [], readers, run);
    }
  }

  /** Reader `r` is inside and writer `w` waits for `writelock`. */
  ghost predicate Blocked(s: State, r: nat, w: nat) {
    && Inv(s) && r < |s.threads| && w < |s.threads| && r != w
    && ReaderInside(s.threads[r].pc) && s.threads[w].pc.WWaitLock?
  }

  lemma BlockedStep(s: State, r: nat, w: nat, t: nat)
    requires Blocked(s, r, w)
    ensures !CanStep(s, w)
    ensures t != r ==> Blocked(Next(s, t), r, w)
  {
    InsideOwns(s, r);
    InvKept(s, t);
  }

  lemma {:induction false} BlockedRun(s: State, r: nat, w: nat, run: seq<nat>)
    requires Blocked(s, r, w) && r !in run
    ensures Blocked(Exec(Next, s, run), r, w)
    decreases |run|
  {
    if run == [] {
    } else {
      BlockedStep(s, r, w, run[0]);
      BlockedRun(Next(s, run[0]), r, w, run[1..]);
    }
  }

  lemma Stuck(s: State, r: nat, w: nat)
    requires Blocked(s, r, w)
    ensures forall run: seq<nat> {:trigger Exec(Next, s, run)} :: r !in run ==> !CanStep(Exec(Next, s, run), w)
  {
    forall run: seq<nat> | r !in run ensures !CanStep(Exec(Next, s, run), w) {
      BlockedRun(s, r, w, run);
      BlockedStep(Exec(Next, s, run), r, w, r);
    }
  }

  /** Reader `r` is on its way into the plain lock, and everybody else waits at the start. */
  ghost predicate Entering(s: State, r: nat) {
    && Inv(s) && !s.m.noStarve && r < |s.threads| && s.threads[r].left > 0
    && (PastTurnstile(s.threads[r].pc) || s.threads[r].pc.RPostMutex? || s.threads[r].pc.RRead?)
    && forall u: nat :: u < |s.threads| && u != r ==> AtBegin(s.m, s.threads[u])
  }

  lemma EnteringStep(s: State, r: nat)
    requires Entering(s, r) && !s.threads[r].pc.RRead?
    ensures CanStep(s, r) && Entering(Next(s, r), r)
    ensures var a, b := s.threads[r], Next(s, r).threads[r]; b.left == a.left && ToGo(b.pc) < ToGo(a.pc)
  {
    assert Local(s.m, s.threads[r]);
    WaitsFor(s, r);
    InvKept(s, r);
  }

  lemma {:induction false} GetsIn(s: State, r: nat) returns (run: seq<nat>)
    requires Entering(s, r)
    ensures var end := Exec(Next, s, run);
      && Entering(end, r) && end.threads == s.threads[r := Thread(RRead, s.threads[r].left)]
    decreases ToGo(s.threads[r].pc)
  {
    if s.threads[r].pc.RRead? {
      run := [];
    } else {
      EnteringStep(s, r);
      run := GetsIn(Next(s, r), r);
      run := [r] + run;
    }
  }

  /**
   The plain lock lets readers starve a writer: let reader `r` be inside.  Then writer `w`, waiting for `writelock`, is
   unable to step in every run in which `r` makes no step, and there is such a run in which another reader enters in
   each of its loops.
   */
  lemma Separation(readers: nat, writers: nat, loops: nat, r: nat, w: nat, c: nat)
    returns (before: seq<nat>, run: seq<nat>)
    requires r < readers && c < readers && r != c && readers <= w < readers + writers && loops > 0
    ensures var s := Reached(false, readers, writers, loops, before);
      var entries := Events(Next, EntersRead, s, run);
      && w < |s.threads| && s.threads[w] == Thread(WWaitLock, loops)
      && Times(entries, c) == |entries| == loops && r !in run && Times(run, w) == loops
      && (forall any: seq<nat> {:trigger Exec(Next, s, any)} :: r !in any ==> !CanStep(Exec(Next, s, any), w))
  {
    var i := Init(false, readers, writers, loops);
    InitInv(false, readers, writers, loops);
    before := GetsIn(i, r);
    var s, end := Exec(Next, i, before), i;
    run, end := AloneRun(s, r, w, c);
    Stuck(s, r, w);
  }

  // ---------- the lock itself, updated in place ----------

  predicate AcquiringRead(pc: Pc) {
    pc.RWaitTurnstile? || PastTurnstile(pc) || pc.RPostMutex?
  }
  predicate ReleasingRead(pc: Pc) {
    pc.RWaitMutexOut? || pc.RLoadOut? || pc.RStoreOut? || pc.RTestOut? || pc.RPostLock? || pc.RPostMutexOut?
  }
  predicate AcquiringWrite(pc: Pc) { pc.WWaitTurnstile? || pc.WWaitLock? }
  predicate ReleasingWrite(pc: Pc) { pc.WPostTurnstile? || pc.WPostLock? }
  predicate InLoopBody(pc: Pc) { pc.RRead? || pc.WLoad? || pc.WStore? || pc.WPrint? }

  class RwLock {
    const noStarve: bool
    var mutex: int
    var writelock: int
    var turnstile: int
    var readers: int
    var value: int
    var threads: seq<Thread>

    function Snapshot(): State
      reads this
    {
      State(Memory(noStarve, mutex, writelock, turnstile, readers, value), threads)
    }

    ghost predicate Valid()
      reads this
    {
      Inv(Snapshot())
    }

    constructor (noStarve: bool, numReaders: nat, numWriters: nat, loops: nat)
      ensures Valid() && Snapshot() == Init(noStarve, numReaders, numWriters, loops)
    {
      this.noStarve := noStarve;
      mutex, writelock, turnstile, readers, value := 1, 1, 1, 0, 0;
      threads := InitThreads(noStarve, numReaders, numWriters, loops);
      new;
      InitInv(noStarve, numReaders, numWriters, loops);
    }

    method Goto(t: nat, pc: Pc)
      requires t < |threads|
      modifies this`threads
      ensures threads == old(threads)[t := old(threads)[t].(pc := pc)]
    {
      threads := threads[t := threads[t].(pc := pc)];
    }

    /** Lines 38 to 47, in place. */
    method StepIn(t: nat)
      requires CanStep(Snapshot(), t) && AcquiringRead(threads[t].pc)
      modifies this
      ensures Snapshot() == Next(old(Snapshot()), t)
    {
      ghost var s' := Next(Snapshot(), t);
      match threads[t].pc {
        case RWaitTurnstile => turnstile := turnstile - 1; Goto(t, RPostTurnstile);
        case RPostTurnstile => turnstile := turnstile + 1; Goto(t, RWaitMutex);
        case RWaitMutex => mutex := mutex - 1; Goto(t, RLoad);
        case RLoad => Goto(t, RStore(readers));
        case RStore(reg) => readers := reg + 1; Goto(t, RTest);
        case RTest =>
          if readers == 1 {
            Goto(t, RWaitLock);
          } else {
            Goto(t, RPostMutex);
          }
        case RWaitLock => writelock := writelock - 1; Goto(t, RPostMutex);
        case RPostMutex => mutex := mutex + 1; Goto(t, RRead);
      }
      assert Snapshot() == s';
    }

    /** The next statement of `rwlock_acquire_readlock` in thread `t`. */
    method AcquireRead(t: nat)
      requires Valid() && CanStep(Snapshot(), t) && AcquiringRead(threads[t].pc)
      modifies this
      ensures Valid() && Snapshot() == Next(old(Snapshot()), t)
      ensures ReaderInside(threads[t].pc) ==> Occupants(Snapshot()).writers == {}
    {
      InvKept(Snapshot(), t);
      NoWritersAfter(Snapshot(), t);
      StepIn(t);
    }

    /** The next statement of `rwlock_release_readlock` in thread `t`. */
    method ReleaseRead(t: nat)
      requires Valid() && CanStep(Snapshot(), t) && ReleasingRead(threads[t].pc)
      modifies this
      ensures Valid() && Snapshot() == Next(old(Snapshot()), t)
    {
      ghost var s' := Next(Snapshot(), t);
      InvKept(Snapshot(), t);
      match threads[t].pc {
        case RWaitMutexOut => mutex := mutex - 1; Goto(t, RLoadOut);
        case RLoadOut => Goto(t, RStoreOut(readers));
        case RStoreOut(reg) => readers := reg - 1; Goto(t, RTestOut);
        case RTestOut =>
          if readers == 0 {
            Goto(t, RPostLock);
          } else {
            Goto(t, RPostMutexOut);
          }
        case RPostLock => writelock := writelock + 1; Goto(t, RPostMutexOut);
        case RPostMutexOut =>
          mutex := mutex + 1;
          threads := threads[t := Thread(ReadBegin(noStarve), threads[t].left - 1)];
      }
      assert Snapshot() == s';
    }

    /** The next statement of `rwlock_acquire_writelock` in thread `t`; the writer enters an empty room. */
    method AcquireWrite(t: nat)
      requires Valid() && CanStep(Snapshot(), t) && AcquiringWrite(threads[t].pc)
      modifies this
      ensures Valid() && Snapshot() == Next(old(Snapshot()), t)
      ensures old(threads[t].pc.WWaitLock?) ==>
        Occupants(old(Snapshot())) == Room({}, {}) && Occupants(Snapshot()) == Room({}, {t})
    {
      ghost var s' := Next(Snapshot(), t);
      InvKept(Snapshot(), t);
      match threads[t].pc {
        case WWaitTurnstile =>
          turnstile := turnstile - 1;
          Goto(t, WWaitLock);
        case WWaitLock =>
          EmptyRoom(Snapshot());
          ReadersStep(Snapshot(), t);
          WritersStep(Snapshot(), t);
          writelock := writelock - 1;
          Goto(t, WLoad);
      }
      assert Snapshot() == s';
    }

    /** The next statement of `rwlock_release_writelock` in thread `t`. */
    method ReleaseWrite(t: nat)
      requires Valid() && CanStep(Snapshot(), t) && ReleasingWrite(threads[t].pc)
      modifies this
      ensures Valid() && Snapshot() == Next(old(Snapshot()), t)
    {
      ghost var s' := Next(Snapshot(), t);
      InvKept(Snapshot(), t);
      match threads[t].pc {
        case WPostTurnstile => turnstile := turnstile + 1; Goto(t, WPostLock);
        case WPostLock =>
          writelock := writelock + 1;
          threads := threads[t := Thread(WriteBegin(noStarve), threads[t].left - 1)];
      }
      assert Snapshot() == s';
    }

    /** The next statement of the loop body of `reader` or `writer` in thread `t`. */
    method LoopBody(t: nat)
      requires Valid() && CanStep(Snapshot(), t) && InLoopBody(threads[t].pc)
      modifies this
      ensures Valid() && Snapshot() == Next(old(Snapshot()), t)
      ensures old(threads[t].pc.WStore?) ==> value == old(value) + 1
    {
      ghost var s' := Next(Snapshot(), t);
      InvKept(Snapshot(), t);
      assert Local(Snapshot().m, threads[t]);
      match threads[t].pc {
        case RRead => Goto(t, RWaitMutexOut);
        case WLoad => Goto(t, WStore(value));
        case WStore(reg) => value := reg + 1; Goto(t, WPrint);
        case WPrint => Goto(t, if noStarve then WPostTurnstile else WPostLock);
      }
      assert Snapshot() == s';
    }
  }
}
