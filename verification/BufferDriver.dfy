/**
 The byte accounting of the buffer device.  `driver_read` and `driver_write` are the same code with the two atomics,
 the two spinlocks and the two wait queues exchanged, so a call has a side; what it takes `from` on its own side it
 gives to the other.  Any number of threads make any sequences of calls; every atomic operation is one step.
 */
module BufferDriver {
  import opened Census
  import opened Runs

  const MAX_BUFFER_SIZE: nat := 32

  datatype Side = Reading | Writing
  datatype Op = Op(side: Side, max: nat, nonblock: bool)

  /** Program counters, with the lines of driver_read; the count is `to_copy` or `to_copy - not_copied`. */
  datatype Pc =
    | Idle                // 52
    | WaitEvent           // 57  about to evaluate the condition
    | Asleep              // 57  in the wait queue
    | SpinLock            // 62
    | Load                // 64
    | Copy(toCopy: int)   // 65
    | Sub(count: int)     // 66
    | Add(count: int)     // 67
    | Offset(count: int)  // 69
    | Unlock(count: int)  // 70
    | Wake(count: int)    // 72, 73

  /** What a call returns: -EAGAIN (lines 54 and 86), or a number of bytes (lines 73 and 107). */
  datatype Answer = Again | Bytes(count: int)

  /**
   `todo` holds the calls to make, the current one first, and `answers` what those before it have returned; `offset` is
   the position of the thread's open file.
   */
  datatype Thread = Thread(pc: Pc, todo: seq<Op>, offset: int, answers: seq<Answer>)

  /** Bytes of a side that have been copied (lines 65 and 97), and added to a file position (lines 69 and 102). */
  datatype Log = Log(copied: int, posted: int)

  /** `out` (of reads) and `into` (of writes) are history that no statement reads. */
  datatype Memory = Memory(available: int, writable: int, rlock: bool, wlock: bool, out: Log, into: Log)

  datatype State = State(m: Memory, threads: seq<Thread>)

  /** The scheduler's choice: a thread, and how many bytes the user copy fails to copy if the thread is there. */
  datatype Choice = Choice(thread: nat, fail: nat)

  function Init(programs: seq<seq<Op>>): State {
    State(Memory(0, MAX_BUFFER_SIZE, false, false, Log(0, 0), Log(0, 0)),
          seq(|programs|, i requires 0 <= i < |programs| => Thread(Idle, programs[i], 0, [])))
  }

  function Opposite(side: Side): Side { if side == Reading then Writing else Reading }
  function SideOf(th: Thread): Side { if th.todo == [] then Reading else th.todo[0].side }
  function Limit(th: Thread): nat { if th.todo == [] then 0 else th.todo[0].max }

  /** What a call of this side can take. */
  function From(m: Memory, side: Side): int { if side == Reading then m.available else m.writable }
  function LockOf(m: Memory, side: Side): bool { if side == Reading then m.rlock else m.wlock }

  function SetLock(m: Memory, side: Side, locked: bool): Memory {
    if side == Reading then m.(rlock := locked) else m.(wlock := locked)
  }

  function Take(m: Memory, side: Side, n: int): Memory {
    if side == Reading then m.(available := m.available - n) else m.(writable := m.writable - n)
  }

  function Give(m: Memory, side: Side, n: int): Memory {
    if side == Reading then m.(writable := m.writable + n) else m.(available := m.available + n)
  }

  function LogOf(m: Memory, side: Side): Log { if side == Reading then m.out else m.into }

  function SetLog(m: Memory, side: Side, log: Log): Memory {
    if side == Reading then m.(out := log) else m.(into := log)
  }

  function LogCopy(m: Memory, side: Side, n: int): Memory {
    SetLog(m, side, LogOf(m, side).(copied := LogOf(m, side).copied + n))
  }

  function LogPost(m: Memory, side: Side, n: int): Memory {
    SetLog(m, side, LogOf(m, side).(posted := LogOf(m, side).posted + n))
  }

  function Min(a: int, b: int): int { if a < b then a else b }
  function At(th: Thread, pc: Pc): Thread { th.(pc := pc) }

  function Return(th: Thread, answer: Answer): Thread {
    th.(pc := Idle, todo := if th.todo == [] then [] else th.todo[1..], answers := th.answers + [answer])
  }

  predicate Enabled(m: Memory, th: Thread) {
    match th.pc
    case Idle => th.todo != []
    case Asleep => false
    case SpinLock => !LockOf(m, SideOf(th))
    case _ => true
  }

  /** What the next statement of a thread does to the shared memory and to the thread. */
  function Execute(m: Memory, th: Thread, fail: nat): (Memory, Thread) {
    var side := SideOf(th);
    match th.pc
    case Idle =>
      if From(m, side) == 0 && th.todo != [] && th.todo[0].nonblock then (m, Return(th, Again))
      else (m, At(th, WaitEvent))
    case WaitEvent => (m, At(th, if From(m, side) != 0 then SpinLock else Asleep))
    case Asleep => (m, th)
    case SpinLock => (SetLock(m, side, true), At(th, Load))
    case Load => (m, At(th, Copy(Min(From(m, side), Limit(th)))))
    case Copy(toCopy) =>
      var n := toCopy - Min(fail, toCopy);
      (LogCopy(m, side, n), At(th, Sub(n)))
    case Sub(n) => (Take(m, side, n), At(th, Add(n)))
    case Add(n) => (Give(m, side, n), At(th, Offset(n)))
    case Offset(n) => (LogPost(m, side, n), th.(pc := Unlock(n), offset := th.offset + n))
    case Unlock(n) => (SetLock(m, side, false), At(th, Wake(n)))
    case Wake(n) => (m, Return(th, Bytes(n)))
  }

  /** wake_up_interruptible: every sleeper of that side evaluates its condition again. */
  function Woken(th: Thread, side: Side): Thread {
    if th.pc.Asleep? && SideOf(th) == side then At(th, WaitEvent) else th
  }

  function WakeAll(threads: seq<Thread>, side: Side): seq<Thread> {
    seq(|threads|, i requires 0 <= i < |threads| => Woken(threads[i], side))
  }

  predicate CanStep(s: State, c: Choice) { c.thread < |s.threads| && Enabled(s.m, s.threads[c.thread]) }

  /** The other threads, as a statement of `th` leaves them. */
  function Others(s: State, th: Thread): seq<Thread> {
    if th.pc.Wake? then WakeAll(s.threads, Opposite(SideOf(th))) else s.threads
  }

  /** The chosen thread executes its next statement, if it can. */
  function Next(s: State, c: Choice): State {
    if CanStep(s, c) then
      var (m, th) := Execute(s.m, s.threads[c.thread], c.fail);
      State(m, Others(s, s.threads[c.thread])[c.thread := th])
    else s
  }

  // ---------- the inductive invariant ----------

  predicate InCritical(pc: Pc) { pc.Load? || pc.Copy? || pc.Sub? || pc.Add? || pc.Offset? || pc.Unlock? }

  /** Has copied, and not returned yet. */
  predicate PastCopy(pc: Pc) { pc.Sub? || pc.Add? || pc.Offset? || pc.Unlock? || pc.Wake? }

  /** Has given to the other side and has yet to wake it. */
  predicate WillWake(pc: Pc) { pc.Offset? || pc.Unlock? || pc.Wake? }

  function ReadLockWeight(th: Thread): nat { One(InCritical(th.pc) && SideOf(th) == Reading) }
  function WriteLockWeight(th: Thread): nat { One(InCritical(th.pc) && SideOf(th) == Writing) }

  /** Bytes between the two atomics. */
  function InFlight(th: Thread): nat { if th.pc.Add? && th.pc.count >= 0 then th.pc.count else 0 }
  function ReadInFlight(th: Thread): nat { if SideOf(th) == Reading then InFlight(th) else 0 }
  function WriteInFlight(th: Thread): nat { if SideOf(th) == Writing then InFlight(th) else 0 }

  predicate Local(m: Memory, th: Thread) {
    && (!th.pc.Idle? ==> th.todo != [])
    && (th.pc.Copy? ==> 0 <= th.pc.toCopy <= From(m, SideOf(th)) && th.pc.toCopy <= Limit(th))
    && (th.pc.Sub? ==> th.pc.count <= From(m, SideOf(th)))
    && (PastCopy(th.pc) ==> 0 <= th.pc.count <= Limit(th))
  }

  ghost predicate Locals(s: State) {
    forall u: nat :: u < |s.threads| ==> Local(s.m, s.threads[u])
  }

  ghost predicate Counts(s: State) {
    && One(s.m.rlock) == Tally(s.threads, ReadLockWeight)
    && One(s.m.wlock) == Tally(s.threads, WriteLockWeight)
    && 0 <= s.m.available && 0 <= s.m.writable
    && s.m.available + s.m.writable + Tally(s.threads, ReadInFlight) + Tally(s.threads, WriteInFlight)
       == MAX_BUFFER_SIZE
  }

  ghost predicate Sleeping(s: State, side: Side) {
    exists u: nat :: u < |s.threads| && s.threads[u].pc.Asleep? && SideOf(s.threads[u]) == side
  }

  ghost predicate Waker(s: State, side: Side) {
    exists u: nat :: u < |s.threads| && WillWake(s.threads[u].pc) && SideOf(s.threads[u]) == Opposite(side)
  }

  /** No lost wake-up: who sleeps while its condition holds is about to be woken. */
  ghost predicate WakesUp(s: State) {
    forall side: Side :: Sleeping(s, side) && From(s.m, side) != 0 ==> Waker(s, side)
  }

  ghost predicate Inv(s: State) { Counts(s) && Locals(s) && WakesUp(s) }

  lemma InitInv(programs: seq<seq<Op>>)
    ensures Inv(Init(programs))
  {
    var ths := Init(programs).threads;
    Zero(ths, ReadLockWeight);
    Zero(ths, WriteLockWeight);
    Zero(ths, ReadInFlight);
    Zero(ths, WriteInFlight);
  }

  /** Waking changes no weight that does not tell a sleeper from a thread about to evaluate its condition. */
  lemma Sum(s: State, c: Choice, w: Thread -> nat)
    requires CanStep(s, c) && forall th: Thread, side: Side :: w(Woken(th, side)) == w(th)
    ensures var a, b := s.threads, Next(s, c).threads;
      |a| == |b| && Tally(b, w) + w(a[c.thread]) == Tally(a, w) + w(b[c.thread])
  {
    var x, o := Execute(s.m, s.threads[c.thread], c.fail).1, Others(s, s.threads[c.thread]);
    Update(o, c.thread, x, w);
    Same(o, w, s.threads, w);
  }

  lemma Sums(s: State, c: Choice)
    requires CanStep(s, c)
    ensures var x, y, a, b := s.threads, Next(s, c).threads, s.threads[c.thread], Next(s, c).threads[c.thread];
      && |x| == |y|
      && Tally(y, ReadLockWeight) + ReadLockWeight(a) == Tally(x, ReadLockWeight) + ReadLockWeight(b)
      && Tally(y, WriteLockWeight) + WriteLockWeight(a) == Tally(x, WriteLockWeight) + WriteLockWeight(b)
      && Tally(y, ReadInFlight) + ReadInFlight(a) == Tally(x, ReadInFlight) + ReadInFlight(b)
      && Tally(y, WriteInFlight) + WriteInFlight(a) == Tally(x, WriteInFlight) + WriteInFlight(b)
  {
    Sum(s, c, ReadLockWeight);
    Sum(s, c, WriteLockWeight);
    Sum(s, c, ReadInFlight);
    Sum(s, c, WriteInFlight);
  }

  lemma Deltas(m: Memory, a: Thread, fail: nat)
    requires Enabled(m, a) && Local(m, a)
    requires InCritical(a.pc) ==> LockOf(m, SideOf(a))
    requires 0 <= m.available && 0 <= m.writable
    ensures var (m', b) := Execute(m, a, fail);
      && One(m'.rlock) + ReadLockWeight(a) == One(m.rlock) + ReadLockWeight(b)
      && One(m'.wlock) + WriteLockWeight(a) == One(m.wlock) + WriteLockWeight(b)
      && 0 <= m'.available && 0 <= m'.writable
      && m'.available + m'.writable + ReadInFlight(b) + WriteInFlight(b)
         == m.available + m.writable + ReadInFlight(a) + WriteInFlight(a)
      && Local(m', b)
  {
  }

  lemma Shares(s: State, t: nat)
    requires Counts(s) && t < |s.threads|
    ensures InCritical(s.threads[t].pc) ==> LockOf(s.m, SideOf(s.threads[t]))
    ensures forall u: nat :: u < |s.threads| && u != t && InCritical(s.threads[t].pc) && InCritical(s.threads[u].pc) ==>
      SideOf(s.threads[u]) != SideOf(s.threads[t])
  {
    Exclusive(s.threads, ReadLockWeight);
    Exclusive(s.threads, WriteLockWeight);
    Member(s.threads, t, ReadLockWeight);
    Member(s.threads, t, WriteLockWeight);
  }

  lemma CountsKept(s: State, c: Choice)
    requires Inv(s) && CanStep(s, c)
    ensures Counts(Next(s, c))
  {
    assert Local(s.m, s.threads[c.thread]);
    Shares(s, c.thread);
    Deltas(s.m, s.threads[c.thread], c.fail);
    Sums(s, c);
  }

  /** Only a thread in the critical section of a side takes from that side. */
  lemma Untouched(m: Memory, a: Thread, fail: nat, side: Side)
    requires Enabled(m, a) && Local(m, a) && !(InCritical(a.pc) && SideOf(a) == side)
    ensures From(Execute(m, a, fail).0, side) >= From(m, side)
  {
  }

  lemma LocalsKept(s: State, c: Choice)
    requires Inv(s) && CanStep(s, c)
    ensures Locals(Next(s, c))
  {
    var s', t := Next(s, c), c.thread;
    assert Local(s.m, s.threads[t]);
    Shares(s, t);
    Deltas(s.m, s.threads[t], c.fail);
    forall u: nat | u < |s'.threads| && u != t ensures Local(s'.m, s'.threads[u]) {
      assert Local(s.m, s.threads[u]);
      if s.threads[u].pc.Copy? || s.threads[u].pc.Sub? {
        Untouched(s.m, s.threads[t], c.fail, SideOf(s.threads[u]));
      }
    }
  }

  /** Where a statement can make the condition of a side true, or put a thread of it to sleep. */
  lemma WakeMoves(m: Memory, a: Thread, fail: nat, side: Side)
    requires Enabled(m, a) && Local(m, a)
    ensures var (m', b) := Execute(m, a, fail);
      && (From(m', side) > From(m, side) ==> WillWake(b.pc) && SideOf(b) == Opposite(side))
      && (b.pc.Asleep? ==> a.pc.WaitEvent? && SideOf(b) == SideOf(a) && From(m', SideOf(a)) == 0)
      && (WillWake(a.pc) && !a.pc.Wake? ==> WillWake(b.pc) && SideOf(b) == SideOf(a))
  {
  }

  lemma StillWaker(s: State, c: Choice, side: Side)
    requires Inv(s) && CanStep(s, c) && Waker(s, side)
    requires var a := s.threads[c.thread]; !(a.pc.Wake? && SideOf(a) == Opposite(side))
    ensures Waker(Next(s, c), side)
  {
    var s', t := Next(s, c), c.thread;
    assert Local(s.m, s.threads[t]);
    WakeMoves(s.m, s.threads[t], c.fail, side);
    var w: nat :| w < |s.threads| && WillWake(s.threads[w].pc) && SideOf(s.threads[w]) == Opposite(side);
    assert WillWake(s'.threads[w].pc) && SideOf(s'.threads[w]) == Opposite(side);
  }

  /** A sleeper after the step slept before it, unless it has just found its condition false. */
  lemma SleptBefore(s: State, c: Choice, side: Side)
    requires Inv(s) && CanStep(s, c) && Sleeping(Next(s, c), side) && From(Next(s, c).m, side) != 0
    ensures Sleeping(s, side)
    ensures var a := s.threads[c.thread]; !(a.pc.Wake? && SideOf(a) == Opposite(side))
  {
    var s', t := Next(s, c), c.thread;
    assert Local(s.m, s.threads[t]);
    WakeMoves(s.m, s.threads[t], c.fail, side);
    var u: nat :| u < |s'.threads| && s'.threads[u].pc.Asleep? && SideOf(s'.threads[u]) == side;
    assert u != t && s'.threads[u] == s.threads[u];
  }

  lemma WakesUpKept(s: State, c: Choice)
    requires Inv(s) && CanStep(s, c)
    ensures WakesUp(Next(s, c))
  {
    var s', t := Next(s, c), c.thread;
    assert Local(s.m, s.threads[t]);
    forall side: Side | Sleeping(s', side) && From(s'.m, side) != 0 ensures Waker(s', side) {
      WakeMoves(s.m, s.threads[t], c.fail, side);
      SleptBefore(s, c, side);
      if From(s'.m, side) > From(s.m, side) {
        assert WillWake(s'.threads[t].pc) && SideOf(s'.threads[t]) == Opposite(side);
      } else {
        CountsKept(s, c);
        StillWaker(s, c, side);
      }
    }
  }

  lemma InvKept(s: State, c: Choice)
    requires Inv(s)
    ensures Inv(Next(s, c))
  {
    if CanStep(s, c) {
      CountsKept(s, c);
      LocalsKept(s, c);
      WakesUpKept(s, c);
    }
  }

  function Reached(programs: seq<seq<Op>>, run: seq<Choice>): State { Exec(Next, Init(programs), run) }

  lemma ReachedInv(programs: seq<seq<Op>>, run: seq<Choice>)
    ensures Inv(Reached(programs, run))
  {
    InitInv(programs);
    forall x, c | Inv(x) ensures Inv(Next(x, c)) { InvKept(x, c); }
    Always(Next, Inv, Init(programs), run);
  }

  // ---------- the accounting ----------

  /** Bytes copied and not taken off the atomic of the side yet. */
  function Copied(th: Thread): nat { if th.pc.Sub? && th.pc.count >= 0 then th.pc.count else 0 }
  function ReadCopied(th: Thread): nat { if SideOf(th) == Reading then Copied(th) else 0 }
  function WriteCopied(th: Thread): nat { if SideOf(th) == Writing then Copied(th) else 0 }

  /** Bytes that have moved from one atomic to the other and are not in a file position yet. */
  function Moved(th: Thread): nat { if th.pc.Offset? && th.pc.count >= 0 then th.pc.count else 0 }
  function ReadMoved(th: Thread): nat { if SideOf(th) == Reading then Moved(th) else 0 }
  function WriteMoved(th: Thread): nat { if SideOf(th) == Writing then Moved(th) else 0 }

  /** What writes have copied in is what reads have copied out, what is available, and what is on its way between. */
  function CopyBalance(s: State): int {
    s.m.into.copied + Tally(s.threads, ReadCopied)
    - s.m.out.copied - s.m.available - Tally(s.threads, WriteCopied) - Tally(s.threads, WriteInFlight)
  }

  /** What a side has copied and not posted is at lines 66, 67 and 69, or 99, 100 and 102. */
  function ReadBalance(s: State): int {
    s.m.out.copied - s.m.out.posted
    - Tally(s.threads, ReadCopied) - Tally(s.threads, ReadInFlight) - Tally(s.threads, ReadMoved)
  }
  function WriteBalance(s: State): int {
    s.m.into.copied - s.m.into.posted
    - Tally(s.threads, WriteCopied) - Tally(s.threads, WriteInFlight) - Tally(s.threads, WriteMoved)
  }

  lemma ThreadCopies(m: Memory, a: Thread, fail: nat)
    requires Enabled(m, a) && Local(m, a)
    ensures var (m', b) := Execute(m, a, fail);
      m'.into.copied + ReadCopied(b) - m'.out.copied - m'.available - WriteCopied(b) - WriteInFlight(b)
      == m.into.copied + ReadCopied(a) - m.out.copied - m.available - WriteCopied(a) - WriteInFlight(a)
  {
  }

  lemma ThreadPostsRead(m: Memory, a: Thread, fail: nat)
    requires Enabled(m, a) && Local(m, a)
    ensures var (m', b) := Execute(m, a, fail);
      m'.out.copied - m'.out.posted - ReadCopied(b) - ReadInFlight(b) - ReadMoved(b)
      == m.out.copied - m.out.posted - ReadCopied(a) - ReadInFlight(a) - ReadMoved(a)
  {
  }

  lemma ThreadPostsWrite(m: Memory, a: Thread, fail: nat)
    requires Enabled(m, a) && Local(m, a)
    ensures var (m', b) := Execute(m, a, fail);
      m'.into.copied - m'.into.posted - WriteCopied(b) - WriteInFlight(b) - WriteMoved(b)
      == m.into.copied - m.into.posted - WriteCopied(a) - WriteInFlight(a) - WriteMoved(a)
  {
  }

  lemma CopyBalanceKept(s: State, c: Choice)
    requires Inv(s) && CanStep(s, c)
    ensures CopyBalance(Next(s, c)) == CopyBalance(s)
  {
    assert Local(s.m, s.threads[c.thread]);
    ThreadCopies(s.m, s.threads[c.thread], c.fail);
    Sum(s, c, ReadCopied);
    Sum(s, c, WriteCopied);
    Sum(s, c, WriteInFlight);
  }

  lemma ReadBalanceKept(s: State, c: Choice)
    requires Inv(s) && CanStep(s, c)
    ensures ReadBalance(Next(s, c)) == ReadBalance(s)
  {
    assert Local(s.m, s.threads[c.thread]);
    ThreadPostsRead(s.m, s.threads[c.thread], c.fail);
    Sum(s, c, ReadCopied);
    Sum(s, c, ReadInFlight);
    Sum(s, c, ReadMoved);
  }

  lemma WriteBalanceKept(s: State, c: Choice)
    requires Inv(s) && CanStep(s, c)
    ensures WriteBalance(Next(s, c)) == WriteBalance(s)
  {
    assert Local(s.m, s.threads[c.thread]);
    ThreadPostsWrite(s.m, s.threads[c.thread], c.fail);
    Sum(s, c, WriteCopied);
    Sum(s, c, WriteInFlight);
    Sum(s, c, WriteMoved);
  }

  function Balance(s: State): (int, int, int) { (CopyBalance(s), ReadBalance(s), WriteBalance(s)) }

  lemma BalanceKept(s: State, c: Choice)
    requires Inv(s)
    ensures Balance(Next(s, c)) == Balance(s)
  {
    if CanStep(s, c) {
      CopyBalanceKept(s, c);
      ReadBalanceKept(s, c);
      WriteBalanceKept(s, c);
    }
  }

  lemma InitBalance(programs: seq<seq<Op>>)
    ensures Balance(Init(programs)) == (0, 0, 0)
  {
    var ths := Init(programs).threads;
    Zero(ths, ReadCopied);
    Zero(ths, WriteCopied);
    Zero(ths, ReadInFlight);
    Zero(ths, WriteInFlight);
    Zero(ths, ReadMoved);
    Zero(ths, WriteMoved);
  }

  lemma ReachedBalance(programs: seq<seq<Op>>, run: seq<Choice>)
    ensures Inv(Reached(programs, run)) && Balance(Reached(programs, run)) == (0, 0, 0)
  {
    ReachedInv(programs, run);
    InitInv(programs);
    InitBalance(programs);
    forall x, c | Inv(x) ensures Inv(Next(x, c)) && Balance(Next(x, c)) == Balance(x) {
      InvKept(x, c);
      BalanceKept(x, c);
    }
    Conserved(Next, Inv, Balance, Init(programs), run);
  }

  lemma CopiedFitsSide(s: State, side: Side, w: Thread -> nat)
    requires Inv(s)
    requires forall th: Thread :: w(th) == if SideOf(th) == side then Copied(th) else 0
    ensures Tally(s.threads, w) <= From(s.m, side)
  {
    if Tally(s.threads, w) > 0 {
      var t := Witness(s.threads, w);
      assert Local(s.m, s.threads[t]);
      Shares(s, t);
      Only(s.threads, t, w);
    }
  }

  /** What is copied on a side and not taken yet can be taken: one call at most is there, and it holds the lock. */
  lemma CopiedFits(s: State)
    requires Inv(s)
    ensures Tally(s.threads, ReadCopied) <= s.m.available && Tally(s.threads, WriteCopied) <= s.m.writable
  {
    CopiedFitsSide(s, Reading, ReadCopied);
    CopiedFitsSide(s, Writing, WriteCopied);
  }

  /**
   In every reachable state the two atomics and the bytes between them make up the buffer, neither leaves its range,
   and reads have copied no more than writes have, and no less than the buffer can hold below that; when no call is in
   a critical section, a read or a write is possible.
   */
  lemma Accounting(programs: seq<seq<Op>>, run: seq<Choice>)
    ensures var s := Reached(programs, run);
      && s.m.available + s.m.writable + Tally(s.threads, ReadInFlight) + Tally(s.threads, WriteInFlight)
         == MAX_BUFFER_SIZE
      && 0 <= s.m.available <= MAX_BUFFER_SIZE && 0 <= s.m.writable <= MAX_BUFFER_SIZE
      && s.m.out.copied <= s.m.into.copied <= s.m.out.copied + MAX_BUFFER_SIZE
      && ((forall t: nat :: t < |s.threads| ==> !InCritical(s.threads[t].pc)) ==>
            s.m.available + s.m.writable == MAX_BUFFER_SIZE && (s.m.available != 0 || s.m.writable != 0))
  {
    ReachedBalance(programs, run);
    var s := Reached(programs, run);
    CopiedFits(s);
    if forall t: nat :: t < |s.threads| ==> !InCritical(s.threads[t].pc) {
      Zero(s.threads, ReadInFlight);
      Zero(s.threads, WriteInFlight);
    }
  }

  // ---------- the file positions ----------

  function Positions(threads: seq<Thread>): int {
    if threads == [] then 0 else threads[0].offset + Positions(threads[1..])
  }

  lemma {:induction false} PositionUpdate(threads: seq<Thread>, t: nat, x: Thread)
    requires t < |threads|
    ensures Positions(threads[t := x]) + threads[t].offset == Positions(threads) + x.offset
  {
    if t == 0 {
      assert threads[t := x][1..] == threads[1..];
    } else {
      assert threads[t := x][1..] == threads[1..][t - 1 := x];
      PositionUpdate(threads[1..], t - 1, x);
    }
  }

  lemma {:induction false} PositionsWoken(threads: seq<Thread>, side: Side)
    ensures Positions(WakeAll(threads, side)) == Positions(threads)
  {
    if threads == [] {
    } else {
      assert WakeAll(threads, side)[1..] == WakeAll(threads[1..], side);
      PositionsWoken(threads[1..], side);
    }
  }

  function Unposted(s: State): int { s.m.out.posted + s.m.into.posted - Positions(s.threads) }

  lemma ThreadOffset(m: Memory, a: Thread, fail: nat)
    ensures var (m', b) := Execute(m, a, fail);
      m'.out.posted + m'.into.posted - b.offset == m.out.posted + m.into.posted - a.offset
  {
  }

  lemma UnpostedKept(s: State, c: Choice)
    ensures Unposted(Next(s, c)) == Unposted(s)
  {
    if CanStep(s, c) {
      var a := s.threads[c.thread];
      PositionUpdate(Others(s, a), c.thread, Execute(s.m, a, c.fail).1);
      PositionsWoken(s.threads, Opposite(SideOf(a)));
      ThreadOffset(s.m, a, c.fail);
    }
  }

  lemma {:induction false} NoPositions(threads: seq<Thread>)
    requires forall i: nat :: i < |threads| ==> threads[i].offset == 0
    ensures Positions(threads) == 0
  {
    if threads == [] {
    } else {
      assert forall i: nat :: i < |threads[1..]| ==> threads[1..][i] == threads[i + 1];
      NoPositions(threads[1..]);
    }
  }

  /**
   The file positions are exactly the bytes posted by reads and writes, and of each side, what is posted and what is
   between line 66 and line 69, or 99 and 102, is exactly what has been copied.
   */
  lemma PositionsAreBytes(programs: seq<seq<Op>>, run: seq<Choice>)
    ensures var s := Reached(programs, run);
      && Positions(s.threads) == s.m.out.posted + s.m.into.posted
      && s.m.out.copied == s.m.out.posted + Tally(s.threads, ReadCopied) + Tally(s.threads, ReadInFlight)
                           + Tally(s.threads, ReadMoved)
      && s.m.into.copied == s.m.into.posted + Tally(s.threads, WriteCopied) + Tally(s.threads, WriteInFlight)
                            + Tally(s.threads, WriteMoved)
  {
    ReachedBalance(programs, run);
    ghost var any := (x: State) => true;
    forall x, c ensures Unposted(Next(x, c)) == Unposted(x) { UnpostedKept(x, c); }
    Conserved(Next, any, Unposted, Init(programs), run);
    NoPositions(Init(programs).threads);
  }

  /**
   The positions lag: reads have posted no more than writes exactly if what a write has still to post at line 102 is
   still available or on its way through a read, and writes no more than the capacity ahead of reads exactly if what a
   read has still to post at line 69 can still be written or is on its way through a write.
   */
  lemma PostedExactly(programs: seq<seq<Op>>, run: seq<Choice>)
    ensures var s := Reached(programs, run);
      && (s.m.out.posted <= s.m.into.posted <==>
          Tally(s.threads, WriteMoved) <= s.m.available + Tally(s.threads, ReadInFlight) + Tally(s.threads, ReadMoved))
      && (s.m.into.posted <= s.m.out.posted + MAX_BUFFER_SIZE <==>
          Tally(s.threads, ReadMoved) <= s.m.writable + Tally(s.threads, WriteInFlight) + Tally(s.threads, WriteMoved))
  {
    ReachedBalance(programs, run);
  }

  // ---------- the positions do cross ----------

  /** The state `s` with another memory, and thread `t` standing elsewhere. */
  function Put(s: State, t: nat, m: Memory, pc: Pc): State
    requires t < |s.threads|
  {
    State(m, s.threads[t := At(s.threads[t], pc)])
  }

  lemma Go(p: seq<seq<Op>>, run: seq<Choice>, s: State, t: nat, m: Memory, pc: Pc, m': Memory, pc': Pc)
    returns (run': seq<Choice>)
    requires t < |s.threads| && Reached(p, run) == Put(s, t, m, pc) && Enabled(m, At(s.threads[t], pc)) && !pc.Wake?
    requires Execute(m, At(s.threads[t], pc), 0) == (m', At(s.threads[t], pc'))
    ensures Reached(p, run') == Put(s, t, m', pc')
  {
    run' := run + [Choice(t, 0)];
    Extend(Next, Init(p), run, Choice(t, 0));
    assert Next(Put(s, t, m, pc), Choice(t, 0)) == Put(s, t, m', pc');
  }

  /** How much a call can move that finds the lock of its side free, and the memory when it has moved it. */
  function Amount(m: Memory, th: Thread): int { Min(From(m, SideOf(th)), Limit(th)) }

  function MovedMemory(m: Memory, th: Thread): Memory {
    var side, n := SideOf(th), Amount(m, th);
    Give(Take(LogCopy(SetLock(m, side, true), side, n), side, n), side, n)
  }

  /** A call may go undisturbed up to line 69 or 102. */
  lemma GoMove(p: seq<seq<Op>>, before: seq<Choice>, s: State, t: nat) returns (run: seq<Choice>)
    requires Reached(p, before) == s && t < |s.threads| && s.threads[t].pc.Idle? && s.threads[t].todo != []
    requires From(s.m, SideOf(s.threads[t])) > 0 && !LockOf(s.m, SideOf(s.threads[t]))
    ensures var th := s.threads[t]; Reached(p, run) == Put(s, t, MovedMemory(s.m, th), Offset(Amount(s.m, th)))
  {
    var side, n := SideOf(s.threads[t]), Amount(s.m, s.threads[t]);
    var m1 := SetLock(s.m, side, true);
    var m2 := LogCopy(m1, side, n);
    var m3 := Take(m2, side, n);
    assert Put(s, t, s.m, Idle) == s;
    run := Go(p, before, s, t, s.m, Idle, s.m, WaitEvent);
    run := Go(p, run, s, t, s.m, WaitEvent, s.m, SpinLock);
    run := Go(p, run, s, t, s.m, SpinLock, m1, Load);
    run := Go(p, run, s, t, m1, Load, m1, Copy(n));
    run := Go(p, run, s, t, m1, Copy(n), m2, Sub(n));
    run := Go(p, run, s, t, m2, Sub(n), m3, Add(n));
    run := Go(p, run, s, t, m3, Add(n), Give(m3, side, n), Offset(n));
  }

  lemma HomeStates(s: State, t: nat)
    requires t < |s.threads| && s.threads[t].pc.Offset?
    requires forall u: nat :: u < |s.threads| ==> !s.threads[u].pc.Asleep?
    ensures var c, th, n := Choice(t, 0), s.threads[t], s.threads[t].pc.count;
      Next(Next(Next(s, c), c), c) == State(SetLock(LogPost(s.m, SideOf(th), n), SideOf(th), false),
                                            s.threads[t := Return(th, Bytes(n)).(offset := th.offset + n)])
  {
    var c, th, n := Choice(t, 0), s.threads[t], s.threads[t].pc.count;
    var x := Next(Next(s, c), c);
    var th' := th.(offset := th.offset + n);
    assert Next(s, c) == State(LogPost(s.m, SideOf(th), n), s.threads[t := At(th', Unlock(n))]);
    assert x.threads == s.threads[t := At(th', Wake(n))];
    assert WakeAll(x.threads, Opposite(SideOf(th))) == x.threads;
  }

  /** The rest of a call: lines 69 to 73 or 102 to 107, with nobody asleep. */
  lemma GoHome(p: seq<seq<Op>>, before: seq<Choice>, s: State, t: nat) returns (run: seq<Choice>)
    requires Reached(p, before) == s && t < |s.threads| && s.threads[t].pc.Offset?
    requires forall u: nat :: u < |s.threads| ==> !s.threads[u].pc.Asleep?
    ensures var th, n := s.threads[t], s.threads[t].pc.count;
      Reached(p, run) == State(SetLock(LogPost(s.m, SideOf(th), n), SideOf(th), false),
                               s.threads[t := Return(th, Bytes(n)).(offset := th.offset + n)])
  {
    var c := Choice(t, 0);
    run := before + [c] + [c] + [c];
    Extend(Next, Init(p), before, c);
    Extend(Next, Init(p), before + [c], c);
    Extend(Next, Init(p), before + [c] + [c], c);
    HomeStates(s, t);
  }

  /** A read may post a byte before the write that stored it does. */
  lemma ReadsGetAhead() returns (run: seq<Choice>)
    ensures var s := Reached([[Op(Writing, 1, false)], [Op(Reading, 1, false)]], run);
      s.m.out.posted == 1 && s.m.into.posted == 0
  {
    var p := [[Op(Writing, 1, false)], [Op(Reading, 1, false)]];
    var i := Init(p);
    assert i.threads == [Thread(Idle, p[0], 0, []), Thread(Idle, p[1], 0, [])];
    run := GoMove(p, [], i, 0);
    assert Reached(p, run).m == Memory(1, MAX_BUFFER_SIZE - 1, false, true, Log(0, 0), Log(1, 0));
    run := GoMove(p, run, Reached(p, run), 1);
    assert Reached(p, run).m == Memory(0, MAX_BUFFER_SIZE, true, true, Log(1, 0), Log(1, 0));
    run := GoHome(p, run, Reached(p, run), 1);
  }

  /** Writes may have posted more than the capacity before a read posts what it took. */
  lemma WritesGetAhead() returns (run: seq<Choice>)
    ensures var w := Op(Writing, MAX_BUFFER_SIZE, false);
      var s := Reached([[w, w], [Op(Reading, MAX_BUFFER_SIZE, false)]], run);
      s.m.out.posted == 0 && s.m.into.posted == 2 * MAX_BUFFER_SIZE
  {
    var n, w := MAX_BUFFER_SIZE, Op(Writing, MAX_BUFFER_SIZE, false);
    var p := [[w, w], [Op(Reading, MAX_BUFFER_SIZE, false)]];
    var i := Init(p);
    assert i.threads == [Thread(Idle, p[0], 0, []), Thread(Idle, p[1], 0, [])];
    run := GoMove(p, [], i, 0);
    run := GoHome(p, run, Reached(p, run), 0);
    assert Reached(p, run).m == Memory(n, 0, false, false, Log(0, 0), Log(n, n));
    run := GoMove(p, run, Reached(p, run), 1);
    assert Reached(p, run).m == Memory(0, n, true, false, Log(n, 0), Log(n, n));
    run := GoMove(p, run, Reached(p, run), 0);
    run := GoHome(p, run, Reached(p, run), 0);
  }

  // ---------- no lost wake-up ----------

  lemma LockHolder(s: State, side: Side) returns (u: nat)
    requires Inv(s) && LockOf(s.m, side)
    ensures CanStep(s, Choice(u, 0))
  {
    if side == Reading {
      u := Witness(s.threads, ReadLockWeight);
    } else {
      u := Witness(s.threads, WriteLockWeight);
    }
  }

  predicate Finished(th: Thread) { th.pc.Idle? && th.todo == [] }

  lemma AllRest(s: State)
    requires Inv(s) && forall c: Choice :: !CanStep(s, c)
    ensures forall t: nat :: t < |s.threads| ==> Finished(s.threads[t]) || s.threads[t].pc.Asleep?
  {
    forall t: nat | t < |s.threads|
      ensures Finished(s.threads[t]) || s.threads[t].pc.Asleep?
    {
      var c := Choice(t, 0);
      assert !CanStep(s, c);
      if s.threads[t].pc.SpinLock? {
        var u := LockHolder(s, SideOf(s.threads[t]));
      }
    }
  }

  /**
   Where no thread can step, every thread has finished or sleeps; no sleeper's condition holds, so all of them are on
   one side: the buffer is empty and they read, or it is full and they write.
   */
  lemma OnlyRightlyAsleep(programs: seq<seq<Op>>, run: seq<Choice>)
    requires forall c: Choice :: !CanStep(Reached(programs, run), c)
    ensures var s := Reached(programs, run);
      && (forall t: nat :: t < |s.threads| ==> Finished(s.threads[t]) || s.threads[t].pc.Asleep?)
      && (forall t: nat :: t < |s.threads| && s.threads[t].pc.Asleep? ==>
            From(s.m, SideOf(s.threads[t])) == 0 && From(s.m, Opposite(SideOf(s.threads[t]))) == MAX_BUFFER_SIZE)
      && (forall t: nat, u: nat :: t < |s.threads| && u < |s.threads| ==>
            s.threads[t].pc.Asleep? && s.threads[u].pc.Asleep? ==> SideOf(s.threads[t]) == SideOf(s.threads[u]))
  {
    ReachedInv(programs, run);
    var s := Reached(programs, run);
    AllRest(s);
    Zero(s.threads, ReadInFlight);
    Zero(s.threads, WriteInFlight);
    forall t: nat | t < |s.threads| && s.threads[t].pc.Asleep? ensures From(s.m, SideOf(s.threads[t])) == 0 {
      assert Sleeping(s, SideOf(s.threads[t]));
    }
  }

  /**
   In every reachable state an unfinished thread cannot step exactly if it sleeps, or spins while another call of its
   side is in the critical section; and if it sleeps while its condition holds, somebody is about to wake it.
   */
  lemma WaitsExactly(programs: seq<seq<Op>>, run: seq<Choice>, t: nat, fail: nat)
    ensures var s := Reached(programs, run);
      t < |s.threads| && !Finished(s.threads[t]) ==>
        var th := s.threads[t];
        && (!CanStep(s, Choice(t, fail)) <==>
            || th.pc.Asleep?
            || (th.pc.SpinLock? &&
                exists u: nat :: u < |s.threads| && u != t && InCritical(s.threads[u].pc)
                                 && SideOf(s.threads[u]) == SideOf(th)))
        && (th.pc.Asleep? && From(s.m, SideOf(th)) != 0 ==> Waker(s, SideOf(th)))
  {
    ReachedInv(programs, run);
    var s := Reached(programs, run);
    if t < |s.threads| {
      assert Sleeping(s, SideOf(s.threads[t])) <== s.threads[t].pc.Asleep?;
      forall u: nat | u < |s.threads| ensures InCritical(s.threads[u].pc) ==> LockOf(s.m, SideOf(s.threads[u])) {
        Shares(s, u);
      }
      if s.threads[t].pc.SpinLock? && LockOf(s.m, SideOf(s.threads[t])) {
        var u := Witness(s.threads, if SideOf(s.threads[t]) == Reading then ReadLockWeight else WriteLockWeight);
      }
    }
  }

  /** A sleeper is woken by nothing but a call of the other side at line 72 or 106, and by any of those. */
  lemma WokenExactly(programs: seq<seq<Op>>, run: seq<Choice>, c: Choice, t: nat)
    requires var s := Reached(programs, run); t < |s.threads| && s.threads[t].pc.Asleep?
    ensures var s := Reached(programs, run);
      var th := s.threads[t];
      && t < |Next(s, c).threads|
      && Next(s, c).threads[t] ==
           if CanStep(s, c) && s.threads[c.thread].pc.Wake? && SideOf(s.threads[c.thread]) != SideOf(th)
           then th.(pc := WaitEvent) else th
  {
  }

  // ---------- every call ----------

  /** A nonblocking call finds nothing to take, and returns -EAGAIN. */
  predicate Refuses(s: State, c: Choice) {
    && CanStep(s, c) && s.threads[c.thread].pc.Idle?
    && From(s.m, SideOf(s.threads[c.thread])) == 0 && s.threads[c.thread].todo[0].nonblock
  }

  function RefusesAs(t: nat): (State, Choice) -> bool { (s: State, c: Choice) => c.thread == t && Refuses(s, c) }

  function CopiesAs(t: nat): (State, Choice) -> bool {
    (s: State, c: Choice) => c.thread == t && CanStep(s, c) && s.threads[t].pc.Copy?
  }

  function Refusals(answers: seq<Answer>): nat {
    if answers == [] then 0 else Refusals(answers[..|answers| - 1]) + One(answers[|answers| - 1].Again?)
  }

  function Amounts(answer: Answer): int { if answer.Bytes? then answer.count else 0 }

  function BytesReturned(answers: seq<Answer>): int {
    if answers == [] then 0 else BytesReturned(answers[..|answers| - 1]) + Amounts(answers[|answers| - 1])
  }

  /** Bytes posted to the file position and not returned yet. */
  function Returning(pc: Pc): int { if pc.Unlock? || pc.Wake? then pc.count else 0 }

  lemma OneAnswer(answers: seq<Answer>, a: Answer)
    ensures Refusals(answers + [a]) == Refusals(answers) + One(a.Again?)
    ensures BytesReturned(answers + [a]) == BytesReturned(answers) + Amounts(a)
  {
    assert (answers + [a])[..|answers|] == answers;
  }

  /** How many calls have been answered, and how many of them refused. */
  lemma ThreadAnswers(m: Memory, a: Thread, fail: nat)
    requires Enabled(m, a) && Local(m, a)
    ensures var b := Execute(m, a, fail).1;
      var refuses := a.pc.Idle? && From(m, SideOf(a)) == 0 && a.todo[0].nonblock;
      && |b.answers| + |b.todo| == |a.answers| + |a.todo|
      && |b.answers| == |a.answers| + One(refuses) + One(a.pc.Wake?)
      && Refusals(b.answers) == Refusals(a.answers) + One(refuses)
  {
    OneAnswer(a.answers, Again);
    if a.pc.Wake? {
      OneAnswer(a.answers, Bytes(a.pc.count));
    }
  }

  /** From its copy to its return a call is past its copy, and it returns what it has posted. */
  lemma ThreadReturns(m: Memory, a: Thread, fail: nat)
    requires Enabled(m, a) && Local(m, a)
    ensures var b := Execute(m, a, fail).1;
      && One(PastCopy(b.pc)) + One(a.pc.Wake?) == One(PastCopy(a.pc)) + One(a.pc.Copy?)
      && b.offset - BytesReturned(b.answers) - Returning(b.pc) == a.offset - BytesReturned(a.answers) - Returning(a.pc)
  {
    OneAnswer(a.answers, Again);
    if a.pc.Wake? {
      OneAnswer(a.answers, Bytes(a.pc.count));
    }
  }

  /** What one thread's calls have come to. */
  datatype Record = Record(calls: int, unexplained: int)

  ghost function RecordOf(s: State, t: nat): Record {
    if t < |s.threads| then
      var th := s.threads[t];
      Record(|th.answers| + |th.todo|, th.offset - BytesReturned(th.answers) - Returning(th.pc))
    else Record(0, 0)
  }

  ghost function NotRefused(s: State, t: nat): int { if t < |s.threads| then 0 - Refusals(s.threads[t].answers) else 0 }

  ghost function NotCopied(s: State, t: nat): int {
    if t < |s.threads| then
      var th := s.threads[t];
      Refusals(th.answers) - |th.answers| - One(PastCopy(th.pc))
    else 0
  }

  lemma RecordStep(s: State, t: nat, c: Choice)
    requires Inv(s)
    ensures RecordOf(Next(s, c), t) == RecordOf(s, t)
  {
    if CanStep(s, c) {
      assert Local(s.m, s.threads[c.thread]);
      ThreadAnswers(s.m, s.threads[c.thread], c.fail);
      ThreadReturns(s.m, s.threads[c.thread], c.fail);
    }
  }

  lemma CallStep(s: State, t: nat, c: Choice)
    requires Inv(s)
    ensures NotRefused(Next(s, c), t) + One(RefusesAs(t)(s, c)) == NotRefused(s, t)
    ensures NotCopied(Next(s, c), t) + One(CopiesAs(t)(s, c)) == NotCopied(s, t)
  {
    if CanStep(s, c) {
      assert Local(s.m, s.threads[c.thread]);
      ThreadAnswers(s.m, s.threads[c.thread], c.fail);
      ThreadReturns(s.m, s.threads[c.thread], c.fail);
    }
  }

  lemma CallRun(s: State, run: seq<Choice>, t: nat)
    requires Inv(s)
    ensures RecordOf(Exec(Next, s, run), t) == RecordOf(s, t)
    ensures |Events(Next, RefusesAs(t), s, run)| + NotRefused(Exec(Next, s, run), t) == NotRefused(s, t)
    ensures |Events(Next, CopiesAs(t), s, run)| + NotCopied(Exec(Next, s, run), t) == NotCopied(s, t)
  {
    ghost var record := (x: State) => RecordOf(x, t);
    ghost var refused := (x: State) => NotRefused(x, t);
    ghost var copied := (x: State) => NotCopied(x, t);
    forall x, c | Inv(x)
      ensures Inv(Next(x, c)) && record(Next(x, c)) == record(x)
      ensures refused(Next(x, c)) + (if RefusesAs(t)(x, c) then 1 else 0) == refused(x)
      ensures copied(Next(x, c)) + (if CopiesAs(t)(x, c) then 1 else 0) == copied(x)
    {
      InvKept(x, c);
      RecordStep(x, t, c);
      CallStep(x, t, c);
    }
    Conserved(Next, Inv, record, s, run);
    Metered(Next, RefusesAs(t), Inv, refused, s, run);
    Metered(Next, CopiesAs(t), Inv, copied, s, run);
  }

  lemma ReachedSize(programs: seq<seq<Op>>, run: seq<Choice>)
    ensures |Reached(programs, run).threads| == |programs|
  {
    ghost var any := (x: State) => true;
    ghost var size := (x: State) => |x.threads|;
    Conserved(Next, any, size, Init(programs), run);
  }

  /**
   In every run, every call of a thread has returned or is yet to; those returned and the one past its copy are the
   copies made and the refusals, the refusals are exactly the -EAGAIN answers, and the file position is exactly what
   its calls have returned and the one about to return will.
   */
  lemma EveryCall(programs: seq<seq<Op>>, run: seq<Choice>, t: nat)
    requires t < |programs|
    ensures var i, s := Init(programs), Reached(programs, run);
      t < |s.threads| &&
      var th := s.threads[t];
      && |th.answers| + |th.todo| == |programs[t]|
      && |th.answers| + One(PastCopy(th.pc))
         == |Events(Next, CopiesAs(t), i, run)| + |Events(Next, RefusesAs(t), i, run)|
      && Refusals(th.answers) == |Events(Next, RefusesAs(t), i, run)|
      && th.offset == BytesReturned(th.answers) + Returning(th.pc)
  {
    InitInv(programs);
    CallRun(Init(programs), run, t);
    ReachedSize(programs, run);
  }

  /** The answers so far are to the calls before the current one, each of them an answer that the call may get. */
  predicate Fits(op: Op, answer: Answer) {
    match answer
    case Again => op.nonblock
    case Bytes(n) => 0 <= n <= op.max
  }

  ghost predicate AnswersTo(program: seq<Op>, th: Thread) {
    && |th.answers| <= |program| && th.todo == program[|th.answers|..]
    && forall k: nat :: k < |th.answers| ==> Fits(program[k], th.answers[k])
  }

  lemma ThreadFits(m: Memory, a: Thread, fail: nat, program: seq<Op>)
    requires Enabled(m, a) && Local(m, a) && AnswersTo(program, a)
    ensures AnswersTo(program, Execute(m, a, fail).1)
  {
  }

  /**
   In every reachable state, calls are answered one by one and in order: -EAGAIN only where the call is nonblocking, and
   no more bytes than the call asks for.
   */
  lemma EveryAnswer(programs: seq<seq<Op>>, run: seq<Choice>, t: nat)
    requires t < |programs|
    ensures var s := Reached(programs, run); t < |s.threads| && AnswersTo(programs[t], s.threads[t])
  {
    ghost var inv := (x: State) => Inv(x) && t < |x.threads| && AnswersTo(programs[t], x.threads[t]);
    InitInv(programs);
    forall x, c | inv(x) ensures inv(Next(x, c)) {
      InvKept(x, c);
      if CanStep(x, c) && c.thread == t {
        assert Local(x.m, x.threads[t]);
        ThreadFits(x.m, x.threads[t], c.fail, programs[t]);
      }
    }
    Always(Next, inv, Init(programs), run);
  }

  /** A call copies all that it may at its load, less what the user copy fails to copy. */
  lemma CopiesMost(programs: seq<seq<Op>>, run: seq<Choice>, c: Choice)
    requires CanStep(Reached(programs, run), c)
    ensures var s := Reached(programs, run);
      var th, pc' := s.threads[c.thread], Next(s, c).threads[c.thread].pc;
      && (th.pc.Load? ==>
            && pc'.Copy? && 0 <= pc'.toCopy <= Limit(th) && pc'.toCopy <= From(s.m, SideOf(th))
            && (pc'.toCopy == Limit(th) || pc'.toCopy == From(s.m, SideOf(th))))
      && (th.pc.Copy? ==>
            pc'.Sub? && if c.fail <= th.pc.toCopy then pc'.count + c.fail == th.pc.toCopy else pc'.count == 0)
  {
    ReachedInv(programs, run);
    assert Local(Reached(programs, run).m, Reached(programs, run).threads[c.thread]);
  }

  // ---------- one caller on a side ----------

  ghost predicate NoneOf(side: Side, todo: seq<Op>) { forall op :: op in todo ==> op.side != side }

  /** Nobody but `t` makes calls of this side. */
  ghost predicate SoleCaller(programs: seq<seq<Op>>, t: nat, side: Side) {
    forall u: nat :: u < |programs| && u != t ==> NoneOf(side, programs[u])
  }

  /** The condition that a sole caller has seen still holds, so it finds something to take, and need not sleep. */
  predicate Secure(m: Memory, th: Thread, side: Side) {
    th.todo != [] && th.todo[0].side == side ==>
      && (th.pc.SpinLock? || th.pc.Load? ==> From(m, side) > 0)
      && (th.pc.Copy? ==> From(m, side) > 0 && (th.pc.toCopy > 0 <==> Limit(th) > 0))
      && (th.todo[0].nonblock ==> !th.pc.Asleep? && (th.pc.WaitEvent? ==> From(m, side) > 0))
  }

  ghost predicate Sole(s: State, t: nat, side: Side) {
    && Inv(s) && t < |s.threads| && Secure(s.m, s.threads[t], side)
    && forall u: nat :: u < |s.threads| && u != t ==> NoneOf(side, s.threads[u].todo)
  }

  lemma OwnSecure(m: Memory, a: Thread, fail: nat, side: Side)
    requires Enabled(m, a) && Local(m, a) && Secure(m, a, side) && 0 <= m.available && 0 <= m.writable
    ensures var (m', b) := Execute(m, a, fail); Secure(m', b, side)
  {
  }

  /** A call of the other side only adds to this one, and may wake its sleeper. */
  lemma OthersSecure(m: Memory, a: Thread, fail: nat, th: Thread, side: Side)
    requires Enabled(m, a) && Local(m, a) && NoneOf(side, a.todo) && Secure(m, th, side)
    ensures var m' := Execute(m, a, fail).0; Secure(m', th, side) && Secure(m', Woken(th, side), side)
  {
    if a.todo != [] {
      assert a.todo[0] in a.todo;
      Untouched(m, a, fail, side);
    }
  }

  lemma StillSole(s: State, c: Choice, u: nat, side: Side)
    requires CanStep(s, c) && u < |s.threads| && NoneOf(side, s.threads[u].todo)
    ensures NoneOf(side, Next(s, c).threads[u].todo)
  {
    var a, b := s.threads[u].todo, Next(s, c).threads[u].todo;
    assert b == a || (a != [] && b == a[1..]);
  }

  lemma SoleKept(s: State, t: nat, side: Side, c: Choice)
    requires Sole(s, t, side)
    ensures Sole(Next(s, c), t, side)
  {
    InvKept(s, c);
    if CanStep(s, c) {
      var a := s.threads[c.thread];
      assert Local(s.m, a);
      if c.thread == t {
        OwnSecure(s.m, a, c.fail, side);
      } else {
        OthersSecure(s.m, a, c.fail, s.threads[t], side);
      }
      forall u: nat | u < |s.threads| && u != t ensures NoneOf(side, Next(s, c).threads[u].todo) {
        StillSole(s, c, u, side);
      }
    }
  }

  /**
   Where one thread makes all the calls of a side, each of them finds something to take when it comes to copy, and takes
   something if it asks for anything; a nonblocking call never sleeps, so if all are nonblocking, nobody sleeps there.
   */
  lemma SoleCallerServed(programs: seq<seq<Op>>, run: seq<Choice>, t: nat, side: Side)
    requires t < |programs| && SoleCaller(programs, t, side)
    ensures var s := Reached(programs, run);
      && t < |s.threads| && Secure(s.m, s.threads[t], side)
      && forall u: nat :: u < |s.threads| && s.threads[u].pc.Asleep? && SideOf(s.threads[u]) == side ==>
           u == t && s.threads[t].todo != [] && !s.threads[t].todo[0].nonblock
  {
    ghost var inv := (x: State) => Sole(x, t, side);
    InitInv(programs);
    forall x, c | inv(x) ensures inv(Next(x, c)) { SoleKept(x, t, side, c); }
    Always(Next, inv, Init(programs), run);
    var s := Reached(programs, run);
    forall u: nat | u < |s.threads| && s.threads[u].pc.Asleep? && SideOf(s.threads[u]) == side
      ensures u == t && s.threads[t].todo != [] && !s.threads[t].todo[0].nonblock
    {
      assert Local(s.m, s.threads[u]);
      assert s.threads[u].todo[0] in s.threads[u].todo;
    }
  }

  /** With two callers a nonblocking call may sleep: the other one takes the bytes between lines 52 and 57. */
  lemma NonblockingMaySleep() returns (run: seq<Choice>)
    ensures var op := Op(Reading, 1, true);
      var s := Reached([[Op(Writing, 1, false)], [op], [op]], run);
      |s.threads| == 3 && s.threads[2].todo == [op] && s.threads[2].pc.Asleep?
  {
    var op := Op(Reading, 1, true);
    var p := [[Op(Writing, 1, false)], [op], [op]];
    var i := Init(p);
    assert i.threads == [Thread(Idle, p[0], 0, []), Thread(Idle, p[1], 0, []), Thread(Idle, p[2], 0, [])];
    run := GoMove(p, [], i, 0);
    var s := Reached(p, run);
    assert s.m == Memory(1, MAX_BUFFER_SIZE - 1, false, true, Log(0, 0), Log(1, 0));
    run := Go(p, run, s, 2, s.m, Idle, s.m, WaitEvent);
    s := Reached(p, run);
    run := GoMove(p, run, s, 1);
    s := Reached(p, run);
    assert s.m == Memory(0, MAX_BUFFER_SIZE, true, true, Log(1, 0), Log(1, 0));
    run := Go(p, run, s, 2, s.m, WaitEvent, s.m, Asleep);
  }

  // ---------- termination ----------

  /** Statements left in a call among `n` threads; waking up costs one for each thread that may be woken. */
  function ToGo(n: nat, pc: Pc): nat {
    match pc
    case Idle => n + 11 case WaitEvent => n + 10 case Asleep => n + 9 case SpinLock => n + 8 case Load => n + 7
    case Copy(_) => n + 6 case Sub(_) => n + 5 case Add(_) => n + 4 case Offset(_) => n + 3 case Unlock(_) => n + 2
    case Wake(_) => n + 1
  }

  function WorkIn(n: nat, th: Thread): nat {
    if th.todo == [] then 0 else Product(|th.todo| - 1, n + 11) + ToGo(n, th.pc)
  }

  function WorkOf(n: nat): Thread -> nat { th => WorkIn(n, th) }

  lemma {:induction false} WakingCosts(n: nat, threads: seq<Thread>, side: Side)
    ensures Tally(WakeAll(threads, side), WorkOf(n)) <= Tally(threads, WorkOf(n)) + |threads|
  {
    if threads == [] {
    } else {
      assert WakeAll(threads, side)[1..] == WakeAll(threads[1..], side);
      WakingCosts(n, threads[1..], side);
    }
  }

  lemma ThreadWork(n: nat, m: Memory, a: Thread, fail: nat)
    requires Enabled(m, a) && Local(m, a)
    ensures WorkIn(n, Execute(m, a, fail).1) + (if a.pc.Wake? then n + 1 else 1) <= WorkIn(n, a)
  {
  }

  lemma WorkUsed(n: nat, s: State, c: Choice)
    requires Inv(s) && |s.threads| == n
    ensures Tally(Next(s, c).threads, WorkOf(n)) + (if CanStep(s, c) then 1 else 0) <= Tally(s.threads, WorkOf(n))
    ensures |Next(s, c).threads| == n
  {
    if CanStep(s, c) {
      var a := s.threads[c.thread];
      assert Local(s.m, a);
      ThreadWork(n, s.m, a, c.fail);
      Update(Others(s, a), c.thread, Execute(s.m, a, c.fail).1, WorkOf(n));
      WakingCosts(n, s.threads, Opposite(SideOf(a)));
    }
  }

  lemma RunWork(n: nat, s: State, run: seq<Choice>)
    requires Inv(s) && |s.threads| == n
    ensures |Events(Next, CanStep, s, run)| <= Tally(s.threads, WorkOf(n))
  {
    ghost var inv := (x: State) => Inv(x) && |x.threads| == n;
    ghost var work := (x: State) => Tally(x.threads, WorkOf(n));
    forall x, c | inv(x) ensures inv(Next(x, c)) && work(Next(x, c)) + (if CanStep(x, c) then 1 else 0) <= work(x) {
      InvKept(x, c);
      WorkUsed(n, x, c);
    }
    WorkBoundsSteps(Next, CanStep, inv, work, s, run);
  }

  function Length(p: seq<Op>): nat { |p| }

  lemma {:induction false} WorkAtStart(n: nat, ths: seq<Thread>, programs: seq<seq<Op>>)
    requires |ths| == |programs| && forall i: nat :: i < |ths| ==> ths[i] == Thread(Idle, programs[i], 0, [])
    ensures Tally(ths, WorkOf(n)) == Product(Tally(programs, Length), n + 11)
  {
    if ths == [] {
    } else {
      WorkAtStart(n, ths[1..], programs[1..]);
      if programs[0] != [] {
        MoreOf(|programs[0]| - 1, 1, n + 11);
      }
      MoreOf(|programs[0]|, Tally(programs[1..], Length), n + 11);
    }
  }

  /** No livelock: among N threads, sleeping and waking included, a run executes at most N + 11 statements per call. */
  lemma RunsAreFinite(programs: seq<seq<Op>>, run: seq<Choice>)
    ensures |Events(Next, CanStep, Init(programs), run)| <= Tally(programs, Length) * (|programs| + 11)
  {
    InitInv(programs);
    RunWork(|programs|, Init(programs), run);
    WorkAtStart(|programs|, Init(programs).threads, programs);
  }

  // ---------- the device itself, updated in place ----------

  lemma AlwaysInCall(s: State, t: nat)
    requires Inv(s) && t < |s.threads| && Enabled(s.m, s.threads[t])
    ensures s.threads[t].todo != []
  {
    assert Local(s.m, s.threads[t]);
  }

  class Device {
    var bytesAvailable: int
    var bytesThatCanBeWritten: int
    var rlock: bool
    var wlock: bool
    var threads: seq<Thread>
    ghost var out: Log
    ghost var into: Log

    ghost function Snapshot(): State
      reads this
    {
      State(Memory(bytesAvailable, bytesThatCanBeWritten, rlock, wlock, out, into), threads)
    }

    ghost predicate Valid()
      reads this
    {
      Inv(Snapshot())
    }

    constructor (programs: seq<seq<Op>>)
      ensures Valid() && Snapshot() == Init(programs)
    {
      bytesAvailable, bytesThatCanBeWritten := 0, MAX_BUFFER_SIZE;
      rlock, wlock := false, false;
      threads := Init(programs).threads;
      out, into := Log(0, 0), Log(0, 0);
      new;
      InitInv(programs);
    }

    method Goto(t: nat, pc: Pc)
      requires t < |threads|
      modifies this`threads
      ensures threads == old(threads)[t := old(threads)[t].(pc := pc)]
    {
      threads := threads[t := threads[t].(pc := pc)];
    }

    method Finish(t: nat, answer: Answer)
      requires t < |threads| && threads[t].todo != []
      modifies this`threads
      ensures threads == old(threads)[t := Return(old(threads)[t], answer)]
    {
      threads := threads[t := threads[t].(pc := Idle, todo := threads[t].todo[1..],
                                          answers := threads[t].answers + [answer])];
    }

    /** The next statement of `driver_read` in thread `t`; `fail` is what the user copy fails to copy. */
    method Read(t: nat, fail: nat)
      requires CanStep(Snapshot(), Choice(t, fail)) && threads[t].todo != [] && threads[t].todo[0].side == Reading
      modifies this
      ensures Snapshot() == Next(old(Snapshot()), Choice(t, fail))
    {
      ghost var s' := Next(Snapshot(), Choice(t, fail));
      match threads[t].pc {
        case Idle =>
          if bytesAvailable == 0 && threads[t].todo[0].nonblock {
            Finish(t, Again);
          } else {
            Goto(t, WaitEvent);
          }
        case WaitEvent => Goto(t, if bytesAvailable != 0 then SpinLock else Asleep);
        case SpinLock => rlock := true; Goto(t, Load);
        case Load => Goto(t, Copy(Min(bytesAvailable, threads[t].todo[0].max)));
        case Copy(toCopy) =>
          out := Log(out.copied + toCopy - Min(fail, toCopy), out.posted);
          Goto(t, Sub(toCopy - Min(fail, toCopy)));
        case Sub(n) =>
          bytesAvailable := bytesAvailable - n;
          Goto(t, Add(n));
        case Add(n) =>
          bytesThatCanBeWritten := bytesThatCanBeWritten + n;
          Goto(t, Offset(n));
        case Offset(n) =>
          out := Log(out.copied, out.posted + n);
          threads := threads[t := threads[t].(pc := Unlock(n), offset := threads[t].offset + n)];
        case Unlock(n) => rlock := false; Goto(t, Wake(n));
        case Wake(n) =>
          threads := WakeAll(threads, Writing);
          Finish(t, Bytes(n));
      }
      assert Snapshot() == s';
    }

    /** The next statement of `driver_write` in thread `t`. */
    method Write(t: nat, fail: nat)
      requires CanStep(Snapshot(), Choice(t, fail)) && threads[t].todo != [] && threads[t].todo[0].side == Writing
      modifies this
      ensures Snapshot() == Next(old(Snapshot()), Choice(t, fail))
    {
      ghost var s' := Next(Snapshot(), Choice(t, fail));
      match threads[t].pc {
        case Idle =>
          if bytesThatCanBeWritten == 0 && threads[t].todo[0].nonblock {
            Finish(t, Again);
          } else {
            Goto(t, WaitEvent);
          }
        case WaitEvent => Goto(t, if bytesThatCanBeWritten != 0 then SpinLock else Asleep);
        case SpinLock => wlock := true; Goto(t, Load);
        case Load => Goto(t, Copy(Min(bytesThatCanBeWritten, threads[t].todo[0].max)));
        case Copy(toCopy) =>
          into := Log(into.copied + toCopy - Min(fail, toCopy), into.posted);
          Goto(t, Sub(toCopy - Min(fail, toCopy)));
        case Sub(n) =>
          bytesThatCanBeWritten := bytesThatCanBeWritten - n;
          Goto(t, Add(n));
        case Add(n) =>
          bytesAvailable := bytesAvailable + n;
          Goto(t, Offset(n));
        case Offset(n) =>
          into := Log(into.copied, into.posted + n);
          threads := threads[t := threads[t].(pc := Unlock(n), offset := threads[t].offset + n)];
        case Unlock(n) => wlock := false; Goto(t, Wake(n));
        case Wake(n) =>
          threads := WakeAll(threads, Reading);
          Finish(t, Bytes(n));
      }
      assert Snapshot() == s';
    }

    /** A thread executes its next statement, in whichever call it is. */
    method Step(t: nat, fail: nat)
      requires Valid() && CanStep(Snapshot(), Choice(t, fail))
      modifies this
      ensures Valid() && Snapshot() == Next(old(Snapshot()), Choice(t, fail))
    {
      InvKept(Snapshot(), Choice(t, fail));
      AlwaysInCall(Snapshot(), t);
      if threads[t].todo[0].side == Reading {
        Read(t, fail);
      } else {
        Write(t, fail);
      }
    }
  }
}
