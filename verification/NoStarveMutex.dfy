/**
 The no-starve mutex (Morris's algorithm): two turnstiles (`drehkreuz1`, `drehkreuz2`) and two waiting-room
 counters, of which only `warteraum1` has a lock of its own (`mutex`).  Any number of threads acquire and release
 it any number of times; every shared load, store, wait and post is one step.
 */
module NoStarveMutex {
  import opened Census
  import opened Runs

  /** Program counters, in program order, with the source line they stand at; `reg` is the value last loaded. */
  datatype Pc =
    | Begin                   // 46  sem_wait(mutex)
    | LoadRoom1               // 47
    | StoreRoom1(reg: int)    // 47
    | PostMutex               // 48
    | WaitGate1               // 50
    | LoadRoom2               // 51
    | StoreRoom2(reg: int)    // 51
    | WaitMutex               // 52
    | ReloadRoom1             // 53
    | LeaveRoom1(reg: int)    // 53
    | TestRoom1               // 55
    | PostMutexEmpty          // 56
    | PostGate2Empty          // 57
    | PostMutexMore           // 59
    | PostGate1More           // 60
    | WaitGate2               // 62
    | ReloadRoom2             // 63
    | LeaveRoom2(reg: int)    // 63
    | LoadCritical            // 86
    | StoreCritical(reg: int) // 86
    | TestRoom2               // 69
    | PostGate1Last           // 70
    | PostGate2Next           // 72

  /** `left` is the number of acquisitions the thread has yet to complete, the current one included. */
  datatype Thread = Thread(pc: Pc, left: nat)

  /** The fields of the mutex, and the global `critical`. */
  datatype Memory = Memory(mutex: int, drehkreuz1: int, drehkreuz2: int, warteraum1: int, warteraum2: int,
                           critical: int)

  datatype State = State(m: Memory, threads: seq<Thread>)

  function Init(rounds: seq<nat>): State {
    State(Memory(1, 1, 0, 0, 0, 0), seq(|rounds|, i requires 0 <= i < |rounds| => Thread(Begin, rounds[i])))
  }

  predicate Finished(th: Thread) { th.pc.Begin? && th.left == 0 }

  predicate Enabled(m: Memory, th: Thread) {
    match th.pc
    case Begin => th.left > 0 && m.mutex > 0
    case WaitMutex => m.mutex > 0
    case WaitGate1 => m.drehkreuz1 > 0
    case WaitGate2 => m.drehkreuz2 > 0
    case _ => true
  }

  function At(th: Thread, pc: Pc): Thread { th.(pc := pc) }

  function Return(th: Thread): Thread { Thread(Begin, if th.left == 0 then 0 else th.left - 1) }

  /** What the next statement of a thread does to the shared memory and to the thread. */
  function Execute(m: Memory, th: Thread): (Memory, Thread) {
    match th.pc
    case Begin => (m.(mutex := m.mutex - 1), At(th, LoadRoom1))
    case LoadRoom1 => (m, At(th, StoreRoom1(m.warteraum1)))
    case StoreRoom1(reg) => (m.(warteraum1 := reg + 1), At(th, PostMutex))
    case PostMutex => (m.(mutex := m.mutex + 1), At(th, WaitGate1))
    case WaitGate1 => (m.(drehkreuz1 := m.drehkreuz1 - 1), At(th, LoadRoom2))
    case LoadRoom2 => (m, At(th, StoreRoom2(m.warteraum2)))
    case StoreRoom2(reg) => (m.(warteraum2 := reg + 1), At(th, WaitMutex))
    case WaitMutex => (m.(mutex := m.mutex - 1), At(th, ReloadRoom1))
    case ReloadRoom1 => (m, At(th, LeaveRoom1(m.warteraum1)))
    case LeaveRoom1(reg) => (m.(warteraum1 := reg - 1), At(th, TestRoom1))
    case TestRoom1 => (m, At(th, if m.warteraum1 == 0 then PostMutexEmpty else PostMutexMore))
    case PostMutexEmpty => (m.(mutex := m.mutex + 1), At(th, PostGate2Empty))
    case PostGate2Empty => (m.(drehkreuz2 := m.drehkreuz2 + 1), At(th, WaitGate2))
    case PostMutexMore => (m.(mutex := m.mutex + 1), At(th, PostGate1More))
    case PostGate1More => (m.(drehkreuz1 := m.drehkreuz1 + 1), At(th, WaitGate2))
    case WaitGate2 => (m.(drehkreuz2 := m.drehkreuz2 - 1), At(th, ReloadRoom2))
    case ReloadRoom2 => (m, At(th, LeaveRoom2(m.warteraum2)))
    case LeaveRoom2(reg) => (m.(warteraum2 := reg - 1), At(th, LoadCritical))
    case LoadCritical => (m, At(th, StoreCritical(m.critical)))
    case StoreCritical(reg) => (m.(critical := reg + 1), At(th, TestRoom2))
    case TestRoom2 => (m, At(th, if m.warteraum2 == 0 then PostGate1Last else PostGate2Next))
    case PostGate1Last => (m.(drehkreuz1 := m.drehkreuz1 + 1), Return(th))
    case PostGate2Next => (m.(drehkreuz2 := m.drehkreuz2 + 1), Return(th))
  }

  predicate CanStep(s: State, t: nat) { t < |s.threads| && Enabled(s.m, s.threads[t]) }

  /** Thread `t` executes its next statement, if it can. */
  function Next(s: State, t: nat): State {
    if CanStep(s, t) then
      var (m, th) := Execute(s.m, s.threads[t]);
      State(m, s.threads[t := th])
    else s
  }

  // ---------- where a thread is ----------

  predicate HasMutex(pc: Pc) {
    pc.LoadRoom1? || pc.StoreRoom1? || pc.PostMutex? || pc.ReloadRoom1? || pc.LeaveRoom1? || pc.TestRoom1?
    || pc.PostMutexEmpty? || pc.PostMutexMore?
  }

  predicate InRoom1(pc: Pc) {
    pc.PostMutex? || pc.WaitGate1? || pc.LoadRoom2? || pc.StoreRoom2? || pc.WaitMutex? || pc.ReloadRoom1?
    || pc.LeaveRoom1?
  }

  /** Has been counted into the second room and has yet to pass its turnstile. */
  predicate BeforeGate2(pc: Pc) {
    pc.WaitMutex? || pc.ReloadRoom1? || pc.LeaveRoom1? || pc.TestRoom1? || pc.PostMutexEmpty? || pc.PostGate2Empty?
    || pc.PostMutexMore? || pc.PostGate1More? || pc.WaitGate2?
  }

  /** Counted by `warteraum2`. */
  predicate InRoom2(pc: Pc) { BeforeGate2(pc) || pc.ReloadRoom2? || pc.LeaveRoom2? }

  /** Past the wait of line 46 and yet to pass turnstile 1. */
  predicate BeforeGate1(pc: Pc) { pc.LoadRoom1? || pc.StoreRoom1? || pc.PostMutex? || pc.WaitGate1? }

  /** Past the wait of line 46 and yet to pass turnstile 2. */
  predicate Queued(pc: Pc) { BeforeGate1(pc) || pc.LoadRoom2? || pc.StoreRoom2? || BeforeGate2(pc) }

  /** Holds the token of phase 1: passed turnstile 1 and has yet to open a turnstile again. */
  predicate Filling(pc: Pc) {
    pc.LoadRoom2? || pc.StoreRoom2? || pc.WaitMutex? || pc.ReloadRoom1? || pc.LeaveRoom1? || pc.TestRoom1?
    || pc.PostMutexMore? || pc.PostGate1More?
  }

  /** In the critical section: passed turnstile 2 and has yet to open a turnstile again. */
  predicate InCritical(pc: Pc) {
    pc.ReloadRoom2? || pc.LeaveRoom2? || pc.LoadCritical? || pc.StoreCritical? || pc.TestRoom2? || pc.PostGate1Last?
    || pc.PostGate2Next?
  }

  /** Holds the token of phase 2: saw the first room empty, or is in the critical section. */
  predicate Draining(pc: Pc) { pc.PostMutexEmpty? || pc.PostGate2Empty? || InCritical(pc) }

  function MutexWeight(th: Thread): nat { One(HasMutex(th.pc)) }
  function Room1Weight(th: Thread): nat { One(InRoom1(th.pc)) }
  function Room2Weight(th: Thread): nat { One(InRoom2(th.pc)) }
  function TokenWeight(th: Thread): nat { One(Filling(th.pc) || Draining(th.pc)) }

  /** Increments of `critical` the thread has yet to store. */
  function Owed(th: Thread): nat {
    if th.left == 0 then 0
    else if th.pc.TestRoom2? || th.pc.PostGate1Last? || th.pc.PostGate2Next? then th.left - 1
    else th.left
  }

  // ---------- the inductive invariant ----------

  /** What the program counter of one thread says about the shared state. */
  predicate Local(m: Memory, th: Thread) {
    && (!th.pc.Begin? ==> th.left > 0)
    && match th.pc
       case StoreRoom1(reg) => reg == m.warteraum1
       case LeaveRoom1(reg) => reg == m.warteraum1
       case StoreRoom2(reg) => reg == m.warteraum2
       case LeaveRoom2(reg) => reg == m.warteraum2
       case StoreCritical(reg) => reg == m.critical
       case PostMutexEmpty => m.warteraum1 == 0
       case PostMutexMore => m.warteraum1 > 0
       case PostGate1More => m.warteraum1 > 0
       case PostGate1Last => m.warteraum2 == 0
       case PostGate2Next => m.warteraum2 > 0
       case _ => true
  }

  ghost predicate Locals(s: State) {
    forall u: nat :: u < |s.threads| ==> Local(s.m, s.threads[u])
  }

  /** Semaphores and counters are exactly the threads that stand where they should. */
  ghost predicate Counts(s: State) {
    && 0 <= s.m.mutex && s.m.mutex + Tally(s.threads, MutexWeight) == 1
    && 0 <= s.m.drehkreuz1 && 0 <= s.m.drehkreuz2
    && s.m.drehkreuz1 + s.m.drehkreuz2 + Tally(s.threads, TokenWeight) == 1
    && s.m.warteraum1 == Tally(s.threads, Room1Weight)
    && s.m.warteraum2 == Tally(s.threads, Room2Weight)
  }

  ghost predicate Gates(s: State) {
    && (s.m.drehkreuz2 > 0 ==> s.m.warteraum2 > 0)
    && (s.m.drehkreuz1 > 0 ==> s.m.warteraum1 > 0 || s.m.warteraum2 == 0)
  }

  ghost predicate Inv(s: State) { Counts(s) && Locals(s) && Gates(s) }

  lemma InitInv(rounds: seq<nat>)
    ensures Inv(Init(rounds))
  {
    var ths := Init(rounds).threads;
    Zero(ths, MutexWeight);
    Zero(ths, TokenWeight);
    Zero(ths, Room1Weight);
    Zero(ths, Room2Weight);
  }

  lemma Sums(s: State, t: nat)
    requires CanStep(s, t)
    ensures var a, b := s.threads, Next(s, t).threads;
      && |a| == |b| && (forall u: nat :: u < |a| && u != t ==> b[u] == a[u])
      && Tally(b, MutexWeight) + MutexWeight(a[t]) == Tally(a, MutexWeight) + MutexWeight(b[t])
      && Tally(b, TokenWeight) + TokenWeight(a[t]) == Tally(a, TokenWeight) + TokenWeight(b[t])
      && Tally(b, Room1Weight) + Room1Weight(a[t]) == Tally(a, Room1Weight) + Room1Weight(b[t])
      && Tally(b, Room2Weight) + Room2Weight(a[t]) == Tally(a, Room2Weight) + Room2Weight(b[t])
  {
    var x := Execute(s.m, s.threads[t]).1;
    Update(s.threads, t, x, MutexWeight);
    Update(s.threads, t, x, TokenWeight);
    Update(s.threads, t, x, Room1Weight);
    Update(s.threads, t, x, Room2Weight);
  }

  lemma Shares(s: State, t: nat)
    requires Counts(s) && t < |s.threads|
    ensures HasMutex(s.threads[t].pc) ==>
      forall u: nat :: u < |s.threads| && u != t ==> !HasMutex(s.threads[u].pc)
    ensures TokenWeight(s.threads[t]) == 1 ==>
      forall u: nat :: u < |s.threads| && u != t ==> TokenWeight(s.threads[u]) == 0
    ensures MutexWeight(s.threads[t]) <= Tally(s.threads, MutexWeight)
    ensures TokenWeight(s.threads[t]) <= Tally(s.threads, TokenWeight)
    ensures Room1Weight(s.threads[t]) <= Tally(s.threads, Room1Weight)
    ensures Room2Weight(s.threads[t]) <= Tally(s.threads, Room2Weight)
  {
    Exclusive(s.threads, MutexWeight);
    Exclusive(s.threads, TokenWeight);
    Member(s.threads, t, MutexWeight);
    Member(s.threads, t, TokenWeight);
    Member(s.threads, t, Room1Weight);
    Member(s.threads, t, Room2Weight);
  }

  /** A statement changes each counter by exactly what it changes in the weight of its thread. */
  lemma Deltas(m: Memory, a: Thread)
    requires Enabled(m, a) && Local(m, a)
    ensures var (m', b) := Execute(m, a);
      && m'.mutex + MutexWeight(b) == m.mutex + MutexWeight(a)
      && m'.warteraum1 + Room1Weight(a) == m.warteraum1 + Room1Weight(b)
      && m'.warteraum2 + Room2Weight(a) == m.warteraum2 + Room2Weight(b)
      && (0 <= m.mutex ==> 0 <= m'.mutex)
  {
  }

  lemma TokenMoves(m: Memory, a: Thread)
    requires Enabled(m, a)
    ensures var (m', b) := Execute(m, a);
      && m'.drehkreuz1 + m'.drehkreuz2 + TokenWeight(b) == m.drehkreuz1 + m.drehkreuz2 + TokenWeight(a)
      && (0 <= m.drehkreuz1 ==> 0 <= m'.drehkreuz1) && (0 <= m.drehkreuz2 ==> 0 <= m'.drehkreuz2)
  {
  }

  lemma OwnLocal(m: Memory, a: Thread)
    requires Enabled(m, a) && Local(m, a)
    requires 0 <= m.warteraum1 && 0 <= m.warteraum2
    ensures var (m', b) := Execute(m, a); Local(m', b)
  {
  }

  /** Who does not hold `mutex` cannot change `warteraum1`; who holds no token changes nothing the token protects. */
  lemma Untouched(m: Memory, a: Thread)
    requires Enabled(m, a) && Local(m, a)
    ensures var m' := Execute(m, a).0;
      && (!HasMutex(a.pc) ==> m'.warteraum1 == m.warteraum1)
      && (TokenWeight(a) == 0 ==>
          m'.warteraum2 == m.warteraum2 && m'.critical == m.critical && m'.warteraum1 >= m.warteraum1)
  {
  }

  lemma CountsKept(s: State, t: nat)
    requires Inv(s)
    ensures Counts(Next(s, t))
  {
    if CanStep(s, t) {
      assert Local(s.m, s.threads[t]);
      Sums(s, t);
      Deltas(s.m, s.threads[t]);
      TokenMoves(s.m, s.threads[t]);
    }
  }

  lemma LocalsKept(s: State, t: nat)
    requires Inv(s)
    ensures Locals(Next(s, t))
  {
    if CanStep(s, t) {
      var s' := Next(s, t);
      assert Local(s.m, s.threads[t]);
      OwnLocal(s.m, s.threads[t]);
      Sums(s, t);
      forall u: nat | u < |s'.threads| && u != t ensures Local(s'.m, s'.threads[u]) {
        assert Local(s.m, s.threads[u]);
        Untouched(s.m, s.threads[t]);
        Shares(s, t);
      }
    }
  }

  lemma GatesKept(s: State, t: nat)
    requires Inv(s)
    ensures Gates(Next(s, t))
  {
    if CanStep(s, t) {
      assert Local(s.m, s.threads[t]);
      Shares(s, t);
      Sums(s, t);
      CountsKept(s, t);
    }
  }

  lemma InvKept(s: State, t: nat)
    requires Inv(s)
    ensures Inv(Next(s, t))
  {
    CountsKept(s, t);
    LocalsKept(s, t);
    GatesKept(s, t);
  }

  function Reached(rounds: seq<nat>, run: seq<nat>): State { Exec(Next, Init(rounds), run) }

  lemma ReachedInv(rounds: seq<nat>, run: seq<nat>)
    ensures Inv(Reached(rounds, run))
  {
    InitInv(rounds);
    forall x, c | Inv(x) ensures Inv(Next(x, c)) { InvKept(x, c); }
    Always(Next, Inv, Init(rounds), run);
  }

  // ---------- mutual exclusion ----------

  predicate TouchesRoom1(pc: Pc) {
    pc.LoadRoom1? || pc.StoreRoom1? || pc.ReloadRoom1? || pc.LeaveRoom1? || pc.TestRoom1?
  }
  predicate TouchesRoom2(pc: Pc) {
    pc.LoadRoom2? || pc.StoreRoom2? || pc.ReloadRoom2? || pc.LeaveRoom2? || pc.TestRoom2?
  }
  predicate TouchesCritical(pc: Pc) { pc.LoadCritical? || pc.StoreCritical? }

  /**
   In every reachable state the turnstiles and their holders make one token, at most one thread is in the critical
   section, and no two threads are about to access the same counter.
   */
  lemma MutualExclusion(rounds: seq<nat>, run: seq<nat>, t: nat, u: nat)
    ensures var s := Reached(rounds, run);
      && s.m.drehkreuz1 + s.m.drehkreuz2 + Tally(s.threads, TokenWeight) == 1
      && (t < |s.threads| && u < |s.threads| && t != u ==>
          var a, b := s.threads[t].pc, s.threads[u].pc;
          && !(InCritical(a) && InCritical(b))
          && !(TouchesRoom1(a) && TouchesRoom1(b))
          && !(TouchesRoom2(a) && TouchesRoom2(b))
          && !(TouchesCritical(a) && TouchesCritical(b)))
  {
    ReachedInv(rounds, run);
    var s := Reached(rounds, run);
    if t < |s.threads| {
      Shares(s, t);
    }
  }

  // ---------- who waits for whom ----------

  predicate PassesGate1(s: State, t: nat) { CanStep(s, t) && s.threads[t].pc.WaitGate1? }
  predicate PassesGate2(s: State, t: nat) { CanStep(s, t) && s.threads[t].pc.WaitGate2? }

  /**
   Thread `u` keeps `t` waiting: it holds `mutex`; or it holds the token of the turnstiles; or the other turnstile is
   open, and `u` is the one who can pass it, or, counted into the first room, is on its way there.
   */
  predicate Bars(s: State, t: nat, u: nat)
    requires t < |s.threads| && u < |s.threads|
  {
    var other := s.threads[u];
    match s.threads[t].pc
    case Begin => HasMutex(other.pc)
    case WaitMutex => HasMutex(other.pc)
    case WaitGate1 => TokenWeight(other) == 1 || PassesGate2(s, u)
    case WaitGate2 => TokenWeight(other) == 1 || (s.m.drehkreuz1 > 0 && (other.pc.PostMutex? || other.pc.WaitGate1?))
    case _ => false
  }

  lemma BarsMutex(s: State, t: nat)
    requires Inv(s) && t < |s.threads| && (s.threads[t].pc.Begin? || s.threads[t].pc.WaitMutex?)
    ensures s.m.mutex > 0 <==> forall u: nat :: u < |s.threads| && u != t ==> !Bars(s, t, u)
  {
    if s.m.mutex > 0 {
      forall u: nat | u < |s.threads| ensures !Bars(s, t, u) { Shares(s, u); }
    } else {
      var u := Witness(s.threads, MutexWeight);
      assert Bars(s, t, u);
    }
  }

  lemma BarsGate1(s: State, t: nat)
    requires Inv(s) && t < |s.threads| && s.threads[t].pc.WaitGate1?
    ensures s.m.drehkreuz1 > 0 <==> forall u: nat :: u < |s.threads| && u != t ==> !Bars(s, t, u)
  {
    if s.m.drehkreuz1 > 0 {
      forall u: nat | u < |s.threads| ensures !Bars(s, t, u) { Shares(s, u); }
    } else if Tally(s.threads, TokenWeight) > 0 {
      var u := Witness(s.threads, TokenWeight);
      assert Bars(s, t, u);
    } else {
      var u := Witness(s.threads, Room2Weight);
      Shares(s, u);
      assert Bars(s, t, u);
    }
  }

  lemma BarsGate2(s: State, t: nat)
    requires Inv(s) && t < |s.threads| && s.threads[t].pc.WaitGate2?
    ensures s.m.drehkreuz2 > 0 <==> forall u: nat :: u < |s.threads| && u != t ==> !Bars(s, t, u)
  {
    if s.m.drehkreuz2 > 0 {
      forall u: nat | u < |s.threads| ensures !Bars(s, t, u) { Shares(s, u); }
    } else if Tally(s.threads, TokenWeight) > 0 {
      var u := Witness(s.threads, TokenWeight);
      assert Bars(s, t, u);
    } else {
      Member(s.threads, t, Room2Weight);
      var u := Witness(s.threads, Room1Weight);
      Shares(s, u);
      assert Bars(s, t, u);
    }
  }

  /** No unfinished thread waits without somebody who keeps it waiting, and whoever is kept waiting cannot step. */
  lemma WaitsFor(s: State, t: nat)
    requires Inv(s) && t < |s.threads| && !Finished(s.threads[t])
    ensures CanStep(s, t) <==> forall u: nat :: u < |s.threads| && u != t ==> !Bars(s, t, u)
  {
    assert Local(s.m, s.threads[t]);
    match s.threads[t].pc
    case Begin => BarsMutex(s, t);
    case WaitMutex => BarsMutex(s, t);
    case WaitGate1 => BarsGate1(s, t);
    case WaitGate2 => BarsGate2(s, t);
    case _ =>
  }

  /** In every reachable state the waits of an unfinished thread are exactly those for a thread that bars it. */
  lemma WaitsExactly(rounds: seq<nat>, run: seq<nat>, t: nat)
    ensures var s := Reached(rounds, run);
      t < |s.threads| && !Finished(s.threads[t]) ==>
        (CanStep(s, t) <==> forall u: nat :: u < |s.threads| && u != t ==> !Bars(s, t, u))
  {
    ReachedInv(rounds, run);
    if t < |Reached(rounds, run).threads| && !Finished(Reached(rounds, run).threads[t]) {
      WaitsFor(Reached(rounds, run), t);
    }
  }

  // ---------- deadlock freedom and completion ----------

  /** In a state of the invariant, an unfinished thread means that some thread can step. */
  lemma Progress(s: State, t: nat) returns (u: nat)
    requires Inv(s) && t < |s.threads| && !Finished(s.threads[t])
    ensures CanStep(s, u)
  {
    if CanStep(s, t) {
      return t;
    }
    assert Local(s.m, s.threads[t]);
    if s.m.mutex == 0 {
      u := Witness(s.threads, MutexWeight);
    } else if Tally(s.threads, TokenWeight) > 0 {
      u := Witness(s.threads, TokenWeight);
    } else if s.m.drehkreuz2 > 0 {
      u := Witness(s.threads, Room2Weight);
      Member(s.threads, u, TokenWeight);
    } else {
      // turnstile 1 is open: somebody waits for it, in the first room
      if s.m.warteraum1 > 0 {
        u := Witness(s.threads, Room1Weight);
        Member(s.threads, u, TokenWeight);
      } else {
        Member(s.threads, t, Room2Weight);
        Member(s.threads, t, Room1Weight);
        u := t;
      }
    }
  }

  lemma AllDone(s: State)
    requires Inv(s) && forall t: nat :: !CanStep(s, t)
    ensures forall t: nat :: t < |s.threads| ==> Finished(s.threads[t])
  {
    forall t: nat | t < |s.threads| ensures Finished(s.threads[t]) {
      if !Finished(s.threads[t]) {
        var u := Progress(s, t);
      }
    }
  }

  /** Statements left in the current acquisition. */
  function ToGo(pc: Pc): nat {
    match pc
    case Begin => 20
    case LoadRoom1 => 19 case StoreRoom1(_) => 18 case PostMutex => 17 case WaitGate1 => 16
    case LoadRoom2 => 15 case StoreRoom2(_) => 14 case WaitMutex => 13 case ReloadRoom1 => 12
    case LeaveRoom1(_) => 11 case TestRoom1 => 10
    case PostMutexEmpty => 9 case PostGate2Empty => 8 case PostMutexMore => 9 case PostGate1More => 8
    case WaitGate2 => 7 case ReloadRoom2 => 6 case LeaveRoom2(_) => 5
    case LoadCritical => 4 case StoreCritical(_) => 3 case TestRoom2 => 2
    case PostGate1Last => 1 case PostGate2Next => 1
  }

  function WorkOf(th: Thread): nat { if th.left == 0 then 0 else (th.left - 1) * 20 + ToGo(th.pc) }
  function Work(s: State): nat { Tally(s.threads, WorkOf) }
  function Size(s: State): nat { |s.threads| }
  function Promised(s: State): int { s.m.critical + Tally(s.threads, Owed) }

  lemma ThreadAccounts(m: Memory, a: Thread)
    requires Enabled(m, a) && Local(m, a)
    ensures var (m', b) := Execute(m, a);
      WorkOf(b) + 1 == WorkOf(a) && m'.critical + Owed(b) == m.critical + Owed(a)
  {
  }

  lemma StepAccounts(s: State, t: nat)
    requires Inv(s)
    ensures Work(Next(s, t)) + One(CanStep(s, t)) == Work(s)
    ensures Promised(Next(s, t)) == Promised(s) && Size(Next(s, t)) == Size(s)
  {
    if CanStep(s, t) {
      var x := Next(s, t).threads[t];
      assert Local(s.m, s.threads[t]);
      Update(s.threads, t, x, WorkOf);
      Update(s.threads, t, x, Owed);
      ThreadAccounts(s.m, s.threads[t]);
    }
  }

  lemma RunAccounts(s: State, run: seq<nat>)
    requires Inv(s)
    ensures |Events(Next, CanStep, s, run)| + Work(Exec(Next, s, run)) <= Work(s)
    ensures Promised(Exec(Next, s, run)) == Promised(s)
    ensures Size(Exec(Next, s, run)) == Size(s)
  {
    forall x, c | Inv(x)
      ensures Inv(Next(x, c)) && Promised(Next(x, c)) == Promised(x) && Size(Next(x, c)) == Size(x)
      ensures Work(Next(x, c)) + (if CanStep(x, c) then 1 else 0) <= Work(x)
    {
      InvKept(x, c);
      StepAccounts(x, c);
    }
    WorkBoundsSteps(Next, CanStep, Inv, Work, s, run);
    Conserved(Next, Inv, Promised, s, run);
    Conserved(Next, Inv, Size, s, run);
  }

  lemma {:induction false} WorkIsTwenty(ths: seq<Thread>)
    requires forall i: nat :: i < |ths| ==> ths[i].pc.Begin?
    ensures Tally(ths, WorkOf) == 20 * Tally(ths, Owed)
  {
    if ths == [] {
    } else {
      WorkIsTwenty(ths[1..]);
    }
  }

  lemma InitAccounts(rounds: seq<nat>)
    ensures Work(Init(rounds)) == 20 * Tally(rounds, Id) && Promised(Init(rounds)) == Tally(rounds, Id)
  {
    var ths := Init(rounds).threads;
    Same(ths, Owed, rounds, Id);
    WorkIsTwenty(ths);
    Same(ths, Owed, rounds, Id);
  }

  /** Thread `t` enters the critical section. */
  function EntersAs(t: nat): (State, nat) -> bool { (s: State, c: nat) => c == t && PassesGate2(s, c) }

  /** How often the thread will still enter. */
  function Entries(th: Thread): nat {
    if th.left == 0 then 0 else if th.pc.Begin? || Queued(th.pc) then th.left else th.left - 1
  }

  lemma EntriesMove(m: Memory, th: Thread)
    requires Enabled(m, th) && Local(m, th)
    ensures Entries(th) == Entries(Execute(m, th).1) + One(th.pc.WaitGate2?)
  {
  }

  /** In every run, the entries of a thread and those it has yet to make are the acquisitions it was asked for. */
  lemma EveryEntry(rounds: seq<nat>, run: seq<nat>, t: nat)
    requires t < |rounds|
    ensures var s := Reached(rounds, run);
      t < |s.threads| && |Events(Next, EntersAs(t), Init(rounds), run)| + Entries(s.threads[t]) == rounds[t]
  {
    ghost var inv := (x: State) => Inv(x) && |x.threads| == |rounds|;
    ghost var meter := (x: State) => if t < |x.threads| then Entries(x.threads[t]) else 0;
    InitInv(rounds);
    forall x, c: nat | inv(x)
      ensures inv(Next(x, c)) && meter(Next(x, c)) + (if EntersAs(t)(x, c) then 1 else 0) == meter(x)
    {
      InvKept(x, c);
      if CanStep(x, c) {
        assert Local(x.m, x.threads[c]);
        EntriesMove(x.m, x.threads[c]);
      }
    }
    Metered(Next, EntersAs(t), inv, meter, Init(rounds), run);
    Always(Next, inv, Init(rounds), run);
  }

  /**
   No deadlock and no lost increment: a run executes at most 20 statements for each acquisition asked for, and where
   no thread can step, every thread has finished and entered as often as asked for, and `critical` counts every
   acquisition.
   */
  lemma Completion(rounds: seq<nat>, run: seq<nat>)
    ensures var s := Reached(rounds, run);
      && |Events(Next, CanStep, Init(rounds), run)| <= 20 * Tally(rounds, Id)
      && |s.threads| == |rounds|
      && ((forall t: nat :: !CanStep(s, t)) ==>
          && s.m.critical == Tally(rounds, Id)
          && (forall t: nat :: t < |rounds| ==>
              Finished(s.threads[t]) && |Events(Next, EntersAs(t), Init(rounds), run)| == rounds[t]))
  {
    var s := Reached(rounds, run);
    ReachedInv(rounds, run);
    InitInv(rounds);
    RunAccounts(Init(rounds), run);
    InitAccounts(rounds);
    if forall t: nat :: !CanStep(s, t) {
      AllDone(s);
      Zero(s.threads, Owed);
      forall t: nat | t < |rounds| ensures |Events(Next, EntersAs(t), Init(rounds), run)| == rounds[t] {
        EveryEntry(rounds, run, t);
      }
    }
  }

  // ---------- the two phases ----------

  predicate Reopens(s: State, t: nat) { CanStep(s, t) && s.threads[t].pc.PostGate1Last? }

  /** Phase 2: turnstile 2 is open, or its token travels. */
  ghost predicate InDrain(s: State) {
    s.m.drehkreuz2 > 0 || exists t: nat :: t < |s.threads| && Draining(s.threads[t].pc)
  }

  ghost function Waiting(s: State): set<nat> {
    set t: nat | t < |s.threads| && BeforeGate2(s.threads[t].pc)
  }

  lemma DrainFacts(s: State)
    requires Inv(s) && InDrain(s)
    ensures s.m.drehkreuz1 == 0
    ensures forall t: nat :: t < |s.threads| ==> !Filling(s.threads[t].pc)
    ensures forall t: nat :: t < |s.threads| && Draining(s.threads[t].pc) ==> s.m.drehkreuz2 == 0
  {
    forall t: nat | t < |s.threads|
      ensures !Filling(s.threads[t].pc) && (Draining(s.threads[t].pc) ==> s.m.drehkreuz2 == 0)
    {
      Shares(s, t);
    }
    if s.m.drehkreuz2 == 0 {
      var t: nat :| t < |s.threads| && Draining(s.threads[t].pc);
      Shares(s, t);
    }
  }

  /** How a statement moves its thread between the places above. */
  lemma Moves(m: Memory, th: Thread)
    requires Enabled(m, th) && Local(m, th)
    ensures var (m', th') := Execute(m, th);
      var a, b := th.pc, th'.pc;
      && (BeforeGate2(b) <==> a.StoreRoom2? || (BeforeGate2(a) && !a.WaitGate2?))
      && (BeforeGate1(b) <==> a.Begin? || (BeforeGate1(a) && !a.WaitGate1?))
      && (Queued(a) && !a.WaitGate2? ==> Queued(b))
      && (Draining(b) && !Draining(a) ==> (a.TestRoom1? && m.warteraum1 == 0) || a.WaitGate2?)
      && (a.TestRoom1? && m.warteraum1 == 0 ==> Draining(b))
      && (m'.drehkreuz2 > m.drehkreuz2 ==> Draining(a))
      && (m'.drehkreuz2 < m.drehkreuz2 ==> a.WaitGate2?)
      && (a.WaitGate2? ==> Draining(b))
      && (Draining(a) && m'.drehkreuz2 == m.drehkreuz2 && !a.PostGate1Last? ==> Draining(b))
  {
  }

  /** A step of phase 2 other than the one that reopens turnstile 1. */
  lemma DrainStep(s: State, t: nat)
    requires Inv(s) && InDrain(s) && !Reopens(s, t)
    ensures !PassesGate1(s, t) && InDrain(Next(s, t))
    ensures PassesGate2(s, t) ==> t in Waiting(s)
    ensures Waiting(Next(s, t)) == Waiting(s) - (if PassesGate2(s, t) then {t} else {})
  {
    DrainFacts(s);
    if CanStep(s, t) {
      var s' := Next(s, t);
      assert Local(s.m, s.threads[t]);
      Sums(s, t);
      Moves(s.m, s.threads[t]);
      if Draining(s.threads[t].pc) || PassesGate2(s, t) {
        assert s'.m.drehkreuz2 > 0 || Draining(s'.threads[t].pc);
      } else if s.m.drehkreuz2 == 0 {
        var u: nat :| u < |s.threads| && Draining(s.threads[u].pc);
        assert Draining(s'.threads[u].pc);
      }
    }
  }

  ghost predicate DrainInv(s: State) { Inv(s) && InDrain(s) }

  lemma SeesEmpty(s: State, t: nat)
    requires Inv(s) && t < |s.threads| && s.threads[t].pc.TestRoom1? && s.m.warteraum1 == 0
    ensures DrainInv(Next(s, t)) && Waiting(Next(s, t)) == Waiting(s)
  {
    InvKept(s, t);
    Sums(s, t);
    assert Draining(Next(s, t).threads[t].pc);
  }

  lemma AllPassed(s: State, u: nat)
    requires Inv(s) && Reopens(s, u)
    ensures Waiting(s) == {}
  {
    assert Local(s.m, s.threads[u]);
    if v :| v in Waiting(s) {
      Member(s.threads, v, Room2Weight);
    }
  }

  /**
   The batch: let `t` see the first room empty.  Until a thread reopens turnstile 1 nobody passes it, and the threads
   that pass turnstile 2 are threads that waited for it when `t` looked, each at most once; when a thread is
   about to reopen turnstile 1, all of them have passed.
   */
  lemma Batch(rounds: seq<nat>, before: seq<nat>, t: nat, after: seq<nat>)
    requires var s := Reached(rounds, before);
      t < |s.threads| && s.threads[t].pc.TestRoom1? && s.m.warteraum1 == 0
      && Events(Next, Reopens, Next(s, t), after) == []
    ensures var s := Reached(rounds, before);
      var seen := Next(s, t);
      var end, entries := Exec(Next, seen, after), Events(Next, PassesGate2, seen, after);
      && Events(Next, PassesGate1, seen, after) == []
      && multiset(entries) + multiset(Waiting(end)) == multiset(Waiting(s))
      && ((exists u: nat :: Reopens(end, u)) ==> multiset(entries) == multiset(Waiting(s)))
  {
    ReachedInv(rounds, before);
    var s := Reached(rounds, before);
    SeesEmpty(s, t);
    forall x, c ensures Leaves(Next, DrainInv, Reopens, PassesGate1, PassesGate2, Waiting, x, c) {
      if DrainInv(x) && !Reopens(x, c) {
        DrainStep(x, c);
        InvKept(x, c);
      }
    }
    Drains(Next, DrainInv, Reopens, PassesGate1, PassesGate2, Waiting, Next(s, t), after);
    var end := Exec(Next, Next(s, t), after);
    if u: nat :| Reopens(end, u) {
      AllPassed(end, u);
    }
  }

  // ---------- bounded bypass ----------

  /** How often `u` can still enter ahead of the queued thread `t`. */
  ghost function Budget(s: State, t: nat, u: nat): nat
    requires t < |s.threads| && u < |s.threads|
  {
    if InDrain(s) then One(BeforeGate2(s.threads[u].pc)) + One(BeforeGate1(s.threads[t].pc)) else 1
  }

  lemma FillStep(s: State, x: nat, t: nat)
    requires Inv(s) && !InDrain(s) && CanStep(s, x) && t < |s.threads| && Queued(s.threads[t].pc)
    ensures !PassesGate2(s, x) && Queued(Next(s, x).threads[t].pc)
    ensures InDrain(Next(s, x)) ==> !BeforeGate1(Next(s, x).threads[t].pc)
  {
    var s' := Next(s, x);
    assert Local(s.m, s.threads[x]);
    Sums(s, x);
    Shares(s, t);
    Moves(s.m, s.threads[x]);
    assert s.m.drehkreuz2 <= 0;
    assert !Draining(s.threads[x].pc);
    if InDrain(s') {
      if s'.m.drehkreuz2 == 0 {
        var v: nat :| v < |s'.threads| && Draining(s'.threads[v].pc);
        assert v == x;
        Member(s.threads, t, Room1Weight);
      }
    }
  }

  lemma BudgetStep(s: State, x: nat, t: nat, u: nat)
    requires Inv(s) && t < |s.threads| && u < |s.threads| && t != u
    requires Queued(s.threads[t].pc) && !(x == t && PassesGate2(s, x))
    ensures |Next(s, x).threads| == |s.threads| && Queued(Next(s, x).threads[t].pc)
    ensures Budget(Next(s, x), t, u) + One(x == u && PassesGate2(s, x)) <= Budget(s, t, u)
  {
    if CanStep(s, x) {
      assert Local(s.m, s.threads[x]);
      var s' := Next(s, x);
      Sums(s, x);
      Moves(s.m, s.threads[x]);
      if InDrain(s) && !Reopens(s, x) {
        DrainStep(s, x);
        DrainFacts(s);
      } else if InDrain(s) {
        // the second room is empty, so `t` still is in the first
        Member(s.threads, t, Room2Weight);
        Member(s.threads, u, Room2Weight);
        DrainFacts(s);
      } else {
        FillStep(s, x, t);
      }
    }
  }

  lemma BudgetRun(s: State, run: seq<nat>, t: nat, u: nat)
    requires Inv(s) && t < |s.threads| && u < |s.threads| && t != u && Queued(s.threads[t].pc)
    requires t !in Events(Next, PassesGate2, s, run)
    ensures Times(Events(Next, PassesGate2, s, run), u) <= Budget(s, t, u)
  {
    ghost var inv := (x: State) => Inv(x) && |x.threads| == |s.threads| && Queued(x.threads[t].pc);
    ghost var budget := (x: State) => if |x.threads| == |s.threads| then Budget(x, t, u) else 0;
    forall x, c: nat | inv(x) && !(c == t && PassesGate2(x, c))
      ensures inv(Next(x, c)) && budget(Next(x, c)) + (if c == u && PassesGate2(x, c) then 1 else 0) <= budget(x)
    {
      BudgetStep(x, c, t, u);
      InvKept(x, c);
    }
    Budgeted(Next, inv, PassesGate2, budget, t, u, s, run);
  }

  lemma {:induction false} EventsInRange(s: State, run: seq<nat>)
    ensures forall x: nat :: x in Events(Next, PassesGate2, s, run) ==> x < |s.threads|
    decreases |run|
  {
    if run == [] {
    } else {
      EventsInRange(Next(s, run[0]), run[1..]);
    }
  }

  lemma BudgetAtMost(s: State, t: nat, u: nat)
    requires Inv(s) && t < |s.threads| && u < |s.threads|
    ensures Budget(s, t, u) <= if BeforeGate1(s.threads[t].pc) then 2 else 1
  {
  }

  lemma Bypass(s: State, t: nat, run: seq<nat>)
    requires Inv(s) && t < |s.threads| && Queued(s.threads[t].pc) && t !in Events(Next, PassesGate2, s, run)
    ensures var entries, k := Events(Next, PassesGate2, s, run), if BeforeGate1(s.threads[t].pc) then 2 else 1;
      && (forall u: nat :: Times(entries, u) <= k)
      && |entries| <= k * (|s.threads| - 1)
  {
    var entries, k := Events(Next, PassesGate2, s, run), if BeforeGate1(s.threads[t].pc) then 2 else 1;
    EventsInRange(s, run);
    forall u: nat ensures Times(entries, u) <= k {
      if u in entries {
        BudgetRun(s, run, t, u);
        BudgetAtMost(s, t, u);
      }
    }
    AtMostEach(entries, |s.threads|, t, k);
  }

  /**
   Bounded bypass: once `t` has got through the wait of line 46, and for as long as it has not passed turnstile 2, no
   other thread enters more than twice, so at most `2 * (N - 1)` entries happen ahead of `t`; once `t` has
   passed turnstile 1, no other thread enters more than once.
   */
  lemma BoundedBypass(rounds: seq<nat>, before: seq<nat>, t: nat, after: seq<nat>)
    requires var s := Reached(rounds, before);
      t < |s.threads| && Queued(s.threads[t].pc) && t !in Events(Next, PassesGate2, s, after)
    ensures var s := Reached(rounds, before);
      var entries, k := Events(Next, PassesGate2, s, after), if BeforeGate1(s.threads[t].pc) then 2 else 1;
      && (forall u: nat :: Times(entries, u) <= k)
      && |entries| <= k * (|rounds| - 1)
  {
    ReachedInv(rounds, before);
    InitInv(rounds);
    RunAccounts(Init(rounds), before);
    Bypass(Reached(rounds, before), t, after);
  }

  // ---------- where the bypass is not bounded ----------

  /** Thread `t` waits at line 46, and so does everybody else but thread `c`. */
  ghost predicate Alone(s: State, t: nat, c: nat) {
    && Inv(s) && t < |s.threads| && c < |s.threads| && t != c && s.threads[t].left > 0
    && forall u: nat :: u < |s.threads| && u != c ==> s.threads[u].pc.Begin?
  }

  /** How often the thread will still hold `mutex` at line 47. */
  function Chances(th: Thread): nat {
    if th.left == 0 then 0 else if th.pc.Begin? || th.pc.LoadRoom1? then th.left else th.left - 1
  }

  lemma ChancesMove(m: Memory, th: Thread)
    requires Enabled(m, th) && Local(m, th)
    ensures Chances(th) == Chances(Execute(m, th).1) + One(th.pc.LoadRoom1?)
  {
  }

  /** Nobody keeps thread `c` waiting. */
  lemma AloneStep(s: State, t: nat, c: nat)
    requires Alone(s, t, c) && s.threads[c].left > 0
    ensures var s', th := Next(s, c), s.threads[c];
      && CanStep(s, c) && Alone(s', t, c) && |s'.threads| == |s.threads| && s'.threads[t] == s.threads[t]
      && WorkOf(s'.threads[c]) < WorkOf(th)
      && Entries(th) == Entries(s'.threads[c]) + One(PassesGate2(s, c))
      && Chances(th) == Chances(s'.threads[c]) + One(th.pc.LoadRoom1?)
  {
    WaitsFor(s, c);
    InvKept(s, c);
    assert Local(s.m, s.threads[c]);
    ThreadAccounts(s.m, s.threads[c]);
    EntriesMove(s.m, s.threads[c]);
    ChancesMove(s.m, s.threads[c]);
  }

  /** Thread `t` cannot use its turn while `c` holds `mutex`. */
  lemma Barred(s: State, t: nat, c: nat)
    requires Alone(s, t, c) && HasMutex(s.threads[c].pc)
    ensures !CanStep(s, t)
  {
    Member(s.threads, c, MutexWeight);
  }

  lemma {:induction false} AloneRun(s: State, t: nat, c: nat) returns (run: seq<nat>, end: State)
    requires Alone(s, t, c)
    ensures Alone(end, t, c) && |end.threads| == |s.threads| && end.threads[t] == s.threads[t]
    ensures Overtakes(Next, CanStep, PassesGate2, t, c, s, run, Entries(s.threads[c]), Chances(s.threads[c]), end)
    decreases WorkOf(s.threads[c])
  {
    if s.threads[c].left == 0 {
      run, end := [], s;
    } else {
      AloneStep(s, t, c);
      var s' := Next(s, c);
      var n, k := Entries(s'.threads[c]), Chances(s'.threads[c]);
      run, end := AloneRun(s', t, c);
      OvertakeStep(Next, CanStep, PassesGate2, t, c, s, run, n, k, end);
      run := [c] + run;
      if s.threads[c].pc.LoadRoom1? {
        Barred(s, t, c);
        OvertakeTurn(Next, CanStep, PassesGate2, t, c, s, run, Entries(s.threads[c]), k, end);
        run := [t] + run;
      }
    }
  }

  /**
   The weak semaphore `mutex` bounds nothing: whatever the threads' rounds, there is a run in which `c` enters as often
   as it asks for while `t` waits at line 46, where it has as many turns and finds the semaphore taken each time.
   */
  lemma Overtake(rounds: seq<nat>, t: nat, c: nat) returns (run: seq<nat>)
    requires t < |rounds| && c < |rounds| && t != c && rounds[t] > 0
    ensures var s, n := Init(rounds), rounds[c];
      var end, entries := Exec(Next, s, run), Events(Next, PassesGate2, s, run);
      && |end.threads| == |rounds| && end.threads[t] == s.threads[t] == Thread(Begin, rounds[t])
      && Times(entries, c) == |entries| == n
      && Times(run, t) == n && t !in Events(Next, CanStep, s, run)
  {
    var s, end := Init(rounds), Init(rounds);
    InitInv(rounds);
    run, end := AloneRun(s, t, c);
  }

  /** Who cannot step does not enter. */
  lemma {:induction false} OnlySteps(s: State, run: seq<nat>)
    ensures forall t: nat :: t in Events(Next, PassesGate2, s, run) ==> t in Events(Next, CanStep, s, run)
    decreases |run|
  {
    if run == [] {
    } else {
      OnlySteps(Next(s, run[0]), run[1..]);
    }
  }

  /** Thread `t` is on its way in, past the wait of line 46 or not as `begun` says, and `after` does not let it in. */
  ghost predicate Bypassed(begun: bool, rounds: seq<nat>, before: seq<nat>, t: nat, after: seq<nat>) {
    var s := Reached(rounds, before);
    && t < |s.threads| && !Finished(s.threads[t]) && !InCritical(s.threads[t].pc)
    && (begun <==> !s.threads[t].pc.Begin?) && t !in Events(Next, PassesGate2, s, after)
  }

  /** Among `n` threads, at most `k` entries happen ahead of such a thread. */
  ghost predicate BypassAtMost(n: nat, begun: bool, k: int) {
    forall rounds, before, t, after :: |rounds| == n && Bypassed(begun, rounds, before, t, after) ==>
      |Events(Next, PassesGate2, Reached(rounds, before), after)| <= k
  }

  /** For two threads or more, the entries ahead of a waiting thread are bounded exactly if it has got past line 46. */
  lemma BypassExactly(n: nat, begun: bool)
    requires n >= 2
    ensures (exists k: int :: BypassAtMost(n, begun, k)) <==> begun
  {
    if begun {
      forall rounds, before, t, after | |rounds| == n && Bypassed(begun, rounds, before, t, after)
        ensures |Events(Next, PassesGate2, Reached(rounds, before), after)| <= 2 * (n - 1)
      {
        BoundedBypass(rounds, before, t, after);
      }
      assert BypassAtMost(n, begun, 2 * (n - 1));
    } else if k: int :| BypassAtMost(n, begun, k) {
      var rounds := seq(n, i => if k < 0 then 1 else k + 1);
      var run := Overtake(rounds, 0, 1);
      OnlySteps(Init(rounds), run);
      assert Bypassed(begun, rounds, [], 0, run);
    }
  }

  // ---------- the mutex itself, updated in place ----------

  predicate Changing(pc: Pc) {
    BeforeGate1(pc) || pc.LoadRoom2? || pc.StoreRoom2? || pc.WaitMutex? || pc.ReloadRoom1? || pc.LeaveRoom1?
  }
  predicate Incrementing(pc: Pc) { pc.LoadCritical? || pc.StoreCritical? }
  predicate Releasing(pc: Pc) { pc.TestRoom2? || pc.PostGate1Last? || pc.PostGate2Next? }
  predicate GoingIn(pc: Pc) { !pc.Begin? && !Changing(pc) && !Incrementing(pc) && !Releasing(pc) }

  class NsMutex {
    var mutex: int
    var drehkreuz1: int
    var drehkreuz2: int
    var warteraum1: int
    var warteraum2: int
    var critical: int
    var threads: seq<Thread>

    function Snapshot(): State
      reads this
    {
      State(Memory(mutex, drehkreuz1, drehkreuz2, warteraum1, warteraum2, critical), threads)
    }

    ghost predicate Valid()
      reads this
    {
      Inv(Snapshot())
    }

    constructor (rounds: seq<nat>)
      ensures Valid() && Snapshot() == Init(rounds)
    {
      mutex, drehkreuz1, drehkreuz2 := 1, 1, 0;
      warteraum1, warteraum2, critical := 0, 0, 0;
      threads := Init(rounds).threads;
      new;
      InitInv(rounds);
    }

    method Goto(t: nat, pc: Pc)
      requires t < |threads|
      modifies this`threads
      ensures threads == old(threads)[t := old(threads)[t].(pc := pc)]
    {
      threads := threads[t := threads[t].(pc := pc)];
    }

    /** Lines 46 to 53: into the first room, and over to the second one. */
    method ChangeRooms(t: nat)
      requires CanStep(Snapshot(), t) && (threads[t].pc.Begin? || Changing(threads[t].pc))
      modifies this
      ensures Snapshot() == Next(old(Snapshot()), t)
    {
      ghost var s' := Next(Snapshot(), t);
      match threads[t].pc {
        case Begin => mutex := mutex - 1; Goto(t, LoadRoom1);
        case LoadRoom1 => Goto(t, StoreRoom1(warteraum1));
        case StoreRoom1(reg) => warteraum1 := reg + 1; Goto(t, PostMutex);
        case PostMutex => mutex := mutex + 1; Goto(t, WaitGate1);
        case WaitGate1 => drehkreuz1 := drehkreuz1 - 1; Goto(t, LoadRoom2);
        case LoadRoom2 => Goto(t, StoreRoom2(warteraum2));
        case StoreRoom2(reg) => warteraum2 := reg + 1; Goto(t, WaitMutex);
        case WaitMutex => mutex := mutex - 1; Goto(t, ReloadRoom1);
        case ReloadRoom1 => Goto(t, LeaveRoom1(warteraum1));
        case LeaveRoom1(reg) => warteraum1 := reg - 1; Goto(t, TestRoom1);
      }
      assert Snapshot() == s';
    }

    /** Lines 55 to 63: one of the turnstiles is opened, and the second one passed. */
    method GoIn(t: nat)
      requires CanStep(Snapshot(), t) && GoingIn(threads[t].pc)
      modifies this
      ensures Snapshot() == Next(old(Snapshot()), t)
    {
      ghost var s' := Next(Snapshot(), t);
      match threads[t].pc {
        case TestRoom1 =>
          if warteraum1 == 0 {
            Goto(t, PostMutexEmpty);
          } else {
            Goto(t, PostMutexMore);
          }
        case PostMutexEmpty => mutex := mutex + 1; Goto(t, PostGate2Empty);
        case PostGate2Empty => drehkreuz2 := drehkreuz2 + 1; Goto(t, WaitGate2);
        case PostMutexMore => mutex := mutex + 1; Goto(t, PostGate1More);
        case PostGate1More => drehkreuz1 := drehkreuz1 + 1; Goto(t, WaitGate2);
        case WaitGate2 => drehkreuz2 := drehkreuz2 - 1; Goto(t, ReloadRoom2);
        case ReloadRoom2 => Goto(t, LeaveRoom2(warteraum2));
        case LeaveRoom2(reg) => warteraum2 := reg - 1; Goto(t, LoadCritical);
      }
      assert Snapshot() == s';
    }

    /** The next statement of `ns_mutex_acquire` in thread `t`. */
    method Acquire(t: nat)
      requires Valid() && CanStep(Snapshot(), t)
      requires threads[t].pc.Begin? || Changing(threads[t].pc) || GoingIn(threads[t].pc)
      modifies this
      ensures Valid() && Snapshot() == Next(old(Snapshot()), t)
    {
      InvKept(Snapshot(), t);
      if GoingIn(threads[t].pc) {
        GoIn(t);
      } else {
        ChangeRooms(t);
      }
    }

    /** The next statement of `critical++` in thread `t`. */
    method Increment(t: nat)
      requires Valid() && CanStep(Snapshot(), t) && Incrementing(threads[t].pc)
      modifies this
      ensures Valid() && Snapshot() == Next(old(Snapshot()), t)
      ensures old(threads[t].pc.StoreCritical?) ==> critical == old(critical) + 1
    {
      ghost var s' := Next(Snapshot(), t);
      InvKept(Snapshot(), t);
      assert Local(Snapshot().m, threads[t]);
      match threads[t].pc {
        case LoadCritical => Goto(t, StoreCritical(critical));
        case StoreCritical(reg) => critical := reg + 1; Goto(t, TestRoom2);
      }
      assert Snapshot() == s';
    }

    /** The next statement of `ns_mutex_release` in thread `t`. */
    method Release(t: nat)
      requires Valid() && CanStep(Snapshot(), t) && Releasing(threads[t].pc)
      modifies this
      ensures Valid() && Snapshot() == Next(old(Snapshot()), t)
    {
      ghost var s' := Next(Snapshot(), t);
      InvKept(Snapshot(), t);
      assert Local(Snapshot().m, threads[t]);
      match threads[t].pc {
        case TestRoom2 =>
          if warteraum2 == 0 {
            Goto(t, PostGate1Last);
          } else {
            Goto(t, PostGate2Next);
          }
        case PostGate1Last =>
          drehkreuz1 := drehkreuz1 + 1;
          threads := threads[t := Thread(Begin, threads[t].left - 1)];
        case PostGate2Next =>
          drehkreuz2 := drehkreuz2 + 1;
          threads := threads[t := Thread(Begin, threads[t].left - 1)];
      }
      assert Snapshot() == s';
    }
  }
}
