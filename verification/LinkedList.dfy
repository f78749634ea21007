/**
 The list with one lock per node and hand-over-hand appends.  Any number of threads append any programs of values.
 Nothing is ever freed and addresses are compared with NULL only, so nodes are named by the order of allocation.
 */
module LinkedList {
  import opened Census
  import opened Primitives
  import opened Runs

  datatype Node = Node(value: int, next: Ref, lock: Lock)

  /** Program counters, with source lines and the local variables that are live. */
  datatype Pc =
    | ReadHead                               // 39
    | LockHead(cur: Addr)                    // 40
    | TestEmpty(cur: Addr)                   // 43
    | AllocFirst(cur: Addr)                  // 44
    | LinkFirst(cur: Addr, newNode: Addr)    // 45
    | TestNext(cur: Addr)                    // 53
    | Advance(prev: Addr)                    // 54, 55
    | LockNext(prev: Addr, cur: Addr)        // 58
    | UnlockPrev(prev: Addr, cur: Addr)      // 59
    | AllocLast(cur: Addr)                   // 62
    | LinkLast(cur: Addr, newNode: Addr)     // 63
    | UnlockLast(cur: Addr)                  // 46, 65

  /** `todo` holds the values to append, that of the current call first; `ticket` is history, set at line 40. */
  datatype Thread = Thread(pc: Pc, todo: seq<int>, ticket: nat)

  /** `arrivals` (calls in the order of locking the head) and `linked` (calls in the order of appending) are history. */
  datatype Memory = Memory(heap: seq<Node>, head: Addr, arrivals: seq<Call>, linked: seq<Call>)

  datatype State = State(m: Memory, threads: seq<Thread>)

  function Init(programs: seq<seq<int>>): State {
    State(Memory([Node(0, Null, Unlocked)], 0, [], []),
          seq(|programs|, i requires 0 <= i < |programs| => Thread(ReadHead, programs[i], 0)))
  }

  function NextOf(m: Memory, a: Addr): Ref { if a < |m.heap| then m.heap[a].next else Null }
  function LockOf(m: Memory, a: Addr): Lock { if a < |m.heap| then m.heap[a].lock else Unlocked }

  function SetLock(m: Memory, a: Addr, l: Lock): Memory {
    if a < |m.heap| then m.(heap := m.heap[a := m.heap[a].(lock := l)]) else m
  }

  function Malloc(m: Memory, value: int, next: Ref): Memory { m.(heap := m.heap + [Node(value, next, Unlocked)]) }

  function Link(m: Memory, cur: Addr, newNode: Addr, call: Call): Memory {
    if cur < |m.heap| then
      m.(heap := m.heap[cur := m.heap[cur].(next := Ptr(newNode))], linked := m.linked + [call])
    else m
  }

  function Value(th: Thread): int { if th.todo == [] then 0 else th.todo[0] }
  function At(th: Thread, pc: Pc): Thread { th.(pc := pc) }
  function Return(th: Thread): Thread { th.(pc := ReadHead, todo := if th.todo == [] then [] else th.todo[1..]) }

  predicate Enabled(m: Memory, th: Thread) {
    match th.pc
    case ReadHead => th.todo != []
    case LockHead(cur) => LockOf(m, cur) == Unlocked
    case LockNext(_, cur) => LockOf(m, cur) == Unlocked
    case _ => true
  }

  /** What the next statement of thread `t` does to the shared memory and to the thread. */
  function Execute(m: Memory, t: nat, th: Thread): (Memory, Thread) {
    match th.pc
    case ReadHead => (m, At(th, LockHead(m.head)))
    case LockHead(cur) =>
      (SetLock(m, cur, Held(t)).(arrivals := m.arrivals + [Call(t, Value(th))]),
       Thread(TestEmpty(cur), th.todo, |m.arrivals|))
    case TestEmpty(cur) => (m, At(th, if NextOf(m, cur).Null? then AllocFirst(cur) else TestNext(cur)))
    case AllocFirst(cur) => (Malloc(m, Value(th), Null), At(th, LinkFirst(cur, |m.heap|)))
    case LinkFirst(cur, newNode) => (Link(m, cur, newNode, Call(t, Value(th))), At(th, UnlockLast(cur)))
    case TestNext(cur) => (m, At(th, if NextOf(m, cur).Null? then AllocLast(cur) else Advance(cur)))
    case Advance(prev) => (m, At(th, LockNext(prev, if NextOf(m, prev).Ptr? then NextOf(m, prev).addr else prev)))
    case LockNext(prev, cur) => (SetLock(m, cur, Held(t)), At(th, UnlockPrev(prev, cur)))
    case UnlockPrev(prev, cur) => (SetLock(m, prev, Unlocked), At(th, TestNext(cur)))
    case AllocLast(cur) => (Malloc(m, Value(th), NextOf(m, cur)), At(th, LinkLast(cur, |m.heap|)))
    case LinkLast(cur, newNode) => (Link(m, cur, newNode, Call(t, Value(th))), At(th, UnlockLast(cur)))
    case UnlockLast(cur) => (SetLock(m, cur, Unlocked), Return(th))
  }

  predicate CanStep(s: State, t: nat) { t < |s.threads| && Enabled(s.m, s.threads[t]) }

  /** Thread `t` executes its next statement, if it can. */
  function Next(s: State, t: nat): State {
    if CanStep(s, t) then
      var (m, th) := Execute(s.m, t, s.threads[t]);
      State(m, s.threads[t := th])
    else s
  }

  // ---------- where a thread is ----------

  /** Has locked the head and has yet to append. */
  predicate Active(pc: Pc) { !pc.ReadHead? && !pc.LockHead? && !pc.UnlockLast? }
  predicate Allocating(pc: Pc) { pc.AllocFirst? || pc.AllocLast? }
  predicate Linking(pc: Pc) { pc.LinkFirst? || pc.LinkLast? }

  /** The furthest node the thread has locked. */
  function Pos(pc: Pc): Addr {
    match pc
    case ReadHead => 0
    case LockHead(_) => 0
    case TestEmpty(cur) => cur
    case AllocFirst(cur) => cur
    case LinkFirst(cur, _) => cur
    case TestNext(cur) => cur
    case Advance(prev) => prev
    case LockNext(prev, _) => prev
    case UnlockPrev(_, cur) => cur
    case AllocLast(cur) => cur
    case LinkLast(cur, _) => cur
    case UnlockLast(cur) => cur
  }

  predicate Holds(pc: Pc, a: Addr) {
    ((Active(pc) || pc.UnlockLast?) && a == Pos(pc)) || (pc.UnlockPrev? && a == pc.prev)
  }

  // ---------- the inductive invariant ----------

  /** The number of nodes in the list, the first one (that never holds a value) included. */
  function Nodes(m: Memory): nat { |m.linked| + 1 }

  predicate Shape(m: Memory) {
    && m.head == 0 && Nodes(m) <= |m.heap| <= Nodes(m) + 1
    && (forall i: nat :: i < Nodes(m) - 1 ==> NextOf(m, i) == Ptr(i + 1))
    && (forall i: nat :: Nodes(m) - 1 <= i < |m.heap| ==> NextOf(m, i) == Null)
    && (forall i: nat :: i < |m.linked| ==> m.heap[i + 1].value == m.linked[i].value)
    && (forall i: nat :: Nodes(m) <= i < |m.heap| ==> LockOf(m, i) == Unlocked)
    && |m.linked| <= |m.arrivals| && m.linked == m.arrivals[..|m.linked|]
  }

  /** The branch of line 43 is taken where the list is empty, and the loop of line 53 entered where it is not. */
  predicate Branch(m: Memory, pc: Pc) {
    && (pc.AllocFirst? || pc.LinkFirst? ==> m.linked == [])
    && (pc.TestNext? || pc.Advance? || pc.LockNext? || pc.UnlockPrev? || pc.AllocLast? || pc.LinkLast? ==>
          m.linked != [])
  }

  predicate NewNode(m: Memory, th: Thread, newNode: Addr) {
    newNode == Nodes(m) && |m.heap| == Nodes(m) + 1 && m.heap[newNode].value == Value(th)
  }

  predicate Local(m: Memory, t: nat, th: Thread) {
    && (!th.pc.ReadHead? ==> th.todo != [])
    && (Active(th.pc) ==>
          |m.linked| <= th.ticket < |m.arrivals| && m.arrivals[th.ticket] == Call(t, Value(th)))
    && Pos(th.pc) < Nodes(m) && Branch(m, th.pc)
    && match th.pc
       case LockHead(cur) => cur == 0
       case TestEmpty(cur) => cur == 0
       case AllocFirst(cur) => cur == |m.linked| && |m.heap| == Nodes(m)
       case AllocLast(cur) => cur == |m.linked| && |m.heap| == Nodes(m)
       case LinkFirst(cur, newNode) => cur == |m.linked| && NewNode(m, th, newNode)
       case LinkLast(cur, newNode) => cur == |m.linked| && NewNode(m, th, newNode)
       case Advance(prev) => prev < |m.linked|
       case LockNext(prev, cur) => cur == prev + 1 <= |m.linked|
       case UnlockPrev(prev, cur) => cur == prev + 1
       case _ => true
  }

  ghost predicate Locals(s: State) {
    forall t: nat :: t < |s.threads| ==> Local(s.m, t, s.threads[t])
  }

  ghost predicate Locks(s: State) {
    && (forall t: nat, a: Addr :: t < |s.threads| && Holds(s.threads[t].pc, a) ==> LockOf(s.m, a) == Held(t))
    && (forall a: Addr :: LockOf(s.m, a).Held? ==>
          LockOf(s.m, a).owner < |s.threads| && Holds(s.threads[LockOf(s.m, a).owner].pc, a))
  }

  /** A node allocated and not linked belongs to a thread about to link it. */
  ghost predicate Pending(s: State) {
    |s.m.heap| == Nodes(s.m) || exists t: nat :: t < |s.threads| && Linking(s.threads[t].pc)
  }

  predicate Ahead(a: Thread, b: Thread) {
    Active(a.pc) && Active(b.pc) && a.ticket < b.ticket ==> Pos(a.pc) > Pos(b.pc)
  }

  /** Nobody overtakes: of two active calls, the one that locked the head earlier is further along the list. */
  ghost predicate Order(s: State) {
    forall t: nat, u: nat :: t < |s.threads| && u < |s.threads| ==> Ahead(s.threads[t], s.threads[u])
  }

  predicate Holder(s: State, k: nat)
    requires k < |s.m.arrivals|
  {
    var t := s.m.arrivals[k].thread;
    t < |s.threads| && Active(s.threads[t].pc) && s.threads[t].ticket == k
  }

  /** Every call that has arrived and not appended is under way. */
  ghost predicate Tickets(s: State) {
    forall k: nat :: |s.m.linked| <= k < |s.m.arrivals| ==> Holder(s, k)
  }

  ghost predicate Inv(s: State) {
    Shape(s.m) && Locals(s) && Locks(s) && Pending(s) && Order(s) && Tickets(s)
  }

  lemma InitInv(programs: seq<seq<int>>)
    ensures Inv(Init(programs))
  {
  }

  // ---------- the invariant is kept, statement by statement ----------

  lemma AtTail(s: State, v: nat)
    requires Inv(s) && v < |s.threads| && (Allocating(s.threads[v].pc) || Linking(s.threads[v].pc))
    ensures LockOf(s.m, |s.m.linked|) == Held(v)
  {
    assert Local(s.m, v, s.threads[v]);
    assert Holds(s.threads[v].pc, |s.m.linked|);
  }

  /** A thread that holds the last node's lock and is not linking: nobody is, and no node is allocated ahead. */
  lemma OnlyAtTail(s: State, t: nat)
    requires Inv(s) && t < |s.threads| && Holds(s.threads[t].pc, |s.m.linked|) && !Linking(s.threads[t].pc)
    ensures |s.m.heap| == Nodes(s.m)
  {
    assert LockOf(s.m, |s.m.linked|) == Held(t);
    if |s.m.heap| != Nodes(s.m) {
      var v: nat :| v < |s.threads| && Linking(s.threads[v].pc);
      AtTail(s, v);
    }
  }

  /** A step that takes or frees the lock of `x`. */
  lemma LocksKept(s: State, t: nat, x: Addr, l: Lock)
    requires Locks(s) && CanStep(s, t)
    requires (l == Held(t) && LockOf(s.m, x) == Unlocked) || (l == Unlocked && Holds(s.threads[t].pc, x))
    requires var s' := Next(s, t);
      && (forall y: Addr :: LockOf(s'.m, y) == if y == x then l else LockOf(s.m, y))
      && (forall y: Addr :: Holds(s'.threads[t].pc, y) <==> if y == x then l.Held? else Holds(s.threads[t].pc, y))
    ensures Locks(Next(s, t))
  {
  }

  /** The parts of the invariant that speak of several threads, for a step that keeps its thread active or inactive. */
  lemma SameCalls(s: State, t: nat)
    requires Inv(s) && CanStep(s, t)
    requires var s', a := Next(s, t), s.threads[t];
      var b := s'.threads[t];
      && s'.m.arrivals == s.m.arrivals && s'.m.linked == s.m.linked
      && (Active(b.pc) <==> Active(a.pc)) && b.ticket == a.ticket
      && (Active(b.pc) ==>
            forall u: nat :: u < |s.threads| && u != t ==> Ahead(b, s.threads[u]) && Ahead(s.threads[u], b))
    ensures Order(Next(s, t)) && Tickets(Next(s, t))
  {
    var s' := Next(s, t);
    forall u: nat, v: nat | u < |s'.threads| && v < |s'.threads| ensures Ahead(s'.threads[u], s'.threads[v]) {
      assert Ahead(s.threads[u], s.threads[v]);
    }
    forall k: nat | |s.m.linked| <= k < |s.m.arrivals| ensures Holder(s', k) {
      assert Holder(s, k);
    }
  }

  /** A step that does not move its thread along the list. */
  lemma SamePlace(s: State, t: nat)
    requires Inv(s) && CanStep(s, t)
    requires var s', a := Next(s, t), s.threads[t];
      var b := s'.threads[t];
      && s'.m.arrivals == s.m.arrivals && s'.m.linked == s.m.linked
      && (Active(b.pc) <==> Active(a.pc)) && b.ticket == a.ticket && Pos(b.pc) == Pos(a.pc)
    ensures Order(Next(s, t)) && Tickets(Next(s, t))
  {
    forall u: nat | u < |s.threads| && u != t
      ensures Ahead(Next(s, t).threads[t], s.threads[u]) && Ahead(s.threads[u], Next(s, t).threads[t])
    {
      assert Ahead(s.threads[t], s.threads[u]) && Ahead(s.threads[u], s.threads[t]);
    }
    SameCalls(s, t);
  }

  lemma PendingKept(s: State, t: nat)
    requires Inv(s) && CanStep(s, t) && !Linking(s.threads[t].pc)
    requires |Next(s, t).m.heap| == |s.m.heap| && Next(s, t).m.linked == s.m.linked
    ensures Pending(Next(s, t))
  {
    if |s.m.heap| != Nodes(s.m) {
      var v: nat :| v < |s.threads| && Linking(s.threads[v].pc);
      assert Linking(Next(s, t).threads[v].pc);
    }
  }

  /** Statements that leave the memory as it is. */
  predicate Quiet(pc: Pc) { pc.ReadHead? || pc.TestEmpty? || pc.TestNext? || pc.Advance? }

  lemma QuietStep(m: Memory, t: nat, a: Thread)
    requires Shape(m) && Local(m, t, a) && Enabled(m, a) && Quiet(a.pc)
    requires Active(a.pc) && Pos(a.pc) == |m.linked| ==> |m.heap| == Nodes(m)
    ensures var (m', b) := Execute(m, t, a);
      && m' == m && Local(m, t, b) && b.ticket == a.ticket && Pos(b.pc) == Pos(a.pc)
      && (Active(b.pc) <==> Active(a.pc))
      && (forall x: Addr :: Holds(b.pc, x) <==> Holds(a.pc, x))
  {
  }

  lemma QuietKept(s: State, t: nat)
    requires Inv(s) && CanStep(s, t) && Quiet(s.threads[t].pc)
    ensures Inv(Next(s, t))
  {
    assert Local(s.m, t, s.threads[t]);
    if Holds(s.threads[t].pc, |s.m.linked|) {
      OnlyAtTail(s, t);
    }
    QuietStep(s.m, t, s.threads[t]);
    SamePlace(s, t);
    PendingKept(s, t);
  }

  lemma SetLockFrame(m: Memory, a: Addr, l: Lock)
    requires Shape(m) && a < Nodes(m)
    ensures var m' := SetLock(m, a, l);
      && Shape(m') && |m'.heap| == |m.heap|
      && (forall x: Addr :: NextOf(m', x) == NextOf(m, x))
      && (forall x: Addr :: LockOf(m', x) == if x == a then l else LockOf(m, x))
      && (forall t: nat, th: Thread :: Local(m, t, th) ==> Local(m', t, th))
  {
    var m' := SetLock(m, a, l);
    assert forall x: Addr :: NextOf(m', x) == NextOf(m, x);
    assert forall x: nat :: x < |m.heap| ==> m'.heap[x].value == m.heap[x].value;
    assert forall x: Addr :: LockOf(m', x) == if x == a then l else LockOf(m, x);
  }

  lemma ArriveFrame(m: Memory, t: nat, call: Call)
    requires Shape(m)
    ensures var m' := SetLock(m, 0, Held(t)).(arrivals := m.arrivals + [call]);
      && Shape(m') && |m'.heap| == |m.heap|
      && (forall x: Addr :: NextOf(m', x) == NextOf(m, x))
      && (forall x: Addr :: LockOf(m', x) == if x == 0 then Held(t) else LockOf(m, x))
      && (forall u: nat, th: Thread :: Local(m, u, th) ==> Local(m', u, th))
  {
    var m' := SetLock(m, 0, Held(t)).(arrivals := m.arrivals + [call]);
    assert forall x: Addr :: NextOf(m', x) == NextOf(m, x);
    assert forall x: nat :: x < |m.heap| ==> m'.heap[x].value == m.heap[x].value;
    assert forall x: Addr :: LockOf(m', x) == if x == 0 then Held(t) else LockOf(m, x);
  }

  /** While the head is unlocked, every active call is behind it, with a ticket drawn. */
  lemma AwayFromHead(s: State, u: nat)
    requires Inv(s) && LockOf(s.m, 0) == Unlocked && u < |s.threads|
    ensures Local(s.m, u, s.threads[u])
    ensures Active(s.threads[u].pc) ==> Pos(s.threads[u].pc) > 0 && s.threads[u].ticket < |s.m.arrivals|
  {
    if Active(s.threads[u].pc) {
      assert Holds(s.threads[u].pc, Pos(s.threads[u].pc));
    }
  }

  /** Line 40: the newcomer is behind everybody, because nobody else holds the head. */
  lemma ArriveKept(s: State, t: nat)
    requires Inv(s) && CanStep(s, t) && s.threads[t].pc.LockHead?
    ensures Inv(Next(s, t))
  {
    var s' := Next(s, t);
    var b := s'.threads[t];
    assert Local(s.m, t, s.threads[t]);
    ArriveFrame(s.m, t, Call(t, Value(b)));
    LocksKept(s, t, 0, Held(t));
    forall u: nat | u < |s.threads| && u != t
      ensures Local(s'.m, u, s.threads[u]) && Ahead(b, s.threads[u]) && Ahead(s.threads[u], b)
    {
      AwayFromHead(s, u);
    }
    forall u: nat, v: nat | u < |s'.threads| && v < |s'.threads| ensures Ahead(s'.threads[u], s'.threads[v]) {
      assert Ahead(s.threads[u], s.threads[v]);
    }
    forall k: nat | |s'.m.linked| <= k < |s'.m.arrivals| ensures Holder(s', k) {
      if k < |s.m.arrivals| {
        assert Holder(s, k);
      }
    }
    PendingKept(s, t);
  }

  /** Nobody stands at an unlocked node. */
  lemma AwayFrom(s: State, u: nat, a: Addr)
    requires Inv(s) && u < |s.threads| && LockOf(s.m, a) == Unlocked
    ensures Active(s.threads[u].pc) ==> Pos(s.threads[u].pc) != a
  {
    if Active(s.threads[u].pc) {
      assert Holds(s.threads[u].pc, Pos(s.threads[u].pc));
    }
  }

  /** Line 58: the next node is free, so nobody ahead stands there, and the thread moves on without overtaking. */
  lemma LockNextKept(s: State, t: nat)
    requires Inv(s) && CanStep(s, t) && s.threads[t].pc.LockNext?
    ensures Inv(Next(s, t))
  {
    var s' := Next(s, t);
    var b := s'.threads[t];
    assert Local(s.m, t, s.threads[t]);
    SetLockFrame(s.m, b.pc.cur, Held(t));
    LocksKept(s, t, b.pc.cur, Held(t));
    forall u: nat | u < |s.threads| && u != t
      ensures Local(s'.m, u, s.threads[u]) && Ahead(b, s.threads[u]) && Ahead(s.threads[u], b)
    {
      assert Local(s.m, u, s.threads[u]);
      assert Ahead(s.threads[t], s.threads[u]) && Ahead(s.threads[u], s.threads[t]);
      AwayFrom(s, u, b.pc.cur);
    }
    SameCalls(s, t);
    PendingKept(s, t);
  }

  /** Line 59. */
  lemma UnlockPrevKept(s: State, t: nat)
    requires Inv(s) && CanStep(s, t) && s.threads[t].pc.UnlockPrev?
    ensures Inv(Next(s, t))
  {
    var s' := Next(s, t);
    var a := s.threads[t];
    assert Local(s.m, t, a) && Holds(a.pc, a.pc.prev);
    SetLockFrame(s.m, a.pc.prev, Unlocked);
    LocksKept(s, t, a.pc.prev, Unlocked);
    forall u: nat | u < |s.threads| && u != t ensures Local(s'.m, u, s.threads[u]) {
      assert Local(s.m, u, s.threads[u]);
    }
    SamePlace(s, t);
    PendingKept(s, t);
  }

  /** Lines 46 and 65. */
  lemma UnlockLastKept(s: State, t: nat)
    requires Inv(s) && CanStep(s, t) && s.threads[t].pc.UnlockLast?
    ensures Inv(Next(s, t))
  {
    var s' := Next(s, t);
    var a := s.threads[t];
    assert Local(s.m, t, a) && Holds(a.pc, a.pc.cur);
    SetLockFrame(s.m, a.pc.cur, Unlocked);
    LocksKept(s, t, a.pc.cur, Unlocked);
    forall u: nat | u < |s.threads| && u != t ensures Local(s'.m, u, s.threads[u]) {
      assert Local(s.m, u, s.threads[u]);
    }
    SameCalls(s, t);
    PendingKept(s, t);
  }

  lemma MallocFrame(m: Memory, value: int, next: Ref)
    requires Shape(m) && |m.heap| == Nodes(m) && next == Null
    ensures var m' := Malloc(m, value, next);
      && Shape(m') && |m'.heap| == Nodes(m) + 1 && m'.heap[Nodes(m)].value == value
      && (forall x: Addr :: NextOf(m', x) == NextOf(m, x))
      && (forall x: Addr :: LockOf(m', x) == LockOf(m, x))
  {
    assert forall x: Addr :: NextOf(Malloc(m, value, next), x) == NextOf(m, x);
  }

  /** Lines 44 and 62. */
  lemma AllocKept(s: State, t: nat)
    requires Inv(s) && CanStep(s, t) && Allocating(s.threads[t].pc)
    ensures Inv(Next(s, t))
  {
    var s' := Next(s, t);
    var a, b := s.threads[t], s'.threads[t];
    assert Local(s.m, t, a);
    AtTail(s, t);
    MallocFrame(s.m, Value(a), Null);
    assert s'.m == Malloc(s.m, Value(a), Null);
    assert Linking(b.pc);
    forall u: nat | u < |s.threads| && u != t ensures Local(s'.m, u, s.threads[u]) {
      assert Local(s.m, u, s.threads[u]);
      if Allocating(s.threads[u].pc) {
        AtTail(s, u);
      }
    }
    SamePlace(s, t);
  }

  /** Whoever is not the first in line is behind somebody, so not at the last node. */
  lemma BehindTheFirst(s: State, t: nat)
    requires Inv(s) && t < |s.threads| && Active(s.threads[t].pc) && s.threads[t].ticket > |s.m.linked|
    ensures Pos(s.threads[t].pc) < |s.m.linked|
  {
    assert Local(s.m, t, s.threads[t]);
    assert Holder(s, |s.m.linked|);
    var u := s.m.arrivals[|s.m.linked|].thread;
    assert Ahead(s.threads[u], s.threads[t]);
    assert Local(s.m, u, s.threads[u]);
  }

  /** A thread about to link is the first in line. */
  lemma LinkerIsFirst(s: State, t: nat)
    requires Inv(s) && t < |s.threads| && Linking(s.threads[t].pc)
    ensures s.threads[t].ticket == |s.m.linked| == Pos(s.threads[t].pc)
  {
    assert Local(s.m, t, s.threads[t]);
    if s.threads[t].ticket > |s.m.linked| {
      BehindTheFirst(s, t);
    }
  }

  lemma LinkFrame(m: Memory, newNode: Addr, call: Call)
    requires Shape(m) && newNode == Nodes(m) && |m.heap| == Nodes(m) + 1 && m.heap[newNode].value == call.value
    requires |m.linked| < |m.arrivals| && m.arrivals[|m.linked|] == call
    ensures var m' := Link(m, |m.linked|, newNode, call);
      && Shape(m') && |m'.heap| == |m.heap| && m'.arrivals == m.arrivals && m'.linked == m.linked + [call]
      && (forall x: Addr :: LockOf(m', x) == LockOf(m, x))
  {
    var m' := Link(m, |m.linked|, newNode, call);
    assert forall x: Addr :: LockOf(m', x) == LockOf(m, x);
    assert forall x: Addr :: NextOf(m', x) == if x == |m.linked| then Ptr(newNode) else NextOf(m, x);
    assert forall x: nat :: x < |m.heap| ==> m'.heap[x].value == m.heap[x].value;
  }

  lemma LinkStep(s: State, t: nat)
    requires Inv(s) && CanStep(s, t) && Linking(s.threads[t].pc)
    ensures var a, s' := s.threads[t], Next(s, t);
      && a.ticket == |s.m.linked| < |s.m.arrivals| && a.todo != []
      && |s'.m.heap| == |s.m.heap| == Nodes(s.m) + 1
      && s'.m.linked == s.m.linked + [Call(t, Value(a))] && s'.m.arrivals == s.m.arrivals && Shape(s'.m)
      && s'.threads[t] == At(a, UnlockLast(|s.m.linked|)) && Pos(a.pc) == |s.m.linked|
      && (forall x: Addr :: LockOf(s'.m, x) == LockOf(s.m, x))
  {
    var a := s.threads[t];
    assert Local(s.m, t, a);
    LinkerIsFirst(s, t);
    LinkFrame(s.m, a.pc.newNode, Call(t, Value(a)));
  }

  /** Lines 45 and 63. */
  lemma LinkKept(s: State, t: nat)
    requires Inv(s) && CanStep(s, t) && Linking(s.threads[t].pc)
    ensures Inv(Next(s, t))
  {
    var s' := Next(s, t);
    var a, b := s.threads[t], s'.threads[t];
    LinkStep(s, t);
    forall u: nat | u < |s.threads| && u != t ensures Local(s'.m, u, s.threads[u]) {
      assert Local(s.m, u, s.threads[u]);
      assert Holds(a.pc, |s.m.linked|);
      if Active(s.threads[u].pc) {
        assert Holds(s.threads[u].pc, Pos(s.threads[u].pc));
        assert s.threads[u].ticket != |s.m.linked|;
      }
    }
    forall u: nat, v: nat | u < |s'.threads| && v < |s'.threads| ensures Ahead(s'.threads[u], s'.threads[v]) {
      assert Ahead(s.threads[u], s.threads[v]);
    }
    forall k: nat | |s'.m.linked| <= k < |s'.m.arrivals| ensures Holder(s', k) {
      assert Holder(s, k);
      assert s.m.arrivals[k].thread != t;
    }
    assert Local(s'.m, t, b);
  }

  lemma InvKept(s: State, t: nat)
    requires Inv(s)
    ensures Inv(Next(s, t))
  {
    if CanStep(s, t) {
      var pc := s.threads[t].pc;
      if Quiet(pc) {
        QuietKept(s, t);
      } else if pc.LockHead? {
        ArriveKept(s, t);
      } else if pc.LockNext? {
        LockNextKept(s, t);
      } else if Allocating(pc) {
        AllocKept(s, t);
      } else if Linking(pc) {
        LinkKept(s, t);
      } else if pc.UnlockPrev? {
        UnlockPrevKept(s, t);
      } else {
        UnlockLastKept(s, t);
      }
    }
  }

  function Reached(programs: seq<seq<int>>, run: seq<nat>): State { Exec(Next, Init(programs), run) }

  lemma ReachedInv(programs: seq<seq<int>>, run: seq<nat>)
    ensures Inv(Reached(programs, run))
  {
    InitInv(programs);
    forall x, c | Inv(x) ensures Inv(Next(x, c)) { InvKept(x, c); }
    Always(Next, Inv, Init(programs), run);
  }

  // ---------- the order of the appends ----------

  /** The values met when following `next` from the node after `a`. */
  function Walk(m: Memory, a: Addr, fuel: nat): seq<int>
    decreases fuel
  {
    match NextOf(m, a)
    case Null => []
    case Ptr(b) => if fuel == 0 || b >= |m.heap| then [] else [m.heap[b].value] + Walk(m, b, fuel - 1)
  }

  function Contents(m: Memory): seq<int> { Walk(m, m.head, |m.heap|) }

  lemma {:induction false} WalkFinds(m: Memory, a: Addr, fuel: nat)
    requires Shape(m) && a < Nodes(m) && |m.linked| - a <= fuel
    ensures Walk(m, a, fuel) == ValuesOf(m.linked[a..])
    decreases fuel
  {
    if a == |m.linked| {
    } else {
      WalkFinds(m, a + 1, fuel - 1);
      assert m.linked[a..][1..] == m.linked[a + 1..];
    }
  }

  /** In every reachable state the list holds the appended values, in the order in which their calls locked the head. */
  lemma AppendOrder(programs: seq<seq<int>>, run: seq<nat>)
    ensures var m := Reached(programs, run).m;
      Contents(m) == ValuesOf(m.linked) && |m.linked| <= |m.arrivals| && m.linked == m.arrivals[..|m.linked|]
  {
    ReachedInv(programs, run);
    var m := Reached(programs, run).m;
    WalkFinds(m, 0, |m.heap|);
    assert m.linked[0..] == m.linked;
  }

  /** A thread goes through lines 44 to 46 exactly if it finds the list empty, and through the loop if not. */
  lemma BranchTaken(programs: seq<seq<int>>, run: seq<nat>, t: nat)
    ensures var s := Reached(programs, run);
      t < |s.threads| && Active(s.threads[t].pc) && !s.threads[t].pc.TestEmpty? ==>
        (s.threads[t].pc.AllocFirst? || s.threads[t].pc.LinkFirst? <==> Contents(s.m) == [])
  {
    ReachedInv(programs, run);
    var s := Reached(programs, run);
    AppendOrder(programs, run);
    if t < |s.threads| {
      assert Local(s.m, t, s.threads[t]);
    }
  }

  // ---------- nothing lost, program order kept ----------

  /** The values it has yet to append. */
  function Rest(th: Thread): seq<int> { if th.pc.UnlockLast? && th.todo != [] then th.todo[1..] else th.todo }

  lemma QuietRest(m: Memory, t: nat, a: Thread)
    requires !Linking(a.pc) && Enabled(m, a) && Local(m, t, a)
    ensures Rest(Execute(m, t, a).1) == Rest(a) && Execute(m, t, a).0.linked == m.linked
  {
  }

  /** What thread `t` has appended, followed by what it has yet to append. */
  function Account(s: State, t: nat): seq<int>
    requires t < |s.threads|
  {
    Of(s.m.linked, t) + Rest(s.threads[t])
  }

  lemma LinkAccount(linked: seq<Call>, t: nat, todo: seq<int>, u: nat)
    requires todo != []
    ensures Of(linked + [Call(t, todo[0])], u) + (if u == t then todo[1..] else [])
      == Of(linked, u) + if u == t then todo else []
  {
    OneMore(linked, Call(t, todo[0]), u);
    assert [todo[0]] + todo[1..] == todo;
  }

  lemma AccountKept(s: State, t: nat, u: nat)
    requires Inv(s) && CanStep(s, t) && u < |s.threads|
    ensures Account(Next(s, t), u) == Account(s, u)
  {
    var a := s.threads[t];
    assert Local(s.m, t, a);
    if Linking(a.pc) {
      LinkStep(s, t);
      LinkAccount(s.m.linked, t, a.todo, u);
    } else {
      QuietRest(s.m, t, a);
    }
  }

  ghost function Accounts(s: State): seq<seq<int>> {
    seq(|s.threads|, t requires 0 <= t < |s.threads| => Account(s, t))
  }

  lemma AccountsKept(s: State, t: nat)
    requires Inv(s)
    ensures Accounts(Next(s, t)) == Accounts(s)
  {
    if CanStep(s, t) {
      forall u: nat | u < |s.threads| ensures Accounts(Next(s, t))[u] == Accounts(s)[u] { AccountKept(s, t, u); }
    }
  }

  /** Of every thread, what it has appended followed by what it has still to append is its program. */
  lemma ProgramOrder(programs: seq<seq<int>>, run: seq<nat>, t: nat)
    requires t < |programs|
    ensures var s := Reached(programs, run);
      |s.threads| == |programs| && Of(s.m.linked, t) + Rest(s.threads[t]) == programs[t]
  {
    var i := Init(programs);
    InitInv(programs);
    forall x, c | Inv(x) ensures Inv(Next(x, c)) && Accounts(Next(x, c)) == Accounts(x) {
      InvKept(x, c);
      AccountsKept(x, c);
    }
    Conserved(Next, Inv, Accounts, i, run);
    var s := Reached(programs, run);
    assert |Accounts(s)| == |s.threads| && |Accounts(i)| == |programs|;
    assert Accounts(s)[t] == Account(s, t) && Accounts(i)[t] == programs[t];
  }

  // ---------- a traversal ----------

  predicate Hops(s: State, t: nat) { CanStep(s, t) && s.threads[t].pc.LockNext? }
  predicate Links(s: State, t: nat) { CanStep(s, t) && Linking(s.threads[t].pc) }

  lemma HopStep(s: State, t: nat, x: nat)
    requires Inv(s) && t < |s.threads| && Active(s.threads[t].pc) && !(x == t && Links(s, x))
    ensures var s' := Next(s, x);
      && t < |s'.threads| && Active(s'.threads[t].pc) && s'.threads[t].ticket == s.threads[t].ticket
      && Pos(s'.threads[t].pc) == Pos(s.threads[t].pc) + if x == t && Hops(s, x) then 1 else 0
  {
    if CanStep(s, x) {
      assert Local(s.m, x, s.threads[x]);
    }
  }

  lemma {:induction false} HopRun(s: State, t: nat, run: seq<nat>)
    requires Inv(s) && t < |s.threads| && Active(s.threads[t].pc) && t !in Events(Next, Links, s, run)
    ensures var end := Exec(Next, s, run);
      && Inv(end) && t < |end.threads| && Active(end.threads[t].pc) && end.threads[t].ticket == s.threads[t].ticket
      && Pos(end.threads[t].pc) == Pos(s.threads[t].pc) + Times(Events(Next, Hops, s, run), t)
    decreases |run|
  {
    if run == [] {
    } else {
      HopStep(s, t, run[0]);
      InvKept(s, run[0]);
      HopRun(Next(s, run[0]), t, run[1..]);
    }
  }

  /** The active calls that locked the head before `t` did. */
  ghost function InFront(s: State, t: nat): set<nat>
    requires t < |s.threads|
  {
    set u: nat | u < |s.threads| && Active(s.threads[u].pc) && s.threads[u].ticket < s.threads[t].ticket
  }

  lemma InFrontSize(s: State, t: nat)
    requires Inv(s) && t < |s.threads| && Active(s.threads[t].pc)
    ensures |InFront(s, t)| == s.threads[t].ticket - |s.m.linked|
  {
    var lo, k := |s.m.linked|, s.threads[t].ticket;
    assert Local(s.m, t, s.threads[t]);
    var line := seq(k - lo, i requires 0 <= i < k - lo => s.m.arrivals[lo + i].thread);
    forall i: nat | i < k - lo ensures line[i] in InFront(s, t) && s.threads[line[i]].ticket == lo + i {
      assert Holder(s, lo + i);
    }
    forall u | u in InFront(s, t) ensures u in line {
      assert Local(s.m, u, s.threads[u]);
      assert line[s.threads[u].ticket - lo] == u;
    }
    DistinctSize(line);
    assert Elements(line) == InFront(s, t);
  }

  /**
   A traversal is neither overtaken nor endless: from any point of it, the thread has to hop exactly as often as there
   are nodes between it and the tail plus calls in front of it, and it appends after exactly that many hops.
   */
  lemma TraversalIsExact(programs: seq<seq<int>>, before: seq<nat>, t: nat, after: seq<nat>)
    requires var s := Reached(programs, before);
      t < |s.threads| && Active(s.threads[t].pc) && t !in Events(Next, Links, s, after)
    ensures var s := Reached(programs, before);
      var end, hops := Exec(Next, s, after), Times(Events(Next, Hops, s, after), t);
      && t < |end.threads|
      && hops <= (|s.m.linked| - Pos(s.threads[t].pc)) + |InFront(s, t)|
      && (Links(end, t) ==> hops == (|s.m.linked| - Pos(s.threads[t].pc)) + |InFront(s, t)|)
  {
    ReachedInv(programs, before);
    var s := Reached(programs, before);
    var end := Exec(Next, s, after);
    HopRun(s, t, after);
    InFrontSize(s, t);
    InFrontSize(end, t);
    assert Local(end.m, t, end.threads[t]);
    if Links(end, t) {
      LinkerIsFirst(end, t);
    }
  }

  // ---------- progress and completion ----------

  predicate Finished(th: Thread) { th.pc.ReadHead? && th.todo == [] }

  /** The node whose lock the thread waits for. */
  function Wanted(pc: Pc): Ref {
    match pc
    case LockHead(cur) => Ptr(cur)
    case LockNext(_, cur) => Ptr(cur)
    case _ => Null
  }

  /**
   In every reachable state an unfinished thread waits exactly while another thread stands at the very node it wants to
   lock, or has yet to unlock it behind itself.
   */
  lemma WaitsExactly(programs: seq<seq<int>>, run: seq<nat>, t: nat)
    ensures var s := Reached(programs, run);
      t < |s.threads| && !Finished(s.threads[t]) ==>
        (!CanStep(s, t) <==>
          exists u: nat :: u < |s.threads| && u != t && Wanted(s.threads[t].pc).Ptr?
                           && Holds(s.threads[u].pc, Wanted(s.threads[t].pc).addr))
  {
    ReachedInv(programs, run);
    var s := Reached(programs, run);
    if t < |s.threads| && Wanted(s.threads[t].pc).Ptr? {
      assert Local(s.m, t, s.threads[t]);
      var a := Wanted(s.threads[t].pc).addr;
      if LockOf(s.m, a).Held? {
        assert Holds(s.threads[LockOf(s.m, a).owner].pc, a);
      }
    }
  }

  /** An unfinished thread means that some thread can step: follow the locks towards the tail. */
  lemma {:induction false} Progress(s: State, t: nat) returns (u: nat)
    requires Inv(s) && t < |s.threads| && !Finished(s.threads[t])
    ensures CanStep(s, u)
    decreases if s.threads[t].pc.LockHead? then 1 else 0, Nodes(s.m) - Pos(s.threads[t].pc)
  {
    if CanStep(s, t) {
      return t;
    }
    assert Local(s.m, t, s.threads[t]);
    var x := s.threads[t].pc.cur;
    var v := LockOf(s.m, x).owner;
    assert Holds(s.threads[v].pc, x);
    assert Local(s.m, v, s.threads[v]);
    if CanStep(s, v) {
      return v;
    }
    u := Progress(s, v);
  }

  /** Statements left in the current call, when at most `total` calls can arrive. */
  function ToGo(total: nat, pc: Pc): nat
    requires Pos(pc) <= total
  {
    match pc
    case ReadHead => 4 * total + 8
    case LockHead(_) => 4 * total + 7
    case TestEmpty(_) => 4 * total + 6
    case TestNext(cur) => 4 * (total - cur) + 4
    case Advance(prev) => 4 * (total - prev) + 3
    case LockNext(prev, _) => 4 * (total - prev) + 2
    case UnlockPrev(_, cur) => 4 * (total - cur) + 5
    case AllocFirst(_) => 3
    case AllocLast(_) => 3
    case LinkFirst(_, _) => 2
    case LinkLast(_, _) => 2
    case UnlockLast(_) => 1
  }

  function WorkIn(total: nat, th: Thread): nat {
    if th.todo == [] || Pos(th.pc) > total then 0
    else Product(|th.todo| - 1, 4 * total + 8) + ToGo(total, th.pc)
  }

  function WorkOf(total: nat): Thread -> nat { th => WorkIn(total, th) }

  function NotArrived(th: Thread): nat {
    if th.pc.ReadHead? || th.pc.LockHead? || th.todo == [] then |th.todo| else |th.todo| - 1
  }

  function Calls(s: State): nat { |s.m.arrivals| + Tally(s.threads, NotArrived) }
  function Size(s: State): nat { |s.threads| }

  lemma ThreadCalls(m: Memory, t: nat, a: Thread)
    requires Enabled(m, a) && Local(m, t, a)
    ensures var (m', b) := Execute(m, t, a); |m'.arrivals| + NotArrived(b) == |m.arrivals| + NotArrived(a)
  {
  }

  lemma ThreadWork(total: nat, m: Memory, t: nat, a: Thread)
    requires Enabled(m, a) && Local(m, t, a) && |m.linked| <= total && m.head == 0
    ensures WorkIn(total, Execute(m, t, a).1) + 1 <= WorkIn(total, a)
  {
  }

  lemma CallsKept(s: State, t: nat)
    requires Inv(s)
    ensures Calls(Next(s, t)) == Calls(s) && Size(Next(s, t)) == Size(s)
  {
    if CanStep(s, t) {
      assert Local(s.m, t, s.threads[t]);
      Update(s.threads, t, Execute(s.m, t, s.threads[t]).1, NotArrived);
      ThreadCalls(s.m, t, s.threads[t]);
    }
  }

  lemma WorkUsed(total: nat, s: State, t: nat)
    requires Inv(s) && Calls(s) == total
    ensures Tally(Next(s, t).threads, WorkOf(total)) + One(CanStep(s, t)) <= Tally(s.threads, WorkOf(total))
  {
    if CanStep(s, t) {
      assert Local(s.m, t, s.threads[t]);
      Update(s.threads, t, Execute(s.m, t, s.threads[t]).1, WorkOf(total));
      ThreadWork(total, s.m, t, s.threads[t]);
    }
  }

  lemma RunAccounts(total: nat, s: State, run: seq<nat>)
    requires Inv(s) && Calls(s) == total
    ensures |Events(Next, CanStep, s, run)| <= Tally(s.threads, WorkOf(total))
    ensures Calls(Exec(Next, s, run)) == total && Size(Exec(Next, s, run)) == Size(s)
  {
    ghost var inv := (x: State) => Inv(x) && Calls(x) == total;
    ghost var work := (x: State) => Tally(x.threads, WorkOf(total));
    forall x, c | inv(x)
      ensures inv(Next(x, c)) && Calls(Next(x, c)) == Calls(x) && Size(Next(x, c)) == Size(x)
      ensures work(Next(x, c)) + (if CanStep(x, c) then 1 else 0) <= work(x)
    {
      InvKept(x, c);
      CallsKept(x, c);
      WorkUsed(total, x, c);
    }
    WorkBoundsSteps(Next, CanStep, inv, work, s, run);
    Conserved(Next, inv, Calls, s, run);
    Conserved(Next, inv, Size, s, run);
  }

  function Length(p: seq<int>): nat { |p| }

  lemma StartWork(total: nat, th: Thread)
    requires th.pc.ReadHead?
    ensures WorkIn(total, th) == Product(NotArrived(th), 4 * total + 8)
  {
    if th.todo != [] {
      MoreOf(|th.todo| - 1, 1, 4 * total + 8);
    }
  }

  lemma {:induction false} WorkAtStart(total: nat, ths: seq<Thread>)
    requires forall i: nat :: i < |ths| ==> ths[i].pc.ReadHead?
    ensures Tally(ths, WorkOf(total)) == Product(Tally(ths, NotArrived), 4 * total + 8)
  {
    if ths == [] {
    } else {
      StartWork(total, ths[0]);
      WorkAtStart(total, ths[1..]);
      MoreOf(NotArrived(ths[0]), Tally(ths[1..], NotArrived), 4 * total + 8);
    }
  }

  lemma FirstInLine(s: State) returns (t: nat)
    requires Inv(s) && |s.m.linked| < |s.m.arrivals|
    ensures t < |s.threads| && Active(s.threads[t].pc)
  {
    assert Holder(s, |s.m.linked|);
    t := s.m.arrivals[|s.m.linked|].thread;
  }

  lemma AllDone(s: State)
    requires Inv(s) && forall t: nat :: !CanStep(s, t)
    ensures forall t: nat :: t < |s.threads| ==> Finished(s.threads[t])
    ensures |s.m.linked| == |s.m.arrivals| == Calls(s)
  {
    forall t: nat | t < |s.threads| ensures Finished(s.threads[t]) {
      if !Finished(s.threads[t]) {
        var u := Progress(s, t);
      }
    }
    if |s.m.linked| < |s.m.arrivals| {
      var t := FirstInLine(s);
    }
    Zero(s.threads, NotArrived);
  }

  lemma StepBound(programs: seq<seq<int>>, run: seq<nat>)
    ensures var s, total := Reached(programs, run), Tally(programs, Length);
      && |Events(Next, CanStep, Init(programs), run)| <= Product(total, 4 * total + 8)
      && |s.threads| == |programs| && Calls(s) == total
  {
    var i, total := Init(programs), Tally(programs, Length);
    InitInv(programs);
    Same(i.threads, NotArrived, programs, Length);
    RunAccounts(total, i, run);
    WorkAtStart(total, i.threads);
  }

  /**
   Completion: with M values to append in all, a run executes at most M (4 M + 8) statements, and where no thread can
   step every thread has finished and all M values are in the list, those of each thread in its program's order.
   */
  lemma Completion(programs: seq<seq<int>>, run: seq<nat>)
    ensures var s, total := Reached(programs, run), Tally(programs, Length);
      && |Events(Next, CanStep, Init(programs), run)| <= total * (4 * total + 8)
      && ((forall t: nat :: !CanStep(s, t)) ==>
          && |s.threads| == |programs| && |s.m.linked| == |s.m.arrivals| == total
          && (forall t: nat :: t < |programs| ==> Finished(s.threads[t]) && Of(s.m.linked, t) == programs[t]))
  {
    var s := Reached(programs, run);
    ReachedInv(programs, run);
    StepBound(programs, run);
    if forall t: nat :: !CanStep(s, t) {
      AllDone(s);
      forall t: nat | t < |programs| ensures Finished(s.threads[t]) && Of(s.m.linked, t) == programs[t] {
        ProgramOrder(programs, run, t);
        assert Of(s.m.linked, t) + [] == Of(s.m.linked, t);
      }
    }
  }

  // ---------- the list itself, updated in place ----------

  /** What the code needs to run: a value to append, the nodes it names, and a next node where it steps to one. */
  predicate Reads(m: Memory, th: Thread) {
    && th.todo != [] && Pos(th.pc) < |m.heap|
    && (th.pc.LockHead? ==> th.pc.cur < |m.heap|)
    && (th.pc.LockNext? ==> th.pc.cur < |m.heap|)
    && (th.pc.UnlockPrev? ==> th.pc.prev < |m.heap|)
    && (th.pc.Advance? ==> NextOf(m, th.pc.prev).Ptr?)
  }

  lemma AlwaysReads(s: State, t: nat)
    requires Inv(s) && CanStep(s, t)
    ensures Reads(s.m, s.threads[t])
  {
    assert Local(s.m, t, s.threads[t]);
  }

  class NodeList {
    var heap: seq<Node>
    var head: Addr
    var threads: seq<Thread>
    var arrivals: seq<Call>  // history, read by no statement
    var linked: seq<Call>    // history, read by no statement

    ghost function Snapshot(): State
      reads this
    {
      State(Memory(heap, head, arrivals, linked), threads)
    }

    ghost predicate Valid()
      reads this
    {
      Inv(Snapshot())
    }

    constructor (programs: seq<seq<int>>)
      ensures Valid() && Snapshot() == Init(programs)
    {
      heap, head := [Node(0, Null, Unlocked)], 0;
      arrivals, linked := [], [];
      threads := Init(programs).threads;
      new;
      InitInv(programs);
    }

    method Goto(t: nat, pc: Pc)
      requires t < |threads|
      modifies this`threads
      ensures threads == old(threads)[t := old(threads)[t].(pc := pc)]
    {
      threads := threads[t := threads[t].(pc := pc)];
    }

    method SetOwner(a: Addr, l: Lock)
      requires a < |heap|
      modifies this`heap
      ensures heap == old(heap)[a := old(heap)[a].(lock := l)]
    {
      heap := heap[a := heap[a].(lock := l)];
    }

    /** Lines 39 to 43: the head is locked, and the empty list told from the others. */
    method LockFirst(t: nat)
      requires CanStep(Snapshot(), t) && Reads(Snapshot().m, threads[t])
      requires threads[t].pc.ReadHead? || threads[t].pc.LockHead? || threads[t].pc.TestEmpty?
      modifies this
      ensures Snapshot() == Next(old(Snapshot()), t)
    {
      ghost var s' := Next(Snapshot(), t);
      match threads[t].pc {
        case ReadHead => Goto(t, LockHead(head));
        case LockHead(cur) =>
          threads := threads[t := Thread(TestEmpty(cur), threads[t].todo, |arrivals|)];
          arrivals := arrivals + [Call(t, threads[t].todo[0])];
          SetOwner(cur, Held(t));
        case TestEmpty(cur) =>
          if heap[cur].next.Null? {
            Goto(t, AllocFirst(cur));
          } else {
            Goto(t, TestNext(cur));
          }
      }
      assert Snapshot() == s';
    }

    /** Lines 53 to 59: one turn of the loop, hand over hand. */
    method Traverse(t: nat)
      requires CanStep(Snapshot(), t) && Reads(Snapshot().m, threads[t])
      requires threads[t].pc.TestNext? || threads[t].pc.Advance? || threads[t].pc.LockNext? || threads[t].pc.UnlockPrev?
      modifies this
      ensures Snapshot() == Next(old(Snapshot()), t)
    {
      ghost var s' := Next(Snapshot(), t);
      match threads[t].pc {
        case TestNext(cur) =>
          if heap[cur].next.Null? {
            Goto(t, AllocLast(cur));
          } else {
            Goto(t, Advance(cur));
          }
        case Advance(prev) => Goto(t, LockNext(prev, heap[prev].next.addr));
        case LockNext(prev, cur) =>
          SetOwner(cur, Held(t));
          Goto(t, UnlockPrev(prev, cur));
        case UnlockPrev(prev, cur) =>
          SetOwner(prev, Unlocked);
          Goto(t, TestNext(cur));
      }
      assert Snapshot() == s';
    }

    /** Lines 44 to 46 and 62 to 65: a new node is linked behind the last one. */
    method Append(t: nat)
      requires CanStep(Snapshot(), t) && Reads(Snapshot().m, threads[t])
      requires Allocating(threads[t].pc) || Linking(threads[t].pc) || threads[t].pc.UnlockLast?
      modifies this
      ensures Snapshot() == Next(old(Snapshot()), t)
    {
      ghost var s' := Next(Snapshot(), t);
      match threads[t].pc {
        case AllocFirst(cur) =>
          Goto(t, LinkFirst(cur, |heap|));
          heap := heap + [Node(threads[t].todo[0], Null, Unlocked)];
        case AllocLast(cur) =>
          Goto(t, LinkLast(cur, |heap|));
          heap := heap + [Node(threads[t].todo[0], heap[cur].next, Unlocked)];
        case LinkFirst(cur, newNode) => LinkBehind(t, cur, newNode);
        case LinkLast(cur, newNode) => LinkBehind(t, cur, newNode);
        case UnlockLast(cur) =>
          SetOwner(cur, Unlocked);
          threads := threads[t := Thread(ReadHead, threads[t].todo[1..], threads[t].ticket)];
      }
      assert Snapshot() == s';
    }

    method LinkBehind(t: nat, cur: Addr, newNode: Addr)
      requires t < |threads| && cur < |heap| && threads[t].todo != []
      modifies this
      ensures head == old(head) && arrivals == old(arrivals)
      ensures heap == old(heap)[cur := old(heap)[cur].(next := Ptr(newNode))]
      ensures linked == old(linked) + [Call(t, old(threads)[t].todo[0])]
      ensures threads == old(threads)[t := old(threads)[t].(pc := UnlockLast(cur))]
    {
      heap := heap[cur := heap[cur].(next := Ptr(newNode))];
      linked := linked + [Call(t, threads[t].todo[0])];
      Goto(t, UnlockLast(cur));
    }

    /** The next statement of `addToList` in thread `t`, which in a valid list always finds the nodes it needs. */
    method AddToList(t: nat)
      requires Valid() && CanStep(Snapshot(), t)
      modifies this
      ensures Valid() && Snapshot() == Next(old(Snapshot()), t)
    {
      InvKept(Snapshot(), t);
      AlwaysReads(Snapshot(), t);
      if threads[t].pc.ReadHead? || threads[t].pc.LockHead? || threads[t].pc.TestEmpty? {
        LockFirst(t);
      } else if Allocating(threads[t].pc) || Linking(threads[t].pc) || threads[t].pc.UnlockLast? {
        Append(t);
      } else {
        Traverse(t);
      }
    }
  }
}
