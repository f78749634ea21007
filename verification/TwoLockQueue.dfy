/**
 The two-lock queue with a dummy head.  Memory is a map from the allocated addresses to nodes: `malloc` may return any
 address that is not allocated, one that was freed included, and an access outside the map is a fault.  Any number
 of threads execute any programs of enqueues and dequeues.
 */
module TwoLockQueue {
  import opened Census
  import opened Primitives
  import opened Runs

  datatype Node = Node(value: int, next: Ref)
  datatype Op = Enqueue(value: int) | Dequeue

  /** Program counters, with source lines and the local variables that are live. */
  datatype Pc =
    | Idle                                   // 42 for an enqueue, 53 for a dequeue
    | LockTail(tmp: Addr)                    // 43
    | LoadTail(tmp: Addr)                    // 44  reads q->tail
    | LinkNext(tmp: Addr, last: Addr)        // 44  last->next = tmp
    | SetTail(tmp: Addr)                     // 45
    | UnlockTail                             // 46
    | LoadHead                               // 54
    | LoadNext(current: Addr)                // 55, 56
    | UnlockEmpty                            // 57
    | SetHead(current: Addr, newHead: Addr)  // 60
    | UnlockHead(current: Addr)              // 61
    | Free(current: Addr)                    // 62

  /** `todo` is what is left of the thread's program, the current operation first. */
  datatype Thread = Thread(pc: Pc, todo: seq<Op>)

  /**
   `chain`, `linked` and `taken` are history that no statement reads: the addresses from the dummy head to the last
   linked node, the calls that have linked their values, and the calls that have taken them.
   */
  datatype Memory = Memory(heap: map<Addr, Node>, head: Addr, tail: Addr, headLocked: bool, tailLocked: bool,
                           fault: bool, chain: seq<Addr>, linked: seq<Call>, taken: seq<Call>)

  datatype State = State(m: Memory, threads: seq<Thread>)

  /** The scheduler's choice: a thread, and the address `malloc` returns if the thread calls it. */
  datatype Choice = Choice(thread: nat, addr: Addr)

  function Init(dummy: Addr, programs: seq<seq<Op>>): State {
    State(Memory(map[dummy := Node(0, Null)], dummy, dummy, false, false, false, [dummy], [], []),
          seq(|programs|, i requires 0 <= i < |programs| => Thread(Idle, programs[i])))
  }

  predicate Enabled(m: Memory, th: Thread, addr: Addr) {
    match th.pc
    case Idle => th.todo != [] && (if th.todo[0].Enqueue? then addr !in m.heap else !m.headLocked)
    case LockTail(_) => !m.tailLocked
    case _ => true
  }

  function At(th: Thread, pc: Pc): Thread { th.(pc := pc) }

  function Return(th: Thread): Thread { Thread(Idle, if th.todo == [] then [] else th.todo[1..]) }

  function ValueAt(heap: map<Addr, Node>, a: Addr): int { if a in heap then heap[a].value else 0 }

  function Link(m: Memory, t: nat, tmp: Addr, last: Addr): Memory
    requires last in m.heap
  {
    m.(heap := m.heap[last := m.heap[last].(next := Ptr(tmp))],
       chain := m.chain + [tmp], linked := m.linked + [Call(t, ValueAt(m.heap, tmp))])
  }

  function Unlink(m: Memory, t: nat, newHead: Addr): Memory {
    m.(head := newHead, chain := if m.chain == [] then [] else m.chain[1..],
       taken := m.taken + [Call(t, ValueAt(m.heap, newHead))])
  }

  /** What the next statement of a thread does to the shared memory and to the thread. */
  function Execute(m: Memory, th: Thread, c: Choice): (Memory, Thread) {
    match th.pc
    case Idle =>
      if th.todo == [] then (m, th)
      else if th.todo[0].Enqueue? then
        (m.(heap := m.heap[c.addr := Node(th.todo[0].value, Null)]), At(th, LockTail(c.addr)))
      else (m.(headLocked := true), At(th, LoadHead))
    case LockTail(tmp) => (m.(tailLocked := true), At(th, LoadTail(tmp)))
    case LoadTail(tmp) => (m, At(th, LinkNext(tmp, m.tail)))
    case LinkNext(tmp, last) =>
      if last !in m.heap then (m.(fault := true), th) else (Link(m, c.thread, tmp, last), At(th, SetTail(tmp)))
    case SetTail(tmp) => (m.(tail := tmp), At(th, UnlockTail))
    case UnlockTail => (m.(tailLocked := false), Return(th))
    case LoadHead => (m, At(th, LoadNext(m.head)))
    case LoadNext(current) =>
      if current !in m.heap then (m.(fault := true), th)
      else if m.heap[current].next.Null? then (m, At(th, UnlockEmpty))
      else (m, At(th, SetHead(current, m.heap[current].next.addr)))
    case UnlockEmpty => (m.(headLocked := false), Return(th))
    case SetHead(current, newHead) => (Unlink(m, c.thread, newHead), At(th, UnlockHead(current)))
    case UnlockHead(current) => (m.(headLocked := false), At(th, Free(current)))
    case Free(current) =>
      if current !in m.heap then (m.(fault := true), th) else (m.(heap := m.heap - {current}), Return(th))
  }

  predicate CanStep(s: State, c: Choice) { c.thread < |s.threads| && Enabled(s.m, s.threads[c.thread], c.addr) }

  /** The chosen thread executes its next statement, if it can. */
  function Next(s: State, c: Choice): State {
    if CanStep(s, c) then
      var (m, th) := Execute(s.m, s.threads[c.thread], c);
      State(m, s.threads[c.thread := th])
    else s
  }

  // ---------- the inductive invariant ----------

  predicate HasTail(pc: Pc) { pc.LoadTail? || pc.LinkNext? || pc.SetTail? || pc.UnlockTail? }
  predicate HasHead(pc: Pc) { pc.LoadHead? || pc.LoadNext? || pc.UnlockEmpty? || pc.SetHead? || pc.UnlockHead? }
  predicate Enqueuing(pc: Pc) { pc.LockTail? || HasTail(pc) }
  predicate Dequeuing(pc: Pc) { HasHead(pc) || pc.Free? }

  function TailWeight(th: Thread): nat { One(HasTail(th.pc)) }
  function HeadWeight(th: Thread): nat { One(HasHead(th.pc)) }

  /** The node that only this thread may touch: allocated and not yet linked, or unlinked and not yet freed. */
  function Owned(pc: Pc): Ref {
    match pc
    case LockTail(tmp) => Ptr(tmp)
    case LoadTail(tmp) => Ptr(tmp)
    case LinkNext(tmp, _) => Ptr(tmp)
    case UnlockHead(current) => Ptr(current)
    case Free(current) => Ptr(current)
    case _ => Null
  }

  function Last(chain: seq<Addr>): Addr
    requires chain != []
  {
    chain[|chain| - 1]
  }

  predicate Distinct(chain: seq<Addr>) {
    forall i: nat, j: nat :: i < j < |chain| ==> chain[i] != chain[j]
  }

  /** Following `next` in `heap` goes along `chain` and ends there. */
  predicate Path(heap: map<Addr, Node>, chain: seq<Addr>) {
    && chain != [] && chain[0] in heap
    && if |chain| == 1 then heap[chain[0]].next == Null
       else heap[chain[0]].next == Ptr(chain[1]) && Path(heap, chain[1..])
  }

  function Values(heap: map<Addr, Node>, chain: seq<Addr>): (r: seq<int>)
    ensures |r| == |chain|
  {
    if chain == [] then [] else [ValueAt(heap, chain[0])] + Values(heap, chain[1..])
  }

  /** The values in the queue, without the dummy's. */
  function Contents(m: Memory): seq<int> { if m.chain == [] then [] else Values(m.heap, m.chain)[1..] }

  predicate ChainOk(m: Memory) {
    && Path(m.heap, m.chain) && Distinct(m.chain) && m.chain[0] == m.head
    && ValuesOf(m.linked) == ValuesOf(m.taken) + Contents(m)
  }

  /** What a thread owns is allocated and outside the queue. */
  predicate OwnsOutside(m: Memory, th: Thread) {
    match Owned(th.pc) case Null => true case Ptr(a) => a in m.heap && a !in m.chain
  }

  ghost predicate OwnOk(s: State) {
    && (forall t: nat :: t < |s.threads| ==> OwnsOutside(s.m, s.threads[t]))
    && (forall t: nat, u: nat :: t < |s.threads| && u < |s.threads| && t != u && Owned(s.threads[t].pc) != Null ==>
        Owned(s.threads[t].pc) != Owned(s.threads[u].pc))
  }

  ghost predicate SomeoneOwns(s: State, a: Addr) {
    exists t: nat :: t < |s.threads| && Owned(s.threads[t].pc) == Ptr(a)
  }

  /** No leak: every allocated node is in the queue or owned by a thread. */
  ghost predicate NoLeak(s: State) {
    forall a :: a in s.m.heap ==> a in s.m.chain || SomeoneOwns(s, a)
  }

  predicate Fresh(m: Memory, th: Thread, tmp: Addr) {
    tmp in m.heap && th.todo != [] && th.todo[0].Enqueue? && m.heap[tmp] == Node(th.todo[0].value, Null)
  }

  predicate Local(m: Memory, th: Thread) {
    && (Enqueuing(th.pc) ==> th.todo != [] && th.todo[0].Enqueue?)
    && (Dequeuing(th.pc) ==> th.todo != [] && th.todo[0].Dequeue?)
    && (HasTail(th.pc) ==> m.tailLocked) && (HasHead(th.pc) ==> m.headLocked)
    && match th.pc
       case LockTail(tmp) => Fresh(m, th, tmp)
       case LoadTail(tmp) => Fresh(m, th, tmp)
       case LinkNext(tmp, last) => Fresh(m, th, tmp) && last == m.tail
       case SetTail(tmp) => m.chain != [] && tmp == Last(m.chain)
       case LoadNext(current) => current == m.head
       case SetHead(current, newHead) => current == m.head && |m.chain| >= 2 && newHead == m.chain[1]
       case _ => true
  }

  ghost predicate Locals(s: State) {
    forall u: nat :: u < |s.threads| ==> Local(s.m, s.threads[u])
  }

  ghost predicate Locks(s: State) {
    && One(s.m.tailLocked) == Tally(s.threads, TailWeight)
    && One(s.m.headLocked) == Tally(s.threads, HeadWeight)
  }

  /** `tail` is the last node, except between the two stores of an enqueue. */
  ghost predicate TailOk(s: State) {
    && s.m.chain != []
    && (s.m.tail == Last(s.m.chain) || exists u: nat :: u < |s.threads| && s.threads[u].pc.SetTail?)
  }

  /** All of the invariant but the locks. */
  ghost predicate Core(s: State) { !s.m.fault && ChainOk(s.m) && OwnOk(s) && NoLeak(s) && Locals(s) && TailOk(s) }

  ghost predicate Inv(s: State) { Core(s) && Locks(s) }

  lemma InitInv(dummy: Addr, programs: seq<seq<Op>>)
    ensures Inv(Init(dummy, programs))
  {
    var s := Init(dummy, programs);
    Zero(s.threads, TailWeight);
    Zero(s.threads, HeadWeight);
    assert Contents(s.m) == [];
  }

  lemma Shares(s: State, t: nat)
    requires Locks(s) && t < |s.threads|
    ensures forall u: nat :: u < |s.threads| && u != t && HasTail(s.threads[t].pc) ==> !HasTail(s.threads[u].pc)
    ensures forall u: nat :: u < |s.threads| && u != t && HasHead(s.threads[t].pc) ==> !HasHead(s.threads[u].pc)
  {
    Exclusive(s.threads, TailWeight);
    Exclusive(s.threads, HeadWeight);
  }

  lemma LockMoves(m: Memory, a: Thread, c: Choice)
    requires Enabled(m, a, c.addr) && Local(m, a)
    ensures var (m', b) := Execute(m, a, c);
      && One(m'.tailLocked) + TailWeight(a) == One(m.tailLocked) + TailWeight(b)
      && One(m'.headLocked) + HeadWeight(a) == One(m.headLocked) + HeadWeight(b)
  {
  }

  lemma LocksKept(s: State, c: Choice)
    requires Inv(s) && CanStep(s, c)
    ensures Locks(Next(s, c))
  {
    var x := Execute(s.m, s.threads[c.thread], c).1;
    LockMoves(s.m, s.threads[c.thread], c);
    Update(s.threads, c.thread, x, TailWeight);
    Update(s.threads, c.thread, x, HeadWeight);
  }

  // ---------- the statements that change the heap or the queue ----------

  /** The shared part of a step of a thread: what it owned or now owns may move between the heap, the queue and it. */
  lemma NoLeakKept(s: State, c: Choice)
    requires Core(s) && CanStep(s, c)
    requires var (m', b) := Execute(s.m, s.threads[c.thread], c);
      && (forall a :: a in m'.heap && a !in s.m.heap ==> Owned(b.pc) == Ptr(a))
      && (forall a :: a in s.m.chain && a in m'.heap && a !in m'.chain ==> Owned(b.pc) == Ptr(a))
      && (match Owned(s.threads[c.thread].pc)
          case Null => true
          case Ptr(a) => Owned(b.pc) == Ptr(a) || a in m'.chain || a !in m'.heap)
    ensures NoLeak(Next(s, c))
  {
    var s' := Next(s, c);
    forall a | a in s'.m.heap && a !in s'.m.chain ensures SomeoneOwns(s', a) {
      if Owned(s'.threads[c.thread].pc) != Ptr(a) {
        assert a in s.m.heap && SomeoneOwns(s, a);
        var v: nat :| v < |s.threads| && Owned(s.threads[v].pc) == Ptr(a);
        assert Owned(s'.threads[v].pc) == Ptr(a);
      }
    }
  }

  lemma TailKept(s: State, c: Choice)
    requires Core(s) && CanStep(s, c)
    requires var s', a := Next(s, c), s.threads[c.thread];
      s'.m.chain != [] &&
      (|| s'.threads[c.thread].pc.SetTail?
       || s'.m.tail == Last(s'.m.chain)
       || (!a.pc.SetTail? && s'.m.tail == s.m.tail && Last(s'.m.chain) == Last(s.m.chain)))
    ensures TailOk(Next(s, c))
  {
    var s' := Next(s, c);
    if s'.threads[c.thread].pc.SetTail? || s'.m.tail == Last(s'.m.chain) {
    } else if s.m.tail != Last(s.m.chain) {
      var u: nat :| u < |s.threads| && s.threads[u].pc.SetTail?;
      assert s'.threads[u].pc.SetTail?;
    }
  }

  /** What holds of a thread still holds after a step of another thread, now at `b`. */
  predicate Undisturbed(m: Memory, th: Thread, b: Thread) {
    OwnsOutside(m, th) && Local(m, th) && (Owned(b.pc) != Null ==> Owned(th.pc) != Owned(b.pc))
  }

  /** The invariant after a step, from what the step does to its own thread and to each of the others. */
  lemma Assemble(s: State, c: Choice)
    requires Core(s) && CanStep(s, c)
    requires var s', b := Next(s, c), Execute(s.m, s.threads[c.thread], c).1;
      && !s'.m.fault && ChainOk(s'.m) && NoLeak(s') && TailOk(s') && OwnsOutside(s'.m, b) && Local(s'.m, b)
      && forall u: nat :: u < |s.threads| && u != c.thread ==> Undisturbed(s'.m, s.threads[u], b)
    ensures Core(Next(s, c))
  {
    var s', b := Next(s, c), Execute(s.m, s.threads[c.thread], c).1;
    forall u: nat | u < |s.threads| ensures OwnsOutside(s'.m, s'.threads[u]) && Local(s'.m, s'.threads[u]) {
      assert u != c.thread ==> Undisturbed(s'.m, s.threads[u], b);
    }
    forall u: nat, v: nat | u < |s.threads| && v < |s.threads| && u != v && Owned(s'.threads[u].pc) != Null
      ensures Owned(s'.threads[u].pc) != Owned(s'.threads[v].pc)
    {
      assert u != c.thread ==> Undisturbed(s'.m, s.threads[u], b);
      assert v != c.thread ==> Undisturbed(s'.m, s.threads[v], b);
    }
  }

  lemma {:induction false} PathAllocated(heap: map<Addr, Node>, chain: seq<Addr>)
    requires Path(heap, chain)
    ensures forall a :: a in chain ==> a in heap
  {
    if |chain| == 1 {
    } else {
      PathAllocated(heap, chain[1..]);
      assert forall a :: a in chain ==> a == chain[0] || a in chain[1..];
    }
  }

  /** A path and its values depend on its own nodes only. */
  lemma {:induction false} PathFrame(heap: map<Addr, Node>, heap': map<Addr, Node>, chain: seq<Addr>)
    requires forall a :: a in chain && a in heap ==> a in heap' && heap'[a] == heap[a]
    requires Path(heap, chain)
    ensures Path(heap', chain) && Values(heap', chain) == Values(heap, chain)
  {
    if |chain| == 1 {
    } else {
      PathFrame(heap, heap', chain[1..]);
    }
  }

  lemma {:induction false} PathExtend(heap: map<Addr, Node>, chain: seq<Addr>, tmp: Addr)
    requires Path(heap, chain) && Distinct(chain) && tmp in heap && tmp !in chain && heap[tmp].next == Null
    requires Last(chain) in heap
    ensures var heap' := heap[Last(chain) := heap[Last(chain)].(next := Ptr(tmp))];
      Path(heap', chain + [tmp]) && Values(heap', chain + [tmp]) == Values(heap, chain) + [heap[tmp].value]
  {
    var heap' := heap[Last(chain) := heap[Last(chain)].(next := Ptr(tmp))];
    if |chain| == 1 {
      assert chain + [tmp] == [chain[0], tmp];
      assert Path(heap', [tmp]) && Values(heap', [tmp]) == [heap[tmp].value];
      assert (chain + [tmp])[1..] == [tmp];
    } else {
      assert (chain + [tmp])[1..] == chain[1..] + [tmp];
      assert chain[0] != Last(chain);
      PathExtend(heap, chain[1..], tmp);
    }
  }

  lemma MallocChain(m: Memory, addr: Addr, v: int)
    requires ChainOk(m) && addr !in m.heap
    ensures ChainOk(m.(heap := m.heap[addr := Node(v, Null)])) && addr !in m.chain
  {
    PathAllocated(m.heap, m.chain);
    PathFrame(m.heap, m.heap[addr := Node(v, Null)], m.chain);
  }

  lemma OthersAfterMalloc(m: Memory, addr: Addr, v: int, th: Thread)
    requires ChainOk(m) && addr !in m.heap && OwnsOutside(m, th) && Local(m, th)
    ensures var m' := m.(heap := m.heap[addr := Node(v, Null)]); OwnsOutside(m', th) && Local(m', th)
    ensures Owned(th.pc) != Ptr(addr)
  {
  }

  lemma MallocKept(s: State, c: Choice)
    requires Inv(s) && CanStep(s, c) && s.threads[c.thread].pc.Idle? && s.threads[c.thread].todo[0].Enqueue?
    ensures Core(Next(s, c))
  {
    var s', v := Next(s, c), s.threads[c.thread].todo[0].value;
    MallocChain(s.m, c.addr, v);
    NoLeakKept(s, c);
    TailKept(s, c);
    assert OwnsOutside(s'.m, s'.threads[c.thread]) && Local(s'.m, s'.threads[c.thread]);
    var b := s'.threads[c.thread];
    forall u: nat | u < |s.threads| && u != c.thread ensures Undisturbed(s'.m, s.threads[u], b) {
      OthersAfterMalloc(s.m, c.addr, v, s.threads[u]);
    }
    Assemble(s, c);
  }

  lemma LinkChain(m: Memory, t: nat, tmp: Addr)
    requires ChainOk(m) && tmp in m.heap && tmp !in m.chain && m.heap[tmp].next == Null
    ensures Last(m.chain) in m.heap
    ensures ChainOk(Link(m, t, tmp, Last(m.chain)))
    ensures Contents(Link(m, t, tmp, Last(m.chain))) == Contents(m) + [m.heap[tmp].value]
  {
    PathAllocated(m.heap, m.chain);
    PathExtend(m.heap, m.chain, tmp);
    OneMore(m.linked, Call(t, m.heap[tmp].value), t);
  }

  /** A thread that owns `tmp` and holds the tail lock reads the last node in `tail`. */
  lemma LinkSite(s: State, t: nat)
    requires Inv(s) && t < |s.threads| && s.threads[t].pc.LinkNext?
    ensures var pc := s.threads[t].pc;
      && pc.last == s.m.tail == Last(s.m.chain) && pc.last in s.m.heap
      && pc.tmp in s.m.heap && pc.tmp !in s.m.chain && s.m.heap[pc.tmp].next == Null
      && s.threads[t].todo != [] && s.threads[t].todo[0] == Enqueue(s.m.heap[pc.tmp].value)
  {
    Shares(s, t);
    PathAllocated(s.m.heap, s.m.chain);
    assert Local(s.m, s.threads[t]) && OwnsOutside(s.m, s.threads[t]);
  }

  lemma OthersAfterLink(m: Memory, t: nat, tmp: Addr, th: Thread)
    requires ChainOk(m) && Last(m.chain) in m.heap && OwnsOutside(m, th) && Local(m, th)
    requires !HasTail(th.pc) && Owned(th.pc) != Ptr(tmp)
    ensures var m' := Link(m, t, tmp, Last(m.chain)); OwnsOutside(m', th) && Local(m', th)
  {
  }

  lemma LinkSelf(s: State, c: Choice)
    requires Inv(s) && CanStep(s, c) && s.threads[c.thread].pc.LinkNext?
    ensures var a, s' := s.threads[c.thread], Next(s, c);
      && Owned(a.pc) == Ptr(a.pc.tmp) && a.pc.tmp in s.m.heap && Last(s.m.chain) in s.m.heap
      && s'.m == Link(s.m, c.thread, a.pc.tmp, Last(s.m.chain)) && s'.threads[c.thread] == At(a, SetTail(a.pc.tmp))
      && ChainOk(s'.m) && Local(s'.m, s'.threads[c.thread])
  {
    LinkSite(s, c.thread);
    LinkChain(s.m, c.thread, s.threads[c.thread].pc.tmp);
    assert Local(s.m, s.threads[c.thread]);
  }

  lemma LinkKept(s: State, c: Choice)
    requires Inv(s) && CanStep(s, c) && s.threads[c.thread].pc.LinkNext?
    ensures Core(Next(s, c))
  {
    var t, s' := c.thread, Next(s, c);
    LinkSelf(s, c);
    NoLeakKept(s, c);
    TailKept(s, c);
    Shares(s, t);
    forall u: nat | u < |s.threads| && u != t ensures Undisturbed(s'.m, s.threads[u], s'.threads[t]) {
      OthersAfterLink(s.m, t, s.threads[t].pc.tmp, s.threads[u]);
    }
    Assemble(s, c);
  }

  lemma UnlinkContents(m: Memory, t: nat)
    requires Path(m.heap, m.chain) && |m.chain| >= 2
    ensures Path(m.heap, m.chain[1..])
    ensures Contents(m) == [ValueAt(m.heap, m.chain[1])] + Contents(Unlink(m, t, m.chain[1]))
  {
  }

  lemma UnlinkValues(m: Memory, t: nat)
    requires Path(m.heap, m.chain) && |m.chain| >= 2
    ensures var m' := Unlink(m, t, m.chain[1]);
      ValuesOf(m'.taken) + Contents(m') == ValuesOf(m.taken) + Contents(m)
  {
    var m', v := Unlink(m, t, m.chain[1]), ValueAt(m.heap, m.chain[1]);
    UnlinkContents(m, t);
    OneMore(m.taken, Call(t, v), t);
    assert ValuesOf(m'.taken) + Contents(m') == ValuesOf(m.taken) + ([v] + Contents(m'));
  }

  lemma DistinctRest(chain: seq<Addr>)
    requires Distinct(chain) && chain != []
    ensures Distinct(chain[1..])
  {
    forall i: nat, j: nat | i < j < |chain[1..]| ensures chain[1..][i] != chain[1..][j] {
      assert chain[1..][i] == chain[i + 1] && chain[1..][j] == chain[j + 1];
    }
  }

  lemma UnlinkChain(m: Memory, t: nat)
    requires ChainOk(m) && |m.chain| >= 2
    ensures ChainOk(Unlink(m, t, m.chain[1]))
  {
    UnlinkContents(m, t);
    UnlinkValues(m, t);
    DistinctRest(m.chain);
  }

  /** The nodes that stay in the queue. */
  lemma UnlinkNodes(chain: seq<Addr>)
    requires Distinct(chain) && |chain| >= 2
    ensures Last(chain[1..]) == Last(chain)
    ensures forall a :: a in chain[1..] <==> a in chain && a != chain[0]
  {
    assert chain == [chain[0]] + chain[1..];
  }

  lemma OthersAfterUnlink(m: Memory, t: nat, th: Thread)
    requires ChainOk(m) && |m.chain| >= 2 && OwnsOutside(m, th) && Local(m, th) && !HasHead(th.pc)
    requires Last(m.chain[1..]) == Last(m.chain)
    ensures var m' := Unlink(m, t, m.chain[1]); OwnsOutside(m', th) && Local(m', th)
    ensures Owned(th.pc) != Ptr(m.head)
  {
  }

  lemma UnlinkKept(s: State, c: Choice)
    requires Inv(s) && CanStep(s, c) && s.threads[c.thread].pc.SetHead?
    ensures Core(Next(s, c))
  {
    var t, s' := c.thread, Next(s, c);
    assert Local(s.m, s.threads[t]);
    UnlinkChain(s.m, t);
    UnlinkNodes(s.m.chain);
    assert s'.m == Unlink(s.m, t, s.m.chain[1]);
    NoLeakKept(s, c);
    TailKept(s, c);
    assert OwnsOutside(s'.m, s'.threads[t]) && Local(s'.m, s'.threads[t]);
    forall u: nat | u < |s.threads| && u != t ensures Undisturbed(s'.m, s.threads[u], s'.threads[t]) {
      Shares(s, t);
      OthersAfterUnlink(s.m, t, s.threads[u]);
    }
    Assemble(s, c);
  }

  lemma FreeChain(m: Memory, a: Addr)
    requires ChainOk(m) && a !in m.chain
    ensures ChainOk(m.(heap := m.heap - {a}))
  {
    PathFrame(m.heap, m.heap - {a}, m.chain);
  }

  lemma OthersAfterFree(m: Memory, a: Addr, th: Thread)
    requires OwnsOutside(m, th) && Local(m, th) && Owned(th.pc) != Ptr(a)
    ensures var m' := m.(heap := m.heap - {a}); OwnsOutside(m', th) && Local(m', th)
  {
  }

  lemma FreeSelf(s: State, c: Choice)
    requires Inv(s) && CanStep(s, c) && s.threads[c.thread].pc.Free?
    ensures var a, s' := s.threads[c.thread], Next(s, c);
      && Owned(a.pc) == Ptr(a.pc.current) && a.pc.current !in s.m.chain
      && s'.m == s.m.(heap := s.m.heap - {a.pc.current}) && s'.threads[c.thread] == Return(a)
      && ChainOk(s'.m) && Local(s'.m, s'.threads[c.thread])
  {
    var a := s.threads[c.thread];
    assert OwnsOutside(s.m, a) && Local(s.m, a);
    assert Owned(a.pc) == Ptr(a.pc.current);
    FreeChain(s.m, a.pc.current);
  }

  lemma FreeKept(s: State, c: Choice)
    requires Inv(s) && CanStep(s, c) && s.threads[c.thread].pc.Free?
    ensures Core(Next(s, c))
  {
    var t, s' := c.thread, Next(s, c);
    FreeSelf(s, c);
    NoLeakKept(s, c);
    TailKept(s, c);
    forall u: nat | u < |s.threads| && u != t ensures Undisturbed(s'.m, s.threads[u], s'.threads[t]) {
      OthersAfterFree(s.m, s.threads[t].pc.current, s.threads[u]);
    }
    Assemble(s, c);
  }

  // ---------- the other statements ----------

  /** The statements that change neither the heap nor the queue. */
  predicate Quiet(th: Thread) {
    !th.pc.LinkNext? && !th.pc.SetHead? && !th.pc.Free? && (th.pc.Idle? && th.todo != [] ==> th.todo[0].Dequeue?)
  }

  lemma QuietStep(m: Memory, a: Thread, c: Choice)
    requires Enabled(m, a, c.addr) && Quiet(a) && Local(m, a) && ChainOk(m) && !m.fault
    ensures var (m', b) := Execute(m, a, c);
      && m'.heap == m.heap && m'.head == m.head && m'.chain == m.chain && !m'.fault
      && m'.linked == m.linked && m'.taken == m.taken
      && Owned(b.pc) == Owned(a.pc) && !b.pc.SetTail?
      && (m'.tail == if a.pc.SetTail? then Last(m.chain) else m.tail)
      && (m.tailLocked && !m'.tailLocked ==> HasTail(a.pc)) && (m.headLocked && !m'.headLocked ==> HasHead(a.pc))
  {
  }

  lemma QuietLocal(m: Memory, a: Thread, c: Choice)
    requires Enabled(m, a, c.addr) && Quiet(a) && Local(m, a) && ChainOk(m)
    ensures var (m', b) := Execute(m, a, c); Local(m', b)
  {
  }

  lemma OthersAfterQuiet(m: Memory, a: Thread, c: Choice, th: Thread)
    requires Enabled(m, a, c.addr) && Quiet(a) && Local(m, a) && ChainOk(m) && !m.fault
    requires OwnsOutside(m, th) && Local(m, th)
    requires !(HasTail(a.pc) && HasTail(th.pc)) && !(HasHead(a.pc) && HasHead(th.pc))
    ensures var m' := Execute(m, a, c).0; OwnsOutside(m', th) && Local(m', th)
  {
    QuietStep(m, a, c);
  }

  lemma QuietKept(s: State, c: Choice)
    requires Inv(s) && CanStep(s, c) && Quiet(s.threads[c.thread])
    ensures Core(Next(s, c))
  {
    var t, s' := c.thread, Next(s, c);
    assert Local(s.m, s.threads[t]) && OwnsOutside(s.m, s.threads[t]);
    QuietStep(s.m, s.threads[t], c);
    QuietLocal(s.m, s.threads[t], c);
    NoLeakKept(s, c);
    TailKept(s, c);
    Shares(s, t);
    forall u: nat | u < |s.threads| && u != t ensures Undisturbed(s'.m, s.threads[u], s'.threads[t]) {
      OthersAfterQuiet(s.m, s.threads[t], c, s.threads[u]);
    }
    Assemble(s, c);
  }

  lemma InvKept(s: State, c: Choice)
    requires Inv(s)
    ensures Inv(Next(s, c))
  {
    if CanStep(s, c) {
      LocksKept(s, c);
      var th := s.threads[c.thread];
      if Quiet(th) {
        QuietKept(s, c);
      } else if th.pc.LinkNext? {
        LinkKept(s, c);
      } else if th.pc.SetHead? {
        UnlinkKept(s, c);
      } else if th.pc.Free? {
        FreeKept(s, c);
      } else {
        MallocKept(s, c);
      }
    }
  }

  function Reached(dummy: Addr, programs: seq<seq<Op>>, run: seq<Choice>): State {
    Exec(Next, Init(dummy, programs), run)
  }

  lemma ReachedInv(dummy: Addr, programs: seq<seq<Op>>, run: seq<Choice>)
    ensures Inv(Reached(dummy, programs, run))
  {
    InitInv(dummy, programs);
    forall x, c | Inv(x) ensures Inv(Next(x, c)) { InvKept(x, c); }
    Always(Next, Inv, Init(dummy, programs), run);
  }

  // ---------- memory safety and first-in first-out ----------

  /** The nodes met when following `next` from `from`. */
  function Walk(heap: map<Addr, Node>, from: Addr, fuel: nat): seq<Addr>
    decreases fuel
  {
    if fuel == 0 || from !in heap then []
    else [from] + match heap[from].next case Null => [] case Ptr(a) => Walk(heap, a, fuel - 1)
  }

  /** The nodes from `head` on, read off the heap. */
  function Nodes(m: Memory): seq<Addr> { Walk(m.heap, m.head, |m.heap|) }

  /** The values reachable after `head`. */
  function Reachable(m: Memory): seq<int> { if Nodes(m) == [] then [] else Values(m.heap, Nodes(m))[1..] }

  lemma {:induction false} WalkIsPath(heap: map<Addr, Node>, chain: seq<Addr>, fuel: nat)
    requires Path(heap, chain) && |chain| <= fuel
    ensures Walk(heap, chain[0], fuel) == chain
  {
    if |chain| == 1 {
    } else {
      WalkIsPath(heap, chain[1..], fuel - 1);
    }
  }

  lemma NodesAreChain(m: Memory)
    requires ChainOk(m)
    ensures Nodes(m) == m.chain
  {
    PathAllocated(m.heap, m.chain);
    DistinctSize(m.chain);
    SubsetSize(Elements(m.chain), m.heap.Keys);
    WalkIsPath(m.heap, m.chain, |m.heap|);
  }

  lemma ReachableIsContents(m: Memory)
    requires ChainOk(m)
    ensures Reachable(m) == Contents(m)
  {
    NodesAreChain(m);
  }

  /** The statement reads or writes the node at `a`, or frees it. */
  predicate Accesses(pc: Pc, a: Addr) {
    (pc.LinkNext? && pc.last == a) || (pc.LoadNext? && pc.current == a) || (pc.Free? && pc.current == a)
  }

  /** No other thread owns the node, or is about to access it. */
  ghost predicate Mine(s: State, t: nat, a: Addr) {
    forall u: nat :: u < |s.threads| && u != t ==>
      Owned(s.threads[u].pc) != Ptr(a) && !Accesses(s.threads[u].pc, a)
  }

  /**
   What thread `t` is about to access is the node it means, and not one that was freed and allocated again: the last
   node of the queue, the first one, or one that has left the queue and that nobody else can reach.
   */
  ghost predicate MeansIt(s: State, t: nat)
    requires t < |s.threads|
  {
    var nodes := Nodes(s.m);
    nodes != [] && nodes[0] == s.m.head &&
    match s.threads[t].pc
    case LinkNext(tmp, last) => last == Last(nodes) && tmp in s.m.heap && tmp !in nodes && Mine(s, t, tmp)
    case LoadNext(current) => current == s.m.head
    case SetHead(current, newHead) => |nodes| >= 2 && current == s.m.head && newHead == nodes[1]
    case Free(current) => current in s.m.heap && current !in nodes && Mine(s, t, current)
    case _ => true
  }

  lemma OnlyMine(s: State, t: nat, a: Addr)
    requires Inv(s) && t < |s.threads| && Owned(s.threads[t].pc) == Ptr(a)
    ensures a in s.m.heap && a !in s.m.chain && Mine(s, t, a)
  {
    assert OwnsOutside(s.m, s.threads[t]);
    forall u: nat | u < |s.threads| && u != t
      ensures Owned(s.threads[u].pc) != Ptr(a) && !Accesses(s.threads[u].pc, a)
    {
      assert Local(s.m, s.threads[u]);
      if s.threads[u].pc.LinkNext? {
        LinkSite(s, u);
      }
    }
  }

  lemma AlwaysMeansIt(s: State, t: nat)
    requires Inv(s) && t < |s.threads|
    ensures MeansIt(s, t)
  {
    assert Local(s.m, s.threads[t]);
    NodesAreChain(s.m);
    match s.threads[t].pc
    case LinkNext(tmp, last) =>
      LinkSite(s, t);
      OnlyMine(s, t, tmp);
    case Free(current) => OnlyMine(s, t, current);
    case _ =>
  }

  /**
   In every reachable state no freed node has been accessed and none freed twice; the node that a thread is about to
   access is the one it means, whatever addresses `malloc` reuses; and the values dequeued so far followed by the
   values reachable after `head` are the values linked, in that order.
   */
  lemma SafeAndFifo(dummy: Addr, programs: seq<seq<Op>>, run: seq<Choice>)
    ensures var s := Reached(dummy, programs, run);
      && !s.m.fault && ValuesOf(s.m.linked) == ValuesOf(s.m.taken) + Reachable(s.m)
      && forall t: nat :: t < |s.threads| ==> MeansIt(s, t)
  {
    ReachedInv(dummy, programs, run);
    var s := Reached(dummy, programs, run);
    ReachableIsContents(s.m);
    forall t: nat | t < |s.threads| ensures MeansIt(s, t) { AlwaysMeansIt(s, t); }
  }

  /** A dequeue reads NULL in the `next` of the dummy (lines 55 and 56). */
  predicate FindsEmpty(s: State, c: Choice) {
    && CanStep(s, c) && s.threads[c.thread].pc.LoadNext?
    && s.threads[c.thread].pc.current in s.m.heap && s.m.heap[s.threads[c.thread].pc.current].next.Null?
  }

  lemma Effects(s: State, c: Choice)
    requires Inv(s) && CanStep(s, c)
    ensures var s' := Next(s, c);
      var q, q', th := Contents(s.m), Contents(s'.m), s.threads[c.thread];
      && (th.pc.LinkNext? ==> th.todo != [] && th.todo[0].Enqueue? && q' == q + [th.todo[0].value])
      && (th.pc.SetHead? ==> th.todo != [] && th.todo[0].Dequeue? && q != [] && q' == q[1..]
                             && s'.m.taken == s.m.taken + [Call(c.thread, q[0])])
      && (FindsEmpty(s, c) ==> th.todo != [] && th.todo[0].Dequeue? && q == [])
      && (!th.pc.LinkNext? && !th.pc.SetHead? ==> q' == q)
  {
    var th := s.threads[c.thread];
    assert Local(s.m, th) && OwnsOutside(s.m, th);
    if th.pc.LinkNext? {
      LinkSite(s, c.thread);
      LinkChain(s.m, c.thread, th.pc.tmp);
    } else if th.pc.SetHead? {
      UnlinkContents(s.m, c.thread);
    } else if Quiet(th) {
      QuietStep(s.m, th, c);
    } else if th.pc.Free? {
      PathFrame(s.m.heap, Next(s, c).m.heap, s.m.chain);
    } else {
      PathAllocated(s.m.heap, s.m.chain);
      PathFrame(s.m.heap, Next(s, c).m.heap, s.m.chain);
    }
  }

  /**
   Each operation takes effect in one statement: an enqueue appends its argument where it stores `next`, a dequeue
   removes the oldest value where it stores `head`, or finds the queue empty where it reads `next`; no other
   statement changes the queue.
   */
  lemma Linearizes(dummy: Addr, programs: seq<seq<Op>>, before: seq<Choice>, c: Choice)
    requires CanStep(Reached(dummy, programs, before), c)
    ensures var s := Reached(dummy, programs, before);
      var s' := Next(s, c);
      var q, q', th := Reachable(s.m), Reachable(s'.m), s.threads[c.thread];
      && (th.pc.LinkNext? ==> th.todo != [] && th.todo[0].Enqueue? && q' == q + [th.todo[0].value])
      && (th.pc.SetHead? ==> th.todo != [] && th.todo[0].Dequeue? && q != [] && q' == q[1..]
                             && s'.m.taken == s.m.taken + [Call(c.thread, q[0])])
      && (FindsEmpty(s, c) ==> th.todo != [] && th.todo[0].Dequeue? && q == [] && q' == [])
      && (!th.pc.LinkNext? && !th.pc.SetHead? ==> q' == q)
  {
    var s := Reached(dummy, programs, before);
    ReachedInv(dummy, programs, before);
    ReachableIsContents(s.m);
    InvKept(s, c);
    ReachableIsContents(Next(s, c).m);
    Effects(s, c);
  }

  lemma Grow(p: seq<seq<Op>>, run: seq<Choice>, s: State, t: nat, s': State) returns (run': seq<Choice>)
    requires Reached(0, p, run) == s && Next(s, Choice(t, 1)) == s'
    ensures Reached(0, p, run') == s'
  {
    run' := run + [Choice(t, 1)];
    Extend(Next, Init(0, p), run, Choice(t, 1));
  }

  /** The queue after thread 0 has linked 7 behind the dummy at address 0, with thread 1 dequeuing. */
  function Window(heap: map<Addr, Node>, head: Addr, headLocked: bool, chain: seq<Addr>, taken: seq<Call>,
      b: Thread): State
  {
    State(Memory(heap, head, 0, headLocked, true, false, chain, [Call(0, 7)], taken),
          [Thread(SetTail(1), [Enqueue(7)]), b])
  }

  /** Lines 42 to 44 in thread 0. */
  lemma OpenWindow(p: seq<seq<Op>>, two: map<Addr, Node>) returns (run: seq<Choice>)
    requires p == [[Enqueue(7)], [Dequeue]] && two == map[0 := Node(0, Ptr(1)), 1 := Node(7, Null)]
    ensures Reached(0, p, run) == Window(two, 0, false, [0, 1], [], Thread(Idle, [Dequeue]))
  {
    var e, d := [Enqueue(7)], Thread(Idle, [Dequeue]);
    var m := Memory(map[0 := Node(0, Null)], 0, 0, false, false, false, [0], [], []);
    var m1 := m.(heap := map[0 := Node(0, Null), 1 := Node(7, Null)]);
    var m2 := m1.(tailLocked := true);
    run := [];
    assert Init(0, p) == State(m, [Thread(Idle, e), d]);
    run := Grow(p, run, State(m, [Thread(Idle, e), d]), 0, State(m1, [Thread(LockTail(1), e), d]));
    run := Grow(p, run, State(m1, [Thread(LockTail(1), e), d]), 0, State(m2, [Thread(LoadTail(1), e), d]));
    run := Grow(p, run, State(m2, [Thread(LoadTail(1), e), d]), 0, State(m2, [Thread(LinkNext(1, 0), e), d]));
    run := Grow(p, run, State(m2, [Thread(LinkNext(1, 0), e), d]), 0, Window(two, 0, false, [0, 1], [], d));
  }

  /** Lines 53 to 60 in thread 1. */
  lemma MoveHead(p: seq<seq<Op>>, two: map<Addr, Node>, before: seq<Choice>) returns (run: seq<Choice>)
    requires two == map[0 := Node(0, Ptr(1)), 1 := Node(7, Null)]
    requires Reached(0, p, before) == Window(two, 0, false, [0, 1], [], Thread(Idle, [Dequeue]))
    ensures Reached(0, p, run) == Window(two, 1, true, [1], [Call(1, 7)], Thread(UnlockHead(0), [Dequeue]))
  {
    var w1 := Window(two, 0, true, [0, 1], [], Thread(LoadHead, [Dequeue]));
    var w2 := Window(two, 0, true, [0, 1], [], Thread(LoadNext(0), [Dequeue]));
    var w3 := Window(two, 0, true, [0, 1], [], Thread(SetHead(0, 1), [Dequeue]));
    run := Grow(p, before, Window(two, 0, false, [0, 1], [], Thread(Idle, [Dequeue])), 1, w1);
    run := Grow(p, run, w1, 1, w2);
    run := Grow(p, run, w2, 1, w3);
    run := Grow(p, run, w3, 1, Window(two, 1, true, [1], [Call(1, 7)], Thread(UnlockHead(0), [Dequeue])));
  }

  /** Lines 61 and 62 in thread 1. */
  lemma FreeDummy(p: seq<seq<Op>>, two: map<Addr, Node>, before: seq<Choice>) returns (run: seq<Choice>)
    requires two == map[0 := Node(0, Ptr(1)), 1 := Node(7, Null)]
    requires Reached(0, p, before) == Window(two, 1, true, [1], [Call(1, 7)], Thread(UnlockHead(0), [Dequeue]))
    ensures Reached(0, p, run) == Window(two - {0}, 1, false, [1], [Call(1, 7)], Thread(Idle, []))
  {
    var w := Window(two, 1, false, [1], [Call(1, 7)], Thread(Free(0), [Dequeue]));
    run := Grow(p, before, Window(two, 1, true, [1], [Call(1, 7)], Thread(UnlockHead(0), [Dequeue])), 1, w);
    run := Grow(p, run, w, 1, Window(two - {0}, 1, false, [1], [Call(1, 7)], Thread(Idle, [])));
  }

  /**
   The window of an enqueue: between its two stores a dequeue may free the node that `tail` still points to, so that
   safety rests on nobody following `tail` in between.
   */
  lemma TailMayDangle() returns (run: seq<Choice>)
    ensures var s := Reached(0, [[Enqueue(7)], [Dequeue]], run);
      |s.threads| == 2 && s.threads[0].pc == SetTail(1) && s.m.tail !in s.m.heap
  {
    var p, two := [[Enqueue(7)], [Dequeue]], map[0 := Node(0, Ptr(1)), 1 := Node(7, Null)];
    run := OpenWindow(p, two);
    run := MoveHead(p, two, run);
    run := FreeDummy(p, two, run);
  }

  // ---------- progress, completion and leaks ----------

  predicate Finished(th: Thread) { th.pc.Idle? && th.todo == [] }

  /** An unfinished thread means that some thread can step. */
  lemma Progress(s: State, t: nat) returns (c: Choice)
    requires Inv(s) && t < |s.threads| && !Finished(s.threads[t])
    ensures CanStep(s, c)
  {
    var unused := Outside(s.m.heap.Keys);
    if CanStep(s, Choice(t, unused)) {
      c := Choice(t, unused);
    } else if s.m.tailLocked && s.threads[t].pc.LockTail? {
      var u := Witness(s.threads, TailWeight);
      c := Choice(u, unused);
    } else {
      var u := Witness(s.threads, HeadWeight);
      c := Choice(u, unused);
    }
  }

  /** Thread `u` keeps `t` waiting: it holds the lock of the end of the queue that `t` works on. */
  predicate Bars(s: State, t: nat, u: nat)
    requires t < |s.threads| && u < |s.threads|
  {
    match s.threads[t].pc
    case Idle => HasHead(s.threads[u].pc)
    case LockTail(_) => HasTail(s.threads[u].pc)
    case _ => false
  }

  /** About to call `malloc`. */
  predicate Allocates(th: Thread) { th.pc.Idle? && th.todo != [] && th.todo[0].Enqueue? }

  lemma LockHolders(s: State)
    requires Inv(s)
    ensures s.m.tailLocked <==> exists u: nat :: u < |s.threads| && HasTail(s.threads[u].pc)
    ensures s.m.headLocked <==> exists u: nat :: u < |s.threads| && HasHead(s.threads[u].pc)
  {
    forall u: nat | u < |s.threads|
      ensures TailWeight(s.threads[u]) <= One(s.m.tailLocked) && HeadWeight(s.threads[u]) <= One(s.m.headLocked)
    {
      Member(s.threads, u, TailWeight);
      Member(s.threads, u, HeadWeight);
    }
    if s.m.tailLocked {
      var u := Witness(s.threads, TailWeight);
    }
    if s.m.headLocked {
      var u := Witness(s.threads, HeadWeight);
    }
  }

  lemma WaitsFor(s: State, c: Choice)
    requires Inv(s) && c.thread < |s.threads| && !Finished(s.threads[c.thread])
    ensures CanStep(s, c) <==>
      if Allocates(s.threads[c.thread]) then c.addr !in s.m.heap
      else forall u: nat :: u < |s.threads| && u != c.thread ==> !Bars(s, c.thread, u)
  {
    var t := c.thread;
    LockHolders(s);
    assert Local(s.m, s.threads[t]);
    if !CanStep(s, c) && !Allocates(s.threads[t]) {
      if s.threads[t].pc.Idle? {
        var u: nat :| u < |s.threads| && HasHead(s.threads[u].pc);
        assert Bars(s, t, u);
      } else {
        var u: nat :| u < |s.threads| && HasTail(s.threads[u].pc);
        assert Bars(s, t, u);
      }
    }
  }

  /**
   In every reachable state an unfinished thread waits exactly for one that bars it; an allocation waits for nobody and
   may return any address that is not allocated.
   */
  lemma WaitsExactly(dummy: Addr, programs: seq<seq<Op>>, run: seq<Choice>, c: Choice)
    ensures var s := Reached(dummy, programs, run);
      c.thread < |s.threads| && !Finished(s.threads[c.thread]) ==>
        (CanStep(s, c) <==>
          if Allocates(s.threads[c.thread]) then c.addr !in s.m.heap
          else forall u: nat :: u < |s.threads| && u != c.thread ==> !Bars(s, c.thread, u))
  {
    var s := Reached(dummy, programs, run);
    ReachedInv(dummy, programs, run);
    if c.thread < |s.threads| && !Finished(s.threads[c.thread]) {
      WaitsFor(s, c);
    }
  }

  function ToGo(pc: Pc): nat {
    match pc
    case Idle => 7
    case LockTail(_) => 5 case LoadTail(_) => 4 case LinkNext(_, _) => 3 case SetTail(_) => 2 case UnlockTail => 1
    case LoadHead => 6 case LoadNext(_) => 5 case UnlockEmpty => 1
    case SetHead(_, _) => 4 case UnlockHead(_) => 3 case Free(_) => 2
  }

  function WorkOf(th: Thread): nat { if th.todo == [] then 0 else (|th.todo| - 1) * 7 + ToGo(th.pc) }
  function Work(s: State): nat { Tally(s.threads, WorkOf) }

  function Enqueues(todo: seq<Op>): nat { if todo == [] then 0 else One(todo[0].Enqueue?) + Enqueues(todo[1..]) }

  /** Enqueues the thread has yet to link. */
  function Pending(th: Thread): nat {
    if th.pc.SetTail? || th.pc.UnlockTail? then (if th.todo == [] then 0 else Enqueues(th.todo[1..]))
    else Enqueues(th.todo)
  }

  function Promised(s: State): nat { |s.m.linked| + Tally(s.threads, Pending) }
  function Size(s: State): nat { |s.threads| }

  lemma ThreadWork(m: Memory, a: Thread, c: Choice)
    requires Enabled(m, a, c.addr) && Local(m, a) && !Execute(m, a, c).0.fault
    ensures WorkOf(Execute(m, a, c).1) + 1 <= WorkOf(a)
  {
  }

  lemma ThreadPending(m: Memory, a: Thread, c: Choice)
    requires Enabled(m, a, c.addr) && Local(m, a) && !Execute(m, a, c).0.fault
    ensures var (m', b) := Execute(m, a, c);
      |m'.linked| + Pending(b) == |m.linked| + Pending(a)
  {
  }

  lemma StepAccounts(s: State, c: Choice)
    requires Inv(s)
    ensures Work(Next(s, c)) + One(CanStep(s, c)) <= Work(s)
    ensures Promised(Next(s, c)) == Promised(s) && Size(Next(s, c)) == Size(s)
  {
    if CanStep(s, c) {
      var t := c.thread;
      var x := Execute(s.m, s.threads[t], c).1;
      InvKept(s, c);
      assert Local(s.m, s.threads[t]);
      Update(s.threads, t, x, WorkOf);
      Update(s.threads, t, x, Pending);
      ThreadWork(s.m, s.threads[t], c);
      ThreadPending(s.m, s.threads[t], c);
    }
  }

  lemma RunAccounts(s: State, run: seq<Choice>)
    requires Inv(s)
    ensures |Events(Next, CanStep, s, run)| + Work(Exec(Next, s, run)) <= Work(s)
    ensures Promised(Exec(Next, s, run)) == Promised(s) && Size(Exec(Next, s, run)) == Size(s)
  {
    forall x, c | Inv(x)
      ensures Inv(Next(x, c)) && Promised(Next(x, c)) == Promised(x) && Size(Next(x, c)) == Size(x)
      ensures Work(Next(x, c)) + (if CanStep(x, c) then 1 else 0) <= Work(x)
    {
      InvKept(x, c);
      StepAccounts(x, c);
    }
    WorkBoundsSteps(Next, CanStep, Inv, Work, s, run);
    Conserved(Next, Inv, Promised, s, run);
    Conserved(Next, Inv, Size, s, run);
  }

  function Length(p: seq<Op>): nat { |p| }

  lemma {:induction false} WorkAtStart(ths: seq<Thread>, programs: seq<seq<Op>>)
    requires |ths| == |programs| && forall i: nat :: i < |ths| ==> ths[i] == Thread(Idle, programs[i])
    ensures Tally(ths, WorkOf) == 7 * Tally(programs, Length)
  {
    if ths == [] {
    } else {
      WorkAtStart(ths[1..], programs[1..]);
    }
  }

  /** The values that a program enqueues. */
  function Enqueued(todo: seq<Op>): seq<int> {
    if todo == [] then [] else (if todo[0].Enqueue? then [todo[0].value] else []) + Enqueued(todo[1..])
  }

  /** The values the thread has yet to link. */
  function Rest(th: Thread): seq<int> {
    if (th.pc.SetTail? || th.pc.UnlockTail?) && th.todo != [] then Enqueued(th.todo[1..]) else Enqueued(th.todo)
  }

  lemma ThreadRest(m: Memory, a: Thread, c: Choice)
    requires Enabled(m, a, c.addr) && Local(m, a) && !Execute(m, a, c).0.fault
    ensures var (m', b) := Execute(m, a, c);
      if a.pc.LinkNext? then
        Rest(a) == [ValueAt(m.heap, a.pc.tmp)] + Rest(b)
        && m'.linked == m.linked + [Call(c.thread, ValueAt(m.heap, a.pc.tmp))]
      else Rest(a) == Rest(b) && m'.linked == m.linked
  {
  }

  /** What thread `t` has linked, followed by what it has yet to link. */
  function Account(s: State, t: nat): seq<int>
    requires t < |s.threads|
  {
    Of(s.m.linked, t) + Rest(s.threads[t])
  }

  lemma ThreadAccount(m: Memory, a: Thread, c: Choice, t: nat)
    requires Enabled(m, a, c.addr) && Local(m, a) && !Execute(m, a, c).0.fault
    ensures var (m', b) := Execute(m, a, c);
      if t == c.thread then Of(m'.linked, t) + Rest(b) == Of(m.linked, t) + Rest(a)
      else Of(m'.linked, t) == Of(m.linked, t)
  {
    ThreadRest(m, a, c);
    if a.pc.LinkNext? {
      OneMore(m.linked, Call(c.thread, ValueAt(m.heap, a.pc.tmp)), t);
    }
  }

  lemma AccountKept(s: State, c: Choice, t: nat)
    requires Inv(s) && CanStep(s, c) && t < |s.threads|
    ensures Account(Next(s, c), t) == Account(s, t)
  {
    InvKept(s, c);
    assert Local(s.m, s.threads[c.thread]);
    ThreadAccount(s.m, s.threads[c.thread], c, t);
  }

  ghost function Accounts(s: State): seq<seq<int>> {
    seq(|s.threads|, t requires 0 <= t < |s.threads| => Account(s, t))
  }

  lemma AccountsKept(s: State, c: Choice)
    requires Inv(s)
    ensures Accounts(Next(s, c)) == Accounts(s)
  {
    if CanStep(s, c) {
      forall t: nat | t < |s.threads| ensures Accounts(Next(s, c))[t] == Accounts(s)[t] { AccountKept(s, c, t); }
    }
  }

  /** Of every thread, what it has linked followed by what it has still to enqueue is what its program enqueues. */
  lemma ReachedSize(dummy: Addr, programs: seq<seq<Op>>, run: seq<Choice>)
    ensures |Reached(dummy, programs, run).threads| == |programs|
  {
    InitInv(dummy, programs);
    RunAccounts(Init(dummy, programs), run);
  }

  lemma ProgramOrder(dummy: Addr, programs: seq<seq<Op>>, run: seq<Choice>, t: nat)
    requires t < |programs|
    ensures var s := Reached(dummy, programs, run);
      |s.threads| == |programs| && Of(s.m.linked, t) + Rest(s.threads[t]) == Enqueued(programs[t])
  {
    var i, s := Init(dummy, programs), Reached(dummy, programs, run);
    InitInv(dummy, programs);
    forall x, c | Inv(x) ensures Inv(Next(x, c)) && Accounts(Next(x, c)) == Accounts(x) {
      InvKept(x, c);
      AccountsKept(x, c);
    }
    Conserved(Next, Inv, Accounts, i, run);
    assert |Accounts(s)| == |s.threads| && |Accounts(i)| == |programs|;
    assert Accounts(s)[t] == Account(s, t) && Accounts(i)[t] == Enqueued(programs[t]);
  }

  lemma AllDone(s: State)
    requires Inv(s) && forall c: Choice :: !CanStep(s, c)
    ensures forall t: nat :: t < |s.threads| ==> Finished(s.threads[t])
  {
    forall t: nat | t < |s.threads| ensures Finished(s.threads[t]) {
      if !Finished(s.threads[t]) {
        var c := Progress(s, t);
      }
    }
  }

  lemma NothingLeaked(s: State)
    requires Core(s) && forall t: nat :: t < |s.threads| ==> Finished(s.threads[t])
    ensures |s.m.heap| == 1 + |s.m.linked| - |s.m.taken|
  {
    PathAllocated(s.m.heap, s.m.chain);
    DistinctSize(s.m.chain);
    forall a | a in s.m.heap ensures a in s.m.chain {
      assert a in s.m.chain || SomeoneOwns(s, a);
    }
    assert Elements(s.m.chain) == s.m.heap.Keys;
    assert |s.m.heap| == |s.m.heap.Keys|;
    assert |s.m.linked| == |s.m.taken| + |Contents(s.m)|;
  }

  /** What the code needs to run: the statement belongs to the operation, and the node it accesses is allocated. */
  predicate Safe(m: Memory, th: Thread) {
    && (th.todo != [] && th.todo[0].Enqueue? ==> !Dequeuing(th.pc))
    && (th.todo != [] && th.todo[0].Dequeue? ==> !Enqueuing(th.pc))
    && (th.pc.LinkNext? ==> th.pc.last in m.heap)
    && (th.pc.LoadNext? ==> th.pc.current in m.heap)
    && (th.pc.Free? ==> th.pc.current in m.heap)
    && (th.pc.SetHead? ==> m.chain != [])
  }

  lemma AlwaysSafe(s: State, t: nat)
    requires Inv(s) && t < |s.threads|
    ensures Safe(s.m, s.threads[t])
  {
    assert Local(s.m, s.threads[t]) && OwnsOutside(s.m, s.threads[t]);
    PathAllocated(s.m.heap, s.m.chain);
    if s.threads[t].pc.LinkNext? {
      LinkSite(s, t);
    }
  }

  function Dequeues(todo: seq<Op>): nat { if todo == [] then 0 else One(todo[0].Dequeue?) + Dequeues(todo[1..]) }

  /** Dequeues that have yet to take a value or to find the queue empty. */
  function Unserved(th: Thread): nat {
    if (th.pc.UnlockEmpty? || th.pc.UnlockHead? || th.pc.Free?) && th.todo != [] then Dequeues(th.todo[1..])
    else Dequeues(th.todo)
  }

  /** Thread `t` finds the queue empty. */
  function FindsEmptyAs(t: nat): (State, Choice) -> bool {
    (s: State, c: Choice) => c.thread == t && FindsEmpty(s, c)
  }

  lemma ThreadServed(m: Memory, a: Thread, c: Choice)
    requires Enabled(m, a, c.addr) && Local(m, a) && !Execute(m, a, c).0.fault
    ensures var (m', b) := Execute(m, a, c);
      && (a.pc.SetHead? ==> Unserved(b) + 1 == Unserved(a) && exists v :: m'.taken == m.taken + [Call(c.thread, v)])
      && (!a.pc.SetHead? ==> m'.taken == m.taken)
      && (a.pc.LoadNext? && a.pc.current in m.heap && m.heap[a.pc.current].next.Null? ==>
            Unserved(b) + 1 == Unserved(a))
      && (!a.pc.SetHead? && !a.pc.LoadNext? ==> Unserved(b) == Unserved(a))
      && (a.pc.LoadNext? && a.pc.current in m.heap && m.heap[a.pc.current].next.Ptr? ==> Unserved(b) == Unserved(a))
  {
  }

  /** What thread `t` has not taken, and not found missing, of what its program dequeues. */
  ghost function UnservedOf(s: State, t: nat): int {
    if t < |s.threads| then |Of(s.m.taken, t)| + Unserved(s.threads[t]) else 0
  }

  lemma ServiceCounted(s: State, t: nat, c: Choice)
    requires Inv(s)
    ensures UnservedOf(Next(s, c), t) + One(FindsEmptyAs(t)(s, c)) == UnservedOf(s, t)
  {
    if CanStep(s, c) {
      var a := s.threads[c.thread];
      InvKept(s, c);
      assert Local(s.m, a);
      ThreadServed(s.m, a, c);
      AlwaysSafe(s, c.thread);
      if a.pc.SetHead? {
        var v :| Next(s, c).m.taken == s.m.taken + [Call(c.thread, v)];
        OneMore(s.m.taken, Call(c.thread, v), t);
      }
    }
  }

  /**
   In every run, of every thread: the values it has taken, the times it has found the queue empty, and the dequeues it
   has yet to serve so are the dequeues of its program.
   */
  lemma EveryDequeue(dummy: Addr, programs: seq<seq<Op>>, run: seq<Choice>, t: nat)
    requires t < |programs|
    ensures var i, s := Init(dummy, programs), Reached(dummy, programs, run);
      t < |s.threads| && |Of(s.m.taken, t)| + |Events(Next, FindsEmptyAs(t), i, run)| + Unserved(s.threads[t])
                         == Dequeues(programs[t])
  {
    ghost var meter := (x: State) => UnservedOf(x, t);
    InitInv(dummy, programs);
    ReachedSize(dummy, programs, run);
    forall x, c | Inv(x)
      ensures Inv(Next(x, c)) && meter(Next(x, c)) + (if FindsEmptyAs(t)(x, c) then 1 else 0) == meter(x)
    {
      InvKept(x, c);
      ServiceCounted(x, t, c);
    }
    Metered(Next, FindsEmptyAs(t), Inv, meter, Init(dummy, programs), run);
  }

  function AllUnserved(s: State): int { |s.m.taken| + Tally(s.threads, Unserved) }

  lemma AllServiceCounted(s: State, c: Choice)
    requires Inv(s)
    ensures AllUnserved(Next(s, c)) + One(FindsEmpty(s, c)) == AllUnserved(s)
  {
    if CanStep(s, c) {
      var a := s.threads[c.thread];
      InvKept(s, c);
      assert Local(s.m, a);
      ThreadServed(s.m, a, c);
      AlwaysSafe(s, c.thread);
      Update(s.threads, c.thread, Execute(s.m, a, c).1, Unserved);
    }
  }

  /** The same account for all threads together. */
  lemma AllDequeues(dummy: Addr, programs: seq<seq<Op>>, run: seq<Choice>)
    ensures var i, s := Init(dummy, programs), Reached(dummy, programs, run);
      |s.m.taken| + |Events(Next, FindsEmpty, i, run)| + Tally(s.threads, Unserved) == Tally(programs, Dequeues)
  {
    var i := Init(dummy, programs);
    InitInv(dummy, programs);
    forall x, c | Inv(x)
      ensures Inv(Next(x, c)) && AllUnserved(Next(x, c)) + (if FindsEmpty(x, c) then 1 else 0) == AllUnserved(x)
    {
      InvKept(x, c);
      AllServiceCounted(x, c);
    }
    Metered(Next, FindsEmpty, Inv, AllUnserved, i, run);
    Same(i.threads, Unserved, programs, Dequeues);
  }

  lemma StepBound(dummy: Addr, programs: seq<seq<Op>>, run: seq<Choice>)
    ensures |Events(Next, CanStep, Init(dummy, programs), run)| <= 7 * Tally(programs, Length)
    ensures Promised(Reached(dummy, programs, run)) == Tally(programs, Enqueues)
  {
    var i := Init(dummy, programs);
    InitInv(dummy, programs);
    RunAccounts(i, run);
    WorkAtStart(i.threads, programs);
    Same(i.threads, Pending, programs, Enqueues);
  }

  /** Thread `t` has linked what its program enqueues, and each of its dequeues took a value or found none. */
  ghost predicate Served(dummy: Addr, programs: seq<seq<Op>>, run: seq<Choice>, t: nat)
    requires t < |programs|
  {
    var s := Reached(dummy, programs, run);
    && Of(s.m.linked, t) == Enqueued(programs[t])
    && |Of(s.m.taken, t)| + |Events(Next, FindsEmptyAs(t), Init(dummy, programs), run)| == Dequeues(programs[t])
  }

  lemma ThreadCompletion(dummy: Addr, programs: seq<seq<Op>>, run: seq<Choice>, t: nat)
    requires var s := Reached(dummy, programs, run); t < |programs| && t < |s.threads| && Finished(s.threads[t])
    ensures Served(dummy, programs, run, t)
  {
    var s := Reached(dummy, programs, run);
    ProgramOrder(dummy, programs, run, t);
    EveryDequeue(dummy, programs, run, t);
    assert Of(s.m.linked, t) + [] == Of(s.m.linked, t);
  }

  /**
   Completion: a run executes at most 7 statements per operation, and where no thread can step, whatever `malloc` would
   return, every thread has finished and linked what its program enqueues, in that order, each of its dequeues has taken
   a value or found the queue empty, and exactly the nodes of the queue are allocated: one dummy and one for each
   value not dequeued.
   */
  lemma Completion(dummy: Addr, programs: seq<seq<Op>>, run: seq<Choice>)
    ensures var s := Reached(dummy, programs, run);
      && |Events(Next, CanStep, Init(dummy, programs), run)| <= 7 * Tally(programs, Length)
      && ((forall c: Choice :: !CanStep(s, c)) ==>
          && |s.threads| == |programs| && |s.m.linked| == Tally(programs, Enqueues)
          && |s.m.taken| + |Events(Next, FindsEmpty, Init(dummy, programs), run)| == Tally(programs, Dequeues)
          && (forall t: nat :: t < |programs| ==> Finished(s.threads[t]) && Served(dummy, programs, run, t))
          && |s.m.heap| == 1 + |s.m.linked| - |s.m.taken|)
  {
    var s := Reached(dummy, programs, run);
    ReachedInv(dummy, programs, run);
    ReachedSize(dummy, programs, run);
    StepBound(dummy, programs, run);
    if forall c: Choice :: !CanStep(s, c) {
      AllDone(s);
      Zero(s.threads, Pending);
      AllDequeues(dummy, programs, run);
      Zero(s.threads, Unserved);
      forall t: nat | t < |programs| ensures Served(dummy, programs, run, t) {
        ThreadCompletion(dummy, programs, run, t);
      }
      NothingLeaked(s);
    }
  }

  lemma HasTask(s: State, t: nat)
    requires Inv(s) && t < |s.threads|
    ensures s.threads[t].pc.Idle? || s.threads[t].todo != []
  {
    assert Local(s.m, s.threads[t]);
  }

  // ---------- the queue itself, updated in place ----------

  class Queue {
    var heap: map<Addr, Node>
    var head: Addr
    var tail: Addr
    var headlock: bool
    var taillock: bool
    var threads: seq<Thread>
    ghost var chain: seq<Addr>
    ghost var linked: seq<Call>
    ghost var taken: seq<Call>

    ghost function Snapshot(): State
      reads this
    {
      State(Memory(heap, head, tail, headlock, taillock, false, chain, linked, taken), threads)
    }

    ghost predicate Valid()
      reads this
    {
      Inv(Snapshot())
    }

    constructor (dummy: Addr, programs: seq<seq<Op>>)
      ensures Valid() && Snapshot() == Init(dummy, programs)
    {
      heap := map[dummy := Node(0, Null)];
      head, tail := dummy, dummy;
      headlock, taillock := false, false;
      threads := Init(dummy, programs).threads;
      chain, linked, taken := [dummy], [], [];
      new;
      InitInv(dummy, programs);
    }

    method Goto(t: nat, pc: Pc)
      requires t < |threads|
      modifies this`threads
      ensures threads == old(threads)[t := old(threads)[t].(pc := pc)]
    {
      threads := threads[t := threads[t].(pc := pc)];
    }

    /** The next statement of `enqueue` in thread `t`; `addr` is what `malloc` returns. */
    method Enqueue(t: nat, addr: Addr)
      requires CanStep(Snapshot(), Choice(t, addr)) && Safe(Snapshot().m, threads[t])
      requires threads[t].todo != [] && threads[t].todo[0].Enqueue?
      modifies this
      ensures Snapshot() == Next(old(Snapshot()), Choice(t, addr))
    {
      ghost var s' := Next(Snapshot(), Choice(t, addr));
      match threads[t].pc {
        case Idle =>
          heap := heap[addr := Node(threads[t].todo[0].value, Null)];
          Goto(t, LockTail(addr));
        case LockTail(tmp) => taillock := true; Goto(t, LoadTail(tmp));
        case LoadTail(tmp) => Goto(t, LinkNext(tmp, tail));
        case LinkNext(tmp, last) =>
          chain, linked := chain + [tmp], linked + [Call(t, ValueAt(heap, tmp))];
          heap := heap[last := heap[last].(next := Ptr(tmp))];
          Goto(t, SetTail(tmp));
        case SetTail(tmp) => tail := tmp; Goto(t, UnlockTail);
        case UnlockTail =>
          taillock := false;
          threads := threads[t := Thread(Idle, threads[t].todo[1..])];
      }
      assert Snapshot() == s';
    }

    /** The next statement of `dequeue` in thread `t`. */
    method Dequeue(t: nat, ghost addr: Addr)
      requires CanStep(Snapshot(), Choice(t, addr)) && Safe(Snapshot().m, threads[t])
      requires threads[t].todo != [] && threads[t].todo[0].Dequeue?
      modifies this
      ensures Snapshot() == Next(old(Snapshot()), Choice(t, addr))
    {
      ghost var s' := Next(Snapshot(), Choice(t, addr));
      match threads[t].pc {
        case Idle => headlock := true; Goto(t, LoadHead);
        case LoadHead => Goto(t, LoadNext(head));
        case LoadNext(current) =>
          if heap[current].next.Null? {
            Goto(t, UnlockEmpty);
          } else {
            Goto(t, SetHead(current, heap[current].next.addr));
          }
        case UnlockEmpty =>
          headlock := false;
          threads := threads[t := Thread(Idle, threads[t].todo[1..])];
        case SetHead(current, newHead) =>
          head := newHead;
          chain, taken := chain[1..], taken + [Call(t, ValueAt(heap, newHead))];
          Goto(t, UnlockHead(current));
        case UnlockHead(current) => headlock := false; Goto(t, Free(current));
        case Free(current) =>
          heap := heap - {current};
          threads := threads[t := Thread(Idle, threads[t].todo[1..])];
      }
      assert Snapshot() == s';
    }

    /** A thread executes its next statement, which in a valid queue always finds the memory it needs. */
    method Step(t: nat, addr: Addr)
      requires Valid() && CanStep(Snapshot(), Choice(t, addr))
      modifies this
      ensures Valid() && Snapshot() == Next(old(Snapshot()), Choice(t, addr))
    {
      InvKept(Snapshot(), Choice(t, addr));
      AlwaysSafe(Snapshot(), t);
      HasTask(Snapshot(), t);
      if threads[t].todo[0].Enqueue? {
        Enqueue(t, addr);
      } else {
        Dequeue(t, addr);
      }
    }
  }
}
