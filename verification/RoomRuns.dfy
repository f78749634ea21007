/**
 The room and the two locks once more, in the other direction: every run of the abstract room that its readers and
 writers have the loops for is a run of either lock, by letting one thread at a time come or go while all others rest.
 */
module RoomRuns {
  import opened Census
  import opened ReaderWriter
  import opened Runs

  predicate AtRest(m: Memory, th: Thread) { AtBegin(m, th) || th.pc.RRead? || th.pc.WLoad? }

  /** Has entered or left, and is on its way to where it rests. */
  predicate Settling(pc: Pc) { pc.RPostMutex? || pc.RTestOut? || pc.RPostLock? || pc.RPostMutexOut? }

  /** Where a thread at `pc` is going: from outside into the room, or from inside out of it. */
  ghost predicate Heads(pc: Pc, t: nat, a: Room, b: Room) {
    if WriterInside(pc) then b == a.(writers := a.writers - {t})
    else if IsWriter(pc) then a == Room({}, {}) && b == Room({}, {t})
    else if ReaderInside(pc) then b == a.(readers := a.readers - {t})
    else a.writers == {} && b == a.(readers := a.readers + {t})
  }

  /** Everybody but `t` is at rest, and `t` is on its way from the present room to `b`, or settling. */
  ghost predicate Moving(s: State, t: nat, b: Room) {
    && Inv(s) && t < |s.threads| && s.threads[t].left > 0
    && (Settling(s.threads[t].pc) || Heads(s.threads[t].pc, t, Occupants(s), b))
    && forall u: nat :: u < |s.threads| && u != t ==> AtRest(s.m, s.threads[u])
  }

  lemma MoverCanStep(s: State, t: nat, b: Room)
    requires Moving(s, t, b)
    ensures CanStep(s, t)
  {
    assert Local(s.m, s.threads[t]);
    forall u: nat | u < |s.threads| && u != t ensures !Bars(s, t, u) {
      assert Local(s.m, s.threads[u]);
      assert WriterInside(s.threads[u].pc) ==> u in Occupants(s).writers;
      assert ReaderInside(s.threads[u].pc) ==> u in Occupants(s).readers;
    }
    WaitsFor(s, t);
  }

  /** The step of the mover at which the room changes. */
  predicate Crosses(s: State, t: nat) {
    CanStep(s, t) && (EntersRead(s, t) || LeavesRead(s, t) || EntersWrite(s, t) || LeavesWrite(s, t))
  }

  lemma CrossingMoves(m: Memory, th: Thread)
    requires Enabled(m, th) && Local(m, th)
    ensures var a, b := th.pc, Execute(m, th).1.pc;
      var crosses := Enters(m, a) || a.RStoreOut? || a.WWaitLock? || a.WPostLock?;
      && (IsWriter(b) <==> IsWriter(a))
      && (crosses ==> !Settling(a) && (Settling(b) || AtRest(m, Execute(m, th).1)))
      && (!crosses && !Settling(a) ==>
            !Settling(b) && !AtRest(m, Execute(m, th).1)
            && (WriterInside(b) <==> WriterInside(a)) && (ReaderInside(b) <==> ReaderInside(a)))
      && (Settling(a) ==> Settling(b) || AtRest(m, Execute(m, th).1))
  {
  }

  lemma MoverStep(s: State, t: nat, b: Room)
    requires Moving(s, t, b)
    ensures CanStep(s, t)
    ensures var s' := Next(s, t);
      && Inv(s') && |s'.threads| == |s.threads|
      && Occupants(s') == (if Crosses(s, t) then b else Occupants(s))
      && (Crosses(s, t) || Settling(s.threads[t].pc) ==>
            Settling(s'.threads[t].pc) || AtRest(s'.m, s'.threads[t]))
      && (!Crosses(s, t) && !Settling(s.threads[t].pc) ==> Moving(s', t, b) && !AtRest(s'.m, s'.threads[t]))
  {
    MoverCanStep(s, t, b);
    assert Local(s.m, s.threads[t]);
    InvKept(s, t);
    ReadersStep(s, t);
    WritersStep(s, t);
    CrossingMoves(s.m, s.threads[t]);
    Deltas(s.m, s.threads[t]);
  }

  predicate Inside(a: Room, i: nat) { i in a.readers || i in a.writers }

  /** How often `i` is in the room, from the first of the rooms to the last. */
  function Visits(rooms: seq<Room>, i: nat): nat {
    if rooms == [] then 0
    else if |rooms| == 1 then One(Inside(rooms[0], i))
    else One(Inside(rooms[0], i) && !Inside(rooms[1], i)) + Visits(rooms[1..], i)
  }

  lemma {:induction false} InsideVisits(rooms: seq<Room>, i: nat)
    requires rooms != [] && Inside(rooms[0], i)
    ensures Visits(rooms, i) > 0
  {
    if |rooms| == 1 {
    } else if Inside(rooms[1], i) {
      InsideVisits(rooms[1..], i);
    }
  }

  /** The rooms without immediate repetitions. */
  function Changes(rooms: seq<Room>): seq<Room> {
    if |rooms| < 2 then rooms
    else if rooms[0] == rooms[1] then Changes(rooms[1..])
    else [rooms[0]] + Changes(rooms[1..])
  }

  /** The first `readers` threads are readers, and the `writers` after them writers. */
  predicate Fits(a: Room, readers: nat, writers: nat) {
    (forall i :: i in a.readers ==> i < readers) && (forall i :: i in a.writers ==> readers <= i < readers + writers)
  }

  predicate Peopled(rooms: seq<Room>, readers: nat, writers: nat) {
    forall k: nat :: k < |rooms| ==> Fits(rooms[k], readers, writers)
  }

  ghost predicate Roles(s: State, readers: nat, writers: nat) {
    && |s.threads| == readers + writers
    && forall u: nat :: u < |s.threads| ==> (IsWriter(s.threads[u].pc) <==> readers <= u)
  }

  /** How many of its visits the thread has yet to end. */
  function VisitsLeft(th: Thread): int {
    th.left - One(th.pc.RTestOut? || th.pc.RPostLock? || th.pc.RPostMutexOut?)
  }

  /** Every thread has as many visits left as the rooms ask for. */
  ghost predicate Enough(s: State, rooms: seq<Room>) {
    forall u: nat :: u < |s.threads| ==> Visits(rooms, u) <= VisitsLeft(s.threads[u])
  }

  ghost predicate Rested(s: State) {
    Inv(s) && forall u: nat :: u < |s.threads| ==> AtRest(s.m, s.threads[u])
  }

  ghost predicate Ready(s: State, rooms: seq<Room>, readers: nat, writers: nat) {
    && rooms != [] && rooms[0] == Occupants(s) && Steps(rooms)
    && Peopled(rooms, readers, writers) && Roles(s, readers, writers) && Enough(s, rooms)
  }

  function Target(rooms: seq<Room>): Room
    requires rooms != []
  {
    if |rooms| > 1 then rooms[1] else rooms[0]
  }

  /** Thread `t` is on its way to the next of the rooms, or settles in the first of them. */
  ghost predicate Towards(s: State, t: nat, rooms: seq<Room>)
    requires rooms != []
  {
    Moving(s, t, Target(rooms)) &&
    (Settling(s.threads[t].pc) || (|rooms| > 1 && rooms[1] != rooms[0]))
  }

  lemma NextMover(s: State, rooms: seq<Room>, readers: nat, writers: nat) returns (t: nat)
    requires Ready(s, rooms, readers, writers) && Rested(s) && |rooms| > 1 && rooms[1] != rooms[0]
    ensures Towards(s, t, rooms)
  {
    var a, b := rooms[0], rooms[0 + 1];
    assert SpecStep(a, b);
    t :| (t !in a.readers && a.writers == {} && b == a.(readers := a.readers + {t}))
      || (t in a.readers && b == a.(readers := a.readers - {t}))
      || (a == Room({}, {}) && b == Room({}, {t}))
      || (t in a.writers && b == a.(writers := a.writers - {t}));
    assert t in b.readers || t in b.writers || t in a.readers || t in a.writers;
    assert AtRest(s.m, s.threads[t]);
    if Inside(a, t) {
      InsideVisits(rooms, t);
    } else {
      InsideVisits(rooms[1..], t);
    }
  }

  lemma VisitsMove(m: Memory, th: Thread)
    requires Enabled(m, th) && Local(m, th)
    ensures VisitsLeft(Execute(m, th).1) + One(th.pc.RStoreOut? || th.pc.WPostLock?) == VisitsLeft(th)
  {
  }

  lemma LeaverVisits(s: State, t: nat, rooms: seq<Room>)
    requires Crosses(s, t) && |rooms| > 1 && rooms[0] == Occupants(s) && Heads(s.threads[t].pc, t, rooms[0], rooms[1])
    ensures Visits(rooms, t) == Visits(rooms[1..], t) + One(LeavesRead(s, t) || LeavesWrite(s, t))
  {
    assert Inside(rooms[0], t) <==> ReaderInside(s.threads[t].pc) || WriterInside(s.threads[t].pc);
  }

  lemma StillEnough(s: State, t: nat, rooms: seq<Room>)
    requires Inv(s) && CanStep(s, t) && rooms != [] && rooms[0] == Occupants(s) && Enough(s, rooms)
    requires Crosses(s, t) ==> |rooms| > 1 && Heads(s.threads[t].pc, t, rooms[0], rooms[1])
    ensures Enough(Next(s, t), if Crosses(s, t) then rooms[1..] else rooms)
  {
    assert Local(s.m, s.threads[t]);
    VisitsMove(s.m, s.threads[t]);
    if Crosses(s, t) {
      forall u: nat | u < |s.threads| && u != t ensures Visits(rooms[1..], u) == Visits(rooms, u) {
        assert Inside(rooms[1], u) <==> Inside(rooms[0], u);
      }
      LeaverVisits(s, t, rooms);
    }
  }

  lemma StepsRest(rooms: seq<Room>)
    requires rooms != [] && Steps(rooms)
    ensures Steps(rooms[1..])
  {
    forall k: nat | k + 1 < |rooms[1..]| ensures SpecStep(rooms[1..][k], rooms[1..][k + 1]) {
      assert SpecStep(rooms[k + 1], rooms[k + 1 + 1]);
    }
  }

  lemma RolesKept(s: State, t: nat, readers: nat, writers: nat)
    requires Inv(s) && Roles(s, readers, writers)
    ensures Roles(Next(s, t), readers, writers)
  {
    if CanStep(s, t) {
      assert Local(s.m, s.threads[t]);
      CrossingMoves(s.m, s.threads[t]);
    }
  }

  lemma StillReady(s: State, t: nat, rooms: seq<Room>, readers: nat, writers: nat)
    requires Ready(s, rooms, readers, writers) && Towards(s, t, rooms)
    ensures CanStep(s, t) && (Crosses(s, t) ==> |rooms| > 1)
    ensures Ready(Next(s, t), if Crosses(s, t) then rooms[1..] else rooms, readers, writers)
  {
    MoverStep(s, t, Target(rooms));
    assert Local(s.m, s.threads[t]);
    CrossingMoves(s.m, s.threads[t]);
    StillEnough(s, t, rooms);
    RolesKept(s, t, readers, writers);
    StepsRest(rooms);
  }

  lemma OthersRest(s: State, t: nat)
    requires Inv(s) && CanStep(s, t)
    requires forall u: nat :: u < |s.threads| && u != t ==> AtRest(s.m, s.threads[u])
    ensures var s' := Next(s, t); forall u: nat :: u < |s'.threads| && u != t ==> AtRest(s'.m, s'.threads[u])
  {
    assert Local(s.m, s.threads[t]);
    Deltas(s.m, s.threads[t]);
  }

  lemma ComesToRest(s: State, t: nat, rooms: seq<Room>)
    requires rooms != [] && Towards(s, t, rooms) && (Crosses(s, t) || Settling(s.threads[t].pc))
    requires Next(s, t).threads[t].left > 0 || AtRest(Next(s, t).m, Next(s, t).threads[t])
    ensures var s' := Next(s, t);
      && (forall any: Room :: Rested(s') || Moving(s', t, any)) && (Rested(s') || Settling(s'.threads[t].pc))
  {
    MoverStep(s, t, Target(rooms));
    OthersRest(s, t);
  }

  /** The mover crosses into the next room, settles, comes to rest, or goes on. */
  lemma GoesOn(s: State, t: nat, rooms: seq<Room>)
    requires rooms != [] && Towards(s, t, rooms) && (Crosses(s, t) ==> |rooms| > 1)
    requires Next(s, t).threads[t].left > 0 || AtRest(Next(s, t).m, Next(s, t).threads[t])
    ensures var s', rest := Next(s, t), if Crosses(s, t) then rooms[1..] else rooms;
      && (Rested(s') || Towards(s', t, rest))
      && (!Crosses(s, t) ==> if Settling(s.threads[t].pc) then Rested(s') || Settling(s'.threads[t].pc)
                             else !Rested(s') && !Settling(s'.threads[t].pc))
  {
    MoverStep(s, t, Target(rooms));
    if Crosses(s, t) || Settling(s.threads[t].pc) {
      ComesToRest(s, t, rooms);
    }
  }

  lemma LessWork(s: State, t: nat, b: Room)
    requires Moving(s, t, b)
    ensures var th, s' := s.threads[t], Next(s, t);
      WorkOf(s'.threads[t]) < WorkOf(th) && (s'.threads[t].left > 0 || AtRest(s'.m, s'.threads[t]))
  {
    MoverStep(s, t, b);
    assert Local(s.m, s.threads[t]);
    ThreadAccounts(s.m, s.threads[t]);
    assert Local(Next(s, t).m, Next(s, t).threads[t]);
  }

  /** One step in front of a run that goes through the rest of the rooms. */
  lemma Prepend(s: State, t: nat, run: seq<nat>, rooms: seq<Room>, crosses: bool)
    requires rooms != [] && rooms[0] == Occupants(s) && (crosses ==> |rooms| > 1)
    requires var rest := if crosses then rooms[1..] else rooms;
      Changes(Rooms(Next(s, t), run)) == Changes(rest) && rest[0] == Occupants(Next(s, t))
    ensures Changes(Rooms(s, [t] + run)) == Changes(rooms)
  {
    assert ([t] + run)[1..] == run;
    assert Rooms(s, [t] + run)[1..] == Rooms(Next(s, t), run);
    assert Rooms(Next(s, t), run)[0] == Occupants(Next(s, t));
  }

  lemma {:induction false} Realise(s: State, t: nat, rooms: seq<Room>, readers: nat, writers: nat)
    returns (run: seq<nat>)
    requires Ready(s, rooms, readers, writers) && (Rested(s) || Towards(s, t, rooms))
    ensures Changes(Rooms(s, run)) == Changes(rooms)
    decreases |rooms|, if Rested(s) then 1 else if Settling(s.threads[t].pc) then 2 else 0,
              if Rested(s) then 0 else WorkOf(s.threads[t])
  {
    if Rested(s) && |rooms| == 1 {
      run := [];
    } else if Rested(s) && rooms[1] == rooms[0] {
      run := Realise(s, t, rooms[1..], readers, writers);
    } else {
      var u := t;
      if Rested(s) {
        u := NextMover(s, rooms, readers, writers);
      }
      StillReady(s, u, rooms, readers, writers);
      LessWork(s, u, Target(rooms));
      GoesOn(s, u, rooms);
      run := Realise(Next(s, u), u, if Crosses(s, u) then rooms[1..] else rooms, readers, writers);
      Prepend(s, u, run, rooms, Crosses(s, u));
      run := [u] + run;
    }
  }

  lemma {:induction false} ChangesKeep(rooms: seq<Room>, readers: nat, writers: nat)
    requires rooms != [] && Steps(rooms) && Peopled(rooms, readers, writers)
    ensures Changes(rooms) != [] && Changes(rooms)[0] == rooms[0]
    ensures Steps(Changes(rooms)) && Peopled(Changes(rooms), readers, writers)
    ensures forall i: nat :: Visits(Changes(rooms), i) == Visits(rooms, i)
  {
    if |rooms| == 1 {
    } else {
      StepsRest(rooms);
      ChangesKeep(rooms[1..], readers, writers);
      if rooms[0] != rooms[1] {
        var a, rest := rooms[0], Changes(rooms[1..]);
        assert SpecStep(a, rooms[0 + 1]);
        StepsFrom(a, rest);
        assert ([a] + rest)[1..] == rest;
      }
    }
  }

  lemma {:induction false} ChangesTwice(rooms: seq<Room>)
    ensures Changes(Changes(rooms)) == Changes(rooms)
    ensures rooms != [] ==> Changes(rooms) != [] && Changes(rooms)[0] == rooms[0]
  {
    if |rooms| < 2 {
    } else {
      ChangesTwice(rooms[1..]);
      if rooms[0] != rooms[1] {
        assert ([rooms[0]] + Changes(rooms[1..]))[1..] == Changes(rooms[1..]);
      }
    }
  }

  lemma {:induction false} Absent(rooms: seq<Room>, i: nat, readers: nat, writers: nat)
    requires Peopled(rooms, readers, writers) && i >= readers + writers
    ensures Visits(rooms, i) == 0
  {
    if rooms == [] {
    } else {
      assert !Inside(rooms[0], i);
      Absent(rooms[1..], i, readers, writers);
    }
  }

  lemma OnlyOwnRooms(s: State, readers: nat, writers: nat)
    requires Inv(s) && Roles(s, readers, writers)
    ensures Peopled([Occupants(s)], readers, writers)
    ensures forall u: nat :: u < |s.threads| ==> One(Inside(Occupants(s), u)) <= VisitsLeft(s.threads[u])
  {
    forall u: nat | u < |s.threads| ensures One(Inside(Occupants(s), u)) <= VisitsLeft(s.threads[u]) {
      assert Local(s.m, s.threads[u]);
    }
  }

  /** A step ends a visit exactly if it uses one up. */
  lemma EndsVisit(s: State, t: nat, u: nat)
    requires Inv(s) && u < |s.threads|
    ensures u < |Next(s, t).threads|
    ensures var ends := Inside(Occupants(s), u) && !Inside(Occupants(Next(s, t)), u);
      VisitsLeft(Next(s, t).threads[u]) + One(ends) == VisitsLeft(s.threads[u])
  {
    if CanStep(s, t) {
      assert Local(s.m, s.threads[t]);
      VisitsMove(s.m, s.threads[t]);
      ReadersStep(s, t);
      WritersStep(s, t);
    }
  }

  /** A run visits no room that its threads are not made for, and nobody visits more often than it has loops left. */
  lemma {:induction false} RoomsAllowed(s: State, run: seq<nat>, readers: nat, writers: nat)
    requires Inv(s) && Roles(s, readers, writers)
    ensures Peopled(Rooms(s, run), readers, writers)
    ensures forall u: nat :: u < |s.threads| ==> Visits(Rooms(s, run), u) <= VisitsLeft(s.threads[u])
    decreases |run|
  {
    OnlyOwnRooms(s, readers, writers);
    if run == [] {
    } else {
      var s' := Next(s, run[0]);
      InvKept(s, run[0]);
      RolesKept(s, run[0], readers, writers);
      RoomsAllowed(s', run[1..], readers, writers);
      assert Rooms(s, run) == [Occupants(s)] + Rooms(s', run[1..]);
      assert Rooms(s, run)[1..] == Rooms(s', run[1..]) && Rooms(s', run[1..])[0] == Occupants(s');
      forall u: nat | u < |s.threads| ensures Visits(Rooms(s, run), u) <= VisitsLeft(s.threads[u]) {
        EndsVisit(s, run[0], u);
      }
    }
  }

  /** The runs of the abstract room that `readers` and `writers` with so many loops can make. */
  ghost predicate Admits(readers: nat, writers: nat, loops: nat, rooms: seq<Room>) {
    && SpecRun(rooms) && Changes(rooms) == rooms && Peopled(rooms, readers, writers)
    && forall i: nat :: Visits(rooms, i) <= loops
  }

  lemma InitRoom(noStarve: bool, readers: nat, writers: nat, loops: nat)
    ensures var s := Init(noStarve, readers, writers, loops);
      && Occupants(s) == Room({}, {}) && Roles(s, readers, writers) && |s.threads| == readers + writers
      && forall u: nat :: u < |s.threads| ==> AtRest(s.m, s.threads[u]) && VisitsLeft(s.threads[u]) == loops
  {
  }

  lemma VisitsAllowed(noStarve: bool, readers: nat, writers: nat, loops: nat, run: seq<nat>)
    ensures var rooms := Rooms(Init(noStarve, readers, writers, loops), run);
      Peopled(rooms, readers, writers) && forall i: nat :: Visits(rooms, i) <= loops
  {
    var s := Init(noStarve, readers, writers, loops);
    var rooms := Rooms(s, run);
    InitInv(noStarve, readers, writers, loops);
    InitRoom(noStarve, readers, writers, loops);
    RoomsAllowed(s, run, readers, writers);
    forall i: nat ensures Visits(rooms, i) <= loops {
      if i >= readers + writers {
        Absent(rooms, i, readers, writers);
      }
    }
  }

  lemma OnlyTheRoom(noStarve: bool, readers: nat, writers: nat, loops: nat, run: seq<nat>)
    ensures Admits(readers, writers, loops, Changes(Rooms(Init(noStarve, readers, writers, loops), run)))
  {
    var rooms := Rooms(Init(noStarve, readers, writers, loops), run);
    Refinement(noStarve, readers, writers, loops, run);
    VisitsAllowed(noStarve, readers, writers, loops, run);
    ChangesKeep(rooms, readers, writers);
    ChangesTwice(rooms);
  }

  lemma InitReady(noStarve: bool, readers: nat, writers: nat, loops: nat, rooms: seq<Room>)
    requires Admits(readers, writers, loops, rooms)
    ensures var s := Init(noStarve, readers, writers, loops);
      Rested(s) && Ready(s, rooms, readers, writers)
  {
    InitInv(noStarve, readers, writers, loops);
    InitRoom(noStarve, readers, writers, loops);
  }

  /**
   Both locks let through exactly the runs of the abstract room: those in which readers come and go as readers and
   writers as writers, and nobody more often than it has loops.
   */
  lemma ExactlyTheRoom(noStarve: bool, readers: nat, writers: nat, loops: nat, rooms: seq<Room>)
    ensures Admits(readers, writers, loops, rooms) <==>
      exists run :: Changes(Rooms(Init(noStarve, readers, writers, loops), run)) == rooms
  {
    var s := Init(noStarve, readers, writers, loops);
    if Admits(readers, writers, loops, rooms) {
      InitReady(noStarve, readers, writers, loops, rooms);
      var run := Realise(s, 0, rooms, readers, writers);
    } else if run :| Changes(Rooms(s, run)) == rooms {
      OnlyTheRoom(noStarve, readers, writers, loops, run);
    }
  }

  // ---------- all readers inside at once ----------

  /** The readers from `k` to `n` come in one after the other, to those before them. */
  function FillUp(k: nat, n: nat): seq<Room>
    requires k <= n
    decreases n - k
  {
    [Room(Below(k), {})] + if k == n then [] else FillUp(k + 1, n)
  }

  lemma OneMoreReader(k: nat)
    ensures var a, b := Room(Below(k), {}), Room(Below(k + 1), {}); SpecStep(a, b) && a != b
  {
    var a, b := Room(Below(k), {}), Room(Below(k + 1), {});
    assert k !in a.readers && k in b.readers;
    assert b == a.(readers := a.readers + {k});
  }

  lemma {:induction false} FillUpRun(k: nat, n: nat)
    requires k <= n
    ensures Steps(FillUp(k, n)) && Changes(FillUp(k, n)) == FillUp(k, n)
    decreases n - k
  {
    if k == n {
    } else {
      FillUpRun(k + 1, n);
      OneMoreReader(k);
      StepsFrom(Room(Below(k), {}), FillUp(k + 1, n));
      assert FillUp(k, n)[1..] == FillUp(k + 1, n);
    }
  }

  lemma {:induction false} FillUpPeopled(k: nat, n: nat, writers: nat)
    requires k <= n
    ensures Peopled(FillUp(k, n), n, writers)
    decreases n - k
  {
    if k == n {
    } else {
      FillUpPeopled(k + 1, n, writers);
      assert FillUp(k, n) == [Room(Below(k), {})] + FillUp(k + 1, n);
    }
  }

  lemma {:induction false} FillUpVisits(k: nat, n: nat, i: nat)
    requires k <= n
    ensures Visits(FillUp(k, n), i) <= 1
    ensures FillUp(k, n)[|FillUp(k, n)| - 1] == Room(Below(n), {})
    decreases n - k
  {
    if k == n {
    } else {
      FillUpVisits(k + 1, n, i);
      assert FillUp(k, n)[1..] == FillUp(k + 1, n);
    }
  }

  lemma {:induction false} LastRoom(rooms: seq<Room>)
    requires rooms != []
    ensures Changes(rooms) != [] && Changes(rooms)[|Changes(rooms)| - 1] == rooms[|rooms| - 1]
  {
    if |rooms| == 1 {
    } else {
      LastRoom(rooms[1..]);
    }
  }

  /** Readers do not keep each other out: either lock has a run after which all of them are inside. */
  lemma FullHouse(noStarve: bool, readers: nat, writers: nat, loops: nat) returns (run: seq<nat>)
    requires loops > 0
    ensures Occupants(Reached(noStarve, readers, writers, loops, run)) == Room(Below(readers), {})
  {
    var s, rooms := Init(noStarve, readers, writers, loops), FillUp(0, readers);
    FillUpRun(0, readers);
    FillUpPeopled(0, readers, writers);
    forall i: nat ensures Visits(rooms, i) <= 1 { FillUpVisits(0, readers, i); }
    ExactlyTheRoom(noStarve, readers, writers, loops, rooms);
    run :| Changes(Rooms(s, run)) == rooms;
    FillUpVisits(0, readers, 0);
    InitInv(noStarve, readers, writers, loops);
    RefinesRun(s, run);
    LastRoom(Rooms(s, run));
  }
}
