/** The whole server: any number of connections behind one registry lock, each with its own queue lock, and
    any number of threads that go from one to another. */
module WsServer {
  import opened Text
  import opened Frames
  import opened WsModel
  import opened WsLocks
  import opened WsWire
  import opened WsTheorems
  import opened WsFailure
  import opened WsOpening

  /** In the code of which connection a thread is, if of any, and where. */
  datatype Place = Place(conn: Option<nat>, pc: PC)

  datatype Server = Server(places: seq<Place>, registryLock: Option<nat>, conns: seq<Shared>)

  /** Threads and no connection. */
  function Empty(threads: nat): Server { Server(seq(threads, t => Place(None, Idle)), None, []) }

  /** What a thread in the code of `conn` shares with others there; the registry lock is the one of the server. */
  function DataAt(w: Server, conn: Option<nat>): Shared {
    (if conn.Some? && conn.value < |w.conns| then w.conns[conn.value] else Fresh(0)).(registryLock := w.registryLock)
  }

  function WithData(w: Server, conn: Option<nat>, d: Shared): Server {
    w.(registryLock := d.registryLock,
       conns := if conn.Some? && conn.value < |w.conns| then w.conns[conn.value := d] else w.conns)
  }

  function Move(w: Server, t: nat, conn: Option<nat>, n: Next): Server
    requires t < |w.places|
  {
    WithData(w, conn, n.d).(places := w.places[t := Place(conn, n.pc)])
  }

  // ----- events -----

  datatype Event =
    | Create(t: nat)                     // an idle thread makes a connection
    | Stray(t: nat)                      // an idle thread calls with an id nobody has
    | Step(t: nat)                       // a thread takes its next step, wherever it is
    | Inside(conn: nat, action: Action)  // a call, a handler or a completion for one connection

  predicate CanStep(w: Server, t: nat) { t < |w.places| && CanGo(DataAt(w, w.places[t].conn), w.places[t].pc) }

  predicate IsIdle(w: Server, t: nat) { t < |w.places| && w.places[t].pc.Idle? }

  predicate Possible(w: Server, e: Event) {
    match e
    case Create(t) => IsIdle(w, t)
    case Stray(t) => IsIdle(w, t)
    case Step(t) => CanStep(w, t)
    case Inside(j, a) =>
      && j < |w.conns| && !a.Go? && !a.CallElsewhere? && (ByThreadAction(a) ==> IsIdle(w, a.t))
      && Enabled(SeenFrom(w, j), a)
  }

  function Happen(w: Server, e: Event): Server
    requires Possible(w, e)
  {
    match e
    case Create(t) => w.(places := w.places[t := Place(Some(|w.conns|), AddWait)], conns := w.conns + [Fresh(t)])
    case Stray(t) => w.(places := w.places[t := Place(None, WaitElsewhere)])
    case Step(t) => Move(w, t, w.places[t].conn, GoThread(DataAt(w, w.places[t].conn), w.places[t].pc, t))
    case Inside(j, a) =>
      if ByThreadAction(a) then Move(w, a.t, Some(j), ThreadNext(SeenFrom(w, j), a))
      else WithData(w, Some(j), Outside(DataAt(w, Some(j)), a))
  }

  predicate IsServerRun(w: Server, es: seq<Event>)
    decreases |es|
  {
    es == [] || (Possible(w, es[0]) && IsServerRun(Happen(w, es[0]), es[1..]))
  }

  function HappenAll(w: Server, es: seq<Event>): Server
    requires IsServerRun(w, es)
    decreases |es|
  {
    if es == [] then w else HappenAll(Happen(w, es[0]), es[1..])
  }

  ghost predicate ServerReachable(w: Server) {
    exists threads: nat, es :: IsServerRun(Empty(threads), es) && HappenAll(Empty(threads), es) == w
  }

  // ----- one connection seen by itself -----

  /** A thread in the code of another connection: all one sees is whether it holds the registry lock. */
  function FromOutside(pc: PC): PC {
    if pc.AddWait? || pc.WaitRegistry? || pc.WaitElsewhere? then WaitElsewhere
    else if pc.UnlockRegistry? || pc.AddUnlock? then UnlockRegistry
    else if HoldsRegistry(pc) then OtherWork
    else Idle
  }

  function Seen(p: Place, j: nat): PC { if p.conn == Some(j) then p.pc else FromOutside(p.pc) }

  function SeenAll(places: seq<Place>, j: nat): (pcs: seq<PC>)
    ensures |pcs| == |places| && forall t :: 0 <= t < |places| ==> pcs[t] == Seen(places[t], j)
  {
    seq(|places|, t requires 0 <= t < |places| => Seen(places[t], j))
  }

  function SeenFrom(w: Server, j: nat): Sys { Sys(SeenAll(w.places, j), DataAt(w, Some(j))) }

  lemma SeenMoved(places: seq<Place>, t: nat, p: Place, j: nat)
    requires t < |places|
    ensures SeenAll(places[t := p], j) == SeenAll(places, j)[t := Seen(p, j)]
  {
  }

  lemma FromOutsideIsOutsider(pc: PC)
    ensures Outsider(FromOutside(pc)) && HoldsRegistry(FromOutside(pc)) == HoldsRegistry(pc)
    ensures !HoldsQueue(FromOutside(pc)) && (Outsider(pc) ==> FromOutside(pc) == pc)
  {
  }

  // ----- what the server keeps -----

  ghost predicate RegistryHeld(w: Server) {
    && (w.registryLock.Some? ==> w.registryLock.value < |w.places|)
    && (forall t :: 0 <= t < |w.places| ==> (HoldsRegistry(w.places[t].pc) <==> w.registryLock == Some(t)))
  }

  predicate PlacesOk(w: Server) {
    forall t :: 0 <= t < |w.places| ==>
      (if w.places[t].conn.Some? then w.places[t].conn.value < |w.conns| else Outsider(w.places[t].pc))
  }

  ghost predicate AllReachable(w: Server) { forall j :: 0 <= j < |w.conns| ==> Reachable(SeenFrom(w, j)) }

  ghost predicate ServerOk(w: Server) { RegistryHeld(w) && PlacesOk(w) && AllReachable(w) }

  /** A step in the code of another connection is seen as no step or as one of an outsider. */
  predicate SeenStep(pc: PC, pc': PC, lock: Option<nat>, lock': Option<nat>, t: nat) {
    var f, f' := FromOutside(pc), FromOutside(pc');
    || (f' == f && lock' == lock)
    || (f.WaitElsewhere? && lock == None && f'.OtherWork? && lock' == Some(t))
    || (f.OtherWork? && f'.UnlockRegistry? && lock' == lock)
    || (f.UnlockRegistry? && f'.Idle? && lock' == None)
  }

  lemma StepSeen(d: Shared, pc: PC, t: nat)
    requires CanGo(d, pc)
    ensures SeenStep(pc, GoThread(d, pc, t).pc, d.registryLock, GoThread(d, pc, t).d.registryLock, t)
  {
    if pc.Stopping? { StopSeen(d, pc, t); }
    else if InForward(pc) { ForwardSeen(d, pc, t); }
    else if InWrite(pc) { WriteSeen(d, pc, t); }
    else if InCreate(pc) { CreateSeen(d, pc, t); }
    else if InRelease(pc) { ReleaseSeen(d, pc, t); }
    else { HandlerSeen(d, pc, t); }
  }

  lemma StopSeen(d: Shared, pc: PC, t: nat)
    requires pc.Stopping?
    ensures SeenStep(pc, GoStop(d, pc, t).pc, d.registryLock, GoStop(d, pc, t).d.registryLock, t)
  {
  }

  lemma ForwardSeen(d: Shared, pc: PC, t: nat)
    requires CanGo(d, pc) && InForward(pc)
    ensures SeenStep(pc, GoForward(d, pc, t).pc, d.registryLock, GoForward(d, pc, t).d.registryLock, t)
  {
  }

  lemma WriteSeen(d: Shared, pc: PC, t: nat)
    requires CanGo(d, pc) && InWrite(pc)
    ensures SeenStep(pc, GoWrite(d, pc, t).pc, d.registryLock, GoWrite(d, pc, t).d.registryLock, t)
  {
  }

  lemma CreateSeen(d: Shared, pc: PC, t: nat)
    requires CanGo(d, pc) && InCreate(pc)
    ensures SeenStep(pc, GoCreate(d, pc, t).pc, d.registryLock, GoCreate(d, pc, t).d.registryLock, t)
  {
  }

  lemma ReleaseSeen(d: Shared, pc: PC, t: nat)
    requires CanGo(d, pc) && InRelease(pc)
    ensures SeenStep(pc, GoRelease(d, pc, t).pc, d.registryLock, GoRelease(d, pc, t).d.registryLock, t)
  {
  }

  lemma HandlerSeen(d: Shared, pc: PC, t: nat)
    requires CanGo(d, pc) && (InOkHandler(pc) || InErrHandler(pc))
    ensures var n := if InOkHandler(pc) then GoOkHandler(d, pc, t) else GoErrHandler(d, pc, t);
            SeenStep(pc, n.pc, d.registryLock, n.d.registryLock, t)
  {
  }

  /** What an outsider does is a step of the system, if it is any. */
  lemma OutsiderStep(s: Sys, t: nat, pc: PC, pc': PC, lock': Option<nat>)
    requires Reachable(s) && t < |s.pcs| && s.pcs[t] == FromOutside(pc)
    requires SeenStep(pc, pc', s.d.registryLock, lock', t)
    ensures Reachable(Sys(s.pcs[t := FromOutside(pc')], s.d.(registryLock := lock')))
  {
    var f, f' := FromOutside(pc), FromOutside(pc');
    if f' == f && lock' == s.d.registryLock {
      assert s.pcs[t := f'] == s.pcs;
    } else {
      StepForward(s.pcs, s.d, t, Next(f', s.d.(registryLock := lock')));
    }
  }

  // ----- events and the connections seen by themselves -----

  /** A thread moves in the code of connection `conn`, and connection `j` is another one. */
  lemma OtherSees(w: Server, t: nat, conn: Option<nat>, n: Next, j: nat)
    requires t < |w.places| && j < |w.conns| && conn != Some(j) && w.places[t].conn != Some(j)
    requires Reachable(SeenFrom(w, j)) && SeenStep(w.places[t].pc, n.pc, w.registryLock, n.d.registryLock, t)
    ensures Reachable(SeenFrom(Move(w, t, conn, n), j))
  {
    var s := SeenFrom(w, j);
    SeenMoved(w.places, t, Place(conn, n.pc), j);
    OutsiderStep(s, t, w.places[t].pc, n.pc, n.d.registryLock);
  }

  /** A thread moves in the code of connection `j` itself. */
  lemma OwnSees(w: Server, t: nat, n: Next, j: nat)
    requires t < |w.places| && j < |w.conns|
    ensures SeenFrom(Move(w, t, Some(j), n), j) == Sys(SeenFrom(w, j).pcs[t := n.pc], n.d)
  {
    SeenMoved(w.places, t, Place(Some(j), n.pc), j);
  }

  lemma StepKeepsReachable(w: Server, t: nat, j: nat)
    requires ServerOk(w) && CanStep(w, t) && j < |w.conns|
    ensures Reachable(SeenFrom(Happen(w, Step(t)), j))
  {
    var p := w.places[t];
    var n := GoThread(DataAt(w, p.conn), p.pc, t);
    if p.conn == Some(j) {
      OwnSees(w, t, n, j);
      ReachableStep(SeenFrom(w, j), Go(t));
    } else {
      StepSeen(DataAt(w, p.conn), p.pc, t);
      OtherSees(w, t, p.conn, n, j);
    }
  }

  /** An idle thread is idle for everybody. */
  lemma IdleForAll(w: Server, t: nat, j: nat)
    requires IsIdle(w, t)
    ensures SeenFrom(w, j).pcs[t] == Idle
  {
  }

  lemma ActionLeavesRegistry(s: Sys, a: Action)
    requires Enabled(s, a) && !a.Go? && !a.CallElsewhere?
    ensures ByThreadAction(a) ==>
              var n := ThreadNext(s, a);
              n.d.registryLock == s.d.registryLock && !HoldsRegistry(n.pc) && !Outsider(n.pc)
              && (FromOutside(n.pc).Idle? || n.pc.WaitRegistry?)
    ensures !ByThreadAction(a) ==> Outside(s.d, a).registryLock == s.d.registryLock
  {
  }

  /** What another connection sees of a call, a handler or a completion. */
  lemma InsideSeenByOther(w: Server, i: nat, a: Action, j: nat)
    requires ServerOk(w) && Possible(w, Inside(i, a)) && j < |w.conns| && j != i
    ensures Reachable(SeenFrom(Happen(w, Inside(i, a)), j))
  {
    var s := SeenFrom(w, j);
    ActionLeavesRegistry(SeenFrom(w, i), a);
    if ByThreadAction(a) {
      var n := ThreadNext(SeenFrom(w, i), a);
      SeenMoved(w.places, a.t, Place(Some(i), n.pc), j);
      IdleForAll(w, a.t, j);
      if n.pc.WaitRegistry? {
        ReachableStep(s, CallElsewhere(a.t));
      } else {
        assert s.pcs[a.t := Idle] == s.pcs;
      }
    }
  }

  lemma InsideKeepsReachable(w: Server, i: nat, a: Action, j: nat)
    requires ServerOk(w) && Possible(w, Inside(i, a)) && j < |w.conns|
    ensures Reachable(SeenFrom(Happen(w, Inside(i, a)), j))
  {
    if i == j {
      ReachableStep(SeenFrom(w, j), a);
      if ByThreadAction(a) { OwnSees(w, a.t, ThreadNext(SeenFrom(w, j), a), j); }
    } else {
      InsideSeenByOther(w, i, a, j);
    }
  }

  lemma StrayKeepsReachable(w: Server, t: nat, j: nat)
    requires ServerOk(w) && IsIdle(w, t) && j < |w.conns|
    ensures Reachable(SeenFrom(Happen(w, Stray(t)), j))
  {
    SeenMoved(w.places, t, Place(None, WaitElsewhere), j);
    IdleForAll(w, t, j);
    ReachableStep(SeenFrom(w, j), CallElsewhere(t));
  }

  lemma CreateKeepsReachable(w: Server, t: nat, j: nat)
    requires ServerOk(w) && IsIdle(w, t) && j < |w.conns|
    ensures Reachable(SeenFrom(Happen(w, Create(t)), j))
  {
    SeenMoved(w.places, t, Place(Some(|w.conns|), AddWait), j);
    IdleForAll(w, t, j);
    ReachableStep(SeenFrom(w, j), CallElsewhere(t));
  }

  /** To a new connection everybody but its creator is an outsider. */
  lemma NewIsInitial(w: Server, t: nat)
    requires ServerOk(w) && IsIdle(w, t)
    ensures Reachable(SeenFrom(Happen(w, Create(t)), |w.conns|))
  {
    var s := SeenFrom(Happen(w, Create(t)), |w.conns|);
    assert s.pcs[t] == AddWait;
    forall u | 0 <= u < |s.pcs| && u != t
      ensures Outsider(s.pcs[u]) && (HoldsRegistry(s.pcs[u]) <==> s.d.registryLock == Some(u))
    {
      FromOutsideIsOutsider(w.places[u].pc);
    }
    InitialReachable(s);
  }

  lemma AfterCreate(w: Server, t: nat, j: nat)
    requires ServerOk(w) && IsIdle(w, t) && j < |Happen(w, Create(t)).conns|
    ensures Reachable(SeenFrom(Happen(w, Create(t)), j))
  {
    if j < |w.conns| { CreateKeepsReachable(w, t, j); } else { NewIsInitial(w, t); }
  }

  /** Only creation adds a connection. */
  lemma ConnsStay(w: Server, e: Event)
    requires Possible(w, e) && !e.Create?
    ensures |Happen(w, e).conns| == |w.conns|
  {
  }

  lemma AfterOther(w: Server, e: Event, j: nat)
    requires ServerOk(w) && Possible(w, e) && !e.Create? && j < |w.conns|
    ensures Reachable(SeenFrom(Happen(w, e), j))
  {
    if e.Step? { StepKeepsReachable(w, e.t, j); }
    else if e.Inside? { InsideKeepsReachable(w, e.conn, e.action, j); }
    else { StrayKeepsReachable(w, e.t, j); }
  }

  lemma ReachableAfter(w: Server, e: Event, j: nat)
    requires ServerOk(w) && Possible(w, e) && j < |Happen(w, e).conns|
    ensures Reachable(SeenFrom(Happen(w, e), j))
  {
    if e.Create? {
      AfterCreate(w, e.t, j);
    } else {
      ConnsStay(w, e);
      AfterOther(w, e, j);
    }
  }

  lemma AllReachableKept(w: Server, e: Event)
    requires ServerOk(w) && Possible(w, e)
    ensures AllReachable(Happen(w, e))
  {
    var w' := Happen(w, e);
    forall j | 0 <= j < |w'.conns| ensures Reachable(SeenFrom(w', j)) { ReachableAfter(w, e, j); }
  }

  lemma RegistryKept(w: Server, e: Event)
    requires RegistryHeld(w) && Possible(w, e)
    ensures RegistryHeld(Happen(w, e))
  {
    if e.Step? { GoMovesLocks(DataAt(w, w.places[e.t].conn), w.places[e.t].pc, e.t); }
    else if e.Inside? { ActionLeavesRegistry(SeenFrom(w, e.conn), e.action); }
  }

  lemma PlacesKept(w: Server, e: Event)
    requires PlacesOk(w) && Possible(w, e)
    ensures PlacesOk(Happen(w, e))
  {
    if e.Step? && w.places[e.t].conn == None { OutsiderStays(DataAt(w, None), w.places[e.t].pc, e.t); }
  }

  lemma {:induction false} ServerOkOverRuns(w: Server, es: seq<Event>)
    requires ServerOk(w) && IsServerRun(w, es)
    ensures ServerOk(HappenAll(w, es))
    decreases |es|
  {
    if es == [] {
    } else {
      AllReachableKept(w, es[0]);
      RegistryKept(w, es[0]);
      PlacesKept(w, es[0]);
      ServerOkOverRuns(Happen(w, es[0]), es[1..]);
    }
  }

  /** Every connection of the server, seen by itself, is in a reachable state of the transition system of one
      connection, so that all theorems about it hold of every connection. */
  lemma ConnectionsAreReachable(w: Server)
    requires ServerReachable(w)
    ensures ServerOk(w)
  {
    var threads: nat, es :| IsServerRun(Empty(threads), es) && HappenAll(Empty(threads), es) == w;
    ServerOkOverRuns(Empty(threads), es);
  }

  /** End to end for the whole server: whatever goes on with other connections, the bytes of each are the
      beginning of the frames pushed to it, in the order in which `WSPush` got the registry lock, unless
      bytes went out behind a frame that a failed write had cut short. */
  lemma EveryConnectionDelivers(w: Server, j: nat)
    requires ServerReachable(w) && j < |w.conns|
    ensures var p := w.conns[j].past;
            && (!p.broken ==> p.pushed <= p.accepted && |p.accepted| <= |p.pushed| + 1)
            && (p.tags <= TagsOf(p.pushed) <==> !p.late)
            && (!p.late ==> p.wire <= EncodeAll(p.pushed) && Understand(p.wire).valid)
            && (!p.late ==> Understand(p.wire).messages == p.pushed[..WholeWithin(p.pushed, |p.wire|)])
  {
    ConnectionsAreReachable(w);
    var s := SeenFrom(w, j);
    StreamWholeExactly(s);
    if !s.d.past.late { StreamWhole(s); }
    if !s.d.past.broken { Delivery(s); }
  }

  // ----- ids -----

  /** A call names a connection only after `ws_onopen` was called with its id, before which the id, made
      fresh, is known to nobody outside the server. */
  predicate NamesKnownOnly(w: Server, es: seq<Event>)
    requires IsServerRun(w, es)
    decreases |es|
  {
    es == [] ||
    ((es[0].Inside? && es[0].action.Call? ==> w.conns[es[0].conn].past.opens > 0)
     && NamesKnownOnly(Happen(w, es[0]), es[1..]))
  }

  predicate NobodyGuessed(w: Server) { forall j :: 0 <= j < |w.conns| ==> !w.conns[j].past.guessed }

  lemma GuessedByCall(w: Server, e: Event)
    requires Possible(w, e) && NobodyGuessed(w)
    requires e.Inside? && e.action.Call? ==> w.conns[e.conn].past.opens > 0
    ensures NobodyGuessed(Happen(w, e))
  {
    if e.Step? { StepGuessesNothing(DataAt(w, w.places[e.t].conn), w.places[e.t].pc, e.t); }
  }

  lemma StepGuessesNothing(d: Shared, pc: PC, t: nat)
    requires CanGo(d, pc)
    ensures GoThread(d, pc, t).d.past.guessed == d.past.guessed
  {
    if InCreate(pc) {
      CreateGuessesNothing(d, pc, t);
    } else {
      OthersDoNotOpen(d, pc, t);
    }
  }

  lemma CreateGuessesNothing(d: Shared, pc: PC, t: nat)
    requires CanGo(d, pc) && InCreate(pc)
    ensures GoCreate(d, pc, t).d.past.guessed == d.past.guessed
  {
  }

  lemma {:induction false} NobodyGuesses(w: Server, es: seq<Event>)
    requires IsServerRun(w, es) && NamesKnownOnly(w, es) && NobodyGuessed(w)
    ensures NobodyGuessed(HappenAll(w, es))
    decreases |es|
  {
    if es == [] {
    } else {
      GuessedByCall(w, es[0]);
      NobodyGuesses(Happen(w, es[0]), es[1..]);
    }
  }

  /** In every run in which calls name known connections only, a connection that is closed, or was ever pushed
      to, has had its `ws_onopen` called, exactly once. */
  lemma OpenedFirst(threads: nat, es: seq<Event>, j: nat)
    requires IsServerRun(Empty(threads), es) && NamesKnownOnly(Empty(threads), es)
    requires j < |HappenAll(Empty(threads), es).conns|
    ensures var d := HappenAll(Empty(threads), es).conns[j];
            d.past.opens <= 1 && (d.closed || d.past.closes > 0 || d.past.accepted != [] ==> d.past.opens == 1)
  {
    var w := HappenAll(Empty(threads), es);
    NobodyGuesses(Empty(threads), es);
    assert ServerReachable(w);
    ConnectionsAreReachable(w);
    OpenedBeforeUse(SeenFrom(w, j));
  }

  // ----- locks of all connections -----

  /** Who waits holds no queue lock of any connection, and only a push waits with the registry lock. */
  lemma LockOrder(w: Server, t: nat)
    requires ServerReachable(w) && t < |w.places| && Blocked(DataAt(w, w.places[t].conn), w.places[t].pc)
    ensures forall j :: 0 <= j < |w.conns| ==> w.conns[j].queueLock != Some(t)
    ensures w.registryLock == Some(t) ==> w.places[t].pc.WaitQueue?
  {
    ConnectionsAreReachable(w);
    forall j | 0 <= j < |w.conns| ensures w.conns[j].queueLock != Some(t) {
      if w.conns[j].queueLock == Some(t) { QueueHolder(w, j, t); }
    }
  }

  /** The holder of a queue lock is in the code of that connection. */
  lemma QueueHolder(w: Server, j: nat, t: nat)
    requires ServerOk(w) && j < |w.conns| && w.conns[j].queueLock == Some(t)
    ensures t < |w.places| && w.places[t].conn == Some(j) && HoldsQueue(w.places[t].pc)
  {
    var s := SeenFrom(w, j);
    ReachableInv(s);
    assert HoldsQueue(s.pcs[t]);
    FromOutsideIsOutsider(w.places[t].pc);
  }

  /** A thread that does not wait can step. */
  lemma NotBlockedCanStep(w: Server, t: nat)
    requires ServerOk(w) && t < |w.places| && !w.places[t].pc.Idle?
    requires !Blocked(DataAt(w, w.places[t].conn), w.places[t].pc)
    ensures CanStep(w, t)
  {
    var p := w.places[t];
    if p.conn.Some? { AlwaysDefined(SeenFrom(w, p.conn.value), t); }
  }

  /** As long as some thread is inside the server, at whatever connection, some thread can take a step. */
  lemma DeadlockFree(w: Server, t: nat) returns (u: nat)
    requires ServerReachable(w) && t < |w.places| && !w.places[t].pc.Idle?
    ensures CanStep(w, u)
  {
    ConnectionsAreReachable(w);
    u := t;
    if Blocked(DataAt(w, w.places[u].conn), w.places[u].pc) && !AtQueue(w.places[u].pc) { u := w.registryLock.value; }
    if Blocked(DataAt(w, w.places[u].conn), w.places[u].pc) {
      var j := w.places[u].conn.value;
      u := w.conns[j].queueLock.value;
      QueueHolder(w, j, u);
    }
    NotBlockedCanStep(w, u);
  }

  predicate AtQueue(pc: PC) { pc.WaitQueue? || pc.WriteOkWait? || pc.WriteErrWait? }

  // ----- rest -----

  function TotalLeft(places: seq<Place>): nat {
    if places == [] then 0 else StepsLeft(places[0].pc) + TotalLeft(places[1..])
  }

  lemma {:induction false} TotalAfter(places: seq<Place>, t: nat, p: Place)
    requires t < |places|
    ensures TotalLeft(places[t := p]) == TotalLeft(places) - StepsLeft(places[t].pc) + StepsLeft(p.pc)
  {
    if t == 0 {
    } else {
      assert places[t := p][1..] == places[1..][t - 1 := p];
      TotalAfter(places[1..], t - 1, p);
    }
  }

  lemma StepShortens(w: Server, t: nat)
    requires CanStep(w, t)
    ensures TotalLeft(Happen(w, Step(t)).places) < TotalLeft(w.places)
  {
    var p := w.places[t];
    var n := GoThread(DataAt(w, p.conn), p.pc, t);
    GoShortens(DataAt(w, p.conn), p.pc, t);
    TotalAfter(w.places, t, Place(p.conn, n.pc));
  }

  /** Threads left to themselves take at most `TotalLeft` steps, whatever their order. */
  lemma {:induction false} StepsAreBounded(w: Server, es: seq<Event>)
    requires IsServerRun(w, es) && forall i :: 0 <= i < |es| ==> es[i].Step?
    ensures |es| + TotalLeft(HappenAll(w, es).places) <= TotalLeft(w.places)
    decreases |es|
  {
    if es == [] {
    } else {
      StepShortens(w, es[0].t);
      StepsAreBounded(Happen(w, es[0]), es[1..]);
    }
  }

  lemma ServerReachableStep(w: Server, e: Event)
    requires ServerReachable(w) && Possible(w, e)
    ensures ServerReachable(Happen(w, e))
  {
    var threads: nat, es :| IsServerRun(Empty(threads), es) && HappenAll(Empty(threads), es) == w;
    ServerRunOneMore(Empty(threads), es, e);
  }

  lemma {:induction false} ServerRunOneMore(w: Server, es: seq<Event>, e: Event)
    requires IsServerRun(w, es) && Possible(HappenAll(w, es), e)
    ensures IsServerRun(w, es + [e]) && HappenAll(w, es + [e]) == Happen(HappenAll(w, es), e)
    decreases |es|
  {
    if es == [] {
      assert ([] + [e])[1..] == [];
    } else {
      assert (es + [e])[1..] == es[1..] + [e];
      ServerRunOneMore(Happen(w, es[0]), es[1..], e);
    }
  }

  predicate AllIdle(w: Server) { forall t :: 0 <= t < |w.places| ==> w.places[t].pc.Idle? }

  /** As long as they are not all at rest there is a next step, so that every such run can be led to rest; by
      the bound above no order of steps leads anywhere else. */
  lemma {:induction false} ComeToRest(w: Server) returns (es: seq<Event>)
    requires ServerReachable(w)
    ensures IsServerRun(w, es) && (forall i :: 0 <= i < |es| ==> es[i].Step?) && |es| <= TotalLeft(w.places)
    ensures AllIdle(HappenAll(w, es))
    decreases TotalLeft(w.places)
  {
    if AllIdle(w) {
      es := [];
    } else {
      var t: nat :| t < |w.places| && !w.places[t].pc.Idle?;
      var u := DeadlockFree(w, t);
      StepShortens(w, u);
      ServerReachableStep(w, Step(u));
      var rest := ComeToRest(Happen(w, Step(u)));
      es := [Step(u)] + rest;
      assert es[1..] == rest;
    }
  }
}
