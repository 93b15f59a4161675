/** What the push path keeps over every interleaving. */
module WsTheorems {
  import opened Text
  import opened Frames
  import opened WsModel
  import opened WsLocks
  import opened WsQueue
  import opened WsHistory
  import opened WsWire
  import opened WsClosing

  ghost predicate Inv(s: Sys) {
    && LocksHeld(s) && OwnersExact(s)
    && QueueOk(s) && CapOk(s)
    && CarriedOk(s) && Conserved(s.d) && OpsOk(s.d) && InOrder(s.d) && CallOrder(s)
    && WireFollows(s.d) && WireShows(s.d) && CutByFailure(s.d)
    && ClosesOnce(s) && DestroyedOnce(s)
  }

  lemma InitialInv(s: Sys)
    requires IsInitial(s)
    ensures Inv(s)
  {
    InitialHistory(s);
    InitialLocks(s);
    InitialEnds(s);
  }

  lemma InitialEnds(s: Sys)
    requires IsInitial(s)
    ensures ClosesOnce(s) && DestroyedOnce(s)
  {
  }

  lemma InitialLocks(s: Sys)
    requires IsInitial(s)
    ensures LocksHeld(s) && OwnersExact(s) && QueueOk(s) && CapOk(s) && CallOrder(s)
  {
  }

  lemma InitialHistory(s: Sys)
    requires IsInitial(s)
    ensures CarriedOk(s) && Conserved(s.d) && OpsOk(s.d) && InOrder(s.d)
    ensures WireFollows(s.d) && WireShows(s.d) && CutByFailure(s.d)
  {
    assert EncodeAll([]) == [];
  }

  lemma InvKept(s: Sys, a: Action)
    requires Inv(s) && Enabled(s, a)
    ensures Inv(Apply(s, a))
  {
    LocksKept(s, a);
    OwnersKept(s, a);
    QueueKept(s, a);
    CapKept(s, a);
    CarriedKept(s, a);
    ConservedKept(s, a);
    OpsKept(s, a);
    OrderKept(s, a);
    WireFollowsKept(s, a);
    WireShowsKept(s, a);
    CutByFailureKept(s, a);
    CallOrderKept(s, a);
    ClosesOnceKept(s, a);
    DestroyedOnceKept(s, a);
  }

  lemma {:induction false} InvOverRuns(s: Sys, acts: seq<Action>)
    requires Inv(s) && IsRun(s, acts)
    ensures Inv(RunAll(s, acts))
    decreases |acts|
  {
    if acts == [] {
    } else {
      InvKept(s, acts[0]);
      InvOverRuns(Apply(s, acts[0]), acts[1..]);
    }
  }

  lemma ReachableInv(s: Sys)
    requires Reachable(s)
    ensures Inv(s)
  {
    var s0, acts :| IsInitial(s0) && IsRun(s0, acts) && RunAll(s0, acts) == s;
    InitialInv(s0);
    InvOverRuns(s0, acts);
  }

  lemma ReachableStep(s: Sys, a: Action)
    requires Reachable(s) && Enabled(s, a)
    ensures Reachable(Apply(s, a))
  {
    var s0, acts :| IsInitial(s0) && IsRun(s0, acts) && RunAll(s0, acts) == s;
    RunOneMore(s0, acts, a);
  }

  lemma {:induction false} RunOneMore(s: Sys, acts: seq<Action>, a: Action)
    requires IsRun(s, acts) && Enabled(RunAll(s, acts), a)
    ensures IsRun(s, acts + [a]) && RunAll(s, acts + [a]) == Apply(RunAll(s, acts), a)
    decreases |acts|
  {
    if acts == [] {
      assert ([] + [a])[1..] == [];
    } else {
      assert (acts + [a])[1..] == acts[1..] + [a];
      RunOneMore(Apply(s, acts[0]), acts[1..], a);
    }
  }

  lemma InitialReachable(s: Sys)
    requires IsInitial(s)
    ensures Reachable(s)
  {
    assert IsRun(s, []) && RunAll(s, []) == s;
  }

  // ----- the queue -----

  /** Whenever the queue lock is free there is one write, pending or waiting for its handler, if the
      queue is not empty, and none otherwise; it is of the unmodified front element. */
  lemma SingleWrite(s: Sys)
    requires Reachable(s) && s.d.queueLock == None
    ensures |s.d.writes| == if s.d.queue == [] then 0 else 1
    ensures forall k :: k in s.d.writes ==> s.d.queue != [] && s.d.writes[k].frame == s.d.queue[0]
  {
    ReachableInv(s);
    if s.d.queue != [] {
      assert |s.d.writes.Keys| == |{s.d.ops - 1}|;
      assert |s.d.writes| == |s.d.writes.Keys|;
    }
  }

  /** Every pushed message is either still queued, or its frame was written out, or it was dropped at a
      failed write; written frames keep the order of the pushes and none is written twice. */
  lemma Conservation(s: Sys, i: nat)
    requires Reachable(s) && i < |s.d.past.pushed|
    ensures var f := FrameOf(s.d.past.pushed, i);
            && (f in s.d.queue || f in s.d.past.sent || f in s.d.past.dropped)
            && !(f in s.d.queue && f in s.d.past.sent)
            && !(f in s.d.queue && f in s.d.past.dropped)
            && !(f in s.d.past.sent && f in s.d.past.dropped)
    ensures Ascending(s.d.past.sent)
    ensures forall f :: f in s.d.past.sent ==> f.id < |s.d.past.pushed| && f == FrameOf(s.d.past.pushed, f.id)
  {
    ReachableInv(s);
    InExactlyOne(s.d, i);
  }

  lemma InExactlyOne(d: Shared, i: nat)
    requires Conserved(d) && i < |d.past.pushed|
    ensures var f := FrameOf(d.past.pushed, i);
            && (f in d.queue || f in d.past.sent || f in d.past.dropped)
            && !(f in d.queue && f in d.past.sent)
            && !(f in d.queue && f in d.past.dropped)
            && !(f in d.past.sent && f in d.past.dropped)
  {
    var n, pushed := Left(d), d.past.pushed;
    InQueueExactly(d.queue, pushed, n, i);
    GoneExactly(d.past.sent, pushed, n, i);
    GoneExactly(d.past.dropped, pushed, n, i);
  }

  /** The queue has the frames from number `n` on. */
  lemma InQueueExactly(queue: seq<Queued>, pushed: seq<Message>, n: nat, i: nat)
    requires i < |pushed| && IsTail(queue, pushed, n)
    ensures FrameOf(pushed, i) in queue <==> n <= i
  {
    if n <= i {
      assert queue[i - n] == FrameOf(pushed, i);
    }
  }

  /** A list of frames that left the queue has a frame exactly if it has its number, which is below `n`. */
  lemma GoneExactly(fs: seq<Queued>, pushed: seq<Message>, n: nat, i: nat)
    requires n <= |pushed| && i < |pushed| && FramesBefore(fs, pushed, n)
    ensures FrameOf(pushed, i) in fs <==> i in Ids(fs)
    ensures i in Ids(fs) ==> i < n
  {
    if i in Ids(fs) {
      var f :| f in fs && f.id == i;
      assert f == FrameOf(pushed, i);
    }
  }

  /** End to end: until a write fails, the frames written and the queue are all pushes in order, and
      from the bytes on the wire a client understands exactly the first messages, as many as have
      their frames out whole; the pushes are in the order in which `WSPush` got the registry lock. */
  lemma Delivery(s: Sys)
    requires Reachable(s) && !s.d.past.broken
    ensures var p := s.d.past;
            && |p.sent| + |s.d.queue| == |p.pushed|
            && (forall i :: 0 <= i < |p.pushed| ==> (p.sent + s.d.queue)[i] == FrameOf(p.pushed, i))
            && p.wire <= EncodeAll(p.pushed)
            && Understand(p.wire).valid
            && Understand(p.wire).messages == p.pushed[..WholeWithin(p.pushed, |p.wire|)]
            && p.pushed <= p.accepted && |p.accepted| <= |p.pushed| + 1
  {
    ReachableInv(s);
    SentThenQueue(s.d);
    WireIsBeginning(s);
    UnderstandBeginning(s.d.past.pushed, s.d.past.wire);
  }

  lemma SentThenQueue(d: Shared)
    requires Conserved(d) && InOrder(d) && !d.past.broken
    ensures |d.past.sent| + |d.queue| == |d.past.pushed|
    ensures forall i :: 0 <= i < |d.past.pushed| ==> (d.past.sent + d.queue)[i] == FrameOf(d.past.pushed, i)
  {
    AscendingIsAll(d.past.sent, d.past.pushed, Left(d));
    FrontAndTail(d.past.sent, d.queue, d.past.pushed, Left(d));
  }

  lemma FrontAndTail(sent: seq<Queued>, queue: seq<Queued>, pushed: seq<Message>, n: nat)
    requires |sent| == n && IsTail(queue, pushed, n) && forall i :: 0 <= i < n ==> sent[i] == FrameOf(pushed, i)
    ensures |sent + queue| == |pushed| && forall i :: 0 <= i < |pushed| ==> (sent + queue)[i] == FrameOf(pushed, i)
  {
    forall i | 0 <= i < |pushed| ensures (sent + queue)[i] == FrameOf(pushed, i) {
      if i < n {
        assert sent[i] == FrameOf(pushed, i);
      } else {
        TailAt(queue, pushed, n, i);
      }
    }
  }

  lemma TailAt(queue: seq<Queued>, pushed: seq<Message>, n: nat, i: nat)
    requires n <= i < |pushed| && IsTail(queue, pushed, n)
    ensures queue[i - n] == FrameOf(pushed, i)
  {
    var k := i - n;
    assert queue[k] == FrameOf(pushed, n + k);
  }

  lemma WireIsBeginning(s: Sys)
    requires Inv(s) && !s.d.past.broken
    ensures s.d.past.wire <= EncodeAll(s.d.past.pushed)
  {
    PartialOfFront(s);
    EncodeAllSplit(s.d.past.pushed, Left(s.d));
  }

  /** As many ascending numbers below `n` as there are: all of them. */
  lemma {:induction false} AscendingIsAll(fs: seq<Queued>, pushed: seq<Message>, n: nat)
    requires n <= |pushed| && |fs| == n && Ascending(fs) && FramesBefore(fs, pushed, n)
    ensures forall i :: 0 <= i < n ==> fs[i] == FrameOf(pushed, i)
    decreases n
  {
    if n == 0 {
    } else {
      AllButLast(fs, pushed, n);
      AscendingIsAll(fs[..n - 1], pushed, n - 1);
      LastIsLast(fs, pushed, n);
    }
  }

  lemma AllButLast(fs: seq<Queued>, pushed: seq<Message>, n: nat)
    requires 0 < n <= |pushed| && |fs| == n && Ascending(fs) && FramesBefore(fs, pushed, n)
    ensures Ascending(fs[..n - 1]) && FramesBefore(fs[..n - 1], pushed, n - 1)
  {
    var gs := fs[..n - 1];
    forall i | 0 <= i < n - 1 ensures gs[i].id < n - 1 && gs[i] == FrameOf(pushed, gs[i].id) {
      assert gs[i] == fs[i] && fs[i].id < fs[n - 1].id;
    }
  }

  lemma LastIsLast(fs: seq<Queued>, pushed: seq<Message>, n: nat)
    requires 0 < n <= |pushed| && |fs| == n && Ascending(fs) && FramesBefore(fs, pushed, n)
    requires forall i :: 0 <= i < n - 1 ==> fs[..n - 1][i] == FrameOf(pushed, i)
    ensures forall i :: 0 <= i < n ==> fs[i] == FrameOf(pushed, i)
  {
    assert forall i :: 0 <= i < n - 1 ==> fs[i] == fs[..n - 1][i];
    assert n >= 2 ==> fs[n - 2].id == n - 2 && fs[n - 2].id < fs[n - 1].id;
    assert fs[n - 1].id == n - 1;
  }

  lemma {:induction false} EncodeAllSplit(ms: seq<Message>, n: nat)
    requires n <= |ms|
    ensures EncodeAll(ms) == EncodeAll(ms[..n]) + EncodeAll(ms[n..])
  {
    if n == 0 {
      assert ms[..0] == [] && ms[0..] == ms;
    } else {
      EncodeAllSplit(ms[1..], n - 1);
      SplitBehindFirst(ms, n);
      var e, a, b := Encode(ONE_FRAGMENT_TEXT, ms[0]), EncodeAll(ms[1..][..n - 1]), EncodeAll(ms[n..]);
      assert e + (a + b) == e + a + b;
    }
  }

  lemma SplitBehindFirst(ms: seq<Message>, n: nat)
    requires 0 < n <= |ms|
    ensures ms[..n][1..] == ms[1..][..n - 1] && ms[1..][n - 1..] == ms[n..] && ms[..n][0] == ms[0]
  {
  }

  lemma PartialOfFront(s: Sys)
    requires Inv(s)
    ensures var d := s.d;
            Partial(d) == [] || (Left(d) < |d.past.pushed| && Partial(d) <= EncodeAll(d.past.pushed[Left(d)..]))
  {
    var d := s.d;
    if Partial(d) != [] {
      assert d.ops - 1 in d.writes;
      assert FrontInFlight(d);
      assert d.queue[0] == FrameOf(d.past.pushed, Left(d));
      var rest := d.past.pushed[Left(d)..];
      assert EncodeAll(rest) == Encode(ONE_FRAGMENT_TEXT, rest[0]) + EncodeAll(rest[1..]);
    }
  }

  // ----- lifetime -----

  /** The connection is alive while a read or a write is pending or waits for its handler, while a thread
      runs a handler of either, and while any thread is in its code outside the destructor. */
  lemma AliveWhilePending(s: Sys)
    requires Reachable(s)
    ensures s.d.read.Reading? || s.d.read.Arrived? || s.d.writes != map[] ==> !Destroyed(s.d)
    ensures forall t :: 0 <= t < |s.pcs| && HoldsRef(s.pcs[t]) ==> !Destroyed(s.d)
  {
    ReachableInv(s);
    forall t | 0 <= t < |s.pcs| && HoldsRef(s.pcs[t]) ensures !Destroyed(s.d) { NotDestroyedWhileHeld(s, t); }
    if s.d.writes != map[] { AliveWhileWriting(s); }
  }

  lemma AliveWhileWriting(s: Sys)
    requires Inv(s) && s.d.writes != map[]
    ensures !Destroyed(s.d)
  {
    assert s.d.writes.Keys != {} by { if s.d.writes.Keys == {} { NoKeys(s.d.writes); } }
    var k :| k in s.d.writes;
    if s.d.writes[k].status.Handling? {
      NotDestroyedWhileHeld(s, s.d.writes[k].status.thread);
    } else {
      assert ByWrite(k) in s.d.owners;
    }
  }

  /** The destructor only ever meets an empty queue; if no write failed, the client has then been sent
      every accepted message, whole and in order. */
  lemma NothingLeftAtDestruction(s: Sys)
    requires Reachable(s) && Destroyed(s.d)
    ensures s.d.queue == [] && s.d.writes == map[]
    ensures !s.d.past.broken ==>
              && s.d.past.accepted == s.d.past.pushed
              && s.d.past.wire == EncodeAll(s.d.past.pushed)
              && Understand(s.d.past.wire).messages == s.d.past.pushed
  {
    QueueEmptyAtDestruction(s);
    if !s.d.past.broken {
      WireWholeAtDestruction(s);
      NobodyUnderwayAtDestruction(s);
      StreamRoundTrip(s.d.past.pushed, s.d.past.pushed);
    }
  }

  lemma WireWholeAtDestruction(s: Sys)
    requires Reachable(s) && Destroyed(s.d) && !s.d.past.broken && s.d.queue == [] && s.d.writes == map[]
    ensures s.d.past.wire == EncodeAll(s.d.past.pushed)
  {
    ReachableInv(s);
    WholeOrder(s.d);
  }

  lemma WholeOrder(d: Shared)
    requires InOrder(d) && !d.past.broken && d.queue == [] && d.writes == map[]
    ensures d.past.wire == EncodeAll(d.past.pushed)
  {
    assert Partial(d) == [];
    WholeWire(d.past.wire, d.past.pushed, Left(d));
  }

  lemma WholeWire(wire: seq<Byte>, pushed: seq<Message>, n: nat)
    requires n == |pushed| && wire == EncodeAll(pushed[..n]) + []
    ensures wire == EncodeAll(pushed)
  {
    assert pushed[..n] == pushed;
  }

  lemma NobodyUnderwayAtDestruction(s: Sys)
    requires Reachable(s) && Destroyed(s.d)
    ensures s.d.past.accepted == s.d.past.pushed
  {
    ReachableInv(s);
    if Underway(s) != [] { AliveWhileUnderway(s); }
  }

  lemma AliveWhileUnderway(s: Sys)
    requires Inv(s) && Underway(s) != []
    ensures !Destroyed(s.d)
  {
    NotDestroyedWhileHeld(s, s.d.registryLock.value);
  }

  lemma QueueEmptyAtDestruction(s: Sys)
    requires Reachable(s) && Destroyed(s.d)
    ensures s.d.queue == [] && s.d.writes == map[]
  {
    ReachableInv(s);
    AliveWhilePending(s);
    if s.d.queueLock.Some? { AliveWhileLocked(s); }
  }

  lemma AliveWhileLocked(s: Sys)
    requires Inv(s) && s.d.queueLock.Some?
    ensures !Destroyed(s.d)
  {
    NotDestroyedWhileHeld(s, s.d.queueLock.value);
  }

  // ----- closing -----

  /** `ws_onclose` runs at most once, and has run, with the socket closed, when the destructor is done. */
  lemma ClosedOnce(s: Sys)
    requires Reachable(s)
    ensures s.d.past.closes <= 1
    ensures Destroyed(s.d) && (forall t :: 0 <= t < |s.pcs| ==> !InDtor(s.pcs[t])) ==>
              s.d.past.closes == 1 && s.d.closed && !s.d.socketOpen
  {
    ReachableInv(s);
    var d := s.d;
    if Destroyed(d) && (forall t :: 0 <= t < |s.pcs| ==> !InDtor(s.pcs[t])) {
      assert d.closed;
      if d.past.closer < |s.pcs| && SocketStillOpen(s.pcs[d.past.closer]) { AliveWhileClosing(s, d.past.closer); }
    }
  }

  lemma AliveWhileClosing(s: Sys, t: nat)
    requires Inv(s) && t < |s.pcs| && SocketStillOpen(s.pcs[t]) && !InDtor(s.pcs[t])
    ensures !Destroyed(s.d)
  {
    NotDestroyedWhileHeld(s, t);
  }

  /** In a handler that is to stop the connection, or sent to stop it, and not yet past the flag. */
  predicate AboutToStop(pc: PC) {
    || pc.ReadHandle? || pc.WriteErrReport? || pc.WriteErrWait? || pc.WriteErrClear?
    || (pc.Stopping? && pc.phase.TestFlag?)
  }

  /** However the others run in between, a close order that found the connection, a handled read and a failed write
      do not end before the connection is closed. */
  lemma {:induction false} ClosingTakesEffect(s: Sys, acts: seq<Action>, t: nat)
    requires IsRun(s, acts) && t < |s.pcs| && (s.d.closed || AboutToStop(s.pcs[t]))
    ensures var s' := RunAll(s, acts); |s'.pcs| == |s.pcs| && (s'.d.closed || AboutToStop(s'.pcs[t]))
    decreases |acts|
  {
    if acts != [] {
      var a := acts[0];
      if a.Go? { OthersKeepClosed(s.d, s.pcs[a.t], a.t); }
      if a == Go(t) && !s.d.closed { StopsNext(s.d, s.pcs[t], t); }
      ClosingTakesEffect(Apply(s, a), acts[1..], t);
    }
  }

  lemma StopsNext(d: Shared, pc: PC, t: nat)
    requires CanGo(d, pc) && AboutToStop(pc)
    ensures GoThread(d, pc, t).d.closed || AboutToStop(GoThread(d, pc, t).pc)
  {
  }

  lemma FoundIsStopped(s: Sys, t: nat)
    requires Enabled(s, Go(t)) && s.pcs[t] == Lookup(Close) && s.d.registered && !Destroyed(s.d)
    ensures AboutToStop(Apply(s, Go(t)).pcs[t])
  {
  }

  /** An unclosed connection never has more than 100 queued frames when the queue lock is free. */
  lemma Overflow(s: Sys)
    requires Reachable(s) && s.d.queueLock == None && !s.d.closed
    ensures |s.d.queue| <= 100
  {
    ReachableInv(s);
  }

  /** A push goes on to close the connection exactly when its frame makes more than 100; an open one is then closed
      before the push lets go of the queue. */
  lemma OverflowExactly(s: Sys, t: nat)
    requires Reachable(s) && Enabled(s, Go(t)) && s.pcs[t].Enqueue?
    ensures var s' := Apply(s, Go(t));
            && |s'.d.queue| == |s.d.queue| + 1 && s'.d.closed == s.d.closed
            && s'.pcs[t] == if |s'.d.queue| > 100 then Stopping(TestFlag, ToStartFirst) else StartFirst
    ensures forall u :: 0 <= u < |s.pcs| && s.pcs[u].UnlockPush? && |s.d.queue| > 100 ==> s.d.closed
  {
    ReachableInv(s);
  }

  /** The flag, the callback count and the destruction never go back, and a socket stays closed. */
  lemma NothingGoesBack(s: Sys, a: Action)
    requires Reachable(s) && Enabled(s, a)
    ensures var d, d' := s.d, Apply(s, a).d;
            && (d.closed ==> d'.closed) && d.past.closes <= d'.past.closes
            && (Destroyed(d) ==> Destroyed(d'))
            && (!d.socketOpen ==> !d'.socketOpen && d'.past.wire == d.past.wire)
  {
    ReachableInv(s);
    ClosesOnceKept(s, a);
    DestroyedOnceKept(s, a);
    if a.Go? {
      GoMovesClose(s.d, s.pcs[a.t], a.t);
      GoKeepsWire(s.d, s.pcs[a.t], a.t);
    }
  }

  /** A connection once entered in the registry is found there as long as it lives. */
  lemma {:induction false} StaysRegistered(s: Sys, acts: seq<Action>)
    requires Reachable(s) && IsRun(s, acts) && (s.d.registered || Destroyed(s.d))
    ensures RunAll(s, acts).d.registered || Destroyed(RunAll(s, acts).d)
    decreases |acts|
  {
    if acts != [] {
      var a := acts[0];
      NothingGoesBack(s, a);
      ReachableStep(s, a);
      if a.Go? && s.d.registered { LeavesDeadOnly(s.d, s.pcs[a.t], a.t); }
      StaysRegistered(Apply(s, a), acts[1..]);
    }
  }

  lemma LeavesDeadOnly(d: Shared, pc: PC, t: nat)
    requires CanGo(d, pc) && d.registered
    ensures GoThread(d, pc, t).d.registered || (Destroyed(d) && GoThread(d, pc, t).d.owners == d.owners)
  {
  }

  // ----- progress -----

  /** No thread ever erases from an empty queue or handles an operation that is gone. */
  lemma AlwaysDefined(s: Sys, t: nat)
    requires Reachable(s) && t < |s.pcs|
    ensures Defined(s.d, s.pcs[t])
  {
    ReachableInv(s);
    var pc := s.pcs[t];
    if HoldsQueue(pc) {
      assert ModeOf(s) == ModeAt(pc);
    }
    assert HandlerExact(s.d, pc, t);
  }

  /** An upper bound of the steps a thread still has to take in its current call or handler. */
  function StepsLeft(pc: PC): nat {
    match pc
    case Idle => 0
    case UnlockRegistry => 1
    case OtherWork => 2
    case Stopping(p, ToDtorEnd(_)) => 2 + PhaseLeft(p)
    case Dtor(_) => 8
    case LetGo(_) => 9
    case Stopping(p, ToLetGo(_)) => 10 + PhaseLeft(p)
    case UnlockPush => 10
    case UnlockHandler => 10
    case StartFirst => 11
    case WriteNext => 11
    case Stopping(p, ToStartFirst) => 12 + PhaseLeft(p)
    case Stopping(p, ToUnlockHandler) => 12 + PhaseLeft(p)
    case WriteOkErase(_) => 12
    case WriteOkWait(_) => 13
    case WriteErrClear(_) => 18
    case WriteErrWait(_) => 19
    case WriteErrReport(_) => 20
    case ReadHandle => 18
    case Enqueue(_, _) => 18
    case WaitQueue(_, _) => 19
    case Encoding(_) => 20
    case Lookup(_) => 21
    case WaitRegistry(_) => 22
    case WaitElsewhere => 3
    case StartRead => 10
    case OpenReturn => 11
    case Opening => 12
    case AddUnlock => 13
    case AddInsert => 14
    case AddWait => 15
  }

  function PhaseLeft(p: Phase): nat {
    match p
    case TestFlag => 5
    case Callback => 4
    case Cancel => 3
    case Shutdown => 2
    case CloseSocket => 1
  }

  lemma GoShortens(d: Shared, pc: PC, t: nat)
    requires CanGo(d, pc)
    ensures StepsLeft(GoThread(d, pc, t).pc) < StepsLeft(pc)
  {
    if pc.Stopping? { StopShortens(d, pc, t); }
  }

  lemma StopShortens(d: Shared, pc: PC, t: nat)
    requires pc.Stopping?
    ensures StepsLeft(GoStop(d, pc, t).pc) < StepsLeft(pc)
  {
  }
}
