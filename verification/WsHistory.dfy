/** What became of every pushed message, and what is on the wire. */
module WsHistory {
  import opened Frames
  import opened WsModel
  import opened WsLocks
  import opened WsQueue

  /** The queue element of push number `i`. */
  function FrameOf(pushed: seq<Message>, i: nat): Queued
    requires i < |pushed|
  {
    Queued(i, Encode(ONE_FRAGMENT_TEXT, pushed[i]))
  }

  /** Threads on their way into the queue carry the frame of their message. */
  predicate CarriesFrame(pc: PC) {
    pc.WaitQueue? || pc.Enqueue? ==> pc.bytes == Encode(ONE_FRAGMENT_TEXT, pc.message)
  }

  predicate CarriedOk(s: Sys) { forall t :: 0 <= t < |s.pcs| ==> CarriesFrame(s.pcs[t]) }

  lemma CarriedKept(s: Sys, a: Action)
    requires CarriedOk(s) && Enabled(s, a)
    ensures CarriedOk(Apply(s, a))
  {
    if a.Go? { GoCarries(s.d, s.pcs[a.t], a.t); }
    if ByThreadAction(a) {
      assert CarriesFrame(ThreadNext(s, a).pc);
    }
  }

  lemma GoCarries(d: Shared, pc: PC, t: nat)
    requires CanGo(d, pc) && CarriesFrame(pc)
    ensures CarriesFrame(GoThread(d, pc, t).pc)
  {
    if pc.Stopping? { StopIsNoPush(d, pc, t); }
  }

  lemma StopIsNoPush(d: Shared, pc: PC, t: nat)
    requires pc.Stopping?
    ensures !GoStop(d, pc, t).pc.WaitQueue? && !GoStop(d, pc, t).pc.Enqueue?
  {
  }

  // ----- conservation -----

  function Ids(fs: seq<Queued>): set<nat> { set f | f in fs :: f.id }

  predicate Ascending(fs: seq<Queued>) { forall i, j :: 0 <= i < j < |fs| ==> fs[i].id < fs[j].id }

  /** Frames of pushes before number `n`. */
  predicate FramesBefore(fs: seq<Queued>, pushed: seq<Message>, n: nat)
    requires n <= |pushed|
  {
    forall i :: 0 <= i < |fs| ==> fs[i].id < n && fs[i] == FrameOf(pushed, fs[i].id)
  }

  /** Of the first `n` pushes each was written out or dropped and not both, in order and once each. */
  predicate Partition(sent: seq<Queued>, dropped: seq<Queued>, pushed: seq<Message>, n: nat)
    requires n <= |pushed|
  {
    && Ascending(sent) && FramesBefore(sent, pushed, n)
    && Ascending(dropped) && FramesBefore(dropped, pushed, n)
    && Split(Ids(sent), Ids(dropped), n)
  }

  /** Each number below `n` is in exactly one of the sets. */
  predicate Split(a: set<nat>, b: set<nat>, n: nat) { forall i :: 0 <= i < n ==> (i in a <==> i !in b) }

  lemma SplitMore(a: set<nat>, b: set<nat>, n: nat, c: set<nat>, k: nat)
    requires Split(a, b, n) && n <= k && (forall i :: i in b ==> i < n)
    requires (forall i :: i in c ==> n <= i) && (forall i :: n <= i < k ==> i in c)
    ensures Split(a + c, b, k)
  {
  }

  lemma SplitSwap(a: set<nat>, b: set<nat>, n: nat)
    requires Split(a, b, n)
    ensures Split(b, a, n)
  {
  }

  /** The number of pushes that have left the queue. */
  function Left(d: Shared): int { |d.past.pushed| - |d.queue| }

  /** The queue is the rest of the pushes from number `n` on. */
  predicate IsTail(queue: seq<Queued>, pushed: seq<Message>, n: nat) {
    n + |queue| == |pushed| && forall i :: 0 <= i < |queue| ==> queue[i] == FrameOf(pushed, n + i)
  }

  /** Every push is still queued, or was written out, or was dropped, and only one of these. */
  predicate Conserved(d: Shared) {
    Left(d) >= 0 && Accounted(d.queue, d.past.pushed, d.past.sent, d.past.dropped, Left(d))
  }

  predicate Accounted(queue: seq<Queued>, pushed: seq<Message>, sent: seq<Queued>, dropped: seq<Queued>, left: nat) {
    IsTail(queue, pushed, left) && Partition(sent, dropped, pushed, left)
  }

  lemma IdsAppend(fs: seq<Queued>, gs: seq<Queued>)
    ensures Ids(fs + gs) == Ids(fs) + Ids(gs)
  {
  }

  lemma IdsBefore(fs: seq<Queued>, pushed: seq<Message>, n: nat)
    requires n <= |pushed| && FramesBefore(fs, pushed, n)
    ensures forall i :: i in Ids(fs) ==> i < n
  {
  }

  lemma FramesStay(fs: seq<Queued>, pushed: seq<Message>, n: nat, m: Message)
    requires n <= |pushed| && FramesBefore(fs, pushed, n)
    ensures FramesBefore(fs, pushed + [m], n)
  {
  }

  lemma AscendingAppend(fs: seq<Queued>, gs: seq<Queued>, pushed: seq<Message>, n: nat)
    requires n + |gs| <= |pushed| && Ascending(fs) && FramesBefore(fs, pushed, n) && IsTail(gs, pushed[..n + |gs|], n)
    ensures Ascending(fs + gs) && FramesBefore(fs + gs, pushed, n + |gs|)
  {
    assert forall i :: 0 <= i < |gs| ==> gs[i].id == n + i && gs[i] == FrameOf(pushed, n + i);
  }

  lemma TailIds(queue: seq<Queued>, pushed: seq<Message>, n: nat)
    requires IsTail(queue, pushed, n)
    ensures (forall i :: i in Ids(queue) ==> n <= i) && (forall i :: n <= i < |pushed| ==> i in Ids(queue))
  {
    forall i | n <= i < |pushed| ensures i in Ids(queue) {
      assert queue[i - n].id == i && queue[i - n] in queue;
    }
  }

  lemma FramesBeforeMore(fs: seq<Queued>, pushed: seq<Message>, n: nat)
    requires n < |pushed| && FramesBefore(fs, pushed, n)
    ensures FramesBefore(fs, pushed, n + 1)
  {
  }

  lemma OneSentInOrder(sent: seq<Queued>, pushed: seq<Message>, n: nat)
    requires n < |pushed| && Ascending(sent) && FramesBefore(sent, pushed, n)
    ensures Ascending(sent + [FrameOf(pushed, n)]) && FramesBefore(sent + [FrameOf(pushed, n)], pushed, n + 1)
  {
  }

  lemma OneSentSplits(sent: seq<Queued>, dropped: seq<Queued>, pushed: seq<Message>, n: nat)
    requires n < |pushed| && FramesBefore(dropped, pushed, n) && Split(Ids(sent), Ids(dropped), n)
    ensures Split(Ids(sent + [FrameOf(pushed, n)]), Ids(dropped), n + 1)
  {
    var f := FrameOf(pushed, n);
    IdsAppend(sent, [f]);
    assert Ids([f]) == {n};
    IdsBefore(dropped, pushed, n);
    SplitMore(Ids(sent), Ids(dropped), n, {n}, n + 1);
  }

  lemma SendOne(sent: seq<Queued>, dropped: seq<Queued>, pushed: seq<Message>, n: nat)
    requires n < |pushed| && Partition(sent, dropped, pushed, n)
    ensures Partition(sent + [FrameOf(pushed, n)], dropped, pushed, n + 1)
  {
    OneSentInOrder(sent, pushed, n);
    FramesBeforeMore(dropped, pushed, n);
    OneSentSplits(sent, dropped, pushed, n);
  }

  lemma DropRest(sent: seq<Queued>, dropped: seq<Queued>, pushed: seq<Message>, n: nat, queue: seq<Queued>)
    requires n <= |pushed| && Partition(sent, dropped, pushed, n) && IsTail(queue, pushed, n)
    ensures Partition(sent, dropped + queue, pushed, |pushed|)
  {
    assert pushed[..n + |queue|] == pushed;
    AscendingAppend(dropped, queue, pushed, n);
    IdsAppend(dropped, queue);
    TailIds(queue, pushed, n);
    IdsBefore(sent, pushed, n);
    SplitSwap(Ids(sent), Ids(dropped), n);
    SplitMore(Ids(dropped), Ids(sent), n, Ids(queue), |pushed|);
    SplitSwap(Ids(dropped + queue), Ids(sent), |pushed|);
  }

  lemma PushConserves(d: Shared, pc: PC, t: nat)
    requires pc.Enqueue? && CarriesFrame(pc) && Conserved(d)
    ensures Conserved(GoWrite(d, pc, t).d)
  {
    var d' := GoWrite(d, pc, t).d;
    assert Left(d') == Left(d);
    FramesStay(d.past.sent, d.past.pushed, Left(d), pc.message);
    FramesStay(d.past.dropped, d.past.pushed, Left(d), pc.message);
  }

  lemma EraseConserves(d: Shared, pc: PC, t: nat)
    requires pc.WriteOkErase? && Defined(d, pc) && Conserved(d) && d.writes[pc.op].frame == d.queue[0]
    ensures Conserved(GoOkHandler(d, pc, t).d)
  {
    var d' := GoOkHandler(d, pc, t).d;
    TailShift(d.queue, d.past.pushed, Left(d));
    SendOne(d.past.sent, d.past.dropped, d.past.pushed, Left(d));
  }

  lemma TailShift(queue: seq<Queued>, pushed: seq<Message>, n: nat)
    requires queue != [] && IsTail(queue, pushed, n)
    ensures queue[0] == FrameOf(pushed, n) && IsTail(queue[1..], pushed, n + 1)
  {
    assert forall i :: 0 <= i < |queue| - 1 ==> queue[1..][i] == queue[i + 1];
  }

  lemma ClearConserves(d: Shared, pc: PC, t: nat)
    requires pc.WriteErrClear? && Defined(d, pc) && Conserved(d)
    ensures Conserved(GoErrHandler(d, pc, t).d)
  {
    DropRest(d.past.sent, d.past.dropped, d.past.pushed, Left(d), d.queue);
  }

  lemma SameConserves(d: Shared, d': Shared)
    requires Conserved(d) && d'.queue == d.queue
    requires d'.past.pushed == d.past.pushed && d'.past.sent == d.past.sent && d'.past.dropped == d.past.dropped
    ensures Conserved(d')
  {
  }

  /** The steps that change the queue or what has left it. */
  predicate ChangesQueue(pc: PC) { pc.Enqueue? || pc.WriteOkErase? || pc.WriteErrClear? }

  /** What these steps make of the shared state. */
  function QueueChange(d: Shared, pc: PC, t: nat): Shared
    requires ChangesQueue(pc) && Defined(d, pc)
  {
    if pc.Enqueue? then GoWrite(d, pc, t).d
    else if pc.WriteOkErase? then GoOkHandler(d, pc, t).d
    else Dropped(d, pc.op)
  }

  lemma GoChanges(d: Shared, pc: PC, t: nat)
    requires CanGo(d, pc) && ChangesQueue(pc)
    ensures GoThread(d, pc, t).d == QueueChange(d, pc, t)
  {
  }

  lemma OtherStepsKeepQueue(d: Shared, pc: PC, t: nat)
    requires CanGo(d, pc) && !ChangesQueue(pc)
    ensures var d' := GoThread(d, pc, t).d;
            && d'.queue == d.queue && d'.past.pushed == d.past.pushed
            && d'.past.sent == d.past.sent && d'.past.dropped == d.past.dropped
  {
    if !Begins(pc) { OtherStepsKeepWrites(d, pc, t); }
  }

  lemma ConservedByGo(d: Shared, pc: PC, t: nat)
    requires CanGo(d, pc) && CarriesFrame(pc) && Conserved(d)
    requires HoldsQueue(pc) ==> SingleWriter(d, ModeAt(pc))
    ensures Conserved(GoThread(d, pc, t).d)
  {
    if pc.Enqueue? { PushConserves(d, pc, t); }
    else if pc.WriteOkErase? { EraseConserves(d, pc, t); }
    else if pc.WriteErrClear? { ClearConserves(d, pc, t); }
    else {
      OtherStepsKeepQueue(d, pc, t);
      SameConserves(d, GoThread(d, pc, t).d);
    }
  }

  lemma ConservedKept(s: Sys, a: Action)
    requires LocksHeld(s) && QueueOk(s) && CarriedOk(s) && Conserved(s.d) && Enabled(s, a)
    ensures Conserved(Apply(s, a).d)
  {
    if a.Go? {
      ConservedByGo(s.d, s.pcs[a.t], a.t);
    } else {
      SameConserves(s.d, Apply(s, a).d);
    }
  }

  // ----- progress of the writes -----

  /** A write reports success only when all its bytes are out, and failure only after one. */
  predicate OpOk(op: WriteOp, broken: bool) {
    && op.done <= |op.frame.bytes|
    && (op.status.InFlight? || (if op.status.ok then op.done == |op.frame.bytes| else broken))
  }

  predicate OpsOk(d: Shared) { forall k :: k in d.writes ==> OpOk(d.writes[k], d.past.broken) }

  lemma OpsKeptByGo(d: Shared, pc: PC, t: nat)
    requires CanGo(d, pc) && OpsOk(d)
    ensures OpsOk(GoThread(d, pc, t).d)
  {
    if !ChangesQueue(pc) && !Begins(pc) { OtherStepsKeepWrites(d, pc, t); }
  }

  /** The steps that may start a write. */
  predicate Begins(pc: PC) { pc.StartFirst? || pc.WriteNext? }

  lemma OtherStepsKeepWrites(d: Shared, pc: PC, t: nat)
    requires CanGo(d, pc) && !ChangesQueue(pc) && !Begins(pc)
    ensures QueueSame(d, GoThread(d, pc, t).d)
  {
    if pc.Stopping? { StopLeavesQueue(d, pc, t); }
    else if InSide(pc) { SideLeavesQueue(d, pc, t); }
  }

  lemma OpsKept(s: Sys, a: Action)
    requires OpsOk(s.d) && Enabled(s, a)
    ensures OpsOk(Apply(s, a).d)
  {
    if a.Go? { OpsKeptByGo(s.d, s.pcs[a.t], a.t); }
  }

  // ----- the wire -----

  /** The bytes of the write in flight that are out. */
  function Partial(d: Shared): seq<Byte> {
    if d.ops > 0 && d.ops - 1 in d.writes && d.writes[d.ops - 1].done <= |d.writes[d.ops - 1].frame.bytes|
      then d.writes[d.ops - 1].frame.bytes[..d.writes[d.ops - 1].done]
      else []
  }

  /** Until a write fails nothing is dropped, what was written is a beginning of what was pushed, and
      the wire has the frames of these and the begun part of the next. */
  predicate InOrder(d: Shared) {
    !d.past.broken ==>
      && d.past.dropped == [] && |d.past.sent| == Left(d)
      && 0 <= Left(d) <= |d.past.pushed|
      && d.past.wire == EncodeAll(d.past.pushed[..Left(d)]) + Partial(d)
  }

  lemma PushKeepsOrder(d: Shared, pc: PC, t: nat)
    requires pc.Enqueue? && Conserved(d) && InOrder(d)
    ensures InOrder(GoWrite(d, pc, t).d)
  {
    var d' := GoWrite(d, pc, t).d;
    assert d'.past.pushed[..Left(d)] == d.past.pushed[..Left(d)];
    assert Partial(d') == Partial(d);
  }

  lemma EncodeOneMore(pushed: seq<Message>, n: nat)
    requires n < |pushed|
    ensures EncodeAll(pushed[..n]) + FrameOf(pushed, n).bytes == EncodeAll(pushed[..n + 1])
  {
    assert pushed[..n + 1] == pushed[..n] + [pushed[n]];
    EncodeAllAppend(pushed[..n], pushed[n]);
  }

  lemma EraseKeepsOrder(d: Shared, pc: PC, t: nat)
    requires pc.WriteOkErase? && Defined(d, pc) && InOrder(d) && OpsOk(d)
    requires Left(d) >= 0 && d.queue[0] == FrameOf(d.past.pushed, Left(d))
    requires FrontInFlight(d) && HandlerExact(d, pc, t)
    ensures InOrder(GoOkHandler(d, pc, t).d)
  {
    var d' := GoOkHandler(d, pc, t).d;
    assert pc.op == d.ops - 1;
    assert OpOk(d.writes[pc.op], d.past.broken);
    assert Partial(d) == d.writes[pc.op].frame.bytes;
    assert Partial(d') == [];
    EncodeOneMore(d.past.pushed, Left(d));
    assert Left(d') == Left(d) + 1;
  }

  lemma ClearKeepsOrder(d: Shared, pc: PC, t: nat)
    requires pc.WriteErrClear? && Defined(d, pc) && OpsOk(d) && HandlerExact(d, pc, t)
    ensures InOrder(GoErrHandler(d, pc, t).d)
  {
    assert OpOk(d.writes[pc.op], d.past.broken);
  }

  lemma BeginKeepsOrder(d: Shared)
    requires InOrder(d) && d.queue != [] && d.writes == map[]
    ensures InOrder(BeginWrite(d))
  {
    assert Partial(BeginWrite(d)) == [];
  }

  lemma ChangeKeepsOrder(d: Shared, pc: PC, t: nat)
    requires CanGo(d, pc) && ChangesQueue(pc) && HandlerExact(d, pc, t) && SingleWriter(d, Settled)
    requires Conserved(d) && InOrder(d) && OpsOk(d)
    ensures InOrder(QueueChange(d, pc, t))
  {
    if pc.Enqueue? { PushKeepsOrder(d, pc, t); }
    else if pc.WriteOkErase? { TailShift(d.queue, d.past.pushed, Left(d)); EraseKeepsOrder(d, pc, t); }
    else { ClearKeepsOrder(d, pc, t); }
  }

  lemma OrderKeptByGo(d: Shared, pc: PC, t: nat)
    requires CanGo(d, pc) && Conserved(d) && InOrder(d) && OpsOk(d) && HandlerExact(d, pc, t)
    requires HoldsQueue(pc) ==> SingleWriter(d, ModeAt(pc))
    ensures InOrder(GoThread(d, pc, t).d)
  {
    if ChangesQueue(pc) {
      ChangeKeepsOrder(d, pc, t);
      GoChanges(d, pc, t);
    } else if Begins(pc) {
      BeginByGoKeepsOrder(d, pc, t);
    } else {
      OtherStepsKeepWrites(d, pc, t);
      SameKeepsOrder(d, GoThread(d, pc, t).d);
    }
  }

  lemma BeginByGoKeepsOrder(d: Shared, pc: PC, t: nat)
    requires CanGo(d, pc) && Begins(pc) && InOrder(d) && SingleWriter(d, ModeAt(pc))
    ensures InOrder(GoThread(d, pc, t).d)
  {
    if d.writes == map[] && d.queue != [] { BeginKeepsOrder(d); }
  }

  lemma SameKeepsOrder(d: Shared, d': Shared)
    requires QueueSame(d, d') && InOrder(d)
    ensures InOrder(d')
  {
  }

  lemma StartKeepsOrder(d: Shared, k: nat, t: nat)
    requires k in d.writes && d.writes[k].status.Completed? && InOrder(d)
    ensures InOrder(StartHandler(d, k, t).d)
  {
    assert Partial(StartHandler(d, k, t).d) == Partial(d);
  }

  lemma OutsideKeepsOrder(d: Shared, a: Action, m: Mode)
    requires a.Transfer? || a.Complete?
    requires a.op in d.writes && d.writes[a.op].status.InFlight? && SingleWriter(d, m) && InOrder(d)
    requires a.Transfer? ==> d.writes[a.op].done + a.n <= |d.writes[a.op].frame.bytes|
    ensures InOrder(Outside(d, a))
  {
    var d' := Outside(d, a);
    assert a.op == d.ops - 1;
    var op := d.writes[a.op];
    if a.Transfer? {
      var b := op.frame.bytes;
      assert b[..op.done + a.n] == b[..op.done] + b[op.done..op.done + a.n];
      assert Partial(d') == Partial(d) + b[op.done..op.done + a.n];
      var e := if d.past.broken then [] else EncodeAll(d.past.pushed[..Left(d)]);
      assert e + Partial(d) + b[op.done..op.done + a.n] == e + (Partial(d) + b[op.done..op.done + a.n]);
    } else {
      assert Partial(d') == Partial(d);
    }
  }

  lemma OrderKept(s: Sys, a: Action)
    requires LocksHeld(s) && OwnersExact(s) && QueueOk(s) && Conserved(s.d) && OpsOk(s.d) && InOrder(s.d)
        && Enabled(s, a)
    ensures InOrder(Apply(s, a).d)
  {
    match a
    case Go(t) => OrderKeptByGo(s.d, s.pcs[t], t);
    case Dispatch(t, k) => StartKeepsOrder(s.d, k, t);
    case Transfer(k, n) => OutsideKeepsOrder(s.d, a, ModeOf(s));
    case Complete(k, ok) => OutsideKeepsOrder(s.d, a, ModeOf(s));
    case _ => OthersKeepOrder(s, a);
  }

  lemma OthersKeepOrder(s: Sys, a: Action)
    requires a.Call? || a.CallElsewhere? || a.DispatchRead? || a.CompleteRead?
    requires InOrder(s.d) && Enabled(s, a)
    ensures InOrder(Apply(s, a).d)
  {
  }

  // ----- the order of the callers -----

  /** The message of a thread between finding the connection and entering the queue. */
  function Underway(s: Sys): seq<Message> {
    if s.d.registryLock.Some? && s.d.registryLock.value < |s.pcs| then MessageAt(s.pcs[s.d.registryLock.value]) else []
  }

  function MessageAt(pc: PC): seq<Message> {
    if pc.Encoding? || pc.WaitQueue? || pc.Enqueue? then [pc.message] else []
  }

  /** Pushes enter the queue in the order in which they got the registry lock. */
  ghost predicate CallOrder(s: Sys) { s.d.past.accepted == s.d.past.pushed + Underway(s) }

  predicate CallMove(d: Shared, pc: PC, n: Next) {
    && (d.past.accepted == d.past.pushed + MessageAt(pc) ==> n.d.past.accepted == n.d.past.pushed + MessageAt(n.pc))
    && (MessageAt(pc) == [] && !n.pc.Encoding? ==>
          n.d.past.accepted == d.past.accepted && n.d.past.pushed == d.past.pushed)
    && (MessageAt(n.pc) != [] ==> HoldsRegistry(pc))
    && (MessageAt(pc) != [] ==> HoldsRegistry(n.pc))
  }

  lemma GoMovesCall(d: Shared, pc: PC, t: nat)
    requires CanGo(d, pc)
    ensures CallMove(d, pc, GoThread(d, pc, t))
  {
    if pc.Stopping? { StopMovesCall(d, pc, t); }
    else if InForward(pc) { ForwardMovesCall(d, pc, t); }
    else if InWrite(pc) { WriteMovesCall(d, pc, t); }
  }

  lemma StopMovesCall(d: Shared, pc: PC, t: nat)
    requires pc.Stopping?
    ensures CallMove(d, pc, GoStop(d, pc, t))
  {
  }

  lemma ForwardMovesCall(d: Shared, pc: PC, t: nat)
    requires CanGo(d, pc) && InForward(pc)
    ensures CallMove(d, pc, GoForward(d, pc, t))
  {
  }

  lemma WriteMovesCall(d: Shared, pc: PC, t: nat)
    requires CanGo(d, pc) && InWrite(pc)
    ensures CallMove(d, pc, GoWrite(d, pc, t))
  {
  }

  lemma CallOrderKept(s: Sys, a: Action)
    requires LocksHeld(s) && CallOrder(s) && Enabled(s, a)
    ensures CallOrder(Apply(s, a))
  {
    LocksKept(s, a);
    if a.Go? {
      GoMovesCall(s.d, s.pcs[a.t], a.t);
      GoMovesLocks(s.d, s.pcs[a.t], a.t);
    }
  }
}
