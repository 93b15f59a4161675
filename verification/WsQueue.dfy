/** The send queue and its one write in flight, in every reachable state. */
module WsQueue {
  import opened Text
  import opened WsModel
  import opened WsLocks

  /** What holds between queue and writes, depending on where the holder of the queue lock is. */
  datatype Mode =
    | Settled    // nobody is in between: one write, of the front, exactly while the queue is not empty
    | Pushed     // a frame was appended and its write may still have to be started
    | Drained    // the front was erased and the next write has not been started

  function ModeAt(pc: PC): Mode {
    if pc.StartFirst? || (pc.Stopping? && pc.after.ToStartFirst?) then Pushed
    else if pc.WriteNext? then Drained
    else Settled
  }

  function ModeOf(s: Sys): Mode {
    if s.d.queueLock.Some? && s.d.queueLock.value < |s.pcs| then ModeAt(s.pcs[s.d.queueLock.value]) else Settled
  }

  /** One write exists, and it is of the front of the queue as it is. */
  predicate FrontInFlight(d: Shared) {
    && d.queue != [] && d.ops > 0
    && d.writes.Keys == {d.ops - 1} && d.writes[d.ops - 1].frame == d.queue[0]
  }

  predicate SingleWriter(d: Shared, m: Mode) {
    match m
    case Settled => if d.queue == [] then d.writes == map[] else FrontInFlight(d)
    case Pushed => d.queue != [] && if |d.queue| == 1 then d.writes == map[] else FrontInFlight(d)
    case Drained => d.writes == map[]
  }

  lemma NoKeys(w: map<nat, WriteOp>)
    requires w.Keys == {}
    ensures w == map[]
  {
  }

  /** A thread holding the queue lock leads from mode to mode. */
  lemma WriteKeepsSingle(d: Shared, pc: PC, t: nat)
    requires CanGo(d, pc) && InWrite(pc) && HoldsQueue(pc) && SingleWriter(d, ModeAt(pc))
    ensures SingleWriter(GoWrite(d, pc, t).d, ModeAt(GoWrite(d, pc, t).pc))
  {
  }

  lemma HandlerKeepsSingle(d: Shared, pc: PC, t: nat)
    requires CanGo(d, pc) && InOkHandler(pc) && HoldsQueue(pc) && SingleWriter(d, ModeAt(pc))
    ensures SingleWriter(GoOkHandler(d, pc, t).d, ModeAt(GoOkHandler(d, pc, t).pc))
  {
    if pc.WriteOkErase? { NoKeys(d.writes - {pc.op}); }
  }

  lemma ErrHandlerKeepsSingle(d: Shared, pc: PC, t: nat)
    requires CanGo(d, pc) && pc.WriteErrClear? && SingleWriter(d, Settled)
    ensures SingleWriter(GoErrHandler(d, pc, t).d, ModeAt(GoErrHandler(d, pc, t).pc))
  {
    NoKeys(d.writes - {pc.op});
  }

  lemma StopKeepsSingle(d: Shared, pc: PC, t: nat)
    requires pc.Stopping? && HoldsQueue(pc) && SingleWriter(d, ModeAt(pc))
    ensures SingleWriter(GoStop(d, pc, t).d, ModeAt(GoStop(d, pc, t).pc))
  {
  }

  lemma HolderKeepsSingle(d: Shared, pc: PC, t: nat)
    requires CanGo(d, pc) && HoldsQueue(pc) && SingleWriter(d, ModeAt(pc))
    ensures SingleWriter(GoThread(d, pc, t).d, ModeAt(GoThread(d, pc, t).pc))
  {
    if pc.Stopping? { StopKeepsSingle(d, pc, t); }
    else if InWrite(pc) { WriteKeepsSingle(d, pc, t); }
    else if InOkHandler(pc) { HandlerKeepsSingle(d, pc, t); }
    else { ErrHandlerKeepsSingle(d, pc, t); }
  }

  predicate QueueSame(d: Shared, d': Shared) {
    && d'.queue == d.queue && d'.writes == d.writes && d'.ops == d.ops
    && d'.past.pushed == d.past.pushed && d'.past.sent == d.past.sent && d'.past.dropped == d.past.dropped
    && d'.past.wire == d.past.wire && d'.past.tags == d.past.tags
    && d'.past.broken == d.past.broken && d'.past.cut == d.past.cut && d'.past.late == d.past.late
  }

  /** Steps outside `write` and the handlers of writes. */
  predicate InSide(pc: PC) { InForward(pc) || InRelease(pc) || InCreate(pc) }

  lemma SideLeavesQueue(d: Shared, pc: PC, t: nat)
    requires CanGo(d, pc) && InSide(pc)
    ensures QueueSame(d, GoThread(d, pc, t).d) && ModeAt(GoThread(d, pc, t).pc) == Settled
  {
    if InForward(pc) { ForwardLeavesQueue(d, pc, t); }
    else if InCreate(pc) { CreateLeavesQueue(d, pc, t); }
    else { ReleaseLeavesQueue(d, pc, t); }
  }

  lemma ReleaseLeavesQueue(d: Shared, pc: PC, t: nat)
    requires CanGo(d, pc) && InRelease(pc)
    ensures QueueSame(d, GoRelease(d, pc, t).d) && ModeAt(GoRelease(d, pc, t).pc) == Settled
  {
  }

  lemma CreateLeavesQueue(d: Shared, pc: PC, t: nat)
    requires CanGo(d, pc) && InCreate(pc)
    ensures QueueSame(d, GoCreate(d, pc, t).d) && ModeAt(GoCreate(d, pc, t).pc) == Settled
  {
  }

  lemma ForwardLeavesQueue(d: Shared, pc: PC, t: nat)
    requires CanGo(d, pc) && InForward(pc)
    ensures QueueSame(d, GoForward(d, pc, t).d) && ModeAt(GoForward(d, pc, t).pc) == Settled
  {
  }

  /** Without the queue lock a thread leaves the queue alone. */
  lemma OthersLeaveQueue(d: Shared, pc: PC, t: nat)
    requires CanGo(d, pc) && !HoldsQueue(pc)
    ensures QueueSame(d, GoThread(d, pc, t).d) && ModeAt(GoThread(d, pc, t).pc) == Settled
  {
    if pc.Stopping? { StopLeavesQueue(d, pc, t); }
    else if InSide(pc) { SideLeavesQueue(d, pc, t); }
  }

  lemma StopLeavesQueue(d: Shared, pc: PC, t: nat)
    requires pc.Stopping?
    ensures QueueSame(d, GoStop(d, pc, t).d)
    ensures !HoldsQueue(pc) ==> ModeAt(GoStop(d, pc, t).pc) == Settled
  {
    PhaseSame(d, pc.phase, t);
    if !HoldsQueue(pc) { StopResumesSettled(d, pc, t); }
  }

  lemma PhaseSame(d: Shared, phase: Phase, t: nat)
    ensures QueueSame(d, AfterPhase(d, phase, t))
  {
  }

  lemma StopResumesSettled(d: Shared, pc: PC, t: nat)
    requires pc.Stopping? && !HoldsQueue(pc)
    ensures ModeAt(GoStop(d, pc, t).pc) == Settled
  {
  }

  /** Completions and the start of handlers change the writes in place only. */
  lemma StatusKeepsSingle(d: Shared, m: Mode, k: nat, op: WriteOp, d': Shared)
    requires SingleWriter(d, m) && k in d.writes && op.frame == d.writes[k].frame
    requires d'.queue == d.queue && d'.ops == d.ops && d'.writes == d.writes[k := op]
    ensures SingleWriter(d', m)
  {
    assert d'.writes.Keys == d.writes.Keys;
  }

  ghost predicate QueueOk(s: Sys) { SingleWriter(s.d, ModeOf(s)) }

  lemma QueueKeptByGo(s: Sys, t: nat)
    requires LocksHeld(s) && QueueOk(s) && Enabled(s, Go(t))
    ensures QueueOk(Apply(s, Go(t)))
  {
    var pc := s.pcs[t];
    GoMovesLocks(s.d, pc, t);
    LocksKept(s, Go(t));
    if HoldsQueue(pc) {
      HolderKeepsSingle(s.d, pc, t);
    } else {
      OthersLeaveQueue(s.d, pc, t);
    }
  }

  lemma QueueKept(s: Sys, a: Action)
    requires LocksHeld(s) && QueueOk(s) && Enabled(s, a)
    ensures QueueOk(Apply(s, a))
  {
    match a
    case Go(t) => QueueKeptByGo(s, t);
    case Call(t, _) =>
    case CallElsewhere(t) =>
    case DispatchRead(t) =>
    case CompleteRead =>
    case Dispatch(t, k) => StatusKeepsSingle(s.d, ModeOf(s), k, Apply(s, a).d.writes[k], Apply(s, a).d);
    case Transfer(k, n) => StatusKeepsSingle(s.d, ModeOf(s), k, Apply(s, a).d.writes[k], Apply(s, a).d);
    case Complete(k, ok) => StatusKeepsSingle(s.d, ModeOf(s), k, Apply(s, a).d.writes[k], Apply(s, a).d);
  }

  // ----- overflow -----

  /** An unclosed connection has at most 100 queued frames, but for the moment in which the thread
      that pushed one too many is about to set the flag. */
  predicate Capped(d: Shared, holder: Option<PC>) {
    || d.closed || |d.queue| <= 100
    || (|d.queue| == 101 && holder == Some(Stopping(TestFlag, ToStartFirst)))
  }

  function Holder(s: Sys): Option<PC> {
    if s.d.queueLock.Some? && s.d.queueLock.value < |s.pcs| then Some(s.pcs[s.d.queueLock.value]) else None
  }

  ghost predicate CapOk(s: Sys) { Capped(s.d, Holder(s)) }

  lemma HolderKeepsCap(d: Shared, pc: PC, t: nat)
    requires CanGo(d, pc) && HoldsQueue(pc) && Capped(d, Some(pc))
    ensures Capped(GoThread(d, pc, t).d, Some(GoThread(d, pc, t).pc))
    ensures !HoldsQueue(GoThread(d, pc, t).pc) ==> Capped(GoThread(d, pc, t).d, None)
  {
  }

  lemma OthersKeepClosed(d: Shared, pc: PC, t: nat)
    requires CanGo(d, pc)
    ensures d.closed ==> GoThread(d, pc, t).d.closed
  {
  }

  lemma CapKept(s: Sys, a: Action)
    requires LocksHeld(s) && CapOk(s) && Enabled(s, a)
    ensures CapOk(Apply(s, a))
  {
    if a.Go? {
      var pc := s.pcs[a.t];
      GoMovesLocks(s.d, pc, a.t);
      LocksKept(s, a);
      if HoldsQueue(pc) {
        HolderKeepsCap(s.d, pc, a.t);
      } else {
        OthersLeaveQueue(s.d, pc, a.t);
        OthersKeepClosed(s.d, pc, a.t);
      }
    }
  }
}
