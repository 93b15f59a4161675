/** What can still go out after a write has failed, and in which order the hooks may be called: `stop`
    is not atomic, and a connection is in the registry before it is started. */
module WsFailure {
  import opened Text
  import opened Frames
  import opened WsModel
  import opened WsLocks
  import opened WsQueue
  import opened WsHistory
  import opened WsWire
  import opened WsClosing
  import opened WsTheorems
  import opened WsConnection

  // ----- bytes after a failure -----

  /** The newest write has failed and its handler has not yet cleared the queue. */
  predicate FailurePending(d: Shared) {
    && d.ops > 0 && d.ops - 1 in d.writes
    && !d.writes[d.ops - 1].status.InFlight? && !d.writes[d.ops - 1].status.ok
  }

  /** The handler has cleared the queue and is about to set the flag. */
  predicate AboutToClose(d: Shared, holder: Option<PC>) {
    holder == Some(Stopping(TestFlag, ToUnlockHandler)) && d.queue == []
  }

  predicate FailureLeads(d: Shared, holder: Option<PC>) {
    d.past.broken ==> d.closed || FailurePending(d) || AboutToClose(d, holder)
  }

  lemma FailureByHolder(d: Shared, pc: PC, t: nat)
    requires CanGo(d, pc) && HoldsQueue(pc) && SingleWriter(d, ModeAt(pc)) && HandlerExact(d, pc, t)
    requires FailureLeads(d, Some(pc))
    ensures var n := GoThread(d, pc, t);
            FailureLeads(n.d, if HoldsQueue(n.pc) then Some(n.pc) else None)
  {
    OthersKeepClosed(d, pc, t);
    if d.past.broken && !d.closed {
      if pc.Stopping? { StopLeavesQueue(d, pc, t); }
      else if InWrite(pc) { WriteKeepsFailure(d, pc, t); }
      else if InOkHandler(pc) { HandlerKeepsFailure(d, pc, t); }
      else { ClearLeadsToClose(d, pc, t); }
    } else if !d.past.broken {
      HolderBreaksNothing(d, pc, t);
    }
  }

  lemma ClearLeadsToClose(d: Shared, pc: PC, t: nat)
    requires CanGo(d, pc) && pc.WriteErrClear?
    ensures var n := GoErrHandler(d, pc, t);
            HoldsQueue(n.pc) && AboutToClose(n.d, Some(n.pc))
  {
  }

  lemma HolderBreaksNothing(d: Shared, pc: PC, t: nat)
    requires CanGo(d, pc)
    ensures GoThread(d, pc, t).d.past.broken == d.past.broken
  {
    if ChangesQueue(pc) { GoChanges(d, pc, t); }
    else if !Begins(pc) { OtherStepsKeepWrites(d, pc, t); }
  }

  lemma WriteKeepsFailure(d: Shared, pc: PC, t: nat)
    requires CanGo(d, pc) && InWrite(pc) && HoldsQueue(pc) && SingleWriter(d, ModeAt(pc)) && FailurePending(d)
    ensures FailurePending(GoWrite(d, pc, t).d)
  {
  }

  lemma HandlerKeepsFailure(d: Shared, pc: PC, t: nat)
    requires CanGo(d, pc) && InOkHandler(pc) && HoldsQueue(pc) && SingleWriter(d, ModeAt(pc)) && HandlerExact(d, pc, t)
    requires FailurePending(d)
    ensures FailurePending(GoOkHandler(d, pc, t).d)
  {
  }

  ghost predicate FailureOk(s: Sys) { FailureLeads(s.d, Holder(s)) }

  /** Without the queue lock a thread neither ends a failure nor changes who holds the lock. */
  lemma FailureByOthers(s: Sys, t: nat)
    requires LocksHeld(s) && FailureOk(s) && Enabled(s, Go(t)) && !HoldsQueue(s.pcs[t])
    ensures FailureOk(Apply(s, Go(t)))
  {
    GoMovesLocks(s.d, s.pcs[t], t);
    LocksKept(s, Go(t));
    OthersLeaveQueue(s.d, s.pcs[t], t);
    OthersKeepClosed(s.d, s.pcs[t], t);
  }

  lemma FailureKeptByHolder(s: Sys, t: nat)
    requires Inv(s) && FailureOk(s) && Enabled(s, Go(t)) && HoldsQueue(s.pcs[t])
    ensures FailureOk(Apply(s, Go(t)))
  {
    GoMovesLocks(s.d, s.pcs[t], t);
    FailureByHolder(s.d, s.pcs[t], t);
  }

  lemma FailureKept(s: Sys, a: Action)
    requires Inv(s) && FailureOk(s) && Enabled(s, a)
    ensures FailureOk(Apply(s, a))
  {
    if a.Go? {
      if HoldsQueue(s.pcs[a.t]) { FailureKeptByHolder(s, a.t); } else { FailureByOthers(s, a.t); }
    } else if ByThreadAction(a) {
      FailureByStart(s, a);
    } else {
      FailureOutside(s, a);
    }
  }

  lemma FailureByStart(s: Sys, a: Action)
    requires Inv(s) && FailureOk(s) && Enabled(s, a) && ByThreadAction(a) && !a.Go?
    ensures FailureOk(Apply(s, a))
  {
  }

  lemma FailureOutside(s: Sys, a: Action)
    requires Inv(s) && FailureOk(s) && Enabled(s, a) && !ByThreadAction(a)
    ensures FailureOk(Apply(s, a))
  {
    if !a.CompleteRead? { WriteIsFront(s, a.op); }
    OutsideLeads(s.d, a, Holder(s));
  }

  lemma OutsideLeads(d: Shared, a: Action, holder: Option<PC>)
    requires a.Transfer? || a.Complete? || a.CompleteRead?
    requires !a.CompleteRead? ==> a.op in d.writes && FrontInFlight(d) && d.writes[a.op].status.InFlight?
    requires a.Transfer? ==> d.writes[a.op].done + a.n <= |d.writes[a.op].frame.bytes|
    requires FailureLeads(d, holder)
    ensures FailureLeads(Outside(d, a), holder)
  {
  }

  lemma {:induction false} FailureOverRuns(s: Sys, acts: seq<Action>)
    requires Inv(s) && FailureOk(s) && IsRun(s, acts)
    ensures FailureOk(RunAll(s, acts))
    decreases |acts|
  {
    if acts == [] {
    } else {
      InvKept(s, acts[0]);
      FailureKept(s, acts[0]);
      FailureOverRuns(Apply(s, acts[0]), acts[1..]);
    }
  }

  lemma FailureReachable(s: Sys)
    requires Reachable(s)
    ensures FailureOk(s)
  {
    var s0, acts :| IsInitial(s0) && IsRun(s0, acts) && RunAll(s0, acts) == s;
    InitialInv(s0);
    FailureOverRuns(s0, acts);
  }

  /** A thread that has set the flag and has not yet shut the socket down. */
  predicate ClosingHalfway(s: Sys) {
    s.d.closed && s.d.past.closer < |s.pcs| && SocketStillOpen(s.pcs[s.d.past.closer])
  }

  /** Behind a failed write bytes go out only while the thread that closes the connection stands between
      setting the flag and the end of the shutdown. */
  lemma BytesAfterFailure(s: Sys, k: nat, n: nat)
    requires Reachable(s) && s.d.past.broken && Enabled(s, Transfer(k, n))
    ensures ClosingHalfway(s)
  {
    ReachableInv(s);
    FailureReachable(s);
    assert k == s.d.ops - 1;
  }

  // ----- when the stream is whole -----

  /** The bytes on the wire, each known by its frame and place, are the beginning of all pushed frames if
      and only if none went out behind a frame that a failed write had cut short. */
  lemma StreamWholeExactly(s: Sys)
    requires Reachable(s)
    ensures s.d.past.tags <= TagsOf(s.d.past.pushed) <==> !s.d.past.late
  {
    ReachableInv(s);
    if !s.d.past.late && !s.d.past.cut {
      PartialFits(s);
      SplitFits(s.d.past.pushed, Left(s.d), PartialTags(s.d));
    }
  }

  lemma PartialFits(s: Sys)
    requires Inv(s)
    ensures var d := s.d;
            PartialTags(d) == [] ||
            (Left(d) < |d.past.pushed| && PartialTags(d) <= FrameTags(Left(d), 0, FrameSize(d.past.pushed, Left(d))))
  {
    var d := s.d;
    if PartialTags(d) != [] {
      var k := d.ops - 1;
      assert k in d.writes;
      WriteIsFront(s, k);
      WriteIsOk(s, k);
      FrontFits(d, k);
    }
  }

  lemma WriteIsOk(s: Sys, k: nat)
    requires Inv(s) && k in s.d.writes
    ensures Conserved(s.d) && OpOk(s.d.writes[k], s.d.past.broken)
  {
  }

  lemma WriteIsFront(s: Sys, k: nat)
    requires Inv(s) && k in s.d.writes
    ensures FrontInFlight(s.d)
  {
  }

  lemma FrontFits(d: Shared, k: nat)
    requires FrontInFlight(d) && Conserved(d) && k in d.writes && OpOk(d.writes[k], d.past.broken)
    ensures Left(d) < |d.past.pushed| && PartialTags(d) <= FrameTags(Left(d), 0, FrameSize(d.past.pushed, Left(d)))
  {
    PartialOfOp(d, k);
    TagsBefore(Left(d), d.writes[k].done, FrameSize(d.past.pushed, Left(d)));
  }

  lemma SplitFits(pushed: seq<Message>, left: nat, partial: seq<Tag>)
    requires left <= |pushed|
    requires partial == [] || (left < |pushed| && partial <= FrameTags(left, 0, FrameSize(pushed, left)))
    ensures TagsOf(pushed[..left]) + partial <= TagsOf(pushed)
  {
    if left < |pushed| {
      TagsSplit(pushed, left);
    } else {
      assert pushed[..left] == pushed;
    }
  }

  /** Then, whatever failed, the client understands exactly the first of the pushed messages, as many as
      are out whole. */
  lemma StreamWhole(s: Sys)
    requires Reachable(s) && !s.d.past.late
    ensures var p := s.d.past;
            && p.wire <= EncodeAll(p.pushed) && Understand(p.wire).valid
            && Understand(p.wire).messages == p.pushed[..WholeWithin(p.pushed, |p.wire|)]
  {
    ReachableInv(s);
    StreamWholeExactly(s);
    TagsDecide(s.d.past.pushed, s.d.past.tags, s.d.past.wire);
    UnderstandBeginning(s.d.past.pushed, s.d.past.wire);
  }

  /** Bytes behind a cut frame break the stream for good, and it is broken in no other way: by bytes
      that go out behind a failed write, while a thread closes halfway. */
  lemma BrokenByLateBytes(s: Sys, a: Action)
    requires Reachable(s) && Enabled(s, a)
    ensures var p, q := s.d.past, Apply(s, a).d.past;
            && (p.tags <= TagsOf(p.pushed) ==> (q.tags <= TagsOf(q.pushed) <==> !(a.Transfer? && p.cut)))
            && (!(p.tags <= TagsOf(p.pushed)) ==> !(q.tags <= TagsOf(q.pushed)))
            && (a.Transfer? && p.cut ==> p.broken && ClosingHalfway(s))
  {
    ReachableInv(s);
    ReachableStep(s, a);
    StreamWholeExactly(s);
    StreamWholeExactly(Apply(s, a));
    LateOnlyByTransfer(s, a);
    if a.Transfer? && s.d.past.cut { BytesAfterFailure(s, a.op, a.n); }
  }

  lemma LateOnlyByTransfer(s: Sys, a: Action)
    requires Enabled(s, a)
    ensures Apply(s, a).d.past.late == (s.d.past.late || (a.Transfer? && s.d.past.cut))
  {
    if a.Go? { GoNotLate(s.d, s.pcs[a.t], a.t); }
  }

  lemma GoNotLate(d: Shared, pc: PC, t: nat)
    requires CanGo(d, pc)
    ensures GoThread(d, pc, t).d.past.late == d.past.late
  {
    if ChangesQueue(pc) { GoChanges(d, pc, t); }
    else if !Begins(pc) { OtherStepsKeepWrites(d, pc, t); }
  }

  /** A run in which no bytes go out behind a failed write while a thread closes halfway. */
  predicate QuietRun(s: Sys, acts: seq<Action>)
    requires IsRun(s, acts)
    decreases |acts|
  {
    acts == [] ||
    (!(acts[0].Transfer? && s.d.past.broken && ClosingHalfway(s)) && QuietRun(Apply(s, acts[0]), acts[1..]))
  }

  /** The stream of such a run is whole to the very end. */
  lemma {:induction false} QuietRunStaysWhole(s: Sys, acts: seq<Action>)
    requires Reachable(s) && IsRun(s, acts) && QuietRun(s, acts) && !s.d.past.late
    ensures !RunAll(s, acts).d.past.late
    decreases |acts|
  {
    if acts == [] {
    } else {
      ReachableInv(s);
      ReachableStep(s, acts[0]);
      LateOnlyByTransfer(s, acts[0]);
      if acts[0].Transfer? && s.d.past.cut { BytesAfterFailure(s, acts[0].op, acts[0].n); }
      QuietRunStaysWhole(Apply(s, acts[0]), acts[1..]);
    }
  }

  // ----- runs -----

  /** A thread left to itself makes a run. */
  lemma {:induction false} ReachableAlone(s: Sys, t: nat)
    requires Reachable(s) && t < |s.pcs|
    ensures var n := Uninterrupted(s.d, s.pcs[t], t); Reachable(Sys(s.pcs[t := n.pc], n.d))
    decreases StepsLeft(s.pcs[t])
  {
    var pc := s.pcs[t];
    if pc.LetGo? || pc.UnlockRegistry? || !CanGo(s.d, pc) {
      assert s.pcs[t := pc] == s.pcs;
    } else {
      GoShortens(s.d, pc, t);
      ReachableStep(s, Go(t));
      var s' := Apply(s, Go(t));
      ReachableAlone(s', t);
      var n := Uninterrupted(s'.d, s'.pcs[t], t);
      assert s.pcs[t := s'.pcs[t]][t := n.pc] == s.pcs[t := n.pc];
    }
  }

  /** A step of a thread whose effect is known. */
  lemma Step(pcs: seq<PC>, d: Shared, t: nat, n: Next)
    requires Reachable(Sys(pcs, d)) && t < |pcs| && CanGo(d, pcs[t]) && GoThread(d, pcs[t], t) == n
    ensures Reachable(Sys(pcs[t := n.pc], n.d))
  {
    ReachableStep(Sys(pcs, d), Go(t));
  }

  lemma StepForward(pcs: seq<PC>, d: Shared, t: nat, n: Next)
    requires Reachable(Sys(pcs, d)) && t < |pcs| && InForward(pcs[t]) && !Blocked(d, pcs[t])
        && GoForward(d, pcs[t], t) == n
    ensures Reachable(Sys(pcs[t := n.pc], n.d))
  {
    Step(pcs, d, t, n);
  }

  lemma StepRelease(pcs: seq<PC>, d: Shared, t: nat, n: Next)
    requires Reachable(Sys(pcs, d)) && t < |pcs| && InRelease(pcs[t]) && GoRelease(d, pcs[t], t) == n
    ensures Reachable(Sys(pcs[t := n.pc], n.d))
  {
    Step(pcs, d, t, n);
  }

  lemma Alone(pcs: seq<PC>, d: Shared, t: nat, n: Next)
    requires Reachable(Sys(pcs, d)) && t < |pcs| && Uninterrupted(d, pcs[t], t) == n
    ensures Reachable(Sys(pcs[t := n.pc], n.d))
  {
    ReachableAlone(Sys(pcs, d), t);
  }

  /** `WSPush` by one thread with no other in between: the message is queued, and written if it is alone. */
  lemma PushReachable(pcs: seq<PC>, d: Shared, t: nat, m: Message)
    requires Reachable(Sys(pcs, d)) && t < |pcs| && pcs[t].Idle?
    requires d.registryLock == None && d.queueLock == None && d.registered && !Destroyed(d) && ByThread(t) !in d.owners
    ensures Reachable(Sys(pcs, PushAll(Accepted(d, m), m, t)))
  {
    var d1 := Accepted(d, m).(registryLock := Some(t), owners := d.owners + {ByThread(t)});
    FindReachable(pcs, d, t, m);
    WrittenReachable(pcs, d1, t, m);
    PushAllOwners(d, m, t, d1);
    ReturnReachable(pcs, PushAll(d1, m, t), t, PushAll(Accepted(d, m), m, t));
  }

  lemma WrittenReachable(pcs: seq<PC>, d: Shared, t: nat, m: Message)
    requires t < |pcs| && Reachable(Sys(pcs[t := Encoding(m)], d)) && d.queueLock == None
    ensures Reachable(Sys(pcs[t := LetGo(true)], PushAll(d, m, t)))
  {
    PushAlone(d, m, t);
    Alone(pcs[t := Encoding(m)], d, t, Next(LetGo(true), PushAll(d, m, t)));
    assert pcs[t := Encoding(m)][t := LetGo(true)] == pcs[t := LetGo(true)];
  }

  /** The reference of the pushing thread makes no difference to the push. */
  lemma PushAllOwners(d: Shared, m: Message, t: nat, d1: Shared)
    requires !Destroyed(d) && ByThread(t) !in d.owners
    requires d1 == Accepted(d, m).(registryLock := Some(t), owners := d.owners + {ByThread(t)})
    ensures var e, e' := PushAll(d1, m, t), PushAll(Accepted(d, m), m, t);
            && e.owners == e'.owners + {ByThread(t)} && ByThread(t) !in e'.owners && e'.owners != {}
            && e'.(registryLock := Some(t), owners := e.owners) == e && e'.registryLock == d.registryLock
  {
    assert d.owners + {ByThread(t)} + {ByWrite(d.ops)} == d.owners + {ByWrite(d.ops)} + {ByThread(t)};
    assert d.owners <= PushAll(Accepted(d, m), m, t).owners;
  }

  function Accepted(d: Shared, m: Message): Shared {
    Named(d).(past := Named(d).past.(accepted := d.past.accepted + [m]))
  }

  lemma FindReachable(pcs: seq<PC>, d: Shared, t: nat, m: Message)
    requires Reachable(Sys(pcs, d)) && t < |pcs| && pcs[t].Idle?
    requires d.registryLock == None && d.registered && !Destroyed(d)
    ensures Reachable(Sys(pcs[t := Encoding(m)],
                          Accepted(d, m).(registryLock := Some(t), owners := d.owners + {ByThread(t)})))
  {
    var d1 := Named(d).(registryLock := Some(t));
    LookupReachable(pcs, d, t, Push(m));
    StepForward(pcs[t := Lookup(Push(m))], d1, t,
                Next(Encoding(m), Accepted(d, m).(registryLock := Some(t), owners := d.owners + {ByThread(t)})));
    assert pcs[t := Lookup(Push(m))][t := Encoding(m)] == pcs[t := Encoding(m)];
  }

  lemma LookupReachable(pcs: seq<PC>, d: Shared, t: nat, job: Job)
    requires Reachable(Sys(pcs, d)) && t < |pcs| && pcs[t].Idle? && d.registryLock == None
    ensures Reachable(Sys(pcs[t := Lookup(job)], Named(d).(registryLock := Some(t))))
  {
    ReachableStep(Sys(pcs, d), Call(t, job));
    StepForward(pcs[t := WaitRegistry(job)], Named(d), t, Next(Lookup(job), Named(d).(registryLock := Some(t))));
    assert pcs[t := WaitRegistry(job)][t := Lookup(job)] == pcs[t := Lookup(job)];
  }

  lemma ReturnReachable(pcs: seq<PC>, d: Shared, t: nat, d': Shared)
    requires t < |pcs| && pcs[t].Idle? && Reachable(Sys(pcs[t := LetGo(true)], d))
    requires d.owners == d'.owners + {ByThread(t)} && ByThread(t) !in d'.owners && d'.owners != {}
    requires d' == d.(registryLock := None, owners := d'.owners)
    ensures Reachable(Sys(pcs, d'))
  {
    var d1 := d.(owners := d'.owners);
    assert d.owners - {ByThread(t)} == d'.owners;
    StepRelease(pcs[t := LetGo(true)], d, t, Next(UnlockRegistry, d1));
    assert pcs[t := LetGo(true)][t := UnlockRegistry] == pcs[t := UnlockRegistry];
    UnlockReachable(pcs, d1, t, d');
  }

  lemma UnlockReachable(pcs: seq<PC>, d: Shared, t: nat, d': Shared)
    requires t < |pcs| && pcs[t].Idle? && Reachable(Sys(pcs[t := UnlockRegistry], d))
    requires d' == d.(registryLock := None)
    ensures Reachable(Sys(pcs, d'))
  {
    StepForward(pcs[t := UnlockRegistry], d, t, Next(Idle, d'));
    assert pcs[t := UnlockRegistry][t := Idle] == pcs;
  }

  const FRESH: Shared := Fresh(0)

  /** The connection is created and its reading started. */
  const CREATED: Shared :=
    FRESH.(registered := true, owners := {ByRead}, read := Reading, past := FRESH.past.(opens := 1))

  lemma FreshReachable(others: nat)
    ensures Reachable(Sys([AddWait] + seq(others, i => Idle), FRESH))
  {
    InitialReachable(Sys([AddWait] + seq(others, i => Idle), FRESH));
  }

  lemma CreatedAlone()
    ensures Uninterrupted(FRESH, AddWait, 0) == Next(LetGo(false), CREATED.(owners := {ByThread(0), ByRead}))
  {
    CreateAlone(FRESH, 0);
    OpenAlone(FRESH.(registered := true), 0);
    assert FRESH.owners + {ByRead} == {ByThread(0), ByRead};
  }

  /** A thread that is not the last lets its reference go. */
  lemma LetGoReachable(pcs: seq<PC>, d: Shared, t: nat, d': Shared)
    requires t < |pcs| && Reachable(Sys(pcs, d)) && pcs[t] == LetGo(false)
    requires d'.owners == d.owners - {ByThread(t)} && d'.owners != {} && d' == d.(owners := d'.owners)
    ensures Reachable(Sys(pcs[t := Idle], d'))
  {
    StepRelease(pcs, d, t, Next(Idle, d'));
  }

  lemma StartedReachable()
    ensures Reachable(Sys([LetGo(false), Idle, Idle], CREATED.(owners := {ByThread(0), ByRead})))
  {
    ThreeReachable();
    CreatedAlone();
    StartedFrom([AddWait, Idle, Idle], FRESH, CREATED.(owners := {ByThread(0), ByRead}));
  }

  lemma ThreeReachable()
    ensures Reachable(Sys([AddWait, Idle, Idle], FRESH))
  {
    assert [AddWait] + seq(2, i => Idle) == [AddWait, Idle, Idle];
    FreshReachable(2);
  }

  lemma StartedFrom(pcs: seq<PC>, d: Shared, d': Shared)
    requires pcs == [AddWait, Idle, Idle] && Reachable(Sys(pcs, d))
    requires Uninterrupted(d, AddWait, 0) == Next(LetGo(false), d')
    ensures Reachable(Sys([LetGo(false), Idle, Idle], d'))
  {
    Alone(pcs, d, 0, Next(LetGo(false), d'));
    assert pcs[0 := LetGo(false)] == [LetGo(false), Idle, Idle];
  }

  lemma CreatedReachable()
    ensures Reachable(Sys([Idle, Idle, Idle], CREATED))
  {
    StartedReachable();
    assert {ByThread(0), ByRead} - {ByThread(0)} == {ByRead};
    LetGoReachable([LetGo(false), Idle, Idle], CREATED.(owners := {ByThread(0), ByRead}), 0, CREATED);
    assert [LetGo(false), Idle, Idle][0 := Idle] == [Idle, Idle, Idle];
  }

  // ----- a client that takes nothing -----

  /** So many frames are queued, none is written, and the connection is closed exactly if they are more than 100. */
  predicate Backlog(d: Shared, n: nat) {
    && d.registryLock == None && d.queueLock == None && d.registered
    && d.owners == {ByRead} + (if n > 0 then {ByWrite(0)} else {}) && d.ops == (if n > 0 then 1 else 0)
    && |d.queue| == n && |d.past.pushed| == n && d.past.sent == [] && d.past.dropped == []
    && (d.closed <==> n > 100) && d.past.closes == (if n > 100 then 1 else 0)
  }

  /** Any number of pushes in a row with no write completed can happen: the connection stays open up to the hundredth,
      and is closed once from the next on. */
  lemma {:induction false} BacklogReachable(n: nat) returns (s: Sys)
    ensures Reachable(s) && Backlog(s.d, n) && s.pcs == [Idle, Idle, Idle]
  {
    if n == 0 {
      CreatedReachable();
      s := Sys([Idle, Idle, Idle], CREATED);
    } else {
      var s' := BacklogReachable(n - 1);
      PushReachable(s'.pcs, s'.d, 1, []);
      OneMoreQueued(s'.d, n - 1);
      s := Sys(s'.pcs, PushAll(Accepted(s'.d, []), [], 1));
    }
  }

  lemma OneMoreQueued(d: Shared, n: nat)
    requires Backlog(d, n)
    ensures Backlog(PushAll(Accepted(d, []), [], 1), n + 1)
  {
  }

  // ----- a stream broken after a failed write -----

  const EMPTY: seq<Byte> := [ONE_FRAGMENT_TEXT, 0]      // the frame of an empty message
  const STOPPED_HALFWAY: PC := Stopping(Shutdown, ToLetGo(false))

  function Op(i: nat, done: nat, status: Status): WriteOp { WriteOp(Queued(i, EMPTY), done, status) }

  /** One byte of the first frame is out, and a thread handles a read. */
  const BEGUN: Shared :=
    CREATED.(queue := [Queued(0, EMPTY)], writes := map[0 := Op(0, 1, InFlight)], ops := 1,
             owners := {ByThread(2), ByWrite(0)}, read := Handled,
             past := CREATED.past.(accepted := [[]], pushed := [[]], wire := [ONE_FRAGMENT_TEXT], tags := [Tag(0, 0)]))

  /** That thread has set the flag, called back and cancelled. */
  const CANCELLED: Shared := BEGUN.(closed := true, past := BEGUN.past.(closes := 1, closer := 2))

  /** The cancelled write has failed, and its handler has cleared the queue and found the flag set. */
  const CLEARED: Shared :=
    CANCELLED.(queue := [], writes := map[], owners := {ByThread(2)},
               past := CANCELLED.past.(dropped := [Queued(0, EMPTY)], broken := true, cut := true))

  /** Another push has come before the shutdown. */
  const RESUMED: Shared :=
    CLEARED.(queue := [Queued(1, EMPTY)], writes := map[1 := Op(1, 0, InFlight)], ops := 2,
             owners := {ByThread(2), ByWrite(1)},
             past := CLEARED.past.(accepted := [[], []], pushed := [[], []]))

  /** The first push has begun its write and nothing else has happened. */
  const SENDING: Shared :=
    BEGUN.(writes := map[0 := Op(0, 0, InFlight)], owners := {ByRead, ByWrite(0)}, read := Reading,
           past := BEGUN.past.(wire := [], tags := []))

  lemma SendingReachable()
    ensures Reachable(Sys([Idle, Idle, Idle], SENDING))
  {
    CreatedReachable();
    PushReachable([Idle, Idle, Idle], CREATED, 1, []);
    FirstPush();
  }

  lemma BegunReachable()
    ensures Reachable(Sys([Idle, Idle, ReadHandle], BEGUN))
  {
    var idle := [Idle, Idle, Idle];
    SendingReachable();
    var d := SENDING.(writes := BEGUN.writes, past := BEGUN.past);
    FirstByteOut(d);
    Outwards(idle, SENDING, Transfer(0, 1), d);
    Outwards(idle, d, CompleteRead, d.(read := Arrived));
    assert {ByRead, ByWrite(0)} - {ByRead} + {ByThread(2)} == BEGUN.owners;
    ReachableStep(Sys(idle, d.(read := Arrived)), DispatchRead(2));
    assert idle[2 := ReadHandle] == [Idle, Idle, ReadHandle];
  }

  lemma FirstByteOut(d: Shared)
    requires d == SENDING.(writes := BEGUN.writes, past := BEGUN.past)
    ensures Outside(SENDING, Transfer(0, 1)) == d
  {
    assert EMPTY[0..1] == [ONE_FRAGMENT_TEXT] && FrameTags(0, 0, 1) == [Tag(0, 0)];
  }

  lemma FirstPush()
    ensures PushAll(Accepted(CREATED, []), [], 1) == SENDING
  {
    assert Encode(ONE_FRAGMENT_TEXT, []) == EMPTY;
    assert {ByRead} + {ByWrite(0)} == {ByRead, ByWrite(0)};
  }

  lemma Outwards(pcs: seq<PC>, d: Shared, a: Action, d': Shared)
    requires Reachable(Sys(pcs, d)) && !ByThreadAction(a) && Enabled(Sys(pcs, d), a) && Outside(d, a) == d'
    ensures Reachable(Sys(pcs, d'))
  {
    ReachableStep(Sys(pcs, d), a);
  }

  lemma StepStop(pcs: seq<PC>, d: Shared, t: nat, n: Next)
    requires Reachable(Sys(pcs, d)) && t < |pcs| && pcs[t].Stopping? && GoStop(d, pcs[t], t) == n
    ensures Reachable(Sys(pcs[t := n.pc], n.d))
  {
    Step(pcs, d, t, n);
  }

  lemma StepRead(pcs: seq<PC>, d: Shared, t: nat)
    requires Reachable(Sys(pcs, d)) && t < |pcs| && pcs[t].ReadHandle?
    ensures Reachable(Sys(pcs[t := Stopping(TestFlag, ToLetGo(false))], d))
  {
    Step(pcs, d, t, Next(Stopping(TestFlag, ToLetGo(false)), d));
  }

  /** That thread has set the flag. */
  const FLAGGED: Shared := BEGUN.(closed := true, past := BEGUN.past.(closer := 2))

  lemma FlaggedReachable()
    ensures Reachable(Sys([Idle, Idle, Stopping(Callback, ToLetGo(false))], FLAGGED))
  {
    var k := ToLetGo(false);
    BegunReachable();
    StepRead([Idle, Idle, ReadHandle], BEGUN, 2);
    StepStop([Idle, Idle, Stopping(TestFlag, k)], BEGUN, 2, Next(Stopping(Callback, k), FLAGGED));
  }

  lemma CancelledReachable()
    ensures Reachable(Sys([Idle, Idle, STOPPED_HALFWAY], CANCELLED))
  {
    var k := ToLetGo(false);
    FlaggedReachable();
    StepStop([Idle, Idle, Stopping(Callback, k)], FLAGGED, 2, Next(Stopping(Cancel, k), CANCELLED));
    StepStop([Idle, Idle, Stopping(Cancel, k)], CANCELLED, 2, Next(Stopping(Shutdown, k), CANCELLED));
  }

  /** The handler of the cancelled write is about to run. */
  const FAILED: Shared :=
    CANCELLED.(writes := map[0 := Op(0, 1, Handling(1, false))], owners := {ByThread(1), ByThread(2)},
               past := CANCELLED.past.(broken := true))

  /** The cancelled write has failed. */
  const ABORTED: Shared :=
    CANCELLED.(writes := map[0 := Op(0, 1, Completed(false))], past := CANCELLED.past.(broken := true))

  lemma AbortedReachable()
    ensures Reachable(Sys([Idle, Idle, STOPPED_HALFWAY], ABORTED))
  {
    CancelledReachable();
    Outwards([Idle, Idle, STOPPED_HALFWAY], CANCELLED, Complete(0, false), ABORTED);
  }

  lemma FailedReachable()
    ensures Reachable(Sys([Idle, WriteErrReport(0), STOPPED_HALFWAY], FAILED))
  {
    var pcs := [Idle, Idle, STOPPED_HALFWAY];
    AbortedReachable();
    assert ABORTED.owners - {ByWrite(0)} + {ByThread(1)} == FAILED.owners;
    ReachableStep(Sys(pcs, ABORTED), Dispatch(1, 0));
    assert pcs[1 := WriteErrReport(0)] == [Idle, WriteErrReport(0), STOPPED_HALFWAY];
  }

  lemma ClearedReachable()
    ensures Reachable(Sys([Idle, Idle, STOPPED_HALFWAY], CLEARED))
  {
    FailedReachable();
    FailedHandled();
    FailedThread(STOPPED_HALFWAY, FAILED, CLEARED.(owners := FAILED.owners));
    LastOfFailed(STOPPED_HALFWAY, CLEARED.(owners := FAILED.owners), CLEARED);
  }

  lemma FailedHandled()
    ensures Uninterrupted(FAILED, WriteErrReport(0), 1) == Next(LetGo(false), CLEARED.(owners := FAILED.owners))
  {
    FailAlone(FAILED, 0, 1);
    FailedOnce(FAILED);
  }

  lemma FailedThread(other: PC, d: Shared, d': Shared)
    requires Reachable(Sys([Idle, WriteErrReport(0), other], d))
    requires Uninterrupted(d, WriteErrReport(0), 1) == Next(LetGo(false), d')
    ensures Reachable(Sys([Idle, LetGo(false), other], d'))
  {
    var handling := [Idle, WriteErrReport(0), other];
    Alone(handling, d, 1, Next(LetGo(false), d'));
    assert handling[1 := LetGo(false)] == [Idle, LetGo(false), other];
  }

  lemma LastOfFailed(other: PC, d: Shared, d': Shared)
    requires Reachable(Sys([Idle, LetGo(false), other], d))
    requires d.owners == {ByThread(1), ByThread(2)} && d' == d.(owners := {ByThread(2)})
    ensures Reachable(Sys([Idle, Idle, other], d'))
  {
    var done := [Idle, LetGo(false), other];
    assert d.owners - {ByThread(1)} == d'.owners;
    LetGoReachable(done, d, 1, d');
    assert done[1 := Idle] == [Idle, Idle, other];
  }

  lemma FailedOnce(d: Shared)
    requires d == CANCELLED.(writes := map[0 := Op(0, 1, Handling(1, false))], owners := {ByThread(1), ByThread(2)},
                             past := CANCELLED.past.(broken := true))
    ensures FailAll(d, 0, 1) == CLEARED.(owners := d.owners)
  {
    assert d.writes - {0} == map[];
  }

  lemma SecondPush()
    ensures PushAll(Accepted(CLEARED, []), [], 1) == RESUMED
  {
    assert Encode(ONE_FRAGMENT_TEXT, []) == EMPTY;
    assert {ByThread(2)} + {ByWrite(1)} == RESUMED.owners;
  }

  lemma ResumedReachable()
    ensures Reachable(Sys([Idle, Idle, STOPPED_HALFWAY], RESUMED))
  {
    ClearedReachable();
    PushReachable([Idle, Idle, STOPPED_HALFWAY], CLEARED, 1, []);
    SecondPush();
  }

  /** The second frame is out behind the first byte of the first. */
  const TORN: Shared :=
    RESUMED.(writes := map[1 := Op(1, 2, InFlight)],
             past := RESUMED.past.(wire := EMPTY[..1] + EMPTY, tags := [Tag(0, 0), Tag(1, 0), Tag(1, 1)], late := true))

  lemma SecondFrameOut()
    ensures Outside(RESUMED, Transfer(1, 2)) == TORN
  {
    assert EMPTY[0..2] == EMPTY && EMPTY[..1] == [ONE_FRAGMENT_TEXT];
    assert [Tag(0, 0)] + FrameTags(1, 0, 2) == [Tag(0, 0), Tag(1, 0), Tag(1, 1)];
  }

  /** Not so once a frame is cut: the client may get the beginning of a cancelled frame and behind it a
      whole frame of a later push, which is no stream of frames any more. */
  lemma StreamBrokenAfterFailure() returns (s: Sys)
    ensures Reachable(s) && s.d.past.broken && s.d.past.closes == 1 && s.d.past.late
    ensures s.d.past.pushed == [[], []] && s.d.past.wire == EMPTY[..1] + EMPTY && !Understand(s.d.past.wire).valid
  {
    var pcs := [Idle, Idle, STOPPED_HALFWAY];
    ResumedReachable();
    SecondFrameOut();
    Outwards(pcs, RESUMED, Transfer(1, 2), TORN);
    s := Sys(pcs, TORN);
    assert TORN.past.wire == [129, 129, 0];
  }
}
