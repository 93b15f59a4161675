/** What it means that a frame was cut short: it was dropped and some byte of it never goes out. */
module WsCut {
  import opened Frames
  import opened WsModel
  import opened WsLocks
  import opened WsQueue
  import opened WsHistory
  import opened WsWire
  import opened WsTheorems

  /** Bytes out are of pushes that have left the queue, or of the beginning of the next one. */
  predicate TagsBelow(tags: seq<Tag>, left: int, done: nat) {
    forall i :: 0 <= i < |tags| ==> tags[i].id < left || (tags[i].id == left && tags[i].offset < done)
  }

  predicate TagBound(d: Shared) { TagsBelow(d.past.tags, Left(d), |PartialTags(d)|) }

  /** A byte of a dropped frame that is not on the wire. */
  predicate Missing(p: History, f: Queued, o: nat) { f in p.dropped && o < |f.bytes| && Tag(f.id, o) !in p.tags }

  ghost predicate SomeMissing(p: History) { exists f, o: nat :: Missing(p, f, o) }

  ghost predicate CutOk(d: Shared) { TagBound(d) && (d.past.cut ==> SomeMissing(d.past)) }

  lemma ErasedBound(d: Shared, pc: PC, t: nat)
    requires pc.WriteOkErase? && Defined(d, pc) && TagBound(d)
    ensures TagBound(GoOkHandler(d, pc, t).d)
  {
  }

  /** What was missing stays missing: bytes that go out are of frames still queued. */
  lemma StaysMissing(p: History, q: History, f: Queued, o: nat, more: seq<Tag>)
    requires Missing(p, f, o) && q.dropped == p.dropped && q.tags == p.tags + more
    requires forall i :: 0 <= i < |more| ==> more[i].id != f.id
    ensures Missing(q, f, o)
  {
    assert forall t :: t in q.tags ==> t in p.tags || t in more;
  }

  lemma TransferCut(d: Shared, a: Action, m: Mode)
    requires a.Transfer? && a.op in d.writes && SingleWriter(d, m) && Conserved(d) && CutOk(d)
    requires d.writes[a.op].done + a.n <= |d.writes[a.op].frame.bytes|
    ensures CutOk(Outside(d, a))
  {
    var op, d' := d.writes[a.op], Outside(d, a);
    PartialOfOp(d, a.op);
    var more := FrameTags(Left(d), op.done, op.done + a.n);
    assert PartialTags(d') == FrameTags(Left(d), 0, op.done + a.n);
    if d.past.cut {
      var f, o: nat :| Missing(d.past, f, o);
      assert f.id < Left(d) by { DroppedBefore(d, f); }
      StaysMissing(d.past, d'.past, f, o, more);
    }
  }

  lemma DroppedBefore(d: Shared, f: Queued)
    requires Conserved(d) && f in d.past.dropped
    ensures f.id < Left(d) && f == FrameOf(d.past.pushed, f.id)
  {
  }

  lemma MoreDropped(p: History, q: History)
    requires SomeMissing(p) && q.tags == p.tags && (forall f :: f in p.dropped ==> f in q.dropped)
    ensures SomeMissing(q)
  {
    var f, o: nat :| Missing(p, f, o);
    assert Missing(q, f, o);
  }

  lemma ClearCut(d: Shared, k: nat)
    requires k in d.writes && FrontInFlight(d) && Conserved(d) && OpsOk(d) && CutOk(d)
    ensures CutOk(Dropped(d, k))
  {
    var d', done := Dropped(d, k), d.writes[k].done;
    PartialOfOp(d, k);
    assert OpOk(d.writes[k], d.past.broken);
    NothingPartial(d');
    if d.past.cut {
      MoreDropped(d.past, d'.past);
    } else if done < |d.queue[0].bytes| {
      assert Missing(d'.past, d.queue[0], done);
    } else if |d.queue| > 1 {
      assert d.queue[1] == FrameOf(d.past.pushed, Left(d) + 1);
      assert Missing(d'.past, d.queue[1], 0);
    }
  }

  lemma SameCut(d: Shared, d': Shared)
    requires CutOk(d) && Left(d') == Left(d) && |PartialTags(d')| >= |PartialTags(d)|
    requires d'.past.tags == d.past.tags && d'.past.dropped == d.past.dropped && d'.past.cut == d.past.cut
    ensures CutOk(d')
  {
    if d.past.cut { MoreDropped(d.past, d'.past); }
  }

  lemma ChangeCut(d: Shared, pc: PC, t: nat)
    requires CanGo(d, pc) && ChangesQueue(pc) && Conserved(d) && OpsOk(d) && CutOk(d) && SingleWriter(d, Settled)
    ensures CutOk(QueueChange(d, pc, t))
  {
    if pc.Enqueue? {
      SameCut(d, GoWrite(d, pc, t).d);
    } else if pc.WriteOkErase? {
      ErasedBound(d, pc, t);
      if d.past.cut { MoreDropped(d.past, GoOkHandler(d, pc, t).d.past); }
    } else {
      ClearCut(d, pc.op);
    }
  }

  lemma BeginCut(d: Shared, pc: PC, t: nat)
    requires CanGo(d, pc) && Begins(pc) && CutOk(d) && SingleWriter(d, ModeAt(pc))
    ensures CutOk(GoThread(d, pc, t).d)
  {
    if d.writes == map[] { NothingPartial(d); }
    SameCut(d, GoThread(d, pc, t).d);
  }

  lemma CutKeptByGo(d: Shared, pc: PC, t: nat)
    requires CanGo(d, pc) && Conserved(d) && OpsOk(d) && CutOk(d)
    requires HoldsQueue(pc) ==> SingleWriter(d, ModeAt(pc))
    ensures CutOk(GoThread(d, pc, t).d)
  {
    if ChangesQueue(pc) {
      ChangeCut(d, pc, t);
      GoChanges(d, pc, t);
    } else if Begins(pc) {
      BeginCut(d, pc, t);
    } else {
      OtherStepsKeepWrites(d, pc, t);
      SameCut(d, GoThread(d, pc, t).d);
    }
  }

  /** Handlers that start and completions change the status of a write only. */
  lemma PartialStays(s: Sys, a: Action)
    requires Enabled(s, a) && !a.Go? && !a.Transfer?
    ensures PartialTags(Apply(s, a).d) == PartialTags(s.d)
  {
  }

  lemma CutKeptByOther(s: Sys, a: Action)
    requires CutOk(s.d) && Enabled(s, a) && !a.Go? && !a.Transfer?
    ensures CutOk(Apply(s, a).d)
  {
    PartialStays(s, a);
    SameCut(s.d, Apply(s, a).d);
  }

  lemma CutKept(s: Sys, a: Action)
    requires LocksHeld(s) && QueueOk(s) && Conserved(s.d) && OpsOk(s.d) && CutOk(s.d) && Enabled(s, a)
    ensures CutOk(Apply(s, a).d)
  {
    if a.Go? { CutKeptByGo(s.d, s.pcs[a.t], a.t); }
    else if a.Transfer? { TransferCut(s.d, a, ModeOf(s)); }
    else { CutKeptByOther(s, a); }
  }

  lemma {:induction false} CutOverRuns(s: Sys, acts: seq<Action>)
    requires Inv(s) && CutOk(s.d) && IsRun(s, acts)
    ensures CutOk(RunAll(s, acts).d)
    decreases |acts|
  {
    if acts == [] {
    } else {
      InvKept(s, acts[0]);
      CutKept(s, acts[0]);
      CutOverRuns(Apply(s, acts[0]), acts[1..]);
    }
  }

  lemma FrameTagsHas(id: nat, size: nat, o: nat)
    requires o < size
    ensures Tag(id, o) in FrameTags(id, 0, size)
  {
    assert FrameTags(id, 0, size)[o] == Tag(id, o);
  }

  /** As long as nothing is cut, every byte of every push that has left the queue is out. */
  lemma NothingMissing(d: Shared, i: nat, o: nat)
    requires WireFollows(d) && !d.past.cut && i < Left(d) && o < FrameSize(d.past.pushed, i)
    ensures Tag(i, o) in d.past.tags
  {
    var gone := d.past.pushed[..Left(d)];
    TagsSplit(gone, i);
    FrameTagsHas(i, FrameSize(d.past.pushed, i), o);
    var whole := TagsOf(gone[..i]) + FrameTags(i, 0, FrameSize(gone, i));
    assert Tag(i, o) in whole;
    assert whole == TagsOf(gone)[..|whole|];
    assert Tag(i, o) in TagsOf(gone);
  }

  /** A frame was cut if and only if some byte of a dropped frame is not on the wire. */
  lemma CutExactly(s: Sys)
    requires Reachable(s)
    ensures s.d.past.cut <==> SomeMissing(s.d.past)
  {
    ReachableInv(s);
    var s0, acts :| IsInitial(s0) && IsRun(s0, acts) && RunAll(s0, acts) == s;
    InitialInv(s0);
    CutOverRuns(s0, acts);
    if SomeMissing(s.d.past) {
      var f, o: nat :| Missing(s.d.past, f, o);
      DroppedBefore(s.d, f);
      if !s.d.past.cut { NothingMissing(s.d, f.id, o); }
    }
  }
}
