/** Which bytes of which frames are on the wire, also behind a failed write. */
module WsWire {
  import opened Frames
  import opened WsModel
  import opened WsLocks
  import opened WsQueue
  import opened WsHistory

  // ----- all bytes of all pushes, in order -----

  function TagsOf(pushed: seq<Message>): seq<Tag> {
    if pushed == [] then []
    else
      var n := |pushed| - 1;
      TagsOf(pushed[..n]) + FrameTags(n, 0, |Encode(ONE_FRAGMENT_TEXT, pushed[n])|)
  }

  lemma TagsOneMore(pushed: seq<Message>, m: Message)
    ensures TagsOf(pushed + [m]) == TagsOf(pushed) + FrameTags(|pushed|, 0, |Encode(ONE_FRAGMENT_TEXT, m)|)
  {
    assert (pushed + [m])[..|pushed|] == pushed;
  }

  function FrameSize(pushed: seq<Message>, i: nat): (n: nat)
    requires i < |pushed|
    ensures n >= 2
  {
    |Encode(ONE_FRAGMENT_TEXT, pushed[i])|
  }

  /** The bytes of one push stand behind those of all pushes before it. */
  lemma {:induction false} TagsSplit(pushed: seq<Message>, i: nat)
    requires i < |pushed|
    ensures TagsOf(pushed[..i]) + FrameTags(i, 0, FrameSize(pushed, i)) <= TagsOf(pushed)
    decreases |pushed|
  {
    var n := |pushed| - 1;
    if i == n {
    } else {
      var first := pushed[..n];
      TagsSplit(first, i);
      assert first[..i] == pushed[..i] && first[i] == pushed[i];
    }
  }

  /** Tag for tag, the stream of all frames. */
  predicate Shows(pushed: seq<Message>, t: Tag, b: Byte) {
    t.id < |pushed| && t.offset < FrameSize(pushed, t.id) && Encode(ONE_FRAGMENT_TEXT, pushed[t.id])[t.offset] == b
  }

  predicate AllShow(pushed: seq<Message>, tags: seq<Tag>, bytes: seq<Byte>) {
    |tags| == |bytes| && forall i :: 0 <= i < |tags| ==> Shows(pushed, tags[i], bytes[i])
  }

  lemma FrameShows(pushed: seq<Message>, id: nat, from: nat, to: nat)
    requires id < |pushed| && from <= to <= FrameSize(pushed, id)
    ensures AllShow(pushed, FrameTags(id, from, to), Encode(ONE_FRAGMENT_TEXT, pushed[id])[from..to])
  {
  }

  lemma ShowMore(pushed: seq<Message>, m: Message, tags: seq<Tag>, bytes: seq<Byte>)
    requires AllShow(pushed, tags, bytes)
    ensures AllShow(pushed + [m], tags, bytes)
  {
    forall i | 0 <= i < |tags| ensures Shows(pushed + [m], tags[i], bytes[i]) {
      assert Shows(pushed, tags[i], bytes[i]);
      assert (pushed + [m])[tags[i].id] == pushed[tags[i].id];
    }
  }

  lemma ShowAppend(pushed: seq<Message>, tags: seq<Tag>, bytes: seq<Byte>, tags': seq<Tag>, bytes': seq<Byte>)
    requires AllShow(pushed, tags, bytes) && AllShow(pushed, tags', bytes')
    ensures AllShow(pushed, tags + tags', bytes + bytes')
  {
    forall i | 0 <= i < |tags + tags'| ensures Shows(pushed, (tags + tags')[i], (bytes + bytes')[i]) {
      if i < |tags| {
        assert Shows(pushed, tags[i], bytes[i]);
      } else {
        assert Shows(pushed, tags'[i - |tags|], bytes'[i - |tags|]);
      }
    }
  }

  lemma {:induction false} AllTagsShow(pushed: seq<Message>)
    ensures AllShow(pushed, TagsOf(pushed), EncodeAll(pushed))
    decreases |pushed|
  {
    if pushed == [] {
    } else {
      var n := |pushed| - 1;
      var first, m := pushed[..n], pushed[n];
      assert pushed == first + [m];
      AllTagsShow(first);
      EncodeAllAppend(first, m);
      ShowMore(first, m, TagsOf(first), EncodeAll(first));
      FrameShows(pushed, n, 0, FrameSize(pushed, n));
      var e := Encode(ONE_FRAGMENT_TEXT, m);
      assert e[0..|e|] == e;
      ShowAppend(pushed, TagsOf(first), EncodeAll(first), FrameTags(n, 0, |e|), e);
    }
  }

  /** Tags decide bytes: what stands for the beginning of all tags is the beginning of all frames. */
  lemma TagsDecide(pushed: seq<Message>, tags: seq<Tag>, bytes: seq<Byte>)
    requires AllShow(pushed, tags, bytes) && tags <= TagsOf(pushed)
    ensures bytes <= EncodeAll(pushed)
  {
    AllTagsShow(pushed);
    var all := TagsOf(pushed);
    forall i | 0 <= i < |bytes| ensures bytes[i] == EncodeAll(pushed)[i] {
      assert Shows(pushed, tags[i], bytes[i]) && Shows(pushed, all[i], EncodeAll(pushed)[i]);
    }
  }

  // ----- the wire and all frames -----

  predicate Mismatch(tags: seq<Tag>, all: seq<Tag>) {
    exists i :: 0 <= i < |tags| && i < |all| && tags[i] != all[i]
  }

  /** The wire stops before a byte of a frame that has left the queue. */
  predicate StopsShort(tags: seq<Tag>, all: seq<Tag>, left: int) {
    |tags| < |all| && tags == all[..|tags|] && all[|tags|].id < left
  }

  function PartialTags(d: Shared): seq<Tag> {
    if d.ops > 0 && d.ops - 1 in d.writes then FrameTags(d.writes[d.ops - 1].frame.id, 0, d.writes[d.ops - 1].done)
    else []
  }

  /** The wire is the beginning of all frames until bytes go out behind a frame that was cut short;
      `left` pushes have left the queue, and `partial` of the next is out. */
  predicate Follows(pushed: seq<Message>, tags: seq<Tag>, cut: bool, late: bool, left: int, partial: seq<Tag>) {
    && 0 <= left <= |pushed| && (late ==> cut)
    && (if late then Mismatch(tags, TagsOf(pushed))
        else if cut then StopsShort(tags, TagsOf(pushed), left)
        else tags == TagsOf(pushed[..left]) + partial)
  }

  /** What of the shared state this is about. */
  datatype Wiring = Wiring(pushed: seq<Message>, tags: seq<Tag>, cut: bool, late: bool, left: int, partial: seq<Tag>)

  function WiringOf(d: Shared): Wiring {
    Wiring(d.past.pushed, d.past.tags, d.past.cut, d.past.late, Left(d), PartialTags(d))
  }

  predicate WireFollows(d: Shared) { WiringFollows(WiringOf(d)) }

  predicate WiringFollows(w: Wiring) { Follows(w.pushed, w.tags, w.cut, w.late, w.left, w.partial) }

  lemma PushFollows(pushed: seq<Message>, tags: seq<Tag>, cut: bool, late: bool, left: int, partial: seq<Tag>,
                    m: Message)
    requires Follows(pushed, tags, cut, late, left, partial)
    ensures Follows(pushed + [m], tags, cut, late, left, partial)
  {
    TagsOneMore(pushed, m);
    if cut {
      MoreToCome(tags, TagsOf(pushed), FrameTags(|pushed|, 0, |Encode(ONE_FRAGMENT_TEXT, m)|), left);
    } else {
      assert (pushed + [m])[..left] == pushed[..left];
    }
  }

  /** A mismatch or a gap stays when the stream of all frames grows. */
  lemma MoreToCome(tags: seq<Tag>, all: seq<Tag>, more: seq<Tag>, left: int)
    ensures Mismatch(tags, all) ==> Mismatch(tags, all + more)
    ensures StopsShort(tags, all, left) ==> StopsShort(tags, all + more, left)
  {
    if Mismatch(tags, all) {
      var i :| 0 <= i < |tags| && i < |all| && tags[i] != all[i];
      assert (all + more)[i] == all[i];
    }
    if |tags| < |all| {
      assert (all + more)[..|tags|] == all[..|tags|];
    }
  }

  lemma SentFollows(pushed: seq<Message>, tags: seq<Tag>, cut: bool, late: bool, left: nat, partial: seq<Tag>)
    requires left < |pushed| && partial == FrameTags(left, 0, FrameSize(pushed, left))
    requires Follows(pushed, tags, cut, late, left, partial)
    ensures Follows(pushed, tags, cut, late, left + 1, [])
  {
    assert pushed[..left + 1] == pushed[..left] + [pushed[left]];
    TagsOneMore(pushed[..left], pushed[left]);
  }

  /** The queue of a failed write is dropped: the frame in flight, `done` bytes of which are out, and the rest. */
  lemma DroppedFollows(pushed: seq<Message>, tags: seq<Tag>, cut: bool, late: bool, left: nat, done: nat)
    requires left < |pushed| && done <= FrameSize(pushed, left)
    requires Follows(pushed, tags, cut, late, left, FrameTags(left, 0, done))
    ensures var short := |pushed| - left > 1 || done < FrameSize(pushed, left);
            Follows(pushed, tags, cut || short, late, |pushed|, [])
  {
    if cut {
    } else if done < FrameSize(pushed, left) {
      ShortInside(pushed, left, done);
    } else {
      WholeDropped(pushed, tags, left, FrameTags(left, 0, done));
    }
  }

  /** Its last byte was out. */
  lemma WholeDropped(pushed: seq<Message>, tags: seq<Tag>, left: nat, partial: seq<Tag>)
    requires left < |pushed| && partial == FrameTags(left, 0, FrameSize(pushed, left))
    requires tags == TagsOf(pushed[..left]) + partial
    ensures if left + 1 < |pushed| then StopsShort(tags, TagsOf(pushed), |pushed|)
            else tags == TagsOf(pushed[..|pushed|]) + []
  {
    SentFollows(pushed, tags, false, false, left, partial);
    assert tags == TagsOf(pushed[..left + 1]) + [];
    if left + 1 < |pushed| {
      ShortInside(pushed, left + 1, 0);
      assert FrameTags(left + 1, 0, 0) == [];
    }
  }

  lemma CutInside(start: seq<Tag>, whole: seq<Tag>, all: seq<Tag>, k: nat)
    requires start + whole <= all && k < |whole|
    ensures var t := start + whole[..k]; |t| < |all| && t == all[..|t|] && all[|t|] == whole[k]
  {
    var t := start + whole[..k];
    assert start + whole == all[..|start + whole|];
    assert all[|t|] == (start + whole)[|t|];
    assert t == (start + whole)[..|t|];
  }

  lemma TagsBefore(id: nat, from: nat, to: nat)
    requires from <= to
    ensures FrameTags(id, 0, to)[..from] == FrameTags(id, 0, from)
  {
  }

  /** A wire that ends inside frame `i` stops short of it. */
  lemma ShortInside(pushed: seq<Message>, i: nat, done: nat)
    requires i < |pushed| && done < FrameSize(pushed, i)
    ensures StopsShort(TagsOf(pushed[..i]) + FrameTags(i, 0, done), TagsOf(pushed), |pushed|)
  {
    var start, whole, all := TagsOf(pushed[..i]), FrameTags(i, 0, FrameSize(pushed, i)), TagsOf(pushed);
    TagsSplit(pushed, i);
    TagsBefore(i, done, FrameSize(pushed, i));
    ShortOf(start, whole, FrameTags(i, 0, done), all, |pushed|, done);
  }

  lemma ShortOf(start: seq<Tag>, whole: seq<Tag>, partial: seq<Tag>, all: seq<Tag>, left: nat, done: nat)
    requires start + whole <= all && done < |whole| && whole[done].id < left && partial == whole[..done]
    ensures StopsShort(start + partial, all, left)
  {
    CutInside(start, whole, all, done);
  }

  lemma MoreFollows(pushed: seq<Message>, tags: seq<Tag>, cut: bool, late: bool, left: nat, from: nat, to: nat)
    requires from < to && Follows(pushed, tags, cut, late, left, FrameTags(left, 0, from))
    ensures Follows(pushed, tags + FrameTags(left, from, to), cut, late || cut, left, FrameTags(left, 0, to))
  {
    var more, all := FrameTags(left, from, to), TagsOf(pushed);
    if cut {
      BytesBehindCut(tags, more, all, left);
    } else {
      FrameTagsJoin(TagsOf(pushed[..left]), left, from, to);
    }
  }

  lemma FrameTagsJoin(start: seq<Tag>, id: nat, from: nat, to: nat)
    requires from <= to
    ensures start + FrameTags(id, 0, from) + FrameTags(id, from, to) == start + FrameTags(id, 0, to)
  {
  }

  /** Bytes of a later frame behind the gap: from then on the wire differs from the stream of all frames. */
  lemma BytesBehindCut(tags: seq<Tag>, more: seq<Tag>, all: seq<Tag>, left: nat)
    requires more != [] && more[0].id == left && (Mismatch(tags, all) || StopsShort(tags, all, left))
    ensures Mismatch(tags + more, all)
  {
    if Mismatch(tags, all) {
      var j :| 0 <= j < |tags| && j < |all| && tags[j] != all[j];
      assert (tags + more)[j] == tags[j];
    } else {
      assert (tags + more)[|tags|] == more[0];
    }
  }

  // ----- the steps -----

  lemma PushKeepsWire(d: Shared, pc: PC, t: nat)
    requires pc.Enqueue? && WireFollows(d)
    ensures WireFollows(GoWrite(d, pc, t).d)
  {
    var w, d' := WiringOf(d), GoWrite(d, pc, t).d;
    PushFollows(w.pushed, w.tags, w.cut, w.late, w.left, w.partial, pc.message);
    assert WiringOf(d') == w.(pushed := w.pushed + [pc.message]);
  }

  /** The write in flight is of the first push that has not left the queue. */
  predicate FrontOf(d: Shared, k: nat) {
    && k in d.writes && k + 1 == d.ops && 0 <= Left(d) < |d.past.pushed|
    && d.writes[k].frame == FrameOf(d.past.pushed, Left(d))
  }

  lemma PartialOfOp(d: Shared, k: nat)
    requires FrontInFlight(d) && Left(d) >= 0 && IsTail(d.queue, d.past.pushed, Left(d)) && k in d.writes
    ensures FrontOf(d, k) && PartialTags(d) == FrameTags(Left(d), 0, d.writes[k].done)
  {
    TailShift(d.queue, d.past.pushed, Left(d));
  }

  lemma NothingPartial(d: Shared)
    requires d.writes.Keys == {}
    ensures PartialTags(d) == []
  {
  }

  lemma EraseKeepsWire(d: Shared, pc: PC, t: nat)
    requires pc.WriteOkErase? && Defined(d, pc) && OpsOk(d) && WireFollows(d) && HandlerExact(d, pc, t)
    requires FrontInFlight(d) && IsTail(d.queue, d.past.pushed, Left(d))
    ensures WireFollows(GoOkHandler(d, pc, t).d)
  {
    PartialOfOp(d, pc.op);
    assert OpOk(d.writes[pc.op], d.past.broken);
    NothingPartial(GoOkHandler(d, pc, t).d);
    FrontSent(d, GoOkHandler(d, pc, t).d);
  }

  lemma FrontSent(d: Shared, d': Shared)
    requires WireFollows(d) && 0 <= Left(d) < |d.past.pushed|
    requires PartialTags(d) == FrameTags(Left(d), 0, FrameSize(d.past.pushed, Left(d)))
    requires WiringOf(d') == WiringOf(d).(left := Left(d) + 1, partial := [])
    ensures WireFollows(d')
  {
    WiringSent(WiringOf(d), WiringOf(d'));
  }

  lemma WiringSent(w: Wiring, w': Wiring)
    requires WiringFollows(w) && 0 <= w.left < |w.pushed|
    requires w.partial == FrameTags(w.left, 0, FrameSize(w.pushed, w.left))
    requires w' == w.(left := w.left + 1, partial := [])
    ensures WiringFollows(w')
  {
    if w.late {
      assert Mismatch(w.tags, TagsOf(w.pushed));
    } else {
      SentFollows(w.pushed, w.tags, w.cut, w.late, w.left, w.partial);
    }
  }

  lemma ClearKeepsWire(d: Shared, k: nat)
    requires k in d.writes && FrontInFlight(d) && OpsOk(d) && WireFollows(d)
    requires IsTail(d.queue, d.past.pushed, Left(d))
    ensures WireFollows(Dropped(d, k))
  {
    PartialOfOp(d, k);
    assert OpOk(d.writes[k], d.past.broken);
    NothingPartial(Dropped(d, k));
    QueueDropped(d, Dropped(d, k), d.writes[k].done);
  }

  lemma QueueDropped(d: Shared, d': Shared, done: nat)
    requires WireFollows(d) && 0 <= Left(d) < |d.past.pushed| && done <= FrameSize(d.past.pushed, Left(d))
    requires PartialTags(d) == FrameTags(Left(d), 0, done)
    requires var short := |d.past.pushed| - Left(d) > 1 || done < FrameSize(d.past.pushed, Left(d));
             WiringOf(d') == WiringOf(d).(cut := d.past.cut || short, left := |d.past.pushed|, partial := [])
    ensures WireFollows(d')
  {
    var w, w' := WiringOf(d), WiringOf(d');
    DroppedFollows(w.pushed, w.tags, w.cut, w.late, w.left, done);
    assert WiringFollows(w');
  }

  lemma BeginKeepsWire(d: Shared)
    requires WireFollows(d) && d.queue != [] && d.writes == map[]
    ensures WireFollows(BeginWrite(d))
  {
    assert PartialTags(BeginWrite(d)) == [] == PartialTags(d);
  }

  lemma SameKeepsWire(d: Shared, d': Shared)
    requires QueueSame(d, d') && WireFollows(d)
    ensures WireFollows(d')
  {
    assert PartialTags(d') == PartialTags(d);
  }

  lemma ChangeKeepsWire(d: Shared, pc: PC, t: nat)
    requires CanGo(d, pc) && ChangesQueue(pc) && OpsOk(d) && WireFollows(d) && HandlerExact(d, pc, t)
    requires IsTail(d.queue, d.past.pushed, Left(d)) && SingleWriter(d, Settled)
    ensures WireFollows(QueueChange(d, pc, t))
  {
    if pc.Enqueue? { PushKeepsWire(d, pc, t); }
    else if pc.WriteOkErase? { EraseKeepsWire(d, pc, t); }
    else { ClearKeepsWire(d, pc.op); }
  }

  lemma FollowsKeptByGo(d: Shared, pc: PC, t: nat)
    requires CanGo(d, pc) && OpsOk(d) && WireFollows(d) && HandlerExact(d, pc, t)
    requires IsTail(d.queue, d.past.pushed, Left(d)) && (HoldsQueue(pc) ==> SingleWriter(d, ModeAt(pc)))
    ensures WireFollows(GoThread(d, pc, t).d)
  {
    if ChangesQueue(pc) {
      ChangeKeepsWire(d, pc, t);
      GoChanges(d, pc, t);
    }
    else if Begins(pc) { BeginByGo(d, pc, t); }
    else { OtherStepKeepsWire(d, pc, t); }
  }

  lemma OtherStepKeepsWire(d: Shared, pc: PC, t: nat)
    requires CanGo(d, pc) && !ChangesQueue(pc) && !Begins(pc) && WireFollows(d)
    ensures WireFollows(GoThread(d, pc, t).d)
  {
    OtherStepsKeepWrites(d, pc, t);
    SameKeepsWire(d, GoThread(d, pc, t).d);
  }

  lemma BeginByGo(d: Shared, pc: PC, t: nat)
    requires CanGo(d, pc) && Begins(pc) && WireFollows(d) && SingleWriter(d, ModeAt(pc))
    ensures WireFollows(GoThread(d, pc, t).d)
  {
    if d.writes == map[] && d.queue != [] { BeginKeepsWire(d); }
  }

  lemma TransferFollows(d: Shared, a: Action, m: Mode)
    requires a.Transfer? && a.op in d.writes && SingleWriter(d, m) && WireFollows(d)
    requires IsTail(d.queue, d.past.pushed, Left(d))
    requires 0 < a.n && d.writes[a.op].done + a.n <= |d.writes[a.op].frame.bytes|
    ensures WireFollows(Outside(d, a))
  {
    var done := d.writes[a.op].done;
    PartialOfOp(d, a.op);
    MoreOut(d, Outside(d, a), done, done + a.n);
  }

  lemma MoreOut(d: Shared, d': Shared, from: nat, to: nat)
    requires WireFollows(d) && from < to && Left(d) >= 0 && PartialTags(d) == FrameTags(Left(d), 0, from)
    requires WiringOf(d') == WiringOf(d).(tags := d.past.tags + FrameTags(Left(d), from, to),
                                          late := d.past.late || d.past.cut,
                                          partial := FrameTags(Left(d), 0, to))
    ensures WireFollows(d')
  {
    var w, w' := WiringOf(d), WiringOf(d');
    MoreFollows(w.pushed, w.tags, w.cut, w.late, w.left, from, to);
    assert WiringFollows(w');
  }

  lemma StatusKeepsWire(d: Shared, k: nat, status: Status, d': Shared)
    requires WireFollows(d) && k in d.writes
    requires d'.writes == d.writes[k := d.writes[k].(status := status)] && d'.ops == d.ops && d'.queue == d.queue
    requires d'.past.(broken := d.past.broken) == d.past
    ensures WireFollows(d')
  {
    assert PartialTags(d') == PartialTags(d);
  }

  lemma WireFollowsKept(s: Sys, a: Action)
    requires LocksHeld(s) && OwnersExact(s) && QueueOk(s) && OpsOk(s.d) && Enabled(s, a)
    requires WireFollows(s.d) && IsTail(s.d.queue, s.d.past.pushed, Left(s.d))
    ensures WireFollows(Apply(s, a).d)
  {
    match a
    case Go(t) => FollowsKeptByGo(s.d, s.pcs[t], t);
    case Dispatch(t, k) =>
      StatusKeepsWire(s.d, k, Handling(t, s.d.writes[k].status.ok), Apply(s, a).d);
    case Transfer(k, n) => TransferFollows(s.d, a, ModeOf(s));
    case Complete(k, ok) => StatusKeepsWire(s.d, k, Completed(ok), Apply(s, a).d);
    case _ => OthersKeepWire(s, a);
  }

  lemma OthersKeepWire(s: Sys, a: Action)
    requires a.Call? || a.CallElsewhere? || a.DispatchRead? || a.CompleteRead?
    requires WireFollows(s.d) && Enabled(s, a)
    ensures WireFollows(Apply(s, a).d)
  {
    assert WiringOf(Apply(s, a).d) == WiringOf(s.d);
  }

  // ----- the bytes behind the tags -----

  predicate WireShows(d: Shared) { AllShow(d.past.pushed, d.past.tags, d.past.wire) }

  lemma GoShows(d: Shared, pc: PC, t: nat)
    requires CanGo(d, pc) && WireShows(d)
    ensures WireShows(GoThread(d, pc, t).d)
  {
    if pc.Enqueue? {
      ShowMore(d.past.pushed, pc.message, d.past.tags, d.past.wire);
    } else {
      GoKeepsWire(d, pc, t);
    }
  }

  lemma GoKeepsWire(d: Shared, pc: PC, t: nat)
    requires CanGo(d, pc)
    ensures var p, q := d.past, GoThread(d, pc, t).d.past;
            q.wire == p.wire && q.tags == p.tags && (!pc.Enqueue? ==> q.pushed == p.pushed)
  {
    if ChangesQueue(pc) || Begins(pc) { ChangeLeavesWire(d, pc, t); } else { OtherStepsKeepWrites(d, pc, t); }
  }

  lemma ChangeLeavesWire(d: Shared, pc: PC, t: nat)
    requires CanGo(d, pc) && (ChangesQueue(pc) || Begins(pc))
    ensures var p, q := d.past, GoThread(d, pc, t).d.past;
            q.wire == p.wire && q.tags == p.tags && (!pc.Enqueue? ==> q.pushed == p.pushed)
  {
    if pc.Enqueue? || pc.StartFirst? { WriteLeavesWire(d, pc, t); }
    else if pc.WriteErrClear? { assert GoErrHandler(d, pc, t).d == Dropped(d, pc.op); }
    else { HandlerLeavesWire(d, pc, t); }
  }

  lemma WriteLeavesWire(d: Shared, pc: PC, t: nat)
    requires CanGo(d, pc) && (pc.Enqueue? || pc.StartFirst?)
    ensures var p, q := d.past, GoWrite(d, pc, t).d.past;
            q.wire == p.wire && q.tags == p.tags && (!pc.Enqueue? ==> q.pushed == p.pushed)
  {
  }

  lemma HandlerLeavesWire(d: Shared, pc: PC, t: nat)
    requires CanGo(d, pc) && (pc.WriteOkErase? || pc.WriteNext?)
    ensures var p, q := d.past, GoOkHandler(d, pc, t).d.past;
            q.wire == p.wire && q.tags == p.tags && q.pushed == p.pushed
  {
  }

  lemma TransferShows(d: Shared, a: Action, m: Mode)
    requires a.Transfer? && a.op in d.writes && SingleWriter(d, m) && WireShows(d)
    requires Left(d) >= 0 && IsTail(d.queue, d.past.pushed, Left(d))
    requires 0 < a.n && d.writes[a.op].done + a.n <= |d.writes[a.op].frame.bytes|
    ensures WireShows(Outside(d, a))
  {
    var op, p := d.writes[a.op], d.past;
    PartialOfOp(d, a.op);
    FrameShows(p.pushed, Left(d), op.done, op.done + a.n);
    ShowAppend(p.pushed, p.tags, p.wire, FrameTags(Left(d), op.done, op.done + a.n),
               op.frame.bytes[op.done..op.done + a.n]);
  }

  lemma WireShowsKept(s: Sys, a: Action)
    requires LocksHeld(s) && QueueOk(s) && Enabled(s, a) && WireShows(s.d)
    requires Left(s.d) >= 0 && IsTail(s.d.queue, s.d.past.pushed, Left(s.d))
    ensures WireShows(Apply(s, a).d)
  {
    if a.Go? { GoShows(s.d, s.pcs[a.t], a.t); }
    else if a.Transfer? { TransferShows(s.d, a, ModeOf(s)); }
  }

  // ----- cut frames -----

  /** A frame is cut only by a failed write. */
  predicate CutByFailure(d: Shared) { d.past.cut ==> d.past.broken }

  lemma CutByFailureKept(s: Sys, a: Action)
    requires OwnersExact(s) && OpsOk(s.d) && CutByFailure(s.d) && Enabled(s, a)
    ensures CutByFailure(Apply(s, a).d)
  {
    if a.Go? { GoCutsByFailure(s.d, s.pcs[a.t], a.t); }
  }

  lemma GoCutsByFailure(d: Shared, pc: PC, t: nat)
    requires CanGo(d, pc) && HandlerExact(d, pc, t) && OpsOk(d) && CutByFailure(d)
    ensures CutByFailure(GoThread(d, pc, t).d)
  {
    if ChangesQueue(pc) {
      GoChanges(d, pc, t);
      if pc.WriteErrClear? { assert OpOk(d.writes[pc.op], d.past.broken); }
    } else if !Begins(pc) {
      OtherStepsKeepWrites(d, pc, t);
    }
  }
}
