/** The WebSocket connection and the registry as the objects they are; each method is what a thread of
    the transition system does when no other thread runs in between. */
module WsConnection {
  import opened Text
  import opened Frames
  import opened WsModel
  import opened WsTheorems

  /** Calls a connection makes: hooks of the application, and operations on the socket. */
  datatype Call =
    | OnOpen | OnMessageOut(frame: seq<Byte>) | OnError | OnClose
    | AsyncRead(size: nat) | AsyncWrite(buffer: seq<Byte>)
    | CancelAll | ShutDown | CloseHandle

  datatype Code = Success | Aborted | Failed

  datatype View = View(closed: bool, queue: seq<seq<Byte>>, calls: seq<Call>)

  const STOPPING: seq<Call> := [OnClose, CancelAll, ShutDown, CloseHandle]

  function Stopped(v: View): View {
    if v.closed then v else View(true, v.queue, v.calls + STOPPING)
  }

  function Begun(v: View): View
    requires v.queue != []
  {
    v.(calls := v.calls + [AsyncWrite(v.queue[0])])
  }

  function Pushed(v: View, frame: seq<Byte>): View {
    var v1 := v.(queue := v.queue + [frame]);
    var v2 := if |v1.queue| > 100 then Stopped(v1) else v1;
    if |v2.queue| == 1 then Begun(v2) else v2
  }

  /** What a push does, in full. */
  lemma PushSays(v: View, message: Message, hooked: bool)
    ensures var frame := Encode(ONE_FRAGMENT_TEXT, message);
            var w := Pushed(Heard(v, frame, hooked), frame);
            && SaysText(frame, message) && w.queue == v.queue + [frame] && (w.closed <==> v.closed || |w.queue| > 100)
            && w.calls == v.calls + (if hooked then [OnMessageOut(frame)] else [])
                                  + (if w.closed && !v.closed then [OnClose, CancelAll, ShutDown, CloseHandle] else [])
                                  + (if v.queue == [] then [AsyncWrite(frame)] else [])
  {
    EncodedSaysText(message);
  }

  function Heard(v: View, frame: seq<Byte>, hooked: bool): View {
    if hooked then v.(calls := v.calls + [OnMessageOut(frame)]) else v
  }

  function Reported(v: View, ec: Code): View {
    if ec.Failed? then v.(calls := v.calls + [OnError]) else v
  }

  function Written(v: View, ec: Code): View
    requires ec.Success? ==> v.queue != []
  {
    if ec.Success? then
      var v1 := v.(queue := v.queue[1..]);
      if v1.queue != [] then Begun(v1) else v1
    else Stopped(Reported(v, ec).(queue := []))
  }

  class WSConnection {
    var closed: bool
    var sendQ: seq<seq<Byte>>
    var calls: seq<Call>
    var owners: nat              // how many `shared_ptr` there are

    ghost function Now(): View
      reads this
    {
      View(closed, sendQ, calls)
    }

    constructor ()
      ensures Now() == View(false, [], []) && owners == 1
    {
      closed, sendQ, calls, owners := false, [], [], 1;
    }

    method Start()
      modifies `calls
      ensures calls == old(calls) + [OnOpen, AsyncRead(2)]
    {
      calls := calls + [OnOpen];
      calls := calls + [AsyncRead(2)];
    }

    method Stop()
      modifies `closed, `calls
      ensures Now() == Stopped(old(Now()))
      ensures closed && sendQ == old(sendQ)
      ensures calls == old(calls) + if old(closed) then [] else [OnClose, CancelAll, ShutDown, CloseHandle]
    {
      var exchanged := !closed;
      closed := true;
      if !exchanged { return; }
      calls := calls + [OnClose];
      calls := calls + [CancelAll];
      calls := calls + [ShutDown];
      calls := calls + [CloseHandle];
    }

    method Write(message: Message, hooked: bool)
      modifies `closed, `sendQ, `calls
      ensures var frame := Encode(ONE_FRAGMENT_TEXT, message); Now() == Pushed(Heard(old(Now()), frame, hooked), frame)
      ensures |sendQ| == |old(sendQ)| + 1 && sendQ[..|old(sendQ)|] == old(sendQ)
      ensures SaysText(sendQ[|old(sendQ)|], message)
      ensures closed <==> old(closed) || |sendQ| > 100
      ensures calls == old(calls) + (if hooked then [OnMessageOut(sendQ[|old(sendQ)|])] else [])
                                  + (if closed && !old(closed) then [OnClose, CancelAll, ShutDown, CloseHandle] else [])
                                  + (if old(sendQ) == [] then [AsyncWrite(sendQ[0])] else [])
    {
      PushSays(Now(), message, hooked);
      var result := FillTextFrame(message, ONE_FRAGMENT_TEXT, []);
      assert result == Encode(ONE_FRAGMENT_TEXT, message);
      if hooked { calls := calls + [OnMessageOut(result)]; }
      sendQ := sendQ + [result];
      if |sendQ| > 100 { Stop(); }
      if |sendQ| == 1 { calls := calls + [AsyncWrite(sendQ[0])]; }
    }

    /** Erasing the front needs a front; `AlwaysDefined` says there always is one. */
    method HandleWrite(ec: Code)
      requires ec.Success? ==> sendQ != []
      modifies `closed, `sendQ, `calls
      ensures Now() == Written(old(Now()), ec)
      ensures ec == Success ==> sendQ == old(sendQ)[1..] && closed == old(closed)
      ensures ec == Success ==> calls == old(calls) + if sendQ != [] then [AsyncWrite(old(sendQ)[1])] else []
      ensures ec != Success ==> sendQ == [] && closed
      ensures ec != Success ==>
                calls == old(calls) + (if ec == Failed then [OnError] else [])
                                    + (if old(closed) then [] else [OnClose, CancelAll, ShutDown, CloseHandle])
    {
      if !ec.Success? {
        if !ec.Aborted? { calls := calls + [OnError]; }
        sendQ := [];
        Stop();
        return;
      }
      sendQ := sendQ[1..];
      if |sendQ| > 0 { calls := calls + [AsyncWrite(sendQ[0])]; }
    }

    /** Whatever the client sent, the connection is closed: the protocol goes one way. */
    method HandleRead(ec: Code)
      modifies `closed, `calls
      ensures Now() == Stopped(Reported(old(Now()), ec))
      ensures closed && sendQ == old(sendQ)
      ensures calls == old(calls) + (if ec == Failed then [OnError] else [])
                                  + (if old(closed) then [] else [OnClose, CancelAll, ShutDown, CloseHandle])
    {
      if !ec.Success? && !ec.Aborted? { calls := calls + [OnError]; }
      Stop();
    }

    method Destroy()
      modifies `closed, `calls
      ensures Now() == Stopped(old(Now()))
      ensures closed && sendQ == old(sendQ)
      ensures calls == old(calls) + if old(closed) then [] else [OnClose, CancelAll, ShutDown, CloseHandle]
    {
      if !closed { Stop(); }
    }
  }

  // ----- the same as a thread on its own -----

  function BytesOf(q: seq<Queued>): seq<seq<Byte>> { seq(|q|, i requires 0 <= i < |q| => q[i].bytes) }

  function WritesOf(calls: seq<Call>): (bs: seq<seq<Byte>>) {
    if calls == [] then []
    else if calls[|calls| - 1].AsyncWrite? then WritesOf(calls[..|calls| - 1]) + [calls[|calls| - 1].buffer]
    else WritesOf(calls[..|calls| - 1])
  }

  function Count(calls: seq<Call>, c: Call): nat {
    if calls == [] then 0 else Count(calls[..|calls| - 1], c) + if calls[|calls| - 1] == c then 1 else 0
  }

  /** The state the threads share is that of the object, and the operations are those it called for. */
  ghost predicate Matches(d: Shared, v: View) {
    && d.closed == v.closed && BytesOf(d.queue) == v.queue
    && d.past.closes == Count(v.calls, OnClose) && d.past.opens == Count(v.calls, OnOpen)
    && (d.socketOpen <==> CloseHandle !in v.calls)
    && (d.read.NotStarted? <==> AsyncRead(2) !in v.calls)
    && d.ops == |WritesOf(v.calls)|
    && (forall k :: k in d.writes ==> k < d.ops && d.writes[k].frame.bytes == WritesOf(v.calls)[k])
  }

  /** A newly constructed connection. */
  lemma NewMatches(creator: nat)
    ensures Matches(Fresh(creator), View(false, [], []))
  {
    assert BytesOf([]) == [];
  }

  /** A thread goes on until it has left the connection's code or has to wait. */
  function Uninterrupted(d: Shared, pc: PC, t: nat): Next
    decreases StepsLeft(pc)
  {
    if pc.LetGo? || pc.UnlockRegistry? || !CanGo(d, pc) then Next(pc, d)
    else
      GoShortens(d, pc, t);
      var n := GoThread(d, pc, t);
      Uninterrupted(n.d, n.pc, t)
  }

  function StopAll(d: Shared, t: nat): Shared {
    if d.closed then d
    else d.(closed := true, socketOpen := false, past := d.past.(closer := t, closes := d.past.closes + 1))
  }

  /** One step on. */
  lemma Onward(d: Shared, pc: PC, t: nat, n: Next)
    requires !pc.LetGo? && !pc.UnlockRegistry? && CanGo(d, pc) && GoThread(d, pc, t) == n
    ensures Uninterrupted(d, pc, t) == Uninterrupted(n.d, n.pc, t)
  {
  }

  lemma OnwardStop(d: Shared, phase: Phase, k: After, t: nat, n: Next)
    requires GoStop(d, Stopping(phase, k), t) == n
    ensures Uninterrupted(d, Stopping(phase, k), t) == Uninterrupted(n.d, n.pc, t)
  {
    Onward(d, Stopping(phase, k), t, n);
  }

  lemma StopAlone(d: Shared, k: After, t: nat)
    ensures Uninterrupted(d, Stopping(TestFlag, k), t) == Uninterrupted(StopAll(d, t), Resume(k), t)
  {
    if d.closed {
      OnwardStop(d, TestFlag, k, t, Next(Resume(k), d));
    } else {
      FirstStopAlone(d, k, t);
    }
  }

  lemma FirstStopAlone(d: Shared, k: After, t: nat)
    requires !d.closed
    ensures Uninterrupted(d, Stopping(TestFlag, k), t) == Uninterrupted(StopAll(d, t), Resume(k), t)
  {
    var d1 := d.(closed := true, past := d.past.(closer := t));
    OnwardStop(d, TestFlag, k, t, Next(Stopping(Callback, k), d1));
    CallbackAlone(d1, k, t);
    assert StopAll(d, t) == d1.(socketOpen := false, past := d1.past.(closes := d1.past.closes + 1));
  }

  lemma CallbackAlone(d: Shared, k: After, t: nat)
    ensures Uninterrupted(d, Stopping(Callback, k), t) ==
            Uninterrupted(d.(socketOpen := false, past := d.past.(closes := d.past.closes + 1)), Resume(k), t)
  {
    var d1 := d.(past := d.past.(closes := d.past.closes + 1));
    OnwardStop(d, Callback, k, t, Next(Stopping(Cancel, k), d1));
    OnwardStop(d1, Cancel, k, t, Next(Stopping(Shutdown, k), d1));
    ShutdownAlone(d1, k, t);
  }

  lemma ShutdownAlone(d: Shared, k: After, t: nat)
    ensures Uninterrupted(d, Stopping(Shutdown, k), t) == Uninterrupted(d.(socketOpen := false), Resume(k), t)
  {
    var d1 := d.(socketOpen := false);
    OnwardStop(d, Shutdown, k, t, Next(Stopping(CloseSocket, k), d1));
    OnwardStop(d1, CloseSocket, k, t, Next(Resume(k), d1));
  }

  function PushAll(d: Shared, m: Message, t: nat): Shared {
    var queue := d.queue + [Queued(|d.past.pushed|, Encode(ONE_FRAGMENT_TEXT, m))];
    var d1 := d.(queue := queue, past := d.past.(pushed := d.past.pushed + [m]));
    var d2 := if |queue| > 100 then StopAll(d1, t) else d1;
    if |queue| == 1 then BeginWrite(d2) else d2
  }

  function WithLock(d: Shared, t: nat): Shared { d.(queueLock := Some(t)) }

  lemma OnwardWrite(d: Shared, pc: PC, t: nat, n: Next)
    requires InWrite(pc) && CanGo(d, pc) && GoWrite(d, pc, t) == n
    ensures Uninterrupted(d, pc, t) == Uninterrupted(n.d, n.pc, t)
  {
    Onward(d, pc, t, n);
  }

  lemma OnwardSent(d: Shared, pc: PC, t: nat, n: Next)
    requires InOkHandler(pc) && CanGo(d, pc) && GoOkHandler(d, pc, t) == n
    ensures Uninterrupted(d, pc, t) == Uninterrupted(n.d, n.pc, t)
  {
    Onward(d, pc, t, n);
  }

  lemma PushAlone(d: Shared, m: Message, t: nat)
    requires d.queueLock == None
    ensures Uninterrupted(d, Encoding(m), t) == Next(LetGo(true), PushAll(d, m, t))
  {
    OnwardWrite(d, Encoding(m), t, Next(WaitQueue(m, Encode(ONE_FRAGMENT_TEXT, m)), d));
    LockAlone(d, m, Encode(ONE_FRAGMENT_TEXT, m), t);
    EnqueueAlone(WithLock(d, t), m, t);
    PushAllLocked(d, m, t);
  }

  /** The lock makes no difference to what a push does. */
  lemma PushAllLocked(d: Shared, m: Message, t: nat)
    requires d.queueLock == None
    ensures PushAll(WithLock(d, t), m, t).(queueLock := None) == PushAll(d, m, t)
  {
  }

  lemma LockAlone(d: Shared, m: Message, bytes: seq<Byte>, t: nat)
    requires d.queueLock == None
    ensures Uninterrupted(d, WaitQueue(m, bytes), t) == Uninterrupted(WithLock(d, t), Enqueue(m, bytes), t)
  {
    OnwardWrite(d, WaitQueue(m, bytes), t, Next(Enqueue(m, bytes), WithLock(d, t)));
  }

  lemma EnqueueAlone(d: Shared, m: Message, t: nat)
    ensures Uninterrupted(d, Enqueue(m, Encode(ONE_FRAGMENT_TEXT, m)), t) ==
            Next(LetGo(true), PushAll(d, m, t).(queueLock := None))
  {
    var pc := Enqueue(m, Encode(ONE_FRAGMENT_TEXT, m));
    var d1 := GoWrite(d, pc, t).d;
    if |d1.queue| > 100 {
      OnwardWrite(d, pc, t, Next(Stopping(TestFlag, ToStartFirst), d1));
      StopAlone(d1, ToStartFirst, t);
      StartAlone(StopAll(d1, t), t);
    } else {
      OnwardWrite(d, pc, t, Next(StartFirst, d1));
      StartAlone(d1, t);
    }
  }

  lemma StartAlone(d: Shared, t: nat)
    requires d.queue != []
    ensures Uninterrupted(d, StartFirst, t) ==
            Next(LetGo(true), (if |d.queue| == 1 then BeginWrite(d) else d).(queueLock := None))
  {
    var d1 := if |d.queue| == 1 then BeginWrite(d) else d;
    OnwardWrite(d, StartFirst, t, Next(UnlockPush, d1));
    OnwardWrite(d1, UnlockPush, t, Next(LetGo(true), d1.(queueLock := None)));
  }

  function SentOne(d: Shared, k: nat): Shared
    requires d.queue != [] && k in d.writes
  {
    var d1 := d.(queue := d.queue[1..], writes := d.writes - {k},
        past := d.past.(sent := d.past.sent + [d.writes[k].frame]));
    if d1.queue != [] then BeginWrite(d1) else d1
  }

  lemma SentAlone(d: Shared, k: nat, t: nat)
    requires d.queueLock == None && d.queue != [] && k in d.writes
    ensures Uninterrupted(d, WriteOkWait(k), t) == Next(LetGo(false), SentOne(d, k))
  {
    var d0 := WithLock(d, t);
    OnwardSent(d, WriteOkWait(k), t, Next(WriteOkErase(k), d0));
    EraseAlone(d0, k, t);
  }

  lemma EraseAlone(d: Shared, k: nat, t: nat)
    requires d.queue != [] && k in d.writes
    ensures Uninterrupted(d, WriteOkErase(k), t) == Next(LetGo(false), SentOne(d, k).(queueLock := None))
  {
    var d1 := GoOkHandler(d, WriteOkErase(k), t).d;
    OnwardSent(d, WriteOkErase(k), t, Next(WriteNext, d1));
    OnwardSent(d1, WriteNext, t, Next(UnlockHandler, SentOne(d, k)));
    UnlockAlone(SentOne(d, k), t);
  }

  function FailAll(d: Shared, k: nat, t: nat): Shared
    requires k in d.writes
  {
    StopAll(Dropped(d, k), t)
  }

  lemma FailAlone(d: Shared, k: nat, t: nat)
    requires d.queueLock == None && k in d.writes
    ensures Uninterrupted(d, WriteErrReport(k), t) == Next(LetGo(false), FailAll(d, k, t))
  {
    OnwardError(d, WriteErrReport(k), t, Next(WriteErrWait(k), d));
    LockForError(d, k, t);
    ClearAlone(WithLock(d, t), k, t);
  }

  lemma LockForError(d: Shared, k: nat, t: nat)
    requires d.queueLock == None && k in d.writes
    ensures Uninterrupted(d, WriteErrWait(k), t) == Uninterrupted(WithLock(d, t), WriteErrClear(k), t)
  {
    OnwardError(d, WriteErrWait(k), t, Next(WriteErrClear(k), WithLock(d, t)));
  }

  lemma OnwardError(d: Shared, pc: PC, t: nat, n: Next)
    requires InErrHandler(pc) && CanGo(d, pc) && GoErrHandler(d, pc, t) == n
    ensures Uninterrupted(d, pc, t) == Uninterrupted(n.d, n.pc, t)
  {
    Onward(d, pc, t, n);
  }

  lemma ClearAlone(d: Shared, k: nat, t: nat)
    requires k in d.writes
    ensures Uninterrupted(d, WriteErrClear(k), t) == Next(LetGo(false), FailAll(d, k, t).(queueLock := None))
  {
    var d1 := Dropped(d, k);
    OnwardError(d, WriteErrClear(k), t, Next(Stopping(TestFlag, ToUnlockHandler), d1));
    StopAlone(d1, ToUnlockHandler, t);
    UnlockAlone(StopAll(d1, t), t);
  }

  lemma UnlockAlone(d: Shared, t: nat)
    ensures Uninterrupted(d, UnlockHandler, t) == Next(LetGo(false), d.(queueLock := None))
  {
    assert Uninterrupted(d, UnlockHandler, t) == Uninterrupted(d.(queueLock := None), LetGo(false), t);
  }

  lemma OnwardCreate(d: Shared, pc: PC, t: nat, n: Next)
    requires InCreate(pc) && CanGo(d, pc) && GoCreate(d, pc, t) == n
    ensures Uninterrupted(d, pc, t) == Uninterrupted(n.d, n.pc, t)
  {
    Onward(d, pc, t, n);
  }

  lemma CreateAlone(d: Shared, t: nat)
    requires d.registryLock == None
    ensures Uninterrupted(d, AddWait, t) == Uninterrupted(d.(registered := true), Opening, t)
  {
    var d1 := d.(registryLock := Some(t));
    var d2 := d1.(registered := true);
    OnwardCreate(d, AddWait, t, Next(AddInsert, d1));
    OnwardCreate(d1, AddInsert, t, Next(AddUnlock, d2));
    OnwardCreate(d2, AddUnlock, t, Next(Opening, d.(registered := true)));
  }

  function Opened(d: Shared): Shared {
    d.(past := d.past.(opens := d.past.opens + 1), read := Reading, owners := d.owners + {ByRead})
  }

  lemma OpenAlone(d: Shared, t: nat)
    ensures Uninterrupted(d, Opening, t) == Next(LetGo(false), Opened(d))
  {
    var d1 := d.(past := d.past.(opens := d.past.opens + 1));
    OnwardCreate(d, Opening, t, Next(OpenReturn, d1));
    OnwardCreate(d1, OpenReturn, t, Next(StartRead, d1));
    OnwardCreate(d1, StartRead, t, Next(LetGo(false), Opened(d)));
  }

  // ----- the objects match -----

  lemma {:induction false} CallsAppend(a: seq<Call>, b: seq<Call>, c: Call)
    ensures WritesOf(a + b) == WritesOf(a) + WritesOf(b) && Count(a + b, c) == Count(a, c) + Count(b, c)
  {
    if b == [] {
      assert a + b == a;
    } else {
      var last := |b| - 1;
      assert (a + b)[..|a + b| - 1] == a + b[..last];
      CallsAppend(a, b[..last], c);
    }
  }

  lemma OneCall(calls: seq<Call>, c: Call)
    ensures WritesOf(calls + [c]) == WritesOf(calls) + if c.AsyncWrite? then [c.buffer] else []
    ensures forall x :: Count(calls + [c], x) == Count(calls, x) + if x == c then 1 else 0
  {
    assert (calls + [c])[..|calls|] == calls;
  }

  lemma StopMatches(d: Shared, v: View, t: nat)
    requires Matches(d, v)
    ensures Matches(StopAll(d, t), Stopped(v))
  {
    if !d.closed { StopCalls(v.calls); }
  }

  lemma StopCalls(calls: seq<Call>)
    ensures var all := calls + STOPPING;
            && WritesOf(all) == WritesOf(calls)
            && CloseHandle in all && (AsyncRead(2) in all <==> AsyncRead(2) in calls)
            && Count(all, OnClose) == Count(calls, OnClose) + 1 && Count(all, OnOpen) == Count(calls, OnOpen)
  {
    var c1 := calls + [OnClose];
    var c2 := c1 + [CancelAll];
    var c3 := c2 + [ShutDown];
    OneCall(calls, OnClose);
    OneCall(c1, CancelAll);
    OneCall(c2, ShutDown);
    OneCall(c3, CloseHandle);
    assert calls + STOPPING == c3 + [CloseHandle];
  }

  lemma BeginMatches(d: Shared, v: View)
    requires Matches(d, v) && d.queue != []
    ensures v.queue != [] && Matches(BeginWrite(d), Begun(v))
  {
    assert BytesOf(d.queue)[0] == d.queue[0].bytes;
    OneCall(v.calls, AsyncWrite(v.queue[0]));
  }

  lemma DroppedMatches(d: Shared, v: View, k: nat)
    requires Matches(d, v) && k in d.writes
    ensures Matches(Dropped(d, k), v.(queue := []))
  {
  }

  lemma HookMatches(d: Shared, v: View, c: Call)
    requires Matches(d, v) && (c.OnMessageOut? || c.OnError?)
    ensures Matches(d, v.(calls := v.calls + [c]))
  {
    OneCall(v.calls, c);
  }

  lemma AppendMatches(d: Shared, v: View, m: Message, q: Queued)
    requires Matches(d, v)
    ensures Matches(d.(queue := d.queue + [q], past := d.past.(pushed := d.past.pushed + [m])),
        v.(queue := v.queue + [q.bytes]))
  {
    assert BytesOf(d.queue + [q]) == BytesOf(d.queue) + [q.bytes];
  }

  /** `write`, uninterrupted, is the method. */
  lemma WriteIsThread(d: Shared, v: View, m: Message, hooked: bool, t: nat)
    requires Matches(d, v) && d.queueLock == None
    ensures var n, frame := Uninterrupted(d, Encoding(m), t), Encode(ONE_FRAGMENT_TEXT, m);
            n.pc == LetGo(true) && n.d.queueLock == None && Matches(n.d, Pushed(Heard(v, frame, hooked), frame))
  {
    var frame := Encode(ONE_FRAGMENT_TEXT, m);
    PushAlone(d, m, t);
    HookMatches(d, v, OnMessageOut(frame));
    var v0 := Heard(v, frame, hooked);
    var q := Queued(|d.past.pushed|, frame);
    AppendMatches(d, v0, m, q);
    var d1, v1 := d.(queue := d.queue + [q], past := d.past.(pushed := d.past.pushed + [m])),
        v0.(queue := v0.queue + [frame]);
    StopMatches(d1, v1, t);
    var d2, v2 := if |d1.queue| > 100 then StopAll(d1, t) else d1, if |v1.queue| > 100 then Stopped(v1) else v1;
    BeginMatches(d2, v2);
  }

  /** `handle_write`, uninterrupted, is the method. */
  lemma HandleWriteIsThread(d: Shared, v: View, k: nat, ec: Code, t: nat)
    requires Matches(d, v) && d.queueLock == None && k in d.writes && d.queue != []
    ensures var n := Uninterrupted(d, if ec.Success? then WriteOkWait(k) else WriteErrReport(k), t);
            n.pc == LetGo(false) && n.d.queueLock == None && Matches(n.d, Written(v, ec))
  {
    if ec.Success? {
      SentAlone(d, k, t);
      var d1 := d.(queue := d.queue[1..], writes := d.writes - {k},
          past := d.past.(sent := d.past.sent + [d.writes[k].frame]));
      var v1 := v.(queue := v.queue[1..]);
      assert BytesOf(d.queue[1..]) == BytesOf(d.queue)[1..];
      assert Matches(d1, v1);
      if d1.queue != [] { BeginMatches(d1, v1); }
    } else {
      FailAlone(d, k, t);
      HookMatches(d, v, OnError);
      DroppedMatches(d, Reported(v, ec), k);
      StopMatches(Dropped(d, k), Reported(v, ec).(queue := []), t);
    }
  }

  /** `Start`, uninterrupted, is the method. */
  lemma StartIsThread(d: Shared, v: View, t: nat)
    requires Matches(d, v)
    ensures var n := Uninterrupted(d, Opening, t);
            n.pc == LetGo(false) && Matches(n.d, v.(calls := v.calls + [OnOpen, AsyncRead(2)]))
  {
    OpenAlone(d, t);
    OneCall(v.calls, OnOpen);
    OneCall(v.calls + [OnOpen], AsyncRead(2));
    assert v.calls + [OnOpen, AsyncRead(2)] == v.calls + [OnOpen] + [AsyncRead(2)];
  }

  /** `handle_read` and the destructor, uninterrupted, are the methods. */
  lemma HandleReadIsThread(d: Shared, v: View, ec: Code, t: nat)
    requires Matches(d, v)
    ensures var n := Uninterrupted(d, ReadHandle, t); n.pc == LetGo(false) && Matches(n.d, Stopped(Reported(v, ec)))
  {
    OnwardError(d, ReadHandle, t, Next(Stopping(TestFlag, ToLetGo(false)), d));
    StopAlone(d, ToLetGo(false), t);
    HookMatches(d, v, OnError);
    StopMatches(d, Reported(v, ec), t);
  }

  lemma DestroyIsThread(d: Shared, v: View, registry: bool, t: nat)
    requires Matches(d, v)
    ensures var n := Uninterrupted(d, Dtor(registry), t); n.pc == AfterLetGo(registry) && Matches(n.d, Stopped(v))
  {
    if !d.closed {
      assert Uninterrupted(d, Dtor(registry), t) == Uninterrupted(d, Stopping(TestFlag, ToDtorEnd(registry)), t);
      StopAlone(d, ToDtorEnd(registry), t);
    }
    StopMatches(d, v, t);
  }
}
