/** The push path of one WebSocket connection as a transition system: any number of threads that call
    `WSPush`, `WSClose` or work elsewhere under the registry lock, the handlers of the connection's
    read and writes, the steps of `stop`, and destruction. */
module WsModel {
  import opened Text
  import opened Frames

  /** An element of `send_q_`; the id says which push it came from. */
  datatype Queued = Queued(id: nat, bytes: seq<Byte>)

  datatype Status =
    | InFlight
    | Completed(ok: bool)              // the handler is waiting to be run
    | Handling(thread: nat, ok: bool)      // a thread runs the handler and has not yet changed the queue

  /** An `async_write` whose handler has not yet changed the queue; `done` bytes are on the wire. */
  datatype WriteOp = WriteOp(frame: Queued, done: nat, status: Status)

  datatype ReadStatus = NotStarted | Reading | Arrived | Handled

  /** The holders of a `shared_ptr` to the connection. */
  datatype Owner = ByThread(t: nat) | ByWrite(op: nat) | ByRead

  /** A call that names this connection. */
  datatype Job = Push(message: Message) | Close

  /** A byte on the wire: which of which pushed frame. */
  datatype Tag = Tag(id: nat, offset: nat)

  function FrameTags(id: nat, low: nat, high: nat): (ts: seq<Tag>)
    requires low <= high
    ensures |ts| == high - low
    ensures forall i :: 0 <= i < |ts| ==> ts[i] == Tag(id, low + i)
    decreases high
  {
    if low == high then [] else FrameTags(id, low, high - 1) + [Tag(id, high - 1)]
  }

  datatype Phase = TestFlag | Callback | Cancel | Shutdown | CloseSocket

  /** Where `stop` returns to; `registry` says whether the thread holds the registry lock. */
  datatype After = ToStartFirst | ToUnlockHandler | ToLetGo(registry: bool) | ToDtorEnd(registry: bool)

  datatype PC =
    | Idle
    // WSPush, WSClose
    | WaitRegistry(job: Job) | Lookup(job: Job)
    // the same for another connection, or for an id nobody has
    | WaitElsewhere | OtherWork
    | Encoding(message: Message)
    | WaitQueue(message: Message, bytes: seq<Byte>) | Enqueue(message: Message, bytes: seq<Byte>)
    | StartFirst | UnlockPush | UnlockRegistry
    // the end of a reference, and the destructor
    | LetGo(registry: bool) | Dtor(registry: bool)
    // creation: WSAddSession and Start
    | AddWait | AddInsert | AddUnlock | Opening | OpenReturn | StartRead
    // handle_write
    | WriteOkWait(op: nat) | WriteOkErase(op: nat) | WriteNext | UnlockHandler
    | WriteErrReport(op: nat) | WriteErrWait(op: nat) | WriteErrClear(op: nat)
    // handle_read
    | ReadHandle
    // stop
    | Stopping(phase: Phase, after: After)

  predicate HoldsRegistry(pc: PC) {
    || pc.Lookup? || pc.OtherWork? || pc.Encoding? || pc.WaitQueue? || pc.Enqueue? || pc.StartFirst?
    || pc.UnlockPush? || pc.UnlockRegistry? || pc.AddInsert? || pc.AddUnlock?
    || (pc.LetGo? && pc.registry) || (pc.Dtor? && pc.registry)
    || (pc.Stopping? && (pc.after.ToStartFirst? || ((pc.after.ToLetGo? || pc.after.ToDtorEnd?) && pc.after.registry)))
  }

  predicate HoldsQueue(pc: PC) {
    || pc.Enqueue? || pc.StartFirst? || pc.UnlockPush? || pc.WriteOkErase? || pc.WriteNext? || pc.UnlockHandler?
    || pc.WriteErrClear?
    || (pc.Stopping? && (pc.after.ToStartFirst? || pc.after.ToUnlockHandler?))
  }

  predicate HoldsRef(pc: PC) {
    || pc.Encoding? || pc.WaitQueue? || pc.Enqueue? || pc.StartFirst? || pc.UnlockPush? || pc.LetGo?
    || pc.AddWait? || pc.AddInsert? || pc.AddUnlock? || pc.Opening? || pc.OpenReturn? || pc.StartRead?
    || pc.ReadHandle?
    || pc.WriteOkWait? || pc.WriteOkErase? || pc.WriteNext? || pc.UnlockHandler?
    || pc.WriteErrReport? || pc.WriteErrWait? || pc.WriteErrClear?
    || (pc.Stopping? && !pc.after.ToDtorEnd?)
  }

  /** What the threads share. */
  datatype Shared = Shared(
    registryLock: Option<nat>, queueLock: Option<nat>,
    registered: bool,              // the weak reference is in the registry
    owners: set<Owner>,
    closed: bool, socketOpen: bool,
    queue: seq<Queued>, writes: map<nat, WriteOp>, ops: nat, read: ReadStatus,
    past: History)

  datatype History = History(
    accepted: seq<Message>,        // pushes that found the connection, in registry lock order
    pushed: seq<Message>,          // in queue lock order
    sent: seq<Queued>, dropped: seq<Queued>,
    wire: seq<Byte>, tags: seq<Tag>,   // the bytes that went out, and what they are
    broken: bool,                  // a write has failed
    cut: bool,                     // a frame was dropped before all its bytes were out
    late: bool,                    // bytes went out behind such a frame
    guessed: bool,                 // a call named the connection before ws_onopen got its id
    opens: nat, closes: nat,       // calls of ws_onopen and ws_onclose
    creator: nat,                  // who made the connection
    closer: nat, reaper: nat)      // who set the flag, who let the last reference go

  datatype Sys = Sys(pcs: seq<PC>, d: Shared)

  predicate Destroyed(d: Shared) { d.owners == {} }

  /** Just constructed, held by its creator alone. */
  function Fresh(creator: nat): Shared {
    Shared(None, None, false, {ByThread(creator)}, false, true, [], map[], 0, NotStarted,
           History([], [], [], [], [], [], false, false, false, false, 0, 0, creator, 0, 0))
  }

  /** Has nothing to do with the connection. */
  predicate Outsider(pc: PC) { pc.Idle? || pc.WaitElsewhere? || pc.OtherWork? || pc.UnlockRegistry? }

  /** One thread creates the connection; any number of others have nothing to do with it, one of which
      may hold the registry lock. */
  ghost predicate IsInitial(s: Sys) {
    var c := s.d.past.creator;
    && s.d == Fresh(c).(registryLock := s.d.registryLock)
    && c < |s.pcs| && s.pcs[c] == AddWait && (forall t :: 0 <= t < |s.pcs| && t != c ==> Outsider(s.pcs[t]))
    && (s.d.registryLock.Some? ==> s.d.registryLock.value < |s.pcs|)
    && (forall t :: 0 <= t < |s.pcs| ==> (HoldsRegistry(s.pcs[t]) <==> s.d.registryLock == Some(t)))
  }

  // ----- steps of a thread -----

  /** Where a thread is next, and what it leaves to the others. */
  datatype Next = Next(pc: PC, d: Shared)

  /** A thread waits for a lock that is taken. */
  predicate Blocked(d: Shared, pc: PC) {
    || ((pc.WaitRegistry? || pc.WaitElsewhere? || pc.AddWait?) && d.registryLock.Some?)
    || ((pc.WaitQueue? || pc.WriteOkWait? || pc.WriteErrWait?) && d.queueLock.Some?)
  }

  /** Where C++ defines what the thread does next: no front of an empty list, no missing operation. */
  predicate Defined(d: Shared, pc: PC) {
    && (pc.StartFirst? || pc.WriteOkErase? ==> d.queue != [])
    && (pc.WriteOkErase? || pc.WriteErrClear? ==> pc.op in d.writes)
  }

  /** `async_write` of the front of the queue; the handler keeps the connection alive. */
  function BeginWrite(d: Shared): Shared
    requires d.queue != []
  {
    d.(writes := d.writes[d.ops := WriteOp(d.queue[0], 0, InFlight)], owners := d.owners + {ByWrite(d.ops)},
        ops := d.ops + 1)
  }

  function AfterLetGo(registry: bool): PC { if registry then UnlockRegistry else Idle }

  function Resume(k: After): PC {
    match k
    case ToStartFirst => StartFirst
    case ToUnlockHandler => UnlockHandler
    case ToLetGo(r) => LetGo(r)
    case ToDtorEnd(r) => AfterLetGo(r)
  }

  /** `ws_forward` having locked the weak reference. */
  function Found(d: Shared, job: Job, t: nat): Next {
    var d' := d.(owners := d.owners + {ByThread(t)});
    if job.Push?
      then Next(Encoding(job.message), d'.(past := d.past.(accepted := d.past.accepted + [job.message])))
      else Next(Stopping(TestFlag, ToLetGo(true)), d')
  }

  predicate InForward(pc: PC) {
    pc.WaitRegistry? || pc.Lookup? || pc.WaitElsewhere? || pc.OtherWork? || pc.UnlockRegistry?
  }

  /** `WSPush` and `WSClose` outside the connection. */
  function GoForward(d: Shared, pc: PC, t: nat): Next
    requires InForward(pc)
  {
    match pc
    case WaitRegistry(job) => Next(Lookup(job), d.(registryLock := Some(t)))
    case Lookup(job) =>
      if d.registered && !Destroyed(d) then Found(d, job, t)
      else Next(UnlockRegistry, d.(registered := false))
    case WaitElsewhere => Next(OtherWork, d.(registryLock := Some(t)))
    case OtherWork => Next(UnlockRegistry, d)
    case UnlockRegistry => Next(Idle, d.(registryLock := None))
  }

  predicate InWrite(pc: PC) {
    pc.Encoding? || pc.WaitQueue? || pc.Enqueue? || pc.StartFirst? || pc.UnlockPush?
  }

  /** `WSConnection::write`. */
  function GoWrite(d: Shared, pc: PC, t: nat): Next
    requires InWrite(pc) && Defined(d, pc)
  {
    match pc
    case Encoding(m) => Next(WaitQueue(m, Encode(ONE_FRAGMENT_TEXT, m)), d)
    case WaitQueue(m, bytes) => Next(Enqueue(m, bytes), d.(queueLock := Some(t)))
    case Enqueue(m, bytes) =>
      var queue := d.queue + [Queued(|d.past.pushed|, bytes)];
      Next(if |queue| > 100 then Stopping(TestFlag, ToStartFirst) else StartFirst,
           d.(queue := queue, past := d.past.(pushed := d.past.pushed + [m])))
    case StartFirst => Next(UnlockPush, if |d.queue| == 1 then BeginWrite(d) else d)
    case UnlockPush => Next(LetGo(true), d.(queueLock := None))
  }

  predicate InRelease(pc: PC) { pc.LetGo? || pc.Dtor? }

  /** Dropping a reference; the last one runs the destructor, which stops an unclosed connection. */
  function GoRelease(d: Shared, pc: PC, t: nat): Next
    requires InRelease(pc)
  {
    match pc
    case LetGo(r) =>
      var owners := d.owners - {ByThread(t)};
      if owners == {} then Next(Dtor(r), d.(owners := owners, past := d.past.(reaper := t)))
      else Next(AfterLetGo(r), d.(owners := owners))
    case Dtor(r) => Next(if d.closed then AfterLetGo(r) else Stopping(TestFlag, ToDtorEnd(r)), d)
  }

  predicate InCreate(pc: PC) {
    pc.AddWait? || pc.AddInsert? || pc.AddUnlock? || pc.Opening? || pc.OpenReturn? || pc.StartRead?
  }

  /** `_create_ws_connection` after the connection object exists. */
  function GoCreate(d: Shared, pc: PC, t: nat): Next
    requires InCreate(pc)
  {
    match pc
    case AddWait => Next(AddInsert, d.(registryLock := Some(t)))
    case AddInsert => Next(AddUnlock, d.(registered := true))
    case AddUnlock => Next(Opening, d.(registryLock := None))
    case Opening => Next(OpenReturn, d.(past := d.past.(opens := d.past.opens + 1)))
    case OpenReturn => Next(StartRead, d)
    case StartRead => Next(LetGo(false), d.(read := Reading, owners := d.owners + {ByRead}))
  }

  predicate InOkHandler(pc: PC) { pc.WriteOkWait? || pc.WriteOkErase? || pc.WriteNext? || pc.UnlockHandler? }

  /** `handle_write` without an error; the unlocking serves the error case as well. */
  function GoOkHandler(d: Shared, pc: PC, t: nat): Next
    requires InOkHandler(pc) && Defined(d, pc)
  {
    match pc
    case WriteOkWait(k) => Next(WriteOkErase(k), d.(queueLock := Some(t)))
    case WriteOkErase(k) =>
      Next(WriteNext, d.(queue := d.queue[1..], writes := d.writes - {k},
                         past := d.past.(sent := d.past.sent + [d.writes[k].frame])))
    case WriteNext => Next(UnlockHandler, if d.queue != [] then BeginWrite(d) else d)
    case UnlockHandler => Next(LetGo(false), d.(queueLock := None))
  }

  /** The queue cleared after write `k` failed. */
  function Dropped(d: Shared, k: nat): Shared
    requires k in d.writes
  {
    var short := |d.queue| > 1 || d.writes[k].done < |d.writes[k].frame.bytes|;
    d.(queue := [], writes := d.writes - {k},
       past := d.past.(dropped := d.past.dropped + d.queue, cut := d.past.cut || short))
  }

  predicate InErrHandler(pc: PC) { pc.WriteErrReport? || pc.WriteErrWait? || pc.WriteErrClear? || pc.ReadHandle? }

  /** `handle_write` with an error, and `handle_read`. */
  function GoErrHandler(d: Shared, pc: PC, t: nat): Next
    requires InErrHandler(pc) && Defined(d, pc)
  {
    match pc
    case WriteErrReport(k) => Next(WriteErrWait(k), d)
    case WriteErrWait(k) => Next(WriteErrClear(k), d.(queueLock := Some(t)))
    case WriteErrClear(k) =>
      Next(Stopping(TestFlag, ToUnlockHandler), Dropped(d, k))
    case ReadHandle => Next(Stopping(TestFlag, ToLetGo(false)), d)
  }

  /** `stop`, step by step: other threads may run between any two of them. */
  function GoStop(d: Shared, pc: PC, t: nat): Next
    requires pc.Stopping?
  {
    Next(match pc.phase
         case TestFlag => if d.closed then Resume(pc.after) else Stopping(Callback, pc.after)
         case Callback => Stopping(Cancel, pc.after)
         case Cancel => Stopping(Shutdown, pc.after)
         case Shutdown => Stopping(CloseSocket, pc.after)
         case CloseSocket => Resume(pc.after),
         AfterPhase(d, pc.phase, t))
  }

  function AfterPhase(d: Shared, phase: Phase, t: nat): Shared {
    match phase
    case TestFlag => if d.closed then d else d.(closed := true, past := d.past.(closer := t))
    case Callback => d.(past := d.past.(closes := d.past.closes + 1))
    case Cancel => d
    case Shutdown => d.(socketOpen := false)
    case CloseSocket => d.(socketOpen := false)
  }

  predicate CanGo(d: Shared, pc: PC) { !pc.Idle? && !Blocked(d, pc) && Defined(d, pc) }

  /** One step of the code of thread `t`. */
  function GoThread(d: Shared, pc: PC, t: nat): Next
    requires CanGo(d, pc)
  {
    if pc.Stopping? then GoStop(d, pc, t)
    else if InForward(pc) then GoForward(d, pc, t)
    else if InWrite(pc) then GoWrite(d, pc, t)
    else if InRelease(pc) then GoRelease(d, pc, t)
    else if InCreate(pc) then GoCreate(d, pc, t)
    else if InOkHandler(pc) then GoOkHandler(d, pc, t)
    else GoErrHandler(d, pc, t)
  }

  // ----- actions -----

  datatype Action =
    | Call(t: nat, job: Job)            // an idle thread calls into the server, naming the connection
    | CallElsewhere(t: nat)             // or not naming it
    | Go(t: nat)                        // a thread takes its next step
    | Dispatch(t: nat, op: nat)         // an idle thread starts the handler of a completed write
    | DispatchRead(t: nat)
    | Transfer(op: nat, n: nat)         // bytes of a pending write go out
    | Complete(op: nat, ok: bool)       // a pending write completes
    | CompleteRead

  predicate Enabled(s: Sys, a: Action) {
    match a
    case Call(t, _) => t < |s.pcs| && s.pcs[t].Idle?
    case CallElsewhere(t) => t < |s.pcs| && s.pcs[t].Idle?
    case Go(t) => t < |s.pcs| && CanGo(s.d, s.pcs[t])
    case Dispatch(t, k) => t < |s.pcs| && s.pcs[t].Idle? && k in s.d.writes && s.d.writes[k].status.Completed?
    case DispatchRead(t) => t < |s.pcs| && s.pcs[t].Idle? && s.d.read.Arrived?
    case Transfer(k, n) =>
      && k in s.d.writes && s.d.writes[k].status.InFlight? && s.d.socketOpen
      && 0 < n && s.d.writes[k].done + n <= |s.d.writes[k].frame.bytes|
    case Complete(k, ok) =>
      && k in s.d.writes && s.d.writes[k].status.InFlight?
      && (ok ==> s.d.writes[k].done == |s.d.writes[k].frame.bytes|)
    case CompleteRead => s.d.read.Reading?
  }

  /** The handler of a completed write starts in thread `t`, which takes over its reference. */
  function StartHandler(d: Shared, k: nat, t: nat): Next
    requires k in d.writes && d.writes[k].status.Completed?
  {
    var op := d.writes[k];
    Next(if op.status.ok then WriteOkWait(k) else WriteErrReport(k),
         d.(writes := d.writes[k := op.(status := Handling(t, op.status.ok))],
             owners := d.owners - {ByWrite(k)} + {ByThread(t)}))
  }

  function StartReadHandler(d: Shared, t: nat): Next {
    Next(ReadHandle, d.(read := Handled, owners := d.owners - {ByRead} + {ByThread(t)}))
  }

  /** What happens outside the threads. */
  function Outside(d: Shared, a: Action): Shared
    requires a.Transfer? || a.Complete? || a.CompleteRead?
    requires a.Transfer? ==> a.op in d.writes && d.writes[a.op].done + a.n <= |d.writes[a.op].frame.bytes|
    requires a.Complete? ==> a.op in d.writes
  {
    match a
    case Transfer(k, n) =>
      var op := d.writes[k];
      d.(writes := d.writes[k := op.(done := op.done + n)],
         past := d.past.(wire := d.past.wire + op.frame.bytes[op.done..op.done + n],
                         tags := d.past.tags + FrameTags(op.frame.id, op.done, op.done + n),
                         late := d.past.late || d.past.cut))
    case Complete(k, ok) =>
      d.(writes := d.writes[k := d.writes[k].(status := Completed(ok))],
          past := d.past.(broken := d.past.broken || !ok))
    case CompleteRead => d.(read := Arrived)
  }

  predicate ByThreadAction(a: Action) { a.Call? || a.CallElsewhere? || a.Go? || a.Dispatch? || a.DispatchRead? }

  function Named(d: Shared): Shared { d.(past := d.past.(guessed := d.past.guessed || d.past.opens == 0)) }

  /** The step of the thread an action names. */
  function ThreadNext(s: Sys, a: Action): Next
    requires ByThreadAction(a) && Enabled(s, a)
  {
    match a
    case Call(t, job) => Next(WaitRegistry(job), Named(s.d))
    case CallElsewhere(t) => Next(WaitElsewhere, s.d)
    case Go(t) => GoThread(s.d, s.pcs[t], t)
    case Dispatch(t, k) => StartHandler(s.d, k, t)
    case DispatchRead(t) => StartReadHandler(s.d, t)
  }

  function Apply(s: Sys, a: Action): Sys
    requires Enabled(s, a)
  {
    if ByThreadAction(a) then
      var n := ThreadNext(s, a);
      Sys(s.pcs[a.t := n.pc], n.d)
    else Sys(s.pcs, Outside(s.d, a))
  }

  /** A run: every action is possible when it happens. */
  predicate IsRun(s: Sys, acts: seq<Action>)
    decreases |acts|
  {
    acts == [] || (Enabled(s, acts[0]) && IsRun(Apply(s, acts[0]), acts[1..]))
  }

  function RunAll(s: Sys, acts: seq<Action>): Sys
    requires IsRun(s, acts)
    decreases |acts|
  {
    if acts == [] then s else RunAll(Apply(s, acts[0]), acts[1..])
  }

  /** Every reachable state, over all interleavings and any number of threads. */
  ghost predicate Reachable(s: Sys) { exists s0, acts :: IsInitial(s0) && IsRun(s0, acts) && RunAll(s0, acts) == s }
}
