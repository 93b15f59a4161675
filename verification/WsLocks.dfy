/** Who holds the locks and the references, in every reachable state. */
module WsLocks {
  import opened Text
  import opened WsModel

  // ----- locks -----

  ghost predicate LocksHeld(s: Sys) {
    && (s.d.registryLock.Some? ==> s.d.registryLock.value < |s.pcs|)
    && (s.d.queueLock.Some? ==> s.d.queueLock.value < |s.pcs|)
    && (forall t :: 0 <= t < |s.pcs| ==>
          && (HoldsRegistry(s.pcs[t]) <==> s.d.registryLock == Some(t))
          && (HoldsQueue(s.pcs[t]) <==> s.d.queueLock == Some(t)))
  }

  /** How a step of thread `t` moves a lock: takes it when it is free, gives it up, or leaves it. */
  predicate LockMove(before: bool, after: bool, lock: Option<nat>, lock': Option<nat>, t: nat) {
    if before == after then lock' == lock
    else if after then lock == None && lock' == Some(t)
    else lock' == None
  }

  predicate LocksMove(d: Shared, pc: PC, t: nat, n: Next) {
    && LockMove(HoldsRegistry(pc), HoldsRegistry(n.pc), d.registryLock, n.d.registryLock, t)
    && LockMove(HoldsQueue(pc), HoldsQueue(n.pc), d.queueLock, n.d.queueLock, t)
  }

  lemma StopMovesLocks(d: Shared, pc: PC, t: nat)
    requires pc.Stopping?
    ensures LocksMove(d, pc, t, GoStop(d, pc, t))
  {
  }

  lemma ForwardMovesLocks(d: Shared, pc: PC, t: nat)
    requires CanGo(d, pc) && InForward(pc)
    ensures LocksMove(d, pc, t, GoForward(d, pc, t))
  {
  }

  lemma WriteMovesLocks(d: Shared, pc: PC, t: nat)
    requires CanGo(d, pc) && InWrite(pc)
    ensures LocksMove(d, pc, t, GoWrite(d, pc, t))
  {
  }

  lemma CreateMovesLocks(d: Shared, pc: PC, t: nat)
    requires CanGo(d, pc) && InCreate(pc)
    ensures LocksMove(d, pc, t, GoCreate(d, pc, t))
  {
  }

  lemma ReleaseMovesLocks(d: Shared, pc: PC, t: nat)
    requires CanGo(d, pc) && InRelease(pc)
    ensures LocksMove(d, pc, t, GoRelease(d, pc, t))
  {
  }

  lemma HandlerMovesLocks(d: Shared, pc: PC, t: nat)
    requires CanGo(d, pc) && (InOkHandler(pc) || InErrHandler(pc))
    ensures LocksMove(d, pc, t, if InOkHandler(pc) then GoOkHandler(d, pc, t) else GoErrHandler(d, pc, t))
  {
  }

  lemma GoMovesLocks(d: Shared, pc: PC, t: nat)
    requires CanGo(d, pc)
    ensures LocksMove(d, pc, t, GoThread(d, pc, t))
  {
    if pc.Stopping? { StopMovesLocks(d, pc, t); }
    else if InForward(pc) { ForwardMovesLocks(d, pc, t); }
    else if InWrite(pc) { WriteMovesLocks(d, pc, t); }
    else if InCreate(pc) { CreateMovesLocks(d, pc, t); }
    else if InRelease(pc) { ReleaseMovesLocks(d, pc, t); }
    else { HandlerMovesLocks(d, pc, t); }
  }

  /** No two threads ever hold the same lock, whatever happens. */
  lemma LocksKept(s: Sys, a: Action)
    requires LocksHeld(s) && Enabled(s, a)
    ensures LocksHeld(Apply(s, a))
  {
    if a.Go? { GoMovesLocks(s.d, s.pcs[a.t], a.t); }
    if ByThreadAction(a) {
      assert LocksMove(s.d, s.pcs[a.t], a.t, ThreadNext(s, a));
    }
  }

  // ----- operations and references -----

  predicate HandlesOk(pc: PC) { pc.WriteOkWait? || pc.WriteOkErase? }

  predicate IsHandler(pc: PC) { HandlesOk(pc) || pc.WriteErrReport? || pc.WriteErrWait? || pc.WriteErrClear? }

  /** The handler thread `t` runs is that of an existing operation, which names it. */
  predicate HandlerExact(d: Shared, pc: PC, t: nat) {
    IsHandler(pc) ==> pc.op in d.writes && d.writes[pc.op].status == Handling(t, HandlesOk(pc))
  }

  ghost predicate HandlersExact(s: Sys) {
    && (forall t :: 0 <= t < |s.pcs| ==> HandlerExact(s.d, s.pcs[t], t))
    && (forall k :: k in s.d.writes && s.d.writes[k].status.Handling? ==>
          var t := s.d.writes[k].status.thread; t < |s.pcs| && IsHandler(s.pcs[t]) && s.pcs[t].op == k)
  }

  /** An operation keeps the connection alive until its handler starts; operations are numbered upwards. */
  ghost predicate OperationsOwn(d: Shared) {
    && (forall k :: k in d.writes ==> k < d.ops)
    && (forall k: nat :: ByWrite(k) in d.owners <==> k in d.writes && !d.writes[k].status.Handling?)
    && (ByRead in d.owners <==> d.read.Reading? || d.read.Arrived?)
  }

  /** A thread owns exactly while it is in the connection's code or holds a locked weak reference. */
  ghost predicate ThreadsOwn(s: Sys) {
    forall t: nat :: ByThread(t) in s.d.owners <==> t < |s.pcs| && HoldsRef(s.pcs[t])
  }

  predicate Edits(pc: PC) { pc.WriteOkErase? || pc.WriteErrClear? }

  /** A step of thread `t` touches only its own reference, the operation it handles, and a new one. */
  ghost predicate OwnersMove(d: Shared, pc: PC, t: nat, n: Next) {
    && OperationsOwn(n.d) && HandlerExact(n.d, n.pc, t)
    && (ByThread(t) in n.d.owners <==> HoldsRef(n.pc))
    && (forall u: nat :: u != t ==> (ByThread(u) in n.d.owners <==> ByThread(u) in d.owners))
    && (forall k :: k in n.d.writes ==>
          (k in d.writes && n.d.writes[k] == d.writes[k]) || n.d.writes[k].status.InFlight?)
    && (forall k :: k in d.writes && !(Edits(pc) && pc.op == k) ==> k in n.d.writes && n.d.writes[k] == d.writes[k])
    && (Edits(pc) ==> pc.op !in n.d.writes)
    && (IsHandler(pc) && !Edits(pc) ==> IsHandler(n.pc) && n.pc.op == pc.op)
    && (!IsHandler(pc) ==> !IsHandler(n.pc))
  }

  ghost predicate OwnersReady(d: Shared, pc: PC, t: nat) {
    && CanGo(d, pc) && OperationsOwn(d) && HandlerExact(d, pc, t)
    && (ByThread(t) in d.owners <==> HoldsRef(pc))
  }

  /** Most steps leave references and operations alone. */
  lemma StillMovesOwners(d: Shared, pc: PC, t: nat, n: Next)
    requires OwnersReady(d, pc, t) && HoldsRef(n.pc) == HoldsRef(pc) && !IsHandler(pc) && !IsHandler(n.pc)
    requires n.d.owners == d.owners && n.d.writes == d.writes && n.d.ops == d.ops && n.d.read == d.read
    ensures OwnersMove(d, pc, t, n)
  {
  }

  lemma ForwardMovesOwners(d: Shared, pc: PC, t: nat)
    requires OwnersReady(d, pc, t) && InForward(pc)
    ensures OwnersMove(d, pc, t, GoForward(d, pc, t))
  {
    if pc.Lookup? && d.registered && !Destroyed(d) {
      FoundMovesOwners(d, pc, t, Found(d, pc.job, t));
    } else {
      StillMovesOwners(d, pc, t, GoForward(d, pc, t));
    }
  }

  lemma FoundMovesOwners(d: Shared, pc: PC, t: nat, n: Next)
    requires OwnersReady(d, pc, t) && pc.Lookup? && HoldsRef(n.pc) && !IsHandler(n.pc)
    requires n.d.owners == d.owners + {ByThread(t)} && n.d.writes == d.writes && n.d.ops == d.ops && n.d.read == d.read
    ensures OwnersMove(d, pc, t, n)
  {
  }

  lemma WriteMovesOwners(d: Shared, pc: PC, t: nat)
    requires OwnersReady(d, pc, t) && InWrite(pc)
    ensures OwnersMove(d, pc, t, GoWrite(d, pc, t))
  {
    if pc.StartFirst? && |d.queue| == 1 {
      BeginMovesOwners(d, pc, t, GoWrite(d, pc, t));
    } else {
      StillMovesOwners(d, pc, t, GoWrite(d, pc, t));
    }
  }

  lemma BeginMovesOwners(d: Shared, pc: PC, t: nat, n: Next)
    requires OwnersReady(d, pc, t) && HoldsRef(pc) && HoldsRef(n.pc) && !IsHandler(pc) && !IsHandler(n.pc)
    requires d.queue != [] && n.d == BeginWrite(d)
    ensures OwnersMove(d, pc, t, n)
  {
  }

  lemma CreateMovesOwners(d: Shared, pc: PC, t: nat)
    requires OwnersReady(d, pc, t) && InCreate(pc)
    ensures OwnersMove(d, pc, t, GoCreate(d, pc, t))
  {
  }

  lemma ReleaseMovesOwners(d: Shared, pc: PC, t: nat)
    requires OwnersReady(d, pc, t) && InRelease(pc)
    ensures OwnersMove(d, pc, t, GoRelease(d, pc, t))
  {
  }

  lemma OkHandlerMovesOwners(d: Shared, pc: PC, t: nat)
    requires OwnersReady(d, pc, t) && InOkHandler(pc)
    ensures OwnersMove(d, pc, t, GoOkHandler(d, pc, t))
  {
    if pc.WriteNext? && d.queue != [] {
      BeginMovesOwners(d, pc, t, GoOkHandler(d, pc, t));
    } else if !IsHandler(pc) {
      StillMovesOwners(d, pc, t, GoOkHandler(d, pc, t));
    }
  }

  lemma ErrHandlerMovesOwners(d: Shared, pc: PC, t: nat)
    requires OwnersReady(d, pc, t) && InErrHandler(pc)
    ensures OwnersMove(d, pc, t, GoErrHandler(d, pc, t))
  {
  }

  lemma StopMovesOwners(d: Shared, pc: PC, t: nat)
    requires OwnersReady(d, pc, t) && pc.Stopping?
    ensures OwnersMove(d, pc, t, GoStop(d, pc, t))
  {
    StillMovesOwners(d, pc, t, GoStop(d, pc, t));
  }

  lemma GoMovesOwners(d: Shared, pc: PC, t: nat)
    requires OwnersReady(d, pc, t)
    ensures OwnersMove(d, pc, t, GoThread(d, pc, t))
  {
    if pc.Stopping? { StopMovesOwners(d, pc, t); }
    else if InForward(pc) { ForwardMovesOwners(d, pc, t); }
    else if InWrite(pc) { WriteMovesOwners(d, pc, t); }
    else if InCreate(pc) { CreateMovesOwners(d, pc, t); }
    else if InRelease(pc) { ReleaseMovesOwners(d, pc, t); }
    else if InOkHandler(pc) { OkHandlerMovesOwners(d, pc, t); }
    else { ErrHandlerMovesOwners(d, pc, t); }
  }

  ghost predicate OwnersExact(s: Sys) { OperationsOwn(s.d) && ThreadsOwn(s) && HandlersExact(s) }

  lemma OwnersKeptByGo(s: Sys, t: nat)
    requires OwnersExact(s) && Enabled(s, Go(t))
    ensures OwnersExact(Apply(s, Go(t)))
  {
    GoMovesOwners(s.d, s.pcs[t], t);
  }

  lemma OwnersKeptByCall(s: Sys, a: Action)
    requires OwnersExact(s) && Enabled(s, a) && (a.Call? || a.CallElsewhere?)
    ensures OwnersExact(Apply(s, a))
  {
  }

  lemma OwnersKeptByDispatch(s: Sys, a: Action)
    requires OwnersExact(s) && Enabled(s, a) && a.Dispatch?
    ensures OwnersExact(Apply(s, a))
  {
  }

  lemma OwnersKeptByDispatchRead(s: Sys, a: Action)
    requires OwnersExact(s) && Enabled(s, a) && a.DispatchRead?
    ensures OwnersExact(Apply(s, a))
  {
  }

  lemma OwnersKeptOutside(s: Sys, a: Action)
    requires OwnersExact(s) && Enabled(s, a) && !ByThreadAction(a)
    ensures OwnersExact(Apply(s, a))
  {
  }

  lemma OwnersKept(s: Sys, a: Action)
    requires OwnersExact(s) && Enabled(s, a)
    ensures OwnersExact(Apply(s, a))
  {
    if a.Go? { OwnersKeptByGo(s, a.t); }
    else if a.Call? || a.CallElsewhere? { OwnersKeptByCall(s, a); }
    else if a.Dispatch? { OwnersKeptByDispatch(s, a); }
    else if a.DispatchRead? { OwnersKeptByDispatchRead(s, a); }
    else { OwnersKeptOutside(s, a); }
  }
}
