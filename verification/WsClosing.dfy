/** Closing once, and the end of the object, in every reachable state. */
module WsClosing {
  import opened WsModel
  import opened WsLocks

  /** In `stop` behind the successful exchange of the flag. */
  predicate PastTest(pc: PC) { pc.Stopping? && !pc.phase.TestFlag? }

  predicate SocketStillOpen(pc: PC) { pc.Stopping? && (pc.phase.Callback? || pc.phase.Cancel? || pc.phase.Shutdown?) }

  predicate AtCallback(pc: PC) { pc.Stopping? && pc.phase.Callback? }

  /** One thread sets the flag, and only that thread calls back and closes the socket. */
  predicate ClosesOnce(s: Sys) {
    var d, p := s.d, s.d.past;
    && p.closes <= 1
    && (!d.closed ==> p.closes == 0 && d.socketOpen)
    && (forall t :: 0 <= t < |s.pcs| && PastTest(s.pcs[t]) ==>
          d.closed && t == p.closer && p.closes == if AtCallback(s.pcs[t]) then 0 else 1)
    && (d.closed && p.closes == 0 ==> p.closer < |s.pcs| && AtCallback(s.pcs[p.closer]))
    && (d.closed && d.socketOpen ==> p.closer < |s.pcs| && SocketStillOpen(s.pcs[p.closer]))
  }

  /** What a step may do to the flag, the callback and the socket. */
  predicate CloseMove(d: Shared, pc: PC, t: nat, n: Next) {
    || (&& !d.closed && n.d.closed && n.d.past.closer == t && AtCallback(n.pc) && !PastTest(pc)
        && n.d.past.closes == d.past.closes && n.d.socketOpen == d.socketOpen)
    || (&& n.d.closed == d.closed && n.d.past.closer == d.past.closer
        && (PastTest(n.pc) ==> PastTest(pc) && !AtCallback(n.pc))
        && n.d.past.closes == d.past.closes + (if AtCallback(pc) then 1 else 0)
        && (AtCallback(pc) ==> PastTest(n.pc))
        && (SocketStillOpen(pc) && !SocketStillOpen(n.pc) ==> !n.d.socketOpen)
        && (n.d.socketOpen ==> d.socketOpen) && (!PastTest(pc) ==> n.d.socketOpen == d.socketOpen))
  }

  lemma GoMovesClose(d: Shared, pc: PC, t: nat)
    requires CanGo(d, pc)
    ensures CloseMove(d, pc, t, GoThread(d, pc, t))
  {
    if pc.Stopping? { StopMovesClose(d, pc, t); } else { OtherMovesClose(d, pc, t); }
  }

  lemma StopMovesClose(d: Shared, pc: PC, t: nat)
    requires pc.Stopping?
    ensures CloseMove(d, pc, t, GoStop(d, pc, t))
  {
  }

  lemma OtherMovesClose(d: Shared, pc: PC, t: nat)
    requires CanGo(d, pc) && !pc.Stopping?
    ensures CloseMove(d, pc, t, GoThread(d, pc, t))
  {
    OthersLeaveFlag(d, pc, t);
  }

  /** Only `stop` touches the flag, the socket and the callback, and it begins with the test. */
  predicate FlagLeft(d: Shared, n: Next) {
    && n.d.closed == d.closed && n.d.socketOpen == d.socketOpen && !PastTest(n.pc)
    && n.d.past.closes == d.past.closes && n.d.past.closer == d.past.closer
  }

  lemma OthersLeaveFlag(d: Shared, pc: PC, t: nat)
    requires CanGo(d, pc) && !pc.Stopping?
    ensures FlagLeft(d, GoThread(d, pc, t))
  {
    if InForward(pc) { ForwardLeavesFlag(d, pc, t); }
    else if InWrite(pc) { WriteLeavesFlag(d, pc, t); }
    else if InOkHandler(pc) || InErrHandler(pc) { HandlerLeavesFlag(d, pc, t); }
  }

  lemma ForwardLeavesFlag(d: Shared, pc: PC, t: nat)
    requires CanGo(d, pc) && InForward(pc)
    ensures FlagLeft(d, GoForward(d, pc, t))
  {
  }

  lemma WriteLeavesFlag(d: Shared, pc: PC, t: nat)
    requires CanGo(d, pc) && InWrite(pc)
    ensures FlagLeft(d, GoWrite(d, pc, t))
  {
  }

  lemma HandlerLeavesFlag(d: Shared, pc: PC, t: nat)
    requires CanGo(d, pc) && (InOkHandler(pc) || InErrHandler(pc))
    ensures FlagLeft(d, if InOkHandler(pc) then GoOkHandler(d, pc, t) else GoErrHandler(d, pc, t))
  {
  }

  lemma ClosesOnceKept(s: Sys, a: Action)
    requires ClosesOnce(s) && Enabled(s, a)
    ensures ClosesOnce(Apply(s, a))
    ensures s.d.closed ==> Apply(s, a).d.closed
    ensures s.d.past.closes <= Apply(s, a).d.past.closes
  {
    if a.Go? { GoMovesClose(s.d, s.pcs[a.t], a.t); }
  }

  // ----- the end -----

  predicate InDtor(pc: PC) { pc.Dtor? || (pc.Stopping? && pc.after.ToDtorEnd?) }

  /** The destructor has not yet looked at the flag, or is about to set it. */
  predicate DtorBegins(pc: PC) { pc.Dtor? || (pc.Stopping? && pc.after.ToDtorEnd? && pc.phase.TestFlag?) }

  /** The destructor is run by the one thread that let the last reference go, and it does not miss an
      unclosed connection. */
  predicate DestroyedOnce(s: Sys) {
    && (forall t :: 0 <= t < |s.pcs| && InDtor(s.pcs[t]) ==> Destroyed(s.d) && t == s.d.past.reaper)
    && (Destroyed(s.d) && !s.d.closed ==> s.d.past.reaper < |s.pcs| && DtorBegins(s.pcs[s.d.past.reaper]))
  }

  predicate EndMove(d: Shared, pc: PC, t: nat, n: Next) {
    && (Destroyed(d) ==> Destroyed(n.d) && n.d.past.reaper == d.past.reaper)
    && (!Destroyed(d) && Destroyed(n.d) ==> n.d.past.reaper == t && n.pc.Dtor?)
    && (InDtor(n.pc) ==> InDtor(pc) || (!Destroyed(d) && Destroyed(n.d)))
    && (DtorBegins(pc) ==> DtorBegins(n.pc) || n.d.closed)
  }

  lemma GoMovesEnd(d: Shared, pc: PC, t: nat)
    requires OwnersReady(d, pc, t) && (HoldsRef(pc) ==> !Destroyed(d))
    ensures EndMove(d, pc, t, GoThread(d, pc, t))
  {
    if pc.Stopping? { StopMovesEnd(d, pc, t); }
    else if InForward(pc) { ForwardMovesEnd(d, pc, t); }
    else { OtherMovesEnd(d, pc, t); }
  }

  lemma StopMovesEnd(d: Shared, pc: PC, t: nat)
    requires pc.Stopping?
    ensures EndMove(d, pc, t, GoStop(d, pc, t))
  {
  }

  lemma ForwardMovesEnd(d: Shared, pc: PC, t: nat)
    requires CanGo(d, pc) && InForward(pc)
    ensures EndMove(d, pc, t, GoForward(d, pc, t))
  {
  }

  lemma OtherMovesEnd(d: Shared, pc: PC, t: nat)
    requires OwnersReady(d, pc, t) && (HoldsRef(pc) ==> !Destroyed(d)) && !pc.Stopping? && !InForward(pc)
    ensures EndMove(d, pc, t, GoThread(d, pc, t))
  {
    GoMovesOwners(d, pc, t);
    var n := GoThread(d, pc, t);
    if HoldsRef(n.pc) { assert ByThread(t) in n.d.owners; }
  }

  lemma NotDestroyedWhileHeld(s: Sys, t: nat)
    requires OwnersExact(s) && t < |s.pcs| && HoldsRef(s.pcs[t])
    ensures !Destroyed(s.d)
  {
    assert ByThread(t) in s.d.owners;
  }

  lemma DestroyedOnceKept(s: Sys, a: Action)
    requires OwnersExact(s) && ClosesOnce(s) && DestroyedOnce(s) && Enabled(s, a)
    ensures DestroyedOnce(Apply(s, a))
    ensures Destroyed(s.d) ==> Destroyed(Apply(s, a).d)
  {
    match a
    case Go(t) =>
      if HoldsRef(s.pcs[t]) { NotDestroyedWhileHeld(s, t); }
      GoMovesEnd(s.d, s.pcs[t], t);
      GoMovesClose(s.d, s.pcs[t], t);
    case Dispatch(t, k) =>
      assert ByWrite(k) in s.d.owners;
      assert ByThread(t) in Apply(s, a).d.owners;
    case DispatchRead(t) =>
      assert ByRead in s.d.owners;
      assert ByThread(t) in Apply(s, a).d.owners;
    case _ =>
  }
}
