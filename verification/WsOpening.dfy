/** The order of `ws_onopen` and `ws_onclose`: a connection is in the registry before it is started, but its
    id is made fresh and leaves the server only as the argument of `ws_onopen`. */
module WsOpening {
  import opened Text
  import opened WsModel
  import opened WsLocks
  import opened WsTheorems
  import opened WsFailure

  /** Before the call of `ws_onopen`. */
  predicate NotOpened(pc: PC) { pc.AddWait? || pc.AddInsert? || pc.AddUnlock? || pc.Opening? }

  /** Nobody but its creator holds the connection, and nothing has been asked of it. */
  predicate Untouched(d: Shared) { d.owners == {ByThread(d.past.creator)} && !d.closed && d.past.accepted == [] }

  /** Untouched, and no other thread has anything to do with it. */
  ghost predicate Unknown(s: Sys) {
    Untouched(s.d) && forall t :: 0 <= t < |s.pcs| && t != s.d.past.creator ==> Outsider(s.pcs[t])
  }

  /** One thread creates the connection and calls `ws_onopen` once; until it does, the connection is not in
      the registry, or unknown, or somebody has guessed its id. */
  ghost predicate CreationOk(s: Sys) {
    var c := s.d.past.creator;
    && c < |s.pcs| && (forall t :: 0 <= t < |s.pcs| && t != c ==> !InCreate(s.pcs[t]))
    && s.d.past.opens == (if NotOpened(s.pcs[c]) then 0 else 1)
    && (s.pcs[c].AddWait? || s.pcs[c].AddInsert? ==> !s.d.registered && NobodyInside(s))
    && (s.d.past.opens == 0 && !s.d.past.guessed ==> Unknown(s))
  }

  /** As long as the registry does not have the connection no call gets to it, whatever it names. */
  ghost predicate NobodyInside(s: Sys) {
    Untouched(s.d) && forall t :: 0 <= t < |s.pcs| && t != s.d.past.creator ==> s.pcs[t].Idle? || InForward(s.pcs[t])
  }

  // ----- steps -----

  /** Only creation opens, and no other code leads into it. */
  predicate OpensNothing(d: Shared, n: Next) {
    !InCreate(n.pc) && n.d.past.opens == d.past.opens && n.d.past.creator == d.past.creator
    && n.d.past.guessed == d.past.guessed
  }

  lemma OthersDoNotOpen(d: Shared, pc: PC, t: nat)
    requires CanGo(d, pc) && !InCreate(pc)
    ensures OpensNothing(d, GoThread(d, pc, t))
  {
    if pc.Stopping? { StopDoesNotOpen(d, pc, t); }
    else if InForward(pc) { ForwardDoesNotOpen(d, pc, t); }
    else if InWrite(pc) { WriteDoesNotOpen(d, pc, t); }
  }

  lemma StopDoesNotOpen(d: Shared, pc: PC, t: nat)
    requires pc.Stopping?
    ensures OpensNothing(d, GoStop(d, pc, t))
  {
  }

  lemma ForwardDoesNotOpen(d: Shared, pc: PC, t: nat)
    requires CanGo(d, pc) && InForward(pc)
    ensures OpensNothing(d, GoForward(d, pc, t))
  {
  }

  lemma WriteDoesNotOpen(d: Shared, pc: PC, t: nat)
    requires CanGo(d, pc) && InWrite(pc)
    ensures OpensNothing(d, GoWrite(d, pc, t))
  {
  }

  /** Who has nothing to do with the connection leaves it alone, and goes on having nothing to do with it. */
  lemma OutsiderStays(d: Shared, pc: PC, t: nat)
    requires CanGo(d, pc) && Outsider(pc)
    ensures var n := GoThread(d, pc, t);
            Outsider(n.pc) && n.d == d.(registryLock := n.d.registryLock)
  {
  }

  /** Without an entry in the registry a call finds nothing. */
  lemma CallFindsNothing(d: Shared, pc: PC, t: nat)
    requires CanGo(d, pc) && InForward(pc) && !d.registered
    ensures var n := GoForward(d, pc, t);
            (n.pc.Idle? || InForward(n.pc)) && n.d == d.(registryLock := n.d.registryLock)
  {
  }

  /** What the creator may do. */
  predicate CreatorMove(d: Shared, pc: PC, n: Next) {
    && n.d.past == d.past.(opens := n.d.past.opens) && n.d.closed == d.closed
    && n.d.past.opens == (if pc.Opening? then d.past.opens + 1 else d.past.opens)
    && (NotOpened(n.pc) <==> NotOpened(pc) && !pc.Opening?) && (NotOpened(pc) ==> n.d.owners == d.owners)
    && (n.pc.AddInsert? ==> pc.AddWait? && n.d.registered == d.registered) && !n.pc.AddWait?
  }

  lemma CreatorMoves(d: Shared, pc: PC, t: nat)
    requires CanGo(d, pc) && InCreate(pc)
    ensures CreatorMove(d, pc, GoCreate(d, pc, t))
  {
    if pc.AddWait? || pc.AddInsert? || pc.AddUnlock? { InsertionMoves(d, pc, t); }
  }

  lemma InsertionMoves(d: Shared, pc: PC, t: nat)
    requires CanGo(d, pc) && (pc.AddWait? || pc.AddInsert? || pc.AddUnlock?)
    ensures CreatorMove(d, pc, GoCreate(d, pc, t))
  {
  }

  lemma NothingPending(s: Sys)
    requires OwnersExact(s) && Untouched(s.d)
    ensures !s.d.read.Reading? && !s.d.read.Arrived?
    ensures forall k :: k in s.d.writes ==> s.d.writes[k].status.Handling?
  {
    forall k | k in s.d.writes ensures s.d.writes[k].status.Handling? {
      assert !s.d.writes[k].status.Handling? ==> ByWrite(k) in s.d.owners;
    }
  }

  lemma CreationKeptByCreator(s: Sys)
    requires CreationOk(s) && Enabled(s, Go(s.d.past.creator)) && InCreate(s.pcs[s.d.past.creator])
    ensures CreationOk(Apply(s, Go(s.d.past.creator)))
  {
    var c := s.d.past.creator;
    CreatorMoves(s.d, s.pcs[c], c);
    CreationAfter(s, GoCreate(s.d, s.pcs[c], c));
  }

  lemma CreationAfter(s: Sys, n: Next)
    requires CreationOk(s) && CreatorMove(s.d, s.pcs[s.d.past.creator], n)
    ensures CreationOk(Sys(s.pcs[s.d.past.creator := n.pc], n.d))
  {
  }

  /** The creator behind its creation, or another thread once the connection is known. */
  lemma CreationKeptLater(s: Sys, t: nat)
    requires CreationOk(s) && Enabled(s, Go(t)) && !InCreate(s.pcs[t])
    requires s.d.past.opens == 1 || s.d.past.guessed
    requires !s.pcs[s.d.past.creator].AddWait? && !s.pcs[s.d.past.creator].AddInsert?
    ensures CreationOk(Apply(s, Go(t)))
  {
    OthersDoNotOpen(s.d, s.pcs[t], t);
  }

  lemma CreationKeptByOutsider(s: Sys, t: nat)
    requires CreationOk(s) && Enabled(s, Go(t)) && t != s.d.past.creator && Outsider(s.pcs[t])
    ensures CreationOk(Apply(s, Go(t)))
  {
    OutsiderStays(s.d, s.pcs[t], t);
    OthersDoNotOpen(s.d, s.pcs[t], t);
  }

  lemma CreationKeptByCall(s: Sys, t: nat)
    requires CreationOk(s) && Enabled(s, Go(t)) && t != s.d.past.creator && InForward(s.pcs[t])
    requires s.d.past.guessed && !s.d.registered
    ensures CreationOk(Apply(s, Go(t)))
  {
    CallFindsNothing(s.d, s.pcs[t], t);
    OthersDoNotOpen(s.d, s.pcs[t], t);
  }

  lemma CreationKeptByGo(s: Sys, t: nat)
    requires CreationOk(s) && Enabled(s, Go(t))
    ensures CreationOk(Apply(s, Go(t)))
  {
    var c := s.d.past.creator;
    if t == c && InCreate(s.pcs[c]) { CreationKeptByCreator(s); }
    else if t != c && Outsider(s.pcs[t]) { CreationKeptByOutsider(s, t); }
    else if t != c && (s.pcs[c].AddWait? || s.pcs[c].AddInsert?) { CreationKeptByCall(s, t); }
    else { CreationKeptLater(s, t); }
  }

  lemma CreationKeptOutside(s: Sys, a: Action)
    requires OwnersExact(s) && CreationOk(s) && Enabled(s, a) && !ByThreadAction(a)
    ensures CreationOk(Apply(s, a))
  {
  }

  lemma CreationKeptByStart(s: Sys, a: Action)
    requires OwnersExact(s) && CreationOk(s) && Enabled(s, a) && ByThreadAction(a) && !a.Go?
    ensures CreationOk(Apply(s, a))
  {
    if Untouched(s.d) { NothingPending(s); }
  }

  lemma CreationKept(s: Sys, a: Action)
    requires OwnersExact(s) && CreationOk(s) && Enabled(s, a)
    ensures CreationOk(Apply(s, a))
  {
    if a.Go? { CreationKeptByGo(s, a.t); }
    else if ByThreadAction(a) { CreationKeptByStart(s, a); }
    else { CreationKeptOutside(s, a); }
  }

  lemma {:induction false} CreationOverRuns(s: Sys, acts: seq<Action>)
    requires Inv(s) && CreationOk(s) && IsRun(s, acts)
    ensures CreationOk(RunAll(s, acts))
    decreases |acts|
  {
    if acts == [] {
    } else {
      InvKept(s, acts[0]);
      CreationKept(s, acts[0]);
      CreationOverRuns(Apply(s, acts[0]), acts[1..]);
    }
  }

  lemma CreationInitial(s: Sys)
    requires IsInitial(s)
    ensures CreationOk(s)
  {
    assert forall t :: 0 <= t < |s.pcs| && t != s.d.past.creator ==> Outsider(s.pcs[t]);
  }

  lemma CreationReachable(s: Sys)
    requires Reachable(s)
    ensures CreationOk(s)
  {
    var s0, acts :| IsInitial(s0) && IsRun(s0, acts) && RunAll(s0, acts) == s;
    CreationFrom(s0, acts);
  }

  lemma CreationFrom(s: Sys, acts: seq<Action>)
    requires IsInitial(s) && IsRun(s, acts)
    ensures CreationOk(RunAll(s, acts))
  {
    CreationInitial(s);
    InitialInv(s);
    CreationOverRuns(s, acts);
  }

  // ----- the order of the callbacks -----

  /** `ws_onopen` is called at most once, and nothing is accepted and nobody closes before it is, unless a
      call named the connection before its id was known to anybody. */
  lemma OpenedBeforeUse(s: Sys)
    requires Reachable(s)
    ensures s.d.past.opens <= 1
    ensures !s.d.past.guessed && (s.d.closed || s.d.past.closes > 0 || s.d.past.accepted != []) ==> s.d.past.opens == 1
  {
    CreationReachable(s);
    ReachableInv(s);
  }

  /** Whatever is guessed: a connection that is closed has not been opened exactly while its creator stands
      between its entry into the registry and the call of `ws_onopen`. */
  lemma OpenedUnlessGuessed(s: Sys)
    requires Reachable(s) && s.d.closed
    ensures s.d.past.creator < |s.pcs|
    ensures s.d.past.opens == 0 <==> s.pcs[s.d.past.creator].AddUnlock? || s.pcs[s.d.past.creator].Opening?
    ensures s.d.past.opens == 0 ==> s.d.past.guessed
  {
    CreationReachable(s);
  }

  // ----- a connection closed inside its `ws_onopen` -----

  /** `ws_onopen` is running. */
  const CALLED: Shared := FRESH.(registered := true, past := FRESH.past.(opens := 1))

  /** The closing thread holds the registry lock and a reference. */
  const FOUND: Shared := CALLED.(registryLock := Some(1), owners := {ByThread(0), ByThread(1)})

  lemma StepCreate(pcs: seq<PC>, d: Shared, n: Next)
    requires pcs != [] && Reachable(Sys(pcs, d)) && InCreate(pcs[0]) && !Blocked(d, pcs[0])
    requires GoCreate(d, pcs[0], 0) == n
    ensures Reachable(Sys([n.pc] + pcs[1..], n.d))
  {
    Step(pcs, d, 0, n);
    assert pcs[0 := n.pc] == [n.pc] + pcs[1..];
  }

  /** A step of the creator, with one other thread idle. */
  lemma StepFirst(pc: PC, d: Shared, n: Next)
    requires Reachable(Sys([pc, Idle], d)) && InCreate(pc) && !Blocked(d, pc) && GoCreate(d, pc, 0) == n
    ensures Reachable(Sys([n.pc, Idle], n.d))
  {
    StepCreate([pc, Idle], d, n);
    assert [n.pc] + [pc, Idle][1..] == [n.pc, Idle];
  }

  lemma CalledReachable()
    ensures Reachable(Sys([OpenReturn, Idle], CALLED))
  {
    var locked := FRESH.(registryLock := Some(0));
    FreshReachable(1);
    assert [AddWait] + seq(1, i => Idle) == [AddWait, Idle];
    StepFirst(AddWait, FRESH, Next(AddInsert, locked));
    StepFirst(AddInsert, locked, Next(AddUnlock, locked.(registered := true)));
    StepFirst(AddUnlock, locked.(registered := true), Next(Opening, FRESH.(registered := true)));
    StepFirst(Opening, FRESH.(registered := true), Next(OpenReturn, CALLED));
  }

  lemma FoundReachable()
    ensures Reachable(Sys([OpenReturn, Stopping(TestFlag, ToLetGo(true))], FOUND))
  {
    var locked := CALLED.(registryLock := Some(1));
    var pcs: seq<PC> := [OpenReturn, Idle];
    CalledReachable();
    LookupReachable(pcs, CALLED, 1, Close);
    assert locked.owners + {ByThread(1)} == FOUND.owners;
    StepForward(pcs[1 := Lookup(Close)], locked, 1, Next(Stopping(TestFlag, ToLetGo(true)), FOUND));
    assert pcs[1 := Lookup(Close)][1 := Stopping(TestFlag, ToLetGo(true))]
        == [OpenReturn, Stopping(TestFlag, ToLetGo(true))];
  }

  const FLAGGED_INSIDE: Shared := FOUND.(closed := true, past := FOUND.past.(closer := 1))

  lemma FlaggedInside()
    ensures Reachable(Sys([OpenReturn, Stopping(Callback, ToLetGo(true))], FLAGGED_INSIDE))
  {
    FoundReachable();
    StepStop([OpenReturn, Stopping(TestFlag, ToLetGo(true))], FOUND, 1,
             Next(Stopping(Callback, ToLetGo(true)), FLAGGED_INSIDE));
  }

  /** `ws_onopen` need not have returned when `ws_onclose` runs: whoever it told the id may close at once. */
  lemma ClosedInsideOnOpen() returns (s: Sys)
    ensures Reachable(s) && !s.d.past.guessed
    ensures s.d.past.closes == 1 && s.d.past.creator < |s.pcs| && s.pcs[s.d.past.creator].OpenReturn?
  {
    var closed := FLAGGED_INSIDE.(past := FLAGGED_INSIDE.past.(closes := 1));
    FlaggedInside();
    StepStop([OpenReturn, Stopping(Callback, ToLetGo(true))], FLAGGED_INSIDE, 1,
             Next(Stopping(Cancel, ToLetGo(true)), closed));
    s := Sys([OpenReturn, Stopping(Cancel, ToLetGo(true))], closed);
  }
}
