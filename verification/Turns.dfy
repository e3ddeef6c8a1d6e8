/** What the steps of the offload protocol do to who runs, stated without the
    functions that compute them: when a call goes to a worker, what a yield does,
    when a fiber polls and when the interpreter thread blocks. */
module Turns {
  import opened Basics
  import opened Fibers
  import opened Offload
  import Drain

  // ------------------------------------------------- when a call goes to a worker

  /** Some fiber besides the running one is in the list. */
  ghost predicate Company(s: State) {
    exists id :: id in s.sched.order && id != s.sched.fg
  }

  lemma ThreadedIff(s: Sched)
    requires Wf(s)
    ensures Threaded(s) <==> exists id :: id in s.order && id != s.fg
    ensures s.order == [s.fg] <==> !exists id :: id in s.order && id != s.fg
  {
    var k :| 0 <= k < |s.order| && s.order[k] == s.fg;
    if |s.order| >= 2 {
      var i := if k == 0 then 1 else 0;
      assert s.order[i] in s.order && s.order[i] != s.fg;
    }
  }

  /** A call goes to the pool, with BLOCKED set, exactly when the list holds
      another fiber; alone, the interpreter thread runs the function itself. */
  lemma EntersPool(s0: State, ls: seq<Label>, s: State, c: nat, t: State)
    requires Reached(s0, ls, s) && s.boot.Ready? && Typed(s)
    requires s.sched.fg in s.pc && s.pc[s.sched.fg] == In(c, Entered) && Step(s, Main) == Some(t)
    ensures var f := s.sched.fg;
      && t.sched.fg == f && t.sched.order == s.sched.order && t.ws == s.ws && t.owner == s.owner
      && f in t.pc && f in s.sched.flags && c < |s.calls|
      && (Company(s) <==> t.pc[f] == In(c, Picking(0)))
      && (s.sched.order == [f] <==> t.pc[f] == In(c, Inline))
      && t.sched.flags == s.sched.flags[f := s.sched.flags[f].(blocked := Company(s))]
      && t.calls == if Company(s) then s.calls else s.calls[c := s.calls[c].(begun := s.calls[c].begun + 1)]
  {
    hide CanRun, After, Distinct, Steady;
    ReachedInv(s0, ls, s);
    SteadyInv(s);
    Drain.SteadyFacts(s);
    ThreadedIff(s.sched);
    NotBlocked(s, c);
    var f := s.sched.fg;
    assert s.sched.flags[f := s.sched.flags[f]] == s.sched.flags;
    hide Inv, Threaded, Wf, Typed;
  }

  lemma NotBlocked(s: State, c: nat)
    requires Steady(s) && s.sched.fg in s.pc && s.pc[s.sched.fg] == In(c, Entered)
    ensures s.sched.fg in s.sched.flags && !s.sched.flags[s.sched.fg].blocked && c < |s.calls|
  {
    hide Distinct, Plays, Tally;
    assert FiberOk(s, s.sched.fg);
  }

  /** A position from which the interpreter thread may come to run the function
      of call c itself. */
  predicate Direct(p: Pc, c: nat) {
    p.In? && p.c == c && (p.at.Entered? || p.at.Inline?)
  }

  /** Call c is with the pool, or about to go there. */
  ghost predicate Pooled(s: State, c: nat) {
    && c < |s.calls|
    && forall id :: id in s.pc && Direct(s.pc[id], c) ==>
         id == s.sched.fg && s.pc[id].at.Entered? && Company(s)
  }

  lemma WakesElsewhere(p: Pc, c: nat)
    ensures !Direct(WakesAt(p), c) && !Direct(Resume(p, false), c)
  {
  }

  /** Where the fibers are after a yield. */
  lemma YieldPlaces(s: State, q: Pc, id: Id)
    requires Typed(s)
    ensures id in YieldTo(s, q).pc ==>
      var p := YieldTo(s, q).pc[id];
      id in s.pc && (p == WakesAt(s.pc[id]) || p == Resume(q, false) || p == if id == s.sched.fg then q else s.pc[id])
  {
    hide Distinct, Target, WakesAt, Resume, Fibers.Live;
    Here(s);
    TargetIff(s.sched);
    hide Wf;
  }

  lemma YieldPooled(s: State, q: Pc, c: nat)
    requires Steady(s) && Pooled(s, c) && Parked(q) && s.sched.fg in s.pc && !Direct(s.pc[s.sched.fg], c)
    ensures Pooled(YieldTo(s, q), c) && YieldTo(s, q).calls == s.calls
  {
    hide YieldTo, Steady, Distinct, Typed;
    SteadyInv(s);
    YieldCalls(s);
    var t := YieldTo(s, q);
    forall id | id in t.pc
      ensures !Direct(t.pc[id], c)
    {
      YieldPlaces(s, q, id);
      WakesElsewhere(q, c);
      WakesElsewhere(s.pc[id], c);
      assert !Direct(q, c);
    }
  }

  /** The running fiber moved, not to the start of call c, and nobody else did. */
  lemma MovePooled(s: State, t: State, c: nat)
    requires Typed(s) && Pooled(s, c) && c < |t.calls| && s.sched.fg in t.pc && !Direct(t.pc[s.sched.fg], c)
    requires forall id :: id in t.pc && id != s.sched.fg ==> id in s.pc && t.pc[id] == s.pc[id]
    ensures Pooled(t, c)
  {
    hide Typed, Company;
  }

  lemma OwnerPooled(s: State, t: State, k: nat, w: nat, stage: Stage, b: bool, c: nat)
    requires Steady(s) && Pooled(s, c) && w < |s.ws|
    requires s.sched.fg in s.pc && s.pc[s.sched.fg] == In(k, Owns(w, stage, b))
    requires OwnerStep(s, k, w, stage, b) == Some(t)
    ensures Pooled(t, c) && t.calls == s.calls
  {
    hide Distinct, YieldTo, Threaded, OtherFree, OtherBlocked, Steady, Pooled, Typed;
    SteadyInv(s);
    PooledCall(s, c);
    YieldPooled(s, In(k, Owns(w, ParkedPoll, OtherBlocked(s.sched))), c);
    if !(stage.Poll? && Threaded(s.sched) && OtherFree(s.sched)) {
      MovePooled(s, t, c);
    }
  }

  lemma PooledCall(s: State, c: nat)
    requires Pooled(s, c)
    ensures c < |s.calls|
  {
  }

  lemma PlacePooled(s: State, t: State, k: nat, at: Place, c: nat)
    requires Steady(s) && Pooled(s, c) && s.sched.fg in s.pc && s.pc[s.sched.fg] == In(k, at) && k < |s.calls|
    requires (at.Claimed? ==> at.w < |s.ws|) && PlaceStep(s, k, at) == Some(t)
    ensures Pooled(t, c) && |t.calls| == |s.calls| && t.calls[c].begun == s.calls[c].begun
  {
    hide Distinct, YieldTo, Threaded, Steady, Pooled, Typed;
    SteadyInv(s);
    PooledCall(s, c);
    if MayYield(at) {
      YieldPooled(s, In(k, if at.Linger? then ParkedLinger else ParkedPick), c);
      if at.Picking? && at.i < |s.ws| {
        MovePooled(s, t, c);
      }
    } else {
      PooledThreaded(s, k, at, c);
      MovePooled(s, t, c);
    }
  }

  lemma PooledThreaded(s: State, k: nat, at: Place, c: nat)
    requires Steady(s) && Pooled(s, c) && s.sched.fg in s.pc && s.pc[s.sched.fg] == In(k, at)
    ensures Direct(s.pc[s.sched.fg], c) ==> at.Entered? && Threaded(s.sched)
    ensures k == c ==> !at.Inline?
  {
    hide Distinct;
    Drain.SteadyFacts(s);
    ThreadedIff(s.sched);
    hide Steady, Typed, Wf, Threaded;
  }

  lemma ScriptPooled(s: State, a: Action, t: State, c: nat)
    requires Steady(s) && Pooled(s, c) && ScriptStep(s, a) == Some(t)
    ensures Pooled(t, c) && |t.calls| >= |s.calls| && t.calls[c] == s.calls[c]
  {
    hide Distinct, YieldTo, Steady, Company;
    SteadyInv(s);
    Here(s);
    hide Typed;
    match a
    case CallYield => YieldPooled(s, ParkedScript, c);
    case CallSpawn(id) =>
    case EndFiber =>
    case CallOffload =>
  }

  lemma StepPooled(s: State, l: Label, t: State, c: nat)
    requires Steady(s) && Typed(s) && Pooled(s, c) && Step(s, l) == Some(t)
    ensures Pooled(t, c)
    ensures t.calls[c].begun > s.calls[c].begun ==> l.Work?
  {
    hide Distinct, YieldTo, Steady, OwnerStep, PlaceStep, ScriptStep, Pooled;
    SteadyInv(s);
    PooledCall(s, c);
    Here(s);
    match l
    case Main =>
      var p := s.pc[s.sched.fg];
      hide Typed;
      if p.Exiting? {
        YieldPooled(s, ParkedEnd, c);
      } else if p.at.Owns? {
        OwnerPooled(s, t, p.c, p.at.w, p.at.stage, p.at.pending, c);
      } else {
        PlacePooled(s, t, p.c, p.at, c);
      }
    case Code(a) => ScriptPooled(s, a, t, c);
    case Work(w) => WorkPooled(s, w, t, c);
  }

  lemma WorkPooled(s: State, w: nat, t: State, c: nat)
    requires Pooled(s, c) && WorkStep(s, w) == Some(t)
    ensures Pooled(t, c)
  {
    WorkFrame(s, w);
    WorkCalls(s, w, t);
    hide WorkStep;
  }

  lemma WorkCalls(s: State, w: nat, t: State)
    requires WorkStep(s, w) == Some(t)
    ensures |t.calls| == |s.calls|
  {
  }

  lemma {:induction false} PoolRunsFrom(s: State, ls: seq<Label>, c: nat)
    requires Inv(s) && Typed(s) && s.boot.Ready? && Pooled(s, c) && CanRun(s, ls)
    ensures Pooled(After(s, ls), c) && Inv(After(s, ls)) && Typed(After(s, ls)) && After(s, ls).boot.Ready?
    decreases |ls|
  {
    hide Inv, Typed, Step, Pooled;
    if ls != [] {
      var t := Step(s, ls[0]).value;
      SteadyInv(s);
      StepKeeps(s, ls[0]);
      StaysReady(s, ls[0], t);
      StepPooled(s, ls[0], t, c);
      PoolRunsFrom(t, ls[1..], c);
    }
  }

  /** A call that is entered while another fiber is in the list has its function
      begun by a worker only: over every run from there, no step of the
      interpreter thread begins it. */
  lemma PoolRuns(s0: State, before: seq<Label>, s: State, c: nat, ls: seq<Label>, l: Label, t: State)
    requires Reached(s0, before, s) && s.boot.Ready? && Company(s)
    requires s.sched.fg in s.pc && s.pc[s.sched.fg] == In(c, Entered)
    requires CanRun(s, ls) && Typed(After(s, ls)) && Step(After(s, ls), l) == Some(t)
    ensures c < |After(s, ls).calls| && c < |t.calls|
    ensures t.calls[c].begun > After(s, ls).calls[c].begun ==> l.Work?
  {
    hide CanRun, After, Distinct, Typed, Step, Steady, Pooled;
    ReachedInv(s0, before, s);
    SteadyInv(s);
    NotBlocked(s, c);
    OneEnters(s, c);
    PoolRunsFrom(s, ls, c);
    var u := After(s, ls);
    SteadyInv(u);
    StepPooled(u, l, t, c);
    PooledCall(u, c);
    PooledCall(t, c);
  }

  lemma OneEnters(s: State, c: nat)
    requires Steady(s) && c < |s.calls| && s.sched.fg in s.pc && s.pc[s.sched.fg] == In(c, Entered) && Company(s)
    ensures Pooled(s, c)
  {
    hide Distinct, Wf, FiberOk, SlotOk, Company;
    assert forall id :: id in s.pc && id != s.sched.fg ==> Job(s.pc[id]) != Job(s.pc[s.sched.fg]);
  }

  // ------------------------------------------------------------ what a yield does

  /** Where a fiber goes on when it is swapped in: a new one with its script, one
      in the pick loop with the first worker, one in the poll loop with the test
      of its worker's state. */
  function Onward(p: Pc): Pc {
    if !p.In? then Script
    else
      match p.at
      case ParkedPick => In(p.c, Picking(0))
      case Owns(w, _, b) => In(p.c, Owns(w, CheckDone, b))
      case _ => In(p.c, Returning(true))
  }

  /** Where a fiber goes on when its yield found nobody. */
  function Alone(p: Pc): Pc {
    if !p.In? then Script
    else
      match p.at
      case Owns(w, _, b) => In(p.c, Owns(w, Unblock, b))
      case _ => In(p.c, Returning(true))
  }

  ghost predicate Others(s: State) {
    exists id :: id != s.sched.fg && Suspended(s.sched, id)
  }

  /** A yield that leaves the running fiber at q.  With another fiber suspended,
      the one whose turn it is goes on; unless it never ran it first frees the
      DONE fibers.  With none, the running fiber frees them and goes on itself. */
  ghost predicate Yields(s: State, t: State, q: Pc) {
    && t.ws == s.ws && t.owner == s.owner && t.calls == s.calls && t.boot == s.boot && t.torn == s.torn
    && (forall id :: id in t.pc <==> id in t.sched.flags)
    && if Others(s) then Switches(s, t, q) else Continues(s, t, q)
  }

  ghost predicate Switches(s: State, t: State, q: Pc) {
    var x := t.sched.fg;
    && Turn(s.sched, x) && x in s.pc && x in t.pc && t.pc[x] == Onward(s.pc[x])
    && (exists u :: TakesOver(s.sched, u, x) && if s.pc[x].Fresh? then t.sched == u else Freed(u, t.sched))
    && forall id :: id in t.pc && id != x ==> id in s.pc && t.pc[id] == if id == s.sched.fg then q else s.pc[id]
  }

  ghost predicate Continues(s: State, t: State, q: Pc) {
    var f := s.sched.fg;
    && Freed(s.sched, t.sched) && f in t.pc && t.pc[f] == Alone(q)
    && forall id :: id in t.pc && id != f ==> id in s.pc && t.pc[id] == s.pc[id]
  }

  lemma AwakeIs(p: Pc, q: Pc)
    ensures p.Fresh? || (Parked(p) && !p.ParkedEnd?) ==> WakesAt(p) == Onward(p)
    ensures Parked(q) && !q.ParkedEnd? && !(q.In? && q.at.ParkedPick?) ==> Resume(q, false) == Alone(q)
  {
  }

  lemma YieldTarget(s: State, q: Pc, x: Id)
    requires Typed(s) && Target(s.sched) == Some(x) && x in s.pc && x in s.sched.flags && s.sched.fg in s.sched.flags
    ensures var u := SwapState(s, q, x, WakesAt(s.pc[x]));
      YieldTo(s, q) == if s.pc[x].Fresh? then u else ReapState(u)
  {
    hide Distinct, Target, Wf, WakesAt, ReapState;
  }

  lemma SwitchedTo(s: State, q: Pc, x: Id, t: State)
    requires x in s.pc && x in s.sched.flags && s.sched.fg in s.sched.flags && x != s.sched.fg && s.sched.fg in s.pc
    requires forall id :: id in s.pc <==> id in s.sched.flags
    requires Turn(s.sched, x) && Suspended(s.sched, x) && !s.sched.flags[x].done
    requires TakesOver(s.sched, Swap(s.sched, x), x) && Freed(Swap(s.sched, x), Reap(Swap(s.sched, x)))
    requires var u := SwapState(s, q, x, Onward(s.pc[x])); t == if s.pc[x].Fresh? then u else ReapState(u)
    ensures Others(s) && Yields(s, t, q)
  {
    hide Onward, Turn, Freed, Swap, Reap;
    var u := Swap(s.sched, x);
    KeptLive(s.sched, u, x);
    hide TakesOver;
  }

  lemma KeptLive(s: Sched, u: Sched, x: Id)
    requires TakesOver(s, u, x) && x in s.flags && !s.flags[x].done && Freed(u, Reap(u))
    ensures x in Reap(u).flags && Reap(u).fg == x && u.fg == x
    ensures forall id :: id in u.flags <==> id in s.flags
    ensures forall id :: id in Reap(u).flags ==> id in u.flags
  {
    hide Before;
  }

  lemma YieldSwaps(s: State, q: Pc, x: Id)
    requires Steady(s) && Parks(s, q) && Target(s.sched) == Some(x) && x in s.pc && x in s.sched.flags
    ensures Others(s) && Yields(s, YieldTo(s, q), q)
  {
    hide Distinct, Target, Onward, WakesAt, Turn, Freed, TakesOver, Fibers.Live, FiberOk, SlotOk, Parks;
    hide YieldTo, Yields, Others;
    Drain.SteadyFacts(s);
    TargetFacts(s.sched, x);
    SwapTakesOver(s.sched, x);
    assert FiberOk(s, x);
    PendingWakes(s, x);
    AwakeIs(s.pc[x], q);
    SwapWf(s.sched, x);
    ReapFrees(Swap(s.sched, x));
    YieldTarget(s, q, x);
    hide Steady, Typed, Wf, Swap, Reap, Safe;
    SwitchedTo(s, q, x, YieldTo(s, q));
  }

  lemma TargetFacts(s: Sched, x: Id)
    requires Safe(s) && Target(s) == Some(x) && x in s.flags
    ensures Wf(s) && x != s.fg && Pending(s.flags, x) && Suspended(s, x) && Turn(s, x) && !s.flags[x].done
  {
    TargetIff(s);
    TargetIsTurn(s, x);
    hide Target, Turn, Distinct;
  }

  lemma SwapWf(s: Sched, x: Id)
    requires Safe(s) && Target(s) == Some(x) && x in s.flags
    ensures Wf(Swap(s, x)) && Swap(s, x).fg == x && !Swap(s, x).flags[x].done
  {
    SwapSafe(s, x);
    hide Target, Distinct;
  }

  lemma YieldContinues(s: State, q: Pc)
    requires Steady(s) && Parks(s, q) && Target(s.sched) == None
    requires !q.ParkedEnd? && !(q.In? && q.at.ParkedPick?)
    ensures !Others(s) && Yields(s, YieldTo(s, q), q)
  {
    hide Distinct, Target, Resume, Freed, Fibers.Live, FiberOk, SlotOk;
    Drain.SteadyFacts(s);
    TargetIsTurn(s.sched, s.sched.fg);
    ReapFrees(s.sched);
    AwakeIs(q, q);
    assert FiberOk(s, s.sched.fg);
    AloneFiber(s, q);
    hide Steady, Parks, Turn, Alone;
  }

  /** The steps at which the source yields, */
  ghost predicate AtYield(s: State, l: Label) {
    s.sched.fg in s.pc &&
    var p := s.pc[s.sched.fg];
    match l
    case Code(a) => a.CallYield? && p.Script?
    case Main =>
      || p.Exiting?
      || (p.In? && p.at.Linger?)
      || (p.In? && p.at.Picking? && p.at.i >= |s.ws|)
      || (p.In? && p.at.Owns? && p.at.stage.Poll? && FreeOther(s))
    case Work(_) => false
  }

  /** and where the running fiber stays meanwhile. */
  ghost function StaysAt(s: State, p: Pc): Pc {
    match p
    case In(c, Linger) => In(c, ParkedLinger)
    case In(c, Picking(_)) => In(c, ParkedPick)
    case In(c, Owns(w, _, _)) => In(c, Owns(w, ParkedPoll, BlockedOther(s)))
    case Exiting => ParkedEnd
    case _ => ParkedScript
  }

  ghost predicate FreeOther(s: State) {
    exists id :: id in s.sched.order && id != s.sched.fg && id in s.sched.flags && !s.sched.flags[id].blocked
  }

  ghost predicate BlockedOther(s: State) {
    exists id :: id in s.sched.order && id != s.sched.fg && id in s.sched.flags && s.sched.flags[id].blocked
  }

  lemma YieldIsSwitch(s: State, q: Pc)
    requires Steady(s) && Parks(s, q) && (q.ParkedEnd? ==> s.sched.fg != MAIN)
    requires q.In? && q.at.ParkedPick? ==>
      |s.ws| >= 1 && s.owner[0].Some? && s.owner[0].value != s.sched.fg
    ensures Yields(s, YieldTo(s, q), q)
  {
    hide Distinct, Target, FiberOk, SlotOk, Yields, YieldTo, Parks;
    Drain.SteadyFacts(s);
    TargetIff(s.sched);
    if Target(s.sched).Some? {
      YieldSwaps(s, q, Target(s.sched).value);
    } else {
      assert q.ParkedEnd? ==> Pending(s.sched.flags, MAIN) by {
        MainPends(s.sched);
      }
      if q.In? && q.at.ParkedPick? {
        OwnerPending(s, 0);
      }
      YieldContinues(s, q);
    }
  }

  lemma MainPends(s: Sched)
    requires Safe(s)
    ensures s.fg != MAIN ==> Pending(s.flags, MAIN)
  {
  }

  /** Every yield of every run: who goes on, where, and who is freed. */
  lemma YieldSwitches(s0: State, ls: seq<Label>, s: State, l: Label, t: State)
    requires Reached(s0, ls, s) && s.boot.Ready? && Typed(s) && AtYield(s, l) && Step(s, l) == Some(t)
    ensures Yields(s, t, StaysAt(s, s.pc[s.sched.fg]))
  {
    hide CanRun, After, Distinct, Yields, FiberOk, SlotOk, YieldTo, Parks;
    ReachedInv(s0, ls, s);
    SteadyInv(s);
    Drain.SteadyFacts(s);
    var p := s.pc[s.sched.fg];
    var q := StaysAt(s, p);
    YieldParks(s, l);
    assert t == YieldTo(s, q) by {
      YieldIsStep(s, l);
    }
    hide Step, AtYield, StaysAt;
    YieldIsSwitch(s, q);
  }

  lemma YieldIsStep(s: State, l: Label)
    requires Steady(s) && Typed(s) && Wf(s.sched) && AtYield(s, l)
    requires s.sched.fg in s.pc && (s.pc[s.sched.fg].In? ==> s.pc[s.sched.fg].c < |s.calls|)
    ensures Step(s, l) == Some(YieldTo(s, StaysAt(s, s.pc[s.sched.fg])))
  {
    hide Distinct, YieldTo, FiberOk, SlotOk, Company;
    ThreadedIff(s.sched);
    if FreeOther(s) {
      var id :| id in s.sched.order && id != s.sched.fg && id in s.sched.flags && !s.sched.flags[id].blocked;
    }
    hide Wf, Threaded;
    assert FreeOther(s) == OtherFree(s.sched) && BlockedOther(s) == OtherBlocked(s.sched);
    hide OtherFree, OtherBlocked, FreeOther, BlockedOther;
  }

  lemma YieldParks(s: State, l: Label)
    requires Steady(s) && Typed(s) && Anchored(s) && AtYield(s, l)
    ensures var q := StaysAt(s, s.pc[s.sched.fg]);
      && Parks(s, q) && (q.ParkedEnd? ==> s.sched.fg != MAIN)
      && (q.In? && q.at.ParkedPick? ==> |s.ws| >= 1 && s.owner[0].Some? && s.owner[0].value != s.sched.fg)
    ensures s.pc[s.sched.fg].In? ==> s.pc[s.sched.fg].c < |s.calls|
  {
    hide Distinct, Wf, FreeOther, BlockedOther, Parks, Tally, Plays;
    var p := s.pc[s.sched.fg];
    assert FiberOk(s, s.sched.fg);
    if p.Script? {
      ScriptParks(s);
    } else {
      ParksAt(s, StaysAt(s, p));
      if p.In? && p.at.Picking? {
        AllTaken(s);
      }
    }
  }

  // ------------------------------------------------------------ polling or waiting

  /** The poll loop goes on exactly while some other fiber is not BLOCKED: then
      the fiber yields.  Otherwise it leaves the loop, and it will yield once
      more at the end if any other fiber is there or if it had seen one wait. */
  lemma PollDecides(s0: State, ls: seq<Label>, s: State, c: nat, w: nat, b: bool, t: State)
    requires Reached(s0, ls, s) && s.boot.Ready? && Typed(s) && Step(s, Main) == Some(t)
    requires s.sched.fg in s.pc && s.pc[s.sched.fg] == In(c, Owns(w, Poll, b))
    ensures FreeOther(s) ==> Yields(s, t, In(c, Owns(w, ParkedPoll, BlockedOther(s))))
    ensures !FreeOther(s) ==> t == s.(pc := s.pc[s.sched.fg := In(c, Owns(w, Unblock, b || Company(s)))])
  {
    hide CanRun, After, Distinct, Yields, FiberOk, SlotOk, YieldTo;
    if FreeOther(s) {
      assert AtYield(s, Main);
      YieldSwitches(s0, ls, s, Main, t);
    } else {
      ReachedInv(s0, ls, s);
      SteadyInv(s);
      Drain.SteadyFacts(s);
      NobodyFree(s);
    }
  }

  lemma NobodyFree(s: State)
    requires Wf(s.sched) && !FreeOther(s)
    ensures !OtherFree(s.sched) && (Threaded(s.sched) <==> Company(s))
    ensures Company(s) ==> OtherBlocked(s.sched)
  {
    hide Distinct;
    ThreadedIff(s.sched);
    hide Threaded;
  }

  /** About to wait for worker w, or waiting. */
  predicate AtFinish(p: Pc) {
    p.In? && p.at.Owns? && (p.at.stage.Unblock? || p.at.stage.Await?)
  }

  /** The interpreter thread gives up polling only when it has to or may: the
      worker is DONE, or every other suspended fiber is in a call itself. */
  ghost predicate Forced(s: State) {
    s.sched.fg in s.pc && AtFinish(s.pc[s.sched.fg]) ==>
      var w := s.pc[s.sched.fg].at.w;
      && w < |s.ws|
      && (s.ws[w].st == DONE ||
          forall id :: id != s.sched.fg && Suspended(s.sched, id) ==> s.sched.flags[id].blocked)
  }

  lemma WakesPolling(p: Pc)
    ensures !AtFinish(WakesAt(p))
    ensures Parked(p) ==> !AtFinish(p)
  {
  }

  lemma YieldForced(s: State, q: Pc)
    requires Steady(s) && Parks(s, q) && (q.ParkedEnd? ==> s.sched.fg != MAIN)
    requires q.In? && q.at.ParkedPick? ==>
      |s.ws| >= 1 && s.owner[0].Some? && s.owner[0].value != s.sched.fg
    requires q.In? && q.at.Owns? ==> q.at.w < |s.ws|
    ensures Forced(YieldTo(s, q))
  {
    hide Steady, YieldTo, Parks, Typed, Turn, TakesOver;
    SteadyInv(s);
    YieldIsSwitch(s, q);
    var t := YieldTo(s, q);
    if Others(s) {
      OnwardPolling(s.pc[t.sched.fg]);
    } else {
      FreedSuspended(s.sched, t.sched);
      AlonePolling(q);
    }
    hide Freed, Onward, Alone;
  }

  lemma OnwardPolling(p: Pc)
    ensures !AtFinish(Onward(p))
  {
  }

  lemma AlonePolling(q: Pc)
    ensures AtFinish(Alone(q)) ==> q.In? && q.at.Owns? && Alone(q).at.w == q.at.w
  {
  }

  lemma FreedSuspended(s: Sched, u: Sched)
    requires Freed(s, u) && forall id :: id != s.fg ==> !Suspended(s, id)
    ensures forall id :: id != u.fg ==> !Suspended(u, id)
  {
    hide Before;
    assert forall id :: Suspended(u, id) ==> Suspended(s, id);
  }

  lemma OwnerForced(s: State, c: nat, w: nat, stage: Stage, b: bool, t: State)
    requires Steady(s) && Forced(s) && w < |s.ws| && s.sched.fg in s.pc && s.pc[s.sched.fg] == In(c, Owns(w, stage, b))
    requires Wf(s.sched) && OwnerStep(s, c, w, stage, b) == Some(t)
    ensures Forced(t)
  {
    hide Distinct, YieldTo, Steady, FiberOk, SlotOk, Parks;
    SteadyInv(s);
    if stage.Poll? && FreeOther(s) {
      var q := In(c, Owns(w, ParkedPoll, BlockedOther(s)));
      assert AtYield(s, Main);
      YieldParks(s, Main);
      YieldForced(s, q);
      YieldIsStep(s, Main);
    } else if stage.Poll? {
      NobodyFree(s);
    }
    hide Threaded, OtherFree, OtherBlocked;
  }

  lemma PlaceForced(s: State, c: nat, at: Place, t: State)
    requires Steady(s) && s.sched.fg in s.pc && s.pc[s.sched.fg] == In(c, at) && c < |s.calls| && Wf(s.sched)
    requires Anchored(s) && (at.Claimed? ==> at.w < |s.ws|) && PlaceStep(s, c, at) == Some(t)
    ensures Forced(t)
  {
    hide Distinct, YieldTo, Steady, FiberOk, SlotOk, Parks, Threaded;
    SteadyInv(s);
    if AtYield(s, Main) {
      YieldParks(s, Main);
      YieldForced(s, StaysAt(s, s.pc[s.sched.fg]));
    }
  }

  lemma ScriptForced(s: State, a: Action, t: State)
    requires Steady(s) && Anchored(s) && ScriptStep(s, a) == Some(t)
    ensures Forced(t)
  {
    hide Distinct, YieldTo, Steady, FiberOk, SlotOk, Parks, Forced;
    SteadyInv(s);
    match a
    case CallYield =>
      assert AtYield(s, Code(a));
      YieldParks(s, Code(a));
      YieldForced(s, ParkedScript);
    case CallSpawn(id) => NotAtFinish(t);
    case EndFiber => NotAtFinish(t);
    case CallOffload => NotAtFinish(t);
  }

  lemma NotAtFinish(s: State)
    requires s.sched.fg in s.pc && !AtFinish(s.pc[s.sched.fg])
    ensures Forced(s)
  {
  }

  lemma WorkForced(s: State, v: nat, t: State)
    requires Steady(s) && Forced(s) && WorkStep(s, v) == Some(t)
    ensures Forced(t)
  {
    hide Distinct, FiberOk, SlotOk;
    WorkFrame(s, v);
    WorkDone(s, v, t);
    hide Steady, WorkStep;
  }

  /** A worker in state DONE stays there. */
  lemma WorkDone(s: State, v: nat, t: State)
    requires Steady(s) && WorkStep(s, v) == Some(t)
    ensures forall i :: 0 <= i < |s.ws| && s.ws[i].st == DONE ==> t.ws[i].st == DONE
  {
    hide Distinct, FiberOk, SlotOk;
    if v < |s.ws| {
      WorkOnlyPosted(s, v);
    }
    hide Steady;
  }

  lemma StepForced(s: State, l: Label, t: State)
    requires Steady(s) && Typed(s) && Forced(s) && Step(s, l) == Some(t)
    ensures Forced(t)
  {
    hide Distinct, Steady, OwnerStep, PlaceStep, ScriptStep, WorkStep, YieldTo, Forced;
    SteadyInv(s);
    Drain.SteadyFacts(s);
    Here(s);
    match l
    case Main =>
      var p := s.pc[s.sched.fg];
      if p.Exiting? {
        assert AtYield(s, Main);
        YieldParks(s, Main);
        YieldForced(s, ParkedEnd);
      } else if p.at.Owns? {
        hide Typed, Wf;
        OwnerForced(s, p.c, p.at.w, p.at.stage, p.at.pending, t);
      } else {
        hide Typed, Wf;
        PlaceForced(s, p.c, p.at, t);
      }
    case Code(a) => hide Typed, Wf; ScriptForced(s, a, t);
    case Work(v) => hide Typed, Wf; WorkForced(s, v, t);
  }

  lemma {:induction false} RunForced(s: State, ls: seq<Label>)
    requires Inv(s) && Typed(s) && CanRun(s, ls) && Forced(s)
    ensures Forced(After(s, ls))
    decreases |ls|
  {
    hide Inv, Typed, Step, Forced;
    if ls != [] {
      var t := Step(s, ls[0]).value;
      StepKeeps(s, ls[0]);
      if s.boot.Ready? {
        SteadyInv(s);
        StepForced(s, ls[0], t);
      } else {
        BootForced(s, ls[0], t);
      }
      RunForced(t, ls[1..]);
    }
  }

  lemma BootForced(s: State, l: Label, t: State)
    requires Inv(s) && Typed(s) && !s.boot.Ready? && Step(s, l) == Some(t)
    ensures Forced(t)
  {
    hide Distinct, Wf, Safe;
    BootScript(s, l, t);
    hide Step;
  }

  lemma BootScript(s: State, l: Label, t: State)
    requires Inv(s) && Typed(s) && !s.boot.Ready? && Step(s, l) == Some(t)
    ensures t.pc == s.pc == map[MAIN := Script] && t.sched == s.sched
  {
    hide Distinct, Wf, Safe;
  }

  /** The interpreter thread blocks in b6b_offload_finish only when nobody is
      kept waiting for it: the worker is already in state DONE, so the signal is
      about to be sent, or every other suspended fiber is inside b6b_offload. */
  lemma WaitsOnlyForced(s0: State, ls: seq<Label>, s: State, c: nat, w: nat, b: bool, id: Id)
    requires Reached(s0, ls, s) && s.sched.fg in s.pc && s.pc[s.sched.fg] == In(c, Owns(w, Await, b))
    requires id != s.sched.fg && Suspended(s.sched, id) && w < |s.ws| && s.ws[w].st != DONE
    ensures id in s.pc && s.pc[id].In? && s.sched.flags[id].blocked
  {
    hide CanRun, After, Distinct, Typed;
    InitialInv(s0);
    assert Forced(s0);
    RunForced(s0, ls);
    ReachedInv(s0, ls, s);
    BlockedInside(s, id);
    hide Inv;
  }

  lemma BlockedInside(s: State, id: Id)
    requires Inv(s) && Typed(s) && id in s.sched.flags
    ensures id in s.pc && (s.sched.flags[id].blocked ==> s.pc[id].In?)
  {
    hide Distinct, Wf, Safe, Plays, Tally;
    if s.boot.Ready? {
      assert FiberOk(s, id);
    }
  }

  /** Once the signal is collected the worker is free again, and a fiber that saw
      company in the poll loop yields before its call returns. */
  lemma LetsOthersRun(s0: State, ls: seq<Label>, s: State, c: nat, w: nat, b: bool, t: State)
    requires Reached(s0, ls, s) && s.boot.Ready? && Typed(s) && Step(s, Main) == Some(t)
    requires s.sched.fg in s.pc && s.pc[s.sched.fg] == In(c, Owns(w, Release, b))
    ensures t.sched == s.sched && w < |t.ws| == |t.owner| && t.ws[w].st == IDLE && t.owner[w] == None
    ensures b <==> AtYield(t, Main)
    ensures s.sched.fg in t.pc && (!b ==> t.pc[s.sched.fg] == In(c, Returning(true)))
  {
    hide CanRun, After, Distinct, Steady, Inv;
    ReachedInv(s0, ls, s);
    hide Wf, FreeOther;
  }

  // ------------------------------------------------------------- the way of a call

  /** A script that makes a call enters it as a new one, with nothing begun; one
      that ends its fiber marks it DONE and yields; a fiber it starts is fresh and
      the next to run. */
  lemma ScriptActs(s0: State, ls: seq<Label>, s: State, a: Action, t: State)
    requires Reached(s0, ls, s) && Typed(s) && Step(s, Code(a)) == Some(t) && !a.CallYield?
    ensures t.ws == s.ws && t.owner == s.owner && t.sched.fg == s.sched.fg
    ensures s.sched.fg in s.pc && s.pc[s.sched.fg] == Script
    ensures match a
      case CallOffload =>
        && t.sched == s.sched && t.calls == s.calls + [Call(0, 0, None)]
        && t.pc == s.pc[s.sched.fg := In(|s.calls|, Entered)]
      case EndFiber =>
        && t.calls == s.calls && s.sched.fg in t.sched.flags && t.sched.flags[s.sched.fg].done
        && t.pc == s.pc[s.sched.fg := Exiting] && AtYield(t, Main)
      case CallSpawn(id) =>
        t.calls == s.calls && id !in s.pc && t.pc == s.pc[id := Fresh] && Turn(t.sched, id)
      case CallYield => true
  {
    hide CanRun, After, Distinct, Steady, Turn, FreeOther;
    ReachedInv(s0, ls, s);
    if a.CallSpawn? {
      hide Spawn;
      SpawnsNext(s, a.id);
    }
    hide Inv;
  }

  lemma SpawnsNext(s: State, id: Id)
    requires Inv(s) && Typed(s) && s.boot.Ready? && id !in s.sched.flags
    ensures Turn(Spawn(s.sched, id), id) && Spawn(s.sched, id).fg == s.sched.fg
  {
    hide Distinct, Turn, Spawn;
    SteadyInv(s);
    Drain.SteadyFacts(s);
    var k :| 0 <= k < |s.sched.order| && s.sched.order[k] == s.sched.fg;
    SpawnIs(s.sched, id, k);
    hide Steady, Inv, Typed, Wf, Safe;
    var u := Spawn(s.sched, id);
    assert u.order[k] == u.fg && Around(u.order, k, 1) == id;
    assert TurnAt(u, k, 1, id);
    TurnIs(u, k, 1, id);
  }

  lemma TurnIs(s: Sched, k: nat, j: nat, x: Id)
    requires TurnAt(s, k, j, x)
    ensures Turn(s, x)
  {
  }

  /** The places a call passes besides those where it may yield or pick: the
      function is set, then the argument, then the worker is woken, then polled;
      the test of its state ends the polling; the fiber is unblocked before the
      signal is collected, and a call that returns reports success. */
  lemma CallOrder(s0: State, ls: seq<Label>, s: State, c: nat, at: Place, t: State)
    requires Reached(s0, ls, s) && s.boot.Ready? && Typed(s) && Step(s, Main) == Some(t)
    requires s.sched.fg in s.pc && s.pc[s.sched.fg] == In(c, at)
    ensures c < |s.calls| && (at.Owns? ==> at.w < |s.ws|)
    ensures match at
      case Inline =>
        && t.pc == s.pc[s.sched.fg := In(c, Returning(true))]
        && t.calls == s.calls[c := s.calls[c].(ended := s.calls[c].ended + 1)]
      case Returning(r) =>
        r && t.pc == s.pc[s.sched.fg := Script] && t.calls == s.calls[c := s.calls[c].(result := Some(true))]
      case Owns(w, SetFn, b) =>
        t.pc == s.pc[s.sched.fg := In(c, Owns(w, SetArg, b))] && t.ws == s.ws[w := s.ws[w].(fn := c)]
      case Owns(w, SetArg, b) =>
        t.pc == s.pc[s.sched.fg := In(c, Owns(w, Wake, b))] && t.ws == s.ws[w := s.ws[w].(arg := c)]
      case Owns(w, Wake, b) =>
        && t.pc == s.pc[s.sched.fg := In(c, Owns(w, Poll, b))]
        && t.ws == s.ws[w := s.ws[w].(toWorker := s.ws[w].toWorker + 1)]
      case Owns(w, CheckDone, b) =>
        t.pc == s.pc[s.sched.fg := In(c, Owns(w, if s.ws[w].st == DONE then Unblock else Poll, b))] && t.ws == s.ws
      case Owns(w, Unblock, b) =>
        && t.pc == s.pc[s.sched.fg := In(c, Owns(w, Await, b))] && t.ws == s.ws
        && s.sched.fg in t.sched.flags && !t.sched.flags[s.sched.fg].blocked
      case Owns(w, Await, b) =>
        && s.ws[w].toMain > 0 && t.pc == s.pc[s.sched.fg := In(c, Owns(w, Release, b))]
        && t.ws == s.ws[w := s.ws[w].(toMain := s.ws[w].toMain - 1)]
      case _ => true
  {
    hide CanRun, After, Distinct, Steady, YieldTo, Threaded, OtherFree, OtherBlocked;
    ReachedInv(s0, ls, s);
    SteadyInv(s);
    ReturnsSuccess(s);
    hide Inv, Wf;
  }

  lemma ReturnsSuccess(s: State)
    requires Steady(s) && s.sched.fg in s.pc
    ensures s.pc[s.sched.fg].In? && s.pc[s.sched.fg].at.Returning? ==> s.pc[s.sched.fg].at.r
  {
    hide Distinct, Plays, Tally;
    assert FiberOk(s, s.sched.fg);
  }
}
