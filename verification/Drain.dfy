/** No reachable state of the offload protocol is doomed: if nobody starts
    anything new, every call in flight can return, every fiber can end, and the
    yields of the main fiber then run out. */
module Drain {
  import opened Basics
  import opened Fibers
  import opened Offload

  /** How far a position is from the end of its fiber.  A yield in the pick loop
      and a script's own yields come back to where they were. */
  function Rank(p: Pc): nat {
    match p
    case Fresh => 3
    case Script => 3
    case ParkedScript => 3
    case Exiting => 1
    case ParkedEnd => 0
    case Lost => 0
    case In(_, at) =>
      match at
      case Entered => 20
      case Picking(_) => 17
      case ParkedPick => 17
      case Claimed(_) => 16
      case Owns(_, stage, _) => StageRank(stage)
      case Linger => 6
      case ParkedLinger => 5
      case Inline => 5
      case Returning(_) => 4
      case Fail => 0
  }

  function StageRank(stage: Stage): nat {
    match stage
    case SetFn => 15
    case SetArg => 14
    case Wake => 13
    case Poll => 12
    case ParkedPoll => 11
    case CheckDone => 10
    case Unblock => 9
    case Await => 8
    case Release => 7
  }

  function RankAt(pc: map<Id, Pc>, id: Id): nat {
    if id in pc then Rank(pc[id]) else 0
  }

  function Sum(ids: seq<Id>, pc: map<Id, Pc>): nat {
    if ids == [] then 0 else RankAt(pc, ids[0]) + Sum(ids[1..], pc)
  }

  function Left(s: State): nat {
    Sum(s.sched.order, s.pc)
  }

  lemma {:induction false} SumFrame(ids: seq<Id>, a: map<Id, Pc>, b: map<Id, Pc>)
    requires forall id :: id in ids ==> RankAt(a, id) == RankAt(b, id)
    ensures Sum(ids, a) == Sum(ids, b)
  {
    hide RankAt;
    if ids != [] {
      SumFrame(ids[1..], a, b);
    }
  }

  lemma DistinctTail<T>(ids: seq<T>, x: T)
    requires Distinct(ids) && ids != []
    ensures Distinct(ids[1..]) && ids[0] !in ids[1..]
  {
  }

  lemma {:induction false} SumOne(ids: seq<Id>, a: map<Id, Pc>, x: Id, p: Pc)
    requires Distinct(ids) && x in ids && x in a
    ensures Sum(ids, a[x := p]) + Rank(a[x]) == Sum(ids, a) + Rank(p)
  {
    DistinctTail(ids, x);
    hide Rank, Distinct;
    if ids[0] == x {
      SumFrame(ids[1..], a, a[x := p]);
    } else {
      SumOne(ids[1..], a, x, p);
    }
  }

  /** Dropping fibers of rank zero. */
  lemma {:induction false} SumLive(ids: seq<Id>, f: map<Id, Flags>, a: map<Id, Pc>)
    requires forall id :: id in ids && !(id in f && !f[id].done) ==> RankAt(a, id) == 0
    ensures Sum(Live(f, ids), a) == Sum(ids, a)
  {
    hide RankAt;
    if ids != [] {
      assert forall id :: id in ids[1..] ==> id in ids;
      SumLive(ids[1..], f, a);
    }
  }

  lemma ReapLeft(s: State)
    requires forall id :: id in s.sched.order && !(id in s.sched.flags && !s.sched.flags[id].done) ==>
      RankAt(s.pc, id) == 0
    ensures Left(ReapState(s)) == Left(s)
  {
    hide RankAt;
    var t := ReapState(s);
    SumLive(s.sched.order, s.sched.flags, s.pc);
    LiveMembers(s.sched.flags, s.sched.order);
    forall id | id in t.sched.order
      ensures RankAt(t.pc, id) == RankAt(s.pc, id)
    {
      ReapRank(s, id);
    }
    SumFrame(t.sched.order, t.pc, s.pc);
    hide Sum, Live;
  }

  lemma ReapRank(s: State, id: Id)
    requires id in s.sched.flags && !s.sched.flags[id].done
    ensures RankAt(ReapState(s).pc, id) == RankAt(s.pc, id)
  {
  }

  // ------------------------------------------------------------------ one step

  /** A DONE fiber is at its end, or about to yield for the last time. */
  lemma DoneRank(s: State, id: Id)
    requires Steady(s) && id in s.pc && id != s.sched.fg && id in s.sched.flags && s.sched.flags[id].done
    ensures Rank(s.pc[id]) == 0
  {
    hide Distinct, Wf, Safe, Plays, Tally, BlockedAt;
    assert FiberOk(s, id);
  }

  lemma SteadyFacts(s: State)
    requires Steady(s)
    ensures Typed(s) && Safe(s.sched) && Wf(s.sched) && Distinct(s.sched.order) && s.boot.Ready?
    ensures s.sched.fg in s.sched.order && s.sched.fg in s.pc && s.sched.fg in s.sched.flags
    ensures forall id :: id in s.sched.order <==> id in s.pc
    ensures forall id :: id in s.sched.flags <==> id in s.pc
  {
    hide Distinct, FiberOk, SlotOk, CallOk, JobsApart;
  }

  lemma OwnLeft(s: State, t: State, q: Pc)
    requires Steady(s) && t.sched.order == s.sched.order && s.sched.fg in s.pc && t.pc == s.pc[s.sched.fg := q]
    ensures Left(t) + Rank(s.pc[s.sched.fg]) == Left(s) + Rank(q)
  {
    hide Steady, Distinct, Rank, Sum;
    SteadyFacts(s);
    SumOne(s.sched.order, s.pc, s.sched.fg, q);
  }

  lemma SwapLeft(s: State, q: Pc, x: Id, r: Pc)
    requires Steady(s) && x in s.pc && x != s.sched.fg && s.sched.fg in s.sched.flags && x in s.sched.flags
    requires s.sched.fg in s.pc
    ensures Left(SwapState(s, q, x, r)) + Rank(s.pc[s.sched.fg]) + Rank(s.pc[x]) == Left(s) + Rank(q) + Rank(r)
  {
    hide Steady, Distinct, Rank, Sum;
    SteadyFacts(s);
    SumOne(s.sched.order, s.pc, s.sched.fg, q);
    SumOne(s.sched.order, s.pc[s.sched.fg := q], x, r);
  }

  /** What a yield of the running fiber at q to x does. */
  ghost predicate Swapped(s: State, t: State, q: Pc, x: Id) {
    && s.sched.fg in s.pc && x in s.pc && x in t.pc
    && t.sched.fg == x && t.pc[x] == WakesAt(s.pc[x])
    && t.ws == s.ws && t.owner == s.owner
    && Left(t) + Rank(s.pc[s.sched.fg]) + Rank(s.pc[x]) == Left(s) + Rank(q) + Rank(WakesAt(s.pc[x]))
  }

  lemma YieldSwaps(s: State, q: Pc, x: Id)
    requires Steady(s) && Typed(s) && Target(s.sched) == Some(x) && x in s.pc
    requires s.sched.fg in s.sched.flags && (s.sched.flags[s.sched.fg].done ==> Rank(q) == 0)
    ensures Swapped(s, YieldTo(s, q), q, x)
  {
    hide Rank, WakesAt, Steady, Typed, Distinct, Safe, Wf, Sum, Target, Live;
    SteadyFacts(s);
    SwapSafe(s.sched, x);
    var r := WakesAt(s.pc[x]);
    var u := SwapState(s, q, x, r);
    SwapLeft(s, q, x, r);
    forall id | id in u.sched.order && !(id in u.sched.flags && !u.sched.flags[id].done)
      ensures RankAt(u.pc, id) == 0
    {
      if id != s.sched.fg {
        DoneRank(s, id);
      }
    }
    ReapLeft(u);
  }

  /** Waking up leads no further from the end, and nearer in the middle of a call. */
  lemma WakeRank(p: Pc)
    requires p.Fresh? || Parked(p)
    ensures Rank(WakesAt(p)) <= Rank(p)
    ensures Slot(p).Some? ==> Rank(WakesAt(p)) < Rank(p)
  {
  }

  lemma ParkedOthers(s: State, id: Id)
    requires Steady(s) && id in s.pc && id != s.sched.fg
    ensures s.pc[id].Fresh? || Parked(s.pc[id])
  {
    hide Distinct, Wf, Safe, Plays, Tally, BlockedAt;
    assert FiberOk(s, id);
  }

  ghost predicate Closer(s: Sched, t: Sched, z: Id) {
    && s.fg in s.order && z in Ring(s.order, s.fg) && t.fg in t.order && z in Ring(t.order, t.fg)
    && t.fg != z && Pending(t.flags, z) && Dist(t, z) < Dist(s, z)
  }

  lemma SwapCloser(s: Sched, x: Id, z: Id)
    requires Safe(s) && Target(s) == Some(x) && x in s.flags && s.fg in s.flags && Pending(s.flags, z) && z != x
    ensures Closer(s, Swap(s, x), z) && Closer(s, Reap(Swap(s, x)), z)
  {
    hide Distinct, Target, Dist, Ring, Live, Safe, Reap;
    SwapDist(s, z);
    SwapSafe(s, x);
    PendingNotRunning(s, z);
    var u := Swap(s, x);
    SwapKeepsPending(s, x, z);
    ReapSafe(u);
    ReapDist(u, z);
    SafeFg(s);
    hide Swap;
  }

  lemma SafeFg(s: Sched)
    requires Safe(s)
    ensures s.fg in s.order
  {
  }

  lemma YieldSched(s: State, q: Pc, x: Id)
    requires Typed(s) && Target(s.sched) == Some(x) && x in s.sched.flags && s.sched.fg in s.sched.flags
    ensures YieldTo(s, q).sched in {Swap(s.sched, x), Reap(Swap(s.sched, x))}
  {
    hide Distinct, Target, Swap, Live, WakesAt;
  }

  /** Whoever else waits keeps waiting, one place nearer. */
  lemma YieldNearer(s: State, q: Pc, x: Id, z: Id)
    requires Steady(s) && Typed(s) && Target(s.sched) == Some(x) && Pending(s.sched.flags, z) && z != x
    ensures Nearer(s, YieldTo(s, q), z)
  {
    hide Steady, Typed, Distinct, Safe, Wf, Target, Dist, Ring, WakesAt, YieldTo, Swap, Reap;
    SteadyFacts(s);
    TargetIff(s.sched);
    PendingNotRunning(s.sched, z);
    SwapCloser(s.sched, x, z);
    YieldSched(s, q, x);
    YieldLeaves(s, q, z);
  }

  lemma PendingNotRunning(s: Sched, z: Id)
    requires Safe(s) && Pending(s.flags, z)
    ensures z != s.fg
  {
  }

  lemma SwapKeepsPending(s: Sched, x: Id, z: Id)
    requires Safe(s) && x in s.flags && s.fg in s.flags && z != x && z != s.fg && Pending(s.flags, z)
    ensures Pending(Swap(s, x).flags, z) && Pending(Reap(Swap(s, x)).flags, z)
  {
  }

  lemma YieldAlone(s: State, q: Pc)
    requires Steady(s) && Typed(s) && Target(s.sched) == None && s.sched.fg in s.sched.flags && s.sched.fg in s.pc
    requires s.sched.flags[s.sched.fg].done ==> Rank(Resume(q, false)) == 0
    ensures Left(YieldTo(s, q)) + Rank(s.pc[s.sched.fg]) == Left(s) + Rank(Resume(q, false))
  {
    hide Rank, Resume, Steady, Typed, Distinct, Safe, Wf, Sum, Target, Live;
    SteadyFacts(s);
    var r := Resume(q, false);
    var u := s.(pc := s.pc[s.sched.fg := r]);
    OwnLeft(s, u, r);
    forall id | id in u.sched.order && !(id in u.sched.flags && !u.sched.flags[id].done)
      ensures RankAt(u.pc, id) == 0
    {
      if id != s.sched.fg {
        DoneRank(s, id);
      }
    }
    ReapLeft(u);
  }

  /** A yield from a position to one nearer the end. */
  lemma YieldDrops(s: State, q: Pc)
    requires Steady(s) && Typed(s) && s.sched.fg in s.sched.flags && s.sched.fg in s.pc
    requires Rank(q) < Rank(s.pc[s.sched.fg]) && Rank(Resume(q, false)) < Rank(s.pc[s.sched.fg])
    requires s.sched.flags[s.sched.fg].done ==> Rank(q) == 0 && Rank(Resume(q, false)) == 0
    ensures Left(YieldTo(s, q)) < Left(s)
  {
    hide Rank, Resume, Steady, Typed, Distinct, Safe, Wf, Sum, Target, Live, YieldTo, WakesAt, Left;
    SteadyFacts(s);
    TargetIff(s.sched);
    if Target(s.sched).Some? {
      var x := Target(s.sched).value;
      PendingHere(s, x);
      YieldSwaps(s, q, x);
      ParkedOthers(s, x);
      WakeRank(s.pc[x]);
    } else {
      YieldAlone(s, q);
    }
  }

  lemma PendingHere(s: State, x: Id)
    requires Steady(s) && Pending(s.sched.flags, x)
    ensures x in s.pc
  {
    SteadyFacts(s);
    hide Steady, Typed, Wf, Safe;
  }

  lemma RunningDone(s: State)
    requires Steady(s) && s.sched.fg in s.pc && s.sched.fg in s.sched.flags
    ensures s.sched.flags[s.sched.fg].done == (s.pc[s.sched.fg].Exiting? || s.pc[s.sched.fg].ParkedEnd?)
    ensures Placed(s.pc[s.sched.fg], true)
  {
    hide Distinct, Wf, Safe, Plays, Tally, BlockedAt, Placed;
    assert FiberOk(s, s.sched.fg);
  }

  /** The running fiber's next step leads nearer to its end: all but the pick
      loop, a script's own steps, and a wait for a worker that is not done. */
  predicate Drops(s: State) {
    s.sched.fg in s.pc &&
    match s.pc[s.sched.fg]
    case Exiting => true
    case In(_, Owns(w, stage, _)) =>
      w < |s.ws| && (stage.CheckDone? ==> s.ws[w].st == DONE) && (stage.Await? ==> s.ws[w].toMain > 0)
    case In(_, at) => !at.Picking?
    case _ => false
  }

  lemma OwnerDrops(s: State, c: nat, w: nat, stage: Stage, b: bool)
    requires Steady(s) && Typed(s) && s.sched.fg in s.pc && s.sched.fg in s.sched.flags && Drops(s)
    requires s.pc[s.sched.fg] == In(c, Owns(w, stage, b)) && !stage.ParkedPoll? && !s.sched.flags[s.sched.fg].done
    ensures w < |s.ws| && OwnerStep(s, c, w, stage, b).Some?
    ensures Left(OwnerStep(s, c, w, stage, b).value) < Left(s)
  {
    hide Steady, Typed, Distinct, Wf, Threaded, OtherFree, OtherBlocked, Left, YieldTo;
    if stage.Poll? && Threaded(s.sched) && OtherFree(s.sched) {
      YieldDrops(s, In(c, Owns(w, ParkedPoll, OtherBlocked(s.sched))));
    } else {
      var t := OwnerStep(s, c, w, stage, b).value;
      OwnLeft(s, t, t.pc[s.sched.fg]);
    }
  }

  lemma PlaceDrops(s: State, c: nat, at: Place)
    requires Steady(s) && Typed(s) && s.sched.fg in s.pc && s.sched.fg in s.sched.flags && Drops(s)
    requires s.pc[s.sched.fg] == In(c, at) && !at.Owns? && !s.sched.flags[s.sched.fg].done
    requires Placed(s.pc[s.sched.fg], true) && c < |s.calls| && (at.Claimed? ==> at.w < |s.ws|)
    ensures PlaceStep(s, c, at).Some? && Left(PlaceStep(s, c, at).value) < Left(s)
  {
    hide Steady, Typed, Distinct, Wf, Threaded, Left, YieldTo;
    if at.Linger? {
      YieldDrops(s, In(c, ParkedLinger));
    } else {
      var t := PlaceStep(s, c, at).value;
      OwnLeft(s, t, t.pc[s.sched.fg]);
    }
  }

  lemma MainDrops(s: State) returns (t: State)
    requires Steady(s) && Drops(s)
    ensures Typed(s) && Step(s, Main) == Some(t) && Steady(t) && Left(t) < Left(s)
  {
    hide Steady, Typed, Distinct, Wf, Safe, Left, YieldTo, OwnerStep, PlaceStep, Placed;
    SteadyFacts(s);
    RunningDone(s);
    Here(s);
    var p := s.pc[s.sched.fg];
    RunningPlaced(p);
    if p.Exiting? {
      YieldDrops(s, ParkedEnd);
    } else if p.at.Owns? {
      OwnerDrops(s, p.c, p.at.w, p.at.stage, p.at.pending);
    } else {
      PlaceDrops(s, p.c, p.at);
    }
    t := Step(s, Main).value;
    StepSteady(s, Main, t);
  }

  lemma RunningPlaced(p: Pc)
    requires Placed(p, true)
    ensures p.In? && p.at.Owns? ==> !p.at.stage.ParkedPoll?
  {
  }

  lemma StepSteady(s: State, l: Label, t: State)
    requires Steady(s) && Typed(s) && Step(s, l) == Some(t)
    ensures Steady(t)
  {
    hide Steady, Step, Typed, Inv;
    SteadyInv(s);
    StepKeeps(s, l);
    StaysReady(s, l, t);
    SteadyInv(t);
  }

  // ----------------------------------------------------------------------- runs

  /** Nothing new: no fiber is started and no call is made. */
  predicate Drain(ls: seq<Label>) {
    forall i :: 0 <= i < |ls| ==> !(ls[i].Code? && (ls[i].a.CallSpawn? || ls[i].a.CallOffload?))
  }

  ghost predicate Leads(s: State, ls: seq<Label>, t: State) {
    CanRun(s, ls) && After(s, ls) == t && Drain(ls)
  }

  lemma {:induction false} RunConcat(s: State, a: seq<Label>, b: seq<Label>)
    requires CanRun(s, a) && CanRun(After(s, a), b)
    ensures CanRun(s, a + b) && After(s, a + b) == After(After(s, a), b)
    decreases |a|
  {
    hide Step, Typed;
    if a == [] {
      assert a + b == b;
    } else {
      assert (a + b)[0] == a[0] && (a + b)[1..] == a[1..] + b;
      RunConcat(Step(s, a[0]).value, a[1..], b);
    }
  }

  lemma LeadsOn(s: State, a: seq<Label>, t: State, b: seq<Label>, u: State)
    requires Leads(s, a, t) && Leads(t, b, u)
    ensures Leads(s, a + b, u)
  {
    hide CanRun, After;
    RunConcat(s, a, b);
  }

  lemma LeadsNowhere(s: State)
    ensures Leads(s, [], s)
  {
  }

  lemma LeadsOne(s: State, l: Label, t: State)
    requires Typed(s) && Step(s, l) == Some(t) && Drain([l])
    ensures Leads(s, [l], t)
  {
    hide Step, Typed;
    assert [l][1..] == [];
    assert CanRun(t, []) && After(t, []) == t;
  }

  // ----------------------------------------------------------- leading to less

  /** A woken worker that has not signalled back has a step to take. */
  lemma ServingSteps(s: State, c: nat, w: nat)
    requires w < |s.ws| && Serving(s.ws[w], c)
    ensures Remaining(s.ws[w]) == 0 ==> s.ws[w].st == DONE && s.ws[w].toMain > 0
    ensures Remaining(s.ws[w]) > 0 ==>
      && WorkStep(s, w).Some?
      && var t := WorkStep(s, w).value;
         && |t.ws| == |s.ws| && Remaining(t.ws[w]) < Remaining(s.ws[w]) && Serving(t.ws[w], c)
         && t.pc == s.pc && t.sched == s.sched
  {
  }

  lemma {:induction false} WorkerFinishes(s: State, c: nat, w: nat) returns (ls: seq<Label>, t: State)
    requires Steady(s) && w < |s.ws| && Serving(s.ws[w], c)
    ensures Leads(s, ls, t) && Steady(t) && t.pc == s.pc && t.sched == s.sched
    ensures w < |t.ws| && t.ws[w].st == DONE && t.ws[w].toMain > 0
    decreases Remaining(s.ws[w])
  {
    hide Steady, Serving, Remaining, WorkStep, Leads;
    ServingSteps(s, c, w);
    if Remaining(s.ws[w]) == 0 {
      ls, t := [], s;
      LeadsNowhere(s);
    } else {
      var u := WorkStep(s, w).value;
      WorkKeeps(s, w);
      SteadyFacts(s);
      WorkIsStep(s, w);
      LeadsOne(s, Work(w), u);
      ls, t := WorkerFinishes(u, c, w);
      LeadsOn(s, [Work(w)], u, ls, t);
      ls := [Work(w)] + ls;
    }
  }

  /** Inside a call and past the pick loop, or ending. */
  predicate Moving(p: Pc) {
    p.Exiting? || (p.In? && !p.at.Picking?)
  }

  lemma RunningOwner(s: State, c: nat, w: nat, stage: Stage, b: bool)
    requires Steady(s) && s.sched.fg in s.pc && s.pc[s.sched.fg] == In(c, Owns(w, stage, b))
    ensures w < |s.ws| && (stage.CheckDone? || stage.Await? ==> Serving(s.ws[w], c))
  {
    hide Distinct, Wf, Safe, Tally, BlockedAt, Placed, Serving;
    assert FiberOk(s, s.sched.fg);
  }

  lemma Forward(s: State) returns (ls: seq<Label>, t: State)
    requires Steady(s) && s.sched.fg in s.pc && Moving(s.pc[s.sched.fg])
    ensures Leads(s, ls, t) && Steady(t) && Left(t) < Left(s)
  {
    hide Steady, Serving, Leads, Typed, Step;
    var p := s.pc[s.sched.fg];
    var u := s;
    ls := [];
    LeadsNowhere(s);
    if p.In? && p.at.Owns? {
      RunningOwner(s, p.c, p.at.w, p.at.stage, p.at.pending);
      if p.at.stage.CheckDone? || p.at.stage.Await? {
        ls, u := WorkerFinishes(s, p.c, p.at.w);
      }
    }
    hide Left;
    assert Left(u) == Left(s) by {
      SameLeft(s, u);
    }
    t := MainDrops(u);
    LeadsOne(u, Main, t);
    LeadsOn(s, ls, u, [Main], t);
    ls := ls + [Main];
  }

  lemma SameLeft(s: State, u: State)
    requires u.pc == s.pc && u.sched == s.sched
    ensures Left(u) == Left(s)
  {
  }

  /** A script that is not the main one may end. */
  lemma ScriptEnds(s: State) returns (t: State)
    requires Steady(s) && s.sched.fg in s.pc && s.pc[s.sched.fg] == Script && s.sched.fg != MAIN
    ensures Leads(s, [Code(EndFiber)], t) && Steady(t) && Left(t) < Left(s)
  {
    hide Steady, Leads, Left, Typed;
    SteadyFacts(s);
    assert Step(s, Code(EndFiber)).Some?;
    t := Step(s, Code(EndFiber)).value;
    assert t == Goto(s.(sched := Finish(s.sched)), Exiting);
    StepSteady(s, Code(EndFiber), t);
    OwnLeft(s, t, Exiting);
    LeadsOne(s, Code(EndFiber), t);
  }

  // --------------------------------------------------------------- the pick loop

  /** The running fiber is about to test worker i for call c. */
  ghost predicate AtPick(s: State, c: nat, i: nat) {
    Steady(s) && s.sched.fg in s.pc && s.pc[s.sched.fg] == In(c, Picking(i)) && i <= |s.ws|
  }

  lemma PickTest(s: State, c: nat, i: nat) returns (t: State)
    requires AtPick(s, c, i) && i < |s.ws|
    ensures Leads(s, [Main], t) && Steady(t)
    ensures t == Goto(s, In(c, if s.ws[i].st == IDLE then Claimed(i) else Picking(i + 1)))
  {
    hide Steady, Leads, Typed;
    SteadyFacts(s);
    t := Step(s, Main).value;
    StepSteady(s, Main, t);
    LeadsOne(s, Main, t);
  }

  lemma GotoLeft(s: State, p: Pc)
    requires Steady(s) && s.sched.fg in s.pc
    ensures Left(Goto(s, p)) + Rank(s.pc[s.sched.fg]) == Left(s) + Rank(p)
  {
    hide Steady, Left;
    OwnLeft(s, Goto(s, p), p);
  }

  /** With an idle worker ahead, the fiber claims one. */
  lemma {:induction false} PickForward(s: State, c: nat, i: nat, j: nat) returns (ls: seq<Label>, t: State)
    requires AtPick(s, c, i) && i <= j < |s.ws| && s.ws[j].st == IDLE
    ensures Leads(s, ls, t) && Steady(t) && Left(t) < Left(s)
    decreases j - i
  {
    hide Steady, Leads, Left;
    var u := PickTest(s, c, i);
    GotoLeft(s, u.pc[s.sched.fg]);
    if s.ws[i].st == IDLE {
      ls, t := [Main], u;
    } else {
      ls, t := PickForward(u, c, i + 1, j);
      LeadsOn(s, [Main], u, ls, t);
      ls := [Main] + ls;
    }
  }

  /** With none, it comes to the end of the pool. */
  lemma {:induction false} PickPasses(s: State, c: nat, i: nat) returns (ls: seq<Label>, t: State)
    requires AtPick(s, c, i) && forall j :: i <= j < |s.ws| ==> s.ws[j].st != IDLE
    ensures Leads(s, ls, t) && AtPick(t, c, |s.ws|) && Left(t) == Left(s)
    ensures t == Goto(s, In(c, Picking(|s.ws|)))
    decreases |s.ws| - i
  {
    hide Steady, Leads, Left;
    if i == |s.ws| {
      ls, t := [], s;
      LeadsNowhere(s);
      assert s.pc[s.sched.fg := s.pc[s.sched.fg]] == s.pc;
    } else {
      var u := PickTest(s, c, i);
      GotoLeft(s, u.pc[s.sched.fg]);
      ls, t := PickPasses(u, c, i + 1);
      LeadsOn(s, [Main], u, ls, t);
      ls := [Main] + ls;
      assert t.pc == s.pc[s.sched.fg := In(c, Picking(|s.ws|))];
    }
  }

  // ------------------------------------------------------------------ travelling

  /** The running fiber can only yield: it is the main one outside every call, or
      has found every worker taken. */
  ghost predicate OnlyYields(s: State) {
    && Steady(s) && s.sched.fg in s.pc
    && ((s.sched.fg == MAIN && s.pc[MAIN] == Script) ||
        (s.pc[s.sched.fg].In? && s.pc[s.sched.fg].at.Picking? && s.pc[s.sched.fg].at.i >= |s.ws|))
  }

  function Parking(p: Pc): Pc {
    if p.In? then In(p.c, ParkedPick) else ParkedScript
  }

  function Yielding(p: Pc): Label {
    if p.In? then Main else Code(CallYield)
  }

  lemma YieldStep(s: State, x: Id) returns (t: State)
    requires OnlyYields(s) && Target(s.sched) == Some(x) && x in s.pc
    ensures Leads(s, [Yielding(s.pc[s.sched.fg])], t) && Steady(t)
    ensures Swapped(s, t, Parking(s.pc[s.sched.fg]), x)
    ensures forall z :: Pending(s.sched.flags, z) && z != x ==> Nearer(s, t, z)
  {
    hide Steady, Leads, Typed, YieldTo, Swapped, Target;
    var p := s.pc[s.sched.fg];
    SteadyFacts(s);
    RunningDone(s);
    t := YieldTo(s, Parking(p));
    assert Step(s, Yielding(p)) == Some(t) by {
      YieldIsStep(s);
    }
    StepSteady(s, Yielding(p), t);
    LeadsOne(s, Yielding(p), t);
    YieldSwaps(s, Parking(p), x);
    forall z | Pending(s.sched.flags, z) && z != x
      ensures Nearer(s, t, z)
    {
      YieldNearer(s, Parking(p), x, z);
    }
  }

  lemma YieldIsStep(s: State)
    requires OnlyYields(s) && Typed(s)
    ensures Step(s, Yielding(s.pc[s.sched.fg])) == Some(YieldTo(s, Parking(s.pc[s.sched.fg])))
  {
    SteadyFacts(s);
    Here(s);
    hide Steady, Typed, YieldTo;
  }

  /** z waits on in the same position, and fewer fibers come before it. */
  ghost predicate Nearer(s: State, t: State, z: Id) {
    && s.sched.fg in s.sched.order && z in Ring(s.sched.order, s.sched.fg)
    && t.sched.fg in t.sched.order && z in Ring(t.sched.order, t.sched.fg)
    && t.sched.fg != z && Pending(t.sched.flags, z) && Dist(t.sched, z) < Dist(s.sched, z)
    && z in t.pc && z in s.pc && t.pc[z] == s.pc[z]
  }

  /** Only the running fiber's own position may differ. */
  ghost predicate Beside(s: State, t: State) {
    && t.sched == s.sched && t.ws == s.ws && t.owner == s.owner && Left(t) == Left(s)
    && s.sched.fg in s.pc && s.sched.fg in t.pc && t.pc == s.pc[s.sched.fg := t.pc[s.sched.fg]]
  }

  /** From any state there is a way to less, or to a state that can only yield. */
  lemma Nudge(s: State) returns (ls: seq<Label>, t: State)
    requires Steady(s)
    ensures Leads(s, ls, t) && Steady(t)
    ensures Left(t) < Left(s) || (OnlyYields(t) && Beside(s, t))
  {
    hide Steady, Leads, Left;
    SteadyFacts(s);
    RunningDone(s);
    var p := s.pc[s.sched.fg];
    RunningKinds(p);
    ls, t := [], s;
    LeadsNowhere(s);
    assert s.pc == s.pc[s.sched.fg := p];
    if Moving(p) {
      ls, t := Forward(s);
    } else if p.Script? && s.sched.fg != MAIN {
      t := ScriptEnds(s);
      ls := [Code(EndFiber)];
    } else if p.In? && p.at.i < |s.ws| {
      if j :| p.at.i <= j < |s.ws| && s.ws[j].st == IDLE {
        ls, t := PickForward(s, p.c, p.at.i, j);
      } else {
        ls, t := PickPasses(s, p.c, p.at.i);
      }
    }
  }

  lemma RunningKinds(p: Pc)
    requires Placed(p, true)
    ensures Moving(p) || p.Script? || (p.In? && p.at.Picking?)
  {
  }

  /** Fiber x was swapped in, and nothing else has changed. */
  ghost predicate Arrived(s: State, t: State, x: Id) {
    && x in s.pc && x in t.pc && t.sched.fg == x && t.pc[x] == WakesAt(s.pc[x])
    && Rank(WakesAt(s.pc[x])) == Rank(s.pc[x])
    && t.ws == s.ws && t.owner == s.owner && Left(t) == Left(s)
  }

  lemma ParkingRank(p: Pc)
    ensures p == Script || (p.In? && p.at.Picking?) ==> Rank(Parking(p)) == Rank(p)
  {
  }

  lemma SomeTarget(s: Sched, x: Id)
    requires Safe(s) && Pending(s.flags, x)
    ensures s.fg in s.order && Target(s).Some? && Pending(s.flags, Target(s).value)
    ensures x in Ring(s.order, s.fg) && x != s.fg
  {
    TargetIff(s);
    PendingNotRunning(s, x);
    RingMembers(s.order, s.fg);
  }

  function Away(s: Sched, x: Id): nat {
    if s.fg in s.order && x in Ring(s.order, s.fg) then Dist(s, x) else 0
  }

  /** From any state there is a way to less, or to any given waiting fiber. */
  lemma {:induction false} Travel(s: State, x: Id) returns (ls: seq<Label>, t: State)
    requires Steady(s) && Pending(s.sched.flags, x)
    ensures Leads(s, ls, t) && Steady(t)
    ensures Left(t) < Left(s) || Arrived(s, t, x)
    decreases Away(s.sched, x)
  {
    hide Steady, Leads, Left, OnlyYields, WakesAt, Rank, Target, Dist, Ring, Safe, Wf, Distinct;
    var u;
    ls, u := Nudge(s);
    t := u;
    if Left(u) == Left(s) {
      SteadyFacts(s);
      SomeTarget(s.sched, x);
      var y := Target(s.sched).value;
      PendingHere(u, y);
      PendingHere(u, x);
      PendingElsewhere(s, x);
      PendingElsewhere(s, y);
      var v := YieldStep(u, y);
      ParkedOthers(u, y);
      WakeRank(u.pc[y]);
      OnlyYieldsRank(u);
      LeadsOn(s, ls, u, [Yielding(u.pc[u.sched.fg])], v);
      ls, t := ls + [Yielding(u.pc[u.sched.fg])], v;
      if Left(v) == Left(s) && y != x {
        assert Nearer(u, v, x);
        var more;
        more, t := Travel(v, x);
        LeadsOn(s, ls, v, more, t);
        ls := ls + more;
      }
    }
  }

  lemma PendingElsewhere(s: State, x: Id)
    requires Steady(s) && Pending(s.sched.flags, x)
    ensures x != s.sched.fg
  {
    SteadyFacts(s);
    PendingNotRunning(s.sched, x);
    hide Steady, Safe, Wf;
  }

  lemma OnlyYieldsRank(s: State)
    requires OnlyYields(s)
    ensures s.sched.fg in s.pc && Rank(Parking(s.pc[s.sched.fg])) == Rank(s.pc[s.sched.fg])
  {
    ParkingRank(s.pc[s.sched.fg]);
    hide Steady;
  }

  // ------------------------------------------------------------------- draining

  /** The main fiber is outside every call and finds nobody to yield to. */
  ghost predicate Drained(s: State) {
    Steady(s) && s.sched.fg == MAIN && MAIN in s.pc && s.pc[MAIN] == Script &&
    MAIN in s.sched.order && Target(s.sched) == None
  }

  lemma OwnerWaits(s: State, i: nat)
    requires Steady(s) && i < |s.ws| && |s.owner| == |s.ws| && s.owner[i].Some? && s.owner[i].value != s.sched.fg
    ensures var x := s.owner[i].value;
      Pending(s.sched.flags, x) && x in s.pc && Slot(s.pc[x]) == Some(i) && x != s.sched.fg
  {
    hide Distinct, FiberOk, SlotOk;
    SteadyFacts(s);
    OwnerLive(s, i);
    hide Steady, Typed, Wf;
  }

  /** To an owner that waits, so to less: it wakes up in the middle of its call. */
  lemma ToOwner(s: State, i: nat) returns (ls: seq<Label>, t: State)
    requires Steady(s) && i < |s.ws| && |s.owner| == |s.ws| && s.owner[i].Some? && s.owner[i].value != s.sched.fg
    ensures Leads(s, ls, t) && Steady(t) && Left(t) < Left(s)
  {
    hide Steady, Leads, Left, WakesAt, Rank;
    OwnerWaits(s, i);
    var x := s.owner[i].value;
    ParkedOthers(s, x);
    WakeRank(s.pc[x]);
    ls, t := Travel(s, x);
  }

  /** A fiber that wakes up no nearer to its end wakes up in its script or at the
      head of the pick loop. */
  lemma IdleWakes(p: Pc)
    requires (p.Fresh? || Parked(p)) && !p.ParkedEnd? && Rank(WakesAt(p)) == Rank(p)
    ensures WakesAt(p) == Script || (WakesAt(p).In? && WakesAt(p).at == Picking(0))
  {
  }

  lemma PendingAwake(s: State, x: Id)
    requires Steady(s) && Pending(s.sched.flags, x) && x in s.pc
    ensures !s.pc[x].ParkedEnd?
  {
    hide Distinct, Wf, Safe, Plays, Tally, BlockedAt, Placed;
    assert FiberOk(s, x);
  }

  /** With no worker owned, a fiber other than the main one that runs gets on. */
  lemma GetsOn(s: State) returns (ls: seq<Label>, t: State)
    requires Steady(s) && s.sched.fg in s.pc && s.sched.fg != MAIN && |s.owner| == |s.ws|
    requires forall i :: 0 <= i < |s.ws| ==> s.owner[i] == None
    requires s.pc[s.sched.fg] == Script || (s.pc[s.sched.fg].In? && s.pc[s.sched.fg].at == Picking(0))
    ensures Leads(s, ls, t) && Steady(t) && Left(t) < Left(s)
  {
    hide Leads, Left, Typed, Safe, FiberOk, SlotOk, CallOk, JobsApart;
    if s.pc[s.sched.fg] == Script {
      t := ScriptEnds(s);
      ls := [Code(EndFiber)];
    } else {
      assert |s.ws| >= 1;
      IdleIffUnowned(s, 0);
      ls, t := PickForward(s, s.pc[s.sched.fg].c, 0, 0);
    }
    hide Steady;
  }

  /** From the main script: to an owner, or to whoever comes next. */
  lemma FromMain(s: State) returns (ls: seq<Label>, t: State)
    requires Steady(s) && s.sched.fg == MAIN && MAIN in s.pc && s.pc[MAIN] == Script
    requires s.sched.fg in s.sched.order && Target(s.sched).Some?
    ensures Leads(s, ls, t) && Steady(t) && Left(t) < Left(s)
  {
    hide Steady, Leads, Left, WakesAt, Rank, Target, Parked;
    SteadyFacts(s);
    OwnerCount(s);
    if i :| 0 <= i < |s.ws| && s.owner[i].Some? {
      NotOwner(s, i);
      ls, t := ToOwner(s, i);
    } else {
      TargetIff(s.sched);
      var x := Target(s.sched).value;
      PendingHere(s, x);
      PendingAwake(s, x);
      ParkedOthers(s, x);
      ls, t := Travel(s, x);
      if Left(t) == Left(s) {
        IdleWakes(s.pc[x]);
        var more, u := GetsOn(t);
        LeadsOn(s, ls, t, more, u);
        ls, t := ls + more, u;
      }
    }
  }

  lemma OwnerCount(s: State)
    requires Steady(s)
    ensures |s.owner| == |s.ws| >= 1
  {
    hide Distinct, Wf, Safe, FiberOk, SlotOk, CallOk, JobsApart;
  }

  /** A running fiber outside every worker owns none. */
  lemma NotOwner(s: State, i: nat)
    requires Steady(s) && i < |s.ws| && |s.owner| == |s.ws| && s.sched.fg in s.pc && Slot(s.pc[s.sched.fg]) == None
    ensures s.owner[i] != Some(s.sched.fg)
  {
    hide Distinct, Wf, Safe, FiberOk, Plays;
    assert SlotOk(s, i);
  }

  /** From any state there is a way to less, or to a drained one. */
  lemma Advance(s: State) returns (ls: seq<Label>, t: State)
    requires Steady(s)
    ensures Leads(s, ls, t) && Steady(t) && (Left(t) < Left(s) || Drained(t))
  {
    hide Steady, Leads, Left, Target;
    var u;
    ls, u := Nudge(s);
    t := u;
    SteadyFacts(u);
    if Left(u) == Left(s) && !Drained(u) {
      OwnerCount(u);
      var more, v;
      if u.sched.fg == MAIN && u.pc[MAIN] == Script {
        more, v := FromMain(u);
      } else {
        AllOwned(u);
        NotOwner(u, 0);
        more, v := ToOwner(u, 0);
      }
      LeadsOn(s, ls, u, more, v);
      ls, t := ls + more, v;
    }
  }

  lemma AllOwned(s: State)
    requires OnlyYields(s) && !(s.sched.fg == MAIN && s.pc[MAIN] == Script) && |s.owner| == |s.ws| >= 1
    ensures s.owner[0].Some? && Slot(s.pc[s.sched.fg]) == None
  {
    hide Distinct, Wf, Safe, Plays, Tally, BlockedAt, Placed;
    assert FiberOk(s, s.sched.fg);
  }

  lemma {:induction false} DrainFrom(s: State) returns (ls: seq<Label>, t: State)
    requires Steady(s)
    ensures Leads(s, ls, t) && Drained(t)
    decreases Left(s)
  {
    hide Steady, Leads, Left, Drained;
    ls, t := Advance(s);
    if !Drained(t) {
      var more, u := DrainFrom(t);
      LeadsOn(s, ls, t, more, u);
      ls, t := ls + more, u;
    }
  }

  // ------------------------------------------------------------- calls in flight

  /** Some fiber is inside call c. */
  ghost predicate InFlight(s: State, c: nat) {
    exists id :: id in s.pc && Job(s.pc[id]) == Some(c)
  }

  /** Call c has a result, or some fiber is inside it. */
  ghost predicate Accounted(s: State, c: nat) {
    c < |s.calls| && (s.calls[c].result.Some? || InFlight(s, c))
  }

  lemma WakeJob(p: Pc)
    requires p.Fresh? || Parked(p)
    ensures Job(WakesAt(p)) == Job(p)
  {
  }

  /** A yield loses no call. */
  lemma YieldAccounts(s: State, q: Pc, c: nat, id: Id)
    requires Steady(s) && Typed(s) && id in s.pc && Job(s.pc[id]) == Some(c) && s.sched.fg in s.pc
    requires s.sched.fg in s.sched.flags
    requires Job(q) == Job(s.pc[s.sched.fg]) && Job(Resume(q, false)) == Job(q)
    ensures InFlight(YieldTo(s, q), c)
  {
    hide Steady, Typed, YieldTo, Job, Resume, WakesAt, Parked;
    JobLive(s, id);
    SteadyFacts(s);
    if id == s.sched.fg {
      YieldSelf(s, q);
    } else {
      ParkedOthers(s, id);
      WakeJob(s.pc[id]);
      YieldLeaves(s, q, id);
    }
    InFlightBy(YieldTo(s, q), c, id);
  }

  lemma YieldSelf(s: State, q: Pc)
    requires Typed(s) && Wf(s.sched) && s.sched.fg in s.sched.flags && s.sched.fg in s.pc
    requires !s.sched.flags[s.sched.fg].done
    ensures var t := YieldTo(s, q);
      s.sched.fg in t.pc && (t.pc[s.sched.fg] == q || t.pc[s.sched.fg] == Resume(q, false))
  {
    hide Distinct, Target, Live, WakesAt, Resume, Wf, Typed;
    TargetIff(s.sched);
  }

  lemma InFlightBy(s: State, c: nat, id: Id)
    requires id in s.pc && Job(s.pc[id]) == Some(c)
    ensures InFlight(s, c)
  {
  }

  /** A fiber inside a call is not DONE. */
  lemma JobLive(s: State, id: Id)
    requires Steady(s) && id in s.pc && Job(s.pc[id]).Some?
    ensures id in s.sched.flags && !s.sched.flags[id].done
  {
    hide Distinct, Wf, Safe, Plays, Tally, BlockedAt, Placed;
    assert FiberOk(s, id);
  }

  /** Moving the running fiber on within its call. */
  lemma MoveAccounts(s: State, t: State, c: nat, q: Pc)
    requires InFlight(s, c) && s.sched.fg in s.pc && t.pc == s.pc[s.sched.fg := q] && Job(q) == Job(s.pc[s.sched.fg])
    ensures InFlight(t, c)
  {
    hide Job;
    var id :| id in s.pc && Job(s.pc[id]) == Some(c);
    InFlightBy(t, c, id);
  }

  lemma YieldInFlight(s: State, q: Pc, c: nat)
    requires Steady(s) && Typed(s) && InFlight(s, c) && s.sched.fg in s.pc && s.sched.fg in s.sched.flags
    requires Job(q) == Job(s.pc[s.sched.fg]) && Job(Resume(q, false)) == Job(q)
    ensures InFlight(YieldTo(s, q), c)
  {
    hide Steady, Typed, YieldTo, Job, Resume;
    var id :| id in s.pc && Job(s.pc[id]) == Some(c);
    YieldAccounts(s, q, c, id);
  }

  lemma OwnerAccounts(s: State, c: nat, k: nat, w: nat, stage: Stage, b: bool, t: State)
    requires Steady(s) && Typed(s) && InFlight(s, c) && s.sched.fg in s.pc && s.sched.fg in s.sched.flags
    requires w < |s.ws| && s.pc[s.sched.fg] == In(k, Owns(w, stage, b)) && OwnerStep(s, k, w, stage, b) == Some(t)
    ensures InFlight(t, c)
  {
    hide Steady, Typed, YieldTo, InFlight, Threaded, OtherFree, OtherBlocked;
    if stage.Poll? && Threaded(s.sched) && OtherFree(s.sched) {
      YieldInFlight(s, In(k, Owns(w, ParkedPoll, OtherBlocked(s.sched))), c);
    } else {
      MoveAccounts(s, t, c, t.pc[s.sched.fg]);
    }
  }

  lemma PlaceAccounts(s: State, c: nat, k: nat, at: Place, t: State)
    requires Steady(s) && Typed(s) && InFlight(s, c) && s.sched.fg in s.pc && s.sched.fg in s.sched.flags
    requires k < |s.calls| && (at.Claimed? ==> at.w < |s.ws|)
    requires s.pc[s.sched.fg] == In(k, at) && !at.Owns? && PlaceStep(s, k, at) == Some(t)
    ensures InFlight(t, c) || (at.Returning? && c == k)
    ensures |t.calls| == |s.calls| && (at.Returning? ==> t.calls[k].result.Some?)
  {
    hide Steady, Typed, YieldTo, InFlight, Threaded;
    YieldCalls(s);
    if at.Linger? {
      YieldInFlight(s, In(k, ParkedLinger), c);
    } else if at.Picking? && at.i >= |s.ws| {
      YieldInFlight(s, In(k, ParkedPick), c);
    } else if at.Returning? {
      ReturnAccounts(s, c, k, t);
    } else {
      MoveAccounts(s, t, c, t.pc[s.sched.fg]);
    }
  }

  lemma ReturnAccounts(s: State, c: nat, k: nat, t: State)
    requires InFlight(s, c) && s.sched.fg in s.pc && Job(s.pc[s.sched.fg]) == Some(k)
    requires t.pc == s.pc[s.sched.fg := Script]
    ensures InFlight(t, c) || c == k
  {
    var id :| id in s.pc && Job(s.pc[id]) == Some(c);
    if c != k {
      InFlightBy(t, c, id);
    }
  }

  lemma ScriptAccounts(s: State, c: nat, a: Action, t: State)
    requires Steady(s) && Typed(s) && InFlight(s, c) && s.sched.fg in s.pc && s.sched.fg in s.sched.flags
    requires ScriptStep(s, a) == Some(t)
    ensures InFlight(t, c)
  {
    hide Steady, Typed, YieldTo;
    var id :| id in s.pc && Job(s.pc[id]) == Some(c);
    match a
    case CallYield => YieldInFlight(s, ParkedScript, c);
    case CallSpawn(new_) =>
      SpawnFresh(s, new_);
      InFlightBy(t, c, id);
    case EndFiber => InFlightBy(t, c, id);
    case CallOffload => InFlightBy(t, c, id);
  }

  lemma SpawnFresh(s: State, x: Id)
    requires Typed(s) && x !in s.sched.flags
    ensures x !in s.pc
  {
    hide Distinct, Wf;
  }

  lemma PlaceCount(s: State, k: nat, at: Place, t: State)
    requires Typed(s) && k < |s.calls| && (at.Claimed? ==> at.w < |s.ws|) && PlaceStep(s, k, at) == Some(t)
    ensures |t.calls| == |s.calls|
  {
    hide YieldTo, Threaded, Wf, Distinct;
    YieldCalls(s);
    hide Typed;
  }

  lemma ScriptCount(s: State, a: Action, t: State)
    requires Typed(s) && s.sched.fg in s.pc && ScriptStep(s, a) == Some(t)
    ensures |s.calls| <= |t.calls|
    ensures |t.calls| > |s.calls| ==> |t.calls| == |s.calls| + 1 && InFlight(t, |s.calls|)
  {
    hide YieldTo, Wf, Distinct;
    YieldCalls(s);
    if a.CallOffload? {
      InFlightBy(t, |s.calls|, s.sched.fg);
    }
    hide Typed;
  }

  lemma CallCount(s: State, l: Label, t: State)
    requires Steady(s) && Typed(s) && Step(s, l) == Some(t)
    ensures |s.calls| <= |t.calls|
    ensures |t.calls| > |s.calls| ==> |t.calls| == |s.calls| + 1 && InFlight(t, |s.calls|)
  {
    hide Steady, YieldTo, OwnerStep, PlaceStep, ScriptStep, Distinct, Wf, InFlight;
    SteadyFacts(s);
    Here(s);
    var p := s.pc[s.sched.fg];
    match l
    case Main =>
      YieldCalls(s);
      OwnerCalls(s);
      if p.In? && !p.at.Owns? {
        PlaceCount(s, p.c, p.at, t);
      }
    case Code(a) => ScriptCount(s, a, t);
    case Work(w) =>
    hide Typed;
  }

  /** No step loses a call. */
  lemma StepAccounts(s: State, l: Label, t: State, c: nat)
    requires Steady(s) && Typed(s) && Step(s, l) == Some(t)
    requires (forall d :: 0 <= d < |s.calls| ==> Accounted(s, d)) && c < |t.calls|
    ensures Accounted(t, c)
  {
    hide Steady, Typed, YieldTo, OwnerStep, PlaceStep, ScriptStep, WorkStep, InFlight;
    SteadyFacts(s);
    Here(s);
    CallCount(s, l, t);
    if c < |s.calls| {
      assert Accounted(s, c);
      if s.calls[c].result.Some? {
        SteadyInv(s);
        ResultKept(s, l, c);
      } else {
        match l
        case Main => MainAccounts(s, t, c);
        case Code(a) => ScriptAccounts(s, c, a, t);
        case Work(w) =>
          WorkFrame(s, w);
          SamePcAccounts(s, t, c);
      }
    }
  }

  lemma SamePcAccounts(s: State, t: State, c: nat)
    requires InFlight(s, c) && t.pc == s.pc
    ensures InFlight(t, c)
  {
  }

  lemma MainAccounts(s: State, t: State, c: nat)
    requires Steady(s) && Typed(s) && Anchored(s) && Step(s, Main) == Some(t) && InFlight(s, c)
    requires c < |s.calls| && |s.calls| <= |t.calls|
    ensures Accounted(t, c)
  {
    hide Steady, Typed, YieldTo, OwnerStep, PlaceStep, InFlight;
    SteadyFacts(s);
    var p := s.pc[s.sched.fg];
    if p.Exiting? {
      YieldInFlight(s, ParkedEnd, c);
    } else if p.at.Owns? {
      OwnerAccounts(s, c, p.c, p.at.w, p.at.stage, p.at.pending, t);
    } else {
      PlaceAccounts(s, c, p.c, p.at, t);
    }
  }

  lemma BootCalls(s: State, l: Label, t: State)
    requires Inv(s) && Typed(s) && !s.boot.Ready? && Step(s, l) == Some(t)
    ensures s.calls == [] && t.calls == []
  {
    hide Distinct, Wf, Safe, Steady;
  }

  ghost predicate AllAccounted(s: State) {
    forall c :: 0 <= c < |s.calls| ==> Accounted(s, c)
  }

  lemma {:induction false} RunAccounts(s: State, ls: seq<Label>)
    requires Inv(s) && Typed(s) && AllAccounted(s) && CanRun(s, ls)
    ensures AllAccounted(After(s, ls))
    decreases |ls|
  {
    hide Inv, Typed, Step, Accounted;
    if ls != [] {
      var t := Step(s, ls[0]).value;
      StepKeeps(s, ls[0]);
      if s.boot.Ready? {
        SteadyInv(s);
        forall c | 0 <= c < |t.calls|
          ensures Accounted(t, c)
        {
          StepAccounts(s, ls[0], t, c);
        }
      } else {
        BootCalls(s, ls[0], t);
      }
      RunAccounts(t, ls[1..]);
    }
  }

  /** No call is ever lost.  In every reachable state each call that was made has
      returned success with its function run once to completion, or is held by
      exactly one fiber, which is not DONE. */
  lemma NoCallLost(s0: State, ls: seq<Label>, s: State, c: nat)
    requires Reached(s0, ls, s) && c < |s.calls|
    ensures s.calls[c] == Call(1, 1, Some(true)) ||
            exists id :: id in s.pc && id in s.sched.flags && Job(s.pc[id]) == Some(c) && !s.sched.flags[id].done
    ensures forall a, b :: a in s.pc && b in s.pc && Job(s.pc[a]) == Some(c) == Job(s.pc[b]) ==> a == b
  {
    hide Inv, Typed, CanRun, After, FiberOk, SlotOk, Safe, Wf, Distinct;
    ReachedInv(s0, ls, s);
    InitialInv(s0);
    RunAccounts(s0, ls);
    CallsReady(s, c);
    assert Accounted(s, c);
    if s.calls[c].result.Some? {
      assert CallOk(s.calls[c]);
    } else {
      var id :| id in s.pc && Job(s.pc[id]) == Some(c);
      JobLive(s, id);
    }
  }

  lemma CallsReady(s: State, c: nat)
    requires Inv(s) && c < |s.calls|
    ensures Steady(s)
  {
    hide Steady;
  }

  lemma DrainedJobs(s: State, id: Id)
    requires Drained(s) && id in s.pc
    ensures Job(s.pc[id]) == None
  {
    hide Distinct, Target, FiberOk, SlotOk, CallOk, JobsApart;
    if Job(s.pc[id]).Some? {
      JobLive(s, id);
      TargetIff(s.sched);
      assert !Pending(s.sched.flags, id);
    }
  }

  /** No reachable state is doomed.  From every one after start-up some run of
      the interpreter thread and the workers, in which no fiber is started and no
      call is made, leads to a state in which every call ever made has returned
      success with its function run once to completion, the main fiber is alone
      once DONE fibers are reaped, and every worker is idle and quiet. */
  lemma Drains(s0: State, before: seq<Label>, s: State) returns (ls: seq<Label>, t: State)
    requires Reached(s0, before, s) && s.boot.Ready?
    ensures CanRun(s, ls) && After(s, ls) == t && Drain(ls)
    ensures Reached(s0, before + ls, t)
    ensures forall c :: 0 <= c < |t.calls| ==> t.calls[c] == Call(1, 1, Some(true))
    ensures t.sched.fg == MAIN && MAIN in t.pc && t.pc[MAIN] == Script && Reap(t.sched).order == [MAIN]
    ensures |t.owner| == |t.ws| && forall i :: 0 <= i < |t.ws| ==> t.owner[i] == None && Quiet(t.ws[i], IDLE)
  {
    hide Inv, Typed, CanRun, After, Steady, Target, Job, Quiet, Reap;
    ReachedInv(s0, before, s);
    SteadyInv(s);
    ls, t := DrainFrom(s);
    RunConcat(s0, before, ls);
    forall c | 0 <= c < |t.calls|
      ensures t.calls[c] == Call(1, 1, Some(true))
    {
      NoCallLost(s0, before + ls, t, c);
      if id :| id in t.pc && Job(t.pc[id]) == Some(c) {
        DrainedJobs(t, id);
      }
    }
    SteadyFacts(t);
    JoinQuiesces(s0, before + ls, t);
  }
}
