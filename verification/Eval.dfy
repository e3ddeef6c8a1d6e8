/** The statement evaluator under fibers: frames pushed and popped, results
    handed on, the 8-bit quantum counter and the exit flag.

    One step is what the running fiber does up to a point where it can be
    swapped out or a nested statement begins. */
module Eval {
  import opened Basics
  import opened Fibers

  const MAX_NESTING := 64

  const QUANTUM := 16

  type FrameId = nat

  const GLOBAL: FrameId := 0

  datatype Res = Ok | Yield | Break | Cont | Ret | Err | Exit

  /** Where a statement that has its frame is: evaluating its words, stopped by a
      word with that result, or in its procedure.  saved is the exit flag a
      finally block put aside. */
  datatype Phase = Words | Owes(res: Res) | Proc(saved: Option<bool>)

  /** A statement in progress and the frame pushed for it. */
  datatype Act = Act(frame: FrameId, phase: Phase)

  /** A fiber's frame chain from the global frame up, its depth counter, its
      statements in progress, whether its script is over, and whether it was
      swapped out inside a yield. */
  datatype Stack = Stack(chain: seq<FrameId>, depth: nat, acts: seq<Act>, halted: bool, asleep: bool)

  datatype State = State(sched: Sched, stacks: map<Id, Stack>, exit: bool, next: FrameId)

  datatype Label =
    | Begin | WordsDone | Finish(res: Res)
    | Pause | Block(b: bool) | Fork(id: Id) | Finally | FinallyEnd
    | Wake | EndFiber | Join

  ghost predicate Initial(s: State) {
    s == State(Sched([MAIN], map[MAIN := Flags(false, true, false, false)], MAIN, 0),
               map[MAIN := Stack([GLOBAL, 1], 1, [], false, false)], false, 2)
  }

  // --------------------------------------------------------------------- steps

  predicate Ready(s: State) {
    s.sched.fg in s.sched.order && s.sched.fg in s.sched.flags && s.sched.fg in s.stacks
  }

  function Self(s: State): Stack
    requires Ready(s)
  {
    s.stacks[s.sched.fg]
  }

  function WithSelf(s: State, st: Stack): State {
    s.(stacks := s.stacks[s.sched.fg := st])
  }

  /** Freed fibers take their stacks with them. */
  function Keep(stacks: map<Id, Stack>, flags: map<Id, Flags>): map<Id, Stack> {
    map id | id in stacks && id in flags :: stacks[id]
  }

  function Swept(s: State): State {
    var r := Reap(s.sched);
    s.(sched := r, stacks := Keep(s.stacks, r.flags))
  }

  /** b6b_yield: swap out, to sweep when swapped in again, or sweep at once. */
  function Yielded(s: State): State
    requires Ready(s)
  {
    var t := Target(s.sched);
    if t.Some? && t.value in s.sched.flags then
      WithSelf(s, Self(s).(asleep := true)).(sched := Swap(s.sched, t.value))
    else Swept(s)
  }

  /** Hands a statement's result to the fiber that asked for it. */
  function Deliver(st: Stack, res: Res): Stack {
    if st.acts == [] then st.(halted := res != Ok)
    else
      var k := |st.acts| - 1;
      if st.acts[k].phase.Words? && res != Ok then st.(acts := st.acts[k := st.acts[k].(phase := Owes(res))])
      else st
  }

  function Tick(q: Byte): Byte {
    (q + 1) % 256
  }

  /** b6b_on_res. */
  function OnRes(s: State, res: Res): State
    requires Ready(s)
  {
    if res == Yield then Yielded(WithSelf(s, Deliver(Self(s), Ok)))
    else
      var t := WithSelf(s, Deliver(Self(s), res)).(sched := s.sched.(qstep := Tick(s.sched.qstep)));
      if res == Exit then t.(exit := true)
      else if t.sched.qstep == QUANTUM then Yielded(t)
      else t
  }

  function Push(st: Stack, id: FrameId): Stack {
    st.(chain := st.chain + [id], depth := st.depth + 1, acts := st.acts + [Act(id, Words)])
  }

  /** b6b_frame_pop drops whatever frame is current. */
  function Pop(st: Stack): Stack
    requires st.chain != [] && st.depth > 0 && st.acts != []
  {
    st.(chain := st.chain[..|st.chain| - 1], depth := st.depth - 1, acts := st.acts[..|st.acts| - 1])
  }

  predicate MayBegin(s: State, st: Stack) {
    if st.acts == [] then s.sched.fg == MAIN || !st.halted
    else !st.acts[|st.acts| - 1].phase.Owes?
  }

  predicate MayFinish(st: Stack, res: Res) {
    && st.acts != [] && st.chain != [] && st.depth > 0
    && match st.acts[|st.acts| - 1].phase
       case Words => res == Ok || res == Err
       case Owes(r) => res == r
       case Proc(saved) => saved == None
  }

  predicate InProc(st: Stack) {
    st.acts != [] && st.acts[|st.acts| - 1].phase.Proc?
  }

  function SetPhase(st: Stack, p: Phase): Stack
    requires st.acts != []
  {
    var k := |st.acts| - 1;
    st.(acts := st.acts[k := st.acts[k].(phase := p)])
  }

  function BeginStep(s: State): State
    requires Ready(s)
  {
    if s.exit then WithSelf(s, Deliver(Self(s), Exit))
    else if Self(s).depth >= MAX_NESTING then OnRes(s, Err)
    else WithSelf(s, Push(Self(s), s.next)).(next := s.next + 1)
  }

  function Step(s: State, l: Label): Option<State> {
    if !Ready(s) then None
    else
      var st := Self(s);
      if st.asleep then
        if l == Wake then Some(Swept(WithSelf(s, st.(asleep := false)))) else None
      else
        match l
        case Begin => if MayBegin(s, st) then Some(BeginStep(s)) else None
        case WordsDone =>
          if st.acts != [] && st.acts[|st.acts| - 1].phase.Words? then Some(WithSelf(s, SetPhase(st, Proc(None))))
          else None
        case Finish(res) =>
          if MayFinish(st, res) then Some(OnRes(WithSelf(s, Pop(st)), res)) else None
        case Pause => if InProc(st) then Some(Yielded(s)) else None
        case Block(b) => if InProc(st) then Some(s.(sched := SetBlocked(s.sched, b))) else None
        case Fork(id) =>
          if InProc(st) && id !in s.sched.flags && id !in s.sched.order then
            Some(s.(sched := Spawn(s.sched, id), next := s.next + 1,
                    stacks := s.stacks[id := Stack([GLOBAL, s.next], 1, [], false, false)]))
          else None
        case Finally =>
          if InProc(st) && st.acts[|st.acts| - 1].phase.saved == None then
            Some(WithSelf(s, SetPhase(st, Proc(Some(s.exit)))).(exit := false))
          else None
        case FinallyEnd =>
          if InProc(st) && st.acts[|st.acts| - 1].phase.saved.Some? then
            Some(WithSelf(s, SetPhase(st, Proc(None))).(exit := st.acts[|st.acts| - 1].phase.saved.value))
          else None
        case Wake => None
        case EndFiber =>
          if s.sched.fg != MAIN && st.acts == [] then Some(Yielded(s.(sched := Fibers.Finish(s.sched)))) else None
        case Join => if s.sched.fg == MAIN && st.acts == [] then Some(Yielded(s.(exit := true))) else None
  }

  ghost predicate CanRun(s: State, ls: seq<Label>)
    decreases |ls|
  {
    ls == [] || (Step(s, ls[0]).Some? && CanRun(Step(s, ls[0]).value, ls[1..]))
  }

  ghost function After(s: State, ls: seq<Label>): State
    requires CanRun(s, ls)
    decreases |ls|
  {
    if ls == [] then s else After(Step(s, ls[0]).value, ls[1..])
  }

  // ----------------------------------------------------------------- invariant

  /** One frame per statement in progress, above the fiber's own first frame and
      the global one; the depth counter counts them. */
  ghost predicate Matched(st: Stack, next: FrameId) {
    && |st.chain| == |st.acts| + 2
    && st.chain[0] == GLOBAL
    && (forall i :: 0 <= i < |st.acts| ==> st.chain[i + 2] == st.acts[i].frame)
    && st.depth == |st.chain| - 1 && st.depth <= MAX_NESTING
    && (forall i, j :: 0 <= i < j < |st.chain| ==> st.chain[i] < st.chain[j])
    && st.chain[|st.chain| - 1] < next
  }

  ghost predicate AllMatched(stacks: map<Id, Stack>, next: FrameId) {
    forall id :: id in stacks ==> Matched(stacks[id], next)
  }

  ghost predicate Inv(s: State) {
    && Safe(s.sched)
    && !s.sched.flags[s.sched.fg].done
    && (forall id :: id in s.stacks <==> id in s.sched.flags)
    && AllMatched(s.stacks, s.next)
  }

  lemma InitInv(s: State)
    requires Initial(s)
    ensures Inv(s)
  {
  }

  lemma PushMatched(st: Stack, next: FrameId)
    requires Matched(st, next) && st.depth < MAX_NESTING
    ensures Matched(Push(st, next), next + 1)
  {
  }

  lemma PopMatched(st: Stack, next: FrameId)
    requires Matched(st, next) && st.acts != []
    ensures st.chain != [] && st.depth > 0 && Matched(Pop(st), next)
    ensures Pop(st).acts == st.acts[..|st.acts| - 1]
  {
  }

  /** With no fiber to swap to, the main fiber is running. */
  lemma NoTarget(s: Sched)
    requires Safe(s) && Target(s).None?
    ensures s.fg == MAIN
  {
    TargetIff(s);
    assert s.fg != MAIN ==> Pending(s.flags, MAIN);
  }

  lemma SweptInv(s: State)
    requires Inv(s)
    ensures Inv(Swept(s)) && Swept(s).sched.fg == s.sched.fg
  {
    ReapSafe(s.sched);
    hide Matched, Reap, Safe, Wf;
  }

  lemma SelfInv(s: State, st: Stack)
    requires Inv(s) && Matched(st, s.next)
    ensures Inv(WithSelf(s, st))
  {
    hide Matched;
  }

  /** What a yield starts from: as Inv, but the running fiber may just have ended. */
  ghost predicate Yielding(s: State) {
    && Safe(s.sched)
    && (s.sched.flags[s.sched.fg].done ==> s.sched.fg != MAIN)
    && (forall id :: id in s.stacks <==> id in s.sched.flags)
    && AllMatched(s.stacks, s.next)
  }

  lemma SwapFacts(s: Sched, t: Id)
    requires Safe(s) && Target(s) == Some(t) && t in s.flags
    ensures Safe(Swap(s, t)) && Swap(s, t).fg == t && !Swap(s, t).flags[t].done
    ensures forall id :: id in Swap(s, t).flags <==> id in s.flags
  {
    SwapSafe(s, t);
  }

  lemma SleepMatched(st: Stack, b: bool, next: FrameId)
    requires Matched(st, next)
    ensures Matched(st.(asleep := b), next)
  {
  }

  lemma SwapInv(s: State, t: Id)
    requires Yielding(s) && Ready(s) && Target(s.sched) == Some(t) && t in s.sched.flags
    ensures Inv(WithSelf(s, Self(s).(asleep := true)).(sched := Swap(s.sched, t)))
  {
    hide Matched, Target, Safe, Swap;
    SwapFacts(s.sched, t);
    SleepMatched(Self(s), true, s.next);
  }

  lemma YieldedInv(s: State)
    requires Yielding(s)
    ensures Inv(Yielded(s))
  {
    TargetIff(s.sched);
    if Target(s.sched).Some? {
      SwapInv(s, Target(s.sched).value);
    } else {
      NoTarget(s.sched);
      SweptInv(s);
    }
    hide Matched, Target, Safe, Swap, Swept, Inv;
  }

  lemma DeliverMatched(st: Stack, res: Res, next: FrameId)
    requires Matched(st, next)
    ensures Matched(Deliver(st, res), next)
  {
  }

  lemma SetPhaseMatched(st: Stack, p: Phase, next: FrameId)
    requires Matched(st, next) && st.acts != []
    ensures Matched(SetPhase(st, p), next)
  {
  }

  lemma TickInv(s: State, q: Byte, exit: bool)
    requires Inv(s)
    ensures Inv(s.(sched := s.sched.(qstep := q), exit := exit))
  {
    hide Matched;
  }

  lemma InvYielding(s: State)
    requires Inv(s)
    ensures Yielding(s) && Ready(s)
  {
    hide Matched;
  }

  lemma OnResInv(s: State, res: Res)
    requires Inv(s) && Ready(s)
    ensures Inv(OnRes(s, res))
  {
    hide Matched, Deliver, Yielded, Safe, Inv, Yielding;
    var r := if res == Yield then Ok else res;
    MatchedSelf(s);
    DeliverMatched(Self(s), r, s.next);
    SelfInv(s, Deliver(Self(s), r));
    var t := WithSelf(s, Deliver(Self(s), r));
    if res == Yield {
      InvYielding(t);
      YieldedInv(t);
    } else {
      TickInv(t, Tick(s.sched.qstep), t.exit);
      TickInv(t, Tick(s.sched.qstep), true);
      var u := t.(sched := s.sched.(qstep := Tick(s.sched.qstep)));
      assert u == t.(sched := t.sched.(qstep := Tick(s.sched.qstep)), exit := t.exit);
      assert u.(exit := true) == t.(sched := t.sched.(qstep := Tick(s.sched.qstep)), exit := true);
      if res != Exit && u.sched.qstep == QUANTUM {
        InvYielding(u);
        YieldedInv(u);
      }
    }
  }

  lemma MatchedSelf(s: State)
    requires Inv(s) && Ready(s)
    ensures Matched(Self(s), s.next)
  {
    hide Matched, Safe;
  }

  lemma NextMatched(st: Stack, m: FrameId, n: FrameId)
    requires Matched(st, m) && m <= n
    ensures Matched(st, n)
  {
  }

  lemma NextInv(s: State)
    requires Inv(s)
    ensures Inv(s.(next := s.next + 1))
  {
    hide Matched;
    forall id | id in s.stacks
      ensures Matched(s.stacks[id], s.next + 1)
    {
      NextMatched(s.stacks[id], s.next, s.next + 1);
    }
  }

  lemma BeginInv(s: State)
    requires Inv(s) && Ready(s)
    ensures Inv(BeginStep(s))
  {
    hide Matched, Deliver, Safe, Inv, OnRes, Push;
    MatchedSelf(s);
    if s.exit {
      DeliverMatched(Self(s), Exit, s.next);
      SelfInv(s, Deliver(Self(s), Exit));
    } else if Self(s).depth >= MAX_NESTING {
      OnResInv(s, Err);
    } else {
      PushMatched(Self(s), s.next);
      NextInv(s);
      var n := s.(next := s.next + 1);
      SelfInv(n, Push(Self(s), s.next));
      assert BeginStep(s) == WithSelf(n, Push(Self(s), s.next));
    }
  }

  lemma SpawnFacts(s: Sched, id: Id)
    requires Safe(s) && id !in s.flags && id !in s.order
    ensures Safe(Spawn(s, id)) && Spawn(s, id).fg == s.fg
    ensures Spawn(s, id).flags[s.fg] == s.flags[s.fg]
    ensures forall x :: x in Spawn(s, id).flags <==> x in s.flags || x == id
  {
    SpawnSafe(s, id);
  }

  lemma ForkInv(s: State, id: Id)
    requires Inv(s) && Ready(s) && id !in s.sched.flags && id !in s.sched.order && s.next > 0
    ensures Inv(s.(sched := Spawn(s.sched, id), next := s.next + 1,
                   stacks := s.stacks[id := Stack([GLOBAL, s.next], 1, [], false, false)]))
  {
    hide Safe, Spawn;
    SpawnFacts(s.sched, id);
    assert AllMatched(s.stacks, s.next + 1) by {
      NextInv(s);
    }
    assert Matched(Stack([GLOBAL, s.next], 1, [], false, false), s.next + 1);
    hide Matched;
  }

  lemma EndYielding(s: State)
    requires Inv(s) && s.sched.fg != MAIN && Ready(s)
    ensures Yielding(s.(sched := Fibers.Finish(s.sched)))
  {
    hide Matched;
  }

  lemma BlockInv(s: State, b: bool)
    requires Inv(s) && Ready(s)
    ensures Inv(s.(sched := SetBlocked(s.sched, b)))
  {
    BlockSafe(s.sched, b);
    hide Matched;
  }

  lemma StepInv(s: State, l: Label, t: State)
    requires Inv(s) && Step(s, l) == Some(t)
    ensures Inv(t)
  {
    hide Matched, Deliver, Safe, Inv, OnRes, Push, Pop, Yielded, BeginStep, SetPhase, Spawn, Swept, Yielding;
    var st := Self(s);
    MatchedSelf(s);
    if st.asleep {
      SleepMatched(st, false, s.next);
      SelfInv(s, st.(asleep := false));
      SweptInv(WithSelf(s, st.(asleep := false)));
    } else {
      match l
      case Begin => BeginInv(s);
      case WordsDone =>
        SetPhaseMatched(st, Proc(None), s.next);
        SelfInv(s, SetPhase(st, Proc(None)));
      case Finish(res) =>
        PopMatched(st, s.next);
        SelfInv(s, Pop(st));
        OnResInv(WithSelf(s, Pop(st)), res);
      case Pause =>
        InvYielding(s);
        YieldedInv(s);
      case Block(b) => BlockInv(s, b);
      case Fork(id) =>
        FreshPositive(s);
        ForkInv(s, id);
      case Finally => PhaseInv(s, Proc(Some(s.exit)), false);
      case FinallyEnd => PhaseInv(s, Proc(None), t.exit);
      case Wake =>
      case EndFiber =>
        EndYielding(s);
        YieldedInv(s.(sched := Fibers.Finish(s.sched)));
      case Join =>
        TickInv(s, s.sched.qstep, true);
        var u := s.(exit := true);
        assert u == s.(sched := s.sched.(qstep := s.sched.qstep), exit := true);
        InvYielding(u);
        YieldedInv(u);
    }
  }

  lemma FreshPositive(s: State)
    requires Inv(s) && Ready(s)
    ensures s.next > 0
  {
    assert Matched(Self(s), s.next);
  }

  lemma PhaseInv(s: State, p: Phase, exit: bool)
    requires Inv(s) && Ready(s) && Self(s).acts != []
    ensures Inv(WithSelf(s, SetPhase(Self(s), p)).(exit := exit))
  {
    hide Matched, Safe, SetPhase, Inv;
    MatchedSelf(s);
    SetPhaseMatched(Self(s), p, s.next);
    SelfInv(s, SetPhase(Self(s), p));
    var t := WithSelf(s, SetPhase(Self(s), p));
    TickInv(t, t.sched.qstep, exit);
    assert t.(exit := exit) == t.(sched := t.sched.(qstep := t.sched.qstep), exit := exit);
  }

  lemma {:induction false} RunInv(s: State, ls: seq<Label>)
    requires Inv(s) && CanRun(s, ls)
    ensures Inv(After(s, ls))
    decreases |ls|
  {
    hide Inv, Step;
    if ls != [] {
      StepInv(s, ls[0], Step(s, ls[0]).value);
      RunInv(Step(s, ls[0]).value, ls[1..]);
    }
  }

  // ------------------------------------------------------- statements and frames

  /** The same frames for the same statements; flags and phases may differ. */
  predicate SameFrames(a: Stack, b: Stack) {
    a.chain == b.chain && a.depth == b.depth && |a.acts| == |b.acts|
  }

  /** What a change by the running fiber may do to fiber id's stack, if the
      fiber is still there. */
  predicate Kept(s: State, t: State, id: Id) {
    id in t.stacks ==>
      && id in s.stacks
      && SameFrames(s.stacks[id], t.stacks[id])
      && (id != s.sched.fg ==> t.stacks[id] == s.stacks[id])
  }

  lemma YieldedKeeps(s: State, id: Id)
    requires Ready(s)
    ensures Kept(s, Yielded(s), id) && Yielded(s).exit == s.exit
  {
    hide Target, Swap, Reap;
  }

  lemma OnResKeeps(s: State, res: Res, id: Id)
    requires Ready(s)
    ensures Kept(s, OnRes(s, res), id)
    ensures OnRes(s, res).exit == (s.exit || res == Exit)
  {
    var r := if res == Yield then Ok else res;
    var t := WithSelf(s, Deliver(Self(s), r));
    var u := t.(sched := s.sched.(qstep := Tick(s.sched.qstep)));
    assert Kept(s, t, id) && Kept(s, u, id);
    if res == Yield {
      YieldedKeeps(t, id);
    } else if res != Exit && u.sched.qstep == QUANTUM {
      YieldedKeeps(u, id);
    }
    hide Yielded, Deliver;
  }

  predicate Pushed(a: Stack, b: Stack) {
    && b.depth == a.depth + 1 && |b.acts| == |a.acts| + 1
    && |b.chain| == |a.chain| + 1 && b.chain[..|a.chain|] == a.chain
  }

  /** One step and one fiber that is there before and after: only the running
      fiber's frames change, by one frame, with a statement that begins or ends. */
  lemma StepFrames(s: State, l: Label, t: State, id: Id)
    requires Inv(s) && Step(s, l) == Some(t) && id in s.stacks && id in t.stacks
    ensures id != s.sched.fg ==> t.stacks[id] == s.stacks[id]
    ensures SameFrames(s.stacks[id], t.stacks[id])
         || (l == Begin && !s.exit && s.stacks[id].depth < MAX_NESTING && Pushed(s.stacks[id], t.stacks[id]))
         || (l.Finish? && Pushed(t.stacks[id], s.stacks[id]))
  {
    hide Safe, Swap, Reap, Spawn, Yielded, OnRes, Matched;
    var st := Self(s);
    if !st.asleep {
      match l
      case Begin =>
        if !s.exit && st.depth >= MAX_NESTING {
          OnResKeeps(s, Err, id);
        }
      case Finish(res) =>
        PopPushed(s);
        OnResKeeps(WithSelf(s, Pop(st)), res, id);
        hide Pop;
      case Pause => YieldedKeeps(s, id);
      case EndFiber => YieldedKeeps(s.(sched := Fibers.Finish(s.sched)), id);
      case Join => YieldedKeeps(s.(exit := true), id);
      case _ =>
    }
  }

  lemma PopPushed(s: State)
    requires Inv(s) && Ready(s) && Self(s).acts != []
    ensures Self(s).chain != [] && Self(s).depth > 0
    ensures Pushed(Pop(Self(s)), Self(s))
  {
    assert Matched(Self(s), s.next);
  }

  /** Fiber id is there all along, and never ends the statement that was its
      a-th when the run began. */
  ghost predicate Within(s: State, ls: seq<Label>, id: Id, a: nat)
    requires CanRun(s, ls)
    decreases |ls|
  {
    && id in s.stacks && |s.stacks[id].acts| >= a
    && (ls != [] ==> Within(Step(s, ls[0]).value, ls[1..], id, a))
  }

  lemma {:induction false} PrefixKept(s: State, ls: seq<Label>, id: Id, a: nat)
    requires Inv(s) && CanRun(s, ls) && Within(s, ls, id, a)
    ensures id in After(s, ls).stacks && |After(s, ls).stacks[id].acts| >= a
    ensures |s.stacks[id].chain| >= a + 2 && |After(s, ls).stacks[id].chain| >= a + 2
    ensures After(s, ls).stacks[id].chain[..a + 2] == s.stacks[id].chain[..a + 2]
    decreases |ls|
  {
    hide Inv, Step, SameFrames, Pushed;
    ChainLength(s, id);
    if ls != [] {
      var t := Step(s, ls[0]).value;
      StepInv(s, ls[0], t);
      PrefixKept(t, ls[1..], id, a);
      StepFrames(s, ls[0], t, id);
      PrefixOfPushed(s.stacks[id], t.stacks[id], a + 2);
    }
  }

  lemma ChainLength(s: State, id: Id)
    requires Inv(s) && id in s.stacks
    ensures |s.stacks[id].chain| == |s.stacks[id].acts| + 2 == s.stacks[id].depth + 1
    ensures 1 <= s.stacks[id].depth <= MAX_NESTING
  {
    assert Matched(s.stacks[id], s.next);
  }

  lemma PrefixOfPushed(a: Stack, b: Stack, n: nat)
    requires n <= |a.chain| && n <= |b.chain|
    requires SameFrames(a, b) || Pushed(a, b) || Pushed(b, a)
    ensures a.chain[..n] == b.chain[..n]
  {
    if Pushed(a, b) {
      assert b.chain[..n] == b.chain[..|a.chain|][..n];
    } else if Pushed(b, a) {
      assert a.chain[..n] == a.chain[..|b.chain|][..n];
    }
  }

  /** s is reached by the run ls from a fresh interpreter s0. */
  ghost predicate Reached(s0: State, ls: seq<Label>, s: State) {
    Initial(s0) && CanRun(s0, ls) && s == After(s0, ls)
  }

  lemma ReachedInv(s0: State, ls: seq<Label>, s: State)
    requires Reached(s0, ls, s)
    ensures Inv(s)
  {
    hide Inv, CanRun, After;
    InitInv(s0);
    RunInv(s0, ls);
  }

  /** A statement leaves its own fiber's frame chain and depth as it found them,
      whatever its result, its nested statements and the fibers that ran in
      between: between any two moments at which the fiber has the same
      statements in progress, the chains are the same frames. */
  lemma StatementRestores(s0: State, before: seq<Label>, s: State, ls: seq<Label>, id: Id)
    requires Reached(s0, before, s) && CanRun(s, ls) && id in s.stacks
    requires Within(s, ls, id, |s.stacks[id].acts|)
    requires id in After(s, ls).stacks && |After(s, ls).stacks[id].acts| == |s.stacks[id].acts|
    ensures After(s, ls).stacks[id].chain == s.stacks[id].chain
    ensures After(s, ls).stacks[id].depth == s.stacks[id].depth
  {
    hide Inv, After, Within, CanRun, Reached;
    ReachedInv(s0, before, s);
    var a, b := s.stacks[id], After(s, ls).stacks[id];
    PrefixKept(s, ls, id, |a.acts|);
    RunInv(s, ls);
    ChainLength(s, id);
    ChainLength(After(s, ls), id);
    assert a.chain == a.chain[..|a.acts| + 2] && b.chain == b.chain[..|a.acts| + 2];
  }

  /** On every run depth counts the fiber's own frames and stays within the
      limit, and the chain ends at the global frame. */
  lemma DepthCounts(s: State, ls: seq<Label>, id: Id)
    requires Initial(s) && CanRun(s, ls) && id in After(s, ls).stacks
    ensures var st := After(s, ls).stacks[id];
      && st.depth == |st.chain| - 1 && 1 <= st.depth <= 64
      && |st.acts| == st.depth - 1
      && st.chain[0] == GLOBAL
  {
    InitInv(s);
    RunInv(s, ls);
    hide After, CanRun, Initial;
    assert Matched(After(s, ls).stacks[id], After(s, ls).next);
    ChainLength(After(s, ls), id);
  }

  // ------------------------------------------------------------------- exiting

  predicate NoFinally(ls: seq<Label>) {
    forall i :: 0 <= i < |ls| ==> ls[i] != Finally && ls[i] != FinallyEnd
  }

  lemma StepExit(s: State, l: Label, t: State)
    requires Inv(s) && Step(s, l) == Some(t) && s.exit && l != Finally && l != FinallyEnd
    ensures t.exit
  {
    hide Safe, Swap, Reap, Spawn, Yielded, OnRes, Matched;
    var st := Self(s);
    if !st.asleep {
      match l
      case Finish(res) => OnResKeeps(WithSelf(s, Pop(st)), res, MAIN);
      case Pause => YieldedKeeps(s, MAIN);
      case EndFiber => YieldedKeeps(s.(sched := Fibers.Finish(s.sched)), MAIN);
      case Join => YieldedKeeps(s.(exit := true), MAIN);
      case _ =>
    }
  }

  /** Only a new fiber appears, with just its first frame. */
  lemma StepNew(s: State, l: Label, t: State, id: Id)
    requires Inv(s) && Step(s, l) == Some(t) && id in t.stacks && id !in s.stacks
    ensures t.stacks[id].depth == 1
  {
    hide Safe, Swap, Reap, Spawn, Yielded, OnRes, Matched;
    var st := Self(s);
    if !st.asleep {
      match l
      case Begin =>
        if !s.exit && st.depth >= MAX_NESTING {
          OnResKeeps(s, Err, id);
        }
      case Finish(res) => OnResKeeps(WithSelf(s, Pop(st)), res, id);
      case Pause => YieldedKeeps(s, id);
      case EndFiber => YieldedKeeps(s.(sched := Fibers.Finish(s.sched)), id);
      case Join => YieldedKeeps(s.(exit := true), id);
      case _ =>
    }
  }

  lemma {:induction false} ExitKept(s: State, ls: seq<Label>, id: Id)
    requires Inv(s) && CanRun(s, ls) && s.exit && NoFinally(ls)
    ensures After(s, ls).exit
    ensures id in After(s, ls).stacks ==>
              After(s, ls).stacks[id].depth <= if id in s.stacks then s.stacks[id].depth else 1
    decreases |ls|
  {
    hide Inv, Step;
    if ls != [] {
      var t := Step(s, ls[0]).value;
      StepInv(s, ls[0], t);
      StepExit(s, ls[0], t);
      assert forall i :: 0 <= i < |ls[1..]| ==> ls[1..][i] == ls[i + 1];
      ExitKept(t, ls[1..], id);
      if id in s.stacks {
        ChainLength(s, id);
      }
      if id in t.stacks {
        if id in s.stacks {
          StepFrames(s, ls[0], t, id);
        } else {
          StepNew(s, ls[0], t, id);
        }
      }
    }
  }

  /** Once exit is set and no finally block runs, exit stays set and no fiber's
      depth grows. */
  lemma ExitDrains(s0: State, before: seq<Label>, s: State, ls: seq<Label>, id: Id)
    requires Reached(s0, before, s) && CanRun(s, ls) && s.exit && NoFinally(ls)
    ensures After(s, ls).exit
    ensures id in After(s, ls).stacks ==>
              After(s, ls).stacks[id].depth <= if id in s.stacks then s.stacks[id].depth else 1
  {
    hide Inv, After, CanRun, Reached;
    ReachedInv(s0, before, s);
    ExitKept(s, ls, id);
  }

  // ------------------------------------------------------------------- joining

  /** How much unwinding is left: a statement that evaluates words may still
      enter its procedure or be stopped, and then ends; a script may still halt,
      and its fiber then ends. */
  function ActRank(a: Act): nat {
    match a.phase
    case Words => 4
    case Proc(_) => 3
    case Owes(_) => 2
  }

  function ActsRank(acts: seq<Act>): nat {
    if acts == [] then 0 else ActsRank(acts[..|acts| - 1]) + ActRank(acts[|acts| - 1])
  }

  function Rank(st: Stack): nat {
    ActsRank(st.acts) + if st.halted then 1 else 2
  }

  function RankOf(flags: map<Id, Flags>, stacks: map<Id, Stack>, id: Id): nat {
    if id in flags && !flags[id].done && id in stacks then Rank(stacks[id]) else 0
  }

  function Total(ids: seq<Id>, flags: map<Id, Flags>, stacks: map<Id, Stack>): nat {
    if ids == [] then 0 else RankOf(flags, stacks, ids[0]) + Total(ids[1..], flags, stacks)
  }

  /** The unwinding left over all live fibers. */
  function ToUnwind(s: State): nat {
    Total(s.sched.order, s.sched.flags, s.stacks)
  }

  lemma {:induction false} TotalFrame(ids: seq<Id>, f: map<Id, Flags>, a: map<Id, Stack>,
                                      g: map<Id, Flags>, b: map<Id, Stack>)
    requires forall id :: id in ids ==> RankOf(f, a, id) == RankOf(g, b, id)
    ensures Total(ids, f, a) == Total(ids, g, b)
  {
    hide RankOf;
    if ids != [] {
      TotalFrame(ids[1..], f, a, g, b);
    }
  }

  lemma {:induction false} TotalOne(ids: seq<Id>, f: map<Id, Flags>, a: map<Id, Stack>,
                                    g: map<Id, Flags>, b: map<Id, Stack>, x: Id)
    requires Distinct(ids) && x in ids
    requires forall id :: id in ids && id != x ==> RankOf(f, a, id) == RankOf(g, b, id)
    ensures Total(ids, g, b) + RankOf(f, a, x) == Total(ids, f, a) + RankOf(g, b, x)
  {
    hide RankOf;
    if ids[0] == x {
      forall id | id in ids[1..]
        ensures RankOf(f, a, id) == RankOf(g, b, id)
      {
        var i :| 0 <= i < |ids| - 1 && ids[1..][i] == id;
        assert ids[i + 1] == id && ids[0] != ids[i + 1];
      }
      TotalFrame(ids[1..], f, a, g, b);
    } else {
      TotalOne(ids[1..], f, a, g, b, x);
    }
  }

  lemma {:induction false} TotalLive(ids: seq<Id>, f: map<Id, Flags>, a: map<Id, Stack>)
    ensures Total(Live(f, ids), f, a) == Total(ids, f, a)
  {
    if ids != [] {
      TotalLive(ids[1..], f, a);
    }
  }

  lemma SweptUnwinds(s: State)
    ensures ToUnwind(Swept(s)) == ToUnwind(s)
  {
    var t := Swept(s);
    TotalLive(s.sched.order, s.sched.flags, s.stacks);
    LiveMembers(s.sched.flags, s.sched.order);
    TotalFrame(t.sched.order, s.sched.flags, s.stacks, t.sched.flags, t.stacks);
    hide Total, Live;
  }

  lemma SelfUnwinds(s: State, st: Stack)
    requires Ready(s) && Distinct(s.sched.order) && !s.sched.flags[s.sched.fg].done
    ensures ToUnwind(WithSelf(s, st)) + Rank(Self(s)) == ToUnwind(s) + Rank(st)
  {
    var t := WithSelf(s, st);
    TotalOne(s.sched.order, s.sched.flags, s.stacks, t.sched.flags, t.stacks, s.sched.fg);
    hide Total, Rank, Distinct;
  }

  lemma YieldedUnwinds(s: State)
    requires Ready(s) && Distinct(s.sched.order)
    ensures ToUnwind(Yielded(s)) == ToUnwind(s)
  {
    var t := Target(s.sched);
    if t.Some? && t.value in s.sched.flags {
      var u := Yielded(s);
      forall id | id in s.sched.order
        ensures RankOf(s.sched.flags, s.stacks, id) == RankOf(u.sched.flags, u.stacks, id)
      {
      }
      TotalFrame(s.sched.order, s.sched.flags, s.stacks, u.sched.flags, u.stacks);
    } else {
      SweptUnwinds(s);
    }
    hide Target, Total, RankOf, Swept;
  }

  lemma RankTop(acts: seq<Act>, a: Act)
    requires acts != []
    ensures ActsRank(acts[|acts| - 1 := a]) + ActRank(acts[|acts| - 1]) == ActsRank(acts) + ActRank(a)
  {
    var r := acts[|acts| - 1 := a];
    assert r[..|r| - 1] == acts[..|acts| - 1];
    hide ActRank;
  }

  /** A result handed on leaves no more to unwind, but for a script that is
      revived by a good result; */
  lemma DeliverUnwinds(st: Stack, res: Res)
    ensures Rank(Deliver(st, res)) <= Rank(st) + (if st.acts == [] && res == Ok && st.halted then 1 else 0)
    ensures res == Exit && (if st.acts == [] then !st.halted else st.acts[|st.acts| - 1].phase.Words?) ==>
              Rank(Deliver(st, res)) < Rank(st)
  {
    if st.acts != [] {
      var k := |st.acts| - 1;
      RankTop(st.acts, st.acts[k].(phase := Owes(res)));
      hide ActsRank;
    }
  }

  /** and a statement that ends leaves less. */
  lemma PopUnwinds(st: Stack, res: Res)
    requires MayFinish(st, res)
    ensures Rank(Pop(st)) + 2 <= Rank(st)
    ensures Rank(Deliver(Pop(st), if res == Yield then Ok else res)) < Rank(st)
  {
    DeliverUnwinds(Pop(st), if res == Yield then Ok else res);
  }

  /** qstep and exit do not matter. */
  lemma SameToUnwind(s: State, q: Byte, exit: bool)
    ensures ToUnwind(s.(sched := s.sched.(qstep := q), exit := exit)) == ToUnwind(s)
    ensures ToUnwind(s.(sched := s.sched.(qstep := q))) == ToUnwind(s)
    ensures ToUnwind(s.(exit := exit)) == ToUnwind(s)
  {
  }

  lemma OnResUnwinds(s: State, res: Res)
    requires Ready(s) && Distinct(s.sched.order) && !s.sched.flags[s.sched.fg].done
    ensures ToUnwind(OnRes(s, res)) + Rank(Self(s)) ==
            ToUnwind(s) + Rank(Deliver(Self(s), if res == Yield then Ok else res))
  {
    hide ToUnwind, Yielded, Deliver, Rank, Distinct, Tick;
    var st := Deliver(Self(s), if res == Yield then Ok else res);
    var t := WithSelf(s, st);
    SelfUnwinds(s, st);
    if res == Yield {
      YieldedUnwinds(t);
    } else {
      var u := t.(sched := s.sched.(qstep := Tick(s.sched.qstep)));
      assert u == t.(sched := t.sched.(qstep := Tick(s.sched.qstep)));
      SameToUnwind(t, Tick(s.sched.qstep), true);
      SameToUnwind(u, u.sched.qstep, true);
      YieldedUnwinds(u);
    }
  }

  /** The step brings the running fiber nearer to its end. */
  predicate Unwinds(s: State, l: Label)
    requires Ready(s)
  {
    var st := Self(s);
    match l
    case Finish(_) => true
    case WordsDone => true
    case EndFiber => true
    case Begin => if st.acts == [] then !st.halted else st.acts[|st.acts| - 1].phase.Words?
    case _ => false
  }

  predicate Unwinding(l: Label) {
    !l.Finally? && !l.FinallyEnd? && !l.Fork?
  }

  lemma EndUnwinds(s: State)
    requires Inv(s) && Ready(s)
    ensures ToUnwind(s.(sched := Fibers.Finish(s.sched))) + 1 <= ToUnwind(s)
  {
    var t := s.(sched := Fibers.Finish(s.sched));
    assert Distinct(s.sched.order);
    TotalOne(s.sched.order, s.sched.flags, s.stacks, t.sched.flags, t.stacks, s.sched.fg);
    hide Total, Inv, Distinct;
  }

  lemma BlockUnwinds(s: State, b: bool)
    requires Inv(s) && Ready(s)
    ensures ToUnwind(s.(sched := SetBlocked(s.sched, b))) == ToUnwind(s)
  {
    var t := s.(sched := SetBlocked(s.sched, b));
    TotalFrame(s.sched.order, s.sched.flags, s.stacks, t.sched.flags, t.stacks);
    hide Total, Inv;
  }

  lemma InvFacts(s: State)
    requires Inv(s) && Ready(s)
    ensures Distinct(s.sched.order) && !s.sched.flags[s.sched.fg].done
  {
    hide Matched;
  }

  /** While exiting, no step adds to what is left to unwind. */
  lemma StepUnwinds(s: State, l: Label, t: State)
    requires Inv(s) && s.exit && Step(s, l) == Some(t) && Unwinding(l)
    ensures ToUnwind(t) + (if Unwinds(s, l) then 1 else 0) <= ToUnwind(s)
  {
    hide Inv, ToUnwind, Deliver, OnRes, Yielded, Pop, Distinct, Rank, Swept, Total;
    var st := Self(s);
    InvFacts(s);
    if st.asleep {
      SelfUnwinds(s, st.(asleep := false));
      AsleepRank(st);
      SweptUnwinds(WithSelf(s, st.(asleep := false)));
      hide WithSelf;
    } else {
      match l
      case Begin =>
        DeliverUnwinds(st, Exit);
        SelfUnwinds(s, Deliver(st, Exit));
      case WordsDone =>
        SelfUnwinds(s, SetPhase(st, Proc(None)));
        EnterUnwinds(st);
      case Finish(res) =>
        PopUnwinds(st, res);
        SelfUnwinds(s, Pop(st));
        OnResUnwinds(WithSelf(s, Pop(st)), res);
      case Pause => YieldedUnwinds(s);
      case Block(b) => BlockUnwinds(s, b);
      case EndFiber =>
        EndUnwinds(s);
        YieldedUnwinds(s.(sched := Fibers.Finish(s.sched)));
      case Join =>
        SameToUnwind(s, s.sched.qstep, true);
        YieldedUnwinds(s.(exit := true));
      case _ =>
    }
  }

  lemma AsleepRank(st: Stack)
    ensures Rank(st.(asleep := false)) == Rank(st)
  {
  }

  lemma EnterUnwinds(st: Stack)
    requires st.acts != [] && st.acts[|st.acts| - 1].phase.Words?
    ensures Rank(SetPhase(st, Proc(None))) + 1 == Rank(st)
  {
    var k := |st.acts| - 1;
    RankTop(st.acts, st.acts[k].(phase := Proc(None)));
    hide ActsRank;
  }

  ghost function Unwound(s: State, ls: seq<Label>): nat
    requires CanRun(s, ls)
    decreases |ls|
  {
    if ls == [] then 0
    else (if Unwinds(s, ls[0]) then 1 else 0) + Unwound(Step(s, ls[0]).value, ls[1..])
  }

  /** Once exit is set, and while no finally block runs and no fiber is started,
      statements end, scripts halt and fibers end only so often: what is left to
      unwind bounds them, on every run. */
  lemma {:induction false} UnwoundBound(s: State, ls: seq<Label>)
    requires Inv(s) && CanRun(s, ls) && s.exit && forall i :: 0 <= i < |ls| ==> Unwinding(ls[i])
    ensures ToUnwind(After(s, ls)) + Unwound(s, ls) <= ToUnwind(s)
    decreases |ls|
  {
    hide Inv, Step, ToUnwind, Unwinds, Unwinding;
    if ls != [] {
      var t := Step(s, ls[0]).value;
      StepInv(s, ls[0], t);
      IsUnwinding(ls[0]);
      StepExit(s, ls[0], t);
      StepUnwinds(s, ls[0], t);
      assert forall i :: 0 <= i < |ls[1..]| ==> ls[1..][i] == ls[i + 1];
      UnwoundBound(t, ls[1..]);
    }
  }

  lemma IsUnwinding(l: Label)
    requires Unwinding(l)
    ensures l != Finally && l != FinallyEnd
  {
  }

  /** No finally block of the fiber is running. */
  predicate NoSaved(st: Stack) {
    forall i :: 0 <= i < |st.acts| && st.acts[i].phase.Proc? ==> st.acts[i].phase.saved == None
  }

  /** b6b_join has begun: the main fiber's script is over and exit is set. */
  ghost predicate Joining(s: State) {
    && Inv(s) && s.exit && MAIN in s.stacks && s.stacks[MAIN].acts == []
    && forall id :: id in s.stacks ==> NoSaved(s.stacks[id])
  }

  /** The steps of a join: the main fiber only yields, and no other fiber enters
      or leaves a finally block.  All else is allowed: a fiber may be in the
      middle of an offloaded call and yield, block and unblock, a procedure may
      go on after it was told to exit, and one that had its words evaluated may
      still start a fiber. */
  predicate JoinStep(s: State, l: Label)
    requires Ready(s)
  {
    if s.sched.fg == MAIN then l == Wake || (l == Join && Target(s.sched).Some?)
    else !l.Finally? && !l.FinallyEnd?
  }

  ghost predicate JoinRun(s: State, ls: seq<Label>)
    decreases |ls|
  {
    ls == [] ||
    (var t := Step(s, ls[0]); t.Some? && JoinStep(s, ls[0]) && JoinRun(t.value, ls[1..]))
  }

  /** A procedure begins a statement, which is answered with EXIT at once. */
  predicate Refused(s: State, l: Label)
    requires Ready(s)
  {
    l == Begin && !Unwinds(s, l)
  }

  /** What a step that unwinds nothing may cost: a yield inside a procedure lets
      others walk, and a new fiber has to end. */
  function Cost(l: Label): nat {
    match l
    case Pause => 4
    case Block(_) => 1
    case Fork(_) => 9
    case _ => 0
  }

  function Spent(ls: seq<Label>): nat {
    if ls == [] then 0 else Cost(ls[0]) + Spent(ls[1..])
  }

  ghost function Refusals(s: State, ls: seq<Label>): nat
    requires JoinRun(s, ls)
    decreases |ls|
  {
    if ls == [] then 0
    else (if Refused(s, ls[0]) then 1 else 0) + Refusals(Step(s, ls[0]).value, ls[1..])
  }

  /** Procedures hand EXIT on: one whose statement is refused ends next. */
  ghost predicate HandsOn(s: State, ls: seq<Label>)
    requires JoinRun(s, ls)
    decreases |ls|
  {
    ls == [] ||
    (HandsOn(Step(s, ls[0]).value, ls[1..]) && (Refused(s, ls[0]) ==> |ls| > 1 && ls[1].Finish?))
  }

  /** The rest of the walk of a fiber that was swapped in. */
  function Walk(s: State): nat
    requires Ready(s)
  {
    (if s.sched.fg == MAIN then 2 else 0) + if Self(s).asleep then 1 else 0
  }

  function JoinLeft(s: State): nat
    requires Ready(s)
  {
    4 * ToUnwind(s) + Walk(s)
  }

  lemma NothingNew(s: State, l: Label, t: State, id: Id)
    requires Inv(s) && Step(s, l) == Some(t) && id in t.stacks
    ensures id in s.stacks || t.stacks[id].acts == []
  {
    hide Safe, Swap, Reap, Yielded, OnRes, Matched;
    var st := Self(s);
    if !st.asleep {
      match l
      case Begin => OnResKeeps(s, Err, id);
      case Finish(res) => OnResKeeps(WithSelf(s, Pop(st)), res, id);
      case Pause => YieldedKeeps(s, id);
      case EndFiber => YieldedKeeps(s.(sched := Fibers.Finish(s.sched)), id);
      case Join => YieldedKeeps(s.(exit := true), id);
      case _ =>
    }
  }

  /** No finally block is entered. */
  predicate Unsaved(s: State, t: State) {
    s.sched.fg in s.stacks && s.sched.fg in t.stacks && NoSaved(s.stacks[s.sched.fg]) ==>
      NoSaved(t.stacks[s.sched.fg])
  }

  lemma YieldedUnsaved(s: State)
    requires Ready(s)
    ensures Unsaved(s, Yielded(s))
  {
    hide Target, Swap, Reap;
  }

  lemma DeliverUnsaved(st: Stack, res: Res)
    requires NoSaved(st)
    ensures NoSaved(Deliver(st, res))
  {
  }

  lemma OnResUnsaved(s: State, res: Res)
    requires Ready(s)
    ensures Unsaved(s, OnRes(s, res))
  {
    hide Yielded, NoSaved, Deliver;
    var st := Deliver(Self(s), if res == Yield then Ok else res);
    if NoSaved(Self(s)) {
      DeliverUnsaved(Self(s), if res == Yield then Ok else res);
    }
    var t := WithSelf(s, st);
    YieldedUnsaved(t);
    YieldedUnsaved(t.(sched := s.sched.(qstep := Tick(s.sched.qstep))));
  }

  lemma StepUnsaved(s: State, l: Label, t: State)
    requires Inv(s) && s.exit && Step(s, l) == Some(t) && !l.Finally? && !l.FinallyEnd?
    ensures Unsaved(s, t)
  {
    hide Inv, Swap, Reap, Yielded, OnRes, NoSaved, Deliver, SetPhase, Pop;
    var st := Self(s);
    if !st.asleep {
      match l
      case Begin =>
        if NoSaved(st) {
          DeliverUnsaved(st, Exit);
        }
      case WordsDone =>
        if NoSaved(st) {
          EnterUnsaved(st);
        }
      case Finish(res) =>
        if NoSaved(st) {
          PopUnsaved(st);
        }
        OnResUnsaved(WithSelf(s, Pop(st)), res);
      case Pause => YieldedUnsaved(s);
      case EndFiber => YieldedUnsaved(s.(sched := Fibers.Finish(s.sched)));
      case Join => YieldedUnsaved(s.(exit := true));
      case _ =>
    } else {
      AwakeUnsaved(st);
    }
  }

  lemma EnterUnsaved(st: Stack)
    requires NoSaved(st) && st.acts != []
    ensures NoSaved(SetPhase(st, Proc(None)))
  {
  }

  lemma PopUnsaved(st: Stack)
    requires NoSaved(st) && st.acts != [] && st.chain != [] && st.depth > 0
    ensures NoSaved(Pop(st))
  {
  }

  lemma AwakeUnsaved(st: Stack)
    ensures NoSaved(st.(asleep := false)) <==> NoSaved(st)
  {
  }

  lemma MainStays(s: State)
    requires Inv(s)
    ensures MAIN in s.stacks && Ready(s)
  {
    hide Matched;
  }

  lemma JoinLabel(s: State, l: Label)
    requires Ready(s) && JoinStep(s, l)
    ensures !l.Finally? && !l.FinallyEnd?
    ensures s.sched.fg == MAIN ==> l == Wake || l == Join
  {
  }

  /** A join goes on as a join. */
  lemma JoiningKept(s: State, l: Label, t: State)
    requires Joining(s) && Ready(s) && (JoinStep(s, l) || l == Join) && Step(s, l) == Some(t)
    ensures Joining(t) && Ready(t)
  {
    hide Inv, Step, JoinStep, NoSaved, Unsaved, Ready;
    if l != Join {
      JoinLabel(s, l);
    }
    StepInv(s, l, t);
    MainStays(t);
    StepExit(s, l, t);
    MainIdle(s, l, t);
    StepFrames(s, l, t, MAIN);
    MainActs(s.stacks[MAIN], t.stacks[MAIN]);
    StepUnsaved(s, l, t);
    forall id | id in t.stacks
      ensures NoSaved(t.stacks[id])
    {
      NothingNew(s, l, t, id);
      if id in s.stacks {
        StepFrames(s, l, t, id);
        IsUnsaved(s, t, id);
      } else {
        NoActsNoSaved(t.stacks[id]);
      }
    }
  }

  lemma NoActsNoSaved(st: Stack)
    requires st.acts == []
    ensures NoSaved(st)
  {
  }

  /** While exiting no statement is pushed. */
  lemma MainIdle(s: State, l: Label, t: State)
    requires s.exit && Step(s, l) == Some(t)
    ensures !(l == Begin && !s.exit)
  {
  }

  lemma MainActs(a: Stack, b: Stack)
    ensures a.acts == [] && SameFrames(a, b) ==> b.acts == []
    ensures a.acts == [] ==> !Pushed(b, a)
  {
  }

  lemma IsUnsaved(s: State, t: State, id: Id)
    requires Unsaved(s, t) && id in s.stacks && id in t.stacks && NoSaved(s.stacks[id])
    requires id != s.sched.fg ==> t.stacks[id] == s.stacks[id]
    ensures NoSaved(t.stacks[id])
  {
    hide NoSaved;
  }

  /** The first yield of b6b_join starts one, if no finally block is running. */
  lemma JoinBegins(s0: State, before: seq<Label>, s: State, t: State)
    requires Reached(s0, before, s) && Step(s, Join) == Some(t)
    requires forall id :: id in s.stacks ==> NoSaved(s.stacks[id])
    ensures Joining(t) && Ready(t)
  {
    hide Inv, Yielded, NoSaved, Swept;
    ReachedInv(s0, before, s);
    var u := s.(exit := true);
    TickInv(s, s.sched.qstep, true);
    assert u == s.(sched := s.sched.(qstep := s.sched.qstep), exit := true);
    assert Step(u, Join) == Some(t) && Joining(u);
    JoiningKept(u, Join, t);
  }

  lemma WakeWalks(s: State, t: State)
    requires Inv(s) && Ready(s) && Step(s, Wake) == Some(t) && Ready(t)
    ensures Walk(t) + 1 == Walk(s)
  {
    hide Matched, Live;
  }

  lemma JoinWalks(s: State, t: State)
    requires Inv(s) && Ready(s) && Step(s, Join) == Some(t) && Ready(t) && Target(s.sched).Some?
    ensures Walk(t) + 1 <= Walk(s)
  {
    TargetIff(s.sched);
    hide Matched, Live, Target;
  }

  lemma {:induction false} TotalConcat(a: seq<Id>, b: seq<Id>, f: map<Id, Flags>, st: map<Id, Stack>)
    ensures Total(a + b, f, st) == Total(a, f, st) + Total(b, f, st)
  {
    hide RankOf;
    if a == [] {
      assert a + b == b;
    } else {
      assert (a + b)[1..] == a[1..] + b;
      TotalConcat(a[1..], b, f, st);
    }
  }

  lemma TotalInsert(a: seq<Id>, x: Id, b: seq<Id>, f: map<Id, Flags>, st: map<Id, Stack>,
                    g: map<Id, Flags>, ss: map<Id, Stack>)
    requires forall id :: id in a || id in b ==> RankOf(f, st, id) == RankOf(g, ss, id)
    ensures Total(a + [x] + b, g, ss) == Total(a + b, f, st) + RankOf(g, ss, x)
  {
    hide Total, RankOf;
    TotalConcat(a, b, f, st);
    TotalConcat(a + [x], b, g, ss);
    TotalConcat(a, [x], g, ss);
    TotalFrame(a, f, st, g, ss);
    TotalFrame(b, f, st, g, ss);
    TotalSingle(x, g, ss);
  }

  lemma Cut<T>(o: seq<T>, k: nat)
    requires k < |o|
    ensures o == o[..k + 1] + o[k + 1..]
    ensures forall x :: x in o[..k + 1] || x in o[k + 1..] ==> x in o
  {
  }

  /** A new fiber has two steps to go: its script halts and it ends. */
  lemma ForkUnwinds(s: State, id: Id, t: State)
    requires Inv(s) && Ready(s) && Step(s, Fork(id)) == Some(t)
    ensures ToUnwind(t) == ToUnwind(s) + 2 && t.sched.fg == s.sched.fg && t.stacks[s.sched.fg] == Self(s)
  {
    hide Inv, Total, Distinct;
    var k := IndexOf(s.sched.order, s.sched.fg);
    var (a, b) := (s.sched.order[..k + 1], s.sched.order[k + 1..]);
    Cut(s.sched.order, k);
    assert t.sched.order == a + [id] + b;
    assert RankOf(t.sched.flags, t.stacks, id) == 2;
    hide Rank;
    TotalInsert(a, id, b, s.sched.flags, s.stacks, t.sched.flags, t.stacks);
  }

  lemma TotalSingle(id: Id, f: map<Id, Flags>, st: map<Id, Stack>)
    ensures Total([id], f, st) == RankOf(f, st, id)
  {
    assert [id][1..] == [];
  }

  lemma ForkWalks(s: State, id: Id, t: State)
    requires Joining(s) && Ready(s) && Step(s, Fork(id)) == Some(t) && Ready(t)
    ensures JoinLeft(t) == JoinLeft(s) + 8
  {
    hide Inv, Step, ToUnwind, NoSaved;
    ForkUnwinds(s, id, t);
  }

  lemma BlockWalks(s: State, b: bool, t: State)
    requires Joining(s) && Ready(s) && Step(s, Block(b)) == Some(t) && Ready(t)
    ensures JoinLeft(t) == JoinLeft(s)
  {
    hide Inv, ToUnwind, NoSaved;
    BlockUnwinds(s, b);
  }

  /** Every step of a join leaves less of it, up to what it costs. */
  lemma JoinStepWalks(s: State, l: Label, t: State)
    requires Joining(s) && Ready(s) && JoinStep(s, l) && Step(s, l) == Some(t) && Ready(t)
    ensures JoinLeft(t) + 1 <= JoinLeft(s) + Cost(l) + if Refused(s, l) then 1 else 0
  {
    hide Inv, Step, ToUnwind, NoSaved, Ready;
    JoinLabel(s, l);
    if l.Fork? {
      ForkWalks(s, l.id, t);
    } else if l.Block? {
      BlockWalks(s, l.b, t);
    } else if Refused(s, l) {
      BeginIdle(s, t);
    } else {
      StepUnwinds(s, l, t);
      WalkBounds(s);
      WalkBounds(t);
      if l == Wake {
        WakeWalks(s, t);
      } else if l == Join {
        JoinNeedsMain(s, t);
        JoinWalks(s, t);
      } else {
        OtherLabels(s, l);
      }
    }
    hide Unwinds, JoinStep, Walk;
  }

  lemma OtherLabels(s: State, l: Label)
    requires Ready(s) && !l.Fork? && !l.Block? && l != Wake && l != Join && !l.Finally? && !l.FinallyEnd?
    ensures l == Pause || Unwinds(s, l) || Refused(s, l)
  {
  }

  lemma WalkBounds(s: State)
    requires Ready(s)
    ensures Walk(s) <= 3
  {
  }

  lemma JoinNeedsMain(s: State, t: State)
    requires Ready(s) && Step(s, Join) == Some(t)
    ensures s.sched.fg == MAIN
  {
    hide Yielded;
  }

  lemma BeginIdle(s: State, t: State)
    requires Ready(s) && s.exit && Step(s, Begin) == Some(t) && !Unwinds(s, Begin) && s.sched.fg != MAIN
    ensures t == s
  {
    assert s.stacks[s.sched.fg := s.stacks[s.sched.fg]] == s.stacks;
    hide OnRes;
  }

  /** The yields of a join run out.  However the fibers are ordered and whatever
      they were doing, a join is no longer than what is left to unwind, the
      statements its procedures are refused, and what they spend on yields and
      flag changes inside offloaded calls and on new fibers. */
  lemma {:induction false} JoinBound(s: State, ls: seq<Label>)
    requires Joining(s) && Ready(s) && JoinRun(s, ls)
    ensures |ls| <= JoinLeft(s) + Spent(ls) + Refusals(s, ls)
    decreases |ls|
  {
    hide Joining, Step, JoinLeft, Ready, JoinStep, Refused;
    if ls != [] {
      var t := Step(s, ls[0]).value;
      JoiningKept(s, ls[0], t);
      JoinStepWalks(s, ls[0], t);
      JoinBound(t, ls[1..]);
    }
  }

  /** Where procedures hand EXIT on, refused statements need not be counted:
      every refusal is followed by an end. */
  lemma {:induction false} JoinEnds(s: State, ls: seq<Label>)
    requires Joining(s) && Ready(s) && JoinRun(s, ls) && HandsOn(s, ls)
    ensures |ls| <= 2 * (JoinLeft(s) + Spent(ls))
    ensures ls != [] && ls[0].Finish? ==> |ls| + 1 <= 2 * (JoinLeft(s) + Spent(ls))
    decreases |ls|
  {
    hide Joining, Step, JoinLeft, Ready, JoinStep, Unwinds;
    if ls != [] {
      var t := Step(s, ls[0]).value;
      JoiningKept(s, ls[0], t);
      JoinStepWalks(s, ls[0], t);
      JoinEnds(t, ls[1..]);
      if Refused(s, ls[0]) {
        assert ls[1..][0] == ls[1];
      }
    }
  }

  /** And until then some step is always possible that costs nothing. */
  lemma JoinGoesOn(s: State) returns (l: Label)
    requires Joining(s) && Ready(s)
    requires s.sched.fg != MAIN || Self(s).asleep || Target(s.sched).Some?
    ensures Step(s, l).Some? && JoinStep(s, l)
    ensures Cost(l) == 0 && !Refused(s, l)
  {
    hide Target, OnRes, Yielded, Swept;
    var st := Self(s);
    l := if st.asleep then Wake
         else if s.sched.fg == MAIN then Join
         else if st.acts == [] then EndFiber
         else
           match st.acts[|st.acts| - 1].phase
           case Words => Begin
           case Owes(r) => Finish(r)
           case Proc(_) => Finish(Exit);
    ChainOfSelf(s);
    assert s.sched.fg == MAIN ==> st.acts == [];
    hide Joining, Deliver;
  }

  /** So every join can come to its end, if its procedures may end. */
  lemma {:induction false} JoinCompletes(s: State) returns (ls: seq<Label>)
    requires Joining(s) && Ready(s)
    ensures JoinRun(s, ls) && CanRun(s, ls) && Spent(ls) == 0 && Refusals(s, ls) == 0
    ensures var t := After(s, ls);
      Joining(t) && Ready(t) && t.sched.fg == MAIN && !Self(t).asleep && Target(t.sched) == None
    decreases JoinLeft(s)
  {
    hide Joining, Step, JoinLeft, JoinStep, Refused, Target;
    if s.sched.fg == MAIN && !Self(s).asleep && Target(s.sched) == None {
      ls := [];
    } else {
      var l := JoinGoesOn(s);
      var t := Step(s, l).value;
      JoiningKept(s, l, t);
      JoinStepWalks(s, l, t);
      var rest := JoinCompletes(t);
      ls := [l] + rest;
      assert ls[1..] == rest;
    }
  }

  lemma ChainOfSelf(s: State)
    requires Inv(s) && Ready(s)
    ensures Self(s).chain != [] && Self(s).depth > 0
  {
    assert Matched(Self(s), s.next);
  }

  // ---------------------------------------------------------------- preemption

  /** The step counts a statement: it bumps qstep. */
  predicate Completes(s: State, l: Label)
    requires Ready(s)
  {
    (l.Finish? && l.res != Yield) || (l == Begin && !s.exit && Self(s).depth >= MAX_NESTING)
  }

  /** The step calls b6b_yield. */
  predicate Attempts(s: State, l: Label)
    requires Ready(s)
  {
    || l in {Pause, EndFiber, Join}
    || l == Finish(Yield)
    || (Completes(s, l) && l != Finish(Exit) && Tick(s.sched.qstep) == QUANTUM)
  }

  /** EXIT returns before the quantum is looked at, so a statement that exits as
      the sixteenth passes the attempt by. */
  predicate Skips(s: State, l: Label)
    requires Ready(s)
  {
    l == Finish(Exit) && Tick(s.sched.qstep) == QUANTUM
  }

  ghost predicate Quiet(s: State, ls: seq<Label>)
    requires CanRun(s, ls)
    decreases |ls|
  {
    ls == [] || (!Attempts(s, ls[0]) && Quiet(Step(s, ls[0]).value, ls[1..]))
  }

  ghost function Completed(s: State, ls: seq<Label>): nat
    requires CanRun(s, ls)
    decreases |ls|
  {
    if ls == [] then 0
    else (if Completes(s, ls[0]) then 1 else 0) + Completed(Step(s, ls[0]).value, ls[1..])
  }

  ghost function Skipped(s: State, ls: seq<Label>): nat
    requires CanRun(s, ls)
    decreases |ls|
  {
    if ls == [] then 0
    else (if Skips(s, ls[0]) then 1 else 0) + Skipped(Step(s, ls[0]).value, ls[1..])
  }

  /** How many more completions bring the counter to the quantum. */
  function Room(q: Byte): nat {
    if q < QUANTUM then QUANTUM - q else QUANTUM + 256 - q
  }

  lemma QuietStep(s: State, l: Label, t: State)
    requires Step(s, l) == Some(t) && !Attempts(s, l)
    ensures t.sched.fg == s.sched.fg
    ensures t.sched.qstep == if Completes(s, l) then Tick(s.sched.qstep) else s.sched.qstep
    ensures Completes(s, l) && Tick(s.sched.qstep) == QUANTUM ==> Skips(s, l)
  {
    hide Live, Target, Deliver, Push, SetPhase, Keep;
  }

  lemma RoomBounds(q: Byte)
    ensures 1 <= Room(q) <= 256
  {
  }

  lemma RoomStep(q: Byte, c: nat)
    ensures 1 <= Room(Tick(q)) <= 256
    ensures (c + 1 + 256 - Room(q)) / 256 ==
            (c + 256 - Room(Tick(q))) / 256 + if Tick(q) == QUANTUM then 1 else 0
  {
  }

  /** Between two yield attempts the running fiber stays the same, and the number
      of statements it completes is tied exactly to the attempts that EXIT
      skipped: none skipped is less than the room the counter had. */
  lemma {:induction false} QuantumExact(s: State, ls: seq<Label>)
    requires CanRun(s, ls) && Quiet(s, ls)
    ensures After(s, ls).sched.fg == s.sched.fg
    ensures Skipped(s, ls) == (Completed(s, ls) + 256 - Room(s.sched.qstep)) / 256
    ensures Completed(s, ls) < Room(s.sched.qstep) <==> Skipped(s, ls) == 0
    decreases |ls|
  {
    hide Step, Room, Tick, Ready;
    RoomBounds(s.sched.qstep);
    if ls != [] {
      var t := Step(s, ls[0]).value;
      QuietStep(s, ls[0], t);
      QuantumExact(t, ls[1..]);
      RoomStep(s.sched.qstep, Completed(t, ls[1..]));
      hide Completes, Skips, Attempts;
    }
  }

  /** A swap hands over a fresh quantum. */
  lemma SwapResets(s: State, l: Label, t: State)
    requires Step(s, l) == Some(t) && t.sched.fg != s.sched.fg
    ensures t.sched.qstep == 0 && Attempts(s, l)
  {
    hide Live, Target, Deliver, Push, SetPhase, Keep;
  }

  /** A fiber that was just swapped in completes at most 15 statements before it
      tries to yield, unless it exits as the sixteenth; on any quiet run that
      skips no attempt the bound is 255. */
  lemma QuantumBound(s: State, ls: seq<Label>)
    requires CanRun(s, ls) && Quiet(s, ls)
    ensures s.sched.qstep == 0 ==> (Completed(s, ls) < 16 <==> Skipped(s, ls) == 0)
    ensures Skipped(s, ls) == 0 ==> Completed(s, ls) < 256
  {
    QuantumExact(s, ls);
  }

  lemma {:induction false} RunConcat(s: State, a: seq<Label>, b: seq<Label>)
    requires CanRun(s, a) && CanRun(After(s, a), b) && Quiet(s, a) && Quiet(After(s, a), b)
    ensures CanRun(s, a + b) && Quiet(s, a + b)
    ensures After(s, a + b) == After(After(s, a), b)
    ensures Completed(s, a + b) == Completed(s, a) + Completed(After(s, a), b)
    decreases |a|
  {
    hide Step, Completes, Attempts;
    if a == [] {
      assert a + b == b;
    } else {
      assert (a + b)[0] == a[0] && (a + b)[1..] == a[1..] + b;
      RunConcat(Step(s, a[0]).value, a[1..], b);
    }
  }

  /** ls runs from s to t without an attempt and completes n statements. */
  ghost predicate Leads(s: State, ls: seq<Label>, n: nat, t: State) {
    CanRun(s, ls) && Quiet(s, ls) && Completed(s, ls) == n && After(s, ls) == t
  }

  lemma LeadsOn(s: State, a: seq<Label>, m: nat, t: State, b: seq<Label>, n: nat, u: State)
    requires Leads(s, a, m, t) && Leads(t, b, n, u)
    ensures Leads(s, a + b, m + n, u)
  {
    RunConcat(s, a, b);
  }

  lemma LeadsOne(s: State, l: Label, t: State)
    requires Step(s, l) == Some(t) && !Attempts(s, l)
    ensures Leads(s, [l], if Completes(s, l) then 1 else 0, t)
  {
    hide Step, Completes, Attempts;
    assert [l][1..] == [];
    assert CanRun(t, []) && Quiet(t, []) && Completed(t, []) == 0 && After(t, []) == t;
  }

  /** The main fiber alone, in the procedure of its first statement. */
  function Alone(q: Byte, exit: bool, saved: Option<bool>, next: FrameId): State {
    State(Sched([MAIN], map[MAIN := Flags(false, true, false, false)], MAIN, q),
          map[MAIN := Trying(saved)], exit, next)
  }

  function Trying(saved: Option<bool>): Stack {
    Stack([GLOBAL, 1, 2], 2, [Act(2, Proc(saved))], false, false)
  }

  function Called(q: Byte, saved: Option<bool>, next: FrameId, p: Phase): State {
    var st := Trying(saved);
    State(Sched([MAIN], map[MAIN := Flags(false, true, false, false)], MAIN, q),
          map[MAIN := st.(chain := st.chain + [next], depth := 3, acts := st.acts + [Act(next, p)])], false, next + 1)
  }

  lemma CalledBegins(q: Byte, saved: Option<bool>, next: FrameId)
    ensures Step(Alone(q, false, saved, next), Begin) == Some(Called(q, saved, next, Words))
  {
    var s := Alone(q, false, saved, next);
    var t := WithSelf(s, Push(Trying(saved), next));
    assert t.stacks == map[MAIN := Push(Trying(saved), next)];
  }

  lemma CalledEnters(q: Byte, saved: Option<bool>, next: FrameId)
    ensures Step(Called(q, saved, next, Words), WordsDone) == Some(Called(q, saved, next, Proc(None)))
  {
    var s, t := Called(q, saved, next, Words), Called(q, saved, next, Proc(None));
    assert SetPhase(Self(s), Proc(None)) == Self(t);
    assert WithSelf(s, Self(t)).stacks == t.stacks;
  }

  lemma CalledReturns(q: Byte, saved: Option<bool>, next: FrameId, res: Res)
    requires (res == Ok && Tick(q) != QUANTUM) || res == Exit
    ensures Step(Called(q, saved, next, Proc(None)), Finish(res)) == Some(Alone(Tick(q), res == Exit, saved, next + 1))
  {
    var s, st := Called(q, saved, next, Proc(None)), Trying(saved);
    assert Pop(Self(s)) == st;
    var u := WithSelf(s, st);
    assert u.stacks == map[MAIN := st];
    assert Deliver(st, res) == st;
    assert WithSelf(u, st) == u;
  }

  /** One statement with result res that the counter lets pass. */
  lemma OneStatement(q: Byte, saved: Option<bool>, next: FrameId, res: Res)
    requires (res == Ok && Tick(q) != QUANTUM) || res == Exit
    ensures Leads(Alone(q, false, saved, next), [Begin, WordsDone, Finish(res)], 1,
                  Alone(Tick(q), res == Exit, saved, next + 1))
  {
    CalledBegins(q, saved, next);
    CalledEnters(q, saved, next);
    CalledReturns(q, saved, next, res);
    hide Step, Tick, Leads;
    ThreeSteps(Alone(q, false, saved, next), Called(q, saved, next, Words), Called(q, saved, next, Proc(None)),
               Alone(Tick(q), res == Exit, saved, next + 1), Begin, WordsDone, Finish(res));
  }

  lemma ThreeSteps(s: State, s1: State, s2: State, s3: State, a: Label, b: Label, c: Label)
    requires Step(s, a) == Some(s1) && Step(s1, b) == Some(s2) && Step(s2, c) == Some(s3)
    requires !Attempts(s, a) && !Attempts(s1, b) && !Attempts(s2, c)
    requires !Completes(s, a) && !Completes(s1, b) && Completes(s2, c)
    ensures Leads(s, [a, b, c], 1, s3)
  {
    hide Leads, Step, Completes, Attempts;
    LeadsOne(s, a, s1);
    LeadsOne(s1, b, s2);
    LeadsOne(s2, c, s3);
    LeadsOn(s, [a], 0, s1, [b], 0, s2);
    LeadsOn(s, [a] + [b], 0, s2, [c], 1, s3);
    assert [a] + [b] + [c] == [a, b, c];
  }

  lemma TickRoom(q: Byte, n: nat)
    requires 0 < n < Room(q)
    ensures Tick(q) != QUANTUM && n - 1 < Room(Tick(q))
    ensures (Tick(q) + (n - 1)) % 256 == (q + n) % 256
  {
  }

  /** n statements in a row, none of which brings the counter to the quantum. */
  lemma {:induction false} Statements(q: Byte, saved: Option<bool>, next: FrameId, n: nat) returns (ls: seq<Label>)
    requires n < Room(q)
    ensures Leads(Alone(q, false, saved, next), ls, n, Alone((q + n) % 256, false, saved, next + n))
    decreases n
  {
    if n == 0 {
      ls := [];
    } else {
      hide Leads, Alone;
      TickRoom(q, n);
      hide Tick, Room;
      ls := Statements(Tick(q), saved, next + 1, n - 1);
      ls := OneMore(q, saved, next, ls, n - 1, Alone((q + n) % 256, false, saved, next + n));
    }
  }

  lemma OneMore(q: Byte, saved: Option<bool>, next: FrameId, rest: seq<Label>, n: nat, t: State)
    returns (ls: seq<Label>)
    requires Tick(q) != QUANTUM && Leads(Alone(Tick(q), false, saved, next + 1), rest, n, t)
    ensures Leads(Alone(q, false, saved, next), ls, n + 1, t)
  {
    hide Leads, Alone, Tick;
    OneStatement(q, saved, next, Ok);
    var one := [Begin, WordsDone, Finish(Ok)];
    LeadsOn(Alone(q, false, saved, next), one, 1, Alone(Tick(q), false, saved, next + 1), rest, n, t);
    ls := one + rest;
  }

  lemma FirstSteps(s: State)
    requires Initial(s)
    ensures Leads(s, [Begin, WordsDone], 0, Alone(0, false, None, 3))
  {
    var s1 := WithSelf(s, Push(Self(s), 2)).(next := 3);
    var s2 := Alone(0, false, None, 3);
    assert Step(s, Begin) == Some(s1);
    var u := WithSelf(s1, SetPhase(Self(s1), Proc(None)));
    assert SetPhase(Self(s1), Proc(None)) == Trying(None);
    assert u.stacks == map[MAIN := Trying(None)];
    assert Step(s1, WordsDone) == Some(s2);
    LeadsOne(s, Begin, s1);
    LeadsOne(s1, WordsDone, s2);
    LeadsOn(s, [Begin], 0, s1, [WordsDone], 0, s2);
    assert [Begin] + [WordsDone] == [Begin, WordsDone];
  }

  lemma EnterFinally(q: Byte, next: FrameId)
    ensures Leads(Alone(q, true, None, next), [Finally], 0, Alone(q, false, Some(true), next))
  {
    var s := Alone(q, true, None, next);
    var u := WithSelf(s, SetPhase(Self(s), Proc(Some(true))));
    assert SetPhase(Self(s), Proc(Some(true))) == Trying(Some(true));
    assert u.stacks == map[MAIN := Trying(Some(true))];
    assert Step(s, Finally) == Some(Alone(q, false, Some(true), next));
    LeadsOne(s, Finally, Alone(q, false, Some(true), next));
  }

  lemma ExitAsSixteenth(s: State) returns (ls: seq<Label>)
    requires Initial(s)
    ensures Leads(s, ls, 16, Alone(16, true, None, 19))
  {
    hide Alone, Leads;
    FirstSteps(s);
    var before := Statements(0, None, 3, 15);
    OneStatement(15, None, 18, Exit);
    LeadsOn(s, [Begin, WordsDone], 0, Alone(0, false, None, 3), before, 15, Alone(15, false, None, 18));
    ls := [Begin, WordsDone] + before;
    var exit := [Begin, WordsDone, Finish(Exit)];
    LeadsOn(s, ls, 15, Alone(15, false, None, 18), exit, 1, Alone(16, true, None, 19));
    ls := ls + exit;
  }

  lemma LongFinally(q: Byte, next: FrameId, n: nat) returns (ls: seq<Label>)
    requires n < Room(q)
    ensures Leads(Alone(q, true, None, next), ls, n, Alone((q + n) % 256, false, Some(true), next + n))
  {
    hide Alone, Leads, Room;
    EnterFinally(q, next);
    ls := Statements(q, Some(true), next, n);
    LeadsOn(Alone(q, true, None, next), [Finally], 0, Alone(q, false, Some(true), next), ls, n,
            Alone((q + n) % 256, false, Some(true), next + n));
    ls := [Finally] + ls;
  }

  /** With EXIT neither 15 nor 256 bounds the statements between attempts: a try
      block that exits as the sixteenth statement, and a finally block of 255
      more, complete 271 statements without an attempt. */
  lemma QuantumOverrun(s: State) returns (ls: seq<Label>)
    requires Initial(s)
    ensures CanRun(s, ls) && Quiet(s, ls) && Completed(s, ls) == 271
  {
    hide Alone, CanRun, Quiet, Completed, After;
    var a := ExitAsSixteenth(s);
    var b := LongFinally(16, 19, 255);
    LeadsOn(s, a, 16, Alone(16, true, None, 19), b, 255, Alone(15, false, Some(true), 274));
    ls := a + b;
  }

  // --------------------------------------------------------- where results go

  predicate Good(res: Res) {
    res == Ok || res == Yield
  }

  predicate Evaluating(st: Stack) {
    st.acts != [] && st.acts[|st.acts| - 1].phase.Words?
  }

  /** The top statement can do nothing but end with res. */
  ghost predicate OnlyEnds(st: Stack, res: Res) {
    && st.acts != [] && !Evaluating(st) && !InProc(st)
    && (forall r :: MayFinish(st, r) ==> r == res)
    && (st.chain != [] && st.depth > 0 ==> MayFinish(st, res))
  }

  /** Stack a was handed the result res of a statement and became b.  A bad one
      stops the outer statement that was evaluating its words: all it can do is
      end with that same result.  A script's own statement halts the script
      exactly when its result is bad.  Nothing else is touched. */
  ghost predicate Answered(a: Stack, b: Stack, res: Res) {
    && b.chain == a.chain && b.depth == a.depth && |b.acts| == |a.acts|
    && b.halted == (if a.acts == [] then !Good(res) else a.halted)
    && if Evaluating(a) && !Good(res)
       then b.acts[..|a.acts| - 1] == a.acts[..|a.acts| - 1] && OnlyEnds(b, res)
       else b.acts == a.acts
  }

  lemma DeliverAnswers(st: Stack, res: Res)
    ensures Answered(st, Deliver(st, if res == Yield then Ok else res), res)
  {
  }

  lemma AsleepAnswers(a: Stack, b: Stack, res: Res, z: bool)
    requires Answered(a, b, res)
    ensures Answered(a, b.(asleep := z), res)
  {
  }

  /** A yield leaves the running fiber's stack alone, up to its being asleep. */
  lemma YieldedSelf(s: State)
    requires Ready(s)
    ensures s.sched.fg in Yielded(s).stacks ==>
              Yielded(s).stacks[s.sched.fg] == Self(s) || Yielded(s).stacks[s.sched.fg] == Self(s).(asleep := true)
  {
    hide Target, Swap, Reap;
  }

  lemma OnResAnswers(s: State, res: Res)
    requires Ready(s)
    ensures s.sched.fg in OnRes(s, res).stacks ==> Answered(Self(s), OnRes(s, res).stacks[s.sched.fg], res)
  {
    var st := Deliver(Self(s), if res == Yield then Ok else res);
    DeliverAnswers(Self(s), res);
    AsleepAnswers(Self(s), st, res, true);
    hide Answered, Deliver, Yielded;
    var t := WithSelf(s, st);
    YieldedSelf(t);
    YieldedSelf(t.(sched := s.sched.(qstep := Tick(s.sched.qstep))));
  }

  /** The stack without its top statement and that statement's frame. */
  ghost predicate Dropped(a: Stack, b: Stack) {
    && a.acts != [] && a.chain != []
    && b.acts == a.acts[..|a.acts| - 1] && b.chain == a.chain[..|a.chain| - 1]
    && b.depth == a.depth - 1 && b.halted == a.halted && b.asleep == a.asleep
  }

  /** What a step of the running fiber that begins or ends a statement does to
      its stack.  A statement ends: its frame goes, and its result is handed on.
      A statement is refused, while exiting with EXIT and at 64 frames with ERR:
      that result is handed on.  Otherwise it begins, in a frame of its own. */
  ghost predicate StatementStep(s: State, l: Label, b: Stack)
    requires Ready(s)
  {
    var a := Self(s);
    if l.Finish? then exists c :: Dropped(a, c) && Answered(c, b, l.res)
    else if s.exit then Answered(a, b, Exit)
    else if a.depth >= 64 then Answered(a, b, Err)
    else
      && b == Stack(a.chain + [s.next], a.depth + 1, b.acts, a.halted, a.asleep)
      && |b.acts| == |a.acts| + 1 && b.acts[..|a.acts|] == a.acts && Evaluating(b)
      && b.acts[|a.acts|].frame == s.next
  }

  lemma BeginAnswers(s: State)
    requires Ready(s)
    ensures s.sched.fg in BeginStep(s).stacks ==> StatementStep(s, Begin, BeginStep(s).stacks[s.sched.fg])
  {
    DeliverAnswers(Self(s), Exit);
    OnResAnswers(s, Err);
    hide OnRes, Deliver, Answered;
  }

  lemma FinishAnswers(s: State, res: Res)
    requires Ready(s) && MayFinish(Self(s), res)
    ensures var t := OnRes(WithSelf(s, Pop(Self(s))), res);
      s.sched.fg in t.stacks ==> StatementStep(s, Finish(res), t.stacks[s.sched.fg])
  {
    var u := WithSelf(s, Pop(Self(s)));
    OnResAnswers(u, res);
    assert Dropped(Self(s), Self(u));
    hide OnRes, Answered, Dropped, Pop;
  }

  /** The running fiber is freed by no step that begins or ends a statement. */
  lemma StaysThere(s: State, l: Label, t: State)
    requires Inv(s) && Ready(s) && Step(s, l) == Some(t) && (l == Begin || l.Finish?)
    ensures s.sched.fg in t.stacks
  {
    hide Safe, Swap, Yielded, OnRes, Matched;
    var st := Self(s);
    if !st.asleep {
      if l.Finish? {
        OnResStays(WithSelf(s, Pop(st)), l.res);
      } else if !s.exit && st.depth >= MAX_NESTING {
        OnResStays(s, Err);
      }
    }
  }

  lemma OnResStays(s: State, res: Res)
    requires Ready(s) && !s.sched.flags[s.sched.fg].done
    ensures s.sched.fg in OnRes(s, res).stacks
  {
    hide Deliver;
    var t := WithSelf(s, Deliver(Self(s), if res == Yield then Ok else res));
    YieldedStays(t);
    YieldedStays(t.(sched := s.sched.(qstep := Tick(s.sched.qstep))));
    hide Yielded;
  }

  lemma YieldedStays(s: State)
    requires Ready(s) && !s.sched.flags[s.sched.fg].done
    ensures s.sched.fg in Yielded(s).stacks
  {
    hide Target, Swap, Live;
  }

  /** Statements begin and end as the source says, in every reached state. */
  lemma StatementSteps(s0: State, before: seq<Label>, s: State, l: Label, t: State)
    requires Reached(s0, before, s) && Ready(s) && Step(s, l) == Some(t) && (l == Begin || l.Finish?)
    ensures s.sched.fg in t.stacks && StatementStep(s, l, t.stacks[s.sched.fg])
    ensures t.exit == (s.exit || l == Finish(Exit))
  {
    hide Inv, OnRes, Answered, Deliver, Pop, StatementStep, BeginStep;
    ReachedInv(s0, before, s);
    StaysThere(s, l, t);
    if l == Begin {
      BeginAnswers(s);
      BeginExit(s);
    } else {
      FinishAnswers(s, l.res);
      OnResKeeps(WithSelf(s, Pop(Self(s))), l.res, MAIN);
    }
  }

  lemma BeginExit(s: State)
    requires Ready(s)
    ensures BeginStep(s).exit == s.exit
  {
    OnResKeeps(s, Err, MAIN);
    hide OnRes, Deliver, Push;
  }

  /** The step ends or refuses a statement that a word of another one asked for, */
  ghost predicate Asked(s: State, l: Label)
    requires Ready(s)
  {
    var st := Self(s);
    if l.Finish? then |st.acts| >= 2 && st.acts[|st.acts| - 2].phase.Words?
    else l == Begin && Evaluating(st) && (s.exit || st.depth >= 64)
  }

  /** with this result. */
  function Outcome(s: State, l: Label): Res {
    if l.Finish? then l.res else if s.exit then Exit else Err
  }

  lemma AskedEnds(s: State, l: Label, b: Stack)
    requires Ready(s) && Asked(s, l) && !Good(Outcome(s, l)) && StatementStep(s, l, b)
    ensures OnlyEnds(b, Outcome(s, l))
  {
    hide OnlyEnds, MayFinish;
  }

  lemma EndsOnly(s: State, m: Label, v: State, res: Res)
    requires s.sched.fg in s.stacks && OnlyEnds(s.stacks[s.sched.fg], res) && Step(s, m) == Some(v)
    ensures m == Finish(res) || m == Wake
  {
    hide Yielded, OnRes, Swept, Pop, BeginStep;
  }

  lemma FinishDrops(s: State, res: Res, t: State)
    requires Step(s, Finish(res)) == Some(t) && s.sched.fg in s.stacks && s.sched.fg in t.stacks
    ensures |t.stacks[s.sched.fg].acts| < |s.stacks[s.sched.fg].acts|
  {
    hide Pop, OnRes, Answered;
    FinishAnswers(s, res);
    FewerActs(s, res, t.stacks[s.sched.fg]);
    hide StatementStep;
  }

  lemma FewerActs(s: State, res: Res, b: Stack)
    requires Ready(s) && StatementStep(s, Finish(res), b)
    ensures |b.acts| < |Self(s).acts|
  {
    hide OnlyEnds;
  }

  lemma WakeSelf(s: State, t: State)
    requires Step(s, Wake) == Some(t) && s.sched.fg in s.stacks && s.sched.fg in t.stacks
    ensures t.stacks[s.sched.fg] == s.stacks[s.sched.fg].(asleep := false)
  {
    hide Live;
  }

  /** A fiber whose top statement can only end does nothing else. */
  lemma OnlyEndsStep(s: State, l: Label, t: State, id: Id, res: Res)
    requires Inv(s) && Step(s, l) == Some(t) && id in s.stacks && OnlyEnds(s.stacks[id], res)
    requires id in t.stacks && |t.stacks[id].acts| >= |s.stacks[id].acts|
    ensures OnlyEnds(t.stacks[id], res) && |t.stacks[id].acts| == |s.stacks[id].acts|
  {
    hide Step, Inv, OnlyEnds;
    if id == s.sched.fg {
      EndsOnly(s, l, t, res);
      if l.Finish? {
        FinishDrops(s, res, t);
      } else {
        WakeSelf(s, t);
        AwakeEnds(s.stacks[id], res);
      }
    } else {
      StepFrames(s, l, t, id);
    }
  }

  lemma AwakeEnds(st: Stack, res: Res)
    requires OnlyEnds(st, res)
    ensures OnlyEnds(st.(asleep := false), res)
  {
    assert forall r :: MayFinish(st.(asleep := false), r) == MayFinish(st, r);
  }

  lemma {:induction false} OnlyEndsRun(s: State, ls: seq<Label>, id: Id, n: nat, res: Res)
    requires Inv(s) && CanRun(s, ls) && Within(s, ls, id, n)
    requires id in s.stacks && |s.stacks[id].acts| == n && OnlyEnds(s.stacks[id], res)
    ensures var u := After(s, ls);
      Inv(u) && id in u.stacks && |u.stacks[id].acts| == n && OnlyEnds(u.stacks[id], res)
    decreases |ls|
  {
    hide Inv, Step, OnlyEnds;
    if ls != [] {
      var t := Step(s, ls[0]).value;
      StepInv(s, ls[0], t);
      OnlyEndsStep(s, ls[0], t, id, res);
      OnlyEndsRun(t, ls[1..], id, n, res);
    }
  }

  /** What the running fiber may do, by what its innermost statement is at. */
  predicate May(s: State, l: Label)
    requires Ready(s)
  {
    var st := Self(s);
    var top := if st.acts == [] then None else Some(st.acts[|st.acts| - 1].phase);
    match l
    case Begin => if top == None then s.sched.fg == MAIN || !st.halted else top.value.Words? || top.value.Proc?
    case WordsDone => top == Some(Words)
    case Finish(r) =>
      || (top == Some(Words) && (r == Ok || r == Err)) || top == Some(Owes(r)) || top == Some(Proc(None))
    case Pause => top.Some? && top.value.Proc?
    case Block(_) => top.Some? && top.value.Proc?
    case Fork(id) => top.Some? && top.value.Proc? && id !in s.sched.flags
    case Finally => top == Some(Proc(None))
    case FinallyEnd => top.Some? && top.value.Proc? && top.value.saved.Some?
    case Wake => false
    case EndFiber => top == None && s.sched.fg != MAIN
    case Join => top == None && s.sched.fg == MAIN
  }

  /** It may do exactly that. */
  lemma Enabled(s: State, l: Label)
    requires Inv(s) && Ready(s) && !Self(s).asleep
    ensures Step(s, l).Some? <==> May(s, l)
  {
    hide Step, May, Inv;
    ChainOfSelf(s);
    SameIds(s);
    match l
    case Begin => EnabledBegin(s);
    case Finish(r) => EnabledFinish(s, r);
    case _ => EnabledOther(s, l);
  }

  lemma EnabledBegin(s: State)
    requires Ready(s) && !Self(s).asleep
    ensures Step(s, Begin).Some? <==> May(s, Begin)
  {
    hide BeginStep;
  }

  lemma EnabledFinish(s: State, r: Res)
    requires Ready(s) && !Self(s).asleep && Self(s).chain != [] && Self(s).depth > 0
    ensures Step(s, Finish(r)).Some? <==> May(s, Finish(r))
  {
    hide OnRes, Pop, WithSelf;
  }

  lemma EnabledOther(s: State, l: Label)
    requires Ready(s) && !Self(s).asleep && l != Begin && !l.Finish?
    requires forall id :: id in s.sched.order <==> id in s.sched.flags
    ensures Step(s, l).Some? <==> May(s, l)
  {
    hide BeginStep, OnRes, Pop, Yielded, Spawn, WithSelf, SetPhase;
  }

  lemma SameIds(s: State)
    requires Inv(s)
    ensures forall id :: id in s.sched.order <==> id in s.sched.flags
  {
    hide Matched, Distinct;
  }

  /** A statement whose words are evaluated goes on in its procedure, and nothing
      else changes. */
  lemma WordsThenProc(s: State, t: State)
    requires Step(s, WordsDone) == Some(t) && s.sched.fg in s.stacks
    ensures var a := s.stacks[s.sched.fg];
      && a.acts != []
      && t == s.(stacks := s.stacks[s.sched.fg := a.(acts :=
           a.acts[..|a.acts| - 1] + [Act(a.acts[|a.acts| - 1].frame, Proc(None))])])
  {
    var a := s.stacks[s.sched.fg];
    assert SetPhase(a, Proc(None)).acts == a.acts[..|a.acts| - 1] + [Act(a.acts[|a.acts| - 1].frame, Proc(None))];
  }

  /** A bad result goes all the way up.  When a statement that a word asked for
      ends badly or is refused, then whatever else runs meanwhile, the statement
      that asked never does anything again but end, with that same result. */
  lemma ResultsTravel(s0: State, before: seq<Label>, s: State, l: Label, t: State, ls: seq<Label>, m: Label, v: State)
    requires Reached(s0, before, s) && Ready(s) && Step(s, l) == Some(t) && Asked(s, l) && !Good(Outcome(s, l))
    requires s.sched.fg in t.stacks && CanRun(t, ls) && Within(t, ls, s.sched.fg, |t.stacks[s.sched.fg].acts|)
    requires Step(After(t, ls), m) == Some(v) && After(t, ls).sched.fg == s.sched.fg
    ensures m == Finish(Outcome(s, l)) || m == Wake
  {
    hide Inv, Step, OnlyEnds, Asked, Outcome, CanRun, After, Within, StatementStep;
    var (f, res) := (s.sched.fg, Outcome(s, l));
    AskedLabel(s, l);
    ReachedInv(s0, before, s);
    StepInv(s, l, t);
    StatementSteps(s0, before, s, l, t);
    AskedEnds(s, l, t.stacks[f]);
    OnlyEndsRun(t, ls, f, |t.stacks[f].acts|, res);
    EndsOnly(After(t, ls), m, v, res);
  }

  lemma AskedLabel(s: State, l: Label)
    requires Ready(s) && Asked(s, l)
    ensures l == Begin || l.Finish?
  {
  }

  /** A script stops at its first bad result: a fiber other than the main one
      that is halted begins no statement again, over every run. */
  lemma {:induction false} HaltedStays(s: State, ls: seq<Label>, id: Id)
    requires Inv(s) && CanRun(s, ls) && Within(s, ls, id, 0) && id != MAIN
    requires id in s.stacks && s.stacks[id].acts == [] && s.stacks[id].halted
    ensures id in After(s, ls).stacks && After(s, ls).stacks[id].acts == [] && After(s, ls).stacks[id].halted
    decreases |ls|
  {
    hide Inv, Step;
    if ls != [] {
      var t := Step(s, ls[0]).value;
      StepInv(s, ls[0], t);
      HaltedStep(s, ls[0], t, id);
      HaltedStays(t, ls[1..], id);
    }
  }

  lemma HaltedStep(s: State, l: Label, t: State, id: Id)
    requires Inv(s) && Step(s, l) == Some(t) && id in s.stacks && id in t.stacks && id != MAIN
    requires s.stacks[id].acts == [] && s.stacks[id].halted
    ensures t.stacks[id].acts == [] && t.stacks[id].halted
  {
    if id == s.sched.fg {
      hide Inv, Yielded, OnRes, Swept, Pop, BeginStep;
      if s.stacks[id].asleep {
        WakeSelf(s, t);
      } else {
        YieldedSelf(s.(sched := Fibers.Finish(s.sched)));
      }
    } else {
      StepFrames(s, l, t, id);
    }
  }

  /** A fiber that was swapped out in a yield can do one thing when it is back:
      free the DONE fibers and go on where it was. */
  lemma WakesUp(s: State, l: Label, t: State)
    requires Inv(s) && Ready(s) && Self(s).asleep && Step(s, l) == Some(t)
    ensures l == Wake && Freed(s.sched, t.sched) && t.exit == s.exit && t.next == s.next
    ensures forall id :: id in t.stacks <==> id in t.sched.flags
    ensures forall id :: id in t.stacks ==>
      id in s.stacks && t.stacks[id] == if id == s.sched.fg then s.stacks[id].(asleep := false) else s.stacks[id]
  {
    ReapFrees(s.sched);
    hide Reap, Matched, Freed, Safe;
    ReapedFlags(s.sched);
  }

  lemma ReapedFlags(s: Sched)
    ensures forall id :: id in Reap(s).flags ==> id in s.flags
  {
  }

  /** The fiber list as a step hands it to b6b_yield. */
  function Entering(s: State, l: Label): Sched
    requires Ready(s)
  {
    if l == EndFiber then s.sched.(flags := s.sched.flags[s.sched.fg := s.sched.flags[s.sched.fg].(done := true)])
    else if Completes(s, l) then s.sched.(qstep := (s.sched.qstep + 1) % 256)
    else s.sched
  }

  /** An attempt to yield is a yield: while another fiber is suspended the one
      whose turn it is takes over, with a fresh quantum, and the fiber that
      yielded sleeps; with none the DONE fibers are freed. */
  lemma AttemptYields(s0: State, before: seq<Label>, s: State, l: Label, t: State)
    requires Reached(s0, before, s) && Ready(s) && Step(s, l) == Some(t) && Attempts(s, l)
    ensures if exists id :: id != s.sched.fg && Suspended(s.sched, id)
            then Turn(s.sched, t.sched.fg) && TakesOver(Entering(s, l), t.sched, t.sched.fg)
                 && s.sched.fg in t.stacks && t.stacks[s.sched.fg].asleep
            else Freed(Entering(s, l), t.sched)
  {
    hide Inv, Yielded, Turn, TakesOver, Freed, Suspended, Deliver, Pop;
    ReachedInv(s0, before, s);
    var u := AttemptFrom(s, l, t);
    YieldsFrom(s, l, u);
  }

  /** The state in which the step calls b6b_yield. */
  lemma AttemptFrom(s: State, l: Label, t: State) returns (u: State)
    requires Ready(s) && Step(s, l) == Some(t) && Attempts(s, l)
    ensures Ready(u) && t == Yielded(u) && u.sched == Entering(s, l)
    ensures l == EndFiber ==> s.sched.fg != MAIN
  {
    hide Yielded, Deliver, Pop, Push;
    var st := Self(s);
    match l
    case Pause => u := s;
    case EndFiber => u := s.(sched := Fibers.Finish(s.sched));
    case Join => u := s.(exit := true);
    case Begin =>
      u := WithSelf(s, Deliver(st, Err)).(sched := s.sched.(qstep := Tick(s.sched.qstep)));
    case Finish(res) =>
      var p := Pop(st);
      u := if res == Yield then WithSelf(s, Deliver(p, Ok))
           else WithSelf(s, Deliver(p, res)).(sched := s.sched.(qstep := Tick(s.sched.qstep)));
      OnResFrom(WithSelf(s, p), res, WithSelf(WithSelf(s, p), Deliver(p, if res == Yield then Ok else res)));
      SelfTwice(s, p, Deliver(p, if res == Yield then Ok else res));
  }

  lemma SelfTwice(s: State, a: Stack, b: Stack)
    ensures WithSelf(WithSelf(s, a), b) == WithSelf(s, b)
  {
  }

  lemma OnResFrom(s: State, res: Res, u: State)
    requires Ready(s) && u == WithSelf(s, Deliver(Self(s), if res == Yield then Ok else res))
    ensures res == Yield ==> OnRes(s, res) == Yielded(u)
    ensures res != Yield && res != Exit && Tick(s.sched.qstep) == QUANTUM ==>
              OnRes(s, res) == Yielded(u.(sched := s.sched.(qstep := Tick(s.sched.qstep))))
  {
    hide Yielded, Deliver;
  }

  lemma YieldsFrom(s: State, l: Label, u: State)
    requires Inv(s) && Ready(s) && Ready(u) && u.sched == Entering(s, l) && (l == EndFiber ==> s.sched.fg != MAIN)
    ensures var t := Yielded(u);
      if exists id :: id != s.sched.fg && Suspended(s.sched, id)
      then Turn(s.sched, t.sched.fg) && TakesOver(Entering(s, l), t.sched, t.sched.fg)
           && s.sched.fg in t.stacks && t.stacks[s.sched.fg].asleep
      else Freed(Entering(s, l), t.sched)
  {
    hide Matched, Turn, TakesOver, Freed, Target, Swap, Reap;
    BeforeSafe(s, l);
    SameTurn(s.sched, u.sched);
    TargetIff(u.sched);
    TargetIsTurn(u.sched, u.sched.fg);
    var t := Target(u.sched);
    if t.Some? {
      TargetIsTurn(u.sched, t.value);
      SwapTakesOver(u.sched, t.value);
      TakesOverFg(u.sched, Swap(u.sched, t.value), t.value);
    } else {
      ReapFrees(u.sched);
    }
  }

  lemma TakesOverFg(s: Sched, u: Sched, x: Id)
    requires TakesOver(s, u, x)
    ensures u.fg == x
  {
  }

  lemma BeforeSafe(s: State, l: Label)
    requires Inv(s) && Ready(s) && (l == EndFiber ==> s.sched.fg != MAIN)
    ensures Safe(Entering(s, l)) && Entering(s, l).fg == s.sched.fg
    ensures Entering(s, l).order == s.sched.order
    ensures forall id :: id != s.sched.fg ==> Suspended(s.sched, id) == Suspended(Entering(s, l), id)
  {
    hide Matched;
  }

  /** Whose turn it is depends on the other fibers only. */
  lemma SameTurn(s: Sched, u: Sched)
    requires u.fg == s.fg && u.order == s.order && Distinct(s.order)
    requires forall id :: id != s.fg ==> Suspended(s, id) == Suspended(u, id)
    ensures forall x :: Turn(s, x) <==> Turn(u, x)
  {
    hide Suspended;
    forall k: nat, j: nat, x
      ensures TurnAt(s, k, j, x) <==> TurnAt(u, k, j, x)
    {
      if k < |s.order| && s.order[k] == s.fg && j < |s.order| {
        forall i | 0 < i <= j
          ensures Around(s.order, k, i) != s.fg
        {
        }
      }
    }
    hide TurnAt;
  }

  /** The DONE and BLOCKED bits of fiber id. */
  predicate SameMarks(a: Sched, b: Sched, id: Id) {
    id in a.flags && id in b.flags && a.flags[id].done == b.flags[id].done && a.flags[id].blocked == b.flags[id].blocked
  }

  lemma YieldedMarks(s: State, id: Id)
    requires Ready(s) && id in s.sched.flags
    ensures id in Yielded(s).sched.flags ==> SameMarks(s.sched, Yielded(s).sched, id)
    ensures !s.sched.flags[id].done ==> id in Yielded(s).sched.flags
  {
    hide Target, Live;
  }

  lemma OnResMarks(s: State, res: Res, id: Id)
    requires Ready(s) && id in s.sched.flags
    ensures id in OnRes(s, res).sched.flags ==> SameMarks(s.sched, OnRes(s, res).sched, id)
    ensures !s.sched.flags[id].done ==> id in OnRes(s, res).sched.flags
  {
    hide Deliver;
    var t := WithSelf(s, Deliver(Self(s), if res == Yield then Ok else res));
    YieldedMarks(t, id);
    YieldedMarks(t.(sched := s.sched.(qstep := Tick(s.sched.qstep))), id);
    hide Yielded;
  }

  lemma MarksMove(s: State, l: Label, t: State, id: Id)
    requires Step(s, l) == Some(t) && id in s.sched.flags
    ensures !s.sched.flags[id].done && !(l == EndFiber && id == s.sched.fg) ==>
              id in t.sched.flags && !t.sched.flags[id].done
    ensures id in t.sched.flags && (s.sched.flags[id].done || (l == EndFiber && id == s.sched.fg)) ==>
              t.sched.flags[id].done
    ensures id in t.sched.flags ==>
              t.sched.flags[id].blocked == if l.Block? && id == s.sched.fg then l.b else s.sched.flags[id].blocked
  {
    hide Yielded, OnRes, Deliver, Pop, Live, IndexOf;
    var st := Self(s);
    if st.asleep {
    } else {
      match l
      case Begin => hide SetPhase; OnResMarks(s, Err, id);
      case Finish(res) => OnResMarks(WithSelf(s, Pop(st)), res, id);
      case Pause => YieldedMarks(s, id);
      case EndFiber => YieldedMarks(s.(sched := Fibers.Finish(s.sched)), id);
      case Join => YieldedMarks(s.(exit := true), id);
      case _ =>
    }
  }

  /** A fiber is marked DONE by its own end and by nothing else, stays in the
      list until then, and is BLOCKED and unblocked by itself only. */
  lemma StepMarks(s: State, l: Label, t: State, id: Id)
    requires Inv(s) && Step(s, l) == Some(t) && id in s.sched.flags
    ensures !s.sched.flags[id].done && !(l == EndFiber && id == s.sched.fg) ==>
              id in t.sched.flags && id in t.stacks && !t.sched.flags[id].done
    ensures id in t.sched.flags && (s.sched.flags[id].done || (l == EndFiber && id == s.sched.fg)) ==>
              t.sched.flags[id].done
    ensures id in t.sched.flags ==>
              t.sched.flags[id].blocked == if l.Block? && id == s.sched.fg then l.b else s.sched.flags[id].blocked
  {
    hide Step, Matched, Safe;
    StepInv(s, l, t);
    MarksMove(s, l, t, id);
  }

  /** Fiber id does not leave the finally block of its n-th statement. */
  ghost predicate StaysInside(s: State, ls: seq<Label>, id: Id, n: nat)
    requires CanRun(s, ls)
    decreases |ls|
  {
    ls == [] ||
    (!(ls[0] == FinallyEnd && s.sched.fg == id && id in s.stacks && |s.stacks[id].acts| == n)
     && StaysInside(Step(s, ls[0]).value, ls[1..], id, n))
  }

  /** The n-th statement of fiber id is in a finally block that put saved aside. */
  ghost predicate Inside(s: State, id: Id, n: nat, saved: bool) {
    && id in s.stacks && 0 < n <= |s.stacks[id].acts|
    && s.stacks[id].acts[n - 1].phase == Proc(Some(saved))
    && id in s.sched.flags && !s.sched.flags[id].done
  }

  /** Deeper statements and results handed on leave that phase alone. */
  lemma AnsweredInside(a: Stack, b: Stack, res: Res, n: nat, saved: bool)
    requires Answered(a, b, res) && 0 < n <= |a.acts| && a.acts[n - 1].phase == Proc(Some(saved))
    ensures n <= |b.acts| && b.acts[n - 1].phase == Proc(Some(saved))
  {
    if Evaluating(a) && !Good(res) {
      assert b.acts[..|a.acts| - 1] == a.acts[..|a.acts| - 1];
      assert n < |a.acts|;
      assert b.acts[n - 1] == b.acts[..|a.acts| - 1][n - 1];
    }
    hide OnlyEnds;
  }

  lemma StatementInside(s: State, l: Label, b: Stack, n: nat, saved: bool)
    requires Ready(s) && StatementStep(s, l, b) && Inside(s, s.sched.fg, n, saved)
    requires l.Finish? ==> MayFinish(Self(s), l.res)
    ensures n <= |b.acts| && b.acts[n - 1].phase == Proc(Some(saved))
  {
    hide Answered, Evaluating;
    var a := Self(s);
    if l.Finish? {
      var c :| Dropped(a, c) && Answered(c, b, l.res);
      AnsweredInside(c, b, l.res, n, saved);
    } else if s.exit {
      AnsweredInside(a, b, Exit, n, saved);
    } else if a.depth >= 64 {
      AnsweredInside(a, b, Err, n, saved);
    } else {
      assert b.acts[n - 1] == b.acts[..|a.acts|][n - 1];
    }
  }

  lemma InsideStatement(s: State, l: Label, t: State, n: nat, saved: bool)
    requires Ready(s) && Step(s, l) == Some(t) && Inside(s, s.sched.fg, n, saved) && !Self(s).asleep
    requires (l == Begin || l.Finish?) && s.sched.fg in t.stacks
    ensures var b := t.stacks[s.sched.fg]; n <= |b.acts| && b.acts[n - 1].phase == Proc(Some(saved))
  {
    hide OnRes, Pop, BeginStep, StatementStep, Inside;
    if l == Begin {
      BeginAnswers(s);
    } else {
      FinishAnswers(s, l.res);
    }
    StatementInside(s, l, t.stacks[s.sched.fg], n, saved);
  }

  lemma InsideOther(s: State, l: Label, t: State, n: nat, saved: bool)
    requires Ready(s) && Step(s, l) == Some(t) && Inside(s, s.sched.fg, n, saved) && !Self(s).asleep
    requires l != Begin && !l.Finish? && s.sched.fg in t.stacks && (l == FinallyEnd ==> |Self(s).acts| != n)
    ensures var b := t.stacks[s.sched.fg]; n <= |b.acts| && b.acts[n - 1].phase == Proc(Some(saved))
  {
    hide Yielded, OnRes, Swept, Pop, BeginStep, Spawn;
    YieldedSelf(s);
  }

  lemma InsideSelf(s: State, l: Label, t: State, n: nat, saved: bool)
    requires Ready(s) && Step(s, l) == Some(t) && Inside(s, s.sched.fg, n, saved)
    requires l == FinallyEnd ==> |Self(s).acts| != n
    requires s.sched.fg in t.stacks
    ensures var b := t.stacks[s.sched.fg]; n <= |b.acts| && b.acts[n - 1].phase == Proc(Some(saved))
  {
    if Self(s).asleep {
      OnlyWakes(s, l, t);
      hide Step;
      WakeSelf(s, t);
    } else if l == Begin || l.Finish? {
      hide Step;
      InsideStatement(s, l, t, n, saved);
    } else {
      hide Step;
      InsideOther(s, l, t, n, saved);
    }
  }

  lemma OnlyWakes(s: State, l: Label, t: State)
    requires Ready(s) && Self(s).asleep && Step(s, l) == Some(t)
    ensures l == Wake
  {
    hide Swept;
  }

  lemma InsideStep(s: State, l: Label, t: State, id: Id, n: nat, saved: bool)
    requires Inv(s) && Step(s, l) == Some(t) && Inside(s, id, n, saved)
    requires l == FinallyEnd && s.sched.fg == id ==> |s.stacks[id].acts| != n
    ensures Inside(t, id, n, saved)
  {
    hide Step, Inv, Inside;
    InvYieldingReady(s);
    InsideLive(s, id, n, saved);
    LiveKept(s, l, t, id);
    if id == s.sched.fg {
      InsideSelf(s, l, t, n, saved);
    } else {
      StepFrames(s, l, t, id);
    }
    InsideIs(s, t, id, n, saved);
  }

  lemma InvYieldingReady(s: State)
    requires Inv(s)
    ensures Ready(s)
  {
    hide Matched;
  }

  lemma InsideLive(s: State, id: Id, n: nat, saved: bool)
    requires Inside(s, id, n, saved)
    ensures id in s.stacks && s.stacks[id].acts != [] && id in s.sched.flags && !s.sched.flags[id].done
  {
  }

  lemma InsideIs(s: State, t: State, id: Id, n: nat, saved: bool)
    requires Inside(s, id, n, saved) && id in t.stacks && id in t.sched.flags && !t.sched.flags[id].done
    requires t.stacks[id] == s.stacks[id] ||
             (n <= |t.stacks[id].acts| && t.stacks[id].acts[n - 1].phase == Proc(Some(saved)))
    ensures Inside(t, id, n, saved)
  {
  }

  lemma LiveKept(s: State, l: Label, t: State, id: Id)
    requires Inv(s) && Ready(s) && Step(s, l) == Some(t) && id in s.stacks && s.stacks[id].acts != []
    requires id in s.sched.flags && !s.sched.flags[id].done
    ensures id in t.sched.flags && id in t.stacks && !t.sched.flags[id].done
  {
    hide Inv, Yielded, OnRes, Swept, Pop, BeginStep;
    assert !(l == EndFiber && id == s.sched.fg);
    hide Step;
    StepMarks(s, l, t, id);
  }

  lemma {:induction false} InsideRun(s: State, ls: seq<Label>, id: Id, n: nat, saved: bool)
    requires Inv(s) && CanRun(s, ls) && Inside(s, id, n, saved) && StaysInside(s, ls, id, n)
    ensures Inside(After(s, ls), id, n, saved) && Inv(After(s, ls))
    decreases |ls|
  {
    hide Inv, Step, Inside;
    if ls != [] {
      var t := Step(s, ls[0]).value;
      StepInv(s, ls[0], t);
      InsideLive(s, id, n, saved);
      InsideStep(s, ls[0], t, id, n, saved);
      InsideRun(t, ls[1..], id, n, saved);
    }
  }

  /** Leaving a finally block puts the exit flag back as it was on entering,
      whatever the block, its nested blocks and the other fibers did to it. */
  lemma FinallyRestores(s0: State, before: seq<Label>, s: State, t: State, ls: seq<Label>, v: State)
    requires Reached(s0, before, s) && s.sched.fg in s.stacks && Step(s, Finally) == Some(t)
    requires CanRun(t, ls) && StaysInside(t, ls, s.sched.fg, |s.stacks[s.sched.fg].acts|)
    requires var u := After(t, ls);
      && Step(u, FinallyEnd) == Some(v) && u.sched.fg == s.sched.fg && s.sched.fg in u.stacks
      && |u.stacks[s.sched.fg].acts| == |s.stacks[s.sched.fg].acts|
    ensures !t.exit && v.exit == s.exit
  {
    hide CanRun, After, StaysInside, Inv;
    ReachedInv(s0, before, s);
    StepInv(s, Finally, t);
    var n := |s.stacks[s.sched.fg].acts|;
    NotDoneHere(s);
    assert Inside(t, s.sched.fg, n, s.exit);
    InsideRun(t, ls, s.sched.fg, n, s.exit);
  }

  lemma NotDoneHere(s: State)
    requires Inv(s)
    ensures s.sched.fg in s.sched.flags && !s.sched.flags[s.sched.fg].done
  {
    hide Matched;
  }

  /** A new fiber has a frame of its own above the global one, and it is its
      turn next. */
  lemma ForkStarts(s: State, id: Id, t: State)
    requires Inv(s) && Step(s, Fork(id)) == Some(t)
    ensures t.stacks == s.stacks[id := Stack([0, s.next], 1, [], false, false)] && t.next == s.next + 1
    ensures t.sched.fg == s.sched.fg && t.exit == s.exit && Turn(t.sched, id)
  {
    hide Matched, Spawn, Turn, Ring;
    var k :| 0 <= k < |s.sched.order| && s.sched.order[k] == s.sched.fg;
    SpawnIs(s.sched, id, k);
    SpawnSafe(s.sched, id);
    hide Safe, Wf;
    TurnNext(t.sched, k, id);
  }

  lemma TurnNext(s: Sched, k: nat, id: Id)
    requires k + 1 < |s.order| && s.order[k] == s.fg && s.order[k + 1] == id && Suspended(s, id)
    ensures Turn(s, id)
  {
    assert Around(s.order, k, 1) == id;
    assert TurnAt(s, k, 1, id);
  }

  // ------------------------------------------------------------------- the code

  lemma StepIsBegin(s: State)
    requires Ready(s) && MayBegin(s, Self(s)) && !Self(s).asleep
    ensures Step(s, Begin) == Some(BeginStep(s))
  {
    hide OnRes, Deliver, Push;
  }

  lemma StepIsFinish(s: State, res: Res)
    requires Ready(s) && MayFinish(Self(s), res) && !Self(s).asleep
    ensures Step(s, Finish(res)) == Some(OnRes(WithSelf(s, Pop(Self(s))), res))
  {
    hide OnRes, Deliver, Push, Pop;
  }

  /** The evaluator's share of the interpreter record, around its scheduler. */
  class Machine {
    const sched: Interp
    var stacks: map<Id, Stack>
    var exit: bool
    var next: FrameId

    ghost function View(): (s: State)
      reads this, sched
    {
      State(sched.State(), stacks, exit, next)
    }

    constructor ()
      ensures Initial(View()) && fresh(sched)
    {
      sched := new Interp();
      stacks := map[MAIN := Stack([GLOBAL, 1], 1, [], false, false)];
      exit, next := false, 2;
    }

    method YieldHere() returns (swapped: bool)
      requires Wf(sched.State()) && Ready(View())
      modifies this, sched
      ensures View() == Yielded(old(View())) && swapped == Target(old(sched.State())).Some?
    {
      TargetIff(sched.State());
      var bg := sched.fg;
      swapped := sched.Yield();
      if swapped {
        stacks := stacks[bg := stacks[bg].(asleep := true)];
      } else {
        stacks := Keep(stacks, sched.flags);
      }
    }

    /** b6b_frame_push: refused at the nesting limit. */
    method PushFrame() returns (ok: bool)
      requires Ready(View())
      modifies this`stacks, this`next
      ensures ok == (Self(old(View())).depth < 64)
      ensures View() == if ok then WithSelf(old(View()), Push(Self(old(View())), old(next))).(next := old(next) + 1)
                        else old(View())
    {
      var st := stacks[sched.fg];
      if st.depth >= MAX_NESTING {
        return false;
      }
      st := st.(chain := st.chain + [next], depth := st.depth + 1, acts := st.acts + [Act(next, Words)]);
      stacks := stacks[sched.fg := st];
      next := next + 1;
      return true;
    }

    /** b6b_frame_pop: the current frame goes, whoever pushed it. */
    method PopFrame()
      requires Ready(View()) && stacks[sched.fg].chain != [] && stacks[sched.fg].depth > 0
      requires stacks[sched.fg].acts != []
      modifies this`stacks
      ensures View() == WithSelf(old(View()), Pop(Self(old(View()))))
    {
      var st := stacks[sched.fg];
      st := st.(chain := st.chain[..|st.chain| - 1], depth := st.depth - 1, acts := st.acts[..|st.acts| - 1]);
      stacks := stacks[sched.fg := st];
    }

    /** b6b_on_res. */
    method HandleResult(res: Res) returns (r: Res)
      requires Wf(sched.State()) && Ready(View())
      modifies this, sched
      ensures View() == OnRes(old(View()), res)
      ensures old(sched.fg) in stacks ==> Answered(old(stacks[sched.fg]), stacks[old(sched.fg)], res)
      ensures r == if res == Yield then Ok else res
    {
      hide Answered, Yielded, Deliver, Distinct;
      OnResAnswers(View(), res);
      if res == Yield {
        stacks := stacks[sched.fg := Deliver(stacks[sched.fg], Ok)];
        var _ := YieldHere();
        return Ok;
      }
      sched.qstep := if sched.qstep == 255 then 0 else sched.qstep + 1;
      stacks := stacks[sched.fg := Deliver(stacks[sched.fg], res)];
      if res == Exit {
        exit := true;
        return res;
      }
      if sched.qstep == QUANTUM {
        var _ := YieldHere();
      }
      return res;
    }

    /** The first half of b6b_stmt_call; by StepInv it keeps the invariant. */
    method BeginStatement()
      requires Wf(sched.State()) && Ready(View()) && MayBegin(View(), Self(View())) && !Self(View()).asleep
      modifies this, sched
      ensures Step(old(View()), Begin) == Some(View())
      ensures old(sched.fg) in stacks ==> StatementStep(old(View()), Begin, stacks[old(sched.fg)])
    {
      hide Wf, OnRes, Deliver, Push, Step, MayBegin, StatementStep, Answered;
      StepIsBegin(View());
      BeginAnswers(View());
      if exit {
        stacks := stacks[sched.fg := Deliver(stacks[sched.fg], Exit)];
        return;
      }
      var ok := PushFrame();
      if !ok {
        var _ := HandleResult(Err);
      }
    }

    /** The second half: the frame goes, then the result is handled. */
    method FinishStatement(res: Res) returns (r: Res)
      requires Wf(sched.State()) && Ready(View()) && MayFinish(Self(View()), res) && !Self(View()).asleep
      modifies this, sched
      ensures Step(old(View()), Finish(res)) == Some(View())
      ensures old(sched.fg) in stacks ==> StatementStep(old(View()), Finish(res), stacks[old(sched.fg)])
      ensures r == if res == Yield then Ok else res
    {
      hide Wf, OnRes, Pop, Step, StatementStep, Answered;
      StepIsFinish(View(), res);
      FinishAnswers(View(), res);
      PopFrame();
      r := HandleResult(res);
    }
  }
}
