/** The offload protocol: fibers of one interpreter hand blocking functions to a
    pool of OS worker threads.

    The interpreter thread and every worker interleave at the grain of single
    atomic actions: one load or store of a shared field, one signal sent, one
    signal consumed.  Signals are realtime signals, so they queue and are
    counted.  A call of b6b_offload is named by its index in calls; the fn and
    arg fields of a worker are tagged with the call whose function and argument
    they hold, so a worker that mixed two calls would be seen. */
module Offload {
  import opened Basics
  import opened Fibers

  datatype WState = INIT | UP | IDLE | RUNNING | DONE

  datatype WPc =
    | Unborn
    | BootStore                        // about to store UP
    | BootSignal                       // about to signal the interpreter thread
    | Wait                             // in sigwait
    | Check                            // about to load the state
    | LoadFn
    | LoadArg(fn: nat)
    | Executing(fn: nat, arg: nat)     // inside fn(arg)
    | StoreDone
    | Signal                           // about to signal the interpreter thread
    | Gone                             // the loop was left, the thread exits

  datatype Worker = Worker(st: WState, fn: nat, arg: nat, toWorker: nat, toMain: nat, pc: WPc)

  /** What happened to one call: executions begun and ended, and its result. */
  datatype Call = Call(begun: nat, ended: nat, result: Option<bool>)

  /** While a fiber owns a worker: from storing RUNNING until storing IDLE. */
  datatype Stage =
    | SetFn
    | SetArg
    | Wake                             // about to signal the worker
    | Poll
    | ParkedPoll                       // suspended in the yield of the poll loop
    | CheckDone
    | Unblock
    | Await                            // in sigwait
    | Release                          // about to store IDLE

  /** Inside b6b_offload. */
  datatype Place =
    | Entered
    | Inline                           // not threaded: inside fn(arg)
    | Picking(i: nat)                  // about to test worker i
    | ParkedPick                       // suspended in the yield of the pick loop
    | Claimed(w: nat)                  // about to store RUNNING
    | Owns(w: nat, stage: Stage, pending: bool)
    | Linger                           // about to yield once more
    | ParkedLinger
    | Fail                             // no worker and nobody to yield to
    | Returning(r: bool)

  datatype Pc =
    | Fresh                            // never ran
    | Script                           // outside b6b_offload
    | ParkedScript                     // suspended in a yield there
    | Exiting                          // marked DONE, about to yield
    | ParkedEnd                        // DONE and suspended for good
    | Lost                             // ran past the end of its routine
    | In(c: nat, at: Place)

  /** Start-up of the pool, one worker at a time. */
  datatype Boot = Create(j: nat) | AwaitUp(j: nat) | CheckUp(j: nat) | MakeIdle(j: nat) | Ready

  /** owner is history: the fiber that stored RUNNING and not yet IDLE. */
  datatype State = State(
    boot: Boot, sched: Sched, pc: map<Id, Pc>, ws: seq<Worker>, owner: seq<Option<Id>>,
    calls: seq<Call>, torn: bool)

  datatype Action = CallYield | CallSpawn(id: Id) | EndFiber | CallOffload

  datatype Label = Main | Code(a: Action) | Work(w: nat)

  // ------------------------------------------------------------------ the steps

  function Job(p: Pc): Option<nat> {
    if p.In? then Some(p.c) else None
  }

  /** The worker a fiber owns. */
  function Slot(p: Pc): Option<nat> {
    if p.In? && p.at.Owns? then Some(p.at.w) else None
  }

  predicate Parked(p: Pc) {
    match p
    case ParkedScript => true
    case ParkedEnd => true
    case In(_, ParkedPick) => true
    case In(_, ParkedLinger) => true
    case In(_, Owns(_, st, _)) => st == ParkedPoll
    case _ => false
  }

  /** Indices are in range and the three views of the fibers agree. */
  ghost predicate Typed(s: State) {
    && Wf(s.sched)
    && (forall id :: id in s.pc <==> id in s.sched.flags)
    && |s.owner| == |s.ws|
    && (forall id :: id in s.pc && Job(s.pc[id]).Some? ==> Job(s.pc[id]).value < |s.calls|)
    && (forall id :: id in s.pc && Slot(s.pc[id]).Some? ==> Slot(s.pc[id]).value < |s.ws|)
    && (forall id :: id in s.pc && s.pc[id].In? && s.pc[id].at.Claimed? ==> s.pc[id].at.w < |s.ws|)
    && (!s.boot.Ready? ==> s.boot.j < |s.ws|)
  }

  /** Where a parked fiber goes on when its yield returns. */
  function Resume(p: Pc, swapped: bool): Pc {
    match p
    case ParkedScript => Script
    case In(c, ParkedPick) => if swapped then In(c, Picking(0)) else In(c, Fail)
    case In(c, Owns(w, _, b)) => if swapped then In(c, Owns(w, CheckDone, b)) else In(c, Owns(w, Unblock, b))
    case In(c, ParkedLinger) => In(c, Returning(true))
    case _ => Lost
  }

  /** b6b_wait: the DONE fibers are unlinked and freed. */
  function ReapState(s: State): State {
    var r := Reap(s.sched);
    s.(sched := r, pc := map id | id in s.pc && id in r.flags :: s.pc[id])
  }

  /** A yield: the running fiber parks at q and the next pending one goes on.
      A fresh fiber starts its routine; any other first reaps, then continues. */
  ghost function YieldTo(s: State, q: Pc): State
    requires Typed(s)
  {
    TargetIff(s.sched);
    var t := Target(s.sched);
    if t.None? then
      ReapState(s.(pc := s.pc[s.sched.fg := Resume(q, false)]))
    else
      var u := SwapState(s, q, t.value, WakesAt(s.pc[t.value]));
      if s.pc[t.value].Fresh? then u else ReapState(u)
  }

  function SwapState(s: State, q: Pc, x: Id, r: Pc): State
    requires s.sched.fg in s.sched.flags && x in s.sched.flags
  {
    s.(sched := Swap(s.sched, x), pc := s.pc[s.sched.fg := q][x := r])
  }

  /** The position a fiber goes on at when it is swapped in. */
  function WakesAt(p: Pc): Pc {
    if p.Fresh? then Script else Resume(p, true)
  }

  ghost function Goto(s: State, p: Pc): State {
    s.(pc := s.pc[s.sched.fg := p])
  }

  /** The next action of the running fiber inside b6b_offload. */
  ghost function OffloadStep(s: State): Option<State>
    requires Typed(s)
  {
    var p := s.pc[s.sched.fg];
    match p
    case Exiting => Some(YieldTo(s, ParkedEnd))
    case In(c, Owns(w, stage, b)) => OwnerStep(s, c, w, stage, b)
    case In(c, at) => PlaceStep(s, c, at)
    case _ => None
  }

  /** Before a worker is owned, and after it was released. */
  ghost function PlaceStep(s: State, c: nat, at: Place): Option<State>
    requires Typed(s) && c < |s.calls| && (at.Claimed? ==> at.w < |s.ws|)
  {
    var call := s.calls[c];
    match at
    case Entered =>
      if !Threaded(s.sched) then
        Some(Goto(s.(calls := s.calls[c := call.(begun := call.begun + 1)]), In(c, Inline)))
      else
        Some(Goto(s.(sched := SetBlocked(s.sched, true)), In(c, Picking(0))))
    case Inline =>
      Some(Goto(s.(calls := s.calls[c := call.(ended := call.ended + 1)]), In(c, Returning(true))))
    case Picking(i) =>
      if i >= |s.ws| then Some(YieldTo(s, In(c, ParkedPick)))
      else if s.ws[i].st == IDLE then Some(Goto(s, In(c, Claimed(i))))
      else Some(Goto(s, In(c, Picking(i + 1))))
    case Claimed(w) =>
      Some(Goto(s.(ws := s.ws[w := s.ws[w].(st := RUNNING)], owner := s.owner[w := Some(s.sched.fg)]),
                In(c, Owns(w, SetFn, false))))
    case Linger => Some(YieldTo(s, In(c, ParkedLinger)))
    case Fail => Some(Goto(s.(sched := SetBlocked(s.sched, false)), In(c, Returning(false))))
    case Returning(r) => Some(Goto(s.(calls := s.calls[c := call.(result := Some(r))]), Script))
    case _ => None
  }

  /** While worker w is owned. */
  ghost function OwnerStep(s: State, c: nat, w: nat, stage: Stage, b: bool): Option<State>
    requires Typed(s) && w < |s.ws|
  {
    var k := s.ws[w];
    match stage
    case SetFn => Some(Goto(s.(ws := s.ws[w := k.(fn := c)]), In(c, Owns(w, SetArg, b))))
    case SetArg => Some(Goto(s.(ws := s.ws[w := k.(arg := c)]), In(c, Owns(w, Wake, b))))
    case Wake => Some(Goto(s.(ws := s.ws[w := k.(toWorker := k.toWorker + 1)]), In(c, Owns(w, Poll, b))))
    case Poll =>
      if !Threaded(s.sched) then Some(Goto(s, In(c, Owns(w, Unblock, b))))
      else if !OtherFree(s.sched) then Some(Goto(s, In(c, Owns(w, Unblock, OtherBlocked(s.sched)))))
      else Some(YieldTo(s, In(c, Owns(w, ParkedPoll, OtherBlocked(s.sched)))))
    case CheckDone => Some(Goto(s, In(c, Owns(w, if k.st == DONE then Unblock else Poll, b))))
    case Unblock => Some(Goto(s.(sched := SetBlocked(s.sched, false)), In(c, Owns(w, Await, b))))
    case Await =>
      if k.toMain == 0 then None
      else Some(Goto(s.(ws := s.ws[w := k.(toMain := k.toMain - 1)]), In(c, Owns(w, Release, b))))
    case Release =>
      Some(Goto(s.(ws := s.ws[w := k.(st := IDLE)], owner := s.owner[w := None]),
                In(c, if b then Linger else Returning(true))))
    case ParkedPoll => None
  }

  /** Script code of the running fiber: it may do these at any time. */
  ghost function ScriptStep(s: State, a: Action): Option<State>
    requires Typed(s)
  {
    if !s.boot.Ready? || !s.pc[s.sched.fg].Script? then None else
      match a
      case CallYield => Some(YieldTo(s, ParkedScript))
      case CallSpawn(id) =>
        if id in s.sched.flags then None
        else Some(s.(sched := Spawn(s.sched, id), pc := s.pc[id := Fresh]))
      case EndFiber =>
        if s.sched.fg == MAIN then None
        else Some(Goto(s.(sched := Finish(s.sched)), Exiting))
      case CallOffload =>
        Some(Goto(s.(calls := s.calls + [Call(0, 0, None)]), In(|s.calls|, Entered)))
  }

  ghost function BootStep(s: State): Option<State>
    requires Typed(s) && !s.boot.Ready?
  {
    var j := s.boot.j;
    var w := s.ws[j];
    match s.boot
    case Create(_) => Some(s.(ws := s.ws[j := w.(pc := BootStore)], boot := AwaitUp(j)))
    case AwaitUp(_) =>
      if w.toMain == 0 then None
      else Some(s.(ws := s.ws[j := w.(toMain := w.toMain - 1)], boot := CheckUp(j)))
    case CheckUp(_) => Some(s.(boot := if w.st == UP then MakeIdle(j) else AwaitUp(j)))
    case MakeIdle(_) =>
      Some(s.(ws := s.ws[j := w.(st := IDLE)], boot := if j + 1 < |s.ws| then Create(j + 1) else Ready))
  }

  /** The next action of worker w. */
  ghost function WorkStep(s: State, i: nat): Option<State> {
    if i >= |s.ws| then None else
      var w := s.ws[i];
      match w.pc
      case Unborn => None
      case BootStore => Some(s.(ws := s.ws[i := w.(st := UP, pc := BootSignal)]))
      case BootSignal => Some(s.(ws := s.ws[i := w.(toMain := w.toMain + 1, pc := Wait)]))
      case Wait =>
        if w.toWorker == 0 then None
        else Some(s.(ws := s.ws[i := w.(toWorker := w.toWorker - 1, pc := Check)]))
      case Check => Some(s.(ws := s.ws[i := w.(pc := if w.st == RUNNING then LoadFn else Gone)]))
      case LoadFn => Some(s.(ws := s.ws[i := w.(pc := LoadArg(w.fn))]))
      case LoadArg(f) =>
        var u := s.(ws := s.ws[i := w.(pc := Executing(f, w.arg))]);
        if f == w.arg && f < |s.calls| then
          Some(u.(calls := s.calls[f := s.calls[f].(begun := s.calls[f].begun + 1)]))
        else Some(u.(torn := true))
      case Executing(f, a) =>
        var u := s.(ws := s.ws[i := w.(pc := StoreDone)]);
        if f == a && f < |s.calls| then
          Some(u.(calls := s.calls[f := s.calls[f].(ended := s.calls[f].ended + 1)]))
        else Some(u.(torn := true))
      case StoreDone => Some(s.(ws := s.ws[i := w.(st := DONE, pc := Signal)]))
      case Signal => Some(s.(ws := s.ws[i := w.(toMain := w.toMain + 1, pc := Wait)]))
      case Gone => None
  }

  ghost function Step(s: State, l: Label): Option<State>
    requires Typed(s)
  {
    match l
    case Main => if s.boot.Ready? then OffloadStep(s) else BootStep(s)
    case Code(a) => ScriptStep(s, a)
    case Work(w) => WorkStep(s, w)
  }

  const NEWBORN := Worker(INIT, 0, 0, 0, 0, Unborn)

  /** The moment the pool records are initialised, before any thread exists. */
  ghost predicate Initial(s: State) {
    && s.boot == Create(0)
    && s.sched == Sched([MAIN], map[MAIN := Flags(false, true, false, false)], MAIN, 0)
    && s.pc == map[MAIN := Script]
    && |s.ws| == |s.owner| >= 1
    && (forall i :: 0 <= i < |s.ws| ==> s.ws[i].(fn := 0, arg := 0) == NEWBORN && s.owner[i] == None)
    && s.calls == [] && !s.torn
  }

  ghost predicate CanRun(s: State, ls: seq<Label>)
    decreases |ls|
  {
    ls == [] || (Typed(s) && Step(s, ls[0]).Some? && CanRun(Step(s, ls[0]).value, ls[1..]))
  }

  ghost function After(s: State, ls: seq<Label>): State
    requires CanRun(s, ls)
    decreases |ls|
  {
    if ls == [] then s else After(Step(s, ls[0]).value, ls[1..])
  }

  // -------------------------------------------------------------- the invariant

  /** What the owner's position says about its worker. */
  datatype Role = Free | Preparing(c: nat, fnSet: bool, argSet: bool) | Posted(c: nat) | Collected(c: nat)

  function RoleOf(p: Pc): Role {
    if !(p.In? && p.at.Owns?) then Free else
      match p.at.stage
      case SetFn => Preparing(p.c, false, false)
      case SetArg => Preparing(p.c, true, false)
      case Wake => Preparing(p.c, true, true)
      case Release => Collected(p.c)
      case _ => Posted(p.c)
  }

  predicate Quiet(w: Worker, st: WState) {
    w.st == st && w.pc == Wait && w.toWorker == 0 && w.toMain == 0
  }

  /** The worker is somewhere between being woken for c and signalling back. */
  predicate Serving(w: Worker, c: nat) {
    && w.fn == c && w.arg == c
    && match w.pc
       case Wait =>
         || (w.st == RUNNING && w.toWorker == 1 && w.toMain == 0)
         || (w.st == DONE && w.toWorker == 0 && w.toMain == 1)
       case Check => w.st == RUNNING && w.toWorker == 0 && w.toMain == 0
       case LoadFn => w.st == RUNNING && w.toWorker == 0 && w.toMain == 0
       case LoadArg(f) => f == c && w.st == RUNNING && w.toWorker == 0 && w.toMain == 0
       case Executing(f, a) => f == c && a == c && w.st == RUNNING && w.toWorker == 0 && w.toMain == 0
       case StoreDone => w.st == RUNNING && w.toWorker == 0 && w.toMain == 0
       case Signal => w.st == DONE && w.toWorker == 0 && w.toMain == 0
       case _ => false
  }

  predicate Plays(w: Worker, r: Role) {
    match r
    case Free => Quiet(w, IDLE)
    case Preparing(c, f, a) => Quiet(w, RUNNING) && (f ==> w.fn == c) && (a ==> w.arg == c)
    case Posted(c) => Serving(w, c)
    case Collected(c) => Quiet(w, DONE)
  }

  function Begun(w: Worker): nat {
    match w.pc
    case Executing(_, _) => 1
    case StoreDone => 1
    case Signal => 1
    case Wait => if w.st == DONE then 1 else 0
    case _ => 0
  }

  function Ended(w: Worker): nat {
    if w.pc.Executing? then 0 else Begun(w)
  }

  /** How often a call has begun and ended, by its fiber's position. */
  function Tally(ws: seq<Worker>, at: Place): (nat, nat) {
    match at
    case Inline => (1, 0)
    case Linger => (1, 1)
    case ParkedLinger => (1, 1)
    case Returning(r) => if r then (1, 1) else (0, 0)
    case Owns(w, stage, _) =>
      (match stage
       case SetFn => (0, 0)
       case SetArg => (0, 0)
       case Wake => (0, 0)
       case Release => (1, 1)
       case _ => if w < |ws| then (Begun(ws[w]), Ended(ws[w])) else (0, 0))
    case _ => (0, 0)
  }

  predicate BlockedAt(p: Pc) {
    p.In? &&
    match p.at
    case Picking(_) => true
    case ParkedPick => true
    case Claimed(_) => true
    case Fail => true
    case Owns(_, stage, _) => stage != Await && stage != Release
    case _ => false
  }

  /** Where a fiber may be: the running one never at Lost or Fail, and about to
      return only success; all others fresh or parked. */
  predicate Placed(p: Pc, running: bool) {
    if running then
      !(p.Fresh? || p.Lost? || Parked(p)) && (p.In? ==> !p.at.Fail? && (p.at.Returning? ==> p.at.r))
    else p.Fresh? || Parked(p)
  }

  ghost predicate FiberOk(s: State, id: Id)
    requires Typed(s) && id in s.pc
  {
    var p := s.pc[id];
    && Placed(p, id == s.sched.fg)
    && s.sched.flags[id].done == (p.Exiting? || p.ParkedEnd?)
    && s.sched.flags[id].blocked == BlockedAt(p)
    && (p.In? ==>
      var call := s.calls[p.c];
      && call.result == None && (call.begun, call.ended) == Tally(s.ws, p.at)
      && (p.at.Owns? ==> s.owner[p.at.w] == Some(id) && Plays(s.ws[p.at.w], RoleOf(p)))
      && (p.at.Picking? ==> forall i :: 0 <= i < p.at.i && i < |s.ws| ==> s.owner[i].Some?)
      && (p.at.Claimed? ==> s.owner[p.at.w] == None))
  }

  ghost predicate SlotOk(s: State, i: nat)
    requires Typed(s) && i < |s.ws|
  {
    match s.owner[i]
    case None => Plays(s.ws[i], Free)
    case Some(id) => id in s.pc && Slot(s.pc[id]) == Some(i)
  }

  predicate CallOk(call: Call) {
    call.result.Some? ==> call == Call(1, 1, Some(true))
  }

  ghost predicate JobsApart(s: State) {
    forall a, b :: a in s.pc && b in s.pc && a != b && Job(s.pc[a]).Some? ==> Job(s.pc[a]) != Job(s.pc[b])
  }

  ghost predicate Steady(s: State) {
    && s.boot.Ready? && Typed(s) && Safe(s.sched) && |s.ws| >= 1 && !s.torn
    && JobsApart(s)
    && (forall id :: id in s.pc ==> FiberOk(s, id))
    && (forall i :: 0 <= i < |s.ws| ==> SlotOk(s, i))
    && (forall c :: 0 <= c < |s.calls| ==> CallOk(s.calls[c]))
  }

  ghost predicate Booting(s: State) {
    && !s.boot.Ready? && Typed(s) && Safe(s.sched) && !s.torn && s.calls == []
    && s.sched.order == [MAIN] && s.sched.flags == map[MAIN := Flags(false, true, false, false)]
    && s.pc == map[MAIN := Script]
    && (forall i :: 0 <= i < |s.ws| ==> s.owner[i] == None)
    && (forall i :: 0 <= i < s.boot.j ==> Quiet(s.ws[i], IDLE))
    && (forall i :: s.boot.j < i < |s.ws| ==> s.ws[i].pc == Unborn && s.ws[i].toWorker == 0 && s.ws[i].toMain == 0)
    && var w := s.ws[s.boot.j];
       w.toWorker == 0 &&
       match s.boot
       case Create(_) => w.pc == Unborn && w.toMain == 0
       case AwaitUp(_) =>
         || (w.pc == BootStore && w.toMain == 0)
         || (w.pc == BootSignal && w.st == UP && w.toMain == 0)
         || (w.pc == Wait && w.st == UP && w.toMain == 1)
       case CheckUp(_) => w.pc == Wait && w.st == UP && w.toMain == 0
       case MakeIdle(_) => w.pc == Wait && w.st == UP && w.toMain == 0
  }

  ghost predicate Inv(s: State) {
    if s.boot.Ready? then Steady(s) else Booting(s)
  }

  // ------------------------------------------------- the invariant is inductive

  lemma {:induction false} BootKeeps(s: State)
    requires Booting(s)
    ensures BootStep(s).Some? ==> Inv(BootStep(s).value)
  {
    hide Distinct, Wf, Safe;
    var r := BootStep(s);
    if r.Some? && r.value.boot.Ready? {
      BootDone(s, r.value);
    } else {
      hide Steady;
    }
  }

  /** The last worker is made IDLE and the main fiber starts to run. */
  lemma {:induction false} BootDone(s: State, t: State)
    requires Booting(s) && BootStep(s) == Some(t) && t.boot.Ready?
    ensures Steady(t)
  {
    hide Distinct, Wf, Safe;
    assert t.pc == map[MAIN := Script] && t.calls == [];
    assert t.sched == s.sched && s.sched.fg == MAIN by {
      Here(s);
    }
  }

  lemma {:induction false} BootWorkKeeps(s: State, i: nat)
    requires Booting(s)
    ensures WorkStep(s, i).Some? ==> Inv(WorkStep(s, i).value)
  {
    hide Distinct, Wf, Safe, Steady;
  }

  /** What a parked fiber depends on: its flags, its worker, its call. */
  ghost predicate SameFor(s: State, t: State, id: Id)
    requires Typed(s) && Typed(t)
  {
    && id in s.pc && id in t.pc && t.pc[id] == s.pc[id]
    && t.sched.flags[id] == s.sched.flags[id]
    && (Job(s.pc[id]).Some? ==> t.calls[Job(s.pc[id]).value] == s.calls[Job(s.pc[id]).value])
    && (Slot(s.pc[id]).Some? ==>
      var w := Slot(s.pc[id]).value; t.ws[w] == s.ws[w] && t.owner[w] == s.owner[w])
  }

  lemma {:induction false} FiberFrame(s: State, t: State, id: Id)
    requires Typed(s) && Typed(t) && SameFor(s, t, id) && FiberOk(s, id)
    requires id != s.sched.fg && id != t.sched.fg
    ensures FiberOk(t, id)
  {
  }

  lemma {:induction false} SlotFrame(s: State, t: State, i: nat)
    requires Typed(s) && Typed(t) && i < |s.ws| && i < |t.ws| && SlotOk(s, i)
    requires t.ws[i] == s.ws[i] && t.owner[i] == s.owner[i]
    requires s.owner[i].Some? ==>
      var id := s.owner[i].value; id in t.pc && (id in s.pc ==> Slot(t.pc[id]) == Slot(s.pc[id]))
    ensures SlotOk(t, i)
  {
  }

  /** The running fiber exists and its position is in range. */
  ghost predicate Anchored(s: State) {
    var f := s.sched.fg;
    && f in s.pc && f in s.sched.flags && |s.owner| == |s.ws|
    && (s.pc[f].In? ==> s.pc[f].c < |s.calls|)
    && (s.pc[f].In? && s.pc[f].at.Owns? ==> s.pc[f].at.w < |s.ws|)
    && (s.pc[f].In? && s.pc[f].at.Claimed? ==> s.pc[f].at.w < |s.ws|)
  }

  lemma Here(s: State)
    requires Typed(s)
    ensures Anchored(s)
  {
    hide Distinct;
  }

  /** A step of the running fiber f from position p to q.  It touches at most
      the worker w and the call at p: it is enough to look at those. */
  ghost predicate Moves(s: State, t: State, q: Pc, w: nat)
    requires Typed(s)
  {
    var f := s.sched.fg;
    && t.boot == s.boot && t.torn == s.torn
    && t.pc == s.pc[f := q]
    && t.sched.order == s.sched.order && t.sched.fg == f && f in s.sched.flags && f in t.sched.flags
    && t.sched.flags == s.sched.flags[f := t.sched.flags[f]]
    && t.sched.flags[f] == s.sched.flags[f].(done := t.sched.flags[f].done, blocked := t.sched.flags[f].blocked)
    && (t.sched.flags[f].done ==> f != MAIN)
    && |t.ws| == |s.ws| && |t.owner| == |s.owner|
    && (forall i :: 0 <= i < |s.ws| && i != w ==> t.ws[i] == s.ws[i] && t.owner[i] == s.owner[i])
    && (w < |s.ws| ==> s.owner[w] == None || s.owner[w] == Some(f))
    && |t.calls| >= |s.calls|
    && (forall c :: 0 <= c < |s.calls| && Job(s.pc[f]) != Some(c) ==> t.calls[c] == s.calls[c])
    && (Job(q).Some? ==> Job(q) == Job(s.pc[f]) || Job(q).value >= |s.calls|)
    && (Slot(s.pc[f]).Some? ==> Slot(s.pc[f]).value == w)
  }

  lemma {:induction false} MoveTyped(s: State, t: State, q: Pc, w: nat)
    requires Typed(s) && Safe(s.sched) && Moves(s, t, q, w)
    requires (Job(q).Some? ==> Job(q).value < |t.calls|) && (Slot(q).Some? ==> Slot(q).value < |s.ws|)
    requires q.In? && q.at.Claimed? ==> q.at.w < |s.ws|
    ensures Typed(t) && Safe(t.sched)
  {
    hide Distinct, Typed, Safe;
    MoveSafe(s, t, q, w);
    SafeWf(t.sched);
    MovePlaces(s, t, q, w);
  }

  lemma MoveSafe(s: State, t: State, q: Pc, w: nat)
    requires Typed(s) && Safe(s.sched) && Moves(s, t, q, w)
    ensures Safe(t.sched)
  {
    hide Distinct, Typed;
  }

  lemma MovePlaces(s: State, t: State, q: Pc, w: nat)
    requires Typed(s) && Wf(t.sched) && Moves(s, t, q, w)
    requires (Job(q).Some? ==> Job(q).value < |t.calls|) && (Slot(q).Some? ==> Slot(q).value < |s.ws|)
    requires q.In? && q.at.Claimed? ==> q.at.w < |s.ws|
    ensures Typed(t)
  {
    hide Distinct;
  }

  lemma {:induction false} MoveKeeps(s: State, t: State, q: Pc, w: nat)
    requires Steady(s) && Moves(s, t, q, w)
    requires Typed(t) && Safe(t.sched)
    requires forall c :: 0 <= c < |t.calls| ==> CallOk(t.calls[c])
    requires FiberOk(t, s.sched.fg)
    requires w < |s.ws| ==> SlotOk(t, w)
    ensures Steady(t)
  {
    hide Distinct, FiberOk, SlotOk, CallOk;
    MoveFibers(s, t, q, w);
    MoveSlots(s, t, q, w);
    MoveJobs(s, t, q, w);
  }

  lemma {:induction false} MoveFibers(s: State, t: State, q: Pc, w: nat)
    requires Typed(s) && Moves(s, t, q, w) && Typed(t) && JobsApart(s) && FiberOk(t, s.sched.fg)
    requires forall id :: id in s.pc ==> FiberOk(s, id)
    ensures forall id :: id in t.pc ==> FiberOk(t, id)
  {
    hide Distinct;
    forall id | id in t.pc && id != s.sched.fg
      ensures FiberOk(t, id)
    {
      MoveSame(s, t, q, w, id);
      hide FiberOk, SameFor;
      FiberFrame(s, t, id);
    }
  }

  lemma {:induction false} MoveSame(s: State, t: State, q: Pc, w: nat, id: Id)
    requires Typed(s) && Moves(s, t, q, w) && Typed(t) && JobsApart(s) && id in t.pc && id != s.sched.fg
    requires id in s.pc && FiberOk(s, id)
    ensures SameFor(s, t, id)
  {
    hide Distinct, Plays, Tally, Placed, BlockedAt;
  }

  lemma {:induction false} MoveSlots(s: State, t: State, q: Pc, w: nat)
    requires Typed(s) && Moves(s, t, q, w) && Typed(t)
    requires w < |s.ws| ==> SlotOk(t, w)
    requires forall i :: 0 <= i < |s.ws| ==> SlotOk(s, i)
    ensures forall i :: 0 <= i < |t.ws| ==> SlotOk(t, i)
  {
    hide Distinct, Plays;
    forall i | 0 <= i < |t.ws| && i != w
      ensures SlotOk(t, i)
    {
      assert SlotOk(s, i);
    }
  }

  lemma {:induction false} MoveJobs(s: State, t: State, q: Pc, w: nat)
    requires Typed(s) && Moves(s, t, q, w) && JobsApart(s)
    ensures JobsApart(t)
  {
    var f := s.sched.fg;
    forall a, b | a in t.pc && b in t.pc && a != b && Job(t.pc[a]).Some?
      ensures Job(t.pc[a]) != Job(t.pc[b])
    {
    }
  }

  // --------------------------------------------------------------- yield steps

  lemma {:induction false} ReapKeeps(s: State)
    requires Steady(s) && !s.sched.flags[s.sched.fg].done
    ensures Steady(ReapState(s))
  {
    hide Distinct, Fibers.Live;
    var t := ReapState(s);
    ReapSafe(s.sched);
    assert Typed(t);
    forall id | id in t.pc
      ensures FiberOk(t, id)
    {
      ReapFiber(s, id);
    }
    hide FiberOk;
    forall i | 0 <= i < |t.ws|
      ensures SlotOk(t, i)
    {
      if s.owner[i].Some? {
        OwnerLive(s, i);
      }
      SlotFrame(s, t, i);
    }
  }

  lemma {:induction false} ReapFiber(s: State, id: Id)
    requires Typed(s) && Safe(s.sched) && Typed(ReapState(s)) && id in ReapState(s).pc && id in s.pc && FiberOk(s, id)
    requires ReapState(s).sched.flags[id] == s.sched.flags[id]
    ensures FiberOk(ReapState(s), id)
  {
    hide Distinct, Fibers.Live, Wf, Safe;
  }

  /** Whoever owns a worker is inside the protocol, so it is not DONE. */
  lemma {:induction false} OwnerLive(s: State, i: nat)
    requires Steady(s) && i < |s.ws| && s.owner[i].Some?
    ensures var id := s.owner[i].value;
      id in s.pc && Slot(s.pc[id]) == Some(i) && !s.sched.flags[id].done
  {
    hide Distinct, Plays;
    assert SlotOk(s, i);
    assert FiberOk(s, s.owner[i].value);
  }

  /** The running fiber may park at q. */
  ghost predicate Parks(s: State, q: Pc)
    requires Typed(s)
  {
    var p := s.pc[s.sched.fg];
    && Parked(q)
    && Job(q) == Job(p) && Slot(q) == Slot(p) && RoleOf(q) == RoleOf(p)
    && (p.In? ==> Tally(s.ws, q.at) == Tally(s.ws, p.at)) && BlockedAt(q) == BlockedAt(p)
    && (q.ParkedEnd? <==> p.Exiting?)
  }

  lemma SafeWf(s: Sched)
    requires Safe(s)
    ensures Wf(s)
  {
  }

  lemma {:induction false} SwapKeeps(s: State, q: Pc, x: Id)
    requires Steady(s) && Parks(s, q) && Target(s.sched) == Some(x) && x in s.pc
    ensures Steady(SwapState(s, q, x, WakesAt(s.pc[x])))
  {
    hide Distinct, Target, CallOk, FiberOk, SlotOk, Slot, Job, Safe;
    var t := SwapState(s, q, x, WakesAt(s.pc[x]));
    SafeWf(s.sched);
    TargetIff(s.sched);
    SwapSafe(s.sched, x);
    SafeWf(t.sched);
    PendingWakes(s, x);
    SwapSame(s, t, q, x);
    SwapTyped(s, t, q, x);
    hide Wf, Parks;
    SwapFibers(s, t, q, x);
    SwapSlots(s, t);
    SwapJobs(s, t);
  }

  lemma {:induction false} SwapFibers(s: State, t: State, q: Pc, x: Id)
    requires Typed(s) && Typed(t) && Parks(s, q) && x in s.pc && x != s.sched.fg
    requires t == SwapState(s, q, x, WakesAt(s.pc[x]))
    requires s.pc[x].Fresh? || (Parked(s.pc[x]) && !s.pc[x].ParkedEnd?)
    requires forall id :: id in s.pc ==> FiberOk(s, id)
    ensures forall id :: id in t.pc ==> FiberOk(t, id)
  {
    hide Distinct, FiberOk, Parks, WakesAt, Parked;
    forall id | id in t.pc
      ensures FiberOk(t, id)
    {
      if id == s.sched.fg {
        SwapOut(s, q, x);
      } else if id == x {
        SwapIn(s, q, x);
      } else {
        FiberFrame(s, t, id);
      }
    }
  }

  lemma {:induction false} SwapSlots(s: State, t: State)
    requires Typed(s) && Typed(t) && t.ws == s.ws && t.owner == s.owner
    requires forall id :: id in t.pc <==> id in s.pc
    requires forall id :: id in t.pc ==> Slot(t.pc[id]) == Slot(s.pc[id])
    requires forall i :: 0 <= i < |s.ws| ==> SlotOk(s, i)
    ensures forall i :: 0 <= i < |t.ws| ==> SlotOk(t, i)
  {
    hide Distinct, Slot, Plays;
    forall i | 0 <= i < |t.ws|
      ensures SlotOk(t, i)
    {
      assert SlotOk(s, i);
    }
  }

  /** A pending fiber is fresh or parked with something left to do. */
  lemma {:induction false} PendingWakes(s: State, x: Id)
    requires Typed(s) && Pending(s.sched.flags, x) && x != s.sched.fg && FiberOk(s, x)
    ensures s.pc[x].Fresh? || (Parked(s.pc[x]) && !s.pc[x].ParkedEnd?)
    ensures Job(WakesAt(s.pc[x])) == Job(s.pc[x]) && Slot(WakesAt(s.pc[x])) == Slot(s.pc[x])
  {
    hide Distinct, Plays, Tally;
  }

  lemma {:induction false} SwapSame(s: State, t: State, q: Pc, x: Id)
    requires Typed(s) && Parks(s, q) && x in s.pc && x != s.sched.fg
    requires t == SwapState(s, q, x, WakesAt(s.pc[x]))
    requires Job(WakesAt(s.pc[x])) == Job(s.pc[x]) && Slot(WakesAt(s.pc[x])) == Slot(s.pc[x])
    ensures forall id :: id in t.pc ==>
      id in s.pc && Job(t.pc[id]) == Job(s.pc[id]) && Slot(t.pc[id]) == Slot(s.pc[id])
    ensures forall id :: id in t.pc <==> id in s.pc
    ensures q.In? ==> !q.at.Claimed?
  {
    hide Distinct, Job, Slot, WakesAt, RoleOf, Tally, BlockedAt;
  }

  lemma {:induction false} SwapTyped(s: State, t: State, q: Pc, x: Id)
    requires Typed(s) && x in s.pc && x != s.sched.fg && t == SwapState(s, q, x, WakesAt(s.pc[x]))
    requires Wf(t.sched) && (q.In? ==> !q.at.Claimed?)
    requires forall id :: id in t.pc ==> Job(t.pc[id]) == Job(s.pc[id]) && Slot(t.pc[id]) == Slot(s.pc[id])
    ensures Typed(t)
  {
    hide Distinct;
  }

  lemma {:induction false} SwapOut(s: State, q: Pc, x: Id)
    requires Typed(s) && Parks(s, q) && x in s.pc && x != s.sched.fg && FiberOk(s, s.sched.fg)
    requires Typed(SwapState(s, q, x, WakesAt(s.pc[x])))
    ensures FiberOk(SwapState(s, q, x, WakesAt(s.pc[x])), s.sched.fg)
  {
    hide Distinct, Wf, Begun, Ended, Plays;
  }

  lemma {:induction false} SwapIn(s: State, q: Pc, x: Id)
    requires Typed(s) && x in s.pc && x != s.sched.fg && FiberOk(s, x)
    requires s.pc[x].Fresh? || (Parked(s.pc[x]) && !s.pc[x].ParkedEnd?)
    requires Typed(SwapState(s, q, x, WakesAt(s.pc[x])))
    ensures FiberOk(SwapState(s, q, x, WakesAt(s.pc[x])), x)
  {
    hide Distinct, Wf, Begun, Ended, Plays;
  }

  lemma {:induction false} SwapJobs(s: State, t: State)
    requires JobsApart(s)
    requires forall id :: id in t.pc ==> id in s.pc && Job(t.pc[id]) == Job(s.pc[id])
    ensures JobsApart(t)
  {
  }

  lemma {:induction false} AloneKeeps(s: State, q: Pc)
    requires Steady(s) && Parks(s, q) && Target(s.sched) == None
    requires !q.ParkedEnd? && !(q.In? && q.at.ParkedPick?)
    ensures Steady(YieldTo(s, q))
  {
    hide Distinct, Target, CallOk, SlotOk, FiberOk, Wf;
    var f := s.sched.fg;
    var r := Resume(q, false);
    var t := s.(pc := s.pc[f := r]);
    Here(s);
    assert FiberOk(s, f);
    AloneFiber(s, q);
    hide Parks, Resume;
    var w := if Slot(s.pc[f]).Some? then Slot(s.pc[f]).value else |s.ws|;
    AloneMoves(s, t, r, w);
    AloneSlot(s, t, r, w);
    hide Moves, Safe, Typed;
    MoveKeeps(s, t, r, w);
    ReapKeeps(t);
  }

  lemma AloneMoves(s: State, t: State, r: Pc, w: nat)
    requires Steady(s) && Anchored(s) && t == s.(pc := s.pc[s.sched.fg := r])
    requires Job(r) == Job(s.pc[s.sched.fg]) && !s.sched.flags[s.sched.fg].done
    requires w == if Slot(s.pc[s.sched.fg]).Some? then Slot(s.pc[s.sched.fg]).value else |s.ws|
    ensures Moves(s, t, r, w)
  {
    hide Distinct, Wf, Safe, SlotOk, CallOk, Plays, Tally;
    assert FiberOk(s, s.sched.fg);
    assert s.sched.flags == s.sched.flags[s.sched.fg := s.sched.flags[s.sched.fg]];
  }

  lemma AloneSlot(s: State, t: State, r: Pc, w: nat)
    requires Steady(s) && Typed(t) && Anchored(s) && t == s.(pc := s.pc[s.sched.fg := r])
    requires Slot(r) == Slot(s.pc[s.sched.fg])
    ensures w < |s.ws| ==> SlotOk(t, w)
  {
    hide Distinct, Wf, Safe, CallOk, Plays, FiberOk;
    assert w < |s.ws| ==> SlotOk(s, w);
  }

  lemma {:induction false} AloneFiber(s: State, q: Pc)
    requires Typed(s) && Parks(s, q) && !q.ParkedEnd? && !(q.In? && q.at.ParkedPick?) && FiberOk(s, s.sched.fg)
    ensures var t := s.(pc := s.pc[s.sched.fg := Resume(q, false)]);
      Typed(t) && FiberOk(t, s.sched.fg) && !t.sched.flags[s.sched.fg].done
    ensures Job(Resume(q, false)) == Job(s.pc[s.sched.fg]) && Slot(Resume(q, false)) == Slot(s.pc[s.sched.fg])
  {
    hide Distinct, Begun, Ended, Plays;
  }

  /** With every worker taken there is somebody to yield to. */
  lemma {:induction false} OwnerPending(s: State, i: nat)
    requires Steady(s) && i < |s.ws| && s.owner[i].Some? && s.owner[i].value != s.sched.fg
    ensures Target(s.sched).Some?
  {
    hide Distinct, Target, FiberOk;
    OwnerLive(s, i);
    TargetIff(s.sched);
    assert Pending(s.sched.flags, s.owner[i].value);
  }

  lemma {:induction false} YieldKeeps(s: State, q: Pc)
    requires Steady(s) && Parks(s, q)
    requires q.ParkedEnd? ==> s.sched.fg != MAIN
    requires q.In? && q.at.ParkedPick? ==>
      forall i :: 0 <= i < |s.ws| ==> s.owner[i].Some? && s.owner[i].value != s.sched.fg
    ensures Steady(YieldTo(s, q))
  {
    hide Distinct, Target, FiberOk;
    TargetIff(s.sched);
    if Target(s.sched).None? {
      assert q.ParkedEnd? ==> Pending(s.sched.flags, MAIN);
      if q.In? && q.at.ParkedPick? {
        OwnerPending(s, 0);
      }
      AloneKeeps(s, q);
    } else {
      var x := Target(s.sched).value;
      SwapKeeps(s, q, x);
      SwapSafe(s.sched, x);
      if !s.pc[x].Fresh? {
        hide Steady, Typed;
        ReapKeeps(SwapState(s, q, x, WakesAt(s.pc[x])));
      }
    }
  }

  // -------------------------------------------------- steps that do not yield

  /** The running fiber owns w and its next step does not yield. */
  ghost predicate OwnerReady(s: State, c: nat, w: nat, stage: Stage, b: bool) {
    && Typed(s) && Anchored(s) && w < |s.ws| && s.pc[s.sched.fg] == In(c, Owns(w, stage, b)) && FiberOk(s, s.sched.fg)
    && (stage.Poll? ==> !Threaded(s.sched) || !OtherFree(s.sched))
  }

  /** Each step of the owner of a worker, other than a yield. */
  lemma {:induction false} OwnerKeeps(s: State, t: State, c: nat, w: nat, stage: Stage, b: bool)
    requires Steady(s) && OwnerReady(s, c, w, stage, b) && OwnerStep(s, c, w, stage, b) == Some(t)
    ensures Steady(t)
  {
    hide Distinct, Threaded, OtherFree, OtherBlocked, FiberOk, SlotOk;
    var f := s.sched.fg;
    OwnerMoves(s, t, c, w, stage, b);
    hide OwnerStep;
    MoveTyped(s, t, t.pc[f], w);
    OwnerFiber(s, t, c, w, stage, b);
    OwnerSlot(s, t, c, w, stage, b);
    hide Wf, Safe, Typed, Moves;
    MoveKeeps(s, t, t.pc[f], w);
  }

  lemma {:induction false} OwnerMoves(s: State, t: State, c: nat, w: nat, stage: Stage, b: bool)
    requires OwnerReady(s, c, w, stage, b) && OwnerStep(s, c, w, stage, b) == Some(t)
    ensures s.sched.fg in t.pc && Moves(s, t, t.pc[s.sched.fg], w) && t.calls == s.calls
    ensures var q := t.pc[s.sched.fg]; q.In? && q.c == c && (q.at.Owns? ==> q.at.w == w) && !q.at.Claimed?
  {
    hide Distinct, Threaded, OtherFree, OtherBlocked, Wf, Typed, Plays, Tally;
  }

  /** The worker and the owner's position stay in step. */
  lemma {:induction false} OwnerSlot(s: State, t: State, c: nat, w: nat, stage: Stage, b: bool)
    requires OwnerReady(s, c, w, stage, b) && OwnerStep(s, c, w, stage, b) == Some(t) && Typed(t)
    ensures SlotOk(t, w)
  {
    hide Distinct, Threaded, OtherFree, OtherBlocked, Wf, Tally;
  }

  lemma {:induction false} OwnerFiber(s: State, t: State, c: nat, w: nat, stage: Stage, b: bool)
    requires OwnerReady(s, c, w, stage, b) && OwnerStep(s, c, w, stage, b) == Some(t) && Typed(t)
    ensures FiberOk(t, s.sched.fg)
  {
    hide Distinct, Threaded, OtherFree, OtherBlocked, Wf, FiberOk, OwnerStep, Typed;
    match stage
    case SetFn => OwnerPrepares(s, t, c, w, stage, b);
    case SetArg => OwnerPrepares(s, t, c, w, stage, b);
    case Wake => OwnerPrepares(s, t, c, w, stage, b);
    case Await => OwnerFinishes(s, t, c, w, stage, b);
    case Release => OwnerFinishes(s, t, c, w, stage, b);
    case _ => OwnerWaits(s, t, c, w, stage, b);
  }

  lemma {:induction false} OwnerPrepares(s: State, t: State, c: nat, w: nat, stage: Stage, b: bool)
    requires OwnerReady(s, c, w, stage, b) && OwnerStep(s, c, w, stage, b) == Some(t) && Typed(t)
    requires stage.SetFn? || stage.SetArg? || stage.Wake?
    ensures FiberOk(t, s.sched.fg)
  {
    hide Distinct, Wf, Typed, YieldTo;
  }

  lemma {:induction false} OwnerWaits(s: State, t: State, c: nat, w: nat, stage: Stage, b: bool)
    requires OwnerReady(s, c, w, stage, b) && OwnerStep(s, c, w, stage, b) == Some(t) && Typed(t)
    requires stage.Poll? || stage.CheckDone? || stage.Unblock? || stage.ParkedPoll?
    ensures FiberOk(t, s.sched.fg)
  {
    hide Distinct, Threaded, OtherFree, OtherBlocked, Wf, Typed, YieldTo, Begun, Ended, Serving;
  }

  lemma {:induction false} OwnerFinishes(s: State, t: State, c: nat, w: nat, stage: Stage, b: bool)
    requires OwnerReady(s, c, w, stage, b) && OwnerStep(s, c, w, stage, b) == Some(t) && Typed(t)
    requires stage.Await? || stage.Release?
    ensures FiberOk(t, s.sched.fg)
  {
    hide Distinct, Wf, Typed, YieldTo;
  }

  /** The running fiber is in the protocol without a worker, and does not yield. */
  ghost predicate PlaceReady(s: State, c: nat, at: Place) {
    && Typed(s) && Anchored(s) && s.pc[s.sched.fg] == In(c, at) && FiberOk(s, s.sched.fg)
    && !at.Owns? && !at.Linger? && (at.Picking? ==> at.i < |s.ws|)
  }

  /** The test of b6b_offload_ready: a worker is IDLE exactly when no fiber owns it. */
  lemma {:induction false} IdleIffUnowned(s: State, i: nat)
    requires Steady(s) && i < |s.ws|
    ensures s.ws[i].st == IDLE <==> s.owner[i] == None
  {
    hide Distinct, Tally;
    assert SlotOk(s, i);
    if s.owner[i].Some? {
      assert FiberOk(s, s.owner[i].value);
    }
  }

  /** The steps before a worker is owned and after it is released. */
  lemma {:induction false} PlaceKeeps(s: State, t: State, c: nat, at: Place)
    requires Steady(s) && PlaceReady(s, c, at) && c < |s.calls| && (at.Claimed? ==> at.w < |s.ws|)
    requires PlaceStep(s, c, at) == Some(t)
    ensures Steady(t)
  {
    hide Distinct, Threaded, FiberOk, SlotOk;
    var f := s.sched.fg;
    var w := if at.Claimed? then at.w else |s.ws|;
    PlaceMoves(s, t, c, at);
    hide PlaceStep;
    MoveTyped(s, t, t.pc[f], w);
    if at.Picking? {
      IdleIffUnowned(s, at.i);
    }
    assert at.Claimed? ==> SlotOk(s, at.w);
    PlaceFiber(s, t, c, at);
    if at.Claimed? {
      PlaceSlot(s, t, c, at);
    }
    PlaceCalls(s, t, c, at);
    hide Wf, Safe, Typed, Moves;
    MoveKeeps(s, t, t.pc[f], w);
  }

  lemma {:induction false} PlaceMoves(s: State, t: State, c: nat, at: Place)
    requires PlaceReady(s, c, at) && c < |s.calls| && (at.Claimed? ==> at.w < |s.ws|)
    requires PlaceStep(s, c, at) == Some(t)
    ensures s.sched.fg in t.pc && Moves(s, t, t.pc[s.sched.fg], if at.Claimed? then at.w else |s.ws|)
    ensures var q := t.pc[s.sched.fg];
      (q.In? ==> q.c == c && (q.at.Owns? ==> q.at.w < |s.ws|) && (q.at.Claimed? ==> q.at.w < |s.ws|))
  {
    hide Distinct, Threaded, Wf, Typed, Plays, Tally;
  }

  lemma {:induction false} PlaceClaims(s: State, t: State, c: nat, at: Place)
    requires PlaceReady(s, c, at) && c < |s.calls| && at.Claimed? && at.w < |s.ws|
    requires PlaceStep(s, c, at) == Some(t) && Typed(t)
    requires SlotOk(s, at.w)
    ensures FiberOk(t, s.sched.fg)
  {
    hide Distinct, Threaded, Wf, YieldTo, Typed, Begun, Ended, Serving;
  }

  lemma {:induction false} PlacePicks(s: State, t: State, c: nat, at: Place)
    requires PlaceReady(s, c, at) && c < |s.calls| && at.Picking?
    requires PlaceStep(s, c, at) == Some(t) && Typed(t)
    requires s.ws[at.i].st == IDLE <==> s.owner[at.i] == None
    ensures FiberOk(t, s.sched.fg)
  {
    hide Distinct, Threaded, Wf, YieldTo, Typed;
  }

  lemma {:induction false} PlaceElsewhere(s: State, t: State, c: nat, at: Place)
    requires PlaceReady(s, c, at) && c < |s.calls| && !at.Claimed? && !at.Picking?
    requires PlaceStep(s, c, at) == Some(t) && Typed(t)
    ensures FiberOk(t, s.sched.fg)
  {
    hide Distinct, Threaded, Wf, YieldTo, Typed;
  }

  lemma {:induction false} PlaceFiber(s: State, t: State, c: nat, at: Place)
    requires PlaceReady(s, c, at) && c < |s.calls| && (at.Claimed? ==> at.w < |s.ws| && SlotOk(s, at.w))
    requires PlaceStep(s, c, at) == Some(t) && Typed(t)
    requires at.Picking? ==> (s.ws[at.i].st == IDLE <==> s.owner[at.i] == None)
    ensures FiberOk(t, s.sched.fg)
  {
    hide Distinct, PlaceStep, Wf, YieldTo, FiberOk, SlotOk;
    if at.Claimed? {
      PlaceClaims(s, t, c, at);
    } else if at.Picking? {
      PlacePicks(s, t, c, at);
    } else {
      PlaceElsewhere(s, t, c, at);
    }
  }

  lemma {:induction false} PlaceSlot(s: State, t: State, c: nat, at: Place)
    requires PlaceReady(s, c, at) && c < |s.calls| && at.Claimed? && at.w < |s.ws|
    requires PlaceStep(s, c, at) == Some(t) && Typed(t)
    ensures SlotOk(t, at.w)
  {
    hide Distinct, Threaded, Wf, YieldTo, Typed;
  }

  lemma {:induction false} PlaceCalls(s: State, t: State, c: nat, at: Place)
    requires PlaceReady(s, c, at) && c < |s.calls| && (at.Claimed? ==> at.w < |s.ws|)
    requires PlaceStep(s, c, at) == Some(t)
    requires forall d :: 0 <= d < |s.calls| ==> CallOk(s.calls[d])
    ensures forall d :: 0 <= d < |t.calls| ==> CallOk(t.calls[d])
  {
    hide Distinct, Threaded, Wf, Plays;
  }

  // ------------------------------------------------------------- script steps

  lemma {:induction false} SpawnKeeps(s: State, id: Id)
    requires Steady(s) && id !in s.sched.flags
    ensures Steady(s.(sched := Spawn(s.sched, id), pc := s.pc[id := Fresh]))
  {
    hide Distinct, CallOk, Spawn, FiberOk, SlotOk, Safe;
    var t := s.(sched := Spawn(s.sched, id), pc := s.pc[id := Fresh]);
    SpawnWf(s.sched, id);
    SpawnSafe(s.sched, id);
    SpawnFlags(s.sched, id);
    SafeWf(t.sched);
    SpawnTyped(s, id, t);
    assert id != s.sched.fg by {
      Here(s);
    }
    hide Wf;
    SpawnFibers(s, id, t);
    SpawnSlots(s, id, t);
  }

  lemma SpawnWf(s: Sched, id: Id)
    requires Safe(s) && id !in s.flags
    ensures s.fg in s.order && id !in s.order
  {
    hide Distinct;
  }

  lemma SpawnSlots(s: State, id: Id, t: State)
    requires Typed(s) && Typed(t) && id !in s.sched.flags
    requires t == s.(sched := t.sched, pc := s.pc[id := Fresh])
    requires forall i :: 0 <= i < |s.ws| ==> SlotOk(s, i)
    ensures forall i :: 0 <= i < |t.ws| ==> SlotOk(t, i)
  {
    hide Distinct, Wf, Plays;
    forall i | 0 <= i < |t.ws|
      ensures SlotOk(t, i)
    {
      assert SlotOk(s, i);
    }
  }

  lemma {:induction false} SpawnTyped(s: State, id: Id, t: State)
    requires Typed(s) && id !in s.sched.flags && Wf(t.sched)
    requires t == s.(sched := t.sched, pc := s.pc[id := Fresh])
    requires t.sched.flags == s.sched.flags[id := Flags(true, false, false, false)]
    ensures Typed(t)
  {
    hide Distinct;
  }

  lemma {:induction false} SpawnFibers(s: State, id: Id, t: State)
    requires Typed(s) && Typed(t) && id !in s.sched.flags && id != s.sched.fg
    requires t == s.(sched := t.sched, pc := s.pc[id := Fresh]) && t.sched.fg == s.sched.fg
    requires t.sched.flags == s.sched.flags[id := Flags(true, false, false, false)]
    requires forall x :: x in s.pc ==> FiberOk(s, x)
    ensures forall x :: x in t.pc ==> FiberOk(t, x)
  {
    hide Distinct, Plays, Tally;
    forall x | x in t.pc
      ensures FiberOk(t, x)
    {
      if x != id {
        assert FiberOk(s, x);
      }
    }
  }

  lemma SpawnFlags(s: Sched, id: Id)
    requires s.fg in s.order
    ensures var t := Spawn(s, id);
      t.fg == s.fg && t.flags == s.flags[id := Flags(true, false, false, false)]
  {
  }

  lemma {:induction false} ScriptKeeps(s: State, a: Action)
    requires Steady(s)
    ensures ScriptStep(s, a).Some? ==> Steady(ScriptStep(s, a).value)
  {
    hide Distinct, Wf, Safe;
    Here(s);
    var f := s.sched.fg;
    var r := ScriptStep(s, a);
    if r.Some? {
      var t := r.value;
      match a
      case CallYield => ScriptParks(s); hide Steady; YieldKeeps(s, ParkedScript);
      case CallSpawn(id) => hide Steady; SpawnKeeps(s, id);
      case EndFiber => MoveScript(s, t, Exiting);
      case CallOffload => MoveScript(s, t, In(|s.calls|, Entered));
    }
  }

  lemma {:induction false} ScriptParks(s: State)
    requires Typed(s) && Anchored(s) && s.pc[s.sched.fg] == Script
    ensures Parks(s, ParkedScript)
  {
  }

  /** A script ends its fiber or calls b6b_offload. */
  lemma {:induction false} MoveScript(s: State, t: State, q: Pc)
    requires Steady(s) && Anchored(s) && s.pc[s.sched.fg] == Script
    requires (q == Exiting && s.sched.fg != MAIN && t == Goto(s.(sched := Finish(s.sched)), q)) ||
             (q == In(|s.calls|, Entered) && t == Goto(s.(calls := s.calls + [Call(0, 0, None)]), q))
    ensures Steady(t)
  {
    hide Distinct, Wf, Safe, FiberOk, SlotOk, CallOk;
    assert FiberOk(s, s.sched.fg);
    NotDone(s);
    ScriptMoves(s, t, q);
    NewCallOk(s.calls);
    hide Goto;
    MoveTyped(s, t, q, |s.ws|);
    ScriptFiber(s, t, q);
    hide Typed, Moves;
    MoveKeeps(s, t, q, |s.ws|);
  }

  lemma NotDone(s: State)
    requires Typed(s) && Anchored(s) && s.pc[s.sched.fg] == Script && FiberOk(s, s.sched.fg)
    ensures !s.sched.flags[s.sched.fg].done
  {
    hide Distinct, Wf, Typed, Plays, Tally;
  }

  lemma {:induction false} ScriptFiber(s: State, t: State, q: Pc)
    requires Typed(s) && Anchored(s) && s.pc[s.sched.fg] == Script && FiberOk(s, s.sched.fg) && Typed(t)
    requires (q == Exiting && s.sched.fg != MAIN && t == Goto(s.(sched := Finish(s.sched)), q)) ||
             (q == In(|s.calls|, Entered) && t == Goto(s.(calls := s.calls + [Call(0, 0, None)]), q))
    ensures FiberOk(t, s.sched.fg)
  {
    hide Distinct, Wf, Typed, Plays;
  }

  lemma NewCallOk(calls: seq<Call>)
    requires forall c :: 0 <= c < |calls| ==> CallOk(calls[c])
    ensures var more := calls + [Call(0, 0, None)];
      forall c :: 0 <= c < |more| ==> CallOk(more[c])
  {
  }

  lemma {:induction false} ScriptMoves(s: State, t: State, q: Pc)
    requires Typed(s) && Anchored(s) && s.pc[s.sched.fg] == Script
    requires s.sched.flags[s.sched.fg].done ==> s.sched.fg != MAIN
    requires (q == Exiting && s.sched.fg != MAIN && t == Goto(s.(sched := Finish(s.sched)), q)) ||
             (q == In(|s.calls|, Entered) && t == Goto(s.(calls := s.calls + [Call(0, 0, None)]), q))
    ensures Moves(s, t, q, |s.ws|)
  {
    hide Distinct, Wf, Typed;
  }

  // ------------------------------------------------------------- worker steps

  /** The effect of a worker's step on itself and on the call it serves. */
  lemma {:induction false} WorkServes(s: State, i: nat, c: nat, t: State)
    requires i < |s.ws| && c < |s.calls| && Serving(s.ws[i], c)
    requires s.calls[c] == Call(Begun(s.ws[i]), Ended(s.ws[i]), None)
    requires WorkStep(s, i) == Some(t)
    ensures t.(ws := s.ws, calls := s.calls) == s && |t.ws| == |s.ws| && |t.calls| == |s.calls|
    ensures Serving(t.ws[i], c) && t.calls[c] == Call(Begun(t.ws[i]), Ended(t.ws[i]), None)
    ensures forall k :: 0 <= k < |s.ws| && k != i ==> t.ws[k] == s.ws[k]
    ensures forall d :: 0 <= d < |s.calls| && d != c ==> t.calls[d] == s.calls[d]
  {
  }

  /** Only a worker that was woken and has not signalled back can step. */
  lemma {:induction false} WorkOnlyPosted(s: State, i: nat)
    requires Steady(s) && i < |s.ws| && WorkStep(s, i).Some?
    ensures s.owner[i].Some? && s.owner[i].value in s.pc
    ensures var id := s.owner[i].value;
      var p := s.pc[id];
      Slot(p) == Some(i) && p.c < |s.calls| && RoleOf(p) == Posted(p.c) && Serving(s.ws[i], p.c) &&
      s.calls[p.c] == Call(Begun(s.ws[i]), Ended(s.ws[i]), None)
  {
    hide Distinct, Wf, Safe;
    assert SlotOk(s, i);
    if s.owner[i].Some? {
      assert FiberOk(s, s.owner[i].value);
    }
  }

  lemma {:induction false} WorkKeeps(s: State, i: nat)
    requires Steady(s)
    ensures WorkStep(s, i).Some? ==> Steady(WorkStep(s, i).value)
  {
    hide Distinct, Wf, Safe;
    var r := WorkStep(s, i);
    if r.Some? {
      var t := r.value;
      WorkOnlyPosted(s, i);
      var id := s.owner[i].value;
      var c := s.pc[id].c;
      WorkServes(s, i, c, t);
      hide WorkStep, Serving;
      assert Typed(t);
      WorkFibers(s, t, i, id);
      hide FiberOk;
      forall k | 0 <= k < |t.ws|
        ensures SlotOk(t, k)
      {
        assert SlotOk(s, k);
      }
    }
  }

  lemma {:induction false} WorkFibers(s: State, t: State, i: nat, id: Id)
    requires Steady(s) && Typed(t) && i < |s.ws| && id in s.pc && Slot(s.pc[id]) == Some(i) && s.owner[i] == Some(id)
    requires var c := s.pc[id].c;
      && t.(ws := s.ws, calls := s.calls) == s && |t.ws| == |s.ws| && |t.calls| == |s.calls|
      && RoleOf(s.pc[id]) == Posted(c) && c < |t.calls|
      && Serving(t.ws[i], c) && t.calls[c] == Call(Begun(t.ws[i]), Ended(t.ws[i]), None)
      && (forall k :: 0 <= k < |s.ws| && k != i ==> t.ws[k] == s.ws[k])
      && (forall d :: 0 <= d < |s.calls| && d != c ==> t.calls[d] == s.calls[d])
    ensures forall x :: x in t.pc ==> FiberOk(t, x)
  {
    hide Distinct, Wf, Safe;
    forall x | x in t.pc
      ensures FiberOk(t, x)
    {
      assert FiberOk(s, x);
      if x == id {
        hide Serving, Begun, Ended;
      } else {
        hide Serving, Begun, Ended, Plays, BlockedAt, Placed;
        assert Job(s.pc[x]) != Job(s.pc[id]);
        assert Slot(s.pc[x]) != Some(i);
      }
    }
  }

  // ------------------------------------------------------- the main invariant

  /** The yields inside the protocol. */
  lemma {:induction false} ProtocolYields(s: State)
    requires Steady(s) && Anchored(s)
    ensures var p := s.pc[s.sched.fg];
      && (p.Exiting? ==> Steady(YieldTo(s, ParkedEnd)))
      && (p.In? && p.at.Linger? ==> Steady(YieldTo(s, In(p.c, ParkedLinger))))
      && (p.In? && p.at.Picking? && p.at.i >= |s.ws| ==> Steady(YieldTo(s, In(p.c, ParkedPick))))
      && (p.In? && p.at.Owns? && p.at.stage.Poll? ==>
        forall b :: Steady(YieldTo(s, In(p.c, Owns(p.at.w, ParkedPoll, b)))))
  {
    hide Distinct, Wf;
    var f := s.sched.fg;
    var p := s.pc[f];
    assert FiberOk(s, f);
    if p.Exiting? {
      ParksAt(s, ParkedEnd);
      YieldKeeps(s, ParkedEnd);
    }
    if p.In? {
      match p.at
      case Linger => ParksAt(s, In(p.c, ParkedLinger)); YieldKeeps(s, In(p.c, ParkedLinger));
      case Picking(i) =>
        if i >= |s.ws| {
          AllTaken(s);
          ParksAt(s, In(p.c, ParkedPick));
          YieldKeeps(s, In(p.c, ParkedPick));
        }
      case Owns(w, stage, _) =>
        if stage.Poll? {
          forall b
            ensures Steady(YieldTo(s, In(p.c, Owns(w, ParkedPoll, b))))
          {
            ParksAt(s, In(p.c, Owns(w, ParkedPoll, b)));
            YieldKeeps(s, In(p.c, Owns(w, ParkedPoll, b)));
          }
        }
      case _ =>
    }
  }

  lemma {:induction false} ParksAt(s: State, q: Pc)
    requires Typed(s) && Anchored(s)
    requires var p := s.pc[s.sched.fg];
      || (p.Exiting? && q == ParkedEnd)
      || (p.In? && p.at.Linger? && q == In(p.c, ParkedLinger))
      || (p.In? && p.at.Picking? && q == In(p.c, ParkedPick))
      || (p.In? && p.at.Owns? && p.at.stage.Poll? && q.In? && q.c == p.c &&
          q.at.Owns? && q.at.w == p.at.w && q.at.stage == ParkedPoll)
    ensures Parks(s, q)
  {
    hide Distinct, Wf, Begun, Ended;
  }

  /** A fiber that scanned the whole pool saw every worker owned by another. */
  lemma {:induction false} AllTaken(s: State)
    requires Steady(s) && Anchored(s)
    requires var p := s.pc[s.sched.fg]; p.In? && p.at.Picking? && p.at.i >= |s.ws|
    ensures forall i :: 0 <= i < |s.ws| ==> s.owner[i].Some? && s.owner[i].value != s.sched.fg
  {
    hide Distinct, Wf, Safe, Plays, Tally;
    assert FiberOk(s, s.sched.fg);
    forall i | 0 <= i < |s.ws|
      ensures s.owner[i].Some? && s.owner[i].value != s.sched.fg
    {
      assert SlotOk(s, i);
    }
  }

  lemma {:induction false} OffloadKeeps(s: State)
    requires Steady(s)
    ensures OffloadStep(s).Some? ==> Steady(OffloadStep(s).value)
  {
    hide Distinct, Wf, Safe, Threaded, OtherFree, OtherBlocked, YieldTo;
    Here(s);
    ProtocolYields(s);
    var r := OffloadStep(s);
    var p := s.pc[s.sched.fg];
    assert FiberOk(s, s.sched.fg);
    hide FiberOk, Typed, Steady;
    if r.Some? && p.In? && p.at.Owns? {
      if !p.at.stage.Poll? || !Threaded(s.sched) || !OtherFree(s.sched) {
        hide OwnerStep;
        OwnerKeeps(s, r.value, p.c, p.at.w, p.at.stage, p.at.pending);
      }
    } else if r.Some? && p.In? && !p.at.Linger? {
      if p.at.Picking? ==> p.at.i < |s.ws| {
        hide PlaceStep;
        PlaceKeeps(s, r.value, p.c, p.at);
      }
    }
  }

  lemma {:induction false} StepKeeps(s: State, l: Label)
    requires Inv(s) && Typed(s) && Step(s, l).Some?
    ensures Inv(Step(s, l).value) && Typed(Step(s, l).value)
  {
    hide Distinct, OffloadStep, WorkStep, BootStep, ScriptStep;
    match l
    case Main => if s.boot.Ready? { OffloadKeeps(s); } else { BootKeeps(s); }
    case Code(a) => if s.boot.Ready? { ScriptKeeps(s, a); } else { NoScriptInBoot(s, a); }
    case Work(w) => if s.boot.Ready? { WorkKeeps(s, w); } else { BootWorkKeeps(s, w); }
  }

  lemma NoScriptInBoot(s: State, a: Action)
    requires Typed(s) && !s.boot.Ready?
    ensures ScriptStep(s, a) == None
  {
    hide Distinct;
  }

  lemma InitialInv(s: State)
    requires Initial(s)
    ensures Inv(s) && Typed(s)
  {
  }

  /** Every state of every run satisfies the invariant. */
  lemma {:induction false} RunInv(s: State, ls: seq<Label>)
    requires Inv(s) && Typed(s) && CanRun(s, ls)
    ensures Inv(After(s, ls)) && Typed(After(s, ls))
    decreases |ls|
  {
    hide Distinct, Step, Inv, Typed;
    if ls != [] {
      StepKeeps(s, ls[0]);
      RunInv(Step(s, ls[0]).value, ls[1..]);
    }
  }

  // ------------------------------------------------------------------ theorems

  /** s is reached by some run from pool initialisation. */
  ghost predicate Reached(s0: State, ls: seq<Label>, s: State) {
    Initial(s0) && CanRun(s0, ls) && s == After(s0, ls)
  }

  lemma {:induction false} ReachedInv(s0: State, ls: seq<Label>, s: State)
    requires Reached(s0, ls, s)
    ensures Inv(s) && Typed(s) && Anchored(s)
  {
    hide Inv, Typed, CanRun, After;
    InitialInv(s0);
    RunInv(s0, ls);
    Here(s);
  }

  /** After start-up a worker is IDLE and quiet with no owner, or RUNNING or DONE
      with exactly one owning fiber, which holds no other worker.  It never
      leaves its loop, and what it executes is one unfinished call. */
  lemma {:induction false} WorkerStates(s0: State, ls: seq<Label>, s: State, i: nat)
    requires Reached(s0, ls, s) && s.boot.Ready? && i < |s.ws|
    ensures |s.owner| == |s.ws| && s.ws[i].pc != Gone && !s.torn
    ensures s.owner[i] == None ==> Quiet(s.ws[i], IDLE) && forall id :: id in s.pc ==> Slot(s.pc[id]) != Some(i)
    ensures s.owner[i].Some? ==>
      && (s.ws[i].st == RUNNING || s.ws[i].st == DONE)
      && (forall id :: id in s.pc ==> (Slot(s.pc[id]) == Some(i) <==> s.owner[i] == Some(id)))
    ensures s.ws[i].pc.Executing? ==>
      var (f, a) := (s.ws[i].pc.fn, s.ws[i].pc.arg);
      f == a < |s.calls| && s.calls[a] == Call(1, 0, None)
  {
    hide Distinct, Wf, Safe, CanRun, After, FiberOk, SlotOk, Quiet;
    ReachedInv(s0, ls, s);
    OwnersUnique(s, i);
    OwnedState(s, i);
  }

  lemma {:induction false} OwnedState(s: State, i: nat)
    requires Steady(s) && i < |s.ws|
    ensures s.owner[i] == None ==> Quiet(s.ws[i], IDLE)
    ensures s.owner[i].Some? ==> s.ws[i].st == RUNNING || s.ws[i].st == DONE
    ensures s.ws[i].pc != Gone
    ensures s.ws[i].pc.Executing? ==>
      var (f, a) := (s.ws[i].pc.fn, s.ws[i].pc.arg);
      f == a < |s.calls| && s.calls[a] == Call(1, 0, None)
  {
    hide Distinct, Wf, Safe;
    assert SlotOk(s, i);
    if s.owner[i].Some? {
      assert FiberOk(s, s.owner[i].value);
    }
  }

  lemma {:induction false} OwnersUnique(s: State, i: nat)
    requires Steady(s) && i < |s.ws|
    ensures forall id :: id in s.pc ==> (Slot(s.pc[id]) == Some(i) <==> s.owner[i] == Some(id))
  {
    hide Distinct, Wf, Safe, Plays, Tally, Placed, BlockedAt;
    assert SlotOk(s, i);
    forall id | id in s.pc
      ensures Slot(s.pc[id]) == Some(i) <==> s.owner[i] == Some(id)
    {
      assert FiberOk(s, id);
    }
  }

  /** The branch the source calls a serious bug is never taken, no fiber runs
      past its end, and no call fails. */
  lemma {:induction false} NoSeriousBug(s0: State, ls: seq<Label>, s: State)
    requires Reached(s0, ls, s)
    ensures s.sched.fg in s.pc && !s.pc[s.sched.fg].Lost? && !(s.pc[s.sched.fg].In? && s.pc[s.sched.fg].at.Fail?)
    ensures forall c :: 0 <= c < |s.calls| ==> s.calls[c].result != Some(false)
  {
    hide Distinct, Wf, Safe, CanRun, After;
    ReachedInv(s0, ls, s);
    if s.boot.Ready? {
      assert FiberOk(s, s.sched.fg);
    }
  }

  /** BLOCKED is set exactly from entering the pick loop to leaving the poll
      loop: a fiber outside b6b_offload, or returning from it, is not blocked. */
  lemma {:induction false} BlockedExactly(s0: State, ls: seq<Label>, s: State, id: Id)
    requires Reached(s0, ls, s) && id in s.pc && id in s.sched.flags
    ensures s.sched.flags[id].blocked == BlockedAt(s.pc[id])
    ensures !s.pc[id].In? || s.pc[id].at.Returning? ==> !s.sched.flags[id].blocked
  {
    hide Distinct, Wf, Safe, CanRun, After, Plays, Tally;
    ReachedInv(s0, ls, s);
    if s.boot.Ready? {
      assert FiberOk(s, id);
    }
  }

  lemma {:induction false} ResultKept(s: State, l: Label, c: nat)
    requires Inv(s) && Typed(s) && Anchored(s) && Step(s, l).Some? && c < |s.calls| && s.calls[c].result.Some?
    ensures var t := Step(s, l).value; c < |t.calls| && t.calls[c].result == s.calls[c].result
  {
    hide Distinct, Wf, Safe, Threaded, OtherFree, OtherBlocked;
    if s.boot.Ready? {
      assert FiberOk(s, s.sched.fg);
      hide FiberOk, SlotOk, Plays, Typed;
      YieldCalls(s);
      hide YieldTo, Steady;
      match l
      case Main => OwnerCalls(s); hide OwnerStep;
      case Code(_) =>
      case Work(_) =>
    }
  }

  lemma {:induction false} OwnerCalls(s: State)
    requires Typed(s) && Anchored(s)
    ensures var p := s.pc[s.sched.fg];
      p.In? && p.at.Owns? ==>
      var r := OwnerStep(s, p.c, p.at.w, p.at.stage, p.at.pending);
      r.Some? ==> r.value.calls == s.calls
  {
    hide Distinct, Wf, Threaded, OtherFree, OtherBlocked;
    YieldCalls(s);
    hide YieldTo;
  }

  lemma {:induction false} YieldCalls(s: State)
    requires Typed(s)
    ensures forall q :: YieldTo(s, q).calls == s.calls
  {
    hide Distinct, Wf;
  }

  lemma {:induction false} ResultKeptRun(s: State, ls: seq<Label>, c: nat)
    requires Inv(s) && Typed(s) && CanRun(s, ls) && c < |s.calls| && s.calls[c].result.Some?
    ensures var t := After(s, ls); c < |t.calls| && t.calls[c].result == s.calls[c].result
    decreases |ls|
  {
    hide Distinct, Step, Inv, Typed;
    if ls != [] {
      Here(s);
      StepKeeps(s, ls[0]);
      ResultKept(s, ls[0], c);
      ResultKeptRun(Step(s, ls[0]).value, ls[1..], c);
    }
  }

  /** Exactly once.  When a call of b6b_offload has returned it returned 1, its
      function ran once and to completion; and in every later state that is
      still so, and no worker has its function or argument in hand. */
  lemma {:induction false} ExactlyOnce(s0: State, ls: seq<Label>, s: State, more: seq<Label>, t: State, c: nat)
    requires Reached(s0, ls, s) && c < |s.calls| && s.calls[c].result.Some?
    requires CanRun(s, more) && t == After(s, more)
    ensures s.calls[c] == Call(1, 1, Some(true))
    ensures c < |t.calls| && t.calls[c] == Call(1, 1, Some(true))
    ensures forall i :: 0 <= i < |t.ws| ==> !Holds(t.ws[i], c)
  {
    hide Distinct, Wf, Safe, CanRun, After;
    ReachedInv(s0, ls, s);
    RunInv(s, more);
    ResultKeptRun(s, more, c);
    assert s.boot.Ready? && t.boot.Ready?;
    assert CallOk(s.calls[c]) && CallOk(t.calls[c]);
    forall i | 0 <= i < |t.ws| && Holds(t.ws[i], c)
      ensures false
    {
      HoldsInFlight(t, i, c);
    }
  }

  /** The worker is executing fn(arg) of call c, or is about to. */
  predicate Holds(w: Worker, c: nat) {
    match w.pc
    case Executing(f, a) => f == c || a == c
    case LoadArg(f) => f == c || w.arg == c
    case LoadFn => w.fn == c || w.arg == c
    case Check => w.fn == c || w.arg == c
    case Wait => w.toWorker > 0 && (w.fn == c || w.arg == c)
    case _ => false
  }

  lemma {:induction false} HoldsInFlight(s: State, i: nat, c: nat)
    requires Steady(s) && i < |s.ws| && Holds(s.ws[i], c)
    ensures c < |s.calls| && s.calls[c].result == None
  {
    hide Distinct, Wf, Safe;
    assert SlotOk(s, i);
    if s.owner[i].Some? {
      assert FiberOk(s, s.owner[i].value);
    }
  }

  // ------------------------------------------------------------ no deadlock

  /** How many steps a woken worker is away from having signalled back. */
  function Remaining(w: Worker): nat {
    match w.pc
    case Wait => if w.st == DONE then 0 else 7
    case Check => 6
    case LoadFn => 5
    case LoadArg(_) => 4
    case Executing(_, _) => 3
    case StoreDone => 2
    case Signal => 1
    case _ => 0
  }

  /** A fiber blocked in b6b_offload_finish: its worker is on the way, and the
      signal is there exactly when nothing remains to be done, in state DONE,
      with the function completed. */
  lemma {:induction false} AwaitedWorker(s: State, c: nat, w: nat, b: bool)
    requires Steady(s) && s.sched.fg in s.pc && s.pc[s.sched.fg] == In(c, Owns(w, Await, b))
    ensures c < |s.calls| && w < |s.ws| && Serving(s.ws[w], c)
    ensures s.ws[w].toMain > 0 <==> Remaining(s.ws[w]) == 0
    ensures s.ws[w].toMain > 0 ==> s.ws[w].st == DONE && s.calls[c] == Call(1, 1, None)
    ensures Remaining(s.ws[w]) > 0 ==>
      WorkStep(s, w).Some? && Remaining(WorkStep(s, w).value.ws[w]) == Remaining(s.ws[w]) - 1
  {
    hide Distinct, Wf, Safe;
    assert FiberOk(s, s.sched.fg);
  }

  ghost function WorkRun(w: nat, n: nat): seq<Label> {
    seq(n, _ => Work(w))
  }

  /** No deadlock: when the interpreter thread waits in b6b_offload_finish, its
      worker alone, in as many steps as remain, delivers the signal, and the
      wait then ends. */
  lemma {:induction false} AwaitEnds(s: State, c: nat, w: nat, b: bool)
    requires Steady(s) && s.sched.fg in s.pc && s.pc[s.sched.fg] == In(c, Owns(w, Await, b)) && w < |s.ws|
    ensures var ls := WorkRun(w, Remaining(s.ws[w]));
      CanRun(s, ls) && Typed(After(s, ls)) && Step(After(s, ls), Main).Some? && After(s, ls).pc == s.pc
    decreases Remaining(s.ws[w])
  {
    hide Distinct, Wf, Safe, FiberOk, SlotOk, Typed, Serving;
    assert Typed(s);
    AwaitedWorker(s, c, w, b);
    var ls := WorkRun(w, Remaining(s.ws[w]));
    if Remaining(s.ws[w]) > 0 {
      var t := WorkStep(s, w).value;
      WorkKeeps(s, w);
      WorkFrame(s, w);
      AwaitEnds(t, c, w, b);
      assert ls[0] == Work(w) && ls[1..] == WorkRun(w, Remaining(t.ws[w]));
    }
  }

  lemma WorkFrame(s: State, w: nat)
    ensures WorkStep(s, w).Some? ==>
      var t := WorkStep(s, w).value; t.pc == s.pc && t.sched == s.sched && |t.ws| == |s.ws| && t.boot == s.boot
  {
  }

  predicate Awaits(p: Pc) {
    p.In? && p.at.Owns? && p.at.stage.Await?
  }

  lemma MainEnabled(s: State)
    requires Steady(s) && Anchored(s) && FiberOk(s, s.sched.fg) && !Awaits(s.pc[s.sched.fg])
    ensures Step(s, Main).Some? || Step(s, Code(CallYield)).Some?
  {
    hide Distinct, Wf, Safe, SlotOk, CallOk, Plays, Tally, YieldTo, Threaded, OtherFree, OtherBlocked;
    var p := s.pc[s.sched.fg];
    if p.In? && p.at.Owns? {
      OwnerEnabled(s, p.c, p.at.w, p.at.stage, p.at.pending);
    }
    hide OwnerStep, Steady, Typed;
  }

  lemma OwnerEnabled(s: State, c: nat, w: nat, stage: Stage, b: bool)
    requires Typed(s) && w < |s.ws| && !stage.Await? && !stage.ParkedPoll?
    ensures OwnerStep(s, c, w, stage, b).Some?
  {
    hide Distinct, Wf, YieldTo, Threaded, OtherFree, OtherBlocked;
  }

  /** In every reachable state some action is enabled; and unless start-up or a
      finish is waiting for its signal, the interpreter thread's own one is. */
  lemma {:induction false} AlwaysEnabled(s0: State, ls: seq<Label>, s: State)
    requires Reached(s0, ls, s)
    ensures Typed(s)
    ensures exists l :: Step(s, l).Some?
    ensures s.boot.Ready? && !Awaits(s.pc[s.sched.fg]) ==>
      Step(s, Main).Some? || Step(s, Code(CallYield)).Some?
  {
    hide Distinct, Wf, Safe, CanRun, After;
    ReachedInv(s0, ls, s);
    if s.boot.Ready? {
      var p := s.pc[s.sched.fg];
      assert FiberOk(s, s.sched.fg);
      if p.In? && p.at.Owns? && p.at.stage.Await? {
        AwaitedWorker(s, p.c, p.at.w, p.at.pending);
        assert Step(s, Main).Some? || Step(s, Work(p.at.w)).Some?;
      } else {
        MainEnabled(s);
      }
    } else {
      assert Step(s, Main).Some? || Step(s, Work(s.boot.j)).Some?;
    }
  }

  // ------------------------------------------------- a finished call is collected

  lemma YieldLeaves(s: State, q: Pc, id: Id)
    requires Typed(s) && id in s.pc && id != s.sched.fg && !s.sched.flags[id].done
    ensures var t := YieldTo(s, q);
      && t.ws == s.ws && t.boot == s.boot && id in t.pc
      && t.pc[id] == if t.sched.fg == id then WakesAt(s.pc[id]) else s.pc[id]
  {
    hide Distinct, Target, Fibers.Live, WakesAt;
    TargetIff(s.sched);
    hide Wf;
  }

  /** What a step of the interpreter thread does to another fiber and to the
      worker that fiber owns. */
  ghost predicate Leaves(s: State, t: State, id: Id, w: nat) {
    && id in s.pc && id in t.pc && w < |s.ws| == |t.ws| && t.ws[w] == s.ws[w]
    && t.pc[id] == if t.sched.fg == id then WakesAt(s.pc[id]) else s.pc[id]
  }

  lemma PollLeaves(s: State, t: State, c: nat, v: nat, b: bool, id: Id, w: nat)
    requires Typed(s) && v < |s.ws| && w < |s.ws| && v != w && OwnerStep(s, c, v, Poll, b) == Some(t)
    requires id in s.pc && id != s.sched.fg && !s.sched.flags[id].done
    ensures Leaves(s, t, id, w)
  {
    hide Distinct, Wf, WakesAt, Threaded, OtherFree, OtherBlocked;
    YieldLeaves(s, In(c, Owns(v, ParkedPoll, OtherBlocked(s.sched))), id);
    hide YieldTo, Typed;
  }

  lemma OwnerLeaves(s: State, t: State, c: nat, v: nat, stage: Stage, b: bool, id: Id, w: nat)
    requires Typed(s) && v < |s.ws| && w < |s.ws| && v != w && OwnerStep(s, c, v, stage, b) == Some(t)
    requires id in s.pc && id != s.sched.fg && !s.sched.flags[id].done
    ensures Leaves(s, t, id, w)
  {
    hide Distinct, Wf, WakesAt, Threaded, OtherFree, OtherBlocked, YieldTo;
    if stage.Poll? {
      hide OwnerStep;
      PollLeaves(s, t, c, v, b, id, w);
    }
    hide Typed;
  }

  /** The places from which PlaceStep may yield. */
  predicate MayYield(at: Place) {
    at.Picking? || at.Linger?
  }

  lemma YieldPlaceLeaves(s: State, t: State, c: nat, at: Place, id: Id, w: nat)
    requires Typed(s) && c < |s.calls| && w < |s.ws| && MayYield(at)
    requires PlaceStep(s, c, at) == Some(t)
    requires id in s.pc && id != s.sched.fg && !s.sched.flags[id].done
    ensures Leaves(s, t, id, w)
  {
    hide Distinct, Wf, WakesAt, Threaded;
    YieldLeaves(s, In(c, if at.Linger? then ParkedLinger else ParkedPick), id);
    hide YieldTo, Typed;
  }

  lemma PlaceLeaves(s: State, t: State, c: nat, at: Place, id: Id, w: nat)
    requires Typed(s) && c < |s.calls| && w < |s.ws| && (at.Claimed? ==> at.w < |s.ws| && at.w != w)
    requires PlaceStep(s, c, at) == Some(t)
    requires id in s.pc && id != s.sched.fg && !s.sched.flags[id].done
    ensures Leaves(s, t, id, w)
  {
    hide Distinct, Wf, WakesAt, Threaded, YieldTo, Typed;
    if MayYield(at) {
      hide PlaceStep;
      YieldPlaceLeaves(s, t, c, at, id, w);
    }
  }

  lemma ScriptLeaves(s: State, t: State, a: Action, id: Id, w: nat)
    requires Typed(s) && w < |s.ws| && ScriptStep(s, a) == Some(t)
    requires id in s.pc && id != s.sched.fg && !s.sched.flags[id].done
    ensures Leaves(s, t, id, w)
  {
    hide Distinct, Wf, WakesAt;
    YieldLeaves(s, ParkedScript, id);
    hide YieldTo;
    Here(s);
  }

  /** A fiber that owns a worker, is not running and is not DONE. */
  ghost predicate Waiting(s: State, id: Id, c: nat, w: nat, b: bool) {
    && Steady(s) && id in s.pc && id != s.sched.fg && w < |s.ws|
    && s.pc[id] == In(c, Owns(w, ParkedPoll, b))
  }

  lemma WaitingOwns(s: State, id: Id, c: nat, w: nat, b: bool)
    requires Waiting(s, id, c, w, b)
    ensures s.owner[w] == Some(id) && !s.sched.flags[id].done && Serving(s.ws[w], c)
    ensures forall x :: x in s.pc && x != id ==> Slot(s.pc[x]) != Some(w)
    ensures forall x :: x in s.pc && s.pc[x].In? && s.pc[x].at.Claimed? ==> s.pc[x].at.w != w
  {
    hide Distinct, Wf, Safe, Tally, Serving;
    assert FiberOk(s, id);
    forall x | x in s.pc && x != id
      ensures Slot(s.pc[x]) != Some(w) && (s.pc[x].In? && s.pc[x].at.Claimed? ==> s.pc[x].at.w != w)
    {
      assert FiberOk(s, x);
    }
  }

  lemma MainLeaves(s: State, l: Label, t: State, id: Id, c: nat, w: nat, b: bool)
    requires Waiting(s, id, c, w, b) && !l.Work? && Step(s, l) == Some(t)
    ensures Leaves(s, t, id, w)
  {
    hide Distinct, Wf, Safe, FiberOk, SlotOk, Leaves, OwnerStep, PlaceStep, Serving;
    WaitingOwns(s, id, c, w, b);
    Here(s);
    match l
    case Main =>
      var p := s.pc[s.sched.fg];
      if p.Exiting? {
        YieldLeaves(s, ParkedEnd, id);
        hide YieldTo;
        assert Leaves(s, t, id, w) by {
          LeavesIs(s, t, id, w);
        }
      } else if p.at.Owns? {
        OwnerLeaves(s, t, p.c, p.at.w, p.at.stage, p.at.pending, id, w);
      } else {
        PlaceLeaves(s, t, p.c, p.at, id, w);
      }
    case Code(a) => ScriptLeaves(s, t, a, id, w);
  }

  lemma LeavesIs(s: State, t: State, id: Id, w: nat)
    requires id in s.pc && id in t.pc && w < |s.ws| && t.ws == s.ws
    requires t.pc[id] == if t.sched.fg == id then WakesAt(s.pc[id]) else s.pc[id]
    ensures Leaves(s, t, id, w)
  {
  }

  lemma WorkLeaves(s: State, v: nat, t: State, w: nat, c: nat)
    requires WorkStep(s, v) == Some(t) && w < |s.ws| && Serving(s.ws[w], c)
    ensures t.pc == s.pc && t.sched == s.sched && |t.ws| == |s.ws| && t.boot == s.boot
    ensures v != w ==> t.ws[w] == s.ws[w]
    ensures v == w ==> Remaining(t.ws[w]) + 1 == Remaining(s.ws[w])
  {
  }

  function Works(ls: seq<Label>, w: nat): nat {
    if ls == [] then 0 else (if ls[0] == Work(w) then 1 else 0) + Works(ls[1..], w)
  }

  /** Fiber id is in the background in every state of the run before its last. */
  ghost predicate Background(s: State, ls: seq<Label>, id: Id)
    requires CanRun(s, ls)
    decreases |ls|
  {
    ls == [] || (s.sched.fg != id && Background(Step(s, ls[0]).value, ls[1..], id))
  }

  lemma WaitStep(s: State, l: Label, t: State, id: Id, c: nat, w: nat, b: bool)
    requires Waiting(s, id, c, w, b) && Step(s, l) == Some(t)
    ensures w < |t.ws| && id in t.pc
    ensures Remaining(s.ws[w]) == Remaining(t.ws[w]) + if l == Work(w) then 1 else 0
    ensures if t.sched.fg == id then t.pc[id] == In(c, Owns(w, CheckDone, b)) else Waiting(t, id, c, w, b)
  {
    hide Distinct, Wf, Safe, FiberOk, SlotOk, Serving, Remaining, WorkStep, ScriptStep, OffloadStep;
    StepKeeps(s, l);
    WaitingOwns(s, id, c, w, b);
    StaysReady(s, l, t);
    if l.Work? {
      WorkLeaves(s, l.w, t, w, c);
    } else {
      MainLeaves(s, l, t, id, c, w, b);
    }
  }

  lemma YieldBoot(s: State, q: Pc)
    requires Typed(s)
    ensures YieldTo(s, q).boot == s.boot
  {
    hide Distinct, Wf;
  }

  lemma OwnerBoot(s: State, c: nat, w: nat, stage: Stage, b: bool)
    requires Typed(s) && w < |s.ws|
    ensures var r := OwnerStep(s, c, w, stage, b); r.Some? ==> r.value.boot == s.boot
  {
    hide Distinct, Wf, Threaded, OtherFree, OtherBlocked;
    YieldBoot(s, In(c, Owns(w, ParkedPoll, OtherBlocked(s.sched))));
    hide YieldTo;
  }

  lemma PlaceBoot(s: State, c: nat, at: Place)
    requires Typed(s) && c < |s.calls| && (at.Claimed? ==> at.w < |s.ws|)
    ensures var r := PlaceStep(s, c, at); r.Some? ==> r.value.boot == s.boot
  {
    hide Distinct, Wf, Threaded;
    YieldBoot(s, In(c, ParkedPick));
    YieldBoot(s, In(c, ParkedLinger));
    hide YieldTo;
  }

  lemma StaysReady(s: State, l: Label, t: State)
    requires Typed(s) && Step(s, l) == Some(t) && s.boot.Ready?
    ensures t.boot.Ready?
  {
    hide Distinct, Wf, YieldTo, OwnerStep, PlaceStep;
    Here(s);
    var p := s.pc[s.sched.fg];
    YieldBoot(s, ParkedEnd);
    YieldBoot(s, ParkedScript);
    if p.In? && p.at.Owns? {
      OwnerBoot(s, p.c, p.at.w, p.at.stage, p.at.pending);
    } else if p.In? {
      PlaceBoot(s, p.c, p.at);
    }
    hide Typed;
  }

  /** While a fiber is parked in the poll loop, whatever runs meanwhile, each
      step of its worker and nothing else brings the worker nearer to its
      signal; and the fiber goes on at the test of the worker's state. */
  lemma {:induction false} PolledUntil(s: State, ls: seq<Label>, id: Id, c: nat, w: nat, b: bool)
    requires Waiting(s, id, c, w, b) && CanRun(s, ls) && Background(s, ls, id)
    ensures var t := After(s, ls);
      && Steady(t) && w < |t.ws| && id in t.pc
      && Remaining(s.ws[w]) == Remaining(t.ws[w]) + Works(ls, w)
      && t.pc[id] == In(c, Owns(w, if t.sched.fg == id then CheckDone else ParkedPoll, b))
    decreases |ls|
  {
    hide Distinct, Wf, Safe, FiberOk, SlotOk, Step, Remaining;
    if ls != [] {
      var t := Step(s, ls[0]).value;
      StepKeeps(s, ls[0]);
      WaitStep(s, ls[0], t, id, c, w, b);
      if t.sched.fg == id {
        assert ls[1..] == [];
        StaysReady(s, ls[0], t);
      } else {
        PolledUntil(t, ls[1..], id, c, w, b);
      }
    }
  }

  /** The places on the way out of the poll loop, by the steps that are left. */
  function WayOut(w: nat, b: bool, k: nat): Place {
    if k >= 4 then Owns(w, CheckDone, b)
    else if k == 3 then Owns(w, Unblock, b)
    else if k == 2 then Owns(w, Await, b)
    else if k == 1 then Owns(w, Release, b)
    else if b then Linger
    else Returning(true)
  }

  /** The running fiber id collects a finished call: k steps of its own are left. */
  ghost predicate Collecting(s: State, id: Id, c: nat, w: nat, b: bool, k: nat) {
    && Steady(s) && id in s.pc && id == s.sched.fg && w < |s.ws| && k <= 4
    && s.pc[id] == In(c, WayOut(w, b, k))
    && (k >= 2 ==> Remaining(s.ws[w]) == 0)
    && (k == 0 ==> s.owner[w] == None)
  }

  lemma CollectMain(s: State, id: Id, c: nat, w: nat, b: bool, k: nat)
    requires Collecting(s, id, c, w, b, k) && k > 0
    ensures Step(s, Main).Some? && Collecting(Step(s, Main).value, id, c, w, b, k - 1)
  {
    hide Distinct, Wf, Safe, SlotOk, Steady;
    CollectReady(s, id, c, w, b, k);
    var t := Step(s, Main).value;
    StepKeeps(s, Main);
    StaysReady(s, Main, t);
    hide Typed;
    SteadyInv(t);
    hide Inv;
  }

  lemma SteadyInv(s: State)
    ensures Inv(s) && s.boot.Ready? ==> Steady(s)
    ensures Steady(s) ==> Inv(s) && Typed(s) && s.boot.Ready?
  {
    hide Typed, Booting;
  }

  lemma CollectReady(s: State, id: Id, c: nat, w: nat, b: bool, k: nat)
    requires Collecting(s, id, c, w, b, k) && k > 0
    ensures Inv(s) && Typed(s) && s.boot.Ready? && |s.owner| == |s.ws|
    ensures Serving(s.ws[w], c) || k == 1
    ensures k >= 2 ==> s.ws[w].st == DONE && s.ws[w].toMain > 0
  {
    hide Distinct, Wf, Safe, Tally;
    assert FiberOk(s, id);
    Here(s);
  }

  lemma CollectWork(s: State, v: nat, t: State, id: Id, c: nat, w: nat, b: bool, k: nat)
    requires Collecting(s, id, c, w, b, k) && WorkStep(s, v) == Some(t)
    ensures Collecting(t, id, c, w, b, k)
  {
    hide Distinct, Wf, Safe, FiberOk, SlotOk;
    WorkKeeps(s, v);
    WorkFrame(s, v);
    WorkOwner(s, v);
    if k >= 2 {
      CollectReady(s, id, c, w, b, k);
      WorkLeaves(s, v, t, w, c);
    }
    hide Steady, WorkStep;
  }

  lemma WorkOwner(s: State, v: nat)
    ensures WorkStep(s, v).Some? ==> WorkStep(s, v).value.owner == s.owner
  {
  }

  function Mains(ls: seq<Label>): nat {
    if ls == [] then 0 else (if ls[0] == Main then 1 else 0) + Mains(ls[1..])
  }

  /** On its way out of the poll loop a fiber is never held up: whatever the
      workers do in between, each step of its own is enabled and is the next one
      on the way, until it returns success or, having seen somebody wait, lets
      go of the idle worker to yield once more. */
  lemma {:induction false} Collects(s: State, ls: seq<Label>, id: Id, c: nat, w: nat, b: bool, k: nat)
    requires Collecting(s, id, c, w, b, k) && CanRun(s, ls) && Mains(ls) <= k
    ensures Collecting(After(s, ls), id, c, w, b, k - Mains(ls))
    decreases |ls|
  {
    hide Collecting, Step, Distinct, Wf;
    if ls != [] {
      var t := Step(s, ls[0]).value;
      match ls[0]
      case Main =>
        CollectMain(s, id, c, w, b, k);
        Collects(t, ls[1..], id, c, w, b, k - 1);
      case Work(v) =>
        WorkIsStep(s, v);
        CollectWork(s, v, t, id, c, w, b, k);
        Collects(t, ls[1..], id, c, w, b, k);
      case Code(a) =>
        CollectsInside(s, id, c, w, b, k);
        NoCode(s, a);
    }
  }

  lemma WorkIsStep(s: State, v: nat)
    requires Typed(s)
    ensures Step(s, Work(v)) == WorkStep(s, v)
  {
  }

  lemma CollectsInside(s: State, id: Id, c: nat, w: nat, b: bool, k: nat)
    requires Collecting(s, id, c, w, b, k)
    ensures Steady(s) && s.sched.fg in s.pc && s.pc[s.sched.fg].In?
  {
    hide Steady;
  }

  lemma NoCode(s: State, a: Action)
    requires Steady(s) && s.sched.fg in s.pc && s.pc[s.sched.fg].In?
    ensures Typed(s) && Step(s, Code(a)) == None
  {
    hide Distinct, Wf, Safe, FiberOk, SlotOk;
  }

  /** No call polls in vain.  Take a fiber that is parked in the poll loop, any
      run until it is swapped in again in which its worker took the steps it had
      left, and any run from there.  Then the call is collected with the fiber's
      own next four steps, each of which is enabled whatever the workers do: the
      worker is idle and unowned again, and the call is about to return success,
      after one more yield if somebody else was waiting. */
  lemma PollCollects(s0: State, before: seq<Label>, s: State, ls: seq<Label>, more: seq<Label>, id: Id)
    requires Reached(s0, before, s) && id in s.pc && id != s.sched.fg
    requires s.pc[id].In? && s.pc[id].at.Owns? && s.pc[id].at.w < |s.ws|
    requires CanRun(s, ls) && Background(s, ls, id) && After(s, ls).sched.fg == id
    requires Works(ls, s.pc[id].at.w) >= Remaining(s.ws[s.pc[id].at.w])
    requires CanRun(After(s, ls), more) && Mains(more) <= 4
    ensures var (p, t) := (s.pc[id], After(After(s, ls), more));
      && id == t.sched.fg && id in t.pc && t.pc[id] == In(p.c, WayOut(p.at.w, p.at.pending, 4 - Mains(more)))
      && (Mains(more) < 4 ==> Typed(t) && Step(t, Main).Some?)
      && (Mains(more) == 4 ==> p.at.w < |t.ws| == |t.owner| && t.ws[p.at.w].st == IDLE && t.owner[p.at.w] == None)
  {
    hide CanRun, After, Background, Distinct, Wf, Safe, Steady, Typed, Step;
    var (c, w, b) := (s.pc[id].c, s.pc[id].at.w, s.pc[id].at.pending);
    ReachedInv(s0, before, s);
    OwnerParked(s, id);
    PolledUntil(s, ls, id, c, w, b);
    Collects(After(s, ls), more, id, c, w, b, 4);
    var t := After(After(s, ls), more);
    CollectEnds(t, id, c, w, b, 4 - Mains(more));
  }

  lemma OwnerParked(s: State, id: Id)
    requires Inv(s) && Typed(s) && id in s.pc && id != s.sched.fg && s.pc[id].In? && s.pc[id].at.Owns?
    ensures Steady(s) && s.pc[id].at.stage == ParkedPoll
  {
    hide Distinct, Wf, Safe, Plays, Tally;
    if s.boot.Ready? {
      assert FiberOk(s, id);
    }
  }

  lemma CollectEnds(s: State, id: Id, c: nat, w: nat, b: bool, k: nat)
    requires Collecting(s, id, c, w, b, k)
    ensures k > 0 ==> Typed(s) && Step(s, Main).Some?
    ensures k == 0 ==> |s.owner| == |s.ws| && s.ws[w].st == IDLE
  {
    hide Distinct, Wf, Safe, FiberOk, SlotOk, Step;
    if k > 0 {
      CollectReady(s, id, c, w, b, k);
      CollectMain(s, id, c, w, b, k);
    } else {
      IdleIffUnowned(s, w);
    }
  }

  // --------------------------------------------------- an idle worker is claimed

  /** Where a fiber is after k steps of the pick loop, if worker i is the first
      idle one: it passes the workers before i, claims i and owns it. */
  function PickAt(i: nat, k: nat): Place {
    if k <= i then Picking(k) else if k == i + 1 then Claimed(i) else Owns(i, SetFn, false)
  }

  predicate FirstIdle(ws: seq<Worker>, i: nat) {
    i < |ws| && ws[i].st == IDLE && forall j :: 0 <= j < i ==> ws[j].st != IDLE
  }

  ghost predicate PicksOn(s: State, id: Id, c: nat, i: nat, k: nat) {
    && Steady(s) && id in s.pc && id == s.sched.fg && k <= i + 2 && i < |s.ws|
    && s.pc[id] == In(c, PickAt(i, k))
    && (k <= i + 1 ==> FirstIdle(s.ws, i))
  }

  lemma PickMain(s: State, id: Id, c: nat, i: nat, k: nat)
    requires PicksOn(s, id, c, i, k) && k <= i + 1
    ensures Step(s, Main).Some? && PicksOn(Step(s, Main).value, id, c, i, k + 1)
  {
    hide Distinct, Wf, Safe, SlotOk, FiberOk, CallOk, JobsApart;
    SteadyInv(s);
    Here(s);
    var t := Step(s, Main).value;
    StepKeeps(s, Main);
    StaysReady(s, Main, t);
    SteadyInv(t);
    hide Steady, Inv, Typed;
  }

  lemma WorkNotIdle(s: State, v: nat, t: State)
    requires WorkStep(s, v) == Some(t)
    ensures |t.ws| == |s.ws| && forall j :: 0 <= j < |s.ws| && t.ws[j].st == IDLE ==> s.ws[j].st == IDLE
    ensures forall j :: 0 <= j < |s.ws| && j != v ==> t.ws[j] == s.ws[j]
  {
  }

  /** No worker's step changes which worker is the first idle one. */
  lemma WorkFirstIdle(s: State, v: nat, t: State, i: nat)
    requires Steady(s) && WorkStep(s, v) == Some(t) && FirstIdle(s.ws, i)
    ensures FirstIdle(t.ws, i)
  {
    hide Distinct, Wf, Safe, FiberOk, SlotOk, WorkStep;
    WorkInRange(s, v);
    WorkOnlyPosted(s, v);
    IdleIffUnowned(s, i);
    WorkNotIdle(s, v, t);
  }

  lemma WorkInRange(s: State, v: nat)
    ensures WorkStep(s, v).Some? ==> v < |s.ws|
  {
  }

  lemma PickWork(s: State, v: nat, t: State, id: Id, c: nat, i: nat, k: nat)
    requires PicksOn(s, id, c, i, k) && WorkStep(s, v) == Some(t)
    ensures PicksOn(t, id, c, i, k)
  {
    hide Distinct, Wf, Safe, FiberOk, SlotOk, FirstIdle;
    WorkKeeps(s, v);
    WorkFrame(s, v);
    if k <= i + 1 {
      WorkFirstIdle(s, v, t, i);
    }
    hide Steady, WorkStep;
  }

  lemma {:induction false} Picks(s: State, ls: seq<Label>, id: Id, c: nat, i: nat, k: nat)
    requires PicksOn(s, id, c, i, k) && CanRun(s, ls) && k + Mains(ls) <= i + 2
    ensures PicksOn(After(s, ls), id, c, i, k + Mains(ls))
    decreases |ls|
  {
    hide PicksOn, Step, Distinct, Wf, Steady;
    if ls != [] {
      var t := Step(s, ls[0]).value;
      match ls[0]
      case Main =>
        PickMain(s, id, c, i, k);
        Picks(t, ls[1..], id, c, i, k + 1);
      case Work(v) =>
        WorkIsStep(s, v);
        PickWork(s, v, t, id, c, i, k);
        Picks(t, ls[1..], id, c, i, k);
      case Code(a) =>
        PicksInside(s, id, c, i, k);
        NoCode(s, a);
    }
  }

  lemma PicksInside(s: State, id: Id, c: nat, i: nat, k: nat)
    requires PicksOn(s, id, c, i, k)
    ensures Steady(s) && s.sched.fg in s.pc && s.pc[s.sched.fg].In?
  {
    hide Steady;
  }

  /** No idle worker is passed by.  Take a fiber at the head of the pick loop, on
      entry or swapped in again, while worker i is the first idle one, and any
      run from there.  After i steps of its own the fiber is at worker i, then
      has claimed it, then owns it; each of these steps is enabled, whatever the
      workers do. */
  lemma PickClaims(s0: State, before: seq<Label>, s: State, more: seq<Label>, c: nat, i: nat)
    requires Reached(s0, before, s) && s.boot.Ready? && FirstIdle(s.ws, i)
    requires s.sched.fg in s.pc && s.pc[s.sched.fg] == In(c, Picking(0))
    requires CanRun(s, more) && Mains(more) <= i + 2
    ensures var (id, t, k) := (s.sched.fg, After(s, more), Mains(more));
      && t.sched.fg == id && id in t.pc && t.pc[id] == In(c, PickAt(i, k))
      && (k < i + 2 ==> Typed(t) && Step(t, Main).Some?)
      && (k == i + 2 ==> i < |t.ws| == |t.owner| && t.ws[i].st == RUNNING && t.owner[i] == Some(id))
  {
    hide CanRun, After, Distinct, Wf, Safe, Steady, Typed, Step, FirstIdle;
    ReachedInv(s0, before, s);
    SteadyInv(s);
    FirstIdleInRange(s.ws, i);
    Picks(s, more, s.sched.fg, c, i, 0);
    PickEnds(After(s, more), s.sched.fg, c, i, Mains(more));
  }

  lemma FirstIdleInRange(ws: seq<Worker>, i: nat)
    requires FirstIdle(ws, i)
    ensures i < |ws|
  {
  }

  lemma PickEnds(s: State, id: Id, c: nat, i: nat, k: nat)
    requires PicksOn(s, id, c, i, k)
    ensures k < i + 2 ==> Typed(s) && Step(s, Main).Some?
    ensures k == i + 2 ==> |s.owner| == |s.ws| && s.ws[i].st == RUNNING && s.owner[i] == Some(id)
  {
    hide Distinct, Wf, Safe, SlotOk, Step, Tally;
    if k < i + 2 {
      SteadyInv(s);
      PickMain(s, id, c, i, k);
    } else {
      assert FiberOk(s, id);
    }
  }

  // ------------------------------------------------------------------ shutdown

  /** b6b_join yields from the main fiber until a yield fails.  When that
      happens only the main fiber is left after reaping, and every worker is
      idle with nothing in flight, so stopping the pool interrupts no call. */
  lemma {:induction false} JoinQuiesces(s0: State, ls: seq<Label>, s: State)
    requires Reached(s0, ls, s) && s.boot.Ready? && Wf(s.sched)
    requires s.sched.fg == MAIN && MAIN in s.pc && s.pc[MAIN].Script? && Target(s.sched) == None
    ensures Reap(s.sched).order == [MAIN] && |s.owner| == |s.ws|
    ensures forall i :: 0 <= i < |s.ws| ==> s.owner[i] == None && Quiet(s.ws[i], IDLE)
  {
    hide Distinct, CanRun, After, Target;
    ReachedInv(s0, ls, s);
    forall i | 0 <= i < |s.ws|
      ensures s.owner[i] == None && Quiet(s.ws[i], IDLE)
    {
      assert SlotOk(s, i);
      if s.owner[i].Some? {
        OwnerPending(s, i);
      }
    }
    OnlyMainLeft(s.sched);
  }

  lemma {:induction false} OnlyMainLeft(s: Sched)
    requires Safe(s) && s.fg == MAIN && Target(s) == None
    ensures Reap(s).order == [MAIN]
  {
    TargetIff(s);
    ReapSafe(s);
    var o := Reap(s).order;
    assert forall id :: id in o ==> id in Reap(s).flags;
    assert forall id :: id in s.flags && id != MAIN ==> !Pending(s.flags, id);
    forall i | 0 <= i < |o|
      ensures o[i] == MAIN
    {
      assert o[i] in o;
    }
    var last := o[|o| - 1];
  }
}
