/** The fiber list of one interpreter: flag bits, the cyclic choice made by a
    yield, reaping of finished fibers, and insertion of new ones.

    A fiber is named by an id.  The interpreter's linked list is a sequence of
    ids in list order; id 0 is the main fiber. */
module Fibers {
  import opened Basics

  type Id = nat

  const MAIN: Id := 0

  datatype Flags = Flags(bg: bool, fg: bool, done: bool, blocked: bool)

  datatype Sched = Sched(order: seq<Id>, flags: map<Id, Flags>, fg: Id, qstep: Byte)

  // ---------------------------------------------------------------- sequences

  ghost predicate Distinct<T>(s: seq<T>) {
    forall i, j :: 0 <= i < j < |s| ==> s[i] != s[j]
  }

  function IndexOf<T(==)>(s: seq<T>, x: T): (k: nat)
    requires x in s
    ensures k < |s| && s[k] == x
    ensures forall i :: 0 <= i < k ==> s[i] != x
  {
    if s[0] == x then 0 else 1 + IndexOf(s[1..], x)
  }

  /** The other elements in the order a cyclic walk from x meets them. */
  function Ring<T(==)>(s: seq<T>, x: T): seq<T>
    requires x in s
  {
    var k := IndexOf(s, x);
    s[k + 1..] + s[..k]
  }

  lemma RingMembers<T>(s: seq<T>, x: T)
    requires x in s && Distinct(s)
    ensures forall y :: y in Ring(s, x) <==> y in s && y != x
    ensures Distinct(Ring(s, x))
  {
    var k := IndexOf(s, x);
    assert s == s[..k] + [x] + s[k + 1..];
    forall y | y in s && y != x
      ensures y in Ring(s, x)
    {
      var i :| 0 <= i < |s| && s[i] == y;
      if i < k {
        assert s[..k][i] == y;
      } else {
        assert s[k + 1..][i - k - 1] == y;
      }
    }
  }

  // ------------------------------------------------------------ specification

  predicate Pending(flags: map<Id, Flags>, id: Id) {
    id in flags && flags[id].bg && !flags[id].done
  }

  /** The list and the flag table describe the same fibers. */
  ghost predicate Wf(s: Sched) {
    && Distinct(s.order)
    && (forall id :: id in s.order <==> id in s.flags)
    && s.fg in s.order
  }

  /** What every run keeps: exactly one FG fiber, the one fg points at; the
      main fiber is first and never DONE. */
  ghost predicate Safe(s: Sched) {
    && Wf(s)
    && s.order[0] == MAIN
    && !s.flags[MAIN].done
    && (forall id :: id in s.flags ==> s.flags[id].fg == (id == s.fg) && s.flags[id].bg == (id != s.fg))
  }

  function FirstPending(flags: map<Id, Flags>, ids: seq<Id>): Option<Id> {
    if ids == [] then None
    else if Pending(flags, ids[0]) then Some(ids[0])
    else FirstPending(flags, ids[1..])
  }

  lemma {:induction false} FirstPendingSpec(flags: map<Id, Flags>, ids: seq<Id>)
    ensures var t := FirstPending(flags, ids);
      && (t.Some? ==> t.value in ids && Pending(flags, t.value))
      && (t.None? ==> forall id :: id in ids ==> !Pending(flags, id))
  {
    if ids != [] && !Pending(flags, ids[0]) {
      FirstPendingSpec(flags, ids[1..]);
      assert ids == [ids[0]] + ids[1..];
    }
  }

  lemma FirstPendingConcat(flags: map<Id, Flags>, a: seq<Id>, b: seq<Id>)
    ensures FirstPending(flags, a + b)
         == if FirstPending(flags, a).Some? then FirstPending(flags, a) else FirstPending(flags, b)
  {
    if a == [] {
      assert a + b == b;
    } else {
      assert (a + b)[1..] == a[1..] + b;
      FirstPendingConcat(flags, a[1..], b);
    }
  }

  function Target(s: Sched): Option<Id>
    requires s.fg in s.order
  {
    FirstPending(s.flags, Ring(s.order, s.fg))
  }

  function Swap(s: Sched, t: Id): Sched
    requires s.fg in s.flags && t in s.flags
  {
    var raised := s.flags[t := s.flags[t].(bg := false, fg := true)];
    s.(flags := raised[s.fg := raised[s.fg].(fg := false, bg := true)], fg := t, qstep := 0)
  }

  function Live(flags: map<Id, Flags>, ids: seq<Id>): seq<Id> {
    if ids == [] then []
    else if ids[0] in flags && !flags[ids[0]].done then [ids[0]] + Live(flags, ids[1..])
    else Live(flags, ids[1..])
  }

  function Reap(s: Sched): Sched {
    s.(order := Live(s.flags, s.order),
       flags := map id | id in s.flags && !s.flags[id].done :: s.flags[id])
  }

  function Spawn(s: Sched, id: Id): Sched
    requires s.fg in s.order
  {
    var k := IndexOf(s.order, s.fg);
    s.(order := s.order[..k + 1] + [id] + s.order[k + 1..],
       flags := s.flags[id := Flags(true, false, false, false)])
  }

  function Finish(s: Sched): Sched
    requires s.fg in s.flags
  {
    s.(flags := s.flags[s.fg := s.flags[s.fg].(done := true)])
  }

  function SetBlocked(s: Sched, b: bool): Sched
    requires s.fg in s.flags
  {
    s.(flags := s.flags[s.fg := s.flags[s.fg].(blocked := b)])
  }

  predicate Threaded(s: Sched) {
    |s.order| >= 2
  }

  predicate OtherBlocked(s: Sched) {
    exists id :: id in s.order && id != s.fg && id in s.flags && s.flags[id].blocked
  }

  predicate OtherFree(s: Sched) {
    exists id :: id in s.order && id != s.fg && id in s.flags && !s.flags[id].blocked
  }

  // --------------------------------------------------------- facts about reaping

  lemma {:induction false} LiveMembers(flags: map<Id, Flags>, ids: seq<Id>)
    ensures forall id :: id in Live(flags, ids) <==> id in ids && id in flags && !flags[id].done
  {
    if ids != [] {
      LiveMembers(flags, ids[1..]);
      assert ids == [ids[0]] + ids[1..];
    }
  }

  lemma {:induction false} LiveDistinct(flags: map<Id, Flags>, ids: seq<Id>)
    requires Distinct(ids)
    ensures Distinct(Live(flags, ids))
  {
    if ids != [] {
      LiveDistinct(flags, ids[1..]);
      LiveMembers(flags, ids[1..]);
    }
  }

  function Dead(flags: map<Id, Flags>, ids: seq<Id>): set<Id> {
    set id | id in ids && id in flags && flags[id].done
  }

  lemma SweepStart(flags: map<Id, Flags>, o: seq<Id>)
    ensures Live(flags, o[..0]) == [] && flags - Dead(flags, o[..0]) == flags
  {
  }

  /** One step of the sweep over o: what is kept so far, then what is left. */
  lemma SweepStep(flags: map<Id, Flags>, o: seq<Id>, j: nat)
    requires j < |o| && Distinct(o) && o[j] in flags
    ensures var l := Live(flags, o[..j]);
      var r := l + o[j..];
      && r[|l|] == o[j]
      && o[j] in flags - Dead(flags, o[..j])
      && (if flags[o[j]].done then
            && r[..|l|] + r[|l| + 1..] == Live(flags, o[..j + 1]) + o[j + 1..]
            && Live(flags, o[..j + 1]) == l
            && flags - Dead(flags, o[..j]) - {o[j]} == flags - Dead(flags, o[..j + 1])
          else
            && r == Live(flags, o[..j + 1]) + o[j + 1..]
            && |Live(flags, o[..j + 1])| == |l| + 1
            && Dead(flags, o[..j]) == Dead(flags, o[..j + 1]))
  {
    var l := Live(flags, o[..j]);
    assert o[..j + 1] == o[..j] + [o[j]];
    LiveConcat(flags, o[..j], [o[j]]);
    assert o[j..] == [o[j]] + o[j + 1..];
    assert o[j] !in o[..j];
    assert Dead(flags, o[..j + 1]) == Dead(flags, o[..j]) + (if flags[o[j]].done then {o[j]} else {});
  }

  lemma LiveConcat(flags: map<Id, Flags>, a: seq<Id>, b: seq<Id>)
    ensures Live(flags, a + b) == Live(flags, a) + Live(flags, b)
  {
    if a == [] {
      assert a + b == b;
    } else {
      assert (a + b)[1..] == a[1..] + b;
      LiveConcat(flags, a[1..], b);
    }
  }

  lemma IndexUnique<T>(a: seq<T>, x: T, b: seq<T>)
    requires x !in a
    ensures IndexOf(a + [x] + b, x) == |a|
    ensures Ring(a + [x] + b, x) == b + a
  {
    var s := a + [x] + b;
    assert s[|a|] == x;
    forall i | 0 <= i < |a|
      ensures s[i] != x
    {
      assert s[i] == a[i];
    }
    assert s[|a| + 1..] == b;
    assert s[..|a|] == a;
  }

  lemma SplitAt<T>(s: seq<T>, x: T) returns (a: seq<T>, b: seq<T>)
    requires x in s && Distinct(s)
    ensures s == a + [x] + b && x !in a && x !in b
    ensures Ring(s, x) == b + a
  {
    var k := IndexOf(s, x);
    a, b := s[..k], s[k + 1..];
  }

  /** Reaping commutes with the cyclic walk. */
  lemma ReapRing(s: Sched)
    requires Wf(s) && !s.flags[s.fg].done
    ensures s.fg in Reap(s).order
    ensures Ring(Reap(s).order, s.fg) == Live(s.flags, Ring(s.order, s.fg))
  {
    var a, b := SplitAt(s.order, s.fg);
    hide Wf, Distinct;
    LiveRing(s.flags, a, s.fg, b);
  }

  lemma LiveRing(flags: map<Id, Flags>, a: seq<Id>, x: Id, b: seq<Id>)
    requires x in flags && !flags[x].done && x !in a
    ensures x in Live(flags, a + [x] + b)
    ensures Ring(Live(flags, a + [x] + b), x) == Live(flags, b + a)
  {
    LiveCut(flags, a, x, b);
    LiveConcat(flags, b, a);
    LiveMembers(flags, a);
    IndexUnique(Live(flags, a), x, Live(flags, b));
  }

  /** The walk from the running fiber, cut at some other fiber x. */
  lemma RingParts(s: Sched, x: Id) returns (a: seq<Id>, b: seq<Id>)
    requires Wf(s) && x in s.flags && x != s.fg
    ensures Ring(s.order, s.fg) == a + [x] + b && x !in a && x !in b && Distinct(a)
    ensures s.fg !in a && s.fg !in b
    ensures forall id :: id in a ==> id in s.flags
    ensures x in Ring(s.order, s.fg)
  {
    var r := Ring(s.order, s.fg);
    RingMembers(s.order, s.fg);
    a, b := SplitAt(r, x);
    assert forall id :: id in a ==> id in r;
    assert forall id :: id in b ==> id in r;
    assert forall i :: 0 <= i < |a| ==> a[i] == r[i];
  }

  // ------------------------------------------------------- safety of each change

  lemma TargetIff(s: Sched)
    requires Wf(s)
    ensures Target(s).Some? <==> exists id :: id != s.fg && Pending(s.flags, id)
    ensures Target(s).Some? ==> Target(s).value != s.fg && Pending(s.flags, Target(s).value)
  {
    RingMembers(s.order, s.fg);
    FirstPendingSpec(s.flags, Ring(s.order, s.fg));
  }

  /** A yield that swaps, resumed or not, keeps the list safe; the incoming
      fiber was pending, so a DONE fiber is never resumed. */
  lemma SwapSafe(s: Sched, t: Id)
    requires Safe(s) && Target(s) == Some(t) && t in s.flags
    ensures Safe(Swap(s, t)) && !s.flags[t].done && t != s.fg
    ensures !Swap(s, t).flags[t].done
  {
    TargetIff(s);
  }

  /** Reaping never frees the running fiber, and keeps every live one. */
  lemma ReapSafe(s: Sched)
    requires Safe(s) && !s.flags[s.fg].done
    ensures Safe(Reap(s)) && Reap(s).fg == s.fg
    ensures forall id :: id in Reap(s).flags <==> id in s.flags && !s.flags[id].done
    ensures forall id :: id in Reap(s).flags ==> Reap(s).flags[id] == s.flags[id]
  {
    LiveDistinct(s.flags, s.order);
    LiveMembers(s.flags, s.order);
  }

  /** A new fiber is the first one the next walk meets. */
  lemma SpawnRing(s: Sched, id: Id)
    requires s.fg in s.order && id !in s.order
    ensures s.fg in Spawn(s, id).order
    ensures Ring(Spawn(s, id).order, s.fg) == [id] + Ring(s.order, s.fg)
  {
    var k := IndexOf(s.order, s.fg);
    var a, b := s.order[..k], s.order[k + 1..];
    IndexUnique(a, s.fg, [id] + b);
    hide IndexOf;
    assert Spawn(s, id).order == a + [s.fg] + ([id] + b);
    assert ([id] + b) + a == [id] + (b + a);
  }

  lemma InsertDistinct(o: seq<Id>, k: nat, id: Id)
    requires k <= |o| && Distinct(o) && id !in o
    ensures Distinct(o[..k] + [id] + o[k..])
    ensures forall y :: y in o[..k] + [id] + o[k..] <==> y in o || y == id
  {
    var n := o[..k] + [id] + o[k..];
    assert o == o[..k] + o[k..];
    assert forall i :: 0 <= i < |n| ==> n[i] == (if i < k then o[i] else if i == k then id else o[i - 1]);
  }

  lemma SpawnSafe(s: Sched, id: Id)
    requires Safe(s) && id !in s.flags
    ensures Safe(Spawn(s, id))
  {
    hide Distinct, Ring, IndexOf;
    InsertDistinct(s.order, IndexOf(s.order, s.fg) + 1, id);
  }

  lemma BlockSafe(s: Sched, b: bool)
    requires Safe(s)
    ensures Safe(SetBlocked(s, b)) && Wf(SetBlocked(s, b))
  {
  }

  // ------------------------------------------------------------------ whole runs

  /** Everything the interpreter thread can do to the fiber list. */
  datatype Op = DoYield | DoReap | DoSpawn(id: Id) | DoFinish | DoBlock(b: bool)

  predicate Legal(s: Sched, op: Op)
    requires Wf(s)
  {
    match op
    case DoYield => true
    case DoReap => !s.flags[s.fg].done
    case DoSpawn(id) => id !in s.flags && !s.flags[s.fg].done
    case DoFinish => s.fg != MAIN
    case DoBlock(_) => true
  }

  /** A yield without a target reaps and goes on; with one it swaps, and the
      incoming fiber's reaping, if it was suspended in a yield, is a DoReap. */
  function Apply(s: Sched, op: Op): Sched
    requires Wf(s)
  {
    match op
    case DoYield =>
      TargetIff(s);
      if Target(s).Some? then Swap(s, Target(s).value) else Reap(s)
    case DoReap => Reap(s)
    case DoSpawn(id) => Spawn(s, id)
    case DoFinish => Finish(s)
    case DoBlock(b) => SetBlocked(s, b)
  }

  lemma {:induction false} ApplySafe(s: Sched, op: Op)
    requires Safe(s) && Legal(s, op)
    ensures Safe(Apply(s, op))
  {
    match op
    case DoYield =>
      TargetIff(s);
      if Target(s).Some? {
        SwapSafe(s, Target(s).value);
      } else {
        // With no target the running fiber is the main one, so it is not DONE.
        if s.fg != MAIN {
          assert Pending(s.flags, MAIN);
        }
        ReapSafe(s);
      }
    case DoReap => ReapSafe(s);
    case DoSpawn(id) => SpawnSafe(s, id);
    case DoFinish =>
    case DoBlock(_) =>
  }

  ghost predicate LegalRun(s: Sched, ops: seq<Op>)
    decreases |ops|
  {
    ops == [] ||
    (Wf(s) && Legal(s, ops[0]) && LegalRun(Apply(s, ops[0]), ops[1..]))
  }

  ghost function Run(s: Sched, ops: seq<Op>): Sched
    requires LegalRun(s, ops)
    decreases |ops|
  {
    if ops == [] then s else Run(Apply(s, ops[0]), ops[1..])
  }

  /** Over every run: one FG fiber, the main fiber first and never DONE. */
  lemma {:induction false} RunSafe(s: Sched, ops: seq<Op>)
    requires Safe(s) && LegalRun(s, ops)
    ensures Safe(Run(s, ops))
    decreases |ops|
  {
    if ops != [] {
      ApplySafe(s, ops[0]);
      RunSafe(Apply(s, ops[0]), ops[1..]);
    }
  }

  // -------------------------------------------------------------- bounded waiting

  function Count(flags: map<Id, Flags>, ids: seq<Id>): nat {
    if ids == [] then 0 else (if Pending(flags, ids[0]) then 1 else 0) + Count(flags, ids[1..])
  }

  /** How many pending fibers the cyclic walk meets up to and including x. */
  function Dist(s: Sched, x: Id): nat
    requires s.fg in s.order && x in Ring(s.order, s.fg)
  {
    var r := Ring(s.order, s.fg);
    Count(s.flags, r[..IndexOf(r, x) + 1])
  }

  lemma CountConcat(flags: map<Id, Flags>, a: seq<Id>, b: seq<Id>)
    ensures Count(flags, a + b) == Count(flags, a) + Count(flags, b)
  {
    if a == [] {
      assert a + b == b;
    } else {
      assert (a + b)[1..] == a[1..] + b;
      CountConcat(flags, a[1..], b);
    }
  }

  lemma CountFrame(f: map<Id, Flags>, g: map<Id, Flags>, ids: seq<Id>)
    requires forall id :: id in ids ==> Pending(f, id) == Pending(g, id)
    ensures Count(f, ids) == Count(g, ids)
  {
    if ids != [] {
      CountFrame(f, g, ids[1..]);
    }
  }

  lemma CountLive(f: map<Id, Flags>, ids: seq<Id>)
    ensures Count(f, Live(f, ids)) == Count(f, ids)
  {
    if ids != [] {
      CountLive(f, ids[1..]);
    }
  }

  /** Dist on a ring that is known as a + [x] + b. */
  lemma DistSplit(s: Sched, x: Id, a: seq<Id>, b: seq<Id>)
    requires s.fg in s.order && Ring(s.order, s.fg) == a + [x] + b && x !in a
    ensures x in Ring(s.order, s.fg)
    ensures Dist(s, x) == Count(s.flags, a) + (if Pending(s.flags, x) then 1 else 0)
  {
    var r := a + [x] + b;
    assert r[|a|] == x;
    IndexUnique(a, x, b);
    assert r[..|a| + 1] == a + [x];
    CountConcat(s.flags, a, [x]);
  }

  lemma FirstPendingSplit(flags: map<Id, Flags>, ids: seq<Id>) returns (a: seq<Id>, b: seq<Id>)
    requires FirstPending(flags, ids).Some?
    ensures ids == a + [FirstPending(flags, ids).value] + b
    ensures Count(flags, a) == 0
    ensures forall id :: id in a ==> !Pending(flags, id)
  {
    if Pending(flags, ids[0]) {
      a, b := [], ids[1..];
    } else {
      a, b := FirstPendingSplit(flags, ids[1..]);
      a := [ids[0]] + a;
    }
  }

  /** Two cuts of one sequence. */
  lemma CutLeft<T>(y: seq<T>, x: seq<T>, a: seq<T>, t: T, b: seq<T>)
    requires y + x == a + [t] + b && |a| < |y|
    ensures y == a + [t] + y[|a| + 1..] && b == y[|a| + 1..] + x
  {
    var r := y + x;
    assert r[..|a|] == a && r[|a|] == t && r[|a| + 1..] == b;
  }

  lemma CutRight<T>(y: seq<T>, x: seq<T>, a: seq<T>, t: T, b: seq<T>)
    requires y + x == a + [t] + b && |y| <= |a|
    ensures |a| - |y| < |x|
    ensures a == y + x[..|a| - |y|] && x == x[..|a| - |y|] + [t] + b
  {
    var r := y + x;
    assert r[..|a|] == a && r[|a|] == t && r[|a| + 1..] == b;
  }

  /** The ring after a swap: what followed the incoming fiber, then the old
      foreground fiber, then the fibers that were skipped. */
  lemma SwapRing(s: Sched, t: Id, a: seq<Id>, b: seq<Id>)
    requires Distinct(s.order) && s.fg in s.order && Ring(s.order, s.fg) == a + [t] + b
    ensures t in s.order && Ring(s.order, t) == b + [s.fg] + a
  {
    var x, y := SplitAt(s.order, s.fg);
    if |a| < |y| {
      SwapRingAfter(s.order, x, s.fg, y, a, t, b);
    } else {
      SwapRingBefore(s.order, x, s.fg, y, a, t, b);
    }
  }

  lemma Regroup(x: seq<Id>, f: Id, a: seq<Id>, t: Id, y: seq<Id>)
    ensures x + [f] + (a + [t] + y) == (x + [f] + a) + [t] + y
    ensures y + (x + [f] + a) == (y + x) + [f] + a
  {
  }

  lemma SwapRingAfter(o: seq<Id>, x: seq<Id>, f: Id, y: seq<Id>, a: seq<Id>, t: Id, b: seq<Id>)
    requires Distinct(o) && o == x + [f] + y && y + x == a + [t] + b && |a| < |y|
    ensures t in o && Ring(o, t) == b + [f] + a
  {
    hide Distinct, Ring;
    CutLeft(y, x, a, t, b);
    Regroup(x, f, a, t, y[|a| + 1..]);
    RingAt(o, x + [f] + a, t, y[|a| + 1..]);
  }

  lemma SwapRingBefore(o: seq<Id>, x: seq<Id>, f: Id, y: seq<Id>, a: seq<Id>, t: Id, b: seq<Id>)
    requires Distinct(o) && o == x + [f] + y && y + x == a + [t] + b && |y| <= |a|
    ensures t in o && Ring(o, t) == b + [f] + a
  {
    hide Distinct, Ring;
    CutRight(y, x, a, t, b);
    var x0 := x[..|a| - |y|];
    Regroup(x0, t, b, f, y);
    Regroup(b, f, y, f, x0);
    assert b + [f] + y + x0 == b + [f] + (y + x0);
    RingAt(o, x0, t, b + [f] + y);
  }

  lemma RingAt(o: seq<Id>, a: seq<Id>, t: Id, b: seq<Id>)
    requires Distinct(o) && o == a + [t] + b
    ensures t in o && Ring(o, t) == b + a
  {
    assert o[|a|] == t;
    assert forall i :: 0 <= i < |a| ==> a[i] == o[i];
    IndexUnique(a, t, b);
  }

  /** A swap moves every pending fiber but the incoming one a place closer. */
  lemma SwapDist(s: Sched, x: Id)
    requires Safe(s) && Pending(s.flags, x)
    ensures Target(s).Some? && Target(s).value in s.flags && x in Ring(s.order, s.fg)
    ensures Dist(s, x) >= 1
    ensures Target(s).value == x <==> Dist(s, x) == 1
    ensures Target(s).value != x ==>
      var u := Swap(s, Target(s).value);
      Pending(u.flags, x) && u.fg in u.order && x in Ring(u.order, u.fg) && Dist(u, x) == Dist(s, x) - 1
  {
    TargetIff(s);
    var t := Target(s).value;
    var c, d := RingParts(s, x);
    var a, b := FirstPendingSplit(s.flags, Ring(s.order, s.fg));
    DistSplit(s, x, c, d);
    if x == t {
      IndexUnique(a, x, b);
      IndexUnique(c, x, d);
      assert a == (a + [x] + b)[..|a|] == (c + [x] + d)[..|c|] == c;
    } else {
      var b0 := SkipCut(s.flags, a, t, b, c, x, d);
      CountConcat(s.flags, a + [t], b0);
      CountConcat(s.flags, a, [t]);
      SwapRing(s, t, a, b);
      SwapPast(s, x, t, b0, d, a);
    }
  }

  lemma SwapPast(s: Sched, x: Id, t: Id, b0: seq<Id>, d: seq<Id>, a: seq<Id>)
    requires s.fg in s.flags && t in s.flags && Pending(s.flags, x) && x != t && x != s.fg
    requires t in s.order && Ring(s.order, t) == b0 + [x] + d + [s.fg] + a
    requires x !in b0 && t !in b0 && s.fg !in b0
    ensures x in Ring(s.order, t) && Dist(Swap(s, t), x) == Count(s.flags, b0) + 1
  {
    var u := Swap(s, t);
    assert b0 + [x] + d + [s.fg] + a == b0 + [x] + (d + [s.fg] + a);
    DistSplit(u, x, b0, d + [s.fg] + a);
    CountFrame(s.flags, u.flags, b0);
  }

  /** x is pending and not the first pending one, so its cut lies beyond it. */
  lemma SkipCut(flags: map<Id, Flags>, a: seq<Id>, t: Id, b: seq<Id>, c: seq<Id>, x: Id, d: seq<Id>)
    returns (b0: seq<Id>)
    requires a + [t] + b == c + [x] + d && x != t && Distinct(c)
    requires Pending(flags, x) && forall id :: id in a ==> !Pending(flags, id)
    ensures c == a + [t] + b0 && b == b0 + [x] + d
    ensures t !in b0
  {
    var r := a + [t] + b;
    assert r[|c|] == x;
    assert forall i :: 0 <= i < |a| ==> r[i] == a[i] && !Pending(flags, a[i]);
    CutLeft(c, [x] + d, a, t, b);
    b0 := c[|a| + 1..];
    assert c[|a|] == t;
    assert forall i :: 0 <= i < |b0| ==> b0[i] == c[|a| + 1 + i] != t;
    assert b == b0 + [x] + d;
  }

  lemma ReapDist(s: Sched, x: Id)
    requires Safe(s) && Pending(s.flags, x) && !s.flags[s.fg].done
    ensures x in Ring(s.order, s.fg) && s.fg in Reap(s).order && x in Ring(Reap(s).order, s.fg)
    ensures Dist(Reap(s), x) == Dist(s, x)
  {
    var a, b := RingParts(s, x);
    DistSplit(s, x, a, b);
    ReapRing(s);
    LiveCut(s.flags, a, x, b);
    LiveMembers(s.flags, a);
    DistSplit(Reap(s), x, Live(s.flags, a), Live(s.flags, b));
    CountFrame(s.flags, Reap(s).flags, Live(s.flags, a));
    CountLive(s.flags, a);
  }

  lemma LiveCut(flags: map<Id, Flags>, a: seq<Id>, x: Id, b: seq<Id>)
    requires x in flags && !flags[x].done
    ensures Live(flags, a + [x] + b) == Live(flags, a) + [x] + Live(flags, b)
  {
    LiveConcat(flags, a + [x], b);
    LiveConcat(flags, a, [x]);
  }

  lemma SpawnDist(s: Sched, x: Id, id: Id)
    requires Safe(s) && Pending(s.flags, x) && id !in s.flags
    ensures x in Ring(s.order, s.fg) && s.fg in Spawn(s, id).order && x in Ring(Spawn(s, id).order, s.fg)
    ensures Dist(Spawn(s, id), x) == Dist(s, x) + 1
  {
    var a, b := RingParts(s, x);
    var u := Spawn(s, id);
    SpawnRing(s, id);
    DistSplit(s, x, a, b);
    SpawnPast(s, x, id, a, b);
  }

  lemma SpawnPast(s: Sched, x: Id, id: Id, a: seq<Id>, b: seq<Id>)
    requires s.fg in s.order && s.fg in Spawn(s, id).order && Pending(s.flags, x)
    requires Ring(Spawn(s, id).order, s.fg) == [id] + (a + [x] + b)
    requires x !in a && id != x && id !in a
    ensures x in Ring(Spawn(s, id).order, s.fg)
    ensures Dist(Spawn(s, id), x) == Count(s.flags, a) + 2
  {
    var u := Spawn(s, id);
    assert [id] + (a + [x] + b) == ([id] + a) + [x] + b;
    DistSplit(u, x, [id] + a, b);
    assert ([id] + a)[1..] == a;
    CountFrame(s.flags, u.flags, a);
  }

  lemma FlagDist(s: Sched, u: Sched, x: Id)
    requires Safe(s) && s.order == u.order && s.fg == u.fg && Pending(s.flags, x)
    requires forall id :: Pending(s.flags, id) == Pending(u.flags, id)
    ensures x in Ring(s.order, s.fg)
    ensures Dist(u, x) == Dist(s, x)
  {
    var a, b := RingParts(s, x);
    DistSplit(s, x, a, b);
    DistSplit(u, x, a, b);
    CountFrame(s.flags, u.flags, a);
  }

  function Yields(ops: seq<Op>): nat {
    if ops == [] then 0 else (if ops[0].DoYield? then 1 else 0) + Yields(ops[1..])
  }

  function Spawns(ops: seq<Op>): nat {
    if ops == [] then 0 else (if ops[0].DoSpawn? then 1 else 0) + Spawns(ops[1..])
  }

  /** x is in the background in every state of the run before its last one. */
  ghost predicate WaitsThrough(s: Sched, ops: seq<Op>, x: Id)
    requires LegalRun(s, ops)
    decreases |ops|
  {
    ops == [] || (s.fg != x && WaitsThrough(Apply(s, ops[0]), ops[1..], x))
  }

  /** One operation: the distance shrinks by one per yield, grows by one per
      spawn, and nothing else moves it. */
  lemma OpDist(s: Sched, op: Op, x: Id)
    requires Safe(s) && Legal(s, op) && Pending(s.flags, x)
    ensures x in Ring(s.order, s.fg) && Dist(s, x) >= 1
    ensures var u := Apply(s, op);
      var want := Dist(s, x) + (if op.DoSpawn? then 1 else 0) - (if op.DoYield? then 1 else 0);
      && (u.fg == x <==> want == 0)
      && (u.fg != x ==>
        Pending(u.flags, x) && u.fg in u.order && x in Ring(u.order, u.fg) && Dist(u, x) == want)
  {
    SwapDist(s, x);
    match op
    case DoYield =>
    case DoReap => ReapDist(s, x);
    case DoSpawn(id) => SpawnDist(s, x, id);
    case DoFinish => FlagDist(s, Finish(s), x);
    case DoBlock(b) => FlagDist(s, SetBlocked(s, b), x);
  }

  /** Bounded waiting.  A pending fiber becomes foreground with exactly the
      swap whose number is its distance plus the number of fibers spawned
      meanwhile, whatever finishes, blocks or is reaped in between. */
  lemma {:induction false} BoundedWaiting(s: Sched, ops: seq<Op>, x: Id)
    requires Safe(s) && LegalRun(s, ops) && Pending(s.flags, x) && WaitsThrough(s, ops, x)
    ensures x in Ring(s.order, s.fg)
    ensures Run(s, ops).fg == x <==> Yields(ops) == Dist(s, x) + Spawns(ops)
    ensures Run(s, ops).fg != x ==> Yields(ops) < Dist(s, x) + Spawns(ops)
    decreases |ops|
  {
    SwapDist(s, x);
    if ops != [] {
      OpDist(s, ops[0], x);
      ApplySafe(s, ops[0]);
      var u := Apply(s, ops[0]);
      if u.fg == x {
        assert ops[1..] == [];
      } else {
        BoundedWaiting(u, ops[1..], x);
      }
    }
  }

  // ----------------------------------------------------- what a yield is, in full

  /** The element j places after position k, the list being closed to a ring. */
  function Around<T>(s: seq<T>, k: nat, j: nat): T
    requires k < |s| && j < |s|
  {
    if k + j < |s| then s[k + j] else s[k + j - |s|]
  }

  /** Walking the list from the running fiber, and on from its head, x is the
      first other fiber that is in the background and not DONE. */
  ghost predicate Turn(s: Sched, x: Id) {
    exists k: nat, j: nat :: TurnAt(s, k, j, x)
  }

  ghost predicate TurnAt(s: Sched, k: nat, j: nat, x: Id) {
    && k < |s.order| && s.order[k] == s.fg && 0 < j < |s.order| && Around(s.order, k, j) == x
    && (forall i :: 0 < i < j ==> !Suspended(s, Around(s.order, k, i)))
    && Suspended(s, x)
  }

  predicate Suspended(s: Sched, id: Id) {
    id in s.flags && s.flags[id].bg && !s.flags[id].done
  }

  /** x takes over: its BG and FG bits and those of the fiber it takes over from
      are exchanged, the counter starts afresh, and all else stays. */
  ghost predicate TakesOver(s: Sched, u: Sched, x: Id) {
    && u.fg == x && u.qstep == 0 && u.order == s.order
    && (forall id :: id in u.flags <==> id in s.flags)
    && forall id :: id in s.flags ==> u.flags[id] == s.flags[id].(fg := id == x, bg := id != x)
  }

  /** x is somewhere before y in s. */
  ghost predicate Before<T(!new)>(s: seq<T>, x: T, y: T) {
    exists i, j :: 0 <= i < j < |s| && s[i] == x && s[j] == y
  }

  /** Exactly the DONE fibers are gone; the others keep their flags and order. */
  ghost predicate Freed(s: Sched, u: Sched) {
    && u.fg == s.fg && u.qstep == s.qstep && |u.order| <= |s.order|
    && (forall id :: id in u.flags <==> id in s.flags && !s.flags[id].done)
    && (forall id :: id in u.flags ==> u.flags[id] == s.flags[id])
    && (forall id :: id in u.order <==> id in s.order && !(id in s.flags && s.flags[id].done))
    && forall x, y :: x in u.order && y in u.order ==> (Before(u.order, x, y) <==> Before(s.order, x, y))
  }

  lemma RingAround<T>(s: seq<T>, x: T, k: nat)
    requires k < |s| && s[k] == x && Distinct(s)
    ensures IndexOf(s, x) == k && |Ring(s, x)| == |s| - 1
    ensures forall j :: 0 < j < |s| ==> Around(s, k, j) == Ring(s, x)[j - 1]
  {
  }

  lemma {:induction false} FirstPendingAt(flags: map<Id, Flags>, ids: seq<Id>, j: nat)
    requires j < |ids| && Pending(flags, ids[j]) && forall i :: 0 <= i < j ==> !Pending(flags, ids[i])
    ensures FirstPending(flags, ids) == Some(ids[j])
  {
    if j > 0 {
      FirstPendingAt(flags, ids[1..], j - 1);
    }
  }

  lemma {:induction false} FirstPendingIndex(flags: map<Id, Flags>, ids: seq<Id>) returns (j: nat)
    requires FirstPending(flags, ids).Some?
    ensures j < |ids| && ids[j] == FirstPending(flags, ids).value && Pending(flags, ids[j])
    ensures forall i :: 0 <= i < j ==> !Pending(flags, ids[i])
  {
    var a, b := FirstPendingSplit(flags, ids);
    FirstPendingSpec(flags, ids);
    j := |a|;
    assert forall i :: 0 <= i < j ==> ids[i] == a[i];
  }

  lemma TurnIsTarget(s: Sched, m: nat, j: nat, x: Id)
    requires Wf(s) && TurnAt(s, m, j, x)
    ensures Target(s) == Some(x)
  {
    var r := Ring(s.order, s.fg);
    RingAround(s.order, s.fg, m);
    hide Ring, Wf;
    forall i | 0 <= i < j - 1
      ensures !Pending(s.flags, r[i])
    {
      assert r[i] == Around(s.order, m, i + 1);
      assert !Suspended(s, Around(s.order, m, i + 1));
    }
    FirstPendingAt(s.flags, r, j - 1);
  }

  lemma TargetHasTurn(s: Sched, x: Id)
    requires Wf(s) && Target(s) == Some(x)
    ensures Turn(s, x)
  {
    var k := IndexOf(s.order, s.fg);
    RingAround(s.order, s.fg, k);
    var r := Ring(s.order, s.fg);
    var j := FirstPendingIndex(s.flags, r);
    hide Ring, Wf, IndexOf;
    forall i | 0 < i < j + 1
      ensures !Suspended(s, Around(s.order, k, i))
    {
      assert r[i - 1] == Around(s.order, k, i);
    }
    assert TurnAt(s, k, j + 1, x);
  }

  /** The fiber a yield swaps to is the one whose turn it is; there is none
      exactly when no other fiber is suspended. */
  lemma TargetIsTurn(s: Sched, x: Id)
    requires Wf(s)
    ensures Target(s) == Some(x) <==> Turn(s, x)
    ensures Target(s) == None <==> forall id :: id != s.fg ==> !Suspended(s, id)
  {
    TargetIff(s);
    assert forall id :: Suspended(s, id) == Pending(s.flags, id);
    hide Target, TurnAt, Wf, Suspended, Pending;
    if Target(s) == Some(x) {
      TargetHasTurn(s, x);
    }
    if Turn(s, x) {
      var m: nat, j: nat :| TurnAt(s, m, j, x);
      TurnIsTarget(s, m, j, x);
    }
  }

  lemma BeforeCons<T(!new)>(a: T, t: seq<T>, x: T, y: T)
    ensures Before([a] + t, x, y) <==> (a == x && y in t) || Before(t, x, y)
  {
    var s := [a] + t;
    if a == x && y in t {
      var j :| 0 <= j < |t| && t[j] == y;
      assert s[0] == x && s[j + 1] == y;
    }
    if Before(t, x, y) {
      var i, j :| 0 <= i < j < |t| && t[i] == x && t[j] == y;
      assert s[i + 1] == x && s[j + 1] == y;
    }
    if Before(s, x, y) {
      var i, j :| 0 <= i < j < |s| && s[i] == x && s[j] == y;
      assert t[j - 1] == y;
      if i > 0 {
        assert t[i - 1] == x;
      }
    }
  }

  lemma {:induction false} LiveBefore(flags: map<Id, Flags>, ids: seq<Id>, x: Id, y: Id)
    requires x in Live(flags, ids) && y in Live(flags, ids)
    ensures Before(Live(flags, ids), x, y) <==> Before(ids, x, y)
  {
    hide Before;
    LiveMembers(flags, ids);
    LiveMembers(flags, ids[1..]);
    assert ids == [ids[0]] + ids[1..];
    BeforeCons(ids[0], ids[1..], x, y);
    var t := Live(flags, ids[1..]);
    BeforeCons(ids[0], t, x, y);
    if x in t && y in t {
      LiveBefore(flags, ids[1..], x, y);
    } else {
      BeforeIn(t, x, y);
      BeforeIn(ids[1..], x, y);
    }
  }

  lemma BeforeIn<T(!new)>(s: seq<T>, x: T, y: T)
    ensures Before(s, x, y) ==> x in s && y in s
  {
  }

  lemma {:induction false} LiveShorter(flags: map<Id, Flags>, ids: seq<Id>)
    ensures |Live(flags, ids)| <= |ids|
  {
    if ids != [] {
      LiveShorter(flags, ids[1..]);
    }
  }

  lemma ReapFrees(s: Sched)
    requires Wf(s)
    ensures Freed(s, Reap(s))
  {
    var u := Reap(s);
    LiveMembers(s.flags, s.order);
    LiveShorter(s.flags, s.order);
    forall x, y | x in u.order && y in u.order
      ensures Before(u.order, x, y) <==> Before(s.order, x, y)
    {
      LiveBefore(s.flags, s.order, x, y);
    }
    hide Before, Live;
  }

  lemma SwapTakesOver(s: Sched, x: Id)
    requires Safe(s) && x in s.flags && x != s.fg
    ensures TakesOver(s, Swap(s, x), x)
  {
  }

  /** What a yield does, without the functions it is computed by: while another
      fiber is suspended the one whose turn it is takes over, and with none the
      DONE fibers are freed. */
  lemma YieldIs(s: Sched)
    requires Safe(s)
    ensures var u := Apply(s, DoYield);
      if exists id :: id != s.fg && Suspended(s, id)
      then Turn(s, u.fg) && TakesOver(s, u, u.fg)
      else Freed(s, u)
  {
    TargetIff(s);
    if Target(s).Some? {
      var x := Target(s).value;
      TargetIsTurn(s, x);
      SwapTakesOver(s, x);
    } else {
      TargetIsTurn(s, s.fg);
      ReapFrees(s);
    }
    hide Turn, Target, Freed, Live;
  }

  /** A new fiber is put right behind the running one, in the background, neither
      DONE nor BLOCKED, and nothing else changes. */
  lemma SpawnIs(s: Sched, id: Id, k: nat)
    requires Wf(s) && id !in s.flags && k < |s.order| && s.order[k] == s.fg
    ensures var u := Spawn(s, id);
      && u.fg == s.fg && u.qstep == s.qstep
      && |u.order| == |s.order| + 1 && u.order[k + 1] == id
      && (forall i :: 0 <= i <= k ==> u.order[i] == s.order[i])
      && (forall i :: k < i < |s.order| ==> u.order[i + 1] == s.order[i])
      && u.flags == s.flags[id := Flags(true, false, false, false)]
  {
    RingAround(s.order, s.fg, k);
  }

  // ------------------------------------------------------------------- the code

  /** The fields of the interpreter record the scheduler works on. */
  class Interp {
    var order: seq<Id>
    var flags: map<Id, Flags>
    var fg: Id
    var qstep: Byte

    function State(): Sched
      reads this
    {
      Sched(order, flags, fg, qstep)
    }

    constructor ()
      ensures Safe(State()) && order == [MAIN] && fg == MAIN && qstep == 0
      ensures flags == map[MAIN := Flags(false, true, false, false)]
    {
      order := [MAIN];
      flags := map[MAIN := Flags(false, true, false, false)];
      fg := MAIN;
      qstep := 0;
    }

    /** The first list walks of a yield: after fg, then from the head to fg. */
    method PickNext() returns (t: Option<Id>)
      requires Wf(State())
      ensures t == Target(State())
    {
      var k := IndexOf(order, fg);
      t := FirstFrom(k + 1, |order|);
      if t.None? {
        t := FirstFrom(0, k);
      }
      FirstPendingConcat(flags, order[k + 1..], order[..k]);
      assert order[k + 1..|order|] == order[k + 1..] && order[0..k] == order[..k];
    }

    method FirstFrom(lo: nat, hi: nat) returns (t: Option<Id>)
      requires lo <= hi <= |order|
      requires forall id :: id in order ==> id in flags
      ensures t == FirstPending(flags, order[lo..hi])
    {
      var i := lo;
      while i < hi
        invariant lo <= i <= hi
        invariant FirstPending(flags, order[lo..hi]) == FirstPending(flags, order[i..hi])
      {
        assert order[i..hi][1..] == order[i + 1..hi];
        if flags[order[i]].bg && !flags[order[i]].done {
          return Some(order[i]);
        }
        i := i + 1;
      }
      return None;
    }

    /** Frees every DONE fiber. */
    method Wait()
      requires Wf(State())
      modifies this
      ensures State() == Reap(old(State()))
    {
      Sweep();
      assert flags == Reap(old(State())).flags;
    }

    method Sweep()
      requires Distinct(order) && forall k :: 0 <= k < |order| ==> order[k] in flags
      modifies this
      ensures fg == old(fg) && qstep == old(qstep)
      ensures order == Live(old(flags), old(order))
      ensures flags == old(flags) - Dead(old(flags), old(order))
    {
      hide Live, Dead, Distinct;
      ghost var o, f := order, flags;
      ghost var j := 0;
      SweepStart(f, o);
      var i := 0;
      while i < |order|
        invariant 0 <= i <= |order| && 0 <= j <= |o|
        invariant fg == old(fg) && qstep == old(qstep)
        invariant order == Live(f, o[..j]) + o[j..] && i == |Live(f, o[..j])|
        invariant flags == f - Dead(f, o[..j])
        decreases |o| - j
      {
        var id := order[i];
        SweepStep(f, o, j);
        if flags[id].done {
          order := order[..i] + order[i + 1..];
          flags := flags - {id};
        } else {
          i := i + 1;
        }
        j := j + 1;
      }
      assert o[..j] == o;
    }

    /** A yield as the calling fiber sees it up to the context switch.  When it
        swaps, the rest of the call is the Wait that runs on resumption. */
    method Yield() returns (swapped: bool)
      requires Wf(State())
      modifies this
      ensures swapped == Target(old(State())).Some?
      ensures State() == Apply(old(State()), DoYield)
    {
      var t := PickNext();
      TargetIff(State());
      if t.Some? {
        var bg := fg;
        fg := t.value;
        qstep := 0;
        flags := flags[fg := flags[fg].(bg := false, fg := true)];
        flags := flags[bg := flags[bg].(fg := false, bg := true)];
        return true;
      }
      Wait();
      return false;
    }

    /** Starts a fiber: it is linked right after the running one. */
    method Start(id: Id)
      requires Wf(State()) && id !in flags
      modifies this
      ensures State() == Apply(old(State()), DoSpawn(id))
    {
      var k := IndexOf(order, fg);
      order := order[..k + 1] + [id] + order[k + 1..];
      flags := flags[id := Flags(true, false, false, false)];
    }

    /** The poll inside an offload: is some other fiber blocked, is some other
        fiber free?  The walk stops once both answers are yes. */
    method ScanOthers() returns (pending: bool, swap: bool)
      requires Wf(State())
      ensures pending == OtherBlocked(State())
      ensures swap == OtherFree(State())
    {
      pending, swap := false, false;
      var i := 0;
      while i < |order|
        invariant 0 <= i <= |order|
        invariant pending == exists j :: 0 <= j < i && order[j] != fg && flags[order[j]].blocked
        invariant swap == exists j :: 0 <= j < i && order[j] != fg && !flags[order[j]].blocked
      {
        if order[i] != fg {
          if flags[order[i]].blocked {
            pending := true;
          } else {
            swap := true;
          }
          if pending && swap {
            break;
          }
        }
        i := i + 1;
      }
    }
  }
}
