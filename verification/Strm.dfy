/** Reading from and writing to a stream whose other side is a driver. */
module Strm {
  import opened Basics

  /** Bytes asked for at a time when a stream cannot estimate. */
  const BUFSIZ := 64 * 1024

  datatype Reply = Failed | Got(data: seq<Byte>, eof: bool, again: bool)

  /** What the other side does in round k: its estimate of the bytes at hand
      (negative when the estimate fails), its reply to a request for n bytes, and
      how many of n offered bytes it accepts (negative for a failure). */
  datatype Driver = Driver(estimates: bool, peeksz: nat -> int, reply: (nat, nat) -> Reply, accept: (nat, nat) -> int)

  /** A driver never delivers more than it is asked for, nor accepts more than it
      is offered. */
  ghost predicate Bounded(d: Driver) {
    && (forall k: nat, n: nat :: d.reply(k, n).Got? ==> |d.reply(k, n).data| <= n)
    && (forall k: nat, n: nat :: d.accept(k, n) <= n)
  }

  function Peek(d: Driver, k: nat): int {
    if d.estimates then d.peeksz(k) else BUFSIZ
  }

  function Min(a: int, b: int): int {
    if a > b then b else a
  }

  // ------------------------------------------------------------- the reference

  /** How a round ends: another one follows, the read ends, or it fails. */
  datatype Fate = Goes | Ends(eof: bool) | Breaks

  /** Round k, with left bytes still wanted: what it delivers, */
  ghost function Chunk(d: Driver, k: nat, left: nat): (c: seq<Byte>)
    requires Bounded(d)
    ensures |c| <= left
  {
    var est := Min(Peek(d, k), left);
    if est > 0 && d.reply(k, est).Got? then d.reply(k, est).data else []
  }

  /** and how it ends. */
  ghost function FateOf(d: Driver, k: nat, left: nat): (f: Fate)
    requires Bounded(d)
    ensures f.Goes? ==> 0 < |Chunk(d, k, left)| < left
  {
    var est := Min(Peek(d, k), left);
    if est < 0 then Breaks
    else if est == 0 then Ends(false)
    else
      match d.reply(k, est)
      case Failed => Breaks
      case Got(data, eof, again) =>
        if eof then Ends(true)
        else if data == [] || !again || |data| == left then Ends(false)
        else Goes
  }

  datatype Outcome = Fail | Done(out: seq<Byte>, eof: bool)

  /** Rounds k, k + 1, ... of a read of at most want bytes. */
  ghost function Read(d: Driver, k: nat, want: nat): Outcome
    requires Bounded(d)
    decreases want
  {
    var c := Chunk(d, k, want);
    match FateOf(d, k, want)
    case Breaks => Fail
    case Ends(eof) => Done(c, eof)
    case Goes =>
      var r := Read(d, k + 1, want - |c|);
      if r.Done? then Done(c + r.out, r.eof) else Fail
  }

  // ------------------------------------------------------------------- rounds

  /** Bytes still wanted when n rounds are over. */
  ghost function Left(d: Driver, k: nat, want: nat, n: nat): nat
    requires Bounded(d)
  {
    if n == 0 then want
    else
      var left := Left(d, k, want, n - 1);
      left - |Chunk(d, k + n - 1, left)|
  }

  /** All that the first n rounds deliver, in order. */
  ghost function Took(d: Driver, k: nat, want: nat, n: nat): seq<Byte>
    requires Bounded(d)
  {
    if n == 0 then [] else Took(d, k, want, n - 1) + Chunk(d, k + n - 1, Left(d, k, want, n - 1))
  }

  ghost function FateAt(d: Driver, k: nat, want: nat, n: nat): Fate
    requires Bounded(d)
  {
    FateOf(d, k + n, Left(d, k, want, n))
  }

  /** Round n is the first that no other follows. */
  ghost predicate LastRound(d: Driver, k: nat, want: nat, n: nat)
    requires Bounded(d)
  {
    !FateAt(d, k, want, n).Goes? && forall j :: 0 <= j < n ==> FateAt(d, k, want, j).Goes?
  }

  lemma {:induction false} Shift(d: Driver, k: nat, want: nat, n: nat)
    requires Bounded(d) && FateOf(d, k, want).Goes?
    ensures Left(d, k, want, n + 1) == Left(d, k + 1, want - |Chunk(d, k, want)|, n)
    ensures Took(d, k, want, n + 1) == Chunk(d, k, want) + Took(d, k + 1, want - |Chunk(d, k, want)|, n)
    ensures FateAt(d, k, want, n + 1) == FateAt(d, k + 1, want - |Chunk(d, k, want)|, n)
  {
    hide Chunk, FateOf;
    if n > 0 {
      Shift(d, k, want, n - 1);
      assert k + 1 + n - 1 == k + n;
    } else {
      assert Left(d, k, want, 0) == want && Took(d, k, want, 0) == [];
    }
  }

  lemma {:induction false} TookLeft(d: Driver, k: nat, want: nat, n: nat)
    requires Bounded(d)
    ensures |Took(d, k, want, n)| + Left(d, k, want, n) == want
  {
    if n > 0 {
      TookLeft(d, k, want, n - 1);
    }
    hide Chunk;
  }

  lemma ShiftLast(d: Driver, k: nat, want: nat, n: nat)
    requires Bounded(d) && FateOf(d, k, want).Goes?
    requires LastRound(d, k + 1, want - |Chunk(d, k, want)|, n)
    ensures LastRound(d, k, want, n + 1)
  {
    hide Chunk, FateOf;
    Shift(d, k, want, n);
    forall j | 0 <= j <= n
      ensures FateAt(d, k, want, j).Goes?
    {
      if j > 0 {
        Shift(d, k, want, j - 1);
      }
    }
    hide FateAt;
  }

  /** The reading loop ends, at the first round that no other follows.  Unless
      that round fails it returns every byte delivered, in order and never more
      than wanted. */
  lemma {:induction false} ReadRounds(d: Driver, k: nat, want: nat) returns (n: nat)
    requires Bounded(d)
    ensures LastRound(d, k, want, n)
    ensures |Took(d, k, want, n + 1)| <= want
    ensures Read(d, k, want) ==
            (match FateAt(d, k, want, n)
             case Ends(eof) => Done(Took(d, k, want, n + 1), eof)
             case _ => Fail)
    decreases want
  {
    hide Chunk, FateOf;
    if FateOf(d, k, want).Goes? {
      var c := Chunk(d, k, want);
      var m := ReadRounds(d, k + 1, want - |c|);
      n := m + 1;
      Shift(d, k, want, m);
      Shift(d, k, want, m + 1);
      ShiftLast(d, k, want, m);
    } else {
      n := 0;
      assert FateAt(d, k, want, 0) == FateOf(d, k, want);
      assert Left(d, k, want, 0) == want && Took(d, k, want, 0) == [];
    }
    TookLeft(d, k, want, n + 1);
  }

  /** One round, in the terms of the source.  What is asked for is the estimate,
      or 65536 bytes of a stream that gives none, but no more than is wanted. */
  lemma RoundIs(d: Driver, k: nat, want: nat, est: int)
    requires Bounded(d) && want > 0
    requires est == if d.estimates then (if d.peeksz(k) > want then want else d.peeksz(k))
                    else if 65536 > want then want else 65536
    ensures est < 0 ==> Read(d, k, want) == Fail
    ensures est == 0 ==> Read(d, k, want) == Done([], false)
    ensures est > 0 ==>
              match d.reply(k, est)
              case Failed => Read(d, k, want) == Fail
              case Got(data, eof, again) =>
                if eof || data == [] || !again || |data| == want then Read(d, k, want) == Done(data, eof)
                else |data| < want && Read(d, k, want) ==
                       match Read(d, k + 1, want - |data|)
                       case Fail => Fail
                       case Done(out, last) => Done(data + out, last)
  {
  }

  function OneThenFailure(k: nat, n: nat): Reply {
    if k == 0 && n > 0 then Got([7], false, true) else Failed
  }

  function Accepts(k: nat, n: nat): int {
    n
  }

  /** A byte is delivered, the next round fails, and the byte is lost. */
  lemma DeliveredAndLost() returns (d: Driver)
    ensures Bounded(d) && Took(d, 0, 2, 1) == [7] && Read(d, 0, 2) == Fail
  {
    d := Driver(false, _ => 0, OneThenFailure, Accepts);
    assert Chunk(d, 0, 2) == [7] && FateOf(d, 0, 2) == Goes;
    assert FateOf(d, 1, 1) == Breaks;
    assert Left(d, 0, 2, 0) == 2 && Took(d, 0, 2, 0) == [];
  }

  // ---------------------------------------------------------------- operations

  ghost function Prepend(a: seq<Byte>, r: Outcome): Outcome {
    if r.Done? then Done(a + r.out, r.eof) else Fail
  }

  lemma ReadStep(d: Driver, k: nat, left: nat, a: seq<Byte>)
    requires Bounded(d)
    ensures FateOf(d, k, left).Goes? ==>
              Prepend(a, Read(d, k, left)) ==
              Prepend(a + Chunk(d, k, left), Read(d, k + 1, left - |Chunk(d, k, left)|))
    ensures FateOf(d, k, left).Ends? ==>
              Prepend(a, Read(d, k, left)) == Done(a + Chunk(d, k, left), FateOf(d, k, left).eof)
    ensures FateOf(d, k, left).Breaks? ==> Prepend(a, Read(d, k, left)) == Fail
  {
    hide Chunk, FateOf;
    if FateOf(d, k, left).Goes? {
      var c := Chunk(d, k, left);
      var r := Read(d, k + 1, left - |c|);
      if r.Done? {
        assert a + (c + r.out) == a + c + r.out;
      }
    }
  }

  lemma ReadStart(d: Driver, k: nat, want: nat)
    requires Bounded(d)
    ensures Prepend([], Read(d, k, want)) == Read(d, k, want)
    ensures Peek(d, k) < 0 ==> Read(d, k, want) == Fail
  {
    assert forall r: Outcome :: r.Done? ==> [] + r.out == r.out;
  }

  lemma RoundCases(d: Driver, k: nat, left: nat)
    requires Bounded(d) && left > 0
    ensures var est := Min(Peek(d, k), left);
            && (est < 0 ==> FateOf(d, k, left).Breaks?)
            && (est == 0 ==> FateOf(d, k, left) == Ends(false) && Chunk(d, k, left) == [])
            && (est > 0 ==>
                  match d.reply(k, est)
                  case Failed => FateOf(d, k, left).Breaks?
                  case Got(data, eof, again) =>
                    && Chunk(d, k, left) == data
                    && FateOf(d, k, left) == (if eof then Ends(true)
                                              else if data == [] || !again || |data| == left then Ends(false)
                                              else Goes))
  {
  }

  lemma StopsHere(d: Driver, k: nat, left: nat, a: seq<Byte>)
    requires Bounded(d) && left > 0 && Peek(d, k) <= 0
    ensures Prepend(a, Read(d, k, left)) == if Peek(d, k) < 0 then Fail else Done(a, false)
  {
    ReadStep(d, k, left, a);
    RoundCases(d, k, left);
    assert a + [] == a;
  }

  /** A longer buffer with the same beginning. */
  method Grow(buf: array<Byte>, len: nat) returns (nbuf: array<Byte>)
    requires buf.Length <= len
    ensures fresh(nbuf) && nbuf.Length == len && nbuf[..buf.Length] == buf[..]
  {
    nbuf := new Byte[len];
    forall i | 0 <= i < buf.Length {
      nbuf[i] := buf[i];
    }
  }

  /** The driver writes its reply into the n bytes at off, and nowhere else. */
  method Fetch(d: Driver, k: nat, buf: array<Byte>, off: nat, n: nat) returns (more: int, eof: bool, again: bool)
    requires Bounded(d) && off + n <= buf.Length
    modifies buf
    ensures buf[..off] == old(buf[..off]) && buf[off + n..] == old(buf[off + n..])
    ensures d.reply(k, n).Failed? ==> more < 0
    ensures d.reply(k, n).Got? ==> 0 <= more <= n && d.reply(k, n) == Got(buf[off..off + more], eof, again)
  {
    match d.reply(k, n) {
      case Failed =>
        more, eof, again := -1, false, true;
      case Got(data, e, a) =>
        forall i | 0 <= i < |data| {
          buf[off + i] := data[i];
        }
        more, eof, again := |data|, e, a;
    }
  }

  /** The reading loop of a stream that is open and not at its end: a buffer that
      grows by every estimate and always keeps one byte for the terminator. */
  method ReadLoop(d: Driver, start: nat, upTo: nat) returns (r: Outcome, next: nat)
    requires Bounded(d) && upTo > 0
    ensures r == Read(d, start, upTo) && next > start
  {
    hide Chunk, FateOf, Read, Prepend;
    ReadStart(d, start, upTo);
    var k: nat, want: nat := start, upTo;
    var est := Peek(d, k);
    if est < 0 {
      return Fail, k + 1;
    }
    est := Min(est, want);
    var buf := new Byte[0];
    var len: nat, out: nat, eof := 1, 0, false;
    while true
      invariant fresh(buf) && out <= buf.Length <= len && out < len
      invariant k >= start && 0 <= est == Min(Peek(d, k), want) && want > 0 && !eof
      invariant Prepend(buf[..out], Read(d, k, want)) == Read(d, start, upTo)
      decreases want
    {
      ghost var had := buf[..out];
      ReadStep(d, k, want, had);
      RoundCases(d, k, want);
      len := len + est;
      buf := Grow(buf, len);
      assert buf[..out] == had;
      if est == 0 {
        assert had + [] == had;
        break;
      }
      var more, last, again := Fetch(d, k, buf, out, est);
      if more < 0 {
        return Fail, k + 1;
      }
      assert buf[..out + more] == had + buf[out..out + more];
      out, eof := out + more, last;
      if eof || more == 0 || !again {
        break;
      }
      want := want - more;
      if want == 0 {
        break;
      }
      k := k + 1;
      est := Peek(d, k);
      if est <= 0 {
        StopsHere(d, k, want, buf[..out]);
      }
      if est < 0 {
        return Fail, k + 1;
      }
      if est == 0 {
        break;
      }
      est := Min(est, want);
    }
    r, next := Done(buf[..out], eof), k + 1;
    buf[out] := 0;
  }

  ghost function Add(n: nat, r: Option<nat>): Option<nat> {
    if r.Some? then Some(n + r.value) else None
  }

  /** How many of len bytes a write gets rid of from round k on. */
  ghost function Written(d: Driver, k: nat, len: nat): (r: Option<nat>)
    requires Bounded(d)
    ensures r.Some? ==> r.value <= len
    decreases len
  {
    if len == 0 then Some(0)
    else
      var chunk := d.accept(k, len);
      if chunk < 0 then None else if chunk == 0 then Some(0) else Add(chunk, Written(d, k + 1, len - chunk))
  }

  /** What is still to be written when n rounds have accepted what they did. */
  ghost function Unwritten(d: Driver, k: nat, len: nat, n: nat): int {
    if n == 0 then len
    else
      var left := Unwritten(d, k, len, n - 1);
      if left > 0 then left - d.accept(k + n - 1, left) else left
  }

  lemma {:induction false} UnwrittenShift(d: Driver, k: nat, len: nat, n: nat)
    requires Bounded(d) && len > 0 && d.accept(k, len) <= len
    ensures Unwritten(d, k, len, n + 1) == Unwritten(d, k + 1, len - d.accept(k, len), n)
  {
    if n > 0 {
      UnwrittenShift(d, k, len, n - 1);
      assert k + 1 + n - 1 == k + n;
    } else {
      assert Unwritten(d, k, len, 0) == len;
    }
  }

  /** Something is left for round n, and the round accepts some of it. */
  ghost predicate Takes(d: Driver, k: nat, len: nat, n: nat) {
    var left := Unwritten(d, k, len, n);
    left > 0 && d.accept(k + n, left) > 0
  }

  lemma TakesShift(d: Driver, k: nat, len: nat, n: nat)
    requires Bounded(d) && len > 0 && d.accept(k, len) <= len
    ensures Takes(d, k, len, n + 1) <==> Takes(d, k + 1, len - d.accept(k, len), n)
  {
    UnwrittenShift(d, k, len, n);
    hide Unwritten;
    assert k + 1 + n == k + (n + 1);
  }

  lemma FirstRound(d: Driver, k: nat, len: nat)
    ensures Unwritten(d, k, len, 0) == len
    ensures Takes(d, k, len, 0) <==> len > 0 && d.accept(k, len) > 0
  {
  }

  lemma AcceptsAtMost(d: Driver, k: nat, len: nat)
    requires Bounded(d)
    ensures d.accept(k, len) <= len
  {
  }

  /** A write goes on for n rounds, each of which accepts something, until all is
      written or a round accepts nothing; it fails exactly when that round does. */
  lemma {:induction false} WriteRounds(d: Driver, k: nat, len: nat) returns (n: nat)
    requires Bounded(d)
    ensures forall j :: 0 <= j < n ==> Takes(d, k, len, j)
    ensures !Takes(d, k, len, n)
    ensures var left := Unwritten(d, k, len, n);
      && 0 <= left <= len
      && match Written(d, k, len)
         case None => left > 0 && d.accept(k + n, left) < 0
         case Some(r) => r == len - left && (left == 0 || d.accept(k + n, left) == 0)
    decreases len
  {
    hide Bounded, Takes, Unwritten;
    FirstRound(d, k, len);
    AcceptsAtMost(d, k, len);
    if len == 0 || d.accept(k, len) <= 0 {
      n := 0;
    } else {
      var rest := len - d.accept(k, len);
      var m := WriteRounds(d, k + 1, rest);
      n := m + 1;
      UnwrittenShift(d, k, len, m);
      TakesShift(d, k, len, m);
      forall j | 0 <= j < n
        ensures Takes(d, k, len, j)
      {
        if j > 0 {
          TakesShift(d, k, len, j - 1);
        }
      }
      assert k + 1 + m == k + n;
    }
  }

  lemma WriteStep(d: Driver, k: nat, len: nat, out: nat)
    requires Bounded(d) && out < len
    ensures var chunk := d.accept(k, len - out);
      && chunk <= len - out
      && Add(out, Written(d, k, len - out)) ==
         if chunk < 0 then None else if chunk == 0 then Some(out)
         else Add(out + chunk, Written(d, k + 1, len - out - chunk))
  {
  }

  lemma WriteBytes(all: seq<Byte>, out: nat, chunk: int)
    requires out <= |all| && chunk <= |all| - out
    ensures chunk > 0 ==> all[..out] + all[out..out + chunk] == all[..out + chunk]
  {
  }

  /** The writing loop of a stream that is open: chunk after chunk is offered
      from where the last one ended, and gone is all that was accepted. */
  method WriteLoop(d: Driver, start: nat, buf: array<Byte>, len: nat)
    returns (r: Option<nat>, next: nat, ghost gone: seq<Byte>)
    requires Bounded(d) && len <= buf.Length
    ensures r == Written(d, start, len)
    ensures |gone| <= len && gone == buf[..|gone|] && (r.Some? ==> r.value == |gone|)
    ensures r.Some? && r.value < len ==> next > 0 && d.accept(next - 1, len - r.value) == 0
  {
    hide Written, Add, Bounded;
    ghost var all := buf[..len];
    var out: nat, k: nat := 0, start;
    gone := [];
    WriteStart(d, k, len);
    while out < len
      invariant out <= len && gone == all[..out]
      invariant Written(d, start, len) == Add(out, Written(d, k, len - out))
      decreases len - out
    {
      var chunk := d.accept(k, len - out);
      WriteStep(d, k, len, out);
      WriteBytes(all, out, chunk);
      k := k + 1;
      if chunk < 0 {
        return None, k, gone;
      }
      if chunk == 0 {
        return Some(out), k, gone;
      }
      gone := gone + all[out..out + chunk];
      out := out + chunk;
    }
    WriteEnd(d, k, out);
    return Some(out), k, gone;
  }

  lemma WriteStart(d: Driver, k: nat, len: nat)
    requires Bounded(d)
    ensures Written(d, k, len) == Add(0, Written(d, k, len))
  {
  }

  lemma WriteEnd(d: Driver, k: nat, out: nat)
    requires Bounded(d)
    ensures Add(out, Written(d, k, 0)) == Some(out)
  {
  }

  datatype Result = Nothing | Text(s: seq<Byte>) | Error

  class Stream {
    const d: Driver
    const canRead: bool
    const canWrite: bool
    var eof: bool
    var closed: bool
    var round: nat
    ghost var sent: seq<Byte>

    ghost predicate Valid()
      reads this
    {
      Bounded(d) && (closed ==> eof)
    }

    constructor (d: Driver, canRead: bool, canWrite: bool)
      requires Bounded(d)
      ensures Valid() && !eof && !closed && sent == [] && round == 0
      ensures this.d == d && this.canRead == canRead && this.canWrite == canWrite
    {
      this.d, this.canRead, this.canWrite := d, canRead, canWrite;
      eof, closed, round, sent := false, false, 0, [];
    }

    method Write(buf: array<Byte>, len: nat) returns (r: Option<nat>, ghost gone: nat)
      requires Valid() && len <= buf.Length
      modifies this
      ensures Valid() && closed == old(closed) && eof == old(eof)
      ensures closed || !canWrite ==> r == None && sent == old(sent)
      ensures !closed && canWrite ==> r == Written(d, old(round), len)
      ensures gone <= len && sent == old(sent) + buf[..gone] && (r.Some? ==> r.value == gone)
      ensures r.Some? && r.value < len ==> round > 0 && d.accept(round - 1, len - r.value) == 0
    {
      if closed || !canWrite {
        return None, 0;
      }
      ghost var out;
      r, round, out := WriteLoop(d, round, buf, len);
      sent := sent + out;
      gone := |out|;
    }

    method Close()
      requires Valid()
      modifies this
      ensures Valid() && closed && eof && sent == old(sent)
    {
      if !closed {
        eof, closed := true, true;
      }
    }

    method ReadUpTo(upTo: nat) returns (r: Result)
      requires Valid() && upTo > 0
      modifies this
      ensures Valid() && closed == old(closed) && sent == old(sent)
      ensures old(eof) ==> r == Nothing && eof
      ensures !old(eof) && !canRead ==> r == Error && !eof
      ensures !old(eof) && canRead ==>
                match Read(d, old(round), upTo)
                case Fail => r == Error && !eof
                case Done(out, last) => r == Text(out) && |out| <= upTo && eof == last
    {
      if eof {
        return Nothing;
      }
      if closed || !canRead {
        return Error;
      }
      ghost var n := ReadRounds(d, round, upTo);
      var o, next := ReadLoop(d, round, upTo);
      round := next;
      if o.Fail? {
        return Error;
      }
      if o.eof {
        eof := true;
      }
      return Text(o.out);
    }
  }
}
