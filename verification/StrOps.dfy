/** Splitting text at a delimiter and joining it again. */
module StrOps {
  import opened Basics

  // ------------------------------------------------------------- the reference

  function Join(l: seq<string>, d: string): string {
    if l == [] then ""
    else if |l| == 1 then l[0]
    else l[0] + d + Join(l[1..], d)
  }

  /** d starts at k in s. */
  predicate At(s: string, d: string, k: nat) {
    k + |d| <= |s| && s[k..k + |d|] == d
  }

  ghost predicate Occurs(s: string, d: string) {
    exists k: nat :: At(s, d, k)
  }

  /** The leftmost start of d in s at k or later. */
  function Find(s: string, d: string, k: nat): (r: Option<nat>)
    requires k <= |s|
    ensures r.Some? ==> k <= r.value && At(s, d, r.value)
    decreases |s| - k
  {
    if At(s, d, k) then Some(k) else if k == |s| then None else Find(s, d, k + 1)
  }

  function Pieces(s: string, d: string): seq<string>
    requires d != ""
    decreases |s|
  {
    var k := Find(s, d, 0);
    if k == None then [s] else [s[..k.value]] + Pieces(s[k.value + |d|..], d)
  }

  function Letters(s: string): seq<string> {
    seq(|s|, i requires 0 <= i < |s| => [s[i]])
  }

  function Split(s: string, d: string): seq<string> {
    if d == "" then Letters(s) else Pieces(s, d)
  }

  // ------------------------------------------------------------------ searching

  lemma {:induction false} FindNone(s: string, d: string, k: nat, j: nat)
    requires k <= j && At(s, d, j)
    ensures Find(s, d, k).Some? && Find(s, d, k).value <= j
    decreases |s| - k
  {
    if !At(s, d, k) {
      FindNone(s, d, k + 1, j);
    }
  }

  lemma {:induction false} FindFirst(s: string, d: string, k: nat, j: nat)
    requires k <= j <= |s| && forall i :: k <= i < j ==> !At(s, d, i)
    ensures At(s, d, j) ==> Find(s, d, k) == Some(j)
    ensures Find(s, d, k) == Find(s, d, j)
    decreases j - k
  {
    if k < j {
      FindFirst(s, d, k + 1, j);
    }
  }

  lemma FindIff(s: string, d: string, j: nat)
    requires j <= |s|
    ensures Find(s, d, 0) == Some(j) <==> At(s, d, j) && forall i :: 0 <= i < j ==> !At(s, d, i)
    ensures Find(s, d, 0) == None <==> !Occurs(s, d)
  {
    if Find(s, d, 0) == Some(j) {
      forall i | 0 <= i < j
        ensures !At(s, d, i)
      {
        if At(s, d, i) {
          FindNone(s, d, 0, i);
        }
      }
    } else if At(s, d, j) && forall i :: 0 <= i < j ==> !At(s, d, i) {
      FindFirst(s, d, 0, j);
    }
    if Occurs(s, d) {
      var k: nat :| At(s, d, k);
      FindNone(s, d, 0, k);
    }
  }

  /** Whether d starts inside the first |x| characters of x + d + t does not
      depend on t. */
  lemma AtLocal(x: string, d: string, t: string, k: nat)
    requires d != "" && k < |x|
    ensures At(x + d + t, d, k) <==> At(x + d[..|d| - 1], d, k)
  {
    assert (x + d + t)[..|x| + |d| - 1] == x + d[..|d| - 1];
    if k + |d| <= |x| + |d| - 1 {
      assert (x + d + t)[k..k + |d|] == (x + d[..|d| - 1])[k..k + |d|];
    }
  }

  /** x ends where d is first met, whatever follows. */
  lemma FindAfter(x: string, d: string, t: string)
    requires d != ""
    ensures Find(x + d + t, d, 0) == Some(|x|) <==> !Occurs(x + d[..|d| - 1], d)
  {
    var s := x + d + t;
    FindIff(s, d, |x|);
    assert At(s, d, |x|);
    if Occurs(x + d[..|d| - 1], d) {
      var k: nat :| At(x + d[..|d| - 1], d, k);
      AtLocal(x, d, t, k);
    } else {
      forall k | 0 <= k < |x|
        ensures !At(s, d, k)
      {
        AtLocal(x, d, t, k);
      }
    }
    hide Find, At;
  }

  // ------------------------------------------------------------------ theorems

  lemma {:induction false} JoinPieces(s: string, d: string)
    requires d != ""
    ensures Pieces(s, d) != [] && Join(Pieces(s, d), d) == s
    decreases |s|
  {
    var k := Find(s, d, 0);
    if k.Some? {
      var rest := s[k.value + |d|..];
      JoinPieces(rest, d);
      assert Pieces(s, d)[1..] == Pieces(rest, d);
      assert s == s[..k.value] + s[k.value..k.value + |d|] + rest;
    }
  }

  lemma {:induction false} JoinLetters(s: string)
    ensures Join(Letters(s), "") == s
  {
    if s != "" {
      JoinLetters(s[1..]);
      assert Letters(s)[1..] == Letters(s[1..]);
      assert s == [s[0]] + s[1..];
    }
  }

  /** Joining what was split gives the text back, for every text and delimiter. */
  lemma JoinSplit(s: string, d: string)
    ensures Join(Split(s, d), d) == s
  {
    if d == "" {
      JoinLetters(s);
    } else {
      JoinPieces(s, d);
    }
  }

  /** A piece that is followed by d does not meet d early, even in part. */
  ghost predicate Clean(l: seq<string>, d: string)
    requires d != ""
  {
    && l != []
    && !Occurs(l[|l| - 1], d)
    && forall i :: 0 <= i < |l| - 1 ==> !Occurs(l[i] + d[..|d| - 1], d)
  }

  lemma CleanTail(l: seq<string>, d: string)
    requires d != "" && |l| >= 2
    ensures Clean(l, d) <==> !Occurs(l[0] + d[..|d| - 1], d) && Clean(l[1..], d)
  {
    var t := l[1..];
    assert t[|t| - 1] == l[|l| - 1];
    assert forall i :: 0 <= i < |t| - 1 ==> t[i] == l[i + 1];
    assert forall i :: 1 <= i < |l| - 1 ==> l[i] == t[i - 1];
  }

  /** Splitting a join gives the list back exactly when the list is clean. */
  lemma {:induction false} PiecesJoinIff(l: seq<string>, d: string)
    requires d != ""
    ensures Pieces(Join(l, d), d) == l <==> Clean(l, d)
  {
    var s := Join(l, d);
    if |l| == 0 {
      JoinPieces(s, d);
    } else if |l| == 1 {
      FindIff(s, d, 0);
      if Find(s, d, 0).Some? {
        JoinPieces(s[Find(s, d, 0).value + |d|..], d);
        assert |Pieces(s, d)| >= 2;
      }
    } else {
      var t := Join(l[1..], d);
      FindAfter(l[0], d, t);
      CleanTail(l, d);
      PiecesJoinIff(l[1..], d);
      if Find(s, d, 0) == Some(|l[0]|) {
        assert s[..|l[0]|] == l[0] && s[|l[0]| + |d|..] == t;
        assert Pieces(s, d) == [l[0]] + Pieces(t, d);
        assert ([l[0]] + Pieces(t, d))[1..] == Pieces(t, d);
        assert l == [l[0]] + l[1..];
      } else if Find(s, d, 0).Some? {
        assert |Pieces(s, d)[0]| != |l[0]|;
      }
    }
  }

  /** The pieces of a text are the one clean list that joins to it. */
  lemma SplitIff(s: string, d: string, l: seq<string>)
    requires d != ""
    ensures Split(s, d) == l <==> Join(l, d) == s && Clean(l, d)
  {
    JoinPieces(s, d);
    PiecesJoinIff(l, d);
  }

  lemma OccursLonger(x: string, y: string, d: string)
    requires Occurs(x, d)
    ensures Occurs(x + y, d)
  {
    var k: nat :| At(x, d, k);
    assert (x + y)[k..k + |d|] == x[k..k + |d|];
    assert At(x + y, d, k);
  }

  /** No piece contains the delimiter. */
  lemma NoPieceContains(s: string, d: string, i: nat)
    requires d != "" && i < |Split(s, d)|
    ensures !Occurs(Split(s, d)[i], d)
  {
    var l := Split(s, d);
    SplitIff(s, d, l);
    if Occurs(l[i], d) && i < |l| - 1 {
      OccursLonger(l[i], d[..|d| - 1], d);
    }
  }

  /** For a one-character delimiter clean means delimiter-free. */
  lemma OneCharIff(l: seq<string>, d: string)
    requires |d| == 1
    ensures Split(Join(l, d), d) == l <==> l != [] && forall i :: 0 <= i < |l| ==> !Occurs(l[i], d)
  {
    PiecesJoinIff(l, d);
    assert forall x: string :: x + d[..0] == x;
  }

  lemma {:induction false} JoinEmpty(l: seq<string>)
    requires forall i :: 0 <= i < |l| ==> |l[i]| == 1
    ensures Letters(Join(l, "")) == l
  {
    if l != [] {
      JoinEmpty(l[1..]);
      var t := Join(l[1..], "");
      assert Join(l, "") == l[0] + t;
      assert l[0] == [l[0][0]];
      assert Letters([l[0][0]] + t) == [[l[0][0]]] + Letters(t);
      assert l == [l[0]] + l[1..];
    }
  }

  /** An empty delimiter cuts between all characters, so only lists of single
      characters come back. */
  lemma NoDelimiterIff(l: seq<string>)
    ensures Split(Join(l, ""), "") == l <==> forall i :: 0 <= i < |l| ==> |l[i]| == 1
  {
    if forall i :: 0 <= i < |l| ==> |l[i]| == 1 {
      JoinEmpty(l);
    }
    assert forall i :: 0 <= i < |Letters(Join(l, ""))| ==> |Letters(Join(l, ""))[i]| == 1;
  }

  /** Where piece i starts in the joined text. */
  function Start(l: seq<string>, d: string, i: nat): nat
    requires i <= |l|
  {
    if i == 0 then 0 else Start(l, d, i - 1) + |l[i - 1]| + |d|
  }

  lemma {:induction false} StartShift(l: seq<string>, d: string, i: nat)
    requires 0 < i <= |l|
    ensures Start(l, d, i) == |l[0]| + |d| + Start(l[1..], d, i - 1)
  {
    if i > 1 {
      StartShift(l, d, i - 1);
    }
  }

  lemma AtAfter(a: string, b: string, d: string, k: nat)
    requires At(b, d, k)
    ensures At(a + b, d, |a| + k)
  {
    assert (a + b)[|a| + k..|a| + k + |d|] == b[k..k + |d|];
  }

  /** What a join is: the pieces in order, a delimiter after each but the last,
      and nothing else; a join of no pieces is empty. */
  lemma {:induction false} JoinIs(l: seq<string>, d: string, i: nat)
    ensures l == [] ==> Join(l, d) == ""
    ensures l != [] ==> |Join(l, d)| + |d| == Start(l, d, |l|)
    ensures i < |l| ==> At(Join(l, d), l[i], Start(l, d, i))
    ensures i + 1 < |l| ==> At(Join(l, d), d, Start(l, d, i) + |l[i]|)
  {
    hide At;
    if |l| == 1 {
      assert Start(l, d, 1) == |l[0]| + |d|;
      AtStart(l[0], "");
      assert l[0] + "" == l[0];
    } else if |l| > 1 {
      var t := Join(l[1..], d);
      JoinIs(l[1..], d, if i > 0 then i - 1 else 0);
      StartShift(l, d, |l|);
      assert Join(l, d) == l[0] + d + t == l[0] + (d + t);
      if i == 0 {
        AtStart(l[0], d + t);
        AtStart(d, t);
        AtAfter(l[0], d + t, d, 0);
      } else if i < |l| {
        StartShift(l, d, i);
        AtAfter(l[0] + d, t, l[i], Start(l[1..], d, i - 1));
        if i + 1 < |l| {
          AtAfter(l[0] + d, t, d, Start(l[1..], d, i - 1) + |l[i]|);
        }
      }
    }
  }

  lemma AtStart(x: string, t: string)
    ensures At(x + t, x, 0)
  {
    assert (x + t)[..|x|] == x;
  }

  // ---------------------------------------------------------------- operations

  /** n characters and the terminator after them. */
  predicate Terminated(text: array<char>, n: nat)
    reads text
  {
    text.Length == n + 1 && text[n] == '\0'
  }

  lemma DiffersAt(s: string, d: string, p: nat, j: nat)
    requires j < |d| && p + j <= |s| && (p + j < |s| ==> s[p + j] != d[j])
    ensures !At(s, d, p)
  {
    if p + |d| <= |s| {
      assert s[p..p + |d|][j] == s[p + j];
    }
  }

  lemma SameAt(s: string, d: string, p: nat)
    requires p + |d| <= |s| && forall i :: 0 <= i < |d| ==> s[p + i] == d[i]
    ensures At(s, d, p)
  {
  }

  /** Compares d with the text at p, stopping at the first difference: since d
      has no NUL, the comparison never goes past the terminator. */
  method MemEq(text: array<char>, n: nat, p: nat, d: string) returns (eq: bool)
    requires Terminated(text, n) && p <= n && '\0' !in d
    ensures eq <==> At(text[..n], d, p)
  {
    hide At;
    ghost var s := text[..n];
    var j := 0;
    while j < |d|
      invariant 0 <= j <= |d| && p + j <= n
      invariant forall i :: 0 <= i < j ==> s[p + i] == d[i]
    {
      if text[p + j] != d[j] {
        DiffersAt(s, d, p, j);
        return false;
      }
      assert d[j] in d;
      j := j + 1;
    }
    SameAt(s, d, p);
    return true;
  }

  lemma AtShift(s: string, d: string, from: nat, k: nat)
    requires from + k <= |s|
    ensures At(s[from..], d, k) <==> At(s, d, from + k)
  {
    if from + k + |d| <= |s| {
      assert s[from..][k..k + |d|] == s[from + k..from + k + |d|];
    }
  }

  lemma FindFrom(s: string, d: string, prev: nat, p: nat)
    requires d != "" && prev <= p <= |s| && forall i :: prev <= i < p ==> !At(s, d, i)
    ensures At(s, d, p) ==> Find(s[prev..], d, 0) == Some(p - prev)
    ensures p == |s| ==> Find(s[prev..], d, 0) == None
  {
    var t := s[prev..];
    forall i | 0 <= i < p - prev
      ensures !At(t, d, i)
    {
      AtShift(s, d, prev, i);
    }
    AtShift(s, d, prev, p - prev);
    FindFirst(t, d, 0, p - prev);
    hide At;
  }

  lemma FirstPiece(t: string, d: string, k: nat)
    requires d != "" && k <= |t| && Find(t, d, 0) == Some(k)
    ensures Pieces(t, d) == [t[..k]] + Pieces(t[k + |d|..], d)
  {
    hide Find, At;
  }

  lemma Sliced(s: string, a: nat, b: nat, c: nat)
    requires a <= b <= c <= |s|
    ensures s[a..][..b - a] == s[a..b] && s[a..][c - a..] == s[c..]
  {
  }

  /** With no delimiter before p, the rest of the text is cut at p. */
  lemma CutAt(s: string, d: string, prev: nat, p: nat)
    requires d != "" && prev <= p && p + |d| <= |s| && At(s, d, p)
    requires forall i :: prev <= i < p ==> !At(s, d, i)
    ensures Pieces(s[prev..], d) == [s[prev..p]] + Pieces(s[p + |d|..], d)
  {
    hide Find, At, Pieces;
    FindFrom(s, d, prev, p);
    Sliced(s, prev, p, p + |d|);
    FirstPiece(s[prev..], d, p - prev);
  }

  /** State of the splitting loop: the pieces before prev are in l, and no
      delimiter starts between prev and p. */
  ghost predicate SplitTo(s: string, d: string, l: seq<string>, prev: nat, p: nat) {
    && prev <= p <= |s|
    && if d == "" then prev == p && l == Letters(s)[..p]
       else l + Pieces(s[prev..], d) == Pieces(s, d) && forall i :: prev <= i < p ==> !At(s, d, i)
  }

  lemma SplitStart(s: string, d: string)
    ensures SplitTo(s, d, [], 0, 0)
  {
    assert s[0..] == s;
  }

  lemma SplitStep(s: string, d: string, l: seq<string>, prev: nat, p: nat)
    requires SplitTo(s, d, l, prev, p) && p < |s|
    ensures d == "" ==> SplitTo(s, d, l + [s[p..p + 1]], p + 1, p + 1)
    ensures d != "" && !At(s, d, p) ==> SplitTo(s, d, l, prev, p + 1)
    ensures d != "" && At(s, d, p) ==> SplitTo(s, d, l + [s[prev..p]], p + |d|, p + |d|)
  {
    if d == "" {
      assert s[p..p + 1] == [s[p]];
      assert Letters(s)[..p + 1] == Letters(s)[..p] + [[s[p]]];
    } else if At(s, d, p) {
      CutAt(s, d, prev, p);
      assert p + |d| <= |s|;
      hide At, Pieces;
      var rest := Pieces(s[p + |d|..], d);
      assert l + ([s[prev..p]] + rest) == l + [s[prev..p]] + rest;
    }
  }

  lemma SplitDone(s: string, d: string, l: seq<string>, prev: nat)
    requires SplitTo(s, d, l, prev, |s|)
    ensures Split(s, d) == if d == "" then l else l + [s[prev..]]
  {
    if d != "" {
      FindFrom(s, d, prev, |s|);
    }
  }

  method SplitText(text: array<char>, n: nat, d: string) returns (l: seq<string>)
    requires Terminated(text, n) && '\0' !in d
    ensures l == Split(text[..n], d)
  {
    hide At, Split;
    ghost var s := text[..n];
    l := [];
    var p: nat, prev: nat := 0, 0;
    SplitStart(s, d);
    while p != n
      invariant prev <= p <= n && SplitTo(s, d, l, prev, p)
      decreases n - p
    {
      SplitStep(s, d, l, prev, p);
      SplitBounds(s, d, l, prev, p);
      hide SplitTo;
      var eq := true;
      if d != "" {
        eq := MemEq(text, n, p, d);
      }
      if d != "" && !eq {
        p := p + 1;
      } else {
        var end := if d != "" then p else prev + 1;
        assert text[prev..end] == s[prev..end];
        l := l + [text[prev..end]];
        p := p + if d != "" then |d| else 1;
        prev := p;
      }
    }
    SplitDone(s, d, l, prev);
    if d != "" {
      assert text[prev..n] == s[prev..];
      l := l + [text[prev..n]];
    }
  }

  lemma SplitBounds(s: string, d: string, l: seq<string>, prev: nat, p: nat)
    requires SplitTo(s, d, l, prev, p) && p < |s|
    ensures d == "" ==> prev == p
    ensures At(s, d, p) ==> p + |d| <= |s|
  {
  }

  lemma {:induction false} JoinSnoc(l: seq<string>, x: string, d: string)
    requires l != []
    ensures Join(l + [x], d) == Join(l, d) + d + x
  {
    if |l| > 1 {
      JoinSnoc(l[1..], x, d);
      assert (l + [x])[1..] == l[1..] + [x];
    }
  }

  /** The joined text in a buffer that is reallocated for every item, with one
      character to spare for the terminator. */
  method JoinList(l: seq<string>, d: string) returns (s: array<char>)
    ensures fresh(s) && Terminated(s, |Join(l, d)|)
    ensures s[..|Join(l, d)|] == Join(l, d)
  {
    if l == [] {
      s := new char[1] (_ => '\0');
      return;
    }
    var len: nat := |l[0]|;
    s := new char[len + 1];
    forall j | 0 <= j < len {
      s[j] := l[0][j];
    }
    var i := 1;
    assert l[..1] == [l[0]];
    while i < |l|
      invariant 1 <= i <= |l| && fresh(s)
      invariant s.Length == len + 1 && s[..len] == Join(l[..i], d)
    {
      var mlen := len + |d| + |l[i]|;
      var ms := new char[mlen + 1];
      forall j | 0 <= j < mlen {
        ms[j] := if j < len then s[j] else if j < len + |d| then d[j - len] else l[i][j - len - |d|];
      }
      JoinSnoc(l[..i], l[i], d);
      assert l[..i + 1] == l[..i] + [l[i]];
      assert ms[..mlen] == s[..len] + d + l[i];
      s, len, i := ms, mlen, i + 1;
    }
    assert l[..i] == l;
    s[len] := '\0';
  }
}
