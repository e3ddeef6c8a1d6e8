/** The text form of lists: the token scanner, the printer that should undo it,
    and the grammar both answer to. */
module ListText {
  import opened Basics
  import StrOps

  predicate Space(c: char) {
    c == ' ' || c == '\t' || c == '\n' || c == '\r'
  }

  predicate Spaced(s: string) {
    exists i :: 0 <= i < |s| && Space(s[i])
  }

  // -------------------------------------------------------------- the reference

  /** Length of t up to the brace that closes d open ones. */
  function BraceLen(t: string, d: nat): (n: Option<nat>)
    requires d >= 1
    ensures n.Some? ==> n.value < |t|
  {
    if t == "" then None
    else if t[0] == '}' && d == 1 then Some(0)
    else
      var r := BraceLen(t[1..], if t[0] == '{' then d + 1 else if t[0] == '}' then d - 1 else d);
      if r.Some? then Some(r.value + 1) else None
  }

  /** Length of t through the bracket at which both counts are zero.  The
      counts run freely: a closing brace may come first. */
  function BrackLen(t: string, k: int, b: int): (n: Option<nat>)
    ensures n.Some? ==> 1 <= n.value <= |t|
  {
    if t == "" then None
    else if t[0] == ']' && k == 1 && b == 0 then Some(1)
    else
      var r := BrackLen(t[1..],
                        if t[0] == '[' then k + 1 else if t[0] == ']' then k - 1 else k,
                        if t[0] == '{' then b + 1 else if t[0] == '}' then b - 1 else b);
      if r.Some? then Some(r.value + 1) else None
  }

  function BareLen(t: string): (n: nat)
    ensures n <= |t|
  {
    if t == "" || Space(t[0]) then 0 else 1 + BareLen(t[1..])
  }

  /** The token at the head of s, and how much of s it takes. */
  function Token(s: string): (r: Option<(string, nat)>)
    requires s != "" && !Space(s[0])
    ensures r.Some? ==> 1 <= r.value.1 <= |s|
  {
    if s[0] == '{' then
      var n := BraceLen(s[1..], 1);
      if n.Some? then Some((s[1..1 + n.value], n.value + 2)) else None
    else if s[0] == '[' then
      var n := BrackLen(s[1..], 1, 0);
      if n.Some? then Some((s[..n.value + 1], n.value + 1)) else None
    else
      var n := 1 + BareLen(s[1..]);
      Some((s[..n], n))
  }

  function Cons(x: string, r: Option<seq<string>>): Option<seq<string>> {
    if r.Some? then Some([x] + r.value) else None
  }

  function Parse(s: string): Option<seq<string>>
    decreases |s|
  {
    if s == "" then Some([])
    else if Space(s[0]) then Parse(s[1..])
    else
      var t := Token(s);
      if t.None? then None else Cons(t.value.0, Parse(s[t.value.1..]))
  }

  function Quote(x: string): string {
    if x == "" then "{}" else if Spaced(x) then "{" + x + "}" else x
  }

  function Print(items: seq<string>): string {
    if items == [] then "{}"
    else if |items| == 1 then Quote(items[0])
    else Quote(items[0]) + " " + Print(items[1..])
  }

  // ---------------------------------------------------------------- the grammar

  /** Brace-balanced, at every prefix, with d braces open before. */
  predicate BalancedFrom(t: string, d: nat) {
    if t == "" then d == 0
    else if t[0] == '{' then BalancedFrom(t[1..], d + 1)
    else if t[0] == '}' then d > 0 && BalancedFrom(t[1..], d - 1)
    else BalancedFrom(t[1..], d)
  }

  predicate Balanced(t: string) {
    BalancedFrom(t, 0)
  }

  /** Occurrences of a less those of b. */
  function Net(t: string, a: char, b: char): int {
    if t == "" then 0
    else Net(t[..|t| - 1], a, b) + (if t[|t| - 1] == a then 1 else if t[|t| - 1] == b then -1 else 0)
  }

  predicate ClosesAt(t: string, n: nat) {
    n < |t| && t[n] == ']' && Net(t[..n + 1], '[', ']') == 0 && Net(t[..n + 1], '{', '}') == 0
  }

  /** A bracket token: it closes at its last byte and not before. */
  predicate Bracketed(t: string) {
    t != "" && t[0] == '[' && ClosesAt(t, |t| - 1) && forall n :: 0 <= n < |t| - 1 ==> !ClosesAt(t, n)
  }

  datatype Piece = Blank(c: char) | Braced(inner: string) | Brackets(text: string) | Bare(text: string)

  function Text(p: Piece): string {
    match p
    case Blank(c) => [c]
    case Braced(t) => "{" + t + "}"
    case Brackets(t) => t
    case Bare(t) => t
  }

  predicate WfPiece(p: Piece) {
    match p
    case Blank(c) => Space(c)
    case Braced(t) => Balanced(t)
    case Brackets(t) => Bracketed(t)
    case Bare(t) => t != "" && t[0] != '{' && t[0] != '[' && !Spaced(t)
  }

  /** A bare token runs to the next white space or to the end. */
  predicate Document(ps: seq<Piece>) {
    ps == [] || (WfPiece(ps[0]) && (ps[0].Bare? && |ps| > 1 ==> ps[1].Blank?) && Document(ps[1..]))
  }

  function Flatten(ps: seq<Piece>): string {
    if ps == [] then "" else Text(ps[0]) + Flatten(ps[1..])
  }

  function Item(p: Piece): string
    requires !p.Blank?
  {
    if p.Braced? then p.inner else p.text
  }

  function Contents(ps: seq<Piece>): seq<string> {
    if ps == [] then []
    else if ps[0].Blank? then Contents(ps[1..])
    else [Item(ps[0])] + Contents(ps[1..])
  }

  // ------------------------------------------------------- tokens meet the grammar

  /** The closing brace is the first one at which the text before is balanced. */
  lemma {:induction false} BraceLenIff(t: string, d: nat, n: nat)
    requires d >= 1
    ensures BraceLen(t, d) == Some(n) <==> n < |t| && t[n] == '}' && BalancedFrom(t[..n], d - 1)
  {
    if t != "" {
      var d' := if t[0] == '{' then d + 1 else if t[0] == '}' then d - 1 else d;
      if n > 0 && n < |t| {
        assert t[..n][0] == t[0] && t[..n][1..] == t[1..][..n - 1];
      }
      if n > 0 && d' >= 1 {
        BraceLenIff(t[1..], d', n - 1);
      }
    }
  }

  lemma {:induction false} NetCons(c: char, t: string, a: char, b: char)
    ensures Net([c] + t, a, b) == (if c == a then 1 else if c == b then -1 else 0) + Net(t, a, b)
  {
    var s := [c] + t;
    if t == "" {
      assert s[..0] == "";
    } else {
      assert s[..|s| - 1] == [c] + t[..|t| - 1];
      NetCons(c, t[..|t| - 1], a, b);
    }
  }

  /** Both counts are zero at the bracket n of t, started from k and b. */
  predicate ClosesFrom(t: string, k: int, b: int, n: nat) {
    n < |t| && t[n] == ']' && k + Net(t[..n + 1], '[', ']') == 0 && b + Net(t[..n + 1], '{', '}') == 0
  }

  lemma {:induction false} ClosesShift(t: string, k: int, b: int, n: nat)
    requires t != ""
    ensures ClosesFrom(t, k, b, n + 1)
       <==> ClosesFrom(t[1..],
                       if t[0] == '[' then k + 1 else if t[0] == ']' then k - 1 else k,
                       if t[0] == '{' then b + 1 else if t[0] == '}' then b - 1 else b, n)
  {
    if n + 1 < |t| {
      assert t[..n + 2] == [t[0]] + t[1..][..n + 1];
      NetCons(t[0], t[1..][..n + 1], '[', ']');
      NetCons(t[0], t[1..][..n + 1], '{', '}');
    }
  }

  lemma ClosesHere(t: string, k: int, b: int)
    requires t != ""
    ensures ClosesFrom(t, k, b, 0) <==> t[0] == ']' && k == 1 && b == 0
  {
    assert t[..1] == [t[0]] + "";
    NetCons(t[0], "", '[', ']');
    NetCons(t[0], "", '{', '}');
  }

  /** The closing bracket is the first at which both counts are zero. */
  lemma {:induction false} BrackLenIff(t: string, k: int, b: int, n: nat)
    ensures BrackLen(t, k, b) == Some(n + 1)
       <==> ClosesFrom(t, k, b, n) && forall m :: 0 <= m < n ==> !ClosesFrom(t, k, b, m)
  {
    if t != "" {
      ClosesHere(t, k, b);
      var k' := if t[0] == '[' then k + 1 else if t[0] == ']' then k - 1 else k;
      var b' := if t[0] == '{' then b + 1 else if t[0] == '}' then b - 1 else b;
      if n > 0 {
        forall m: nat
          ensures ClosesFrom(t, k, b, m + 1) <==> ClosesFrom(t[1..], k', b', m)
        {
          ClosesShift(t, k, b, m);
        }
        BrackLenIff(t[1..], k', b', n - 1);
        if forall m :: 0 <= m < n ==> !ClosesFrom(t, k, b, m) {
          forall m | 0 <= m < n - 1
            ensures !ClosesFrom(t[1..], k', b', m)
          {
            assert !ClosesFrom(t, k, b, m + 1);
          }
        }
        if ClosesFrom(t, k, b, n) && !ClosesFrom(t, k, b, 0) &&
           forall m :: 0 <= m < n - 1 ==> !ClosesFrom(t[1..], k', b', m) {
          forall m | 0 <= m < n
            ensures !ClosesFrom(t, k, b, m)
          {
            if m > 0 {
              assert !ClosesFrom(t[1..], k', b', m - 1);
            }
          }
        }
      }
    }
  }

  lemma ClosesOpen(t: string, n: nat)
    requires t != "" && t[0] == '['
    ensures ClosesAt(t, n + 1) <==> ClosesFrom(t[1..], 1, 0, n)
    ensures !ClosesAt(t, 0)
  {
    if n + 1 < |t| {
      assert t[..n + 2] == ['['] + t[1..][..n + 1];
      NetCons('[', t[1..][..n + 1], '[', ']');
      NetCons('[', t[1..][..n + 1], '{', '}');
    }
  }

  lemma ClosesPrefix(s: string, m: nat, n: nat)
    requires n < m <= |s|
    ensures ClosesAt(s[..m], n) <==> ClosesAt(s, n)
  {
    assert s[..m][..n + 1] == s[..n + 1];
  }

  /** The scanned bracket token is the shortest prefix that is Bracketed. */
  lemma {:induction false} BrackTokenIff(s: string, n: nat)
    requires s != "" && s[0] == '[' && n <= |s|
    ensures BrackLen(s[1..], 1, 0) == Some(n) && n + 1 <= |s| <==> n + 1 <= |s| && Bracketed(s[..n + 1])
  {
    if 0 < n && n + 1 <= |s| {
      var u := s[..n + 1];
      BrackLenIff(s[1..], 1, 0, n - 1);
      forall m: nat
        ensures ClosesAt(s, m + 1) <==> ClosesFrom(s[1..], 1, 0, m)
      {
        ClosesOpen(s, m);
      }
      ClosesOpen(s, 0);
      forall m | 0 <= m < n + 1
        ensures ClosesAt(u, m) <==> ClosesAt(s, m)
      {
        ClosesPrefix(s, n + 1, m);
      }
      if forall m :: 0 <= m < n - 1 ==> !ClosesFrom(s[1..], 1, 0, m) {
        forall m | 0 <= m < n
          ensures !ClosesAt(u, m)
        {
          if m > 0 {
            assert !ClosesFrom(s[1..], 1, 0, m - 1);
          }
        }
      }
      if Bracketed(u) {
        forall m | 0 <= m < n - 1
          ensures !ClosesFrom(s[1..], 1, 0, m)
        {
          assert !ClosesAt(u, m + 1);
        }
      }
    } else if n + 1 <= |s| {
      assert s[..1] == "[";
      ClosesOpen(s[..1], 0);
    }
  }

  lemma SpacedCons(c: char, t: string)
    ensures Spaced([c] + t) <==> Space(c) || Spaced(t)
  {
    var s := [c] + t;
    assert forall i :: 0 <= i < |t| ==> s[i + 1] == t[i];
    assert s[0] == c;
    if Spaced(t) {
      var i :| 0 <= i < |t| && Space(t[i]);
      assert Space(s[i + 1]);
    }
  }

  lemma {:induction false} BareLenIff(t: string, n: nat)
    ensures BareLen(t) == n <==> n <= |t| && !Spaced(t[..n]) && (n < |t| ==> Space(t[n]))
  {
    if t == "" || Space(t[0]) {
      if 0 < n <= |t| {
        assert Space(t[..n][0]);
      }
    } else if n > 0 {
      BareLenIff(t[1..], n - 1);
      if n <= |t| {
        assert t[..n] == [t[0]] + t[1..][..n - 1];
        SpacedCons(t[0], t[1..][..n - 1]);
      }
    }
  }

  // ------------------------------------------------ the grammar is what is parsed

  lemma BracedToken(t: string, rest: string)
    requires Balanced(t)
    ensures Token("{" + t + "}" + rest) == Some((t, |t| + 2))
  {
    var s := "{" + t + "}" + rest;
    assert s[1..] == t + "}" + rest;
    BraceLenIff(s[1..], 1, |t|);
    assert s[1..][..|t|] == t == s[1..1 + |t|];
  }

  lemma BracketsToken(t: string, rest: string)
    requires Bracketed(t)
    ensures Token(t + rest) == Some((t, |t|))
  {
    var s := t + rest;
    assert s[..|t|] == t;
    BrackTokenIff(s, |t| - 1);
  }

  lemma BareToken(t: string, rest: string)
    requires t != "" && t[0] != '{' && t[0] != '[' && !Spaced(t) && (rest != "" ==> Space(rest[0]))
    ensures !Space(t[0]) && Token(t + rest) == Some((t, |t|))
  {
    var s := t + rest;
    assert t == [t[0]] + t[1..];
    SpacedCons(t[0], t[1..]);
    assert s[1..] == t[1..] + rest;
    assert s[1..][..|t| - 1] == t[1..];
    BareLenIff(s[1..], |t| - 1);
    assert s[..|t|] == t;
  }

  /** A well-formed piece at the head of a text is the token that is scanned,
      whatever follows it. */
  lemma {:induction false} PieceToken(p: Piece, rest: string)
    requires WfPiece(p) && !p.Blank? && (p.Bare? && rest != "" ==> Space(rest[0]))
    ensures var s := Text(p) + rest;
      s != "" && !Space(s[0]) && Token(s) == Some((Item(p), |Text(p)|))
  {
    match p
    case Braced(t) => BracedToken(t, rest);
    case Brackets(t) => BracketsToken(t, rest);
    case Bare(t) => BareToken(t, rest);
  }

  lemma ParsePiece(p: Piece, rest: string)
    requires WfPiece(p) && !p.Blank? && (p.Bare? && rest != "" ==> Space(rest[0]))
    ensures Parse(Text(p) + rest) == Cons(Item(p), Parse(rest))
  {
    PieceToken(p, rest);
    assert (Text(p) + rest)[|Text(p)|..] == rest;
  }

  /** Every document parses, to exactly its contents. */
  lemma {:induction false} GrammarComplete(ps: seq<Piece>)
    requires Document(ps)
    ensures Parse(Flatten(ps)) == Some(Contents(ps))
  {
    if ps != [] {
      var p, rest := ps[0], Flatten(ps[1..]);
      GrammarComplete(ps[1..]);
      if p.Blank? {
        assert Flatten(ps)[1..] == rest;
      } else {
        assert |ps| > 1 && p.Bare? ==> rest[0] == ps[1].c;
        PieceToken(p, rest);
        assert Flatten(ps)[|Text(p)|..] == rest;
      }
    }
  }

  lemma DocumentCons(p: Piece, ps: seq<Piece>)
    requires WfPiece(p) && Document(ps) && (p.Bare? && Flatten(ps) != "" ==> Space(Flatten(ps)[0]))
    ensures Document([p] + ps) && Flatten([p] + ps) == Text(p) + Flatten(ps)
  {
    hide WfPiece, Text, Space;
    assert ([p] + ps)[1..] == ps;
    if ps != [] {
      FlattenHead(ps);
    }
  }

  /** Every text that parses is a document with those contents. */
  lemma {:induction false} GrammarSound(s: string) returns (ps: seq<Piece>)
    requires Parse(s).Some?
    ensures Document(ps) && Flatten(ps) == s && Parse(s) == Some(Contents(ps))
    decreases |s|
  {
    hide Document, Flatten, Contents, WfPiece, Token;
    if s == "" {
      ps := [];
      NoPieces();
    } else {
      var p := if Space(s[0]) then Blank(s[0]) else Bare("");
      if !Space(s[0]) {
        p := TokenPiece(s);
      } else {
        BlankPiece(s[0]);
      }
      var n := |Text(p)|;
      var rest := GrammarSound(s[n..]);
      assert s == s[..n] + s[n..] && Text(p) == s[..n];
      DocumentCons(p, rest);
      ps := [p] + rest;
    }
    GrammarComplete(ps);
  }

  lemma NoPieces()
    ensures Document([]) && Flatten([]) == ""
  {
  }

  lemma BlankPiece(c: char)
    requires Space(c)
    ensures WfPiece(Blank(c)) && Text(Blank(c)) == [c]
  {
  }

  /** A document that starts with white space starts with a blank. */
  lemma FlattenHead(ps: seq<Piece>)
    requires Document(ps) && ps != []
    ensures Flatten(ps) != ""
    ensures Space(Flatten(ps)[0]) ==> ps[0].Blank?
  {
    if ps[0].Bare? {
      assert !Space(ps[0].text[0]);
    }
  }

  lemma BracedPiece(s: string)
    requires s != "" && s[0] == '{' && Token(s).Some?
    ensures Balanced(Token(s).value.0) && "{" + Token(s).value.0 + "}" == s[..Token(s).value.1]
  {
    var (x, n) := Token(s).value;
    BraceLenIff(s[1..], 1, n - 2);
    hide BraceLen, BalancedFrom;
    assert s[1..][..n - 2] == x;
  }

  lemma BracketsPiece(s: string)
    requires s != "" && s[0] == '[' && Token(s).Some?
    ensures Bracketed(Token(s).value.0) && Token(s).value.0 == s[..Token(s).value.1]
  {
    BrackTokenIff(s, Token(s).value.1 - 1);
    hide BrackLen, Bracketed;
  }

  lemma BarePiece(s: string)
    requires s != "" && !Space(s[0]) && s[0] != '{' && s[0] != '['
    ensures var n := 1 + BareLen(s[1..]);
      && Token(s) == Some((s[..n], n)) && !Spaced(s[..n]) && (n < |s| ==> Space(s[n]))
  {
    var n := 1 + BareLen(s[1..]);
    BareLenIff(s[1..], n - 1);
    assert s[..n] == [s[0]] + s[1..][..n - 1];
    SpacedCons(s[0], s[1..][..n - 1]);
  }

  lemma {:induction false} TokenPiece(s: string) returns (p: Piece)
    requires s != "" && !Space(s[0]) && Token(s).Some?
    ensures WfPiece(p) && !p.Blank? && Text(p) == s[..Token(s).value.1] && Item(p) == Token(s).value.0
    ensures p.Bare? && Token(s).value.1 < |s| ==> Space(s[Token(s).value.1])
  {
    hide Balanced, Bracketed, Spaced, Space;
    if s[0] == '{' {
      BracedPiece(s);
      p := Braced(Token(s).value.0);
    } else if s[0] == '[' {
      BracketsPiece(s);
      p := Brackets(Token(s).value.0);
    } else {
      BarePiece(s);
      p := Bare(Token(s).value.0);
    }
    hide Token;
  }

  ghost predicate Derives(s: string, items: seq<string>) {
    exists ps :: Document(ps) && Flatten(ps) == s && Contents(ps) == items
  }

  /** The scanner accepts exactly the grammar, with its contents. */
  lemma {:induction false} ParseIffDerives(s: string, items: seq<string>)
    ensures Parse(s) == Some(items) <==> Derives(s, items)
  {
    if Parse(s) == Some(items) {
      var ps := GrammarSound(s);
    }
    if Derives(s, items) {
      var ps :| Document(ps) && Flatten(ps) == s && Contents(ps) == items;
      GrammarComplete(ps);
    }
  }

  // ------------------------------------------------------------------ composition

  /** The parse of a text, then that of another. */
  function Both(x: Option<seq<string>>, y: Option<seq<string>>): Option<seq<string>> {
    if x.Some? && y.Some? then Some(x.value + y.value) else None
  }

  lemma BothCons(x: string, u: Option<seq<string>>, v: Option<seq<string>>)
    ensures Both(Cons(x, u), v) == Cons(x, Both(u, v))
  {
    if u.Some? && v.Some? {
      assert [x] + (u.value + v.value) == ([x] + u.value) + v.value;
    }
  }

  lemma ParseBlank(c: char, b: string)
    requires Space(c)
    ensures Parse([c] + b) == Parse(b)
    ensures Both(Parse(""), Parse(b)) == Parse(b)
  {
    assert ([c] + b)[1..] == b;
    if Parse(b).Some? {
      assert Parse("").value + Parse(b).value == Parse(b).value;
    }
  }

  /** A parsed text, white space, and any text: the parses are concatenated,
      and the whole fails exactly when the second text does. */
  lemma {:induction false} Compose(a: string, c: char, b: string)
    requires Parse(a).Some? && Space(c)
    ensures Parse(a + [c] + b) == Both(Parse(a), Parse(b))
    decreases |a|, 0
  {
    if a == "" {
      ParseBlank(c, b);
      assert a + [c] + b == [c] + b;
    } else if Space(a[0]) {
      var rest := a[1..];
      assert a == [a[0]] + rest && a + [c] + b == [a[0]] + (rest + [c] + b);
      ParseBlank(a[0], rest);
      ParseBlank(a[0], rest + [c] + b);
      Compose(rest, c, b);
    } else {
      var p := TokenPiece(a);
      var rest := a[|Text(p)|..];
      assert a == Text(p) + rest && |rest| < |a|;
      hide Token, Parse, Text, Both;
      ParsePiece(p, rest);
      ComposeToken(p, rest, c, b);
    }
  }

  lemma {:induction false} ComposeToken(p: Piece, rest: string, c: char, b: string)
    requires WfPiece(p) && !p.Blank? && (p.Bare? && rest != "" ==> Space(rest[0]))
    requires Parse(rest).Some? && Space(c)
    ensures Parse(Text(p) + rest + [c] + b) == Both(Cons(Item(p), Parse(rest)), Parse(b))
    decreases |rest|, 1
  {
    assert Text(p) + rest + [c] + b == Text(p) + (rest + [c] + b);
    hide Token, Parse, Text, Both;
    ParsePiece(p, rest + [c] + b);
    Compose(rest, c, b);
    BothCons(Item(p), Parse(rest), Parse(b));
  }

  // --------------------------------------------------- the parser undoes the printer

  /** Items the text form keeps: empty; or with white space and balanced; or
      bare and started by neither brace nor bracket; or one bracket token. */
  predicate Printable(x: string) {
    x == "" || if Spaced(x) then Balanced(x) else x[0] != '{' && (x[0] == '[' ==> Bracketed(x))
  }

  function PieceOf(x: string): Piece
    requires Printable(x)
  {
    if x == "" || Spaced(x) then Braced(x) else if x[0] == '[' then Brackets(x) else Bare(x)
  }

  lemma {:induction false} QuoteToken(x: string, rest: string)
    requires Printable(x) && (rest != "" ==> Space(rest[0]))
    ensures Parse(Quote(x) + rest) == Cons(x, Parse(rest))
  {
    var p := PieceOf(x);
    assert Text(p) == Quote(x);
    PieceToken(p, rest);
    assert (Quote(x) + rest)[|Text(p)|..] == rest;
  }

  /** A brace-wrapped token whose content is as long as x and is x: x balances. */
  lemma UnbalancedToken(x: string, rest: string)
    requires !Balanced(x)
    ensures var r := Token("{" + x + "}" + rest); r.Some? ==> r.value.0 != x
  {
    var s := "{" + x + "}" + rest;
    assert s[1..] == x + "}" + rest;
    BraceLenIff(s[1..], 1, |x|);
    assert s[1..][..|x|] == x;
  }

  /** A bare item that starts with a brace would have to end in the blank that
      follows it. */
  lemma BraceStartToken(x: string, rest: string)
    requires x != "" && x[0] == '{' && !Space(x[|x| - 1]) && (rest != "" ==> rest[0] == ' ')
    ensures var r := Token(x + rest); r.Some? ==> r.value.0 != x
  {
    var s := x + rest;
    var r := Token(s);
    if r.Some? && |r.value.0| == |x| {
      assert r.value.0[|x| - 1] == s[|x|] == rest[0];
    }
  }

  lemma BracketStartToken(x: string, rest: string)
    requires x != "" && x[0] == '[' && !Bracketed(x)
    ensures var r := Token(x + rest); r.Some? ==> r.value.0 != x
  {
    var s := x + rest;
    BrackTokenIff(s, |x| - 1);
    assert s[..|x|] == x;
  }

  /** The printed form of an item that is not printable never scans back. */
  lemma {:induction false} UnprintableToken(x: string, rest: string)
    requires !Printable(x) && (rest != "" ==> rest[0] == ' ')
    ensures var s := Quote(x) + rest;
      s != "" && !Space(s[0]) && (Token(s).Some? ==> Token(s).value.0 != x)
  {
    hide Token, Balanced, Bracketed;
    if Spaced(x) {
      UnbalancedToken(x, rest);
    } else {
      assert !Space(x[0]) && !Space(x[|x| - 1]);
      if x[0] == '{' {
        BraceStartToken(x, rest);
      } else {
        BracketStartToken(x, rest);
      }
    }
  }

  lemma PrintHead(x: string, rest: seq<string>)
    ensures Print([x] + rest) == Quote(x) + if rest == [] then "" else [' '] + Print(rest)
  {
    var all := [x] + rest;
    assert all[1..] == rest;
    if rest != [] {
      assert Quote(x) + " " + Print(rest) == Quote(x) + (" " + Print(rest));
    }
  }

  /** A printable first item is read back, and the rest is read on its own. */
  lemma PrintableHead(x: string, rest: seq<string>)
    requires Printable(x)
    ensures Parse(Print([x] + rest)) == Cons(x, if rest == [] then Some([]) else Parse(Print(rest)))
  {
    hide Parse, Print, Printable;
    PrintHead(x, rest);
    if rest == [] {
      QuoteToken(x, "");
      ParseEmpty();
    } else {
      QuoteToken(x, [' '] + Print(rest));
      ParseBlank(' ', Print(rest));
    }
  }

  lemma ParseEmpty()
    ensures Parse("") == Some([])
  {
  }

  /** A first item that is read back is printable. */
  lemma ReadHead(x: string, rest: seq<string>, items: seq<string>)
    requires Parse(Print([x] + rest)) == Some(items) && items != [] && items[0] == x
    ensures Printable(x)
  {
    hide Print, Printable, Token;
    PrintHead(x, rest);
    if !Printable(x) {
      UnprintableToken(x, if rest == [] then "" else [' '] + Print(rest));
    }
  }

  predicate AllPrintable(items: seq<string>) {
    forall i :: 0 <= i < |items| ==> Printable(items[i])
  }

  lemma AllPrintableHead(x: string, rest: seq<string>)
    ensures AllPrintable([x] + rest) <==> Printable(x) && AllPrintable(rest)
  {
    hide Printable;
    var all := [x] + rest;
    if AllPrintable(all) {
      assert all[0] == x;
      forall i | 0 <= i < |rest|
        ensures Printable(rest[i])
      {
        assert all[i + 1] == rest[i];
      }
    }
  }

  /** Printing then scanning a list gives the list back exactly when the list is
      non-empty and each of its items is printable. */
  lemma {:induction false} RoundTripIff(items: seq<string>)
    ensures Parse(Print(items)) == Some(items) <==> items != [] && AllPrintable(items)
    decreases |items|, 0
  {
    hide Parse, Print, Printable, AllPrintable;
    if items == [] {
      EmptyListFails();
    } else {
      var x, rest := items[0], items[1..];
      assert items == [x] + rest;
      AllPrintableHead(x, rest);
      if Printable(x) {
        PrintableHead(x, rest);
        RoundTripRest(rest);
        ConsIff(x, if rest == [] then Some([]) else Parse(Print(rest)), rest);
      } else if Parse(Print(items)) == Some(items) {
        ReadHead(x, rest, items);
      }
    }
  }

  lemma {:induction false} RoundTripRest(rest: seq<string>)
    decreases |rest|, 1
    ensures (if rest == [] then Some([]) else Parse(Print(rest))) == Some(rest) <==> AllPrintable(rest)
  {
    hide Parse, Print;
    if rest != [] {
      RoundTripIff(rest);
    }
  }

  lemma ConsIff(x: string, r: Option<seq<string>>, rest: seq<string>)
    ensures Cons(x, r) == Some([x] + rest) <==> r == Some(rest)
  {
    if Cons(x, r) == Some([x] + rest) {
      assert ([x] + r.value)[1..] == ([x] + rest)[1..];
    }
  }

  // -------------------------------------------- white space, quoting and balance

  lemma SpacedIs(s: string)
    ensures Spaced(s) <==> exists i :: 0 <= i < |s| && s[i] in " \t\n\r"
  {
    if i :| 0 <= i < |s| && s[i] in " \t\n\r" {
      assert Space(s[i]);
    }
  }

  /** A text that starts with neither brace nor bracket and has no blank, tab,
      newline or carriage return. */
  predicate Plain(s: string) {
    s != "" && s[0] != '{' && s[0] != '[' && forall i :: 0 <= i < |s| ==> s[i] !in " \t\n\r"
  }

  /** A plain text is one item, itself. */
  lemma PlainReads(s: string)
    requires Plain(s)
    ensures Parse(s) == Some([s])
  {
    SpacedIs(s);
    assert s + "" == s;
    hide Parse;
    ParsePiece(Bare(s), "");
    ParseEmpty();
    assert [s] + [] == [s];
  }

  lemma PlainJoined(a: string, c: char, b: string)
    requires Plain(a) && Plain(b) && c !in " \t\n\r"
    ensures Plain(a + [c] + b)
  {
    var s := a + [c] + b;
    assert s[0] == a[0];
    forall i | 0 <= i < |s|
      ensures s[i] !in " \t\n\r"
    {
      assert s[i] == if i < |a| then a[i] else if i == |a| then c else b[i - |a| - 1];
    }
  }

  /** Two plain texts with a character between them are two items exactly when
      the character is a blank, tab, newline or carriage return; with any other
      they are one. */
  lemma SeparatorIff(a: string, c: char, b: string)
    requires Plain(a) && Plain(b)
    ensures Parse(a + [c] + b) == Some(if c in " \t\n\r" then [a, b] else [a + [c] + b])
  {
    PlainReads(a);
    PlainReads(b);
    if c in " \t\n\r" {
      Compose(a, c, b);
      assert [a] + [b] == [a, b];
    } else {
      PlainJoined(a, c, b);
      PlainReads(a + [c] + b);
    }
    hide Parse;
  }

  /** An item as it stands in the text of its list: in braces when it is empty or
      has white space, else as it is. */
  ghost function InText(x: string): string {
    if x == "" || exists i :: 0 <= i < |x| && x[i] in " \t\n\r" then "{" + x + "}" else x
  }

  ghost function AllInText(items: seq<string>): seq<string> {
    seq(|items|, i requires 0 <= i < |items| => InText(items[i]))
  }

  lemma QuoteIs(x: string)
    ensures Quote(x) == InText(x)
  {
    SpacedIs(x);
    assert "{" + "" + "}" == "{}";
  }

  /** The text of a list is that of its items with blanks between them, and a
      pair of braces for a list of none. */
  lemma {:induction false} PrintIsJoin(items: seq<string>)
    ensures Print(items) == if items == [] then "{}" else StrOps.Join(AllInText(items), " ")
  {
    hide Quote, InText;
    if items != [] {
      QuoteIs(items[0]);
      var l := AllInText(items);
      assert l[0] == InText(items[0]);
      if |items| > 1 {
        PrintIsJoin(items[1..]);
        assert l[1..] == AllInText(items[1..]);
      }
    }
  }

  function Occurrences(t: string, c: char): nat {
    multiset(t)[c]
  }

  /** The two counts of the scanner are differences of occurrences. */
  lemma {:induction false} NetIs(t: string, a: char, b: char)
    requires a != b
    ensures Net(t, a, b) == Occurrences(t, a) - Occurrences(t, b)
  {
    if t != "" {
      NetIs(t[..|t| - 1], a, b);
      assert t == t[..|t| - 1] + [t[|t| - 1]];
    }
  }

  /** No prefix of t closes more braces than it and d others open. */
  ghost predicate NeverBelow(t: string, d: int) {
    forall n :: 0 <= n <= |t| ==> Occurrences(t[..n], '}') <= Occurrences(t[..n], '{') + d
  }

  lemma PrefixCount(t: string, n: nat, c: char)
    requires 0 < n <= |t|
    ensures Occurrences(t[..n], c) == Occurrences(t[1..][..n - 1], c) + if t[0] == c then 1 else 0
  {
    assert t[..n] == [t[0]] + t[1..][..n - 1];
  }

  lemma NeverBelowCons(t: string, d: nat, e: int)
    requires t != "" && e == d + (if t[0] == '{' then 1 else if t[0] == '}' then -1 else 0)
    ensures NeverBelow(t, d) <==> e >= 0 && NeverBelow(t[1..], e)
  {
    forall n | 0 < n <= |t|
      ensures Occurrences(t[..n], '}') <= Occurrences(t[..n], '{') + d <==>
              Occurrences(t[1..][..n - 1], '}') <= Occurrences(t[1..][..n - 1], '{') + e
    {
      PrefixCount(t, n, '{');
      PrefixCount(t, n, '}');
    }
    assert t[..0] == "" && t[1..][..0] == "";
    if NeverBelow(t, d) {
      forall n | 0 <= n <= |t[1..]|
        ensures Occurrences(t[1..][..n], '}') <= Occurrences(t[1..][..n], '{') + e
      {
        assert Occurrences(t[..n + 1], '}') <= Occurrences(t[..n + 1], '{') + d;
      }
      assert Occurrences(t[1..][..0], '}') <= Occurrences(t[1..][..0], '{') + e;
    }
  }

  lemma {:induction false} BalancedFromIs(t: string, d: nat)
    ensures BalancedFrom(t, d) <==> NeverBelow(t, d) && Occurrences(t, '}') == Occurrences(t, '{') + d
  {
    hide Occurrences, NeverBelow;
    if t == "" {
      NoneIn(d);
    } else {
      var e := d + (if t[0] == '{' then 1 else if t[0] == '}' then -1 else 0);
      NeverBelowCons(t, d, e);
      assert t[..|t|] == t && t[1..][..|t| - 1] == t[1..];
      PrefixCount(t, |t|, '{');
      PrefixCount(t, |t|, '}');
      if e >= 0 {
        BalancedFromIs(t[1..], e);
      }
    }
  }

  lemma NoneIn(d: nat)
    ensures Occurrences("", '{') == 0 && Occurrences("", '}') == 0 && NeverBelow("", d)
  {
  }

  /** Balanced at every prefix means what it says: no prefix closes more braces
      than it opens, and the whole closes all. */
  lemma BalancedIs(t: string)
    ensures Balanced(t) <==>
              (forall n :: 0 <= n <= |t| ==> Occurrences(t[..n], '}') <= Occurrences(t[..n], '{'))
              && Occurrences(t, '}') == Occurrences(t, '{')
  {
    BalancedFromIs(t, 0);
    hide Occurrences;
  }

  /** A bracket token, in occurrences: it starts with a bracket, and its last
      character is the first closing bracket up to which there are as many
      closing as opening brackets, and braces too. */
  lemma BracketedIs(t: string)
    ensures Bracketed(t) <==>
              && t != "" && t[0] == '[' && Shut(t, |t| - 1)
              && forall n :: 0 <= n < |t| - 1 ==> !Shut(t, n)
  {
    forall n | 0 <= n < |t|
      ensures ClosesAt(t, n) <==> Shut(t, n)
    {
      NetIs(t[..n + 1], '[', ']');
      NetIs(t[..n + 1], '{', '}');
    }
    hide ClosesAt, Shut, Occurrences;
  }

  ghost predicate Shut(t: string, n: int) {
    && 0 <= n < |t| && t[n] == ']'
    && Occurrences(t[..n + 1], '[') == Occurrences(t[..n + 1], ']')
    && Occurrences(t[..n + 1], '{') == Occurrences(t[..n + 1], '}')
  }

  // ------------------------------------------------------- one item more or less

  lemma InitTail<T>(ps: seq<T>)
    requires |ps| > 1
    ensures ps[..|ps| - 1][1..] == ps[1..][..|ps| - 2] && ps[1..][|ps| - 2] == ps[|ps| - 1]
    ensures ps[..|ps| - 1][0] == ps[0]
  {
  }

  lemma FlattenCons(ps: seq<Piece>)
    requires ps != []
    ensures Flatten(ps) == Text(ps[0]) + Flatten(ps[1..])
  {
  }

  lemma FlattenOne(ps: seq<Piece>)
    requires |ps| == 1
    ensures Flatten(ps) == Text(ps[0]) == Flatten(ps[..0]) + Text(ps[0])
  {
    assert ps[1..] == [] && ps[..0] == [];
  }

  lemma Regroup(a: string, b: string, c: string)
    ensures a + (b + c) == a + b + c
  {
  }

  lemma {:induction false} FlattenLast(ps: seq<Piece>)
    requires ps != []
    ensures Flatten(ps) == Flatten(ps[..|ps| - 1]) + Text(ps[|ps| - 1])
  {
    hide Text, Flatten;
    if |ps| > 1 {
      FlattenLast(ps[1..]);
      InitTail(ps);
      FlattenCons(ps);
      FlattenCons(ps[..|ps| - 1]);
      Regroup(Text(ps[0]), Flatten(ps[1..][..|ps| - 2]), Text(ps[|ps| - 1]));
    } else {
      FlattenOne(ps);
    }
  }

  lemma {:induction false} ContentsLast(ps: seq<Piece>)
    requires ps != []
    ensures var (a, p) := (ps[..|ps| - 1], ps[|ps| - 1]);
      Contents(ps) == if p.Blank? then Contents(a) else Contents(a) + [Item(p)]
  {
    hide Item;
    if |ps| > 1 {
      ContentsLast(ps[1..]);
      InitTail(ps);
    } else {
      assert ps[1..] == [] && ps[..0] == [];
    }
  }

  lemma {:induction false} DocumentInit(ps: seq<Piece>)
    requires Document(ps) && ps != []
    ensures Document(ps[..|ps| - 1]) && WfPiece(ps[|ps| - 1])
  {
    hide WfPiece;
    if |ps| > 1 {
      DocumentInit(ps[1..]);
      InitTail(ps);
      assert |ps| > 2 ==> ps[..|ps| - 1][1] == ps[1];
    }
  }

  lemma DocumentLast(ps: seq<Piece>)
    requires Document(ps) && ps != []
    ensures var (a, p) := (ps[..|ps| - 1], ps[|ps| - 1]);
      && Document(a) && WfPiece(p) && Flatten(ps) == Flatten(a) + Text(p)
      && Contents(ps) == if p.Blank? then Contents(a) else Contents(a) + [Item(p)]
  {
    hide Document, Flatten, Contents, WfPiece, Text;
    DocumentInit(ps);
    FlattenLast(ps);
    ContentsLast(ps);
  }

  /** How a piece ends. */
  lemma TextEnds(p: Piece)
    requires WfPiece(p)
    ensures Text(p) != "" && (Space(Text(p)[|Text(p)| - 1]) <==> p.Blank?)
    ensures p.Brackets? ==> Text(p)[|Text(p)| - 1] == ']'
    ensures p.Braced? ==> Text(p)[|Text(p)| - 1] == '}'
  {
  }

  /** A parsed text that ends in no white space ends in its last token. */
  lemma LastToken(s: string, items: seq<string>) returns (a: string, p: Piece)
    requires Parse(s) == Some(items) && s != "" && !Space(s[|s| - 1])
    ensures WfPiece(p) && !p.Blank? && s == a + Text(p)
    ensures items != [] && Item(p) == items[|items| - 1] && Parse(a) == Some(items[..|items| - 1])
  {
    hide Parse, WfPiece, Text, Space;
    var ps := GrammarSound(s);
    DocumentLast(ps);
    p := ps[|ps| - 1];
    a := Flatten(ps[..|ps| - 1]);
    TextEnds(p);
    assert s[|s| - 1] == Text(p)[|Text(p)| - 1];
    GrammarComplete(ps[..|ps| - 1]);
    hide Flatten, Contents, Document;
  }

  lemma TrailingBlank(x: string, items: seq<string>)
    requires Parse(x + " ") == Some(items)
    ensures Parse(x) == Some(items)
  {
    hide Parse, WfPiece, Text;
    var ps := GrammarSound(x + " ");
    DocumentLast(ps);
    var a, p := ps[..|ps| - 1], ps[|ps| - 1];
    TextEnds(p);
    assert (x + " ")[|x|] == Text(p)[|Text(p)| - 1];
    GrammarComplete(a);
    BlankText(p);
    assert x == Flatten(a) by {
      assert (Flatten(a) + Text(p))[..|Flatten(a)|] == Flatten(a);
      assert (x + " ")[..|x|] == x;
    }
  }

  lemma BlankText(p: Piece)
    ensures p.Blank? ==> |Text(p)| == 1
  {
  }

  lemma BracedNotBare(a: string, b: string, v: string)
    requires v != "" && !Spaced(v) && (b != "" ==> b[|b| - 1] == ' ')
    ensures a + ("{" + v + "}") != b + v
  {
    var s, u := a + ("{" + v + "}"), b + v;
    assert !Space(v[0]);
    if |s| == |u| {
      assert s[|a| + 1] == v[0] && u[|b| - 1] == ' ';
    }
  }

  lemma EndsDiffer(a: string, x: string, b: string, y: string)
    requires x != "" && y != "" && x[|x| - 1] != y[|y| - 1]
    ensures a + x != b + y
  {
    var s, u := a + x, b + y;
    if |s| == |u| {
      assert s[|s| - 1] == x[|x| - 1] && u[|u| - 1] == y[|y| - 1];
    }
  }

  lemma CutEnd(a: string, b: string, x: string)
    requires a + x == b + x
    ensures a == b
  {
    assert (a + x)[..|a|] == a && (b + x)[..|b|] == b;
  }

  /** Where the printed text ends in the token of its last item, it does so with
      exactly the quoted item. */
  lemma LastQuoted(a: string, p: Piece, b: string)
    requires WfPiece(p) && !p.Blank? && a + Text(p) == b + Quote(Item(p))
    requires b != "" ==> b[|b| - 1] == ' '
    ensures a == b
  {
    var v := Item(p);
    TextEnds(p);
    if p.Braced? && v != "" && !Spaced(v) {
      BracedNotBare(a, b, v);
    } else if p.Brackets? && Spaced(v) {
      var q := "{" + v + "}";
      assert q[|q| - 1] == '}';
      EndsDiffer(a, v, b, q);
    } else {
      assert Text(p) == Quote(v) by {
        assert "{" + "" + "}" == "{}";
      }
      CutEnd(a, b, Text(p));
    }
  }

  /** A first item that is printed and read back can be cancelled; */
  lemma CancelFirst(x: string, rest: seq<string>, items: seq<string>)
    requires Parse(Print([x] + rest)) == Some([x] + items)
    ensures if rest == [] then items == [] else Parse(Print(rest)) == Some(items)
  {
    hide Parse, Print, Printable;
    ReadHead(x, rest, [x] + items);
    PrintableHead(x, rest);
    ConsIff(x, if rest == [] then Some([]) else Parse(Print(rest)), items);
  }

  /** and so can a last one. */
  lemma CancelLast(x: string, rest: seq<string>, items: seq<string>)
    requires Parse(Print(rest + [x])) == Some(items + [x])
    ensures if rest == [] then items == [] else Parse(Print(rest)) == Some(items)
  {
    hide Parse, Print, WfPiece, Text, Quote;
    var b := if rest == [] then "" else Print(rest) + " ";
    var s := Print(rest + [x]);
    PrintLast(rest, x);
    assert s == b + Quote(x);
    QuoteEnds(x);
    assert s[|s| - 1] == Quote(x)[|Quote(x)| - 1];
    var a, p := LastToken(s, items + [x]);
    LastQuoted(a, p, b);
    assert (items + [x])[..|items|] == items;
    if rest == [] {
      ParseEmpty();
    } else {
      TrailingBlank(Print(rest), items);
    }
  }

  lemma PrintLast(rest: seq<string>, x: string)
    ensures Print(rest + [x]) == (if rest == [] then "" else Print(rest) + " ") + Quote(x)
  {
    if rest == [] {
      assert [] + [x] == [x];
    } else {
      PrintSnoc(rest, x);
    }
  }

  lemma QuoteEnds(x: string)
    ensures Quote(x) != "" && !Space(Quote(x)[0]) && !Space(Quote(x)[|Quote(x)| - 1])
  {
  }

  function Without<T>(s: seq<T>, i: nat): seq<T>
    requires i < |s|
  {
    s[..i] + s[i + 1..]
  }

  lemma WithoutParts<T>(s: seq<T>, i: nat)
    requires i < |s|
    ensures i + 1 < |s| ==>
      Without(s, i) == Without(s[..|s| - 1], i) + [s[|s| - 1]] && s == s[..|s| - 1] + [s[|s| - 1]]
    ensures i > 0 ==> Without(s, i) == [s[0]] + Without(s[1..], i - 1) && s == [s[0]] + s[1..]
  {
    if i + 1 < |s| {
      var init, last := s[..|s| - 1], s[|s| - 1];
      assert init[..i] == s[..i] && s[i + 1..] == init[i + 1..] + [last];
      assert s[..i] + (init[i + 1..] + [last]) == s[..i] + init[i + 1..] + [last];
    }
    if i > 0 {
      assert s[..i] == [s[0]] + s[1..][..i - 1] && s[1..][i..] == s[i + 1..];
    }
  }

  /** No printed list is read with one item missing, */
  lemma {:induction false} NothingLost(items: seq<string>, i: nat)
    requires i < |items|
    ensures Parse(Print(items)) != Some(Without(items, i))
    decreases |items|
  {
    hide Parse, Print, Without;
    WithoutParts(items, i);
    if Parse(Print(items)) == Some(Without(items, i)) {
      if i + 1 < |items| {
        var init := items[..|items| - 1];
        CancelLast(items[|items| - 1], init, Without(init, i));
        NothingLost(init, i);
      } else if i > 0 {
        CancelFirst(items[0], items[1..], Without(items[1..], i - 1));
        NothingLost(items[1..], i - 1);
      } else {
        OneItemRead(items[0]);
        assert items == [items[0]];
        WithoutOnly(items);
      }
    }
  }

  lemma WithoutOnly(items: seq<string>)
    requires |items| == 1
    ensures Without(items, 0) == []
  {
  }

  lemma OneItemRead(x: string)
    ensures Parse(Print([x])) != Some([])
  {
    hide Token;
    QuoteEnds(x);
    assert Print([x]) == Quote(x);
  }

  /** and none with one item more. */
  lemma {:induction false} NothingGained(items: seq<string>, i: nat)
    requires i < |items| && |items| >= 2
    ensures Parse(Print(Without(items, i))) != Some(items)
    decreases |items|
  {
    hide Parse, Print;
    WithoutParts(items, i);
    if Parse(Print(Without(items, i))) == Some(items) {
      if i + 1 < |items| {
        var init := items[..|items| - 1];
        CancelLast(items[|items| - 1], Without(init, i), init);
        assert |init| >= 2;
        NothingGained(init, i);
      } else {
        var tail := items[1..];
        CancelFirst(items[0], Without(tail, i - 1), tail);
        assert |tail| >= 2;
        NothingGained(tail, i - 1);
      }
    }
  }

  /** Two different lists, one with one item more, print differently. */
  lemma {:induction false} PrintShorter(items: seq<string>, i: nat)
    requires i < |items| && |items| >= 2
    ensures |Print(Without(items, i))| < |Print(items)|
    decreases |items|
  {
    hide Print, Without, Quote;
    WithoutParts(items, i);
    var x, tail := items[0], items[1..];
    assert items == [x] + tail;
    PrintHead(x, tail);
    if i == 0 {
      QuoteEnds(x);
      WithoutFirst(items);
    } else {
      PrintHead(x, Without(tail, i - 1));
      if |tail| >= 2 {
        PrintShorter(tail, i - 1);
        WithoutLength(tail, i - 1);
      } else {
        WithoutOnly(tail);
      }
    }
  }

  lemma WithoutFirst<T>(items: seq<T>)
    requires items != []
    ensures Without(items, 0) == items[1..]
  {
  }

  lemma WithoutLength<T>(items: seq<T>, i: nat)
    requires i < |items|
    ensures |Without(items, i)| == |items| - 1
    ensures forall j :: 0 <= j < |items| - 1 ==> Without(items, i)[j] == items[if j < i then j else j + 1]
  {
  }

  /** The empty list prints as a pair of braces, which is one empty item. */
  lemma EmptyListFails()
    ensures Print([]) == "{}" && Parse("{}") == Some([""])
  {
    QuoteToken("", "");
    assert Quote("") + "" == "{}";
    var none: seq<string> := [];
    assert [""] + none == [""];
  }

  /** A brace-wrapped item without white space loses a level of braces. */
  lemma WrappedItemFails()
    ensures Parse("{{a}}") == Some(["{a}"]) && Print(["{a}"]) == "{a}" && Parse("{a}") == Some(["a"])
  {
    OneBraced("a", "{a}");
    OneBraced("{a}", "{{a}}");
    assert !Spaced("{a}");
  }

  lemma OneBraced(x: string, s: string)
    requires s == "{" + x + "}" && x in {"a", "{a}"}
    ensures Parse(s) == Some([x])
  {
    assert Balanced(x) by {
      assert "{a}"[1..] == "a}" && "a}"[1..] == "}" && "}"[1..] == "" && "a"[1..] == "";
    }
    hide Balanced, Parse;
    assert s == s + "";
    ParsePiece(Braced(x), "");
    ParseEmpty();
    assert [x] + [] == [x];
  }

  // -------------------------------------------------------------- nested lists

  datatype Tree = Leaf(text: string) | Node(kids: seq<Tree>)

  /** The text of a list whose items are lists in turn. */
  function TreeText(t: Tree): string {
    match t
    case Leaf(x) => x
    case Node(kids) => Print(KidTexts(kids))
  }

  function KidTexts(kids: seq<Tree>): seq<string> {
    if kids == [] then [] else [TreeText(kids[0])] + KidTexts(kids[1..])
  }

  /** Reading s as t: a list is scanned, and its items are read in turn. */
  ghost predicate Reads(s: string, t: Tree)
    decreases t
  {
    match t
    case Leaf(x) => s == x
    case Node(kids) => Parse(s).Some? && ReadsAll(Parse(s).value, kids)
  }

  ghost predicate ReadsAll(ss: seq<string>, kids: seq<Tree>)
    decreases kids
  {
    if kids == [] then ss == []
    else ss != [] && Reads(ss[0], kids[0]) && ReadsAll(ss[1..], kids[1..])
  }

  /** No list is empty, and the text of every item of a list is printable. */
  ghost predicate Readable(t: Tree)
    decreases t
  {
    t.Node? ==> t.kids != [] && ReadableAll(t.kids)
  }

  ghost predicate ReadableAll(kids: seq<Tree>)
    decreases kids
  {
    kids == [] || (Printable(TreeText(kids[0])) && Readable(kids[0]) && ReadableAll(kids[1..]))
  }

  /** A sufficient condition on the leaves: they are printable and balanced, and
      lists hold two items or more. */
  ghost predicate Nestable(t: Tree)
    decreases t
  {
    match t
    case Leaf(x) => Printable(x) && Balanced(x)
    case Node(kids) => |kids| >= 2 && NestableAll(kids)
  }

  ghost predicate NestableAll(kids: seq<Tree>)
    decreases kids
  {
    kids == [] || (Nestable(kids[0]) && NestableAll(kids[1..]))
  }

  lemma {:induction false} BalancedConcat(a: string, b: string, d: nat, e: nat)
    requires BalancedFrom(a, d) && BalancedFrom(b, e)
    ensures BalancedFrom(a + b, d + e)
  {
    if a == "" {
      assert a + b == b;
    } else {
      assert (a + b)[1..] == a[1..] + b;
      BalancedConcat(a[1..], b, if a[0] == '{' then d + 1 else if a[0] == '}' then d - 1 else d, e);
    }
  }

  lemma {:induction false} QuoteBalanced(x: string)
    requires Balanced(x)
    ensures Balanced(Quote(x))
  {
    var s := "{" + x + "}";
    assert s[1..] == x + "}";
    assert "}"[1..] == "";
    BalancedConcat(x, "}", 0, 1);
    if x == "" {
      assert s == "{}";
    }
  }

  /** The text of a list of balanced items is balanced. */
  lemma {:induction false} PrintBalanced(items: seq<string>)
    requires forall i :: 0 <= i < |items| ==> Balanced(items[i])
    ensures Balanced(Print(items))
  {
    if items == [] {
      QuoteBalanced("");
    } else {
      QuoteBalanced(items[0]);
      if |items| > 1 {
        PrintBalanced(items[1..]);
        assert " "[1..] == "";
        BalancedConcat(Quote(items[0]), " ", 0, 0);
        BalancedConcat(Quote(items[0]) + " ", Print(items[1..]), 0, 0);
      }
    }
  }

  /** A list of two or more prints with white space between its items. */
  lemma PrintSpaced(items: seq<string>)
    requires |items| >= 2
    ensures Spaced(Print(items)) && Print(items) != ""
  {
    assert Space(Print(items)[|Quote(items[0])|]);
  }

  lemma {:induction false} TextsAll(kids: seq<Tree>)
    requires NestableAll(kids)
    ensures |KidTexts(kids)| == |kids|
    ensures forall i :: 0 <= i < |kids| ==> Printable(KidTexts(kids)[i]) && Balanced(KidTexts(kids)[i])
    decreases kids
  {
    if kids != [] {
      TreePrintable(kids[0]);
      TextsAll(kids[1..]);
    }
  }

  lemma {:induction false} TreePrintable(t: Tree)
    requires Nestable(t)
    ensures Printable(TreeText(t)) && Balanced(TreeText(t))
    decreases t
  {
    if t.Node? {
      TextsAll(t.kids);
      PrintBalanced(KidTexts(t.kids));
      PrintSpaced(KidTexts(t.kids));
    }
  }

  lemma {:induction false} KidsPrintable(kids: seq<Tree>)
    requires ReadableAll(kids)
    ensures |KidTexts(kids)| == |kids| && AllPrintable(KidTexts(kids))
    decreases kids
  {
    hide Printable;
    if kids != [] {
      KidsPrintable(kids[1..]);
      AllPrintableHead(TreeText(kids[0]), KidTexts(kids[1..]));
    }
  }

  /** Printing a nested list and scanning it level by level gives it back,
      whenever no list in it is empty and every item's text is printable. */
  lemma {:induction false} NestedRoundTrip(t: Tree)
    requires Readable(t)
    ensures Reads(TreeText(t), t)
    decreases t
  {
    hide Printable, AllPrintable, Parse, Print;
    if t.Node? {
      KidsPrintable(t.kids);
      RoundTripIff(KidTexts(t.kids));
      NestedAll(t.kids);
    }
  }

  lemma {:induction false} NestedAll(kids: seq<Tree>)
    requires ReadableAll(kids)
    ensures ReadsAll(KidTexts(kids), kids)
    decreases kids
  {
    hide Printable, Parse, Print;
    if kids != [] {
      NestedRoundTrip(kids[0]);
      NestedAll(kids[1..]);
      assert KidTexts(kids)[1..] == KidTexts(kids[1..]);
    }
  }

  /** Balanced printable leaves in lists of two or more are enough. */
  lemma {:induction false} NestableReads(t: Tree)
    requires Nestable(t)
    ensures Readable(t) && Reads(TreeText(t), t)
    decreases t
  {
    NestableReadable(t);
    NestedRoundTrip(t);
  }

  lemma {:induction false} NestableReadable(t: Tree)
    requires Nestable(t)
    ensures Readable(t)
    decreases t
  {
    if t.Node? {
      NestableAllReadable(t.kids);
    }
  }

  lemma {:induction false} NestableAllReadable(kids: seq<Tree>)
    requires NestableAll(kids)
    ensures ReadableAll(kids)
    decreases kids
  {
    hide Printable;
    if kids != [] {
      TreePrintable(kids[0]);
      NestableReadable(kids[0]);
      NestableAllReadable(kids[1..]);
    }
  }

  // -------------------------------------------------------------------- the code

  /** size_t is 64 bits wide; counters of this type wrap around. */
  const SIZE := 0x1_0000_0000_0000_0000

  function Inc(x: nat): nat {
    if x == SIZE - 1 then 0 else x + 1
  }

  function Dec(x: nat): nat {
    if x == 0 then SIZE - 1 else x - 1
  }

  /** The size_t value of a count that may have gone below zero. */
  function Wrapped(b: int): int {
    if b < 0 then b + SIZE else b
  }

  /** Appends the rest of a parse to the items found so far. */
  function Prepend(items: seq<string>, r: Option<seq<string>>): Option<seq<string>> {
    if r.Some? then Some(items + r.value) else None
  }

  function Shift(k: nat, n: Option<nat>): Option<nat> {
    if n.Some? then Some(k + n.value) else None
  }

  /** Scans from j, just past an open brace, for the one that closes it. */
  method ScanBrace(s: string, from: nat) returns (end: Option<nat>)
    requires 1 <= from <= |s| < SIZE
    ensures end == Shift(from, BraceLen(s[from..], 1))
  {
    var nbrac, j := 1, from;
    while j < |s|
      invariant from <= j <= |s| && 1 <= nbrac <= 1 + j - from
      invariant Shift(from, BraceLen(s[from..], 1)) == Shift(j, BraceLen(s[j..], nbrac))
    {
      assert s[j..][1..] == s[j + 1..];
      match s[j] {
        case '{' => nbrac := Inc(nbrac);
        case '}' =>
          nbrac := Dec(nbrac);
          if nbrac == 0 {
            return Some(j);
          }
        case _ =>
      }
      j := j + 1;
    }
    return None;
  }

  /** One character of the bracket scan, with counts that run freely. */
  lemma BrackStep(s: string, from: nat, j: nat, k: int, b: int)
    requires from <= j < |s|
    requires Shift(from, BrackLen(s[from..], 1, 0)) == Shift(j, BrackLen(s[j..], k, b))
    ensures if s[j] == ']' && k == 1 && b == 0 then Shift(from, BrackLen(s[from..], 1, 0)) == Some(j + 1)
            else Shift(from, BrackLen(s[from..], 1, 0)) ==
                 Shift(j + 1, BrackLen(s[j + 1..],
                                       if s[j] == '[' then k + 1 else if s[j] == ']' then k - 1 else k,
                                       if s[j] == '{' then b + 1 else if s[j] == '}' then b - 1 else b))
  {
    assert s[j..][1..] == s[j + 1..];
  }

  /** Scans from j, just past an open bracket, for the first bracket at which
      both counters are zero.  Either may wrap around; neither comes back. */
  method ScanBracket(s: string, from: nat) returns (end: Option<nat>)
    requires 1 <= from <= |s| < SIZE
    ensures end == Shift(from, BrackLen(s[from..], 1, 0))
  {
    var nbrak, nbrac, j := 1, 0, from;
    ghost var k, b := 1, 0;
    while j < |s|
      invariant from <= j <= |s|
      invariant from - j <= b <= j - from && from - j + 1 <= k <= j - from + 1
      invariant nbrak == Wrapped(k) && nbrac == Wrapped(b)
      invariant Shift(from, BrackLen(s[from..], 1, 0)) == Shift(j, BrackLen(s[j..], k, b))
    {
      BrackStep(s, from, j, k, b);
      hide BrackLen, Shift;
      match s[j] {
        case '{' => nbrac := Inc(nbrac); b := b + 1;
        case '}' => nbrac := Dec(nbrac); b := b - 1;
        case '[' => nbrak := Inc(nbrak); k := k + 1;
        case ']' =>
          nbrak := Dec(nbrak);
          k := k - 1;
          if nbrak == 0 && nbrac == 0 {
            return Some(j + 1);
          }
        case _ =>
      }
      j := j + 1;
    }
    return None;
  }

  method ScanBare(s: string, from: nat) returns (end: nat)
    requires from <= |s|
    ensures end == from + BareLen(s[from..])
  {
    end := from;
    while end != |s| && !Space(s[end])
      invariant from <= end <= |s|
      invariant from + BareLen(s[from..]) == end + BareLen(s[end..])
    {
      assert s[end..][1..] == s[end + 1..];
      end := end + 1;
    }
  }

  /** What is left to scan at i, which may lie one past the end. */
  function Rest(s: string, i: nat): string {
    if i < |s| then s[i..] else ""
  }

  /** The list scanner: None when a brace or bracket is never closed. */
  method DoAsList(s: string) returns (r: Option<seq<string>>)
    requires |s| < SIZE
    ensures r == Parse(s)
  {
    hide Parse, Token, Prepend, BraceLen, BrackLen, BareLen, Rest;
    var items, i := [], 0;
    ScanStart(s);
    while i < |s|
      invariant 0 <= i <= |s| + 1
      invariant Parse(s) == Prepend(items, Parse(Rest(s, i)))
      decreases |s| + 1 - i
    {
      var start, end, skip := i, i, 0;
      if Space(s[i]) {
        ScanBlank(s, i);
        i := i + 1;
        continue;
      } else if s[i] == '{' {
        start := i + 1;
        var close := ScanBrace(s, i + 1);
        if close.None? {
          ScanFails(s, items, i);
          return None;
        }
        end, skip := close.value, 2;
        BraceAt(s, i, end);
      } else if s[i] == '[' {
        var close := ScanBracket(s, i + 1);
        if close.None? {
          ScanFails(s, items, i);
          return None;
        }
        end := close.value;
        BrackAt(s, i, end);
      } else {
        end := ScanBare(s, i + 1);
        skip := 1;
        BareAt(s, i, end);
      }
      AppendItem(items, s[start..end], Parse(Rest(s, i + (end - start) + skip)));
      items := items + [s[start..end]];
      i := i + (end - start) + skip;
    }
    ScanEnds(s, items, i);
    return Some(items);
  }

  lemma ScanStart(s: string)
    ensures Parse(s) == Prepend([], Parse(Rest(s, 0)))
  {
    assert s[0..] == s;
    assert Parse(s).Some? ==> [] + Parse(s).value == Parse(s).value;
  }

  lemma ScanBlank(s: string, i: nat)
    requires i < |s| && Space(s[i])
    ensures Parse(Rest(s, i)) == Parse(Rest(s, i + 1))
  {
    assert s[i..][1..] == s[i + 1..];
  }

  lemma ScanFails(s: string, items: seq<string>, i: nat)
    requires i < |s| && !Space(s[i])
    requires (s[i] == '{' && Shift(i + 1, BraceLen(s[i + 1..], 1)).None?) ||
             (s[i] == '[' && Shift(i + 1, BrackLen(s[i + 1..], 1, 0)).None?)
    ensures Prepend(items, Parse(Rest(s, i))) == None
  {
    assert s[i..][1..] == s[i + 1..];
  }

  lemma ScanEnds(s: string, items: seq<string>, i: nat)
    requires i >= |s|
    ensures Prepend(items, Parse(Rest(s, i))) == Some(items)
  {
    assert items + Parse("").value == items;
  }

  lemma AppendItem(items: seq<string>, x: string, r: Option<seq<string>>)
    ensures Prepend(items, Cons(x, r)) == Prepend(items + [x], r)
  {
    if r.Some? {
      assert items + ([x] + r.value) == (items + [x]) + r.value;
    }
  }

  // The scanner's cut of a token, and where it goes on.

  lemma ParseBrace(t: string, n: nat)
    requires t != "" && t[0] == '{' && BraceLen(t[1..], 1) == Some(n)
    ensures n + 2 <= |t| && Parse(t) == Cons(t[1..n + 1], Parse(t[n + 2..]))
  {
    hide BraceLen, Cons;
  }

  lemma ParseBrack(t: string, n: nat)
    requires t != "" && t[0] == '[' && BrackLen(t[1..], 1, 0) == Some(n)
    ensures n + 1 <= |t| && Parse(t) == Cons(t[..n + 1], Parse(t[n + 1..]))
  {
    hide BrackLen, Cons;
  }

  lemma RestHead(s: string, i: nat)
    requires i < |s|
    ensures Rest(s, i) != "" && Rest(s, i)[0] == s[i] && Rest(s, i)[1..] == s[i + 1..]
    ensures |Rest(s, i)| == |s| - i
  {
  }

  lemma RestCut(s: string, i: nat, k: nat)
    requires i < |s| && i + k <= |s|
    ensures |Rest(s, i)| >= k && Rest(s, i)[k..] == Rest(s, i + k)
    ensures Rest(s, i)[..k] == s[i..i + k]
    ensures k > 0 ==> Rest(s, i)[1..k] == s[i + 1..i + k]
  {
  }

  lemma BraceAt(s: string, i: nat, end: nat)
    requires i < |s| && s[i] == '{' && Some(end) == Shift(i + 1, BraceLen(s[i + 1..], 1))
    ensures i < end < |s| && Parse(Rest(s, i)) == Cons(s[i + 1..end], Parse(Rest(s, end + 1)))
  {
    hide Parse, Cons, BraceLen, Rest;
    RestHead(s, i);
    ParseBrace(Rest(s, i), end - i - 1);
    RestCut(s, i, end - i);
    RestCut(s, i, end - i + 1);
  }

  lemma BrackAt(s: string, i: nat, end: nat)
    requires i < |s| && s[i] == '[' && Some(end) == Shift(i + 1, BrackLen(s[i + 1..], 1, 0))
    ensures i < end <= |s| && Parse(Rest(s, i)) == Cons(s[i..end], Parse(Rest(s, end)))
  {
    hide Parse, Cons, BrackLen, Rest;
    RestHead(s, i);
    ParseBrack(Rest(s, i), end - i - 1);
    RestCut(s, i, end - i);
  }

  /** The blank that ends a bare token is skipped with it. */
  lemma BareAt(s: string, i: nat, end: nat)
    requires i < |s| && !Space(s[i]) && s[i] != '{' && s[i] != '[' && end == i + 1 + BareLen(s[i + 1..])
    ensures end <= |s| && Parse(Rest(s, i)) == Cons(s[i..end], Parse(Rest(s, end + 1)))
  {
    var t := s[i..];
    assert t[1..] == s[i + 1..];
    assert s[i..end] == t[..end - i];
    assert t[end - i..] == s[end..];
    BareLenIff(t[1..], end - i - 1);
    if end < |s| {
      assert Space(s[end]);
      assert s[end..] == [s[end]] + Rest(s, end + 1);
      ParseBlank(s[end], Rest(s, end + 1));
    }
  }

  /** b6b_spaced */
  method IsSpaced(s: string) returns (r: bool)
    ensures r == Spaced(s)
    ensures r <==> exists i :: 0 <= i < |s| && s[i] in " \t\n\r"
  {
    SpacedIs(s);
    for i := 0 to |s|
      invariant forall k :: 0 <= k < i ==> !Space(s[k])
    {
      if Space(s[i]) {
        return true;
      }
    }
    return false;
  }

  lemma {:induction false} PrintSnoc(items: seq<string>, x: string)
    requires items != []
    ensures Print(items + [x]) == Print(items) + " " + Quote(x)
  {
    var all := items + [x];
    if |items| == 1 {
      assert all[1..] == [x];
    } else {
      assert all[1..] == items[1..] + [x];
      PrintSnoc(items[1..], x);
    }
  }

  lemma PrintStart(items: seq<string>)
    ensures Print([]) == "{}"
    ensures items != [] ==> Print(items[..1]) == Quote(items[0])
    ensures items[..|items|] == items
  {
  }

  /** The list printer: s is None, as the null pointer, until the first item. */
  method AsStr(items: seq<string>) returns (text: string)
    ensures text == Print(items)
  {
    PrintStart(items);
    hide Print;
    var s: Option<string> := None;
    for i := 0 to |items|
      invariant s.None? <==> i == 0
      invariant s.Some? ==> s.value == Print(items[..i])
    {
      var x := items[i];
      if i > 0 {
        assert items[..i + 1] == items[..i] + [x];
        PrintSnoc(items[..i], x);
      }
      if |x| > 0 {
        var spaced := IsSpaced(x);
        if spaced {
          if s.Some? {
            assert s.value + " {" + x + "}" == s.value + " " + ("{" + x + "}");
            s := Some(s.value + " {" + x + "}");
          } else {
            s := Some("{" + x + "}");
          }
        } else {
          s := Some(if s.Some? then s.value + " " + x else x);
        }
      } else {
        if s.Some? {
          assert s.value + " {}" == s.value + " " + "{}";
        }
        s := Some(if s.Some? then s.value + " {}" else "{}");
      }
    }
    text := if s.None? then "{}" else s.value;
  }
}
