/** Objects and their lazily filled views: a list of items, the text, and the
    hash of the text.  Lists double as dictionaries; a chain of dictionaries is
    the name environment. */
module Objects {
  import opened Basics
  import opened ListText
  import Hash

  function Bytes(s: string): seq<Byte> {
    seq(|s|, i requires 0 <= i < |s| => s[i] as int % 256)
  }

  function TextHash(s: string): Hash.Word {
    Hash.HashOf(Bytes(s))
  }

  /** The text of an object is octets, each a character below 256. */
  predicate Octets(s: string) {
    forall i :: 0 <= i < |s| ==> s[i] as int < 256
  }

  /** Texts that differ in one octet have different hashes. */
  lemma TextHashApart(a: string, x: char, y: char, b: string)
    requires Octets(a + [x] + b) && Octets(a + [y] + b) && x != y
    ensures TextHash(a + [x] + b) != TextHash(a + [y] + b)
  {
    BytesOne(a, x, b);
    BytesOne(a, y, b);
    assert (a + [x] + b)[|a|] == x && (a + [y] + b)[|a|] == y;
    hide Hash.HashOf;
    Hash.OneByteApart(Bytes(a), x as int % 256, y as int % 256, Bytes(b));
  }

  lemma BytesOne(a: string, x: char, b: string)
    ensures Bytes(a + [x] + b) == Bytes(a) + [x as int % 256] + Bytes(b)
  {
    var s := a + [x] + b;
    forall i | 0 <= i < |s|
      ensures Bytes(s)[i] == (Bytes(a) + [x as int % 256] + Bytes(b))[i]
    {
      assert s[i] == if i < |a| then a[i] else if i == |a| then x else b[i - |a| - 1];
    }
  }

  /** A list item: an object whose text is fixed.  Only its hash is cached. */
  class Item {
    const s: string
    var hashed: bool
    var hash: Hash.Word

    predicate Ok()
      reads this
    {
      hashed ==> hash == TextHash(s)
    }

    constructor (s: string)
      ensures this.s == s && !hashed && Ok()
    {
      this.s := s;
      hashed := false;
    }

    method ObjHash()
      requires Ok()
      modifies this
      ensures Ok() && hashed
    {
      if !hashed {
        hash := Hash.ComputeHash(Bytes(s));
        hashed := true;
      }
    }
  }

  /** b6b_obj_eq: hashes first, then lengths and bytes. */
  predicate ObjEq(a: Item, b: Item)
    reads a, b
  {
    a.hash == b.hash && |a.s| == |b.s| && a.s == b.s
  }

  /** With both hashes cached, the hash check never changes the answer. */
  lemma ObjEqIsTextEq(a: Item, b: Item)
    requires a.Ok() && b.Ok()
    ensures a.hashed && b.hashed ==> (ObjEq(a, b) <==> a.s == b.s)
  {
  }

  function Texts(items: seq<Item>): seq<string> {
    seq(|items|, i requires 0 <= i < |items| => items[i].s)
  }

  predicate ItemsOk(items: seq<Item>)
    reads items
  {
    forall i :: 0 <= i < |items| ==> items[i].Ok()
  }

  lemma WithoutOk(items: seq<Item>, i: nat)
    requires i < |items| && ItemsOk(items)
    ensures ItemsOk(Without(items, i))
    ensures forall x :: x in Without(items, i) ==> x in items
  {
  }

  lemma WithoutTwice<T>(s: seq<T>, i: nat)
    requires i + 1 < |s|
    ensures Without(Without(s, i), i) == s[..i] + s[i + 2..]
  {
  }

  // --------------------------------------------------------- dictionaries as lists

  datatype Found = At(i: nat) | Missing | Malformed

  function Later(f: Found, k: nat): Found {
    if f.At? then At(f.i + k) else f
  }

  /** The first key of the flat list k0 v0 k1 v1 ... that equals k. */
  function Find(items: seq<Item>, k: string): (f: Found)
    ensures f.At? ==> f.i + 1 < |items|
    decreases |items|
  {
    if items == [] then Missing
    else if |items| == 1 then Malformed
    else if items[0].s == k then At(0)
    else Later(Find(items[2..], k), 2)
  }

  function SetItems(items: seq<Item>, k: Item, v: Item): seq<Item> {
    match Find(items, k.s)
    case At(i) => items[i + 1 := v]
    case Missing => items + [k, v]
    case Malformed => items
  }

  function UnsetItems(items: seq<Item>, k: string): seq<Item> {
    match Find(items, k)
    case At(i) => items[..i] + items[i + 2..]
    case _ => items
  }

  /** The map a flat list stands for; the first of two equal keys wins. */
  function DictOf(items: seq<Item>): map<string, Item>
    decreases |items|
  {
    if |items| < 2 then map[] else DictOf(items[2..])[items[0].s := items[1]]
  }

  /** Even length and distinct keys. */
  predicate WellKeyed(items: seq<Item>)
    decreases |items|
  {
    items == [] || (|items| >= 2 && items[0].s !in DictOf(items[2..]) && WellKeyed(items[2..]))
  }

  /** Finding a key is looking it up in the map. */
  lemma {:induction false} FindIsLookup(items: seq<Item>, k: string)
    requires WellKeyed(items)
    ensures Find(items, k) != Malformed
    ensures Find(items, k).At? <==> k in DictOf(items)
    ensures Find(items, k).At? ==> DictOf(items)[k] == items[Find(items, k).i + 1] && items[Find(items, k).i].s == k
    decreases |items|
  {
    if items != [] {
      FindIsLookup(items[2..], k);
    }
  }

  lemma {:induction false} SetIsUpdate(items: seq<Item>, k: Item, v: Item)
    requires WellKeyed(items)
    ensures WellKeyed(SetItems(items, k, v))
    ensures DictOf(SetItems(items, k, v)) == DictOf(items)[k.s := v]
    decreases |items|
  {
    var r := SetItems(items, k, v);
    if items == [] {
      assert r == [k, v];
      assert r[2..] == [];
    } else if items[0].s == k.s {
      assert r[2..] == items[2..];
    } else {
      SetIsUpdate(items[2..], k, v);
      FindIsLookup(items[2..], k.s);
      assert r[2..] == SetItems(items[2..], k, v);
      assert r[0] == items[0] && r[1] == items[1];
    }
  }

  lemma UnsetCons(items: seq<Item>, k: string)
    requires |items| >= 2 && items[0].s != k
    ensures var r := UnsetItems(items, k);
      |r| >= 2 && r[0] == items[0] && r[1] == items[1] && r[2..] == UnsetItems(items[2..], k)
  {
    var f := Find(items[2..], k);
    if f.At? {
      assert items[2..][..f.i] == items[..f.i + 2][2..];
      assert items[2..][f.i + 2..] == items[f.i + 4..];
    }
  }

  lemma {:induction false} UnsetIsRemoval(items: seq<Item>, k: string)
    requires WellKeyed(items)
    ensures WellKeyed(UnsetItems(items, k))
    ensures DictOf(UnsetItems(items, k)) == DictOf(items) - {k}
    decreases |items|
  {
    var r := UnsetItems(items, k);
    if items == [] {
    } else if items[0].s == k {
      assert r == items[2..];
    } else {
      UnsetIsRemoval(items[2..], k);
      UnsetCons(items, k);
    }
  }

  /** Key j of the flat list equals k, and no key before it does. */
  predicate FirstKey(items: seq<Item>, k: string, j: nat) {
    2 * j + 1 < |items| && items[2 * j].s == k && forall i :: 0 <= i < j ==> items[2 * i].s != k
  }

  lemma KeyShift(items: seq<Item>, k: string, j: nat)
    requires |items| >= 2 && items[0].s != k
    ensures FirstKey(items, k, j + 1) <==> FirstKey(items[2..], k, j)
    ensures !FirstKey(items, k, 0)
  {
    var t := items[2..];
    assert forall i :: 0 <= i && 2 * i < |t| ==> t[2 * i] == items[2 * (i + 1)];
    if FirstKey(items, k, j + 1) {
      forall i | 0 <= i < j
        ensures t[2 * i].s != k
      {
        assert items[2 * (i + 1)].s != k;
      }
    }
    if FirstKey(t, k, j) {
      forall i | 0 <= i < j + 1
        ensures items[2 * i].s != k
      {
        if i > 0 {
          assert t[2 * (i - 1)].s != k;
        }
      }
    }
  }

  lemma KeyHere(items: seq<Item>, k: string, j: nat)
    requires |items| >= 2 && items[0].s == k
    ensures FirstKey(items, k, j) ==> j == 0
  {
    assert items[2 * 0].s == k;
  }

  /** What a search answers, on any flat list: the place of the first equal key;
      without one, whether the last key has a value. */
  lemma {:induction false} FindIs(items: seq<Item>, k: string, j: nat)
    ensures Find(items, k) == At(2 * j) <==> FirstKey(items, k, j)
    ensures Find(items, k).At? ==> exists i: nat :: Find(items, k) == At(2 * i)
    ensures !Find(items, k).At? ==> Find(items, k) == if |items| % 2 == 0 then Missing else Malformed
    decreases |items|
  {
    if |items| >= 2 && items[0].s != k {
      KeyShift(items, k, if j > 0 then j - 1 else 0);
      FindIs(items[2..], k, if j > 0 then j - 1 else 0);
      if Find(items, k).At? {
        var i: nat :| Find(items[2..], k) == At(2 * i);
        assert Find(items, k) == At(2 * (i + 1));
      }
      hide FirstKey;
    } else if |items| >= 2 {
      assert Find(items, k) == At(2 * 0);
    }
  }

  /** The map of a flat list, key by key. */
  lemma {:induction false} DictIs(items: seq<Item>, k: string, j: nat)
    ensures FirstKey(items, k, j) ==> k in DictOf(items) && DictOf(items)[k] == items[2 * j + 1]
    ensures k in DictOf(items) ==> exists i: nat :: FirstKey(items, k, i)
    decreases |items|
  {
    if |items| >= 2 && items[0].s != k {
      KeyShift(items, k, if j > 0 then j - 1 else 0);
      DictIs(items[2..], k, if j > 0 then j - 1 else 0);
      if k in DictOf(items) {
        var i: nat :| FirstKey(items[2..], k, i);
        KeyShift(items, k, i);
        assert FirstKey(items, k, i + 1);
      }
    } else if |items| >= 2 {
      assert FirstKey(items, k, 0);
      KeyHere(items, k, j);
    }
  }

  /** Well keyed: every key has a value, and no key occurs twice. */
  lemma {:induction false} WellKeyedIs(items: seq<Item>)
    ensures WellKeyed(items) <==>
              |items| % 2 == 0 && forall i, j :: 0 <= i < j && 2 * j < |items| ==> items[2 * i].s != items[2 * j].s
    decreases |items|
  {
    if |items| >= 2 {
      var t, k := items[2..], items[0].s;
      WellKeyedIs(t);
      DictIs(t, k, 0);
      assert forall i :: 0 <= i && 2 * i < |t| ==> t[2 * i] == items[2 * (i + 1)];
      if WellKeyed(items) {
        forall i, j | 0 <= i < j && 2 * j < |items|
          ensures items[2 * i].s != items[2 * j].s
        {
          assert t[2 * (j - 1)] == items[2 * j];
          if i > 0 {
            assert t[2 * (i - 1)] == items[2 * i];
          } else {
            NoSuchKey(t, k, j - 1);
          }
        }
      } else if |items| % 2 == 0 {
        if k in DictOf(t) {
          var i: nat :| FirstKey(t, k, i);
          assert items[2 * 0].s == items[2 * (i + 1)].s;
        } else {
          var i, j :| 0 <= i < j && 2 * j < |t| && t[2 * i].s == t[2 * j].s;
          assert items[2 * (i + 1)].s == items[2 * (j + 1)].s;
        }
      }
    }
  }

  lemma {:induction false} NoSuchKey(items: seq<Item>, k: string, j: nat)
    requires k !in DictOf(items) && 2 * j + 1 < |items|
    ensures items[2 * j].s != k
    decreases |items|
  {
    if j > 0 {
      NoSuchKey(items[2..], k, j - 1);
    }
  }

  /** Setting and unsetting in full: an equal key keeps its place and gets the
      value, a new one goes to the end, and a removed one leaves the others in
      order. */
  lemma SetAndUnset(items: seq<Item>, k: Item, v: Item, j: nat)
    ensures FirstKey(items, k.s, j) ==> SetItems(items, k, v) == items[2 * j + 1 := v]
    ensures FirstKey(items, k.s, j) ==> UnsetItems(items, k.s) == items[..2 * j] + items[2 * j + 2..]
    ensures (forall i: nat :: !FirstKey(items, k.s, i)) ==> UnsetItems(items, k.s) == items
    ensures (forall i: nat :: !FirstKey(items, k.s, i)) ==>
              SetItems(items, k, v) == if |items| % 2 == 0 then items + [k, v] else items
  {
    FindIs(items, k.s, j);
    if Find(items, k.s).At? {
      var i: nat :| Find(items, k.s) == At(2 * i);
      FindIs(items, k.s, i);
    }
    hide FirstKey, Find;
  }

  datatype DictOp = SetOp(k: Item, v: Item) | UnsetOp(key: string)

  function RunDict(items: seq<Item>, ops: seq<DictOp>): seq<Item>
    decreases |ops|
  {
    if ops == [] then items
    else
      var next := match ops[0] case SetOp(k, v) => SetItems(items, k, v) case UnsetOp(k) => UnsetItems(items, k);
      RunDict(next, ops[1..])
  }

  function RunMap(m: map<string, Item>, ops: seq<DictOp>): map<string, Item>
    decreases |ops|
  {
    if ops == [] then m
    else
      var next := match ops[0] case SetOp(k, v) => m[k.s := v] case UnsetOp(k) => m - {k};
      RunMap(next, ops[1..])
  }

  /** A dictionary built by any sets and unsets is the finite map built by the
      same ones: it stays well keyed, and looking a key up is finding it. */
  lemma {:induction false} DictRefinesMap(items: seq<Item>, ops: seq<DictOp>)
    requires WellKeyed(items)
    ensures WellKeyed(RunDict(items, ops))
    ensures DictOf(RunDict(items, ops)) == RunMap(DictOf(items), ops)
    decreases |ops|
  {
    if ops != [] {
      match ops[0]
      case SetOp(k, v) =>
        SetIsUpdate(items, k, v);
        DictRefinesMap(SetItems(items, k, v), ops[1..]);
      case UnsetOp(k) =>
        UnsetIsRemoval(items, k);
        DictRefinesMap(UnsetItems(items, k), ops[1..]);
    }
  }

  // ------------------------------------------------- an item popped by a script

  lemma TextsWithout(items: seq<Item>, i: nat)
    requires i < |items|
    ensures |Texts(items)| == |items| && Texts(Without(items, i)) == Without(Texts(items), i)
  {
  }

  /** What list.pop leaves behind, on any object whose text is filled, printed
      from its items or parsed into them: the views still agree exactly when the
      one item is gone and the text is the pair of braces an empty list prints
      as.  With no text filled they always agree. */
  lemma ProcPopCoherentIff(items: seq<string>, s: string, i: nat)
    requires i < |items| && (s == Print(items) || Parse(s) == Some(items))
    ensures (s == Print(Without(items, i)) || Parse(s) == Some(Without(items, i)))
       <==> |items| == 1 && s == "{}"
  {
    hide Parse, Print, Without;
    WithoutLength(items, i);
    NothingLost(items, i);
    if |items| == 1 {
      WithoutOnly(items);
      EmptyListFails();
    } else {
      NothingGained(items, i);
      PrintShorter(items, i);
    }
  }

  /** A one-item list whose text was filled is out of step after list.pop. */
  lemma ProcPopOutOfStep()
    ensures Print(["a"]) == "a" && Without(["a"], 0) == []
    ensures !("a" == Print(Without(["a"], 0)) || Parse("a") == Some(Without(["a"], 0)))
  {
    ProcPopCoherentIff(["a"], "a", 0);
    assert !Spaced("a");
  }

  // ------------------------------------------------------------------- the object

  class Obj {
    var items: seq<Item>
    var s: string
    var hash: Hash.Word
    var isList: bool
    var isStr: bool
    var hashed: bool

    /** Whichever views are filled agree with each other. */
    ghost predicate Coherent()
      reads this
    {
      && (isList || isStr)
      && (isList && isStr ==> s == Print(Texts(items)) || Parse(s) == Some(Texts(items)))
      && (hashed ==> isStr && hash == TextHash(s))
    }

    ghost predicate Valid()
      reads this, items
    {
      Coherent() && ItemsOk(items)
    }

    /** The text of the object, filled or not. */
    ghost function Text(): string
      reads this
    {
      if isStr then s else Print(Texts(items))
    }

    constructor List()
      ensures Valid() && isList && !isStr && !hashed && items == []
    {
      items, s, hash := [], "", 0;
      isList, isStr, hashed := true, false, false;
    }

    constructor Str(s: string)
      ensures Valid() && !isList && isStr && !hashed && this.s == s && items == []
    {
      items, this.s, hash := [], s, 0;
      isList, isStr, hashed := false, true, false;
    }

    method FillStr()
      requires Valid()
      modifies this
      ensures Valid() && isStr && s == old(Text())
      ensures items == old(items) && isList == old(isList) && hashed == old(hashed)
      ensures old(isStr) ==> hash == old(hash)
    {
      if !isStr {
        s := ListText.AsStr(Texts(items));
        isStr := true;
      }
    }

    /** Fails, leaving the object as it was, when the text is not a list. */
    method FillList() returns (ok: bool)
      requires Valid() && (isStr ==> |s| < SIZE)
      modifies this
      ensures Valid() && Text() == old(Text()) && isStr == old(isStr) && hashed == old(hashed) && hash == old(hash)
      ensures ok <==> old(isList) || Parse(old(Text())).Some?
      ensures isList == ok
      ensures old(isList) || !ok ==> items == old(items)
      ensures ok && !old(isList) ==> Parse(old(Text())) == Some(Texts(items)) && fresh(items)
    {
      if !isList {
        var r := DoAsList(s);
        if r.None? {
          return false;
        }
        items := NewItems(r.value);
        isList := true;
      }
      return true;
    }

    method FillHash()
      requires Valid()
      modifies this
      ensures Valid() && hashed && hash == TextHash(old(Text())) && isStr && s == old(Text())
      ensures items == old(items) && isList == old(isList)
    {
      if !hashed {
        FillStr();
        hash := Hash.ComputeHash(Bytes(s));
        hashed := true;
      }
    }

    method Flush()
      modifies this
      ensures !isStr && !hashed && items == old(items) && isList == old(isList)
    {
      isStr, hashed := false, false;
    }

    method ListAdd(o: Item)
      requires Valid() && isList && o.Ok()
      modifies this
      ensures Valid() && isList && !isStr && !hashed && items == old(items) + [o]
    {
      items := items + [o];
      Flush();
    }

    /** Appends the items of another list. */
    method ListExtend(l: Obj)
      requires Valid() && isList && l.Valid() && l.isList && l != this
      modifies this
      ensures Valid() && isList && !isStr && !hashed && items == old(items) + l.items
    {
      var i := 0;
      while i < |l.items|
        invariant 0 <= i <= |l.items| && l.items == old(l.items)
        invariant items == old(items) + l.items[..i] && isList
      {
        assert l.items[..i + 1] == l.items[..i] + [l.items[i]];
        items := items + [l.items[i]];
        i := i + 1;
      }
      assert l.items[..i] == l.items;
      Flush();
    }

    /** b6b_list_pop: a given position, or else the last; an empty list is left
        alone. */
    method ListPop(at: Option<nat>) returns (o: Option<Item>)
      requires Valid() && isList && (at.Some? ==> at.value < |items|)
      modifies this
      ensures Valid() && isList
      ensures o.None? <==> at.None? && old(items) == []
      ensures o.None? ==> items == old(items) && isStr == old(isStr) && hashed == old(hashed)
      ensures o.Some? ==>
        var i := if at.Some? then at.value else |old(items)| - 1;
        !isStr && !hashed && o.value == old(items)[i] && items == Without(old(items), i)
    {
      if at.None? && items == [] {
        return None;
      }
      var i := if at.Some? then at.value else |items| - 1;
      o := Some(items[i]);
      WithoutOk(items, i);
      items := Without(items, i);
      Flush();
    }

    /** The script's list.pop: the item goes but the other views stay. */
    method ProcPop(i: int) returns (o: Option<Item>)
      requires Valid() && isList
      modifies this
      ensures o.Some? <==> 0 <= i < |old(items)|
      ensures o.Some? ==> o.value == old(items)[i] && items == Without(old(items), i)
      ensures o.None? ==> items == old(items)
      ensures isList && isStr == old(isStr) && hashed == old(hashed) && s == old(s) && hash == old(hash)
      ensures ItemsOk(items)
      ensures Coherent() <==> !old(isStr) || o.None? || (|old(items)| == 1 && old(s) == "{}")
    {
      hide Parse, Print, Texts, Without, TextHash, Item.Ok, ItemsOk;
      if i < 0 || i >= |items| {
        return None;
      }
      TextsWithout(items, i);
      if isStr {
        ProcPopCoherentIff(Texts(items), s, i);
      }
      o := Some(items[i]);
      WithoutOk(items, i);
      items := Without(items, i);
    }

    /** Walks the keys, caching their hashes, up to the one that equals k. */
    method FindKey(k: Item) returns (f: Found)
      requires ItemsOk(items) && k.Ok()
      modifies k, items
      ensures f == Find(items, k.s)
      ensures items == old(items) && ItemsOk(items) && k.Ok() && k.hashed
      ensures isList == old(isList) && isStr == old(isStr) && hashed == old(hashed) && s == old(s) && hash == old(hash)
    {
      k.ObjHash();
      var i := 0;
      while i < |items|
        invariant 0 <= i <= |items| && items == old(items)
        invariant ItemsOk(items) && k.Ok() && k.hashed
        invariant Find(items, k.s) == Later(Find(items[i..], k.s), i)
      {
        items[i].ObjHash();
        if i + 1 == |items| {
          return Malformed;
        }
        ObjEqIsTextEq(items[i], k);
        if ObjEq(items[i], k) {
          return At(i);
        }
        assert items[i..][2..] == items[i + 2..];
        i := i + 2;
      }
      return Missing;
    }

    /** Fails, changing no item, when the list has no last value and k is new. */
    method DictSet(k: Item, v: Item) returns (ok: bool)
      requires Valid() && isList && k.Ok() && v.Ok()
      modifies this, k, items
      ensures Valid() && isList && k.Ok() && v.Ok()
      ensures ok <==> Find(old(items), k.s) != Malformed
      ensures items == SetItems(old(items), k, v) && ItemsOk(old(items))
      ensures ok ==> !isStr && !hashed
      ensures !ok ==> isStr == old(isStr) && hashed == old(hashed) && s == old(s)
    {
      var f := FindKey(k);
      match f {
        case Malformed => return false;
        case At(i) =>
          items := items[i + 1 := v];
          Flush();
        case Missing =>
          ListAdd(k);
          ListAdd(v);
          assert items == old(items) + [k, v];
      }
      return true;
    }

    method DictGet(k: Item) returns (ok: bool, v: Option<Item>)
      requires Valid() && k.Ok()
      modifies k, items
      ensures Valid() && k.Ok() && items == old(items) && isList == old(isList) && isStr == old(isStr) && s == old(s)
      ensures ok <==> Find(items, k.s) != Malformed
      ensures v == match Find(items, k.s) case At(i) => Some(items[i + 1]) case _ => None
    {
      var f := FindKey(k);
      match f {
        case Malformed => return false, None;
        case Missing => return true, None;
        case At(i) => return true, Some(items[i + 1]);
      }
    }

    method DictUnset(k: Item) returns (ok: bool)
      requires Valid() && isList && k.Ok()
      modifies this, k, items
      ensures Valid() && isList && k.Ok()
      ensures ok <==> Find(old(items), k.s) != Malformed
      ensures items == UnsetItems(old(items), k.s)
      ensures if Find(old(items), k.s).At? then !isStr && !hashed
              else isStr == old(isStr) && hashed == old(hashed) && s == old(s)
    {
      var f := FindKey(k);
      match f {
        case Malformed => return false;
        case Missing => return true;
        case At(i) =>
          WithoutTwice(items, i);
          var _ := ListPop(Some(i));
          var _ := ListPop(Some(i));
          return true;
      }
    }
  }

  method NewItems(texts: seq<string>) returns (items: seq<Item>)
    ensures Texts(items) == texts && fresh(items) && ItemsOk(items)
  {
    items := [];
    for i := 0 to |texts|
      invariant |items| == i && fresh(items) && ItemsOk(items)
      invariant forall j :: 0 <= j < i ==> items[j].s == texts[j]
    {
      var o := new Item(texts[i]);
      items := items + [o];
    }
  }

  // -------------------------------------------------------------- name lookup

  /** The map of a chain of dictionaries; the first, innermost, one wins. */
  function Overlay(maps: seq<map<string, Item>>): map<string, Item> {
    if maps == [] then map[] else Overlay(maps[1..]) + maps[0]
  }

  ghost function Maps(chain: seq<Obj>): seq<map<string, Item>>
    reads chain
  {
    seq(|chain|, i requires 0 <= i < |chain| reads chain => DictOf(chain[i].items))
  }

  lemma {:induction false} OverlayFirst(maps: seq<map<string, Item>>, n: nat, k: string)
    requires n <= |maps| && forall i :: 0 <= i < n ==> k !in maps[i]
    ensures n < |maps| && k in maps[n] ==> k in Overlay(maps) && Overlay(maps)[k] == maps[n][k]
    ensures n == |maps| ==> k !in Overlay(maps)
  {
    if n > 0 {
      OverlayFirst(maps[1..], n - 1, k);
    }
  }

  /** b6b_get: walks the frames outwards, asking each dictionary of locals. */
  method Get(chain: seq<Obj>, name: Item, ghost heap: set<Item>) returns (o: Option<Item>)
    requires chain != [] && name.Ok()
    requires forall i :: 0 <= i < |chain| ==> chain[i].Valid() && WellKeyed(chain[i].items)
    requires forall i, x :: 0 <= i < |chain| && x in chain[i].items ==> x in heap
    modifies name, heap
    ensures forall i :: 0 <= i < |chain| ==> chain[i].items == old(chain[i].items)
    ensures o == if name.s in Overlay(Maps(chain)) then Some(Overlay(Maps(chain))[name.s]) else None
  {
    hide Overlay, DictOf, Find, Parse, Print;
    var i := 0;
    while i < |chain|
      invariant 0 <= i <= |chain| && name.Ok()
      invariant forall j :: 0 <= j < |chain| ==>
        chain[j].Valid() && chain[j].items == old(chain[j].items) && WellKeyed(chain[j].items)
      invariant forall j :: 0 <= j < i ==> name.s !in DictOf(chain[j].items)
    {
      FindIsLookup(chain[i].items, name.s);
      var ok, v := chain[i].DictGet(name);
      if !ok {
        return None;
      }
      if v.Some? {
        OverlayFirst(Maps(chain), i, name.s);
        return v;
      }
      i := i + 1;
    }
    OverlayFirst(Maps(chain), i, name.s);
    return None;
  }

  // ---------------------------------------------------- the locals of a procedure

  function Dec(n: nat): (s: string)
    ensures s != ""
  {
    if n < 10 then ["0123456789"[n]] else Dec(n / 10) + ["0123456789"[n % 10]]
  }

  lemma {:induction false} DecInjective(m: nat, n: nat)
    requires Dec(m) == Dec(n)
    ensures m == n
    decreases m
  {
    assert Dec(m)[|Dec(m)| - 1] == "0123456789"[m % 10] && Dec(n)[|Dec(n)| - 1] == "0123456789"[n % 10];
    assert (m >= 10 <==> |Dec(m)| >= 2) && (n >= 10 <==> |Dec(n)| >= 2);
    if m >= 10 {
      assert Dec(m)[..|Dec(m)| - 1] == Dec(m / 10) && Dec(n)[..|Dec(n)| - 1] == Dec(n / 10);
      DecInjective(m / 10, n / 10);
    }
  }

  /** The map with args under the keys 0, 1, ... */
  function Numbered(m: map<string, Item>, args: seq<Item>): map<string, Item> {
    if args == [] then m
    else Numbered(m, args[..|args| - 1])[Dec(|args| - 1) := args[|args| - 1]]
  }

  /** Argument j is found under its number, and no other key changes. */
  lemma {:induction false} NumberedLookup(m: map<string, Item>, args: seq<Item>, j: nat, k: string)
    requires forall i: nat :: i < |args| ==> k != Dec(i)
    ensures j < |args| ==> Dec(j) in Numbered(m, args) && Numbered(m, args)[Dec(j)] == args[j]
    ensures k in Numbered(m, args) <==> k in m
    ensures k in m ==> Numbered(m, args)[k] == m[k]
  {
    if args != [] {
      var n := |args| - 1;
      NumberedLookup(m, args[..n], j, k);
      if j < n && Dec(j) == Dec(n) {
        DecInjective(j, n);
      }
      assert k != Dec(n);
    }
  }

  lemma {:induction false} DecDigits(n: nat)
    ensures '0' <= Dec(n)[0] <= '9'
  {
    if n >= 10 {
      DecDigits(n / 10);
    }
  }

  /** The number a string of digits stands for. */
  function ReadDec(s: string): int {
    if s == "" then 0 else 10 * ReadDec(s[..|s| - 1]) + (s[|s| - 1] as int - '0' as int)
  }

  /** A decimal numeral: digits, and no zero in front of others. */
  predicate Numeral(s: string) {
    s != "" && (forall i :: 0 <= i < |s| ==> '0' <= s[i] <= '9') && (s[0] == '0' ==> |s| == 1)
  }

  lemma DigitValue(d: nat)
    requires d < 10
    ensures var c := "0123456789"[d]; '0' <= c <= '9' && c as int - '0' as int == d
  {
  }

  /** The key of argument n is the decimal numeral of n. */
  lemma {:induction false} DecIs(n: nat)
    ensures Numeral(Dec(n)) && ReadDec(Dec(n)) == n
    ensures Dec(n)[0] == '0' ==> n == 0
  {
    DigitValue(n % 10);
    if n >= 10 {
      DecIs(n / 10);
      assert Dec(n)[..|Dec(n)| - 1] == Dec(n / 10);
    } else {
      assert Dec(n)[..0] == "";
    }
  }

  lemma DigitIs(c: char)
    requires '0' <= c <= '9'
    ensures 0 <= c as int - '0' as int < 10 && "0123456789"[c as int - '0' as int] == c
  {
  }

  lemma NumeralInit(s: string)
    requires Numeral(s) && |s| > 1
    ensures Numeral(s[..|s| - 1]) && s[..|s| - 1][0] != '0'
    ensures s == s[..|s| - 1] + [s[|s| - 1]]
  {
  }

  lemma {:induction false} NumeralPositive(s: string)
    requires Numeral(s)
    ensures ReadDec(s) >= 0 && (s[0] != '0' ==> ReadDec(s) > 0)
  {
    if |s| > 1 {
      NumeralInit(s);
      NumeralPositive(s[..|s| - 1]);
    } else {
      assert s[..0] == "";
    }
  }

  lemma DecSnoc(m: nat, d: nat)
    requires m > 0 && d < 10
    ensures Dec(10 * m + d) == Dec(m) + ["0123456789"[d]]
  {
  }

  /** And a numeral of n is the key of argument n. */
  lemma {:induction false} NumeralIs(s: string)
    requires Numeral(s)
    ensures ReadDec(s) >= 0 && s == Dec(ReadDec(s))
  {
    var init, c := s[..|s| - 1], s[|s| - 1];
    DigitIs(c);
    NumeralPositive(s);
    if |s| > 1 {
      NumeralInit(s);
      NumeralPositive(init);
      NumeralIs(init);
      DecSnoc(ReadDec(init), c as int - '0' as int);
      hide Dec, Numeral;
    } else {
      assert init == "" && ReadDec(init) == 0;
      hide ReadDec;
    }
  }

  /** Reading any key: a numeral below the number of arguments gives that
      argument, and every other key what it gave before. */
  lemma ArgumentUnder(m: map<string, Item>, args: seq<Item>, k: string)
    ensures var r := Numbered(m, args);
      if Numeral(k) && ReadDec(k) < |args| then k in r && ReadDec(k) >= 0 && r[k] == args[ReadDec(k)]
      else (k in r <==> k in m) && (k in m ==> r[k] == m[k])
  {
    hide Numbered, Dec, ReadDec, Numeral;
    if Numeral(k) && ReadDec(k) < |args| {
      NumeralIs(k);
      NumberedAt(m, args, ReadDec(k));
    } else {
      forall i: nat | i < |args|
        ensures k != Dec(i)
      {
        DecIs(i);
      }
      NumberedLookup(m, args, 0, k);
    }
  }

  lemma AllArguments(m: map<string, Item>, args: seq<Item>)
    ensures forall k :: Numeral(k) && ReadDec(k) < |args| ==>
      k in Numbered(m, args) && ReadDec(k) >= 0 && Numbered(m, args)[k] == args[ReadDec(k)]
  {
    hide Numbered, ReadDec, Numeral;
    forall k | Numeral(k) && ReadDec(k) < |args|
      ensures k in Numbered(m, args) && ReadDec(k) >= 0 && Numbered(m, args)[k] == args[ReadDec(k)]
    {
      ArgumentUnder(m, args, k);
    }
  }

  lemma {:induction false} NumberedAt(m: map<string, Item>, args: seq<Item>, j: nat)
    requires j < |args|
    ensures Dec(j) in Numbered(m, args) && Numbered(m, args)[Dec(j)] == args[j]
  {
    var n := |args| - 1;
    if j < n {
      NumberedAt(m, args[..n], j);
      if Dec(j) == Dec(n) {
        DecInjective(j, n);
      }
    }
  }

  /** The argument list is found under @, which is no number. */
  lemma AllLookup(m: map<string, Item>, all: Item, args: seq<Item>)
    ensures var r := Numbered(m["@" := all], args); "@" in r && r["@"] == all
  {
    forall i: nat | i < |args|
      ensures "@" != Dec(i)
    {
      DecDigits(i);
    }
    NumberedLookup(m["@" := all], args, 0, "@");
  }

  lemma NumberedSnoc(m: map<string, Item>, args: seq<Item>, i: nat)
    requires i <= |args|
    ensures i == 0 ==> Numbered(m, args[..i]) == m
    ensures i < |args| ==> Numbered(m, args[..i + 1]) == Numbered(m, args[..i])[Dec(i) := args[i]]
    ensures args[..|args|] == args
  {
    if i < |args| {
      assert args[..i + 1][..i] == args[..i];
    }
    hide Dec;
  }

  method Bind(locals: Obj, k: Item, v: Item, ghost heap: set<Item>)
    requires locals.Valid() && locals.isList && WellKeyed(locals.items) && k.Ok() && v.Ok()
    requires k in heap && v in heap && forall x :: x in locals.items ==> x in heap
    modifies locals, heap
    ensures locals.Valid() && locals.isList && WellKeyed(locals.items)
    ensures forall x :: x in locals.items ==> x in heap
    ensures old(forall x :: x in heap ==> x.Ok()) ==> forall x :: x in heap ==> x.Ok()
    ensures DictOf(locals.items) == DictOf(old(locals.items))[k.s := v]
  {
    hide ListText.Parse, ListText.Print, Item.Ok;
    ghost var was := locals.items;
    FindIsLookup(was, k.s);
    SetIsUpdate(was, k, v);
    var _ := locals.DictSet(k, v);
    hide Find;
    forall x | x in heap && old(x.Ok())
      ensures x.Ok()
    {
      if x in was {
        var j :| 0 <= j < |was| && was[j] == x;
      }
    }
  }

  /** b6b_frame_set_args: the list under at, then each argument under its number. */
  method SetArgs(locals: Obj, at: Item, all: Item, args: seq<Item>, ghost heap: set<Item>)
    requires locals.Valid() && locals.isList && WellKeyed(locals.items)
    requires at in heap && all in heap && (forall x :: x in args || x in locals.items ==> x in heap)
    requires forall x :: x in heap ==> x.Ok()
    modifies locals, heap
    ensures locals.Valid() && WellKeyed(locals.items)
    ensures DictOf(locals.items) == Numbered(DictOf(old(locals.items))[at.s := all], args)
    ensures forall k :: Numeral(k) && ReadDec(k) < |args| ==>
      k in DictOf(locals.items) && ReadDec(k) >= 0 && DictOf(locals.items)[k] == args[ReadDec(k)]
    ensures at.s == "@" ==> "@" in DictOf(locals.items) && DictOf(locals.items)["@"] == all
  {
    AllLookup(DictOf(locals.items), all, args);
    AllArguments(DictOf(locals.items)[at.s := all], args);
    hide Find, DictOf, Item.Ok, Obj.Valid, WellKeyed, Numeral, ReadDec, Numbered;
    Bind(locals, at, all, heap);
    ghost var m := DictOf(locals.items);
    ghost var h := heap;
    var i := 0;
    NumberedSnoc(m, args, 0);
    while i < |args|
      invariant 0 <= i <= |args| && locals.Valid() && locals.isList && WellKeyed(locals.items)
      invariant heap <= h && (forall x :: x in h ==> x in heap || fresh(x)) && (forall x :: x in h ==> x.Ok())
      invariant forall x :: x in locals.items ==> x in h
      invariant DictOf(locals.items) == Numbered(m, args[..i])
    {
      var io := new Item(Dec(i));
      h := h + {io};
      Bind(locals, io, args[i], h);
      NumberedSnoc(m, args, i);
      i := i + 1;
    }
    NumberedSnoc(m, args, i);
  }
}
