/**
 * The path-addressed walker: `getValuesToTranslate` flattens a document into its
 * string leaves with their paths, and `updateObjectByPath` writes a value back at
 * one path.
 */
module Walker {
  import opened Wrappers
  import opened Json

  /** One translatable value and where it sits in the document. */
  datatype Item = Item(path: Path, value: string)

  /** One write-back: the value to store at a path. */
  datatype Write = Write(path: Path, value: Json)

  // ---------------------------------------------------------------------------
  // Extraction
  // ---------------------------------------------------------------------------

  /**
   * The items `walk(j, prefix)` pushes, in order: a string is one item, an array
   * visits its elements by ascending index, an object its fields in key order,
   * and numbers, booleans and null yield nothing.
   */
  function Extract(j: Json, prefix: Path): seq<Item>
    decreases j, 1
  {
    match j
    case Str(s) => [Item(prefix, s)]
    case Arr(items) => ExtractItems(items, 0, prefix)
    case Obj(fields) => ExtractFields(fields, 0, prefix)
    case _ => []
  }

  /** The items of the array elements from index `from` on. */
  function ExtractItems(items: seq<Json>, from: nat, prefix: Path): seq<Item>
    requires from <= |items|
    decreases Arr(items), 0, |items| - from
  {
    if from == |items| then []
    else Extract(items[from], prefix + [Index(from)]) + ExtractItems(items, from + 1, prefix)
  }

  /** The items of the object fields from position `from` on. */
  function ExtractFields(fields: seq<Field>, from: nat, prefix: Path): seq<Item>
    requires from <= |fields|
    decreases Obj(fields), 0, |fields| - from
  {
    if from == |fields| then []
    else Extract(fields[from].value, prefix + [Key(fields[from].key)]) + ExtractFields(fields, from + 1, prefix)
  }

  /** `getValuesToTranslate(obj)`. */
  method GetValuesToTranslate(obj: Json) returns (items: seq<Item>)
    ensures items == Extract(obj, [])
  {
    items := Walk(obj, [], []);
  }

  /** `walk(current, path)`, pushing onto the accumulated `acc`. */
  method Walk(current: Json, path: Path, acc: seq<Item>) returns (items: seq<Item>)
    ensures items == acc + Extract(current, path)
    decreases current, 1
  {
    match current {
      case Str(s) => items := acc + [Item(path, s)];
      case Arr(elems) => items := WalkItems(elems, path, acc);
      case Obj(fields) => items := WalkFields(fields, path, acc);
      case _ => items := acc;
    }
  }

  /** `current.forEach((item, index) => walk(item, [...path, index]))`. */
  method WalkItems(elems: seq<Json>, path: Path, acc: seq<Item>) returns (items: seq<Item>)
    ensures items == acc + ExtractItems(elems, 0, path)
    decreases Arr(elems), 0
  {
    items := acc;
    var k := 0;
    while k < |elems|
      invariant 0 <= k <= |elems|
      invariant items + ExtractItems(elems, k, path) == acc + ExtractItems(elems, 0, path)
    {
      ghost var rest := ExtractItems(elems, k + 1, path);
      items := Walk(elems[k], path + [Index(k)], items);
      assert items + rest == acc + ExtractItems(elems, 0, path);
      k := k + 1;
    }
  }

  /** `Object.keys(current).forEach(key => walk(current[key], [...path, key]))`. */
  method WalkFields(fields: seq<Field>, path: Path, acc: seq<Item>) returns (items: seq<Item>)
    ensures items == acc + ExtractFields(fields, 0, path)
    decreases Obj(fields), 0
  {
    items := acc;
    var k := 0;
    while k < |fields|
      invariant 0 <= k <= |fields|
      invariant items + ExtractFields(fields, k, path) == acc + ExtractFields(fields, 0, path)
    {
      ghost var rest := ExtractFields(fields, k + 1, path);
      items := Walk(fields[k].value, path + [Key(fields[k].key)], items);
      assert items + rest == acc + ExtractFields(fields, 0, path);
      k := k + 1;
    }
  }

  // ---------------------------------------------------------------------------
  // Write-back
  // ---------------------------------------------------------------------------

  /** The error `current[undefined] = value` raises when the path is empty. */
  const EmptyPathError := "TypeError: cannot create property 'undefined' on string"

  /** The error raised when a segment does not name an existing child. */
  const MissingSegmentError := "TypeError: path does not exist in the document"

  /**
   * `updateObjectByPath(obj, path, value)`: walk every segment but the last, then
   * assign at the last one. Defined exactly when the path is non-empty and leads
   * to an existing location.
   */
  function Update(doc: Json, path: Path, v: Json): (r: Result<Json>)
    ensures r.Ok? <==> path != [] && Get(doc, path).Some?
    ensures r.Ok? ==> Get(r.value, path) == Some(v)
  {
    if path == [] then Err(EmptyPathError)
    else match SetAt(doc, path, v)
      case None => Err(MissingSegmentError)
      case Some(d) => Ok(d)
  }

  /** Replaces the location at a non-empty path, rebuilding every container above it. */
  function SetAt(j: Json, p: Path, v: Json): (r: Option<Json>)
    requires p != []
    ensures r.Some? <==> Get(j, p).Some?
    ensures r.Some? ==> Get(r.value, p) == Some(v)
    decreases |p|
  {
    match Child(j, p[0])
    case None => None
    case Some(c) =>
      if |p| == 1 then Some(WithChild(j, p[0], v))
      else match SetAt(c, p[1..], v)
        case None => None
        case Some(c2) => Some(WithChild(j, p[0], c2))
  }

  /** An update leaves every location apart from the written one as it was. */
  lemma {:induction false} UpdateOther(doc: Json, p: Path, v: Json, q: Path)
    requires Update(doc, p, v).Ok?
    requires Disjoint(p, q)
    ensures Get(Update(doc, p, v).value, q) == Get(doc, q)
  {
    SetAtOther(doc, p, v, q);
  }

  lemma {:induction false} SetAtOther(j: Json, p: Path, v: Json, q: Path)
    requires p != [] && SetAt(j, p, v).Some?
    requires Disjoint(p, q)
    ensures Get(SetAt(j, p, v).value, q) == Get(j, q)
    decreases |p|
  {
    assert q != [] by {
      assert p[..0] == [];
    }
    var r := SetAt(j, p, v).value;
    if p[0] != q[0] {
      assert Child(r, q[0]) == Child(j, q[0]);
    } else {
      DisjointTails(p, q);
      var c := Child(j, p[0]).value;
      SetAtOther(c, p[1..], v, q[1..]);
      assert Child(r, q[0]) == SetAt(c, p[1..], v);
    }
  }

  /** Two separate paths through the same first step stay separate after it. */
  lemma DisjointTails(p: Path, q: Path)
    requires p != [] && q != [] && p[0] == q[0] && Disjoint(p, q)
    ensures |p| > 1 && |q| > 1 && Disjoint(p[1..], q[1..])
  {
    assert p[..1] == [p[0]] == q[..1];
    if |p| <= |q| {
      assert q[..|p|] == [q[0]] + q[1..][..|p| - 1];
    }
    if |q| <= |p| {
      assert p[..|q|] == [p[0]] + p[1..][..|q| - 1];
    }
  }

  /** Writing back the value already stored at a path changes nothing. */
  lemma {:induction false} UpdateSame(doc: Json, p: Path, x: Json)
    requires p != [] && Get(doc, p) == Some(x)
    ensures Update(doc, p, x) == Ok(doc)
  {
    SetAtSame(doc, p, x);
  }

  lemma {:induction false} SetAtSame(j: Json, p: Path, x: Json)
    requires p != [] && Get(j, p) == Some(x)
    ensures SetAt(j, p, x) == Some(j)
    decreases |p|
  {
    var c := Child(j, p[0]).value;
    if |p| > 1 {
      SetAtSame(c, p[1..], x);
    }
    WithChildSame(j, p[0]);
  }

  lemma WithChildSame(j: Json, s: Segment)
    requires Child(j, s).Some?
    ensures WithChild(j, s, Child(j, s).value) == j
  {
    match s {
      case Index(i) =>
        assert j.items[i := j.items[i]] == j.items;
      case Key(k) =>
        var n := FindKey(j.fields, k).value;
        assert j.fields[n := Field(k, j.fields[n].value)] == j.fields;
    }
  }

  /** Writing a path twice leaves the last write in effect. */
  lemma {:induction false} UpdateTwice(doc: Json, p: Path, v: Json, w: Json)
    requires Update(doc, p, v).Ok?
    ensures Update(Update(doc, p, v).value, p, w) == Update(doc, p, w)
  {
    SetAtTwice(doc, p, v, w);
  }

  lemma {:induction false} SetAtTwice(j: Json, p: Path, v: Json, w: Json)
    requires p != [] && SetAt(j, p, v).Some?
    ensures SetAt(SetAt(j, p, v).value, p, w) == SetAt(j, p, w)
    decreases |p|
  {
    var c := Child(j, p[0]).value;
    var r := SetAt(j, p, v).value;
    if |p| > 1 {
      SetAtTwice(c, p[1..], v, w);
      WithChildTwice(j, p[0], SetAt(c, p[1..], v).value, SetAt(c, p[1..], w).value);
    } else {
      WithChildTwice(j, p[0], v, w);
    }
  }

  lemma WithChildTwice(j: Json, s: Segment, c1: Json, c2: Json)
    requires Child(j, s).Some?
    ensures WithChild(WithChild(j, s, c1), s, c2) == WithChild(j, s, c2)
  {
    match s {
      case Index(i) =>
      case Key(k) =>
        var n := FindKey(j.fields, k).value;
        FindKeyByKeys(j.fields[n := Field(k, c1)], j.fields, k);
    }
  }

  // ---------------------------------------------------------------------------
  // What extraction yields
  // ---------------------------------------------------------------------------

  /** `x` lies below `prefix` and names a string leaf of `j` holding `x.value`. */
  ghost predicate LeafBelow(j: Json, prefix: Path, x: Item)
  {
    IsPrefix(prefix, x.path) && Get(j, x.path[|prefix|..]) == Some(Str(x.value))
  }

  /** No two items address the same location, nor one inside another. */
  ghost predicate SeparateItems(items: seq<Item>)
  {
    forall a, b :: 0 <= a < b < |items| ==> Disjoint(items[a].path, items[b].path)
  }

  lemma DifferAtDisjoint(p: Path, q: Path, i: nat)
    requires i < |p| && i < |q| && p[i] != q[i]
    ensures Disjoint(p, q)
  {
    if |p| <= |q| { assert q[..|p|][i] == q[i]; }
    if |q| <= |p| { assert p[..|q|][i] == p[i]; }
  }

  /** An item found below `prefix + [s]` is found below `prefix`, one segment further down. */
  lemma LeafBelowChild(j: Json, prefix: Path, s: Segment, c: Json, x: Item)
    requires Child(j, s) == Some(c)
    requires LeafBelow(c, prefix + [s], x)
    ensures LeafBelow(j, prefix, x)
    ensures |x.path| > |prefix| && x.path[|prefix|] == s
  {
    var p1 := prefix + [s];
    assert x.path[..|prefix|] == x.path[..|p1|][..|prefix|];
    assert x.path[|prefix|..] == [s] + x.path[|p1|..];
    assert x.path[..|p1|][|prefix|] == s;
  }

  lemma {:induction false} ExtractSound(j: Json, prefix: Path)
    requires WellFormed(j)
    ensures forall x :: x in Extract(j, prefix) ==> LeafBelow(j, prefix, x)
    decreases j, 1
  {
    match j {
      case Str(s) => assert prefix[|prefix|..] == [];
      case Arr(items) => ExtractItemsSound(items, 0, prefix);
      case Obj(fields) => ExtractFieldsSound(fields, 0, prefix);
      case _ =>
    }
  }

  lemma {:induction false} ExtractItemsSound(items: seq<Json>, from: nat, prefix: Path)
    requires from <= |items| && WellFormed(Arr(items))
    ensures forall x :: x in ExtractItems(items, from, prefix) ==>
      LeafBelow(Arr(items), prefix, x) && |x.path| > |prefix| &&
      x.path[|prefix|].Index? && from <= x.path[|prefix|].i
    decreases Arr(items), 0, |items| - from
  {
    if from < |items| {
      var p1 := prefix + [Index(from)];
      ExtractSound(items[from], p1);
      ExtractItemsSound(items, from + 1, prefix);
      forall x | x in Extract(items[from], p1)
        ensures LeafBelow(Arr(items), prefix, x) && |x.path| > |prefix| && x.path[|prefix|] == Index(from)
      {
        LeafBelowChild(Arr(items), prefix, Index(from), items[from], x);
      }
    }
  }

  lemma {:induction false} ExtractFieldsSound(fields: seq<Field>, from: nat, prefix: Path)
    requires from <= |fields| && WellFormed(Obj(fields))
    ensures forall x :: x in ExtractFields(fields, from, prefix) ==>
      LeafBelow(Obj(fields), prefix, x) && |x.path| > |prefix| && x.path[|prefix|].Key? &&
      FindKey(fields, x.path[|prefix|].name).Some? && from <= FindKey(fields, x.path[|prefix|].name).value
    decreases Obj(fields), 0, |fields| - from
  {
    if from < |fields| {
      var f := fields[from];
      var p1 := prefix + [Key(f.key)];
      assert FindKey(fields, f.key) == Some(from);
      ExtractSound(f.value, p1);
      ExtractFieldsSound(fields, from + 1, prefix);
      forall x | x in Extract(f.value, p1)
        ensures LeafBelow(Obj(fields), prefix, x) && |x.path| > |prefix| && x.path[|prefix|] == Key(f.key)
      {
        LeafBelowChild(Obj(fields), prefix, Key(f.key), f.value, x);
      }
    }
  }

  lemma {:induction false} ExtractSeparate(j: Json, prefix: Path)
    requires WellFormed(j)
    ensures SeparateItems(Extract(j, prefix))
    decreases j, 1
  {
    match j {
      case Arr(items) => ExtractItemsSeparate(items, 0, prefix);
      case Obj(fields) => ExtractFieldsSeparate(fields, 0, prefix);
      case _ =>
    }
  }

  lemma {:induction false} ExtractItemsSeparate(items: seq<Json>, from: nat, prefix: Path)
    requires from <= |items| && WellFormed(Arr(items))
    ensures SeparateItems(ExtractItems(items, from, prefix))
    decreases Arr(items), 0, |items| - from
  {
    if from < |items| {
      var p1 := prefix + [Index(from)];
      var head, tail := Extract(items[from], p1), ExtractItems(items, from + 1, prefix);
      ExtractSeparate(items[from], p1);
      ExtractItemsSeparate(items, from + 1, prefix);
      ExtractSound(items[from], p1);
      ExtractItemsSound(items, from + 1, prefix);
      var e := head + tail;
      forall a, b | 0 <= a < b < |e| ensures Disjoint(e[a].path, e[b].path) {
        if b < |head| {
          assert e[a] == head[a] && e[b] == head[b];
        } else if a >= |head| {
          assert e[a] == tail[a - |head|] && e[b] == tail[b - |head|];
        } else {
          assert e[a] == head[a] && e[b] == tail[b - |head|];
          LeafBelowChild(Arr(items), prefix, Index(from), items[from], e[a]);
          DifferAtDisjoint(e[a].path, e[b].path, |prefix|);
        }
      }
    }
  }

  lemma {:induction false} ExtractFieldsSeparate(fields: seq<Field>, from: nat, prefix: Path)
    requires from <= |fields| && WellFormed(Obj(fields))
    ensures SeparateItems(ExtractFields(fields, from, prefix))
    decreases Obj(fields), 0, |fields| - from
  {
    if from < |fields| {
      var f := fields[from];
      var p1 := prefix + [Key(f.key)];
      assert FindKey(fields, f.key) == Some(from);
      var head, tail := Extract(f.value, p1), ExtractFields(fields, from + 1, prefix);
      ExtractSeparate(f.value, p1);
      ExtractFieldsSeparate(fields, from + 1, prefix);
      ExtractSound(f.value, p1);
      ExtractFieldsSound(fields, from + 1, prefix);
      var e := head + tail;
      forall a, b | 0 <= a < b < |e| ensures Disjoint(e[a].path, e[b].path) {
        if b < |head| {
          assert e[a] == head[a] && e[b] == head[b];
        } else if a >= |head| {
          assert e[a] == tail[a - |head|] && e[b] == tail[b - |head|];
        } else {
          assert e[a] == head[a] && e[b] == tail[b - |head|];
          LeafBelowChild(Obj(fields), prefix, Key(f.key), f.value, e[a]);
          DifferAtDisjoint(e[a].path, e[b].path, |prefix|);
        }
      }
    }
  }

  /** Inside `node`, the step `s` is enumerated before the step `t`. */
  ghost predicate SegmentBefore(node: Json, s: Segment, t: Segment)
  {
    || (s.Index? && t.Index? && s.i < t.i)
    || (node.Obj? && s.Key? && t.Key? &&
        FindKey(node.fields, s.name).Some? && FindKey(node.fields, t.name).Some? &&
        FindKey(node.fields, s.name).value < FindKey(node.fields, t.name).value)
  }

  /**
   * Below `prefix`, the walk of `j` reaches `p` before `q`: the two paths agree
   * up to some position past the prefix, and there `p`'s step comes first in
   * the container both pass through.
   */
  ghost predicate PrecedesBelow(j: Json, prefix: Path, p: Path, q: Path)
  {
    exists d: nat :: |prefix| <= d < |p| && d < |q| && p[..d] == q[..d] &&
      Get(j, p[|prefix|..d]).Some? && SegmentBefore(Get(j, p[|prefix|..d]).value, p[d], q[d])
  }

  /** Each item of `e` is reached before every later one. */
  ghost predicate InWalkOrder(j: Json, prefix: Path, e: seq<Item>)
  {
    forall a, b :: 0 <= a < b < |e| ==> PrecedesBelow(j, prefix, e[a].path, e[b].path)
  }

  /** Paths that part right after the prefix are ordered by their steps there. */
  lemma PrecedesAcross(j: Json, prefix: Path, p: Path, q: Path)
    requires IsPrefix(prefix, p) && IsPrefix(prefix, q) && |p| > |prefix| && |q| > |prefix|
    requires SegmentBefore(j, p[|prefix|], q[|prefix|])
    ensures PrecedesBelow(j, prefix, p, q)
  {
    var d := |prefix|;
    assert p[d..d] == [];
    assert p[..d] == prefix == q[..d];
  }

  /** An order between two paths below child `s` of `j` is an order below `j`. */
  lemma PrecedesLift(j: Json, prefix: Path, s: Segment, c: Json, p: Path, q: Path)
    requires Child(j, s) == Some(c)
    requires IsPrefix(prefix + [s], p) && IsPrefix(prefix + [s], q)
    requires PrecedesBelow(c, prefix + [s], p, q)
    ensures PrecedesBelow(j, prefix, p, q)
  {
    var n := |prefix|;
    var d: nat :| n + 1 <= d < |p| && d < |q| && p[..d] == q[..d] &&
      Get(c, p[n + 1..d]).Some? && SegmentBefore(Get(c, p[n + 1..d]).value, p[d], q[d]);
    var r := p[n..d];
    assert p[..n + 1][n] == s;
    assert r[0] == s && r[1..] == p[n + 1..d];
    assert Get(j, r) == Get(c, p[n + 1..d]);
    assert n <= d < |p| && d < |q| && p[..d] == q[..d] && Get(j, p[n..d]).Some? &&
      SegmentBefore(Get(j, p[n..d]).value, p[d], q[d]);
  }

  lemma {:induction false} ExtractOrdered(j: Json, prefix: Path)
    requires WellFormed(j)
    ensures InWalkOrder(j, prefix, Extract(j, prefix))
    decreases j, 1
  {
    match j {
      case Arr(items) => ExtractItemsOrdered(items, 0, prefix);
      case Obj(fields) => ExtractFieldsOrdered(fields, 0, prefix);
      case _ =>
    }
  }

  lemma {:induction false} ExtractItemsOrdered(items: seq<Json>, from: nat, prefix: Path)
    requires from <= |items| && WellFormed(Arr(items))
    ensures InWalkOrder(Arr(items), prefix, ExtractItems(items, from, prefix))
    decreases Arr(items), 0, |items| - from
  {
    if from < |items| {
      var p1 := prefix + [Index(from)];
      var head, tail := Extract(items[from], p1), ExtractItems(items, from + 1, prefix);
      ExtractOrdered(items[from], p1);
      ExtractItemsOrdered(items, from + 1, prefix);
      ExtractSound(items[from], p1);
      ExtractItemsSound(items, from + 1, prefix);
      var e := head + tail;
      forall a, b | 0 <= a < b < |e| ensures PrecedesBelow(Arr(items), prefix, e[a].path, e[b].path) {
        if b < |head| {
          assert e[a] == head[a] && e[b] == head[b];
          assert head[a] in head && head[b] in head;
          assert PrecedesBelow(items[from], p1, head[a].path, head[b].path);
          PrecedesLift(Arr(items), prefix, Index(from), items[from], e[a].path, e[b].path);
        } else if a >= |head| {
          assert e[a] == tail[a - |head|] && e[b] == tail[b - |head|];
        } else {
          assert e[a] == head[a] && e[b] == tail[b - |head|];
          LeafBelowChild(Arr(items), prefix, Index(from), items[from], e[a]);
          PrecedesAcross(Arr(items), prefix, e[a].path, e[b].path);
        }
      }
    }
  }

  lemma {:induction false} ExtractFieldsOrdered(fields: seq<Field>, from: nat, prefix: Path)
    requires from <= |fields| && WellFormed(Obj(fields))
    ensures InWalkOrder(Obj(fields), prefix, ExtractFields(fields, from, prefix))
    decreases Obj(fields), 0, |fields| - from
  {
    if from < |fields| {
      var f := fields[from];
      var p1 := prefix + [Key(f.key)];
      assert FindKey(fields, f.key) == Some(from);
      var head, tail := Extract(f.value, p1), ExtractFields(fields, from + 1, prefix);
      ExtractOrdered(f.value, p1);
      ExtractFieldsOrdered(fields, from + 1, prefix);
      ExtractSound(f.value, p1);
      ExtractFieldsSound(fields, from + 1, prefix);
      var e := head + tail;
      forall a, b | 0 <= a < b < |e| ensures PrecedesBelow(Obj(fields), prefix, e[a].path, e[b].path) {
        if b < |head| {
          assert e[a] == head[a] && e[b] == head[b];
          assert head[a] in head && head[b] in head;
          assert PrecedesBelow(f.value, p1, head[a].path, head[b].path);
          PrecedesLift(Obj(fields), prefix, Key(f.key), f.value, e[a].path, e[b].path);
        } else if a >= |head| {
          assert e[a] == tail[a - |head|] && e[b] == tail[b - |head|];
        } else {
          assert e[a] == head[a] && e[b] == tail[b - |head|];
          LeafBelowChild(Obj(fields), prefix, Key(f.key), f.value, e[a]);
          PrecedesAcross(Obj(fields), prefix, e[a].path, e[b].path);
        }
      }
    }
  }

  /**
   * Extraction follows the depth-first walk: of any two items, the earlier one
   * is reached first, arrays being walked by ascending index and objects in key
   * enumeration order.
   */
  lemma ExtractInDocumentOrder(doc: Json)
    requires WellFormed(doc)
    ensures var e := Extract(doc, []);
      forall a, b :: 0 <= a < b < |e| ==> PrecedesBelow(doc, [], e[a].path, e[b].path)
  {
    ExtractOrdered(doc, []);
  }

  lemma {:induction false} ExtractComplete(j: Json, prefix: Path, rel: Path, s: string)
    requires Get(j, rel) == Some(Str(s))
    ensures Item(prefix + rel, s) in Extract(j, prefix)
    decreases |rel|
  {
    if rel == [] {
      assert prefix + rel == prefix;
    } else {
      var c := Child(j, rel[0]).value;
      ExtractComplete(c, prefix + [rel[0]], rel[1..], s);
      assert prefix + [rel[0]] + rel[1..] == prefix + rel;
      match rel[0] {
        case Index(i) =>
          ExtractItemsContains(j.items, 0, prefix, i);
        case Key(k) =>
          ExtractFieldsContains(j.fields, 0, prefix, FindKey(j.fields, k).value);
      }
    }
  }

  lemma {:induction false} ExtractItemsContains(items: seq<Json>, from: nat, prefix: Path, i: nat)
    requires from <= i < |items|
    ensures forall x :: x in Extract(items[i], prefix + [Index(i)]) ==> x in ExtractItems(items, from, prefix)
    decreases i - from
  {
    if from < i {
      ExtractItemsContains(items, from + 1, prefix, i);
    }
  }

  lemma {:induction false} ExtractFieldsContains(fields: seq<Field>, from: nat, prefix: Path, i: nat)
    requires from <= i < |fields|
    ensures forall x :: x in Extract(fields[i].value, prefix + [Key(fields[i].key)]) ==>
      x in ExtractFields(fields, from, prefix)
    decreases i - from
  {
    if from < i {
      ExtractFieldsContains(fields, from + 1, prefix, i);
    }
  }

  /**
   * Extraction yields exactly the string leaves: every item names a string leaf
   * holding its value, every string leaf appears, and no two items address the
   * same location or one inside the other.
   */
  lemma ExtractExactlyLeaves(doc: Json)
    requires WellFormed(doc)
    ensures forall x :: x in Extract(doc, []) ==> Get(doc, x.path) == Some(Str(x.value))
    ensures forall p, s :: Get(doc, p) == Some(Str(s)) ==> Item(p, s) in Extract(doc, [])
    ensures SeparateItems(Extract(doc, []))
  {
    ExtractSound(doc, []);
    forall x | x in Extract(doc, []) ensures Get(doc, x.path) == Some(Str(x.value)) {
      assert x.path[0..] == x.path;
    }
    forall p, s | Get(doc, p) == Some(Str(s)) ensures Item(p, s) in Extract(doc, []) {
      ExtractComplete(doc, [], p, s);
      assert [] + p == p;
    }
    ExtractSeparate(doc, []);
  }

  // ---------------------------------------------------------------------------
  // Writing back many values
  // ---------------------------------------------------------------------------

  /**
   * Applies the writes in order, stopping at the first that throws. When all go
   * through, none was to the empty path and the last one written holds its value.
   */
  function WriteAll(doc: Json, writes: seq<Write>): (r: Result<Json>)
    ensures r.Ok? ==> forall k :: 0 <= k < |writes| ==> writes[k].path != []
    ensures r.Ok? && writes != [] ==> Get(r.value, writes[|writes| - 1].path) == Some(writes[|writes| - 1].value)
    decreases |writes|
  {
    if writes == [] then Ok(doc)
    else match Update(doc, writes[0].path, writes[0].value)
      case Err(e) => Err(e)
      case Ok(d) => WriteAll(d, writes[1..])
  }

  /** Each extracted item paired with the string it was extracted with. */
  function Originals(items: seq<Item>): seq<Write>
  {
    seq(|items|, k requires 0 <= k < |items| => Write(items[k].path, Str(items[k].value)))
  }

  lemma {:induction false} WriteAllUnchanged(doc: Json, writes: seq<Write>)
    requires forall k :: 0 <= k < |writes| ==> writes[k].path != [] && Get(doc, writes[k].path) == Some(writes[k].value)
    ensures WriteAll(doc, writes) == Ok(doc)
    decreases |writes|
  {
    if writes != [] {
      UpdateSame(doc, writes[0].path, writes[0].value);
      WriteAllUnchanged(doc, writes[1..]);
    }
  }

  /**
   * Round trip: writing every extracted value back unchanged gives the document
   * back, except that a document which is itself a string has the empty path,
   * where the write throws.
   */
  lemma RoundTrip(doc: Json)
    requires WellFormed(doc)
    ensures WriteAll(doc, Originals(Extract(doc, []))) ==
      if doc.Str? then Err(EmptyPathError) else Ok(doc)
  {
    var items := Extract(doc, []);
    ExtractExactlyLeaves(doc);
    if !doc.Str? {
      assert Get(doc, []) == Some(doc);
      WriteAllUnchanged(doc, Originals(items));
    }
  }

  /** No two writes address the same location, nor one inside another. */
  ghost predicate SeparateWrites(writes: seq<Write>)
  {
    forall a, b :: 0 <= a < b < |writes| ==> Disjoint(writes[a].path, writes[b].path)
  }

  /**
   * Writes to separate, existing, non-empty paths all succeed, and afterwards each
   * written location holds its value.
   */
  lemma {:induction false} WriteAllEffect(doc: Json, writes: seq<Write>)
    requires SeparateWrites(writes)
    requires forall k :: 0 <= k < |writes| ==> writes[k].path != [] && Get(doc, writes[k].path).Some?
    ensures WriteAll(doc, writes).Ok?
    ensures forall k :: 0 <= k < |writes| ==>
      Get(WriteAll(doc, writes).value, writes[k].path) == Some(writes[k].value)
    decreases |writes|
  {
    if writes != [] {
      var w0 := writes[0];
      var rest := writes[1..];
      var d1 := Update(doc, w0.path, w0.value).value;
      forall k | 0 <= k < |rest| ensures rest[k].path != [] && Get(d1, rest[k].path).Some? {
        assert rest[k] == writes[k + 1];
        UpdateOther(doc, w0.path, w0.value, rest[k].path);
      }
      assert SeparateWrites(rest) by {
        forall a, b | 0 <= a < b < |rest| ensures Disjoint(rest[a].path, rest[b].path) {
          assert rest[a] == writes[a + 1] && rest[b] == writes[b + 1];
        }
      }
      WriteAllEffect(d1, rest);
      forall k | 0 <= k < |rest| ensures Disjoint(rest[k].path, w0.path) {
        assert rest[k] == writes[k + 1];
      }
      WriteAllOther(d1, rest, w0.path);
      forall k | 0 <= k < |writes|
        ensures Get(WriteAll(doc, writes).value, writes[k].path) == Some(writes[k].value)
      {
        if k > 0 { assert writes[k] == rest[k - 1]; }
      }
    }
  }

  /** Writes leave every location separate from all of them as it was. */
  lemma {:induction false} WriteAllOther(doc: Json, writes: seq<Write>, q: Path)
    requires WriteAll(doc, writes).Ok?
    requires forall k :: 0 <= k < |writes| ==> Disjoint(writes[k].path, q)
    ensures Get(WriteAll(doc, writes).value, q) == Get(doc, q)
    decreases |writes|
  {
    if writes != [] {
      var d1 := Update(doc, writes[0].path, writes[0].value).value;
      UpdateOther(doc, writes[0].path, writes[0].value, q);
      forall k | 0 <= k < |writes[1..]| ensures Disjoint(writes[1..][k].path, q) {
        assert writes[1..][k] == writes[k + 1];
      }
      WriteAllOther(d1, writes[1..], q);
    }
  }
}
