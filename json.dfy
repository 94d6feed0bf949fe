/**
 * JSON documents as values, and the paths that address a location inside them.
 *
 * A parsed document is any JSON value. Objects keep their fields in the order
 * `Object.keys` enumerates them; numbers keep their literal text, since the
 * translator never computes with them.
 */
module Json {
  import opened Wrappers

  datatype Json =
    | Null
    | Bool(b: bool)
    | Num(literal: string)
    | Str(s: string)
    | Arr(items: seq<Json>)
    | Obj(fields: seq<Field>)

  datatype Field = Field(key: string, value: Json)

  /** One step of a path: an object key or an array index. */
  datatype Segment = Key(name: string) | Index(i: nat)

  type Path = seq<Segment>

  /** A JavaScript object never holds the same key twice, at any depth. */
  ghost predicate WellFormed(j: Json)
  {
    match j
    case Arr(items) => forall k :: 0 <= k < |items| ==> WellFormed(items[k])
    case Obj(fields) =>
      (forall a, b :: 0 <= a < b < |fields| ==> fields[a].key != fields[b].key) &&
      (forall k :: 0 <= k < |fields| ==> WellFormed(fields[k].value))
    case _ => true
  }

  /** The position of the first field named `key`, as property lookup finds it. */
  function FindKey(fields: seq<Field>, key: string): (r: Option<nat>)
    ensures r.Some? ==> r.value < |fields| && fields[r.value].key == key
    ensures r.Some? ==> forall k :: 0 <= k < r.value ==> fields[k].key != key
    ensures r.None? ==> forall k :: 0 <= k < |fields| ==> fields[k].key != key
  {
    if |fields| == 0 then None
    else if fields[0].key == key then Some(0)
    else match FindKey(fields[1..], key)
      case None => None
      case Some(n) => Some(n + 1)
  }

  /** `current[s]`: the child a segment names, if it exists. */
  function Child(j: Json, s: Segment): Option<Json>
  {
    match s
    case Index(i) =>
      if j.Arr? && i < |j.items| then Some(j.items[i]) else None
    case Key(k) =>
      if j.Obj? then
        match FindKey(j.fields, k)
        case Some(n) => Some(j.fields[n].value)
        case None => None
      else None
  }

  /** The value at a path, if every segment names an existing child. */
  function Get(j: Json, p: Path): Option<Json>
    decreases |p|
  {
    if p == [] then Some(j)
    else match Child(j, p[0])
      case None => None
      case Some(c) => Get(c, p[1..])
  }

  /**
   * In an object without repeated keys, looking up a key finds exactly the value
   * of the field with that key.
   */
  lemma ObjectLookup(fields: seq<Field>, key: string, v: Json)
    requires WellFormed(Obj(fields))
    ensures Child(Obj(fields), Key(key)) == Some(v) <==> Field(key, v) in fields
  {
    if Field(key, v) in fields {
      var k :| 0 <= k < |fields| && fields[k] == Field(key, v);
      var n := FindKey(fields, key).value;
      assert fields[n].key == fields[k].key;
    }
  }

  /**
   * Walking a path in two stages is walking it at once: the walk of `p + q`
   * is the walk of `q` from wherever `p` leads, and fails where `p` fails.
   */
  lemma {:induction false} GetAppend(j: Json, p: Path, q: Path)
    ensures Get(j, p + q) == if Get(j, p).Some? then Get(Get(j, p).value, q) else None
    decreases |p|
  {
    if p == [] {
      assert p + q == q;
    } else {
      assert (p + q)[0] == p[0] && (p + q)[1..] == p[1..] + q;
      if Child(j, p[0]).Some? {
        GetAppend(Child(j, p[0]).value, p[1..], q);
      }
    }
  }

  /** `current[s] = c` on an existing child. */
  function WithChild(j: Json, s: Segment, c: Json): (r: Json)
    requires Child(j, s).Some?
    ensures Child(r, s) == Some(c)
    ensures forall t :: t != s ==> Child(r, t) == Child(j, t)
  {
    match s
    case Index(i) => Arr(j.items[i := c])
    case Key(k) =>
      var n := FindKey(j.fields, k).value;
      var fields := j.fields[n := Field(k, c)];
      assert forall key :: FindKey(fields, key) == FindKey(j.fields, key) by {
        forall key ensures FindKey(fields, key) == FindKey(j.fields, key) {
          FindKeyByKeys(fields, j.fields, key);
        }
      }
      Obj(fields)
  }

  /** Lookup depends only on the sequence of keys. */
  lemma FindKeyByKeys(a: seq<Field>, b: seq<Field>, key: string)
    requires |a| == |b| && forall k :: 0 <= k < |a| ==> a[k].key == b[k].key
    ensures FindKey(a, key) == FindKey(b, key)
  {
  }

  predicate IsPrefix(p: Path, q: Path)
  {
    |p| <= |q| && q[..|p|] == p
  }

  /** Neither path lies on the way to the other: they address separate locations. */
  predicate Disjoint(p: Path, q: Path)
  {
    !IsPrefix(p, q) && !IsPrefix(q, p)
  }
}
