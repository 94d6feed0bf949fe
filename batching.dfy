/**
 * Batching: the loop that cuts the value list into chunks of `chunkSize`, and the
 * `reduce` that gives each chunk's values the positional keys `val_0 ... val_{n-1}`.
 */
module Batching {
  import opened Wrappers
  import opened Json
  import opened Walker
  import opened Sequences

  /** The chunks `values.slice(j, j + size)` for `j = 0, size, 2*size, ...`. */
  function Chunks<T>(xs: seq<T>, size: nat): seq<seq<T>>
    requires size > 0
    decreases |xs|
  {
    if |xs| == 0 then []
    else if |xs| <= size then [xs]
    else [xs[..size]] + Chunks(xs[size..], size)
  }

  /**
   * The chunks partition the list: concatenated they give it back in order, each
   * is non-empty with at most `size` items, all but the last have exactly `size`,
   * and an empty list has no chunks at all.
   */
  lemma {:induction false} ChunksPartition<T>(xs: seq<T>, size: nat)
    requires size > 0
    ensures Concat(Chunks(xs, size)) == xs
    ensures forall k :: 0 <= k < |Chunks(xs, size)| ==> 0 < |Chunks(xs, size)[k]| <= size
    ensures forall k :: 0 <= k < |Chunks(xs, size)| - 1 ==> |Chunks(xs, size)[k]| == size
    ensures Chunks(xs, size) == [] <==> xs == []
    decreases |xs|
  {
    if |xs| > size {
      var rest := Chunks(xs[size..], size);
      ChunksPartition(xs[size..], size);
      assert Chunks(xs, size)[1..] == rest;
      assert xs[..size] + xs[size..] == xs;
      assert forall k :: 1 <= k < |Chunks(xs, size)| ==> Chunks(xs, size)[k] == rest[k - 1];
    }
  }

  /** The chunking loop of `processTranslationQueue`. */
  method ChunkValues<T>(values: seq<T>, chunkSize: nat) returns (chunks: seq<seq<T>>)
    requires chunkSize > 0
    ensures chunks == Chunks(values, chunkSize)
  {
    chunks := [];
    var j := 0;
    while j < |values|
      invariant 0 <= j
      invariant j <= |values| ==> chunks + Chunks(values[j..], chunkSize) == Chunks(values, chunkSize)
      invariant j > |values| ==> chunks == Chunks(values, chunkSize)
      decreases |values| - j
    {
      var end := if j + chunkSize < |values| then j + chunkSize else |values|;
      var rest := values[j..];
      if |rest| > chunkSize {
        assert rest[..chunkSize] == values[j..end];
        assert rest[chunkSize..] == values[j + chunkSize..];
      } else {
        assert rest == values[j..end];
      }
      chunks := chunks + [values[j..end]];
      j := j + chunkSize;
    }
  }

  // ---------------------------------------------------------------------------
  // Positional keys
  // ---------------------------------------------------------------------------

  function DigitChar(d: nat): char
    requires d < 10
  {
    ('0' as int + d) as char
  }

  /** The decimal rendering of a natural number, as a template literal produces it. */
  function Decimal(n: nat): (r: string)
    ensures |r| >= 1
  {
    if n < 10 then [DigitChar(n)] else Decimal(n / 10) + [DigitChar(n % 10)]
  }

  /** Different numbers have different renderings. */
  lemma {:induction false} DecimalInjective(a: nat, b: nat)
    requires Decimal(a) == Decimal(b)
    ensures a == b
  {
    if a >= 10 { assert |Decimal(a)| == |Decimal(a / 10)| + 1; }
    if b >= 10 { assert |Decimal(b)| == |Decimal(b / 10)| + 1; }
    if a >= 10 && b >= 10 {
      var da, db := Decimal(a), Decimal(b);
      assert da[|da| - 1] == DigitChar(a % 10) && db[|db| - 1] == DigitChar(b % 10);
      assert da[..|da| - 1] == Decimal(a / 10) && db[..|db| - 1] == Decimal(b / 10);
      DecimalInjective(a / 10, b / 10);
    }
  }

  /** The key of the value at position `i` of a chunk. */
  function KeyName(i: nat): string
  {
    "val_" + Decimal(i)
  }

  /** Different positions have different keys. */
  lemma KeyNamesDistinct(a: nat, b: nat)
    requires a != b
    ensures KeyName(a) != KeyName(b)
  {
    if KeyName(a) == KeyName(b) {
      assert Decimal(a) == KeyName(a)[4..];
      assert Decimal(b) == KeyName(b)[4..];
      DecimalInjective(a, b);
    }
  }

  /** The chunk object: position `i` becomes the field `val_i` holding the value. */
  function Keyed(items: seq<Item>): seq<Field>
  {
    seq(|items|, i requires 0 <= i < |items| => Field(KeyName(i), Str(items[i].value)))
  }

  /**
   * The chunk object is a proper object: its keys are distinct, and looking up
   * `val_i` gives the value at position `i`.
   */
  lemma KeyedLookup(items: seq<Item>, i: nat)
    requires i < |items|
    ensures WellFormed(Obj(Keyed(items)))
    ensures Child(Obj(Keyed(items)), Key(KeyName(i))) == Some(Str(items[i].value))
  {
    var fields := Keyed(items);
    assert forall k :: 0 <= k < |fields| ==> fields[k] == Field(KeyName(k), Str(items[k].value));
    forall a, b | 0 <= a < b < |fields| ensures fields[a].key != fields[b].key {
      KeyNamesDistinct(a, b);
    }
    var n := FindKey(fields, KeyName(i));
    assert fields[i].key == KeyName(i);
    assert n.Some? && n.value == i;
  }

  /**
   * The chunk object has no keys but the positional ones: a key is present
   * exactly when it is `val_k` for a position `k` of the chunk. An empty chunk
   * gives an empty object.
   */
  lemma KeyedKeys(items: seq<Item>)
    ensures WellFormed(Obj(Keyed(items)))
    ensures forall key :: Child(Obj(Keyed(items)), Key(key)).Some? <==> exists k :: 0 <= k < |items| && key == KeyName(k)
  {
    var fields := Keyed(items);
    assert forall k :: 0 <= k < |fields| ==> fields[k] == Field(KeyName(k), Str(items[k].value));
    forall a, b | 0 <= a < b < |fields| ensures fields[a].key != fields[b].key {
      KeyNamesDistinct(a, b);
    }
    forall key ensures Child(Obj(fields), Key(key)).Some? <==> exists k :: 0 <= k < |items| && key == KeyName(k) {
      if Child(Obj(fields), Key(key)).Some? {
        var n := FindKey(fields, key).value;
        assert key == KeyName(n);
      }
      if exists k :: 0 <= k < |items| && key == KeyName(k) {
        var k :| 0 <= k < |items| && key == KeyName(k);
        KeyedLookup(items, k);
      }
    }
  }
}
