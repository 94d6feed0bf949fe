/** Concatenation of a sequence of sequences, shared by the chunker and the prompt renderer. */
module Sequences {
  function Concat<T>(xss: seq<seq<T>>): seq<T>
  {
    if xss == [] then [] else xss[0] + Concat(xss[1..])
  }

  /** Each part appears in the concatenation right after the parts before it. */
  lemma {:induction false} ConcatAt<T>(xss: seq<seq<T>>, k: nat)
    requires k < |xss|
    ensures var at := |Concat(xss[..k])|;
      at + |xss[k]| <= |Concat(xss)| && Concat(xss)[at..at + |xss[k]|] == xss[k]
  {
    if k > 0 {
      ConcatAt(xss[1..], k - 1);
      assert xss[1..][..k - 1] == xss[..k][1..];
      assert xss[1..][k - 1] == xss[k];
    }
  }

  lemma {:induction false} ConcatSplit<T>(a: seq<seq<T>>, b: seq<seq<T>>)
    ensures Concat(a + b) == Concat(a) + Concat(b)
  {
    if a != [] {
      assert (a + b)[0] == a[0];
      assert (a + b)[1..] == a[1..] + b;
      ConcatSplit(a[1..], b);
    } else {
      assert a + b == b;
    }
  }

  /** The parts from `k` on: part `k`, then the rest. */
  lemma ConcatFrom<T>(xss: seq<seq<T>>, k: nat)
    requires k < |xss|
    ensures Concat(xss[k..]) == xss[k] + Concat(xss[k + 1..])
  {
    assert xss[k..][0] == xss[k] && xss[k..][1..] == xss[k + 1..];
  }
}
