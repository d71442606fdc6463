/** Flattening nested loops: the rows a loop over a sequence emits, when
    each element emits a run of rows. */
module Seqs {

  /** The rows of `f(s[0]) + f(s[1]) + …`, in order. */
  function Concat<T, U>(s: seq<T>, f: T -> seq<U>): seq<U>
  {
    if s == [] then [] else Concat(s[..|s| - 1], f) + f(s[|s| - 1])
  }

  /** One more loop iteration appends that element's rows. */
  lemma ConcatSnoc<T, U>(s: seq<T>, i: nat, f: T -> seq<U>)
    requires i < |s|
    ensures Concat(s[..i + 1], f) == Concat(s[..i], f) + f(s[i])
  {
    assert s[..i + 1][..i] == s[..i];
  }

  /** The whole sequence is its last prefix. */
  lemma ConcatAll<T, U>(s: seq<T>, f: T -> seq<U>)
    ensures Concat(s[..|s|], f) == Concat(s, f)
  {
    assert s[..|s|] == s;
  }

  /** When every element emits exactly one row, there is one row per element. */
  lemma {:induction false} ConcatSingles<T, U>(s: seq<T>, f: T -> seq<U>)
    requires forall i :: 0 <= i < |s| ==> |f(s[i])| == 1
    ensures |Concat(s, f)| == |s|
    ensures forall i :: 0 <= i < |s| ==> Concat(s, f)[i] == f(s[i])[0]
  {
    if s != [] {
      var init := s[..|s| - 1];
      ConcatSingles(init, f);
    }
  }

  /** The loop-invariant step: rows written so far, then this element's. */
  lemma ConcatStep<T, U>(before: seq<U>, s: seq<T>, i: nat, f: T -> seq<U>)
    requires i < |s|
    ensures before + Concat(s[..i], f) + f(s[i]) == before + Concat(s[..i + 1], f)
  {
    ConcatSnoc(s, i, f);
  }

  /** Whatever one element emits is among the rows of the whole sequence. */
  lemma {:induction false} ConcatMember<T, U>(s: seq<T>, j: nat, f: T -> seq<U>, x: U)
    requires j < |s| && x in f(s[j])
    ensures x in Concat(s, f)
  {
    if j < |s| - 1 {
      ConcatMember(s[..|s| - 1], j, f, x);
    }
  }

  /** Every row of the whole sequence was emitted by some element. */
  lemma {:induction false} ConcatOrigin<T, U>(s: seq<T>, f: T -> seq<U>, x: U) returns (j: nat)
    requires x in Concat(s, f)
    ensures j < |s| && x in f(s[j])
  {
    var init := s[..|s| - 1];
    if x in Concat(init, f) {
      j := ConcatOrigin(init, f, x);
      assert s[j] == init[j];
    } else {
      j := |s| - 1;
    }
  }
}
