/** Generic facts about sequences, stated over bare sequence variables so that the
    proofs that use them do not have to unfold any function of the model. */
module Sequences {
  lemma {:induction false} SplitLast<T>(s: seq<T>, t: seq<T>)
    requires t != []
    ensures (s + t)[..|s + t| - 1] == s + t[..|t| - 1]
    ensures (s + t)[|s + t| - 1] == t[|t| - 1]
  {
  }

  /** A non-empty sequence is its front followed by its last element. */
  lemma {:induction false} InitLast<T>(s: seq<T>)
    requires s != []
    ensures s[..|s| - 1] + [s[|s| - 1]] == s
  {
  }

  lemma {:induction false} Regroup<T>(x: seq<T>, y: seq<T>, z: seq<T>, a: seq<T>, b: seq<T>, last: seq<T>)
    requires x == y + last && y == a + b && z == b + last
    ensures x == a + z
  {
  }

  lemma {:induction false} WholePrefix<T>(s: seq<T>, i: nat)
    requires i <= |s|
    ensures i == |s| ==> s[..i] == s
    ensures i == 0 ==> s[..i] == []
  {
  }

  lemma {:induction false} AppendMembers<T>(a: seq<T>, b: seq<T>, x: T)
    ensures x in a + b <==> x in a || x in b
  {
  }

  lemma {:induction false} AppendAssoc<T>(a: seq<T>, b: seq<T>, c: seq<T>)
    ensures a + (b + c) == (a + b) + c
  {
  }

  lemma {:induction false} DropEmpty<T>(x: seq<T>, a: seq<T>, y: seq<T>, c: seq<T>, b: seq<T>)
    requires x == a + y && y == c + b && c == []
    ensures x == a + b
  {
  }

  /** `xs.map(f)`. */
  function MapSeq<A, B>(f: A -> B, xs: seq<A>): (ys: seq<B>)
    ensures |ys| == |xs|
    ensures forall i :: 0 <= i < |xs| ==> ys[i] == f(xs[i])
  {
    seq(|xs|, i requires 0 <= i < |xs| => f(xs[i]))
  }

  lemma {:induction false} MapSeqSnoc<A, B>(f: A -> B, xs: seq<A>, i: nat)
    requires i < |xs|
    ensures MapSeq(f, xs[..i + 1]) == MapSeq(f, xs[..i]) + [f(xs[i])]
  {
  }

  lemma {:induction false} Reassociate<T>(x: seq<T>, p: seq<T>, y: seq<T>, q: seq<T>, r: seq<T>)
    requires x == p + y && y == q + r
    ensures x == (p + q) + r
  {
  }

  lemma {:induction false} PrefixThenSlice<T>(xs: seq<T>, k: nat, m: nat)
    requires k <= m <= |xs|
    ensures xs[..k] + xs[k..m] == xs[..m]
  {
  }

  /** `xs.reverse()`: the last element first. */
  function Reverse<T>(xs: seq<T>): (ys: seq<T>)
    ensures |ys| == |xs|
    ensures forall i :: 0 <= i < |xs| ==> ys[i] == xs[|xs| - 1 - i]
  {
    if xs == [] then []
    else
      var rest := Reverse(xs[..|xs| - 1]);
      var ys := [xs[|xs| - 1]] + rest;
      assert forall i :: 1 <= i < |xs| ==> ys[i] == rest[i - 1];
      ys
  }

  /** Reversing twice restores the list. */
  lemma {:induction false} ReverseTwice<T>(xs: seq<T>)
    ensures Reverse(Reverse(xs)) == xs
  {
    var ys := Reverse(xs);
    var zs := Reverse(ys);
    assert forall i :: 0 <= i < |xs| ==> zs[i] == ys[|xs| - 1 - i] == xs[i];
  }

  /** `small` is `big` with some elements left out and the rest in their order:
      `pos[i]` is where `small[i]` sits in `big`, and the positions increase. */
  ghost predicate Embedding<T>(small: seq<T>, big: seq<T>, pos: seq<nat>) {
    && |pos| == |small|
    && (forall i :: 0 <= i < |pos| ==> pos[i] < |big| && small[i] == big[pos[i]])
    && (forall i, j :: 0 <= i < j < |pos| ==> pos[i] < pos[j])
  }

  /** Extending both lists by an element of `big` that is kept. */
  lemma {:induction false} EmbeddingSnoc<T>(small: seq<T>, big: seq<T>, pos: seq<nat>, x: T)
    requires Embedding(small, big, pos)
    ensures Embedding(small + [x], big + [x], pos + [|big|])
  {
  }

  /** Extending `big` alone by an element that is left out. */
  lemma {:induction false} EmbeddingSkip<T>(small: seq<T>, big: seq<T>, pos: seq<nat>, x: T)
    requires Embedding(small, big, pos)
    ensures Embedding(small, big + [x], pos)
  {
  }
}
