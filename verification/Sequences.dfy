/** Order-preserving selections of a sequence, used for lossy queues and channels. */
module Sequences {

  datatype Option<+T> = None | Some(value: T)

  datatype Result<+R, +E> = Ok(value: R) | Err(error: E)

  function Last<T>(s: seq<T>): T
    requires s != []
  {
    s[|s| - 1]
  }

  function Init<T>(s: seq<T>): seq<T>
    requires s != []
  {
    s[..|s| - 1]
  }

  lemma ConcatAssoc<T>(a: seq<T>, b: seq<T>, c: seq<T>)
    ensures a + (b + c) == (a + b) + c
  {
  }

  /** `picks` lists, in order, the positions of `b` that make up `a`. */
  ghost predicate Picks<T>(picks: seq<nat>, a: seq<T>, b: seq<T>) {
    && |picks| == |a|
    && (forall i :: 0 <= i < |picks| ==> picks[i] < |b| && b[picks[i]] == a[i])
    && (forall i, j :: 0 <= i < j < |picks| ==> picks[i] < picks[j])
  }

  /** `a` can be obtained from `b` by deleting elements. */
  ghost predicate Subsequence<T(!new)>(a: seq<T>, b: seq<T>) {
    exists picks :: Picks(picks, a, b)
  }

  /** Any contiguous stretch is a selection. */
  lemma SliceIsSubsequence<T(!new)>(s: seq<T>, lo: nat, hi: nat)
    requires lo <= hi <= |s|
    ensures Subsequence(s[lo..hi], s)
  {
    assert Picks(seq(hi - lo, i requires 0 <= i => lo + i), s[lo..hi], s);
  }

  lemma SubsequenceSnoc<T(!new)>(a: seq<T>, b: seq<T>, x: T)
    requires Subsequence(a, b)
    ensures Subsequence(a, b + [x])
    ensures Subsequence(a + [x], b + [x])
  {
    var picks: seq<nat> :| Picks(picks, a, b);
    assert Picks(picks, a, b + [x]);
    assert Picks(picks + [|b| as nat], a + [x], b + [x]);
  }

  lemma SubsequenceTrans<T(!new)>(a: seq<T>, b: seq<T>, c: seq<T>)
    requires Subsequence(a, b) && Subsequence(b, c)
    ensures Subsequence(a, c)
  {
    var f: seq<nat> :| Picks(f, a, b);
    var g: seq<nat> :| Picks(g, b, c);
    assert Picks(seq(|f|, i requires 0 <= i < |f| => g[f[i]]), a, c);
  }

  lemma SubsequenceRemove<T(!new)>(a: seq<T>, i: nat)
    requires i < |a|
    ensures Subsequence(a[..i] + a[i + 1..], a)
  {
    assert Picks(seq(|a| - 1, j requires 0 <= j => if j < i then j else j + 1), a[..i] + a[i + 1..], a);
  }

  lemma SubsequenceMember<T(!new)>(a: seq<T>, b: seq<T>, x: T)
    requires Subsequence(a, b) && x in a
    ensures x in b
  {
  }

  lemma {:induction false} PicksAdvance<T>(picks: seq<nat>, a: seq<T>, b: seq<T>, i: nat)
    requires Picks(picks, a, b) && i < |a|
    ensures i <= picks[i] && |a| - i <= |b| - picks[i]
    decreases i
  {
    if i > 0 {
      PicksAdvance(picks, a, b, i - 1);
    }
    PicksRemaining(picks, a, b, i);
  }

  lemma {:induction false} PicksRemaining<T>(picks: seq<nat>, a: seq<T>, b: seq<T>, i: nat)
    requires Picks(picks, a, b) && i < |a|
    ensures |a| - i <= |b| - picks[i]
    decreases |a| - i
  {
    if i + 1 < |a| {
      PicksRemaining(picks, a, b, i + 1);
    }
  }

  /** A selection of the same length is the whole sequence. */
  lemma SubsequenceFull<T(!new)>(a: seq<T>, b: seq<T>)
    requires Subsequence(a, b) && |a| == |b|
    ensures a == b
  {
    var picks: seq<nat> :| Picks(picks, a, b);
    forall i | 0 <= i < |a|
      ensures a[i] == b[i]
    {
      PicksAdvance(picks, a, b, i);
    }
  }
}
