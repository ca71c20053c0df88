/** Selection of the k highest scores: ties go to the earlier index, masked scores come last. */
module TopK {

  datatype Score = Masked | Fin(value: real)

  /** `i` comes before `j` in the order of the selection. */
  predicate Beats(scores: seq<Score>, i: nat, j: nat)
    requires i < |scores| && j < |scores|
  {
    match (scores[i], scores[j])
    case (Fin(a), Fin(b)) => a > b || (a == b && i < j)
    case (Fin(_), Masked) => true
    case (Masked, Fin(_)) => false
    case (Masked, Masked) => i < j
  }

  function Beaters(scores: seq<Score>, j: nat): set<nat>
    requires j < |scores|
  {
    set i: nat | i < |scores| && Beats(scores, i, j)
  }

  /** How many come before `j`. */
  function Rank(scores: seq<Score>, j: nat): nat
    requires j < |scores|
  {
    |Beaters(scores, j)|
  }

  predicate Distinct(s: seq<nat>) {
    forall i, j :: 0 <= i < j < |s| ==> s[i] != s[j]
  }

  /** What a top-k call promises: `k` different indices, each ahead of every index left out. */
  ghost predicate IsTopK(scores: seq<Score>, k: nat, indices: seq<nat>) {
    && |indices| == k && Distinct(indices)
    && (forall i :: i in indices ==> i < |scores|)
    && (forall i, j: nat :: i in indices && j < |scores| && j !in indices ==> Beats(scores, i, j))
  }

  function Elements(s: seq<nat>): set<nat> {
    set x | x in s
  }

  lemma {:induction false} DistinctCount(s: seq<nat>)
    requires Distinct(s)
    ensures |Elements(s)| == |s|
  {
    if s != [] {
      var front, x := s[..|s| - 1], s[|s| - 1];
      assert Distinct(front) && x !in front;
      DistinctCount(front);
      assert s == front + [x];
      assert Elements(s) == Elements(front) + {x};
    }
  }

  lemma {:induction false} SubsetCount(a: set<nat>, b: set<nat>)
    requires a <= b
    ensures |a| <= |b|
  {
    if a != {} {
      var x :| x in a;
      SubsetCount(a - {x}, b - {x});
    }
  }

  /** Whatever list a top-k call returns, it holds exactly the indices of rank below k. */
  lemma SelectedByRank(scores: seq<Score>, k: nat, indices: seq<nat>, j: nat)
    requires IsTopK(scores, k, indices) && j < |scores|
    ensures j in indices <==> Rank(scores, j) < k
  {
    var chosen := Elements(indices);
    DistinctCount(indices);
    if j in indices {
      forall i | i in Beaters(scores, j)
        ensures i in chosen - {j}
      {
        assert !Beats(scores, j, i);
      }
      SubsetCount(Beaters(scores, j), chosen - {j});
    } else {
      SubsetCount(chosen, Beaters(scores, j));
    }
  }

  /** The best index that is not taken yet. */
  function Best(scores: seq<Score>, taken: seq<nat>, n: nat): (best: nat)
    requires n <= |scores| && exists j: nat :: j < n && j !in taken
    ensures best < n && best !in taken
    ensures forall j: nat :: j < n && j !in taken && j != best ==> Beats(scores, best, j)
  {
    if n - 1 in taken then Best(scores, taken, n - 1)
    else if forall j: nat | j < n - 1 :: j in taken then n - 1
    else
      var before := Best(scores, taken, n - 1);
      if Beats(scores, before, n - 1) then before else n - 1
  }

  function Below(n: nat): (r: set<nat>)
    ensures |r| == n && forall j: nat :: j in r <==> j < n
  {
    if n == 0 then {} else Below(n - 1) + {n - 1}
  }

  lemma SomeLeft(taken: seq<nat>, n: nat)
    requires |taken| < n && forall i :: i in taken ==> i < n
    ensures exists j: nat :: j < n && j !in taken
  {
    ElementsCount(taken);
    if forall j: nat :: j < n ==> j in taken {
      SubsetCount(Below(n), Elements(taken));
    }
  }

  lemma {:induction false} ElementsCount(s: seq<nat>)
    ensures |Elements(s)| <= |s|
  {
    if s != [] {
      var front, x := s[..|s| - 1], s[|s| - 1];
      ElementsCount(front);
      assert s == front + [x];
      assert Elements(s) == Elements(front) + {x};
    }
  }

  /** A top-k list, best first. */
  function TopIndices(scores: seq<Score>, k: nat): (indices: seq<nat>)
    requires k <= |scores|
    ensures IsTopK(scores, k, indices)
  {
    if k == 0 then []
    else
      var taken := TopIndices(scores, k - 1);
      SomeLeft(taken, |scores|);
      var best := Best(scores, taken, |scores|);
      TakeBest(scores, taken, k - 1, best);
      taken + [best]
  }

  lemma TakeBest(scores: seq<Score>, taken: seq<nat>, k: nat, best: nat)
    requires IsTopK(scores, k, taken) && best < |scores| && best !in taken
    requires forall j: nat :: j < |scores| && j !in taken && j != best ==> Beats(scores, best, j)
    ensures IsTopK(scores, k + 1, taken + [best])
  {
    var grown := taken + [best];
    assert forall i :: i in grown <==> i in taken || i == best;
    assert forall i, j: nat :: i in taken && j < |scores| && j !in taken ==> Beats(scores, i, j);
  }

  // ----- Masked entries do not matter -----

  /** More entries that are all masked: nothing changes for those that are not. */
  lemma MaskedTail(scores: seq<Score>, longer: seq<Score>, j: nat)
    requires |scores| <= |longer| && longer[..|scores|] == scores
    requires forall i :: |scores| <= i < |longer| ==> longer[i] == Masked
    requires j < |scores| && scores[j].Fin?
    ensures Rank(longer, j) == Rank(scores, j)
  {
    assert forall i :: 0 <= i < |scores| ==> longer[i] == scores[i] by {
      forall i | 0 <= i < |scores|
        ensures longer[i] == scores[i]
      {
        assert longer[..|scores|][i] == longer[i];
      }
    }
    assert Beaters(longer, j) == Beaters(scores, j);
  }

  /** If there is an unmasked entry at all, one of them is selected. */
  lemma NeverAllMasked(scores: seq<Score>, k: nat, indices: seq<nat>, j: nat)
    requires IsTopK(scores, k, indices) && k > 0 && j < |scores| && scores[j].Fin?
    ensures exists i :: i in indices && scores[i].Fin?
  {
    assert indices[0] in indices;
    if j !in indices {
      assert Beats(scores, indices[0], j);
    }
  }
}
