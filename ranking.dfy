/**
 * The per-cluster learning-object ranking as the manager runs it: a join
 * loop, a duplicate scan with an `exist` flag, an in-place stable sort and
 * an in-place reversal of the list's backing array, and a position counter.
 * Each step is proved to compute its function in RankingSpec.
 */
module Ranking {
  import opened Entities
  import opened RankingSpec

  /** Appends each member's content list in turn. */
  method GatherContent(lists: seq<seq<LearningObject>>) returns (clusterLOs: seq<LearningObject>)
    ensures clusterLOs == Flatten(lists)
  {
    clusterLOs := [];
    var m := 0;
    while m < |lists|
      invariant 0 <= m <= |lists|
      invariant clusterLOs == Flatten(lists[..m])
    {
      assert Init(lists[..m + 1]) == lists[..m];
      clusterLOs := clusterLOs + lists[m];
      m := m + 1;
    }
    assert lists[..|lists|] == lists;
  }

  /**
   * Copies the items into a new list, skipping an item when the scan of
   * the list built so far finds its id.
   */
  method RemoveRepeated(clusterLOs: seq<LearningObject>) returns (unique: seq<LearningObject>)
    ensures unique == Dedup(clusterLOs)
  {
    unique := [];
    var i := 0;
    while i < |clusterLOs|
      invariant 0 <= i <= |clusterLOs|
      invariant unique == Dedup(clusterLOs[..i])
    {
      var source := clusterLOs[i];
      var exist := false;
      for k := 0 to |unique|
        invariant exist <==> exists m :: 0 <= m < k && unique[m].id == source.id
      {
        if unique[k].id == source.id {
          exist := true;
        }
      }
      assert Init(clusterLOs[..i + 1]) == clusterLOs[..i];
      if !exist {
        unique := unique + [source];
      }
      i := i + 1;
    }
    assert clusterLOs[..|clusterLOs|] == clusterLOs;
  }

  /**
   * Inserting `x` puts it right after the last item that is not larger,
   * in front of the run of strictly larger items at the end.
   */
  lemma {:induction false} InsertAtPoint(sorted: seq<LearningObject>, x: LearningObject, j: int)
    requires 0 <= j <= |sorted|
    requires j == 0 || sorted[j - 1].visits <= x.visits
    requires forall k :: j <= k < |sorted| ==> sorted[k].visits > x.visits
    ensures Insert(sorted, x) == sorted[..j] + [x] + sorted[j..]
    decreases |sorted|
  {
    if j == |sorted| {
      assert sorted[..j] == sorted && sorted[j..] == [];
    } else {
      var init := Init(sorted);
      InsertAtPoint(init, x, j);
      assert init[..j] == sorted[..j];
      assert init[j..] + [Last(sorted)] == sorted[j..];
    }
  }

  /** Where the items of `sorted` and `x` sit once `x` is spliced in at `j`. */
  lemma SplicedAt(sorted: seq<LearningObject>, j: int, x: LearningObject)
    requires 0 <= j <= |sorted|
    ensures var spliced := sorted[..j] + [x] + sorted[j..];
            && |spliced| == |sorted| + 1
            && (forall k :: 0 <= k < j ==> spliced[k] == sorted[k])
            && spliced[j] == x
            && (forall k :: j < k <= |sorted| ==> spliced[k] == sorted[k - 1])
  {
  }

  /**
   * Moves `a[i]` towards the front past every strictly larger item just
   * before it; the items behind `i` are left alone.
   */
  method InsertAt(a: array<LearningObject>, i: int)
    requires 0 <= i < a.Length
    modifies a
    ensures a[..i + 1] == Insert(old(a[..i]), old(a[i]))
    ensures a[i + 1..] == old(a[i + 1..])
  {
    ghost var sorted := a[..i];
    ghost var x := a[i];
    var j := i;
    while j > 0 && a[j - 1].visits > a[j].visits
      invariant 0 <= j <= i
      invariant forall k :: 0 <= k < j ==> a[k] == sorted[k]
      invariant a[j] == x
      invariant forall k :: j < k <= i ==> a[k] == sorted[k - 1]
      invariant forall k :: i < k < a.Length ==> a[k] == old(a[k])
      invariant forall k :: j <= k < i ==> sorted[k].visits > x.visits
    {
      a[j - 1], a[j] := a[j], a[j - 1];
      j := j - 1;
    }
    InsertAtPoint(sorted, x, j);
    SplicedAt(sorted, j, x);
    assert a[..i + 1] == sorted[..j] + [x] + sorted[j..];
  }

  /**
   * Sorts the items by visit count, least first, in place; an item moves
   * only past strictly larger ones, so the sort is stable.
   */
  method SortByVisits(a: array<LearningObject>)
    modifies a
    ensures a[..] == SortedByVisits(old(a[..]))
  {
    ghost var input := a[..];
    var i := 0;
    while i < a.Length
      invariant 0 <= i <= a.Length
      invariant a[..i] == SortedByVisits(input[..i])
      invariant a[i..] == input[i..]
    {
      ghost var before := a[..];
      assert a[i] == input[i];
      InsertAt(a, i);
      assert Init(input[..i + 1]) == input[..i] && Last(input[..i + 1]) == input[i];
      assert a[i + 1..] == before[i + 1..];
      assert input[i + 1..] == input[i..][1..];
      i := i + 1;
    }
    assert input[..a.Length] == input;
  }

  /** Reverses the items in place by swapping from both ends. */
  method ReverseInPlace(a: array<LearningObject>)
    modifies a
    ensures a[..] == Reversed(old(a[..]))
  {
    var lo, hi := 0, a.Length - 1;
    while lo < hi
      invariant 0 <= lo && hi == a.Length - 1 - lo && lo <= a.Length
      invariant forall k :: 0 <= k < lo ==> a[k] == old(a[a.Length - 1 - k]) && a[a.Length - 1 - k] == old(a[k])
      invariant forall k :: lo <= k <= hi ==> a[k] == old(a[k])
    {
      a[lo], a[hi] := a[hi], a[lo];
      lo, hi := lo + 1, hi - 1;
    }
    ghost var input := old(a[..]);
    forall k | 0 <= k < a.Length ensures a[k] == Reversed(input)[k] {
      ReversedAt(input, k);
    }
  }

  /** Hands out positions 1, 2, 3, ... in the order of the array. */
  method AssignPositions(a: array<LearningObject>) returns (ranking: seq<Ranked>)
    ensures ranking == Numbered(a[..])
  {
    ranking := [];
    var position := 1;
    var k := 0;
    while k < a.Length
      invariant 0 <= k <= a.Length
      invariant position == k + 1
      invariant ranking == Numbered(a[..k])
    {
      ranking := ranking + [Ranked(a[k], position)];
      position := position + 1;
      k := k + 1;
    }
    assert a[..a.Length] == a[..];
  }

  /** The ranking of one cluster whose members have the given content lists. */
  method RankCluster(lists: seq<seq<LearningObject>>) returns (ranking: seq<Ranked>)
    ensures ranking == ClusterRanking(lists)
  {
    var clusterLOs := GatherContent(lists);
    var nonRepeated := RemoveRepeated(clusterLOs);
    var a := new LearningObject[|nonRepeated|](i requires 0 <= i < |nonRepeated| => nonRepeated[i]);
    assert a[..] == nonRepeated;
    SortByVisits(a);
    ReverseInPlace(a);
    ranking := AssignPositions(a);
  }
}
