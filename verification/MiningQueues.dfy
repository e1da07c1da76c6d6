/**
  internal/ledger/mining.go, miningPriorityQueue: the list of ready indexes kept as a binary heap. Push and Pop
  sift as Go's container/heap does, which the source applies to this queue.
 */
module MiningQueues {
  import opened Priority

  function Up(i: nat): nat
    requires i > 0
  {
    (i - 1) / 2
  }

  predicate SizesOk(items: seq<MiningItem>) {
    forall i | 0 <= i < |items| :: items[i].size > 0
  }

  predicate IndexesOk(items: seq<MiningItem>, h: seq<nat>) {
    forall k | 0 <= k < |h| :: h[k] < |items|
  }

  /** The entry at `child` does not beat the entry at `parent`. */
  predicate Above(items: seq<MiningItem>, h: seq<nat>, parent: nat, child: nat)
    requires IndexesOk(items, h) && parent < |h| && child < |h|
  {
    !Higher(items[h[child]], items[h[parent]])
  }

  ghost predicate HeapOk(items: seq<MiningItem>, h: seq<nat>)
    requires IndexesOk(items, h)
  {
    forall k | 0 < k < |h| :: Above(items, h, Up(k), k)
  }

  /** A heap except that the entry at `hole` may beat its parent. */
  ghost predicate RisingHeap(items: seq<MiningItem>, h: seq<nat>, hole: nat)
    requires IndexesOk(items, h)
  {
    && (forall k | 0 < k < |h| && k != hole :: Above(items, h, Up(k), k))
    && (forall k | 0 < k < |h| && hole > 0 && Up(k) == hole :: Above(items, h, Up(hole), k))
  }

  /** A heap except that the entry at `hole` may be beaten by its children. */
  ghost predicate SinkingHeap(items: seq<MiningItem>, h: seq<nat>, hole: nat)
    requires IndexesOk(items, h)
  {
    && (forall k | 0 < k < |h| && Up(k) != hole :: Above(items, h, Up(k), k))
    && (forall k | 0 < k < |h| && hole > 0 && Up(k) == hole :: Above(items, h, Up(hole), k))
  }

  function Swapped(h: seq<nat>, i: nat, j: nat): (r: seq<nat>)
    requires i < |h| && j < |h|
    ensures |r| == |h| && r[i] == h[j] && r[j] == h[i]
    ensures forall k | 0 <= k < |h| && k != i && k != j :: r[k] == h[k]
  {
    h[i := h[j]][j := h[i]]
  }

  lemma SwapKeepsContents(items: seq<MiningItem>, h: seq<nat>, i: nat, j: nat)
    requires i < |h| && j < |h|
    ensures multiset(Swapped(h, i, j)) == multiset(h)
    ensures IndexesOk(items, h) ==> IndexesOk(items, Swapped(h, i, j))
  {
  }

  lemma AboveTransitive(items: seq<MiningItem>, h: seq<nat>, a: nat, b: nat, d: nat)
    requires IndexesOk(items, h) && SizesOk(items) && a < |h| && b < |h| && d < |h|
    requires Above(items, h, a, b) && Above(items, h, b, d)
    ensures Above(items, h, a, d)
  {
    hide Higher;
    NotHigherTransitive(items[h[a]], items[h[b]], items[h[d]]);
  }

  lemma BeatingIsAbove(items: seq<MiningItem>, h: seq<nat>, a: nat, b: nat)
    requires IndexesOk(items, h) && SizesOk(items) && a < |h| && b < |h|
    requires Higher(items[h[a]], items[h[b]])
    ensures Above(items, h, a, b)
  {
  }

  /** Moving entries does not change how two of them compare. */
  lemma AboveMoves(items: seq<MiningItem>, h: seq<nat>, a: nat, b: nat, g: seq<nat>, x: nat, y: nat)
    requires IndexesOk(items, h) && IndexesOk(items, g)
    requires a < |h| && b < |h| && x < |g| && y < |g| && h[a] == g[x] && h[b] == g[y]
    ensures Above(items, h, a, b) == Above(items, g, x, y)
  {
  }

  lemma RiseStep(items: seq<MiningItem>, h: seq<nat>, j: nat)
    requires IndexesOk(items, h) && SizesOk(items) && 0 < j < |h|
    requires RisingHeap(items, h, j) && Higher(items[h[j]], items[h[Up(j)]])
    ensures IndexesOk(items, Swapped(h, Up(j), j)) && RisingHeap(items, Swapped(h, Up(j), j), Up(j))
  {
    hide Above, Swapped, IndexesOk;
    var i := Up(j);
    var g := Swapped(h, i, j);
    SwapKeepsContents(items, h, i, j);
    BeatingIsAbove(items, h, j, i);
    forall k | 0 < k < |g| && k != i ensures Above(items, g, Up(k), k) {
      if k == j {
        AboveMoves(items, h, j, i, g, i, j);
      } else if Up(k) == i {
        AboveTransitive(items, h, j, i, k);
        AboveMoves(items, h, j, k, g, i, k);
      } else if Up(k) == j {
        AboveMoves(items, h, i, k, g, j, k);
      } else {
        AboveMoves(items, h, Up(k), k, g, Up(k), k);
      }
    }
    forall k | 0 < k < |g| && i > 0 && Up(k) == i ensures Above(items, g, Up(i), k) {
      if k == j {
        AboveMoves(items, h, Up(i), i, g, Up(i), j);
      } else {
        AboveTransitive(items, h, Up(i), i, k);
        AboveMoves(items, h, Up(i), k, g, Up(i), k);
      }
    }
  }

  /** The better child of a node is above its sibling. */
  ghost predicate BestChild(items: seq<MiningItem>, h: seq<nat>, i: nat, j: nat)
    requires IndexesOk(items, h)
  {
    && 0 < j < |h| && Up(j) == i
    && (forall k | 0 < k < |h| && Up(k) == i :: Above(items, h, j, k))
  }

  lemma SinkStep(items: seq<MiningItem>, h: seq<nat>, i: nat, j: nat)
    requires IndexesOk(items, h) && SizesOk(items) && i < |h| && BestChild(items, h, i, j)
    requires SinkingHeap(items, h, i) && Higher(items[h[j]], items[h[i]])
    ensures IndexesOk(items, Swapped(h, i, j)) && SinkingHeap(items, Swapped(h, i, j), j)
  {
  }

  lemma SinkDone(items: seq<MiningItem>, h: seq<nat>, i: nat, j: nat)
    requires IndexesOk(items, h) && SizesOk(items) && i < |h| && BestChild(items, h, i, j)
    requires SinkingHeap(items, h, i) && !Higher(items[h[j]], items[h[i]])
    ensures HeapOk(items, h)
  {
    hide IndexesOk, SizesOk, Higher;
    forall k | 0 < k < |h| ensures Above(items, h, Up(k), k) {
      if Up(k) == i {
        AboveTransitive(items, h, i, j, k);
      }
    }
  }

  lemma SelfAbove(items: seq<MiningItem>, h: seq<nat>, j: nat)
    requires IndexesOk(items, h) && SizesOk(items) && j < |h|
    ensures Above(items, h, j, j)
  {
  }

  /** The root of a heap is beaten by no entry. */
  lemma {:induction false} RootIsBest(items: seq<MiningItem>, h: seq<nat>, k: nat)
    requires IndexesOk(items, h) && SizesOk(items) && HeapOk(items, h) && k < |h|
    ensures Above(items, h, 0, k)
  {
    hide IndexesOk, SizesOk, Higher;
    if k == 0 {
      SelfAbove(items, h, 0);
    } else {
      RootIsBest(items, h, Up(k));
      AboveTransitive(items, h, 0, Up(k), k);
    }
  }

  lemma LastLeaves(items: seq<MiningItem>, h: seq<nat>)
    requires IndexesOk(items, h) && HeapOk(items, h) && |h| > 0
    ensures var g := Swapped(h, 0, |h| - 1)[..|h| - 1];
      && IndexesOk(items, g) && SinkingHeap(items, g, 0)
      && multiset(h) == multiset(g) + multiset{h[0]}
  {
    hide Higher, Above;
    var n := |h| - 1;
    var s := Swapped(h, 0, n);
    SwapKeepsContents(items, h, 0, n);
    var g := s[..n];
    assert s == g + [h[0]];
    forall k | 0 < k < |g| && Up(k) != 0 ensures Above(items, g, Up(k), k) {
      assert Above(items, h, Up(k), k);
      AboveMoves(items, h, Up(k), k, g, Up(k), k);
    }
  }

  lemma PushRises(items: seq<MiningItem>, h: seq<nat>, index: nat)
    requires IndexesOk(items, h) && HeapOk(items, h) && index < |items|
    ensures IndexesOk(items, h + [index]) && RisingHeap(items, h + [index], |h|)
  {
  }

  lemma RootBeatenByNone(items: seq<MiningItem>, h: seq<nat>)
    requires IndexesOk(items, h) && SizesOk(items) && HeapOk(items, h) && |h| > 0
    ensures forall index | index in h :: index < |items| && !Higher(items[index], items[h[0]])
  {
    hide Higher, HeapOk;
    forall k | 0 <= k < |h| ensures !Higher(items[h[k]], items[h[0]]) {
      RootIsBest(items, h, k);
    }
  }

  lemma RiseDone(items: seq<MiningItem>, h: seq<nat>, j: nat)
    requires IndexesOk(items, h) && j < |h| && RisingHeap(items, h, j)
    requires j == 0 || !Higher(items[h[j]], items[h[Up(j)]])
    ensures HeapOk(items, h)
  {
  }

  lemma SinkEnds(items: seq<MiningItem>, h: seq<nat>, i: nat)
    requires IndexesOk(items, h) && SinkingHeap(items, h, i)
    ensures 2 * i + 1 >= |h| ==> HeapOk(items, h)
  {
  }

  lemma PickBest(items: seq<MiningItem>, h: seq<nat>, i: nat, j: nat)
    requires IndexesOk(items, h) && SizesOk(items) && 2 * i + 1 < |h|
    requires j == if 2 * i + 2 < |h| && Higher(items[h[2 * i + 2]], items[h[2 * i + 1]]) then 2 * i + 2 else 2 * i + 1
    ensures BestChild(items, h, i, j)
  {
  }

  class MiningQueue {
    const items: seq<MiningItem>
    var indexes: seq<nat>

    ghost predicate Valid()
      reads this
    {
      SizesOk(items) && IndexesOk(items, indexes) && HeapOk(items, indexes)
    }

    constructor (items: seq<MiningItem>)
      requires SizesOk(items)
      ensures Valid() && this.items == items && indexes == []
    {
      this.items := items;
      indexes := [];
    }

    /** heap.Push: append and sift up. */
    method Push(index: nat)
      requires Valid() && index < |items|
      modifies this`indexes
      ensures Valid()
      ensures multiset(indexes) == multiset(old(indexes)) + multiset{index}
    {
      hide Above, Swapped, IndexesOk, SizesOk, Higher;
      PushRises(items, indexes, index);
      indexes := indexes + [index];
      ghost var contents := multiset(indexes);
      var j := |indexes| - 1;
      while j > 0 && Beats(j, Up(j))
        invariant 0 <= j < |indexes| && IndexesOk(items, indexes) && RisingHeap(items, indexes, j)
        invariant multiset(indexes) == contents
      {
        RiseStep(items, indexes, j);
        SwapKeepsContents(items, indexes, Up(j), j);
        indexes := Swapped(indexes, Up(j), j);
        j := Up(j);
      }
      RiseDone(items, indexes, j);
    }

    predicate Beats(i: nat, j: nat)
      requires IndexesOk(items, indexes) && i < |indexes| && j < |indexes|
      reads this
    {
      Higher(items[indexes[i]], items[indexes[j]])
    }

    /** heap.Pop: swap the root with the last entry, sift the new root down and drop the last entry. */
    method Pop() returns (index: nat)
      requires Valid() && |indexes| > 0
      modifies this`indexes
      ensures Valid() && index < |items|
      ensures multiset(old(indexes)) == multiset(indexes) + multiset{index}
      ensures forall k | k in old(indexes) :: !Higher(items[k], items[index])
    {
      hide Swapped, SizesOk, Higher, HeapOk, SinkingHeap;
      RootBeatenByNone(items, indexes);
      index := indexes[0];
      LastLeaves(items, indexes);
      indexes := Swapped(indexes, 0, |indexes| - 1)[..|indexes| - 1];
      SinkRoot();
    }

    method SinkRoot()
      requires SizesOk(items) && IndexesOk(items, indexes) && SinkingHeap(items, indexes, 0)
      modifies this`indexes
      ensures Valid() && multiset(indexes) == multiset(old(indexes))
    {
      hide Above, Swapped, IndexesOk, SizesOk, Higher, BestChild, SinkingHeap;
      var i := 0;
      SinkEnds(items, indexes, 0);
      while 2 * i + 1 < |indexes|
        invariant 0 <= i && (i < |indexes| || i == 0)
        invariant IndexesOk(items, indexes) && SinkingHeap(items, indexes, i)
        invariant multiset(indexes) == multiset(old(indexes))
        decreases |indexes| - i
      {
        var left := 2 * i + 1;
        var j := if left + 1 < |indexes| && Beats(left + 1, left) then left + 1 else left;
        PickBest(items, indexes, i, j);
        if !Beats(j, i) {
          SinkDone(items, indexes, i, j);
          return;
        }
        SinkStep(items, indexes, i, j);
        SwapKeepsContents(items, indexes, i, j);
        indexes := Swapped(indexes, i, j);
        i := j;
      }
      SinkEnds(items, indexes, i);
    }
  }
}
