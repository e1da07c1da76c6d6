/**
  internal/ledger/mining.go, prioritizeMempoolForMining: a topological order of the mempool that always takes
  the ready transaction with the best fee rate.
 */
module Priority {
  import opened Common
  import opened Encoding
  import opened Transactions

  datatype MiningItem = MiningItem(tx: Transaction, fee: uint64, size: uint64, sequence: int)

  // ---------------------------------------------------------------- the comparison

  /** bits.Mul64: the 128-bit product as two 64-bit words. */
  function Mul64(a: uint64, b: uint64): (r: (int, int))
    ensures r.0 * 0x1_0000_0000_0000_0000 + r.1 == a * b && 0 <= r.1 <= MAX_UINT64
  {
    (a * b / 0x1_0000_0000_0000_0000, a * b % 0x1_0000_0000_0000_0000)
  }

  predicate Higher(left: MiningItem, right: MiningItem) {
    var (leftHigh, leftLow) := Mul64(left.fee, right.size);
    var (rightHigh, rightLow) := Mul64(right.fee, left.size);
    if leftHigh != rightHigh then leftHigh > rightHigh
    else if leftLow != rightLow then leftLow > rightLow
    else if left.fee != right.fee then left.fee > right.fee
    else left.sequence < right.sequence
  }

  /** The comparison of words is the comparison of exact products: fee rate first, then fee, then age. */
  lemma HigherMeaning(a: MiningItem, b: MiningItem)
    ensures Higher(a, b) <==>
      || a.fee * b.size > b.fee * a.size
      || (a.fee * b.size == b.fee * a.size && (a.fee > b.fee || (a.fee == b.fee && a.sequence < b.sequence)))
  {
  }

  lemma RateTransitive(fa: nat, sa: nat, fb: nat, sb: nat, fc: nat, sc: nat)
    requires sa > 0 && sb > 0 && sc > 0
    requires fa * sb >= fb * sa && fb * sc >= fc * sb
    ensures fa * sc >= fc * sa
    ensures fa * sb > fb * sa || fb * sc > fc * sb ==> fa * sc > fc * sa
  {
  }

  /** On items of positive size and distinct age the comparison is a strict total order. */
  lemma HigherIsStrictTotalOrder(a: MiningItem, b: MiningItem, d: MiningItem)
    requires a.size > 0 && b.size > 0 && d.size > 0
    ensures !Higher(a, a)
    ensures Higher(a, b) ==> !Higher(b, a)
    ensures a.sequence != b.sequence ==> Higher(a, b) || Higher(b, a)
    ensures Higher(a, b) && Higher(b, d) ==> Higher(a, d)
  {
    hide Higher;
    HigherMeaning(a, a);
    HigherMeaning(a, b);
    HigherMeaning(b, a);
    HigherMeaning(b, d);
    HigherMeaning(a, d);
    if Higher(a, b) && Higher(b, d) {
      RateTransitive(a.fee, a.size, b.fee, b.size, d.fee, d.size);
      if a.fee * b.size == b.fee * a.size && b.fee * d.size == d.fee * b.size {
        RateTransitive(d.fee, d.size, b.fee, b.size, a.fee, a.size);
      }
    }
  }

  /** Not being beaten is transitive, ties of the whole key included. */
  lemma NotHigherTransitive(a: MiningItem, b: MiningItem, d: MiningItem)
    requires a.size > 0 && b.size > 0 && d.size > 0
    requires !Higher(b, a) && !Higher(d, b)
    ensures !Higher(d, a)
  {
    hide Higher;
    HigherMeaning(b, a);
    HigherMeaning(d, b);
    HigherMeaning(d, a);
    RateTransitive(a.fee, a.size, b.fee, b.size, d.fee, d.size);
    if a.fee * b.size == b.fee * a.size && b.fee * d.size == d.fee * b.size {
      RateTransitive(d.fee, d.size, b.fee, b.size, a.fee, a.size);
    }
  }

  // ---------------------------------------------------------------- the dependency graph

  predicate MetadataOk(items: seq<MiningItem>) {
    && (forall i | 0 <= i < |items| :: items[i].tx.id != [] && items[i].size > 0)
    && (forall i, j | 0 <= i < j < |items| :: items[i].tx.id != items[j].tx.id)
  }

  /** How many inputs spend outputs of transaction `id`. */
  function CountFrom(inputs: seq<TxInput>, id: Text): nat {
    if |inputs| == 0 then 0
    else CountFrom(inputs[..|inputs| - 1], id) + if inputs[|inputs| - 1].txid == id then 1 else 0
  }

  /** Item `parent` creates an output that item `child` spends. */
  predicate IsParent(items: seq<MiningItem>, parent: nat, child: nat) {
    parent < |items| && child < |items| && CountFrom(items[child].tx.inputs, items[parent].tx.id) > 0
  }

  /** An item can be taken once all its pending parents are. */
  predicate Ready(items: seq<MiningItem>, done: set<nat>, i: nat) {
    i < |items| && i !in done && (forall p | 0 <= p < |items| && IsParent(items, p, i) :: p in done)
  }

  function Taken(order: seq<nat>): set<nat> {
    set k | 0 <= k < |order| :: order[k]
  }

  predicate BestReady(items: seq<MiningItem>, done: set<nat>, i: nat) {
    && Ready(items, done, i)
    && (forall j | 0 <= j < |items| && Ready(items, done, j) :: !Higher(items[j], items[i]))
  }

  /** Every position holds the best item that was ready at that point. */
  predicate Greedy(items: seq<MiningItem>, order: seq<nat>) {
    forall k | 0 <= k < |order| :: BestReady(items, Taken(order[..k]), order[k])
  }

  /** A walk from child to parent that comes back to where it started. */
  predicate Cycle(items: seq<MiningItem>, walk: seq<nat>) {
    && |walk| >= 2 && walk[0] == walk[|walk| - 1]
    && (forall k | 0 <= k < |walk| - 1 :: IsParent(items, walk[k + 1], walk[k]))
  }

  // ---------------------------------------------------------------- properties of greedy orders

  lemma TakenSnoc(order: seq<nat>, i: nat)
    ensures Taken(order + [i]) == Taken(order) + {i}
  {
    var next := order + [i];
    forall x | x in Taken(order) + {i} ensures x in Taken(next) {
      if x in Taken(order) {
        var k :| 0 <= k < |order| && order[k] == x;
        assert next[k] == x;
      } else {
        assert next[|order|] == i;
      }
    }
  }

  lemma GreedySnoc(items: seq<MiningItem>, order: seq<nat>, i: nat)
    requires Greedy(items, order) && BestReady(items, Taken(order), i)
    ensures Greedy(items, order + [i])
  {
    var next := order + [i];
    assert next[..|order|] == order;
    assert forall k | 0 <= k < |order| :: next[..k] == order[..k];
  }

  lemma BestReadyFacts(items: seq<MiningItem>, order: seq<nat>, k: nat)
    requires Greedy(items, order) && k < |order|
    ensures order[k] < |items| && order[k] !in Taken(order[..k])
    ensures forall p | 0 <= p < |items| && IsParent(items, p, order[k]) :: p in Taken(order[..k])
  {
  }

  lemma NeverRepeats(items: seq<MiningItem>, order: seq<nat>, a: nat, b: nat)
    requires Greedy(items, order) && a < b < |order|
    ensures order[a] != order[b]
  {
  }

  /** A greedy order never repeats an item, and puts every pending parent before its children. */
  lemma GreedyIsTopological(items: seq<MiningItem>, order: seq<nat>, a: nat, b: nat)
    requires Greedy(items, order) && a < |order| && b < |order|
    ensures a != b ==> order[a] != order[b]
    ensures IsParent(items, order[a], order[b]) ==> a < b
  {
  }

  lemma GreedyPrefix(items: seq<MiningItem>, order: seq<nat>, n: nat)
    requires Greedy(items, order) && n <= |order|
    ensures Greedy(items, order[..n])
  {
    hide BestReady, Taken;
    forall k | 0 <= k < n ensures BestReady(items, Taken(order[..n][..k]), order[..n][k]) {
      assert order[..n][..k] == order[..k];
    }
  }

  function Below(n: nat): set<nat> {
    if n == 0 then {} else Below(n - 1) + {n - 1}
  }

  lemma {:induction false} Indexes(n: nat)
    ensures |Below(n)| == n && (forall i: nat :: i in Below(n) <==> i < n)
  {
    if n > 0 {
      Indexes(n - 1);
    }
  }

  lemma {:induction false} GreedyDistinct(items: seq<MiningItem>, order: seq<nat>)
    requires Greedy(items, order)
    ensures |Taken(order)| == |order| && Taken(order) <= Below(|items|)
  {
    hide Greedy, IsParent;
    if |order| > 0 {
      var last := |order| - 1;
      GreedyPrefix(items, order, last);
      GreedyDistinct(items, order[..last]);
      BestReadyFacts(items, order, last);
      Indexes(|items|);
      TakenSnoc(order[..last], order[last]);
      assert order[..last] + [order[last]] == order;
    }
  }

  lemma SubsetSize(a: set<nat>, b: set<nat>)
    requires a <= b
    ensures |a| <= |b| && (|a| == |b| ==> a == b)
  {
    assert b == a + (b - a);
    assert |b| == |a| + |b - a|;
  }

  /** A greedy order as long as the list is a permutation of it. */
  lemma CompleteIsPermutation(items: seq<MiningItem>, order: seq<nat>, i: nat)
    requires Greedy(items, order) && |order| == |items| && i < |items|
    ensures exists k: nat :: k < |order| && order[k] == i
  {
    hide Greedy;
    GreedyDistinct(items, order);
    Indexes(|items|);
    SubsetSize(Taken(order), Below(|items|));
    assert i in Taken(order);
  }

  lemma ReadyIsIndex(items: seq<MiningItem>, done: set<nat>, i: nat)
    requires Ready(items, done, i)
    ensures i < |items|
  {
  }

  /** On a list without repeated sequence numbers the greedy rule leaves no choice: two complete greedy orders are the same. */
  lemma {:induction false} GreedyIsUnique(items: seq<MiningItem>, a: seq<nat>, b: seq<nat>, n: nat)
    requires MetadataOk(items) && Greedy(items, a) && Greedy(items, b) && n <= |a| && n <= |b|
    requires forall i, j | 0 <= i < j < |items| :: items[i].sequence != items[j].sequence
    ensures a[..n] == b[..n]
  {
    hide Higher, Ready;
    if n > 0 {
      GreedyIsUnique(items, a, b, n - 1);
      var x, y := a[n - 1], b[n - 1];
      assert BestReady(items, Taken(a[..n - 1]), x) && BestReady(items, Taken(a[..n - 1]), y);
      ReadyIsIndex(items, Taken(a[..n - 1]), x);
      ReadyIsIndex(items, Taken(a[..n - 1]), y);
      HigherIsStrictTotalOrder(items[x], items[y], items[y]);
      assert a[..n] == a[..n - 1] + [x] && b[..n] == b[..n - 1] + [y];
    }
  }

  // ---------------------------------------------------------------- cycles

  lemma {:induction false} PositionsFall(items: seq<MiningItem>, order: seq<nat>, walk: seq<nat>, n: nat)
    returns (first: nat, last: nat)
    requires Greedy(items, order) && |order| == |items| && 0 < n < |walk|
    requires forall k | 0 <= k < n :: IsParent(items, walk[k + 1], walk[k])
    ensures last < first < |order| && order[first] == walk[0] && order[last] == walk[n]
  {
    hide Greedy;
    assert IsParent(items, walk[n - 1 + 1], walk[n - 1]);
    CompleteIsPermutation(items, order, walk[n]);
    last :| last < |order| && order[last] == walk[n];
    var before: nat;
    if n == 1 {
      CompleteIsPermutation(items, order, walk[0]);
      first :| first < |order| && order[first] == walk[0];
      before := first;
    } else {
      first, before := PositionsFall(items, order, walk, n - 1);
    }
    GreedyIsTopological(items, order, last, before);
  }

  /** A complete greedy order rules out every cycle. */
  lemma CompleteMeansAcyclic(items: seq<MiningItem>, order: seq<nat>, walk: seq<nat>)
    requires Greedy(items, order) && |order| == |items|
    ensures !Cycle(items, walk)
  {
    if Cycle(items, walk) {
      var first, last := PositionsFall(items, order, walk, |walk| - 1);
      GreedyIsTopological(items, order, first, last);
    }
  }

  /** Every item left over waits for another item left over. */
  ghost predicate Stuck(items: seq<MiningItem>, done: set<nat>) {
    forall i: nat | i < |items| && i !in done :: exists p: nat :: p < |items| && p !in done && IsParent(items, p, i)
  }

  ghost predicate Walk(items: seq<MiningItem>, done: set<nat>, walk: seq<nat>) {
    && (forall k | 0 <= k < |walk| :: walk[k] < |items| && walk[k] !in done)
    && (forall k | 0 <= k < |walk| - 1 :: IsParent(items, walk[k + 1], walk[k]))
  }

  lemma WalkSnoc(items: seq<MiningItem>, done: set<nat>, walk: seq<nat>, p: nat)
    requires Walk(items, done, walk) && |walk| > 0
    requires p < |items| && p !in done && IsParent(items, p, walk[|walk| - 1])
    ensures Walk(items, done, walk + [p])
  {
  }

  lemma NextWaiting(items: seq<MiningItem>, done: set<nat>, i: nat) returns (p: nat)
    requires Stuck(items, done) && i < |items| && i !in done
    ensures p < |items| && p !in done && IsParent(items, p, i)
  {
    hide IsParent;
    p :| p < |items| && p !in done && IsParent(items, p, i);
  }

  /** A walk along waiting items of any length. */
  lemma {:induction false} LongWalk(items: seq<MiningItem>, done: set<nat>, start: nat, n: nat) returns (walk: seq<nat>)
    requires Stuck(items, done) && start < |items| && start !in done
    ensures |walk| == n + 1 && Walk(items, done, walk)
  {
    hide IsParent, Stuck;
    if n == 0 {
      walk := [start];
    } else {
      walk := LongWalk(items, done, start, n - 1);
      var p := NextWaiting(items, done, walk[n - 1]);
      WalkSnoc(items, done, walk, p);
      walk := walk + [p];
    }
  }

  lemma {:induction false} DistinctTaken(walk: seq<nat>)
    requires forall i, j | 0 <= i < j < |walk| :: walk[i] != walk[j]
    ensures |Taken(walk)| == |walk|
  {
    if |walk| > 0 {
      var front := walk[..|walk| - 1];
      DistinctTaken(front);
      TakenSnoc(front, walk[|walk| - 1]);
      assert front + [walk[|walk| - 1]] == walk;
    }
  }

  /** Pigeonhole: a long enough list of indexes repeats one. */
  lemma Repeats(walk: seq<nat>, n: nat) returns (i: nat, j: nat)
    requires |walk| > n && (forall k | 0 <= k < |walk| :: walk[k] < n)
    ensures i < j < |walk| && walk[i] == walk[j]
  {
    if forall x, y | 0 <= x < y < |walk| :: walk[x] != walk[y] {
      DistinctTaken(walk);
      Indexes(n);
      SubsetSize(Taken(walk), Below(n));
      assert false;
    }
    i, j :| i < j < |walk| && walk[i] == walk[j];
  }

  /** When some item is left and none can be taken, the dependency graph has a cycle. */
  lemma StuckMeansCycle(items: seq<MiningItem>, done: set<nat>, start: nat) returns (walk: seq<nat>)
    requires Stuck(items, done) && start < |items| && start !in done
    ensures Cycle(items, walk)
  {
    hide Stuck, IsParent;
    var long := LongWalk(items, done, start, |items|);
    var i, j := Repeats(long, |items|);
    walk := long[i..j + 1];
    forall k | 0 <= k < |walk| - 1 ensures IsParent(items, walk[k + 1], walk[k]) {
      assert IsParent(items, long[i + k + 1], long[i + k]);
    }
  }
}
