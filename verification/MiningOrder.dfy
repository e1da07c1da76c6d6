/**
  internal/ledger/mining.go, prioritizeMempoolForMining: parent counts and child lists are built in arrays, and
  a heap of ready items is emptied, releasing children as their parents are taken.
 */
module MiningOrder {
  import opened Common
  import opened Encoding
  import opened Transactions
  import opened Priority
  import opened MiningQueues

  /** byId finds every item, and nothing else. */
  ghost predicate FindsItems(items: seq<MiningItem>, byId: map<Text, nat>) {
    && (forall i | 0 <= i < |items| :: items[i].tx.id in byId && byId[items[i].tx.id] == i)
    && (forall id | id in byId :: byId[id] < |items| && items[byId[id]].tx.id == id)
  }

  /** How many inputs spend outputs of items not yet taken. */
  function Waiting(byId: map<Text, nat>, inputs: seq<TxInput>, done: set<nat>): nat {
    if |inputs| == 0 then 0
    else
      var id := inputs[|inputs| - 1].txid;
      Waiting(byId, inputs[..|inputs| - 1], done) + if id in byId && byId[id] !in done then 1 else 0
  }

  function Times(list: seq<nat>, c: nat): nat {
    multiset(list)[c]
  }

  // ---------------------------------------------------------------- what the counts mean

  lemma {:induction false} WaitingDrop(items: seq<MiningItem>, byId: map<Text, nat>, inputs: seq<TxInput>,
                                       done: set<nat>, i: nat)
    requires FindsItems(items, byId) && i < |items| && i !in done
    ensures Waiting(byId, inputs, done) == Waiting(byId, inputs, done + {i}) + CountFrom(inputs, items[i].tx.id)
  {
    if |inputs| > 0 {
      WaitingDrop(items, byId, inputs[..|inputs| - 1], done, i);
    }
  }

  lemma {:induction false} WaitingZero(items: seq<MiningItem>, byId: map<Text, nat>, inputs: seq<TxInput>,
                                       done: set<nat>)
    requires FindsItems(items, byId)
    ensures Waiting(byId, inputs, done) == 0 <==>
      forall p: nat | p < |items| && CountFrom(inputs, items[p].tx.id) > 0 :: p in done
  {
    if |inputs| > 0 {
      var front, id := inputs[..|inputs| - 1], inputs[|inputs| - 1].txid;
      WaitingZero(items, byId, front, done);
      if id in byId && byId[id] !in done {
        assert CountFrom(inputs, items[byId[id]].tx.id) > 0;
      }
    }
  }

  lemma ReadyIsZero(items: seq<MiningItem>, byId: map<Text, nat>, done: set<nat>, c: nat)
    requires FindsItems(items, byId) && c < |items|
    ensures Ready(items, done, c) <==> c !in done && Waiting(byId, items[c].tx.inputs, done) == 0
  {
    hide FindsItems, CountFrom, Waiting;
    WaitingZero(items, byId, items[c].tx.inputs, done);
  }

  // ---------------------------------------------------------------- the arrays

  /** Edges recorded so far: every input of items before `child` and the first `k` of `child`. */
  function Recorded(items: seq<MiningItem>, child: nat, k: nat, c: nat): seq<TxInput>
    requires c < |items|
  {
    if c < child then items[c].tx.inputs
    else if c == child && k <= |items[c].tx.inputs| then items[c].tx.inputs[..k]
    else []
  }

  ghost predicate DegreesAre(items: seq<MiningItem>, byId: map<Text, nat>, degrees: seq<nat>, child: nat, k: nat) {
    && |degrees| == |items|
    && (forall c | 0 <= c < |items| :: degrees[c] == Waiting(byId, Recorded(items, child, k, c), {}))
  }

  ghost predicate ListsChildren(items: seq<MiningItem>, list: seq<nat>, child: nat, k: nat, p: nat)
    requires p < |items|
  {
    && (forall c | c in list :: c < |items|)
    && (forall c | 0 <= c < |items| :: Times(list, c) == CountFrom(Recorded(items, child, k, c), items[p].tx.id))
  }

  ghost predicate ChildrenAre(items: seq<MiningItem>, children: seq<seq<nat>>, child: nat, k: nat) {
    && |children| == |items|
    && (forall p | 0 <= p < |items| :: ListsChildren(items, children[p], child, k, p))
  }

  lemma RecordStep(items: seq<MiningItem>, child: nat, k: nat, c: nat)
    requires child < |items| && k < |items[child].tx.inputs| && c < |items|
    ensures c != child ==> Recorded(items, child, k + 1, c) == Recorded(items, child, k, c)
    ensures c == child ==>
      Recorded(items, child, k + 1, c) == Recorded(items, child, k, c) + [items[child].tx.inputs[k]]
  {
  }

  lemma WaitingSnoc(byId: map<Text, nat>, inputs: seq<TxInput>, input: TxInput, done: set<nat>)
    ensures Waiting(byId, inputs + [input], done)
         == Waiting(byId, inputs, done) + if input.txid in byId && byId[input.txid] !in done then 1 else 0
  {
  }

  lemma CountSnoc(inputs: seq<TxInput>, input: TxInput, id: Text)
    ensures CountFrom(inputs + [input], id) == CountFrom(inputs, id) + if input.txid == id then 1 else 0
  {
  }

  lemma DegreeStep(items: seq<MiningItem>, byId: map<Text, nat>, degrees: seq<nat>, child: nat, k: nat)
    requires child < |items| && k < |items[child].tx.inputs| && DegreesAre(items, byId, degrees, child, k)
    ensures var hit := items[child].tx.inputs[k].txid in byId;
      DegreesAre(items, byId, if hit then degrees[child := degrees[child] + 1] else degrees, child, k + 1)
  {
    hide Waiting, Recorded;
    var hit := items[child].tx.inputs[k].txid in byId;
    var next := if hit then degrees[child := degrees[child] + 1] else degrees;
    forall c: nat | c < |items| ensures next[c] == Waiting(byId, Recorded(items, child, k + 1, c), {}) {
      RecordStep(items, child, k, c);
      WaitingSnoc(byId, Recorded(items, child, k, child), items[child].tx.inputs[k], {});
    }
  }

  lemma ListStep(items: seq<MiningItem>, byId: map<Text, nat>, list: seq<nat>, child: nat, k: nat, p: nat)
    requires child < |items| && k < |items[child].tx.inputs| && p < |items| && FindsItems(items, byId)
    requires ListsChildren(items, list, child, k, p)
    ensures var id := items[child].tx.inputs[k].txid;
      ListsChildren(items, if id in byId && byId[id] == p then list + [child] else list, child, k + 1, p)
  {
    hide CountFrom, Recorded;
    var id := items[child].tx.inputs[k].txid;
    var next := if id in byId && byId[id] == p then list + [child] else list;
    forall c: nat | c < |items|
      ensures Times(next, c) == CountFrom(Recorded(items, child, k + 1, c), items[p].tx.id)
    {
      RecordStep(items, child, k, c);
      CountSnoc(Recorded(items, child, k, child), items[child].tx.inputs[k], items[p].tx.id);
    }
  }

  lemma ChildrenStep(items: seq<MiningItem>, byId: map<Text, nat>, children: seq<seq<nat>>, child: nat, k: nat)
    requires child < |items| && k < |items[child].tx.inputs| && FindsItems(items, byId)
    requires ChildrenAre(items, children, child, k)
    ensures var id := items[child].tx.inputs[k].txid;
      ChildrenAre(items, if id in byId then children[byId[id] := children[byId[id]] + [child]] else children, child, k + 1)
  {
    hide ListsChildren;
    var id := items[child].tx.inputs[k].txid;
    var next := if id in byId then children[byId[id] := children[byId[id]] + [child]] else children;
    forall p: nat | p < |items| ensures ListsChildren(items, next[p], child, k + 1, p) {
      ListStep(items, byId, children[p], child, k, p);
    }
  }

  lemma NextChild(items: seq<MiningItem>, byId: map<Text, nat>, degrees: seq<nat>, children: seq<seq<nat>>, child: nat)
    requires child < |items|
    requires DegreesAre(items, byId, degrees, child, |items[child].tx.inputs|)
    requires ChildrenAre(items, children, child, |items[child].tx.inputs|)
    ensures DegreesAre(items, byId, degrees, child + 1, 0) && ChildrenAre(items, children, child + 1, 0)
  {
    hide Waiting, CountFrom;
    forall c: nat | c < |items|
      ensures Recorded(items, child + 1, 0, c) == Recorded(items, child, |items[child].tx.inputs|, c)
    {
    }
  }

  lemma NothingRecorded(items: seq<MiningItem>, byId: map<Text, nat>, degrees: seq<nat>, children: seq<seq<nat>>)
    requires |degrees| == |items| && (forall c | 0 <= c < |items| :: degrees[c] == 0)
    requires |children| == |items| && (forall p | 0 <= p < |items| :: children[p] == [])
    ensures DegreesAre(items, byId, degrees, 0, 0) && ChildrenAre(items, children, 0, 0)
  {
  }

  /** The metadata pass: sizes, identifiers and the index by identifier. */
  method IndexItems(items: seq<MiningItem>) returns (ok: bool, byId: map<Text, nat>)
    ensures ok <==> MetadataOk(items)
    ensures ok ==> FindsItems(items, byId)
  {
    byId := map[];
    for i := 0 to |items|
      invariant MetadataOk(items[..i])
      invariant forall k | 0 <= k < i :: items[k].tx.id in byId && byId[items[k].tx.id] == k
      invariant forall id | id in byId :: byId[id] < i && items[byId[id]].tx.id == id
    {
      var item := items[i];
      if item.tx.id == [] || item.size == 0 || item.tx.id in byId {
        return false, byId;
      }
      byId := byId[item.tx.id := i];
    }
    assert items[..|items|] == items;
    ok := true;
  }

  method CountEdges(items: seq<MiningItem>, byId: map<Text, nat>)
    returns (indegree: array<nat>, children: array<seq<nat>>)
    requires FindsItems(items, byId)
    ensures fresh(indegree) && fresh(children) && indegree.Length == children.Length == |items|
    ensures DegreesAre(items, byId, indegree[..], |items|, 0) && ChildrenAre(items, children[..], |items|, 0)
  {
    hide DegreesAre, ChildrenAre;
    indegree := new nat[|items|](_ => 0);
    children := new seq<nat>[|items|](_ => []);
    NothingRecorded(items, byId, indegree[..], children[..]);
    for child := 0 to |items|
      invariant indegree.Length == children.Length == |items|
      invariant DegreesAre(items, byId, indegree[..], child, 0) && ChildrenAre(items, children[..], child, 0)
    {
      var inputs := items[child].tx.inputs;
      for k := 0 to |inputs|
        invariant indegree.Length == children.Length == |items|
        invariant DegreesAre(items, byId, indegree[..], child, k) && ChildrenAre(items, children[..], child, k)
      {
        DegreeStep(items, byId, indegree[..], child, k);
        ChildrenStep(items, byId, children[..], child, k);
        if inputs[k].txid in byId {
          var parent := byId[inputs[k].txid];
          ghost var degrees, lists := indegree[..], children[..];
          indegree[child] := indegree[child] + 1;
          children[parent] := children[parent] + [child];
          assert indegree[..] == degrees[child := degrees[child] + 1];
          assert children[..] == lists[parent := lists[parent] + [child]];
        }
      }
      NextChild(items, byId, indegree[..], children[..], child);
    }
  }

  // ---------------------------------------------------------------- taking items

  /** The unspent edges: a child's count still includes the `left` edges of `index` not yet released. */
  ghost predicate Releasing(items: seq<MiningItem>, byId: map<Text, nat>, degrees: seq<nat>, done: set<nat>,
                            left: seq<nat>) {
    && |degrees| == |items|
    && (forall c: nat | c < |items| :: degrees[c] == Waiting(byId, items[c].tx.inputs, done) + Times(left, c))
  }

  /** The queue holds exactly the items that nothing blocks. */
  ghost predicate QueueOk(degrees: seq<nat>, done: set<nat>, indexes: seq<nat>) {
    && (forall c: nat :: multiset(indexes)[c] == if c < |degrees| && c !in done && degrees[c] == 0 then 1 else 0)
  }

  lemma ReleaseStart(items: seq<MiningItem>, byId: map<Text, nat>, degrees: seq<nat>, children: seq<seq<nat>>,
                     done: set<nat>, index: nat)
    requires FindsItems(items, byId) && index < |items| && index !in done
    requires Releasing(items, byId, degrees, done, []) && ChildrenAre(items, children, |items|, 0)
    ensures Releasing(items, byId, degrees, done + {index}, children[index])
    ensures forall c | c in children[index] :: c < |items|
  {
    hide Waiting, CountFrom, FindsItems;
    forall c: nat | c < |items|
      ensures degrees[c] == Waiting(byId, items[c].tx.inputs, done + {index}) + Times(children[index], c)
    {
      WaitingDrop(items, byId, items[c].tx.inputs, done, index);
      assert ListsChildren(items, children[index], |items|, 0, index);
      assert Times([], c) == 0;
    }
  }

  lemma ReleaseStep(items: seq<MiningItem>, byId: map<Text, nat>, degrees: seq<nat>, done: set<nat>, left: seq<nat>)
    requires |left| > 0 && left[0] < |items| && Releasing(items, byId, degrees, done, left)
    ensures degrees[left[0]] > 0
    ensures Releasing(items, byId, degrees[left[0] := degrees[left[0]] - 1], done, left[1..])
  {
    hide Waiting;
    assert left == [left[0]] + left[1..];
  }

  lemma ReleasesWaiting(items: seq<MiningItem>, byId: map<Text, nat>, degrees: seq<nat>, done: set<nat>, c: nat)
    requires Releasing(items, byId, degrees, done, []) && c < |items|
    ensures degrees[c] == Waiting(byId, items[c].tx.inputs, done)
  {
  }

  /** An item released by `index` was blocked by it, so it is neither `index` nor taken before. */
  lemma ReleasedIsNew(items: seq<MiningItem>, byId: map<Text, nat>, children: seq<seq<nat>>, done: set<nat>,
                      index: nat, c: nat)
    requires FindsItems(items, byId) && index < |items| && index !in done && c < |items|
    requires ChildrenAre(items, children, |items|, 0) && c in children[index]
    ensures Waiting(byId, items[c].tx.inputs, done) > 0
  {
    hide Waiting, CountFrom, FindsItems;
    WaitingDrop(items, byId, items[c].tx.inputs, done, index);
    assert ListsChildren(items, children[index], |items|, 0, index);
    assert Times(children[index], c) > 0;
  }

  /** Every item already taken waits for nothing. */
  ghost predicate TakenFree(items: seq<MiningItem>, byId: map<Text, nat>, done: set<nat>) {
    forall c: nat | c in done && c < |items| :: Waiting(byId, items[c].tx.inputs, done) == 0
  }

  lemma QueueStep(degrees: seq<nat>, done: set<nat>, indexes: seq<nat>, c: nat)
    requires c < |degrees| && degrees[c] > 0 && c !in done && QueueOk(degrees, done, indexes)
    ensures var next := degrees[c := degrees[c] - 1];
      QueueOk(next, done, if next[c] == 0 then indexes + [c] else indexes)
  {
  }

  lemma QueueDepends(degrees: seq<nat>, done: set<nat>, indexes: seq<nat>, other: seq<nat>)
    requires QueueOk(degrees, done, indexes) && multiset(indexes) == multiset(other)
    ensures QueueOk(degrees, done, other)
  {
  }

  /** The inner loop: every edge out of `index` is released, and children left without parents are queued. */
  method Release(items: seq<MiningItem>, ghost byId: map<Text, nat>, indegree: array<nat>, children: array<seq<nat>>,
                 queue: MiningQueue, ghost done: set<nat>, index: nat)
    requires FindsItems(items, byId) && index < |items| && index !in done
    requires queue.Valid() && queue.items == items
    requires indegree.Length == children.Length == |items|
    requires ChildrenAre(items, children[..], |items|, 0) && Releasing(items, byId, indegree[..], done, [])
    requires QueueOk(indegree[..], done + {index}, queue.indexes)
    requires forall c | c in children[index] :: c !in done + {index}
    modifies indegree, queue`indexes
    ensures queue.Valid() && Releasing(items, byId, indegree[..], done + {index}, [])
    ensures QueueOk(indegree[..], done + {index}, queue.indexes)
  {
    hide FindsItems, ChildrenAre, Releasing, QueueOk, MiningQueue.Valid;
    ReleaseStart(items, byId, indegree[..], children[..], done, index);
    var list := children[index];
    for k := 0 to |list|
      invariant queue.Valid() && indegree.Length == |items|
      invariant Releasing(items, byId, indegree[..], done + {index}, list[k..])
      invariant QueueOk(indegree[..], done + {index}, queue.indexes)
    {
      var c := list[k];
      assert c in list;
      ghost var degrees := indegree[..];
      assert list[k..][0] == c && list[k..][1..] == list[k + 1..];
      ReleaseStep(items, byId, degrees, done + {index}, list[k..]);
      QueueStep(degrees, done + {index}, queue.indexes, c);
      indegree[c] := indegree[c] - 1;
      assert indegree[..] == degrees[c := degrees[c] - 1];
      if indegree[c] == 0 {
        ghost var waiting := queue.indexes;
        queue.Push(c);
        QueueDepends(indegree[..], done + {index}, waiting + [c], queue.indexes);
      }
    }
    assert list[|list|..] == [];
  }

  // ---------------------------------------------------------------- the whole order

  function Picked(items: seq<MiningItem>, order: seq<nat>): seq<Transaction>
    requires forall k | 0 <= k < |order| :: order[k] < |items|
  {
    seq(|order|, k requires 0 <= k < |order| => items[order[k]].tx)
  }

  ghost predicate OrderOk(items: seq<MiningItem>, byId: map<Text, nat>, order: seq<nat>) {
    && Greedy(items, order) && |order| <= |items| && TakenFree(items, byId, Taken(order))
    && (forall k | 0 <= k < |order| :: order[k] < |items|)
  }

  lemma DegreesLong(items: seq<MiningItem>, byId: map<Text, nat>, degrees: seq<nat>, done: set<nat>)
    requires Releasing(items, byId, degrees, done, [])
    ensures |degrees| == |items|
  {
  }

  lemma PoppedIsBest(items: seq<MiningItem>, byId: map<Text, nat>, degrees: seq<nat>, done: set<nat>,
                     indexes: seq<nat>, index: nat)
    requires FindsItems(items, byId) && Releasing(items, byId, degrees, done, []) && QueueOk(degrees, done, indexes)
    requires index in indexes && index < |items|
    requires forall k | k in indexes :: k < |items| && !Higher(items[k], items[index])
    ensures BestReady(items, done, index)
    ensures Waiting(byId, items[index].tx.inputs, done) == 0
  {
    hide FindsItems, Higher, Ready, Waiting, Releasing;
    assert multiset(indexes)[index] > 0;
    ReleasesWaiting(items, byId, degrees, done, index);
    ReadyIsZero(items, byId, done, index);
    assert |degrees| == |items| by { DegreesLong(items, byId, degrees, done); }
    forall j | 0 <= j < |items| && Ready(items, done, j) ensures !Higher(items[j], items[index]) {
      ReadyIsZero(items, byId, done, j);
      ReleasesWaiting(items, byId, degrees, done, j);
      assert multiset(indexes)[j] == 1;
      assert j in indexes;
    }
  }

  lemma TakenFreeStep(items: seq<MiningItem>, byId: map<Text, nat>, done: set<nat>, index: nat)
    requires FindsItems(items, byId) && TakenFree(items, byId, done) && index < |items| && index !in done
    requires Waiting(byId, items[index].tx.inputs, done) == 0
    ensures TakenFree(items, byId, done + {index})
  {
    hide FindsItems, Waiting, CountFrom;
    forall c: nat | c in done + {index} && c < |items|
      ensures Waiting(byId, items[c].tx.inputs, done + {index}) == 0
    {
      WaitingDrop(items, byId, items[c].tx.inputs, done, index);
    }
  }

  lemma OrderStep(items: seq<MiningItem>, byId: map<Text, nat>, order: seq<nat>, index: nat)
    requires FindsItems(items, byId) && OrderOk(items, byId, order)
    requires index < |items| && BestReady(items, Taken(order), index)
    requires Waiting(byId, items[index].tx.inputs, Taken(order)) == 0
    ensures OrderOk(items, byId, order + [index]) && Taken(order + [index]) == Taken(order) + {index}
    ensures index !in Taken(order)
  {
    hide FindsItems, Waiting, Greedy, TakenFree, Higher, Taken;
    var next := order + [index];
    GreedySnoc(items, order, index);
    TakenSnoc(order, index);
    TakenFreeStep(items, byId, Taken(order), index);
    GreedyDistinct(items, next);
    Indexes(|items|);
    SubsetSize(Taken(next), Below(|items|));
  }

  lemma ChildrenLong(items: seq<MiningItem>, children: seq<seq<nat>>, index: nat)
    requires ChildrenAre(items, children, |items|, 0) && index < |items|
    ensures |children| == |items| && (forall c | c in children[index] :: c < |items|)
  {
  }

  /** Children of the item just popped wait, so they are not taken yet. */
  lemma ChildrenWait(items: seq<MiningItem>, byId: map<Text, nat>, children: seq<seq<nat>>, done: set<nat>, index: nat)
    requires FindsItems(items, byId) && TakenFree(items, byId, done) && index < |items| && index !in done
    requires Waiting(byId, items[index].tx.inputs, done) == 0 && ChildrenAre(items, children, |items|, 0)
    ensures forall c | c in children[index] :: c !in done + {index}
  {
    hide FindsItems, Waiting, ChildrenAre;
    assert |children| == |items| by { ChildrenLong(items, children, index); }
    forall c | c in children[index] ensures c !in done + {index} {
      ChildrenLong(items, children, index);
      ReleasedIsNew(items, byId, children, done, index, c);
    }
  }

  lemma QueuePopped(degrees: seq<nat>, done: set<nat>, indexes: seq<nat>, rest: seq<nat>, index: nat)
    requires QueueOk(degrees, done, indexes) && multiset(indexes) == multiset(rest) + multiset{index}
    ensures QueueOk(degrees, done + {index}, rest) && index in indexes
  {
  }

  lemma EmptyQueueIsStuck(items: seq<MiningItem>, byId: map<Text, nat>, degrees: seq<nat>, done: set<nat>)
    requires FindsItems(items, byId) && Releasing(items, byId, degrees, done, []) && QueueOk(degrees, done, [])
    ensures Stuck(items, done)
  {
    hide FindsItems, Waiting, Releasing, CountFrom;
    DegreesLong(items, byId, degrees, done);
    forall i: nat | i < |items| && i !in done
      ensures exists p: nat :: p < |items| && p !in done && IsParent(items, p, i)
    {
      ReleasesWaiting(items, byId, degrees, done, i);
      assert multiset([])[i] == 0;
      WaitingZero(items, byId, items[i].tx.inputs, done);
      var p: nat :| p < |items| && CountFrom(items[i].tx.inputs, items[p].tx.id) > 0 && p !in done;
      assert IsParent(items, p, i);
    }
  }

  lemma LeftOver(items: seq<MiningItem>, order: seq<nat>) returns (start: nat)
    requires Greedy(items, order) && |order| < |items|
    ensures start < |items| && start !in Taken(order)
  {
    hide Greedy, Taken;
    GreedyDistinct(items, order);
    Indexes(|items|);
    if Below(|items|) <= Taken(order) {
      SubsetSize(Below(|items|), Taken(order));
      assert false;
    }
    start :| start in Below(|items|) && start !in Taken(order);
  }

  /** heap.Init on an empty queue, then every item without pending parents is pushed. */
  method FirstReady(items: seq<MiningItem>, indegree: array<nat>) returns (queue: MiningQueue)
    requires SizesOk(items) && indegree.Length == |items|
    ensures fresh(queue) && queue.Valid() && queue.items == items
    ensures QueueOk(indegree[..], {}, queue.indexes)
  {
    hide MiningQueue.Valid;
    queue := new MiningQueue(items);
    for index := 0 to |items|
      invariant fresh(queue) && queue.Valid() && queue.items == items
      invariant forall c: nat ::
        multiset(queue.indexes)[c] == if c < index && indegree[c] == 0 then 1 else 0
    {
      if indegree[index] == 0 {
        queue.Push(index);
      }
    }
  }

  ghost predicate OrderInRange(items: seq<MiningItem>, order: seq<nat>) {
    forall k | 0 <= k < |order| :: order[k] < |items|
  }

  lemma OrderFacts(items: seq<MiningItem>, byId: map<Text, nat>, order: seq<nat>)
    requires OrderOk(items, byId, order)
    ensures Greedy(items, order) && |order| <= |items| && TakenFree(items, byId, Taken(order))
    ensures OrderInRange(items, order)
  {
  }

  lemma QueueInRange(items: seq<MiningItem>, byId: map<Text, nat>, degrees: seq<nat>, done: set<nat>, indexes: seq<nat>)
    requires Releasing(items, byId, degrees, done, []) && QueueOk(degrees, done, indexes)
    ensures forall k | k in indexes :: k < |items|
  {
    hide Waiting;
    forall k | k in indexes ensures k < |items| {
      assert multiset(indexes)[k] > 0;
    }
  }

  lemma FirstReleasing(items: seq<MiningItem>, byId: map<Text, nat>, degrees: seq<nat>, children: seq<seq<nat>>)
    requires DegreesAre(items, byId, degrees, |items|, 0)
    ensures Releasing(items, byId, degrees, {}, []) && OrderOk(items, byId, [])
    ensures Taken([]) == {}
  {
  }

  lemma Verdict(items: seq<MiningItem>, order: seq<nat>)
    requires Greedy(items, order) && |order| <= |items| && Stuck(items, Taken(order))
    ensures |order| == |items| <==> !exists walk :: Cycle(items, walk)
  {
    hide Greedy, Stuck, Cycle, Taken;
    if |order| == |items| {
      forall walk ensures !Cycle(items, walk) {
        CompleteMeansAcyclic(items, order, walk);
      }
    } else {
      var start := LeftOver(items, order);
      var walk := StuckMeansCycle(items, Taken(order), start);
    }
  }

  /**
    prioritizeMempoolForMining. A list with valid, distinct metadata is ordered exactly when its dependency graph
    has no cycle; the result then is the greedy order of the whole list.
   */
  method Prioritize(items: seq<MiningItem>) returns (r: Option<seq<Transaction>>, ghost order: seq<nat>)
    ensures r.Some? <==> MetadataOk(items) && !exists walk :: Cycle(items, walk)
    ensures r.Some? ==> Greedy(items, order) && |order| == |items| && OrderInRange(items, order) && r.value == Picked(items, order)
  {
    hide FindsItems, Releasing, QueueOk, ChildrenAre, OrderOk, Cycle, MiningQueue.Valid, DegreesAre, IsParent, Higher;
    order := [];
    var ok, byId := IndexItems(items);
    if !ok {
      return None, [];
    }
    var indegree, children := CountEdges(items, byId);
    FirstReleasing(items, byId, indegree[..], children[..]);
    var queue := FirstReady(items, indegree);
    var transactions := [];
    while |queue.indexes| > 0
      invariant fresh(indegree) && fresh(children) && fresh(queue)
      invariant indegree.Length == children.Length == |items| && queue.items == items && queue.Valid()
      invariant ChildrenAre(items, children[..], |items|, 0)
      invariant OrderOk(items, byId, order) && OrderInRange(items, order) && |order| <= |items|
      invariant Releasing(items, byId, indegree[..], Taken(order), [])
      invariant QueueOk(indegree[..], Taken(order), queue.indexes)
      invariant transactions == Picked(items, order)
      decreases |items| - |order|
    {
      ghost var ready := queue.indexes;
      var index := queue.Pop();
      QueuePopped(indegree[..], Taken(order), ready, queue.indexes, index);
      QueueInRange(items, byId, indegree[..], Taken(order), ready);
      PoppedIsBest(items, byId, indegree[..], Taken(order), ready, index);
      OrderStep(items, byId, order, index);
      OrderFacts(items, byId, order);
      ChildrenWait(items, byId, children[..], Taken(order), index);
      transactions := transactions + [items[index].tx];
      Release(items, byId, indegree, children, queue, Taken(order), index);
      OrderFacts(items, byId, order + [index]);
      order := order + [index];
    }
    OrderFacts(items, byId, order);
    assert queue.indexes == [];
    EmptyQueueIsStuck(items, byId, indegree[..], Taken(order));
    Verdict(items, order);
    r := if |transactions| != |items| then None else Some(transactions);
  }
}
