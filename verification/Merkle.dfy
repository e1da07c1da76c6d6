/** internal/core/block.go, merkleRoot: the tree over transaction identifiers and what its root commits to. */
module Merkle {
  import opened Common
  import opened Encoding
  import opened Transactions
  import opened Headers

  datatype Block = Block(header: Header, txs: seq<Transaction>)

  function Node(left: Hash, right: Hash): Hash {
    Sha([Raw(left), Raw(right)])
  }

  /** One level up: neighbours are hashed in pairs and the last node of an odd level is paired with itself. */
  function NextLevel(level: seq<Hash>): (r: seq<Hash>)
    ensures |r| == (|level| + 1) / 2
  {
    seq((|level| + 1) / 2, i requires 0 <= i < (|level| + 1) / 2 =>
      Node(level[2 * i], if 2 * i + 1 < |level| then level[2 * i + 1] else level[2 * i]))
  }

  function Root(level: seq<Hash>): Hash
    requires |level| > 0
    decreases |level|
  {
    if |level| == 1 then level[0] else Root(NextLevel(level))
  }

  predicate IdsDecode(txs: seq<Transaction>) {
    forall i | 0 <= i < |txs| :: DecodeHash(txs[i].id).Some?
  }

  function Leaves(txs: seq<Transaction>): (r: seq<Hash>)
    requires IdsDecode(txs)
    ensures |r| == |txs|
  {
    seq(|txs|, i requires 0 <= i < |txs| => DecodeHash(txs[i].id).value)
  }

  function MerkleRoot(txs: seq<Transaction>): Text {
    if |txs| == 0 then HashHex([])
    else if !IdsDecode(txs) then []
    else [Hex(Root(Leaves(txs)))]
  }

  method PairUp(level: seq<Hash>) returns (next: seq<Hash>)
    requires |level| > 0
    ensures next == NextLevel(level)
  {
    next := [];
    var i := 0;
    while i < |level|
      invariant 0 <= i <= |level| + 1 && i == 2 * |next| && |next| <= |NextLevel(level)|
      invariant next == NextLevel(level)[..|next|]
    {
      var right := level[i];
      if i + 1 < |level| {
        right := level[i + 1];
      }
      next := next + [Node(level[i], right)];
      i := i + 2;
    }
  }

  method ComputeMerkleRoot(txs: seq<Transaction>) returns (root: Text)
    ensures root == MerkleRoot(txs)
  {
    if |txs| == 0 {
      return HashHex([]);
    }
    var level: seq<Hash> := [];
    for i := 0 to |txs|
      invariant |level| == i
      invariant forall j | 0 <= j < i :: DecodeHash(txs[j].id) == Some(level[j])
    {
      var decoded := DecodeHash(txs[i].id);
      if decoded.None? {
        return [];
      }
      level := level + [decoded.value];
    }
    assert level == Leaves(txs);
    while |level| > 1
      invariant |level| > 0 && Root(level) == Root(Leaves(txs))
      decreases |level|
    {
      level := PairUp(level);
    }
    return [Hex(level[0])];
  }

  // ---------------------------------------------------------------- what the root commits to

  predicate IsNode(h: Hash) {
    h.Sha? && |h.preimage| == 2 && h.preimage[0].Raw? && h.preimage[1].Raw?
  }

  /** How many levels of pairing lie under a digest, following left children. */
  function Rank(h: Hash): nat {
    if IsNode(h) then 1 + Rank(h.preimage[0].digest) else 0
  }

  predicate Distinct<T(==)>(s: seq<T>) {
    forall i, j | 0 <= i < j < |s| :: s[i] != s[j]
  }

  predicate AllRank(level: seq<Hash>, r: nat) {
    forall i | 0 <= i < |level| :: Rank(level[i]) == r
  }

  lemma NodeInjective(a: Hash, b: Hash, x: Hash, y: Hash)
    requires Node(a, b) == Node(x, y)
    ensures a == x && b == y
  {
  }

  lemma NextLevelKeeps(level: seq<Hash>, r: nat)
    requires AllRank(level, r) && Distinct(level)
    ensures AllRank(NextLevel(level), r + 1) && Distinct(NextLevel(level))
  {
  }

  lemma {:induction false} RootRank(level: seq<Hash>, r: nat)
    requires |level| > 0 && AllRank(level, r) && Distinct(level)
    ensures Rank(Root(level)) >= r
    ensures Rank(Root(level)) == r <==> |level| == 1
    decreases |level|
  {
    if |level| > 1 {
      NextLevelKeeps(level, r);
      RootRank(NextLevel(level), r + 1);
    }
  }

  lemma PairingInjective(a: seq<Hash>, b: seq<Hash>)
    requires Distinct(a) && Distinct(b) && NextLevel(a) == NextLevel(b)
    ensures a == b
  {
    var next := NextLevel(a);
    forall k | 0 <= k < |next|
      ensures 2 * k < |a| && 2 * k < |b| && a[2 * k] == b[2 * k]
      ensures (2 * k + 1 < |a| <==> 2 * k + 1 < |b|) && (2 * k + 1 < |a| ==> a[2 * k + 1] == b[2 * k + 1])
    {
      assert NextLevel(a)[k] == NextLevel(b)[k];
      NodeInjective(a[2 * k], if 2 * k + 1 < |a| then a[2 * k + 1] else a[2 * k],
                    b[2 * k], if 2 * k + 1 < |b| then b[2 * k + 1] else b[2 * k]);
    }
    if |a| > 0 {
      var k := |next| - 1;
      assert 2 * k + 1 < |a| <==> 2 * k + 1 < |b|;
    }
    forall i | 0 <= i < |a| ensures a[i] == b[i] {
      assert a[2 * (i / 2)] == b[2 * (i / 2)];
    }
  }

  /** Levels without repetition are determined by their root, duplication of the last node notwithstanding. */
  lemma {:induction false} RootBindsLevel(a: seq<Hash>, b: seq<Hash>, r: nat)
    requires |a| > 0 && |b| > 0 && Root(a) == Root(b)
    requires AllRank(a, r) && AllRank(b, r) && Distinct(a) && Distinct(b)
    ensures a == b
    decreases |a| + |b|
  {
    RootRank(a, r);
    RootRank(b, r);
    if |a| > 1 {
      NextLevelKeeps(a, r);
      NextLevelKeeps(b, r);
      RootBindsLevel(NextLevel(a), NextLevel(b), r + 1);
      PairingInjective(a, b);
    }
  }

  /** Identifiers are computed and pairwise distinct, as in every accepted block. */
  predicate SoundBody(txs: seq<Transaction>) {
    && (forall i | 0 <= i < |txs| :: txs[i].id == ComputeId(txs[i]) && InMemory(txs[i]))
    && (forall i, j | 0 <= i < j < |txs| :: txs[i].id != txs[j].id)
  }

  lemma SoundLeaves(txs: seq<Transaction>)
    requires SoundBody(txs)
    ensures IdsDecode(txs) && AllRank(Leaves(txs), 0) && Distinct(Leaves(txs))
    ensures forall i | 0 <= i < |txs| :: Leaves(txs)[i] != Sha([])
  {
  }

  lemma SameIdsSameBodies(a: seq<Transaction>, b: seq<Transaction>)
    requires SoundBody(a) && SoundBody(b) && Leaves(a) == Leaves(b)
    requires IdsDecode(a) && IdsDecode(b)
    ensures a == b
  {
    hide ComputeId;
    forall i | 0 <= i < |a| ensures a[i] == b[i] {
      assert a[i].id == [Hex(Leaves(a)[i])] && b[i].id == [Hex(Leaves(b)[i])];
      IdBindsTransaction(a[i], b[i]);
    }
  }

  /** Two sound bodies have the same Merkle root exactly when they are the same list of transactions. */
  lemma MerkleRootBindsBody(a: seq<Transaction>, b: seq<Transaction>)
    requires SoundBody(a) && SoundBody(b)
    ensures MerkleRoot(a) == MerkleRoot(b) <==> a == b
  {
    hide SoundBody, Leaves;
    SoundLeaves(a);
    SoundLeaves(b);
    if MerkleRoot(a) == MerkleRoot(b) {
      if |a| > 0 {
        assert MerkleRoot(a)[0].digest == Root(Leaves(a));
        RootRank(Leaves(a), 0);
      }
      if |b| > 0 {
        assert MerkleRoot(b)[0].digest == Root(Leaves(b));
        RootRank(Leaves(b), 0);
      }
      if |a| > 0 && |b| > 0 {
        RootBindsLevel(Leaves(a), Leaves(b), 0);
        SameIdsSameBodies(a, b);
      } else {
        assert HashHex([])[0].digest == Sha([]);
      }
    }
  }

  /**
    The block hash commits to the whole block: two blocks that carry their own hash and Merkle root, with
    sound bodies, have equal hashes exactly when they are equal.
   */
  lemma HashBindsBlock(a: Block, b: Block)
    requires LinksInMemory(a.header) && LinksInMemory(b.header)
    requires a.header.hash == ComputeHash(a.header) && b.header.hash == ComputeHash(b.header)
    requires a.header.merkleRoot == MerkleRoot(a.txs) && b.header.merkleRoot == MerkleRoot(b.txs)
    requires SoundBody(a.txs) && SoundBody(b.txs)
    ensures a.header.hash == b.header.hash <==> a == b
  {
    hide SoundBody, MerkleRoot, ComputeHash;
    HashBindsHeader(a.header, b.header);
    MerkleRootBindsBody(a.txs, b.txs);
  }

  lemma RootUnfolds(level: seq<Hash>)
    requires |level| > 1
    ensures Root(level) == Root(NextLevel(level))
  {
  }

  /**
    Distinct identifiers are needed: repeating the last transaction of an odd list leaves the root alone,
    so the root by itself does not determine the body.
   */
  lemma RepeatedTailKeepsRoot(x: Transaction, y: Transaction, z: Transaction)
    requires IdsDecode([x, y, z])
    ensures MerkleRoot([x, y, z]) == MerkleRoot([x, y, z, z])
  {
    hide DecodeHash, Root;
    assert IdsDecode([x, y, z, z]) by {
      assert forall i | 0 <= i < 4 :: [x, y, z, z][i] in [x, y, z];
    }
    var a, b := Leaves([x, y, z]), Leaves([x, y, z, z]);
    assert NextLevel(a) == NextLevel(b);
    RootUnfolds(a);
    RootUnfolds(b);
  }

  lemma OneLeaf(h: Hash)
    ensures Root([h]) == h
  {
  }

  lemma TreeOf(txs: seq<Transaction>, leaves: seq<Hash>)
    requires |txs| == |leaves| > 0 && (forall i | 0 <= i < |txs| :: DecodeHash(txs[i].id) == Some(leaves[i]))
    ensures MerkleRoot(txs) == [Hex(Root(leaves))]
  {
    hide DecodeHash, Root;
    assert Leaves(txs) == leaves;
  }

  /** The smallest trees: nothing, one leaf, a pair, and a pair beside a leaf paired with itself. */
  lemma SmallTrees(x: Transaction, y: Transaction, z: Transaction)
    requires DecodeHash(x.id).Some? && DecodeHash(y.id).Some? && DecodeHash(z.id).Some?
    ensures var (a, b, d) := (DecodeHash(x.id).value, DecodeHash(y.id).value, DecodeHash(z.id).value);
      && MerkleRoot([]) == HashHex([]) && MerkleRoot([x]) == [Hex(a)] && MerkleRoot([x, y]) == [Hex(Sha([Raw(a), Raw(b)]))]
      && MerkleRoot([x, y, z]) == [Hex(Sha([Raw(Sha([Raw(a), Raw(b)])), Raw(Sha([Raw(d), Raw(d)]))]))]
  {
    hide DecodeHash, Root;
    var a, b, d := DecodeHash(x.id).value, DecodeHash(y.id).value, DecodeHash(z.id).value;
    TreeOf([x], [a]);
    TreeOf([x, y], [a, b]);
    TreeOf([x, y, z], [a, b, d]);
    RootUnfolds([a, b]);
    RootUnfolds([a, b, d]);
    assert NextLevel([a, b]) == [Node(a, b)];
    assert NextLevel([a, b, d]) == [Node(a, b), Node(d, d)];
    assert NextLevel([Node(a, b), Node(d, d)]) == [Node(Node(a, b), Node(d, d))];
    RootUnfolds([Node(a, b), Node(d, d)]);
    OneLeaf(a);
    OneLeaf(Node(a, b));
    OneLeaf(Node(Node(a, b), Node(d, d)));
  }
}
