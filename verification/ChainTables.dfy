/** The tables built from a whole chain: what they hold, and that they exist exactly when the chain replays. */
module ChainTables {
  import opened Common
  import opened Transactions
  import opened Headers
  import opened Merkle
  import opened Replay
  import opened Tables
  import opened Refinement

  /** Cumulative work stored with the block at position i. */
  function WorkThrough(hs: seq<Header>, i: nat): nat
    requires i < |hs|
  {
    ChainWork(hs[..i + 1])
  }

  /** Block rows and undo keys of a chain. */
  ghost predicate ChainRows(t: Tables, chain: seq<Block>) {
    && |t.blocks| == |chain| > 0
    && (forall i | 0 <= i < |chain| ::
          t.blocks[i] == BlockRow(chain[i].header, WorkThrough(HeadersOf(chain), i), Some(chain[i])))
    && (forall h :: h in t.undo <==> 0 < h < |chain|)
    && (forall h | h in t.undo :: t.undo[h].hash == chain[h].header.hash)
  }

  lemma ChainRowsHeaders(t: Tables, chain: seq<Block>)
    requires ChainRows(t, chain)
    ensures HeaderRows(t.blocks) == HeadersOf(chain)
    ensures Tip(t).work == ChainWork(HeadersOf(chain)) && Tip(t).header == chain[|chain| - 1].header
  {
    assert HeadersOf(chain)[..|chain|] == HeadersOf(chain);
    assert t.blocks[|chain| - 1].work == WorkThrough(HeadersOf(chain), |chain| - 1);
  }

  lemma ChainHash(c: Crypto, hs: seq<Header>, i: nat)
    requires HeaderChain(c, hs) && i < |hs|
    ensures hs[i].hash == ComputeHash(hs[i])
  {
  }

  /** Hashes of a header chain are computed, so a block at a new height has a new hash. */
  lemma HashIsNew(c: Crypto, hs: seq<Header>, h: Header, i: nat)
    requires HeaderChain(c, hs) && i < |hs| && h.height == |hs| && h.hash == ComputeHash(h)
    ensures hs[i].hash != h.hash
  {
    hide ComputeHash;
    ChainHash(c, hs, i);
    if hs[i].hash == h.hash {
      HashBindsHeight(hs[i], h);
    }
  }

  lemma NewHash(c: Crypto, t: Tables, chain: seq<Block>, b: Block)
    requires ChainRows(t, chain) && HeaderChain(c, HeadersOf(chain))
    requires b.header.height == |chain| && b.header.hash == ComputeHash(b.header)
    ensures !KnownHash(t.blocks, b.header.hash) && b.header.height !in t.undo
    ensures forall h | h in t.undo :: t.undo[h].hash != b.header.hash
  {
    hide ComputeHash, HeaderChain;
    forall i | 0 <= i < |chain| ensures chain[i].header.hash != b.header.hash {
      HashIsNew(c, HeadersOf(chain), b.header, i);
    }
  }

  lemma RulesInWindow(c: Crypto, b: Block, hs: seq<Header>)
    requires WindowShape(hs)
    ensures WindowShape(Window(hs))
    ensures BlockRules(c, b, Window(hs)) <==> BlockRules(c, b, hs)
    ensures BlockRules(c, b, hs) ==> b.header.height == Last(hs).height + 1 && b.header.hash == ComputeHash(b.header)
  {
    hide HeaderRules, BodyOk, ComputeHash;
    WindowSuffices(c, b.header, hs, 0);
    if HeaderRules(c, b.header, hs) {
      RulesFixHeight(c, b.header, hs);
    }
  }

  lemma RowCount(t: Tables, chain: seq<Block>)
    requires ChainRows(t, chain)
    ensures |t.blocks| == |chain| > 0
  {
  }

  lemma HeightOfLast(c: Crypto, chain: seq<Block>)
    requires HeaderChain(c, HeadersOf(chain))
    ensures |chain| > 0 && Last(HeadersOf(chain)).height == |chain| - 1
  {
  }

  /** On the tables of a chain, connecting asks exactly what replaying asks. */
  lemma ConnectsAgrees(c: Crypto, t: Tables, chain: seq<Block>, b: Block)
    requires ChainRows(t, chain) && HeaderChain(c, HeadersOf(chain)) && WindowShape(HeadersOf(chain))
    requires TablesOk(t, |chain| - 1)
    ensures Connects(c, t, b) <==>
      |chain| <= MAX_INT64 && BlockRules(c, b, HeadersOf(chain)) && ReplayBlock(c, TablesView(t), b).Some?
    ensures Connects(c, t, b) ==>
      && b.header.height == |chain|
      && ReplayBlock(c, TablesView(t), b) == Some(ProgressView(ConnectBody(c, t, b).value))
      && ProgressOk(ConnectBody(c, t, b).value, |chain|)
  {
    hide BlockRules, ConnectBody, ReplayBlock, ChainRows, HeaderChain, TablesOk, ComputeHash, ProgressOk, TablesView,
      ProgressView;
    ChainRowsHeaders(t, chain);
    HeightOfLast(c, chain);
    RulesInWindow(c, b, HeadersOf(chain));
    RowCount(t, chain);
    if BlockRules(c, b, HeadersOf(chain)) {
      NewHash(c, t, chain, b);
      BodyAgrees(c, t, b);
    }
  }

  lemma ChainWorkSnoc(hs: seq<Header>, h: Header)
    requires |hs| > 0
    ensures ChainWork(hs + [h]) == ChainWork(hs) + Pow2(h.difficulty)
  {
  }

  lemma WorkThroughSnoc(chain: seq<Block>, b: Block)
    requires |chain| > 0
    ensures forall i | 0 <= i < |chain| :: WorkThrough(HeadersOf(chain + [b]), i) == WorkThrough(HeadersOf(chain), i)
    ensures WorkThrough(HeadersOf(chain + [b]), |chain|) == WorkThrough(HeadersOf(chain), |chain| - 1) + Pow2(b.header.difficulty)
  {
    hide ChainWork, Pow2;
    var hs := HeadersOf(chain + [b]);
    assert HeadersOf(chain) + [b.header] == hs;
    assert hs[..|chain| + 1] == hs && hs[..|chain|] == HeadersOf(chain) == HeadersOf(chain)[..|chain|];
    ChainWorkSnoc(HeadersOf(chain), b.header);
    forall i | 0 <= i < |chain| ensures WorkThrough(hs, i) == WorkThrough(HeadersOf(chain), i) {
      assert hs[..i + 1] == HeadersOf(chain)[..i + 1];
    }
  }

  lemma FinishRows(t: Tables, chain: seq<Block>, b: Block, w: Progress)
    requires ChainRows(t, chain) && b.header.height == |chain|
    ensures ChainRows(Finish(t, b, w), chain + [b])
  {
    hide WorkThrough, HeadersOf, Pow2;
    WorkThroughSnoc(chain, b);
  }

  lemma FinishOk(c: Crypto, t: Tables, b: Block, w: Progress, chain: seq<Block>)
    requires |t.blocks| > 0 && ProgressOk(w, |chain|)
    requires ReplayChain(c, chain + [b]) == Some(ProgressView(w))
    ensures TablesOk(Finish(t, b, w), |chain|) && TablesView(Finish(t, b, w)) == ProgressView(w)
  {
    hide ReplayChain, ViewOk;
    Conservation(c, chain + [b]);
  }

  lemma GenesisTables(chain: seq<Block>)
    requires |chain| == 1 && chain[0] == GenesisBlock()
    ensures ChainRows(Genesis(), chain) && TablesOk(Genesis(), 0) && TablesView(Genesis()) == EmptyView()
  {
    hide ComputeHash;
    EmptyViewOk();
    assert Outputs(map[]) == map[] && OriginView(map[]) == map[];
    assert HeadersOf(chain)[..1] == HeadersOf(chain);
  }

  lemma ReplaySnoc(c: Crypto, prior: seq<Block>, b: Block)
    requires ReplayChain(c, prior).Some?
    ensures WindowShape(HeadersOf(prior))
    ensures ReplayChain(c, prior + [b])
         == if BlockRules(c, b, HeadersOf(prior)) then ReplayBlock(c, ReplayChain(c, prior).value, b) else None
  {
    hide BlockRules, ReplayBlock, HeaderChain, GenesisBlock, WindowShape;
    ReplayedHeaders(c, prior);
    assert (prior + [b])[..|prior|] == prior;
  }

  lemma StepAgrees(c: Crypto, t: Tables, prior: seq<Block>, b: Block)
    requires ReplayChain(c, prior) == Some(TablesView(t))
    requires ChainRows(t, prior) && TablesOk(t, |prior| - 1)
    ensures Connects(c, t, b) <==> |prior| <= MAX_INT64 && ReplayChain(c, prior + [b]).Some?
    ensures Connects(c, t, b) ==>
      var t1 := Connect(c, t, b);
      ReplayChain(c, prior + [b]) == Some(TablesView(t1)) && ChainRows(t1, prior + [b]) && TablesOk(t1, |prior|)
  {
    hide BlockRules, ConnectBody, ReplayBlock, ChainRows, HeaderChain, TablesOk, ComputeHash, ProgressOk, TablesView,
      ProgressView, GenesisBlock, Finish, WindowShape;
    ReplayedHeaders(c, prior);
    ConnectsAgrees(c, t, prior, b);
    ReplaySnoc(c, prior, b);
    if Connects(c, t, b) {
      var w := ConnectBody(c, t, b).value;
      FinishRows(t, prior, b, w);
      RowCount(t, prior);
      FinishOk(c, t, b, w, prior);
    }
  }

  /**
    The two implementations agree: a chain builds tables exactly when it replays and its heights fit 63 bits,
    and then the tables show the replayed view and satisfy everything a ledger needs of them.
   */
  lemma {:induction false} BuildAgreesWithReplay(c: Crypto, chain: seq<Block>)
    ensures Build(c, chain).Some? <==> ReplayChain(c, chain).Some? && |chain| <= MAX_INT64 + 1
    ensures Build(c, chain).Some? ==>
      var t := Build(c, chain).value;
      ReplayChain(c, chain) == Some(TablesView(t)) && ChainRows(t, chain) && TablesOk(t, |chain| - 1)
    decreases |chain|
  {
    hide Connects, Connect, BlockRules, ReplayBlock, ChainRows, TablesOk, TablesView, Genesis, GenesisBlock;
    if |chain| == 1 && chain[0] == GenesisBlock() {
      GenesisTables(chain);
    } else if |chain| > 1 {
      var prior := chain[..|chain| - 1];
      var b := chain[|chain| - 1];
      BuildAgreesWithReplay(c, prior);
      if Build(c, prior).Some? {
        StepAgrees(c, Build(c, prior).value, prior, b);
        assert prior + [b] == chain;
      }
    }
  }
}
