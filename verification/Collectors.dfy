/**
  internal/ledger/reorg.go, orphanedMempoolCollector: which transactions of disconnected blocks go back to the
  mempool. Blocks arrive newest first; the oldest transactions that fit both limits are kept.
 */
module Collectors {
  import opened Transactions

  function Bytes(txs: seq<Transaction>): nat {
    if |txs| == 0 then 0 else Bytes(txs[..|txs| - 1]) + EncodedSize(txs[|txs| - 1])
  }

  predicate Fits(txs: seq<Transaction>, maxCount: int, maxBytes: int) {
    |txs| <= maxCount && Bytes(txs) <= maxBytes
  }

  /** The longest prefix that fits both limits. */
  function Kept(txs: seq<Transaction>, maxCount: int, maxBytes: int): (r: seq<Transaction>)
    ensures r <= txs
    decreases |txs|
  {
    if |txs| == 0 || Fits(txs, maxCount, maxBytes) then txs else Kept(txs[..|txs| - 1], maxCount, maxBytes)
  }

  /** Kept is the longest: it fits, and no longer prefix does. */
  lemma {:induction false} KeptIsLongest(txs: seq<Transaction>, maxCount: int, maxBytes: int, n: nat)
    requires maxCount >= 0 && maxBytes >= 0 && n <= |txs|
    ensures var kept := Kept(txs, maxCount, maxBytes);
      && |kept| <= maxCount && Bytes(kept) <= maxBytes
      && (n > |kept| ==> n > maxCount || Bytes(txs[..n]) > maxBytes)
    decreases |txs|
  {
    hide EncodedSize;
    if |txs| > 0 && !Fits(txs, maxCount, maxBytes) {
      if n == |txs| {
        assert txs[..n] == txs;
        KeptIsLongest(txs[..|txs| - 1], maxCount, maxBytes, 0);
      } else {
        assert txs[..|txs| - 1][..n] == txs[..n];
        KeptIsLongest(txs[..|txs| - 1], maxCount, maxBytes, n);
      }
    }
  }

  lemma {:induction false} BytesConcat(a: seq<Transaction>, b: seq<Transaction>)
    ensures Bytes(a + b) == Bytes(a) + Bytes(b)
  {
    hide EncodedSize;
    if |b| == 0 {
      assert a + b == a;
    } else {
      assert (a + b)[..|a + b| - 1] == a + b[..|b| - 1];
      BytesConcat(a, b[..|b| - 1]);
    }
  }

  /** Trimming early loses nothing: what is cut now would be cut later, older transactions only adding to the load. */
  lemma {:induction false} TrimEarly(older: seq<Transaction>, txs: seq<Transaction>, maxCount: int, maxBytes: int)
    ensures Kept(older + Kept(txs, maxCount, maxBytes), maxCount, maxBytes) == Kept(older + txs, maxCount, maxBytes)
    decreases |txs|
  {
    hide EncodedSize, Bytes;
    if |txs| > 0 && !Fits(txs, maxCount, maxBytes) {
      var front := txs[..|txs| - 1];
      TrimEarly(older, front, maxCount, maxBytes);
      BytesConcat(older, txs);
      assert (older + txs)[..|older + txs| - 1] == older + front;
    }
  }

  lemma KeptShrinks(txs: seq<Transaction>, maxCount: int, maxBytes: int)
    requires |txs| > 0 && !Fits(txs, maxCount, maxBytes)
    ensures Kept(txs, maxCount, maxBytes) == Kept(txs[..|txs| - 1], maxCount, maxBytes)
  {
  }

  lemma KeptFits(txs: seq<Transaction>, maxCount: int, maxBytes: int)
    requires |txs| == 0 || Fits(txs, maxCount, maxBytes)
    ensures Kept(txs, maxCount, maxBytes) == txs
  {
  }

  /** Blocks received newest first, read oldest first. */
  function OldestFirst(blocks: seq<seq<Transaction>>): seq<Transaction> {
    if |blocks| == 0 then [] else OldestFirst(blocks[1..]) + blocks[0]
  }

  lemma {:induction false} OldestFirstSnoc(blocks: seq<seq<Transaction>>, older: seq<Transaction>)
    ensures OldestFirst(blocks + [older]) == older + OldestFirst(blocks)
  {
    if |blocks| == 0 {
      assert OldestFirst([older][1..]) == [];
      assert blocks + [older] == [older];
    } else {
      assert (blocks + [older])[1..] == blocks[1..] + [older];
      OldestFirstSnoc(blocks[1..], older);
      assert older + OldestFirst(blocks[1..]) + blocks[0] == older + (OldestFirst(blocks[1..]) + blocks[0]);
    }
  }

  /** Dropping the last transaction of the newest block drops the last of the contents. */
  lemma NewestLast(blocks: seq<seq<Transaction>>, start: nat)
    requires start < |blocks| && |blocks[start]| > 0
    ensures var contents := OldestFirst(blocks[start..]);
      var last := |blocks[start]| - 1;
      var trimmed := blocks[start := blocks[start][..last]];
      && |contents| > 0 && contents[|contents| - 1] == blocks[start][last]
      && OldestFirst(trimmed[start..]) == contents[..|contents| - 1]
      && (last == 0 ==> OldestFirst(trimmed[start + 1..]) == contents[..|contents| - 1])
  {
  }

  lemma NothingLeft(blocks: seq<seq<Transaction>>, start: nat)
    ensures start == |blocks| ==> OldestFirst(blocks[start..]) == []
  {
  }

  /** Every encoded transaction takes bytes, so a limit of nothing keeps nothing. */
  lemma {:induction false} NothingFits(txs: seq<Transaction>, maxCount: int, maxBytes: int)
    requires maxCount <= 0 || maxBytes <= 0
    ensures Kept(txs, maxCount, maxBytes) == []
    decreases |txs|
  {
    hide EncodedSize;
    if |txs| > 0 {
      EncodedSizeParts(txs[|txs| - 1]);
      NothingFits(txs[..|txs| - 1], maxCount, maxBytes);
    }
  }

  class Collector {
    const maxCount: int
    const maxBytes: int
    var blocks: seq<seq<Transaction>>
    var start: nat
    var count: int
    var bytes: int
    /** Everything received, oldest first. */
    ghost var received: seq<Transaction>

    ghost predicate Valid()
      reads this
    {
      && start <= |blocks| && (forall i | start <= i < |blocks| :: |blocks[i]| > 0)
      && count == |Contents()| && bytes == Bytes(Contents())
      && Contents() == Kept(received, maxCount, maxBytes)
    }

    ghost function Contents(): seq<Transaction>
      requires start <= |blocks|
      reads this
    {
      OldestFirst(blocks[start..])
    }

    constructor (maxCount: int, maxBytes: int)
      ensures Valid() && this.maxCount == maxCount && this.maxBytes == maxBytes && received == []
    {
      this.maxCount, this.maxBytes, blocks, start, count, bytes, received := maxCount, maxBytes, [], 0, 0, 0, [];
    }

    /** A block older than every block before it. */
    method Add(transactions: seq<Transaction>)
      requires Valid()
      modifies this
      ensures Valid() && received == transactions + old(received)
    {
      hide EncodedSize, Kept, Fits, OldestFirst;
      if |transactions| == 0 || maxCount <= 0 || maxBytes <= 0 {
        if |transactions| == 0 {
          assert transactions + received == received;
        } else {
          NothingFits(received, maxCount, maxBytes);
          NothingFits(transactions + received, maxCount, maxBytes);
        }
        received := transactions + received;
        return;
      }
      ghost var kept := Contents();
      OldestFirstSnoc(blocks[start..], transactions);
      assert (blocks + [transactions])[start..] == blocks[start..] + [transactions];
      TrimEarly(transactions, received, maxCount, maxBytes);
      BytesConcat(transactions, kept);
      received := transactions + received;
      blocks := blocks + [transactions];
      for i := 0 to |transactions|
        invariant count == |kept| + i && bytes == Bytes(kept) + Bytes(transactions[..i])
        invariant blocks == old(blocks) + [transactions] && start == old(start) && received == transactions + old(received)
      {
        assert transactions[..i + 1][..i] == transactions[..i];
        count := count + 1;
        bytes := bytes + EncodedSize(transactions[i]);
      }
      assert transactions[..|transactions|] == transactions;
      Trim();
    }

    method Trim()
      requires start <= |blocks| && (forall i | start <= i < |blocks| :: |blocks[i]| > 0)
      requires count == |Contents()| && bytes == Bytes(Contents())
      requires Kept(Contents(), maxCount, maxBytes) == Kept(received, maxCount, maxBytes)
      modifies this`blocks, this`start, this`count, this`bytes
      ensures Valid()
    {
      hide EncodedSize, Kept, OldestFirst;
      while start < |blocks| && (count > maxCount || bytes > maxBytes)
        invariant start <= |blocks| && (forall i | start <= i < |blocks| :: |blocks[i]| > 0)
        invariant count == |Contents()| && bytes == Bytes(Contents())
        invariant Kept(Contents(), maxCount, maxBytes) == Kept(received, maxCount, maxBytes)
        decreases |Contents()|
      {
        ghost var contents := Contents();
        var last := |blocks[start]| - 1;
        var transaction := blocks[start][last];
        NewestLast(blocks, start);
        KeptShrinks(contents, maxCount, maxBytes);
        count := count - 1;
        bytes := bytes - EncodedSize(transaction);
        blocks := blocks[start := blocks[start][..last]];
        if last == 0 {
          start := start + 1;
        }
      }
      NothingLeft(blocks, start);
      KeptFits(Contents(), maxCount, maxBytes);
    }

    method Transactions() returns (result: seq<Transaction>)
      requires Valid()
      ensures result == Kept(received, maxCount, maxBytes)
    {
      hide Kept, Bytes;
      result := [];
      var index := |blocks|;
      while index > start
        invariant start <= index <= |blocks|
        invariant result == OldestFirst(blocks[index..])
      {
        index := index - 1;
        assert blocks[index..][1..] == blocks[index + 1..];
        result := result + blocks[index];
      }
    }
  }
}
