/**
  internal/core/block.go, MineBlockWithWorkers: the nonce space is dealt out to the workers in strides. Cancelling
  is not modelled; the workers' searches are independent, so their order does not matter.
 */
module Workers {
  import opened Common
  import opened Transactions
  import opened Headers
  import opened Merkle
  import opened MiningRules

  const MAX_MINING_WORKERS: int := 1_024

  /** A nonce that gives the block enough work. */
  predicate Works(c: Crypto, b: Block, nonce: uint64) {
    ValidWork(c, Mined(b, nonce).header)
  }

  /** The share of one worker: every `step`-th nonce from its own number. */
  predicate Share(nonce: int, worker: nat, step: nat)
    requires step > 0
  {
    nonce >= worker && (nonce - worker) % step == 0
  }

  lemma AtLeastOne(d: int, k: nat)
    requires d >= 1
    ensures d * k >= k
  {
  }

  /** Quotient and rest are what they are. */
  lemma QuotientIsUnique(n: nat, k: nat, q: nat, rest: nat)
    requires rest < k && n == q * k + rest
    ensures n / k == q && n % k == rest
  {
    var d := q - n / k;
    assert n == n / k * k + n % k;
    assert d * k == q * k - n / k * k;
    if d >= 1 {
      AtLeastOne(d, k);
    } else if d <= -1 {
      AtLeastOne(-d, k);
    }
  }

  lemma StepsAhead(nonce: int, worker: nat, step: nat)
    requires step > 0 && Share(nonce, worker, step)
    ensures Share(nonce + step, worker, step)
  {
    var q := (nonce - worker) / step;
    assert nonce - worker == q * step;
    assert nonce + step - worker == (q + 1) * step;
    QuotientIsUnique(nonce + step - worker, step, q + 1, 0);
  }

  lemma Positive(d: int, k: nat)
    requires d * k > 0
    ensures d >= 1
  {
  }

  /** Between one nonce of a share and the next there is none of the same share. */
  lemma NextShare(nonce: int, next: int, worker: nat, step: nat)
    requires step > 0 && Share(nonce, worker, step) && Share(next, worker, step) && next > nonce
    ensures next >= nonce + step
  {
    var a, b := (nonce - worker) / step, (next - worker) / step;
    assert nonce - worker == a * step && next - worker == b * step;
    assert next - nonce == (b - a) * step;
    Positive(b - a, step);
    AtLeastOne(b - a, step);
  }

  /** One worker: the first nonce of its share that works, or none in the whole share. */
  method Search(c: Crypto, b: Block, worker: nat, step: nat) returns (r: Option<uint64>)
    requires worker < step <= MAX_MINING_WORKERS
    ensures r.Some? ==> Works(c, b, r.value) && Share(r.value, worker, step)
    ensures r.None? ==> forall nonce: uint64 | Share(nonce, worker, step) :: !Works(c, b, nonce)
  {
    hide Works;
    var nonce := worker;
    while true
      invariant nonce <= MAX_UINT64 && Share(nonce, worker, step)
      invariant forall n: uint64 | Share(n, worker, step) && n < nonce :: !Works(c, b, n)
      decreases MAX_UINT64 - nonce
    {
      if Works(c, b, nonce) {
        return Some(nonce);
      }
      forall n: uint64 | Share(n, worker, step) && n > nonce ensures n >= nonce + step {
        NextShare(nonce, n, worker, step);
      }
      if nonce > MAX_UINT64 - step {
        return None;
      }
      StepsAhead(nonce, worker, step);
      nonce := nonce + step;
    }
  }

  /** Every nonce belongs to exactly one worker. */
  lemma SharesPartition(nonce: nat, step: nat, worker: nat)
    requires worker < step
    ensures Share(nonce, worker, step) <==> worker == nonce % step
  {
    if worker == nonce % step {
      assert nonce == nonce / step * step + worker;
      QuotientIsUnique(nonce - worker, step, nonce / step, 0);
    }
    if Share(nonce, worker, step) {
      var q := (nonce - worker) / step;
      assert nonce == q * step + worker;
      QuotientIsUnique(nonce, step, q, worker);
    }
  }

  /** Mining fails for exhaustion exactly when no nonce at all works; what it returns carries its proof of work. */
  method MineBlock(c: Crypto, b: Block, workers: int) returns (r: Option<Block>)
    ensures r.Some? ==> 0 < workers <= MAX_MINING_WORKERS && exists nonce: uint64 :: r.value == Mined(b, nonce) && Works(c, b, nonce)
    ensures r.None? && 0 < workers <= MAX_MINING_WORKERS ==> forall nonce: uint64 :: !Works(c, b, nonce)
  {
    hide Works, Share, Mined;
    if workers <= 0 || workers > MAX_MINING_WORKERS {
      return None;
    }
    for worker := 0 to workers
      invariant forall nonce: uint64 | nonce % workers < worker :: !Works(c, b, nonce)
    {
      var found := Search(c, b, worker, workers);
      if found.Some? {
        return Some(Mined(b, found.value));
      }
      forall nonce: uint64 | nonce % workers == worker ensures !Works(c, b, nonce) {
        SharesPartition(nonce, workers, worker);
      }
    }
    return None;
  }
}
