/** internal/core/amount.go: the emission schedule and the decimal amount format. */
module Amounts {
  import opened Common

  const UNITS_PER_ENT: int := 100_000_000
  const MAX_SUPPLY: int := 200_000_000_000_000
  const EMISSION_BLOCKS: int := 31_536_000
  const BASE_SUBSIDY: int := 6_341_958
  const BONUS_SUBSIDY_BLOCKS: int := 12_512_000

  function Subsidy(height: uint64): uint64 {
    if height == 0 || height > EMISSION_BLOCKS then 0
    else if height <= BONUS_SUBSIDY_BLOCKS then BASE_SUBSIDY + 1
    else BASE_SUBSIDY
  }

  function MintedThrough(height: uint64): uint64 {
    var h := if height > EMISSION_BLOCKS then EMISSION_BLOCKS else height;
    var bonus := if h > BONUS_SUBSIDY_BLOCKS then BONUS_SUBSIDY_BLOCKS else h;
    h * BASE_SUBSIDY + bonus
  }

  /** The emission schedule written out: every block's subsidy, added up. */
  function SubsidySum(height: nat): nat
    requires height <= MAX_UINT64
  {
    if height == 0 then 0 else SubsidySum(height - 1) + Subsidy(height)
  }

  lemma MintedBounds(height: uint64)
    ensures MintedThrough(height) <= MAX_SUPPLY
    ensures MintedThrough(height) == MAX_SUPPLY <==> height >= EMISSION_BLOCKS
  {
  }

  /** The closed form is the sum of the subsidies, and the cap is reached exactly at the end of emission. */
  lemma {:induction false} MintedIsSubsidySum(height: uint64)
    ensures MintedThrough(height) == SubsidySum(height) <= MAX_SUPPLY
    ensures MintedThrough(height) == MAX_SUPPLY <==> height >= EMISSION_BLOCKS
  {
    MintedBounds(height);
    if height > 0 {
      MintedIsSubsidySum(height - 1);
    }
  }

  lemma MintedStep(height: uint64)
    requires height < MAX_UINT64
    ensures MintedThrough(height + 1) == MintedThrough(height) + Subsidy(height + 1) <= MAX_SUPPLY
  {
  }
}
