/** The constants and the upgrade catalog of constants.ts. */
module Constants {
  import opened Types

  /** Cookies a click yields before any click upgrade. */
  const CookieClickReward: real := 1.0
  /** Each purchase multiplies an upgrade's price by this factor (exact 115/100 here). */
  const CostIncreaseFactor: real := 1.15
  /** Milliseconds between two ticks of the per-second accrual. */
  const GameTickInterval: nat := 1000

  /** Number of entries of the catalog; the first `CpsCount` of them raise cookies per second. */
  const CatalogSize: nat := 14
  const CpsCount: nat := 7

  /** The fourteen entries of INITIAL_UPGRADES, in order. */
  function InitialUpgrades(): (c: seq<Template>)
    ensures |c| == CatalogSize
    ensures Distinct(TemplateIds(c))
    ensures forall i :: 0 <= i < |c| ==> c[i].baseCost > 0.0 && c[i].baseEffectValue > 0.0
  {
    [
      Template("cursor", 15.0, Cps, 1.0),
      Template("grandma", 100.0, Cps, 5.0),
      Template("farm", 1100.0, Cps, 40.0),
      Template("mine", 12000.0, Cps, 250.0),
      Template("factory", 130000.0, Cps, 1500.0),
      Template("bank", 1400000.0, Cps, 10000.0),
      Template("temple", 20000000.0, Cps, 75000.0),
      Template("reinforcedFinger", 50.0, Click, 1.0),
      Template("steelMouse", 500.0, Click, 5.0),
      Template("multiplierWand", 10000.0, Click, 50.0),
      Template("goldenKnuckles", 150000.0, Click, 250.0),
      Template("gemEncrustedClicker", 2000000.0, Click, 1200.0),
      Template("cosmicClickRay", 30000000.0, Click, 8000.0),
      Template("realityBendingClick", 500000000.0, Click, 50000.0)
    ]
  }

  /** Every catalog price is a whole number of cookies. */
  lemma CatalogPricesWhole()
    ensures forall i :: 0 <= i < CatalogSize ==>
      InitialUpgrades()[i].baseCost == InitialUpgrades()[i].baseCost.Floor as real
  {
  }

  /** The first seven entries raise cookies per second, the other seven raise cookies per click. */
  lemma CatalogPartition()
    ensures forall i :: 0 <= i < CatalogSize ==>
      (InitialUpgrades()[i].effectType == Cps <==> i < CpsCount)
  {
  }

  /** Within a class, any earlier entry is cheaper and weaker than any later one. */
  lemma ClassIsStrictlyIncreasing(lo: nat, hi: nat, i: nat, j: nat)
    requires lo <= i < j < hi <= CatalogSize
    requires (lo, hi) == (0, CpsCount) || (lo, hi) == (CpsCount, CatalogSize)
    ensures InitialUpgrades()[i].baseCost < InitialUpgrades()[j].baseCost
    ensures InitialUpgrades()[i].baseEffectValue < InitialUpgrades()[j].baseEffectValue
  {
  }

  /** A tick of GameTickInterval milliseconds is exactly one second, and prices grow. */
  lemma TickIsOneSecond()
    ensures GameTickInterval as real / 1000.0 == 1.0
    ensures CostIncreaseFactor > 1.0
    ensures CookieClickReward == 1.0
  {
  }
}
