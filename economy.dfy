/**
 * The economy engine of App.tsx as pure functions over the upgrade list: the initial list,
 * the derived rates, the cost growth, the purchase updater and the all-time total.
 * Arithmetic is exact: JavaScript computes `Math.floor(baseCost * Math.pow(1.15, n))` in
 * doubles, which can differ (floor(100 * 1.15) is 114 there and 115 here).
 */
module Economy {
  import opened Types
  import opened Numeric
  import opened Constants

  // ---------------------------------------------------------------------------------------
  // Initial state

  /** A catalog entry as the game first holds it: none owned, priced at its base cost. */
  function Instantiate(t: Template): (u: Upgrade)
  {
    Upgrade(t.id, t.baseCost, t.baseCost, t.effectType, t.baseEffectValue, 0)
  }

  /** `INITIAL_UPGRADES.map(u => ({...u, currentCost: u.baseCost, owned: 0}))` */
  function FreshUpgrades(c: seq<Template>): (us: seq<Upgrade>)
  {
    seq(|c|, i requires 0 <= i < |c| => Instantiate(c[i]))
  }

  // ---------------------------------------------------------------------------------------
  // Cost growth

  /** `Math.floor(baseCost * Math.pow(COST_INCREASE_FACTOR, n))` */
  function CostAt(baseCost: real, n: nat): (r: int)
  {
    (baseCost * Pow(CostIncreaseFactor, n)).Floor
  }

  /** An upgrade's price is its base cost grown once per unit owned. */
  predicate CostInvariant(u: Upgrade)
  {
    u.currentCost == CostAt(u.baseCost, u.owned) as real
  }

  /** A non-negative base cost never gets cheaper as more units are owned. */
  lemma CostNeverDecreases(baseCost: real, n: nat)
    requires baseCost >= 0.0
    ensures CostAt(baseCost, n) <= CostAt(baseCost, n + 1)
  {
  }

  /** The state the engine keeps: a non-negative balance, one entry per id, prices that follow
      the growth rule and effects that never subtract. */
  predicate Consistent(balance: real, us: seq<Upgrade>)
  {
    && balance >= 0.0
    && Distinct(UpgradeIds(us))
    && forall i :: 0 <= i < |us| ==> CostInvariant(us[i]) && us[i].baseEffectValue >= 0.0
  }

  /** The game starts with every catalog entry once, in catalog order, none owned, each at its
      base cost, and with a zero balance; that state is consistent. */
  lemma InitialStateConsistent()
    ensures var us := FreshUpgrades(InitialUpgrades());
      && |us| == CatalogSize
      && UpgradeIds(us) == TemplateIds(InitialUpgrades())
      && (forall i :: 0 <= i < |us| ==>
            && us[i].owned == 0 && us[i].currentCost == InitialUpgrades()[i].baseCost
            && us[i].baseCost == InitialUpgrades()[i].baseCost
            && us[i].effectType == InitialUpgrades()[i].effectType
            && us[i].baseEffectValue == InitialUpgrades()[i].baseEffectValue)
      && Consistent(0.0, us)
  {
    CatalogPricesWhole();
    var c := InitialUpgrades();
    var us := FreshUpgrades(c);
    assert UpgradeIds(us) == TemplateIds(c);
    forall i | 0 <= i < |us|
      ensures CostInvariant(us[i]) && us[i].baseEffectValue >= 0.0
    {
      assert CostAt(c[i].baseCost, 0) == c[i].baseCost.Floor;
    }
  }

  // ---------------------------------------------------------------------------------------
  // Derived rates

  /** `upgrades.filter(upg => upg.effectType === t)` */
  function Filter(us: seq<Upgrade>, t: EffectType): (r: seq<Upgrade>)
  {
    if us == [] then []
    else Filter(us[..|us| - 1], t) + (if us[|us| - 1].effectType == t then [us[|us| - 1]] else [])
  }

  /** `.reduce((total, upg) => total + upg.owned * upg.baseEffectValue, 0)` */
  function TotalEffect(us: seq<Upgrade>): (r: real)
  {
    if us == [] then 0.0
    else TotalEffect(us[..|us| - 1]) + us[|us| - 1].owned as real * us[|us| - 1].baseEffectValue
  }

  /** cookiesPerSecond */
  function CookiesPerSecond(us: seq<Upgrade>): (r: real)
  {
    TotalEffect(Filter(us, Cps))
  }

  /** cookiesPerClick */
  function CookiesPerClick(us: seq<Upgrade>): (r: real)
  {
    CookieClickReward + TotalEffect(Filter(us, Click))
  }

  /** What one upgrade adds to the rate of effect class `t`. */
  function Contribution(u: Upgrade, t: EffectType): (r: real)
  {
    if u.effectType == t then u.owned as real * u.baseEffectValue else 0.0
  }

  lemma {:induction false} FilterConcat(a: seq<Upgrade>, b: seq<Upgrade>, t: EffectType)
    ensures Filter(a + b, t) == Filter(a, t) + Filter(b, t)
    decreases |b|
  {
    if b != [] {
      var b' := b[..|b| - 1];
      assert (a + b)[..|a + b| - 1] == a + b';
      FilterConcat(a, b', t);
    } else {
      assert a + b == a;
    }
  }

  lemma {:induction false} TotalEffectConcat(a: seq<Upgrade>, b: seq<Upgrade>)
    ensures TotalEffect(a + b) == TotalEffect(a) + TotalEffect(b)
    decreases |b|
  {
    if b != [] {
      var b' := b[..|b| - 1];
      assert (a + b)[..|a + b| - 1] == a + b';
      TotalEffectConcat(a, b');
    } else {
      assert a + b == a;
    }
  }

  lemma FilterOfOne(u: Upgrade, t: EffectType)
    ensures Filter([u], t) == if u.effectType == t then [u] else []
  {
  }

  lemma EffectOfOne(u: Upgrade, t: EffectType)
    ensures TotalEffect(Filter([u], t)) == Contribution(u, t)
  {
  }

  /** The rate of class `t` grows, entry by entry, by each entry's part. */
  lemma EffectStep(us: seq<Upgrade>, t: EffectType)
    requires us != []
    ensures TotalEffect(Filter(us, t)) ==
      TotalEffect(Filter(us[..|us| - 1], t)) + Contribution(us[|us| - 1], t)
  {
    var init, last := us[..|us| - 1], us[|us| - 1];
    FilterOfOne(last, t);
    EffectOfOne(last, t);
    assert Filter(us, t) == Filter(init, t) + Filter([last], t);
    TotalEffectConcat(Filter(init, t), Filter([last], t));
  }

  /** The rate of class `t` splits around entry `k` into the two sides and that entry's part. */
  lemma EffectSplit(us: seq<Upgrade>, k: nat, t: EffectType)
    requires k < |us|
    ensures TotalEffect(Filter(us, t)) ==
      TotalEffect(Filter(us[..k], t)) + Contribution(us[k], t) + TotalEffect(Filter(us[k + 1..], t))
  {
    var left, mid, right := us[..k], [us[k]], us[k + 1..];
    assert us == left + mid + right;
    FilterConcat(left + mid, right, t);
    FilterConcat(left, mid, t);
    EffectOfOne(us[k], t);
    var fl, fm, fr := Filter(left, t), Filter(mid, t), Filter(right, t);
    assert Filter(us, t) == fl + fm + fr;
    TotalEffectConcat(fl + fm, fr);
    TotalEffectConcat(fl, fm);
  }

  /** Replacing one entry changes a rate by exactly the difference of the two entries' parts. */
  lemma EffectPointUpdate(us: seq<Upgrade>, k: nat, v: Upgrade, t: EffectType)
    requires k < |us|
    ensures TotalEffect(Filter(us[k := v], t)) ==
      TotalEffect(Filter(us, t)) - Contribution(us[k], t) + Contribution(v, t)
  {
    EffectSplit(us, k, t);
    EffectSplit(us[k := v], k, t);
    assert us[k := v][..k] == us[..k];
    assert us[k := v][k + 1..] == us[k + 1..];
  }

  lemma {:induction false} TotalEffectByClass(us: seq<Upgrade>)
    ensures TotalEffect(Filter(us, Cps)) + TotalEffect(Filter(us, Click)) == TotalEffect(us)
  {
    if us != [] {
      TotalEffectByClass(us[..|us| - 1]);
      EffectStep(us, Cps);
      EffectStep(us, Click);
    }
  }

  /** Every upgrade counts towards exactly one of the two rates. */
  lemma RatesPartitionEffects(us: seq<Upgrade>)
    ensures CookiesPerSecond(us) + CookiesPerClick(us) == CookieClickReward + TotalEffect(us)
  {
    TotalEffectByClass(us);
  }

  lemma {:induction false} EffectNonNegative(us: seq<Upgrade>, t: EffectType)
    requires forall i :: 0 <= i < |us| ==> us[i].baseEffectValue >= 0.0
    ensures TotalEffect(Filter(us, t)) >= 0.0
  {
    if us != [] {
      EffectNonNegative(us[..|us| - 1], t);
      EffectStep(us, t);
    }
  }

  lemma {:induction false} EffectOfUnowned(us: seq<Upgrade>, t: EffectType)
    requires forall i :: 0 <= i < |us| ==> us[i].owned == 0
    ensures TotalEffect(Filter(us, t)) == 0.0
  {
    if us != [] {
      EffectOfUnowned(us[..|us| - 1], t);
      EffectStep(us, t);
    }
  }

  /** With no negative effect, the per-second rate is never negative and a click yields at
      least the base reward. */
  lemma RatesBounded(us: seq<Upgrade>)
    requires forall i :: 0 <= i < |us| ==> us[i].baseEffectValue >= 0.0
    ensures CookiesPerSecond(us) >= 0.0
    ensures CookiesPerClick(us) >= CookieClickReward
  {
    EffectNonNegative(us, Cps);
    EffectNonNegative(us, Click);
  }

  /** A fresh game earns nothing per second and the base reward per click. */
  lemma FreshRates(c: seq<Template>)
    ensures CookiesPerSecond(FreshUpgrades(c)) == 0.0
    ensures CookiesPerClick(FreshUpgrades(c)) == CookieClickReward
  {
    EffectOfUnowned(FreshUpgrades(c), Cps);
    EffectOfUnowned(FreshUpgrades(c), Click);
  }

  // ---------------------------------------------------------------------------------------
  // Purchase

  /** The entry after one more unit is bought: price recomputed from the new count. */
  function Bought(u: Upgrade): (v: Upgrade)
  {
    u.(owned := u.owned + 1, currentCost := CostAt(u.baseCost, u.owned + 1) as real)
  }

  /** The `prevUpgrades.map(...)` updater of handleBuyUpgrade: every entry with the id is bumped. */
  function ApplyPurchase(us: seq<Upgrade>, id: string): (r: seq<Upgrade>)
  {
    seq(|us|, i requires 0 <= i < |us| => if us[i].id == id then Bought(us[i]) else us[i])
  }

  /** The guard of handleBuyUpgrade: the id is known and the balance covers its current price. */
  predicate Affordable(balance: real, us: seq<Upgrade>, id: string)
  {
    var k := FindIndex(UpgradeIds(us), id);
    k.Some? && balance >= us[k.value].currentCost
  }

  /** A purchase keeps the length, the order and the ids, leaves entries with other ids alone,
      and never lowers an owned count. */
  lemma PurchaseFrame(us: seq<Upgrade>, id: string)
    ensures var r := ApplyPurchase(us, id);
      && |r| == |us|
      && UpgradeIds(r) == UpgradeIds(us)
      && (forall i :: 0 <= i < |us| && us[i].id != id ==> r[i] == us[i])
      && (forall i :: 0 <= i < |us| && us[i].id == id ==> r[i].owned == us[i].owned + 1)
      && (forall i :: 0 <= i < |us| ==> r[i].owned >= us[i].owned)
  {
  }

  /** With distinct ids, a purchase changes the one entry `find` returned: one more owned, and
      the price for the new count; every other field of it is kept. */
  lemma PurchaseUpdatesOnlyTarget(us: seq<Upgrade>, id: string, k: nat)
    requires Distinct(UpgradeIds(us))
    requires FindIndex(UpgradeIds(us), id) == Some(k)
    ensures ApplyPurchase(us, id) == us[k := Bought(us[k])]
    ensures Bought(us[k]).owned == us[k].owned + 1
    ensures Bought(us[k]).currentCost == CostAt(us[k].baseCost, us[k].owned + 1) as real
    ensures Bought(us[k]).(owned := us[k].owned, currentCost := us[k].currentCost) == us[k]
  {
    FindIndexUnique(UpgradeIds(us), id, k);
    forall i | 0 <= i < |us|
      ensures ApplyPurchase(us, id)[i] == us[k := Bought(us[k])][i]
    {
      assert UpgradeIds(us)[i] == us[i].id;
    }
  }

  /** A successful purchase of a consistent state leads to a consistent state. */
  lemma PurchasePreservesConsistency(balance: real, us: seq<Upgrade>, id: string, k: nat)
    requires Consistent(balance, us)
    requires FindIndex(UpgradeIds(us), id) == Some(k)
    requires balance >= us[k].currentCost
    ensures Consistent(balance - us[k].currentCost, ApplyPurchase(us, id))
  {
    PurchaseUpdatesOnlyTarget(us, id, k);
    PurchaseFrame(us, id);
  }

  /** One more unit adds the entry's effect value to its own class and nothing to the other. */
  lemma BoughtContribution(u: Upgrade, t: EffectType)
    ensures Contribution(Bought(u), t) ==
      Contribution(u, t) + (if u.effectType == t then u.baseEffectValue else 0.0)
  {
  }

  /** Buying a 'cps' upgrade raises the per-second rate by its effect value and leaves the click
      rate alone; buying a 'click' upgrade does the converse. */
  lemma PurchaseRaisesOneRate(us: seq<Upgrade>, id: string, k: nat)
    requires Distinct(UpgradeIds(us))
    requires FindIndex(UpgradeIds(us), id) == Some(k)
    ensures var r, e := ApplyPurchase(us, id), us[k].baseEffectValue;
      if us[k].effectType == Cps then
        CookiesPerSecond(r) == CookiesPerSecond(us) + e && CookiesPerClick(r) == CookiesPerClick(us)
      else
        CookiesPerClick(r) == CookiesPerClick(us) + e && CookiesPerSecond(r) == CookiesPerSecond(us)
  {
    PurchaseUpdatesOnlyTarget(us, id, k);
    var u := us[k];
    BoughtContribution(u, Cps);
    BoughtContribution(u, Click);
    EffectPointUpdate(us, k, Bought(u), Cps);
    EffectPointUpdate(us, k, Bought(u), Click);
  }

  // ---------------------------------------------------------------------------------------
  // All-time total

  /** `Σ_{i < n} Math.floor(baseCost * 1.15^i)`: what the first `n` units cost. */
  function PastCosts(baseCost: real, n: nat): (r: int)
  {
    if n == 0 then 0 else PastCosts(baseCost, n - 1) + CostAt(baseCost, n - 1)
  }

  /** What every purchase so far cost, summed over the list as the outer reduce does. */
  function Spent(us: seq<Upgrade>): (r: int)
  {
    if us == [] then 0
    else Spent(us[..|us| - 1]) + PastCosts(us[|us| - 1].baseCost, us[|us| - 1].owned)
  }

  /** totalCookiesEarnedAllTime */
  function TotalEarned(balance: real, us: seq<Upgrade>): (r: real)
  {
    balance + Spent(us) as real
  }

  lemma {:induction false} SpentConcat(a: seq<Upgrade>, b: seq<Upgrade>)
    ensures Spent(a + b) == Spent(a) + Spent(b)
    decreases |b|
  {
    if b != [] {
      var b' := b[..|b| - 1];
      assert (a + b)[..|a + b| - 1] == a + b';
      SpentConcat(a, b');
    } else {
      assert a + b == a;
    }
  }

  /** Replacing one entry changes the spent sum by the difference of the two entries' sums. */
  lemma SpentPointUpdate(us: seq<Upgrade>, k: nat, v: Upgrade)
    requires k < |us|
    ensures Spent(us[k := v]) ==
      Spent(us) - PastCosts(us[k].baseCost, us[k].owned) + PastCosts(v.baseCost, v.owned)
  {
    assert us == us[..k] + [us[k]] + us[k + 1..];
    assert us[k := v] == us[..k] + [v] + us[k + 1..];
    SpentConcat(us[..k] + [us[k]], us[k + 1..]);
    SpentConcat(us[..k], [us[k]]);
    SpentConcat(us[..k] + [v], us[k + 1..]);
    SpentConcat(us[..k], [v]);
    assert [us[k]][..0] == [] && [v][..0] == [];
  }

  /** The accounting identity: when prices follow the growth rule, a successful purchase moves
      exactly its price from the balance into the spent sum, so the all-time total is kept. */
  lemma PurchaseKeepsTotalEarned(balance: real, us: seq<Upgrade>, id: string, k: nat)
    requires Distinct(UpgradeIds(us))
    requires FindIndex(UpgradeIds(us), id) == Some(k)
    requires CostInvariant(us[k])
    ensures TotalEarned(balance - us[k].currentCost, ApplyPurchase(us, id)) == TotalEarned(balance, us)
  {
    PurchaseUpdatesOnlyTarget(us, id, k);
    SpentPointUpdate(us, k, Bought(us[k]));
  }

  /** A fresh game has spent nothing, so its all-time total is its balance. */
  lemma FreshTotalIsBalance(balance: real, c: seq<Template>)
    ensures TotalEarned(balance, FreshUpgrades(c)) == balance
  {
    FreshSpentNothing(FreshUpgrades(c));
  }

  lemma {:induction false} FreshSpentNothing(us: seq<Upgrade>)
    requires forall i :: 0 <= i < |us| ==> us[i].owned == 0
    ensures Spent(us) == 0
  {
    if us != [] {
      FreshSpentNothing(us[..|us| - 1]);
    }
  }

  // ---------------------------------------------------------------------------------------
  // Scenarios with the shipped catalog

  /** From a balance of 15, buying the 15-cookie cursor succeeds, leaves 0 cookies, one cursor
      owned and the next cursor priced at floor(15 * 1.15) = 17. */
  lemma CursorScenario()
    ensures var us := FreshUpgrades(InitialUpgrades());
      && FindIndex(UpgradeIds(us), "cursor") == Some(0)
      && Affordable(15.0, us, "cursor")
      && 15.0 - us[0].currentCost == 0.0
      && ApplyPurchase(us, "cursor")[0].owned == 1
      && ApplyPurchase(us, "cursor")[0].currentCost == 17.0
  {
  }

  /** A fresh game yields 1 per click; buying one reinforcedFinger makes it 2. */
  lemma ClickScenario()
    ensures var us := FreshUpgrades(InitialUpgrades());
      && CookiesPerClick(us) == 1.0
      && FindIndex(UpgradeIds(us), "reinforcedFinger") == Some(7)
      && CookiesPerClick(ApplyPurchase(us, "reinforcedFinger")) == 2.0
  {
    var us := FreshUpgrades(InitialUpgrades());
    InitialStateConsistent();
    FreshRates(InitialUpgrades());
    var ids := UpgradeIds(us);
    assert ids[7] == "reinforcedFinger";
    var k := FindIndex(ids, "reinforcedFinger").value;
    FindIndexUnique(ids, "reinforcedFinger", k);
    PurchaseRaisesOneRate(us, "reinforcedFinger", 7);
  }
}
