/**
 * The state of the App component: the `cookies` balance and the `upgrades` list, replaced
 * step by step by the tick, click, purchase and load callbacks. Each React setter becomes an
 * assignment to a field; one callback is one atomic step.
 */
module App {
  import opened Types
  import opened Constants
  import opened Economy
  import opened Persistence

  class Game {
    /** `cookies` */
    var balance: real
    /** `upgrades` */
    var upgrades: seq<Upgrade>

    /** The invariant the engine keeps while it alone changes the state. */
    predicate Valid()
      reads this
    {
      Consistent(balance, upgrades)
    }

    /** The initial `useState` values: no cookies, the catalog with nothing owned. */
    constructor ()
      ensures balance == 0.0
      ensures upgrades == FreshUpgrades(InitialUpgrades())
      ensures Valid()
    {
      balance := 0.0;
      upgrades := FreshUpgrades(InitialUpgrades());
      InitialStateConsistent();
    }

    /** One run of the game loop: `prevCookies + cookiesPerSecond * (GAME_TICK_INTERVAL / 1000)`. */
    method Tick()
      modifies this
      ensures balance == old(balance) + CookiesPerSecond(old(upgrades)) * (GameTickInterval as real / 1000.0)
      ensures balance == old(balance) + CookiesPerSecond(old(upgrades))
      ensures upgrades == old(upgrades)
      ensures old(Valid()) ==> Valid()
    {
      balance := balance + CookiesPerSecond(upgrades) * (GameTickInterval as real / 1000.0);
      if old(Valid()) {
        RatesBounded(upgrades);
      }
    }

    /** The credit of handleCookieClick; the credited amount is what the floating number shows. */
    method Click() returns (credited: real)
      modifies this
      ensures credited == CookiesPerClick(old(upgrades))
      ensures balance == old(balance) + credited
      ensures upgrades == old(upgrades)
      ensures old(Valid()) ==> Valid() && credited >= CookieClickReward
    {
      credited := CookiesPerClick(upgrades);
      balance := balance + credited;
      if old(Valid()) {
        RatesBounded(upgrades);
      }
    }

    /** handleBuyUpgrade: nothing happens for an unknown id or a balance short of the price;
        otherwise the old price is charged and every entry with the id gets one more unit
        and the price for its new count. */
    method Purchase(upgradeId: string) returns (bought: bool)
      modifies this
      ensures bought == Affordable(old(balance), old(upgrades), upgradeId)
      ensures !bought ==> balance == old(balance) && upgrades == old(upgrades)
      ensures bought ==>
        var k := FindIndex(UpgradeIds(old(upgrades)), upgradeId).value;
        && balance == old(balance) - old(upgrades)[k].currentCost
        && upgrades == ApplyPurchase(old(upgrades), upgradeId)
      ensures old(balance) >= 0.0 ==> balance >= 0.0
      ensures old(Valid()) ==> Valid()
      ensures old(Valid()) ==> TotalEarned(balance, upgrades) == TotalEarned(old(balance), old(upgrades))
    {
      var found := FindIndex(UpgradeIds(upgrades), upgradeId);
      if found.None? || balance < upgrades[found.value].currentCost {
        return false;
      }
      var price := upgrades[found.value].currentCost;
      if Valid() {
        PurchasePreservesConsistency(balance, upgrades, upgradeId, found.value);
        PurchaseKeepsTotalEarned(balance, upgrades, upgradeId, found.value);
      }
      balance := balance - price;
      upgrades := ApplyPurchase(upgrades, upgradeId);
      bought := true;
    }

    /** totalCookiesEarnedAllTime: the balance plus, per upgrade, the price of every unit
        bought so far, recomputed from the owned count. */
    method TotalCookiesEarnedAllTime() returns (total: real)
      ensures total == TotalEarned(balance, upgrades)
    {
      var spent: int := 0;
      var j := 0;
      while j < |upgrades|
        invariant 0 <= j <= |upgrades|
        invariant spent == Spent(upgrades[..j])
      {
        var u := upgrades[j];
        var costSum: int := 0;
        var i: nat := 0;
        while i < u.owned
          invariant i <= u.owned
          invariant costSum == PastCosts(u.baseCost, i)
        {
          costSum := costSum + CostAt(u.baseCost, i);
          i := i + 1;
        }
        assert upgrades[..j + 1][..j] == upgrades[..j];
        spent := spent + costSum;
        j := j + 1;
      }
      assert upgrades[..j] == upgrades;
      total := balance + spent as real;
    }

    /** The periodic save: the balance and the full upgrade records. */
    method Save() returns (payload: SavePayload)
      ensures payload == SaveGame(balance, upgrades)
      ensures LoadedBalance(0.0, Some(payload.cookies)) == balance
      ensures LoadedUpgrades([], Some(Parsed(payload.upgrades)), InitialUpgrades()) == upgrades
    {
      payload := SaveGame(balance, upgrades);
      SaveLoadRoundTrip(balance, upgrades, 0.0, [], InitialUpgrades());
    }

    /** The load effect: the balance key and the upgrades key are handled independently. */
    method Load(savedCookies: Option<real>, savedUpgrades: Option<StoredUpgrades>)
      modifies this
      ensures balance == if savedCookies.Some? then savedCookies.value else old(balance)
      ensures savedUpgrades.None? ==> upgrades == old(upgrades)
      ensures savedUpgrades == Some(Unparsable) ==> upgrades == FreshUpgrades(InitialUpgrades())
      ensures savedUpgrades.Some? && savedUpgrades.value.Parsed? ==>
        var merged := CompleteAll(MergeAll(savedUpgrades.value.entries, InitialUpgrades()));
        upgrades == if merged.Some? then merged.value else FreshUpgrades(InitialUpgrades())
    {
      balance := LoadedBalance(balance, savedCookies);
      upgrades := LoadedUpgrades(upgrades, savedUpgrades, InitialUpgrades());
    }
  }

  /** The cursor scenario, played through the class. */
  method CursorScenarioOnGame()
  {
    var game := new Game();
    game.balance := 15.0;
    CursorScenario();
    var bought := game.Purchase("cursor");
    assert bought;
    assert game.balance == 0.0;
    assert game.upgrades[0].owned == 1 && game.upgrades[0].currentCost == 17.0;
  }
}
