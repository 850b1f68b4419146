/**
 * Saving and loading of App.tsx. The store and JSON are abstract: a save is the record
 * itself, and reading the upgrades key gives either the parsed entries or a parse failure.
 *
 * The load merge is modelled as the code behaves: `.filter(Boolean)` never removes anything,
 * because `{...template, ...savedUpg}` is always an object, so entries whose id the catalog
 * no longer knows are kept, and catalog entries missing from the save are not added back.
 * `Reconcile` at the end is a merge of this model's own design: it drops stale ids, as the
 * comment on that line says the filter does, and it also brings back missing catalog entries
 * in catalog order, which no comment asks for. Nothing else here uses it.
 */
module Persistence {
  import opened Types
  import opened Economy

  /** One parsed entry of the upgrades key: an id and whichever fields the save carried. */
  datatype SavedEntry = SavedEntry(
    id: string,
    baseCost: Option<real>,
    currentCost: Option<real>,
    effectType: Option<EffectType>,
    baseEffectValue: Option<real>,
    owned: Option<nat>)

  /** The upgrades key, once present: parsed entries, or a failure of JSON.parse. */
  datatype StoredUpgrades = Unparsable | Parsed(entries: seq<SavedEntry>)

  /** What one save writes under the two keys. */
  datatype SavePayload = SavePayload(cookies: real, upgrades: seq<SavedEntry>)

  // ---------------------------------------------------------------------------------------
  // Save

  /** `JSON.stringify` of one full upgrade record: every field is written. */
  function Saved(u: Upgrade): (e: SavedEntry)
  {
    SavedEntry(u.id, Some(u.baseCost), Some(u.currentCost), Some(u.effectType),
               Some(u.baseEffectValue), Some(u.owned))
  }

  function SaveUpgrades(us: seq<Upgrade>): (es: seq<SavedEntry>)
  {
    seq(|us|, i requires 0 <= i < |us| => Saved(us[i]))
  }

  /** The save payload: the balance and every upgrade, in list order. */
  function SaveGame(balance: real, us: seq<Upgrade>): (p: SavePayload)
  {
    SavePayload(balance, SaveUpgrades(us))
  }

  // ---------------------------------------------------------------------------------------
  // Load merge, as written

  function SavedIds(es: seq<SavedEntry>): (ids: seq<string>)
  {
    seq(|es|, i requires 0 <= i < |es| => es[i].id)
  }

  /** One field of `{...template, ...savedUpg}` when a template exists. */
  function Spread<T>(saved: Option<T>, default: T): (r: Option<T>)
  {
    match saved
    case Some(_) => saved
    case None => Some(default)
  }

  /** `{...template, ...savedUpg}` with the first catalog entry of the same id as template;
      with no such entry, spreading `undefined` adds nothing. Templates carry no `owned` or
      `currentCost`, so those two stay as saved. */
  function MergeEntry(e: SavedEntry, c: seq<Template>): (m: SavedEntry)
  {
    match FindIndex(TemplateIds(c), e.id)
    case None => e
    case Some(k) =>
      var t := c[k];
      SavedEntry(e.id, Spread(e.baseCost, t.baseCost), e.currentCost,
                 Spread(e.effectType, t.effectType), Spread(e.baseEffectValue, t.baseEffectValue),
                 e.owned)
  }

  /** `parsedUpgrades.map(...).filter(Boolean)`: the filter keeps every merged object. */
  function MergeAll(es: seq<SavedEntry>, c: seq<Template>): (ms: seq<SavedEntry>)
  {
    seq(|es|, i requires 0 <= i < |es| => MergeEntry(es[i], c))
  }

  /** Every field the save carried is kept as saved. */
  predicate Overrides(e: SavedEntry, m: SavedEntry)
  {
    && m.id == e.id
    && (e.baseCost.Some? ==> m.baseCost == e.baseCost)
    && (e.currentCost.Some? ==> m.currentCost == e.currentCost)
    && (e.effectType.Some? ==> m.effectType == e.effectType)
    && (e.baseEffectValue.Some? ==> m.baseEffectValue == e.baseEffectValue)
    && (e.owned.Some? ==> m.owned == e.owned)
  }

  /** Every field the save lacked comes from the template, except the two templates lack. */
  predicate FilledFrom(e: SavedEntry, t: Template, m: SavedEntry)
  {
    && (e.baseCost.None? ==> m.baseCost == Some(t.baseCost))
    && (e.effectType.None? ==> m.effectType == Some(t.effectType))
    && (e.baseEffectValue.None? ==> m.baseEffectValue == Some(t.baseEffectValue))
    && m.owned == e.owned && m.currentCost == e.currentCost
  }

  /** The merge yields one entry per saved entry, in saved order; saved fields win; missing
      fields come from the template of that id when there is one, and an entry with an id the
      catalog does not know is kept as saved. */
  lemma MergeShape(es: seq<SavedEntry>, c: seq<Template>)
    ensures |MergeAll(es, c)| == |es|
    ensures SavedIds(MergeAll(es, c)) == SavedIds(es)
    ensures forall i :: 0 <= i < |es| ==> Overrides(es[i], MergeAll(es, c)[i])
    ensures forall i, k :: 0 <= i < |es| && FindIndex(TemplateIds(c), es[i].id) == Some(k) ==>
      FilledFrom(es[i], c[k], MergeAll(es, c)[i])
    ensures forall i :: 0 <= i < |es| && es[i].id !in TemplateIds(c) ==> MergeAll(es, c)[i] == es[i]
  {
  }

  /** A catalog id the save does not mention does not reappear after the merge. */
  lemma MergeDoesNotRestoreMissing(es: seq<SavedEntry>, c: seq<Template>, id: string)
    requires id !in SavedIds(es)
    ensures id !in SavedIds(MergeAll(es, c))
  {
    MergeShape(es, c);
  }

  /** This model's stand-in for `validatedUpgrades as Upgrade[]`. That cast is a type assertion
      that checks nothing and keeps every merged object, so a record is built here only from an
      entry that has every field; a partial entry has no record to become. */
  function Complete(e: SavedEntry): (r: Option<Upgrade>)
    ensures r.Some? ==> Saved(r.value) == e
    ensures r.None? ==>
      (|| e.baseCost.None? || e.currentCost.None? || e.effectType.None?
       || e.baseEffectValue.None? || e.owned.None?)
  {
    if e.baseCost.Some? && e.currentCost.Some? && e.effectType.Some? && e.baseEffectValue.Some?
       && e.owned.Some?
    then Some(Upgrade(e.id, e.baseCost.value, e.currentCost.value, e.effectType.value,
                      e.baseEffectValue.value, e.owned.value))
    else None
  }

  /** The whole list cast to records: it succeeds exactly when every entry is complete, and
      the records then save back to the entries. */
  function CompleteAll(es: seq<SavedEntry>): (r: Option<seq<Upgrade>>)
    ensures r.Some? <==> forall i :: 0 <= i < |es| ==> Complete(es[i]).Some?
    ensures r.Some? ==> SaveUpgrades(r.value) == es
  {
    if es == [] then Some([])
    else match (Complete(es[0]), CompleteAll(es[1..]))
      case (Some(u), Some(us)) =>
        assert SaveUpgrades([u] + us) == [Saved(u)] + SaveUpgrades(us);
        assert es == [es[0]] + es[1..];
        assert forall i :: 1 <= i < |es| ==> es[i] == es[1..][i - 1];
        Some([u] + us)
      case (None, _) => None
      case (Some(_), None) =>
        var j :| 0 <= j < |es[1..]| && Complete(es[1..][j]).None?;
        assert Complete(es[j + 1]).None?;
        None
  }

  /** The balance after load: `parseFloat` of the cookies key when it holds a value. */
  function LoadedBalance(current: real, savedCookies: Option<real>): (b: real)
  {
    match savedCookies
    case Some(v) => v
    case None => current
  }

  /** The upgrades after load: unchanged without the key, the fresh list on a parse failure,
      else the merged entries (the fresh list also when a merged entry still lacks a field). */
  function LoadedUpgrades(current: seq<Upgrade>, stored: Option<StoredUpgrades>, c: seq<Template>)
    : (us: seq<Upgrade>)
  {
    match stored
    case None => current
    case Some(Unparsable) => FreshUpgrades(c)
    case Some(Parsed(es)) =>
      match CompleteAll(MergeAll(es, c))
      case Some(merged) => merged
      case None => FreshUpgrades(c)
  }

  /** A known id saved without its count makes the cast fail, so the whole list, the complete
      entries included, falls back to the fresh one. */
  lemma PartialEntryResetsList()
    ensures var c := Constants.InitialUpgrades();
      var es := [SavedEntry("cursor", None, Some(15.0), None, None, None),
                 Saved(Bought(Instantiate(c[1])))];
      LoadedUpgrades([], Some(Parsed(es)), c) == FreshUpgrades(c)
  {
    var c := Constants.InitialUpgrades();
    var es := [SavedEntry("cursor", None, Some(15.0), None, None, None),
               Saved(Bought(Instantiate(c[1])))];
    assert MergeAll(es, c)[0].owned.None?;
  }

  lemma SavedMergesToItself(u: Upgrade, c: seq<Template>)
    ensures MergeEntry(Saved(u), c) == Saved(u)
  {
  }

  lemma {:induction false} CompleteSaved(us: seq<Upgrade>)
    ensures CompleteAll(SaveUpgrades(us)) == Some(us)
  {
    if us != [] {
      CompleteSaved(us[1..]);
      assert SaveUpgrades(us)[1..] == SaveUpgrades(us[1..]);
      assert [us[0]] + us[1..] == us;
    }
  }

  /** Loading what save wrote gives back the balance and the whole upgrade list, whatever the
      catalog, since a full record overrides every template field. */
  lemma SaveLoadRoundTrip(balance: real, us: seq<Upgrade>, current: real, currentUs: seq<Upgrade>,
                          c: seq<Template>)
    ensures var p := SaveGame(balance, us);
      && LoadedBalance(current, Some(p.cookies)) == balance
      && LoadedUpgrades(currentUs, Some(Parsed(p.upgrades)), c) == us
  {
    var es := SaveUpgrades(us);
    forall i | 0 <= i < |es|
      ensures MergeAll(es, c)[i] == es[i]
    {
      SavedMergesToItself(us[i], c);
    }
    assert MergeAll(es, c) == es;
    CompleteSaved(us);
  }

  /** A saved upgrade whose id the catalog no longer has survives the load: the list comes back
      with one entry more than the catalog has. */
  lemma StaleEntryKept(stale: Upgrade)
    requires stale.id !in TemplateIds(Constants.InitialUpgrades())
    ensures var us := FreshUpgrades(Constants.InitialUpgrades()) + [stale];
      var loaded := LoadedUpgrades([], Some(Parsed(SaveUpgrades(us))), Constants.InitialUpgrades());
      && |loaded| == Constants.CatalogSize + 1
      && loaded[Constants.CatalogSize] == stale
  {
    var us := FreshUpgrades(Constants.InitialUpgrades()) + [stale];
    SaveLoadRoundTrip(0.0, us, 0.0, [], Constants.InitialUpgrades());
  }

  // ---------------------------------------------------------------------------------------
  // The intended reconcile (not what the code does)

  /** One catalog entry with the saved fields of the same id laid over it; a missing count is
      0 and a missing price is the base cost. */
  function Overlay(e: SavedEntry, t: Template): (u: Upgrade)
  {
    Upgrade(t.id,
            match e.baseCost case Some(v) => v case None => t.baseCost,
            match e.currentCost case Some(v) => v case None => t.baseCost,
            match e.effectType case Some(v) => v case None => t.effectType,
            match e.baseEffectValue case Some(v) => v case None => t.baseEffectValue,
            match e.owned case Some(v) => v case None => 0)
  }

  /** A reconciling merge: one entry per catalog entry, in catalog order, taken from the first
      saved entry of that id, or fresh when the save has none. Dropping stale ids is what the
      comment on the filter promises; restoring missing entries and following catalog order
      are this model's choice. */
  function Reconcile(es: seq<SavedEntry>, c: seq<Template>): (us: seq<Upgrade>)
  {
    seq(|c|, j requires 0 <= j < |c| =>
      match FindIndex(SavedIds(es), c[j].id)
      case None => Instantiate(c[j])
      case Some(i) => Overlay(es[i], c[j]))
  }

  /** The intended reconcile yields the catalog's ids in catalog order, so stale entries are
      dropped; a catalog entry the save lacks comes back fresh, and saved counts and prices
      are taken over. */
  lemma ReconcileFollowsCatalog(es: seq<SavedEntry>, c: seq<Template>)
    ensures |Reconcile(es, c)| == |c|
    ensures UpgradeIds(Reconcile(es, c)) == TemplateIds(c)
    ensures forall i :: 0 <= i < |es| && es[i].id !in TemplateIds(c) ==>
      es[i].id !in UpgradeIds(Reconcile(es, c))
    ensures forall j :: 0 <= j < |c| && c[j].id !in SavedIds(es) ==>
      Reconcile(es, c)[j] == Instantiate(c[j])
    ensures forall j, i :: 0 <= j < |c| && FindIndex(SavedIds(es), c[j].id) == Some(i) ==>
      (es[i].owned.Some? ==> Reconcile(es, c)[j].owned == es[i].owned.value) &&
      (es[i].currentCost.Some? ==> Reconcile(es, c)[j].currentCost == es[i].currentCost.value)
  {
  }
}
