/** The records of types.ts, and the id lookup `Array.prototype.find` performs on them. */
module Types {

  datatype Option<+T> = None | Some(value: T)

  /** `effectType: 'cps' | 'click'` */
  datatype EffectType = Cps | Click

  /** A catalog entry: an `Upgrade` without `currentCost` and `owned`. */
  datatype Template = Template(
    id: string,
    baseCost: real,
    effectType: EffectType,
    baseEffectValue: real)

  /** One upgrade of the running game. */
  datatype Upgrade = Upgrade(
    id: string,
    baseCost: real,
    currentCost: real,
    effectType: EffectType,
    baseEffectValue: real,
    owned: nat)

  function TemplateIds(c: seq<Template>): (ids: seq<string>)
  {
    seq(|c|, i requires 0 <= i < |c| => c[i].id)
  }

  function UpgradeIds(us: seq<Upgrade>): (ids: seq<string>)
  {
    seq(|us|, i requires 0 <= i < |us| => us[i].id)
  }

  predicate Distinct(ids: seq<string>)
  {
    forall i, j :: 0 <= i < j < |ids| ==> ids[i] != ids[j]
  }

  /** The index of the first occurrence of `id`, as `find(x => x.id === id)` locates it. */
  function FindIndex(ids: seq<string>, id: string): (r: Option<nat>)
    ensures r.Some? ==> r.value < |ids| && ids[r.value] == id
    ensures r.Some? ==> forall j :: 0 <= j < r.value ==> ids[j] != id
    ensures r.None? <==> id !in ids
  {
    if |ids| == 0 then None
    else if ids[0] == id then Some(0)
    else match FindIndex(ids[1..], id)
      case None => None
      case Some(k) => Some(k + 1)
  }

  /** With distinct ids the entry `find` returns is the only one carrying that id. */
  lemma {:induction false} FindIndexUnique(ids: seq<string>, id: string, k: nat)
    requires Distinct(ids)
    requires FindIndex(ids, id) == Some(k)
    ensures forall j :: 0 <= j < |ids| && ids[j] == id ==> j == k
  {
  }
}
