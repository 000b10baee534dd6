/** The five item presets of the demo inventory, their hooks, and the
    order of the inventory list. Each hook is a pure function of sellIn. */
module InventoryFactory {
  import opened Wrappers
  import opened JsValues
  import opened InventoryItemFactory

  datatype Preset = AgedBrie | Sulfuras | BackstagePass | ConjuredShield | RegularShield

  function AgedBrieEnhanceBy(sellInValue: int): (r: Option<int>)
    ensures r == Some(1)
  {
    Some(1)
  }

  function SulfurasEnhanceBy(sellInValue: int): (r: Option<int>)
    ensures r == Some(0)
  {
    Some(0)
  }

  function BackstagePassEnhanceBy(sellInValue: int): (r: Option<int>)
    ensures r == Some(3) <==> sellInValue <= 5
    ensures r == Some(2) <==> 6 <= sellInValue <= 10
    ensures r == None <==> sellInValue > 10
  {
    if sellInValue <= 5 then Some(3)
    else if sellInValue <= 10 then Some(2)
    else None
  }

  /** Returns an object only on the day of the concert; on every other day
      it returns `undefined`. */
  function BackstagePassDegradeBy(sellInValue: int): (r: Option<Directive>)
    ensures r.Some? <==> sellInValue == 0
    ensures r.Some? ==> r.value.setQualityTo == Some(0)
  {
    if sellInValue == 0 then Some(Directive(Some(0), false, Undefined)) else None
  }

  /** The configuration record of each preset. Sulfuras also carries an
      `isLegendary` flag that nothing reads. */
  function PresetConfig(p: Preset): (r: Config)
    ensures r.name.StringValue? && HasNonWhiteSpace(r.name.s)
    ensures r.degradationFactorRelativeToNormal == if p == ConjuredShield then Some(2) else None
    ensures r.minSellIn == (if p == Sulfuras then Some(1) else None) && r.minQuality == None
    ensures r.qualityValue.None? <==> p in {ConjuredShield, RegularShield}
    ensures r.qualityVaue == None
  {
    var config := match p
    case AgedBrie =>
      Config(StringValue("Aged Brie"), None, None, None,
             Some(QualityHooks(Some(AgedBrieEnhanceBy), None)), None)
    case Sulfuras =>
      Config(StringValue("Sulfuras the Legendary Sword"), None, Some(1), None,
             Some(QualityHooks(Some(SulfurasEnhanceBy), None)), None)
    case BackstagePass =>
      Config(StringValue("Backstage Pass"), None, None, None,
             Some(QualityHooks(Some(BackstagePassEnhanceBy), Some(BackstagePassDegradeBy))), None)
    case ConjuredShield =>
      Config(StringValue("Conjured Shield"), Some(2), None, None, None, None)
    case RegularShield =>
      Config(StringValue("Regular Shield"), None, None, None, None, None);
    assert !IsWhiteSpace(config.name.s[0]);
    config
  }

  function PresetSettings(p: Preset): ItemSettings {
    SettingsOf(PresetConfig(p))
  }

  /** The inventory list, in display order. */
  const Inventory: seq<Preset> := [AgedBrie, Sulfuras, BackstagePass, ConjuredShield, RegularShield]

  lemma InventoryOrder()
    ensures |Inventory| == 5
    ensures forall p: Preset :: p in Inventory
    ensures forall i, j :: 0 <= i < j < |Inventory| ==> Inventory[i] != Inventory[j]
    ensures PresetConfig(Inventory[0]).name == StringValue("Aged Brie")
    ensures PresetConfig(Inventory[1]).name == StringValue("Sulfuras the Legendary Sword")
    ensures PresetConfig(Inventory[2]).name == StringValue("Backstage Pass")
    ensures PresetConfig(Inventory[3]).name == StringValue("Conjured Shield")
    ensures PresetConfig(Inventory[4]).name == StringValue("Regular Shield")
  {
    forall p: Preset ensures p in Inventory {
      var i := match p
        case AgedBrie => 0
        case Sulfuras => 1
        case BackstagePass => 2
        case ConjuredShield => 3
        case RegularShield => 4;
      assert Inventory[i] == p;
    }
  }

  /** Every preset passes name validation, and then `create` throws on it:
      the shields have no `qualityValue` block, the others no `qualityVaue`
      block. So building the inventory list throws on its first element. */
  lemma {:induction false} CreateThrowsOnEveryPreset(p: Preset)
    ensures HasNonWhiteSpace(PresetConfig(p).name.s)
    ensures Create(PresetConfig(p)) ==
              if p in {ConjuredShield, RegularShield} then ThrowsReadingQualityValue else ThrowsReadingQualityVaue
  {
    var name := PresetConfig(p).name.s;
    assert !IsWhiteSpace(name[0]);
  }

  lemma AgedBrieEnhancesByOne(sellIn: int)
    ensures EnhanceValue(PresetSettings(AgedBrie), sellIn) == Some(1)
  {
  }

  lemma SulfurasEnhancesByZero(sellIn: int)
    ensures EnhanceValue(PresetSettings(Sulfuras), sellIn) == Some(0)
    ensures JsOr(PresetSettings(Sulfuras).minSellIn, 0) == 1
  {
  }

  lemma BackstagePassEnhanceTable(sellIn: int)
    ensures sellIn <= 5 ==> EnhanceValue(PresetSettings(BackstagePass), sellIn) == Some(3)
    ensures 6 <= sellIn <= 10 ==> EnhanceValue(PresetSettings(BackstagePass), sellIn) == Some(2)
    ensures sellIn > 10 ==> EnhanceValue(PresetSettings(BackstagePass), sellIn) == None
  {
  }

  lemma BackstagePassDirectiveOnlyOnConcertDay(sellIn: int)
    ensures PresetSettings(BackstagePass).degradeBy.Some?
    ensures PresetSettings(BackstagePass).degradeBy.value(sellIn).Some? <==> sellIn == 0
    ensures sellIn == 0 ==> PresetSettings(BackstagePass).degradeBy.value(sellIn).value.setQualityTo == Some(0)
  {
  }

  /** The update that brings a Backstage Pass to sellIn 0 makes it
      worthless, whatever its quality was. */
  lemma BackstagePassWorthlessOnConcertDay(st: ItemState, numOfDays: Option<int>)
    requires st.quality > 0
    requires NextSellIn(st.sellIn, None, numOfDays) == 0
    ensures NextState(PresetSettings(BackstagePass), st, numOfDays) == ItemState(0, 0)
    ensures NextQuality(PresetSettings(BackstagePass), 0, st.quality).outcome == Completed
  {
  }

  /** On every other day an update of a Backstage Pass with positive
      quality throws: its `degradeBy` returns `undefined` and the engine
      reads `setQualityTo` off it. The sellIn step has already happened. */
  lemma BackstagePassThrowsBeforeAndAfterConcert(st: ItemState, numOfDays: Option<int>)
    requires st.quality > 0
    requires NextSellIn(st.sellIn, None, numOfDays) != 0
    ensures NextQuality(PresetSettings(BackstagePass), NextSellIn(st.sellIn, None, numOfDays), st.quality)
              == QualityStep(st.quality, TypeError)
    ensures NextState(PresetSettings(BackstagePass), st, numOfDays) == ItemState(NextSellIn(st.sellIn, None, numOfDays), st.quality)
  {
  }

  /** Conjured Shield's default degrade amount is twice Regular Shield's on
      every day. */
  lemma ConjuredDegradesTwiceAsFast(sellIn: int)
    ensures DefaultDegradeAmount(PresetSettings(ConjuredShield).degradationFactorRelativeToNormal, sellIn)
              == 2 * DefaultDegradeAmount(PresetSettings(RegularShield).degradationFactorRelativeToNormal, sellIn)
  {
  }

  /** Every preset but the Backstage Pass keeps its quality under any
      number of updates: none has a degrade hook, none has an enhance hook
      that returns null, so each day is a logged conflict (or a no-op). */
  lemma PresetQualityNeverChanges(p: Preset, st: ItemState, n: nat)
    requires p != BackstagePass
    ensures AfterDays(PresetSettings(p), st, n).quality == st.quality
  {
    QualityFrozenWithoutDegradeHook(PresetSettings(p), st, n);
  }

  /** Sulfuras is never sold out: from sellIn 1 or more it counts down to
      1 and stays there, with its quality unchanged. */
  lemma SulfurasNeverReachesZero(st: ItemState, n: nat)
    requires st.sellIn >= 1
    ensures AfterDays(PresetSettings(Sulfuras), st, n) == ItemState(Max(1, st.sellIn - n), st.quality)
  {
    DefaultDaysStopAtFloor(PresetSettings(Sulfuras), st, n);
    PresetQualityNeverChanges(Sulfuras, st, n);
  }
}
