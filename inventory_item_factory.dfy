/** The per-item daily update engine: the InventoryItem prototype
    (update, updateSellInValue, updateQualityValue), the `create` factory
    function that validates a configuration, and its string predicates.

    The prototype methods are modelled twice over: as the pure rules
    NextSellIn, NextQuality and NextState, which the lemmas reason about, and
    as the methods of class InventoryItem, which update the two fields in
    place and are proved to follow those rules. */
module InventoryItemFactory {
  import opened Wrappers
  import opened JsValues

  /** The amount a regular item loses per day. */
  const RegularDegradationFactor: int := 1

  /** What a `degradeBy` hook returns when it returns an object. An absent
      `setQualityTo` is None (`undefined` and `null` are treated alike by the
      `!= null` test), an absent `isRelative` is false. */
  datatype Directive = Directive(setQualityTo: Option<int>, isRelative: bool, factor: JsNumber)

  /** `enhanceBy(sellInValue)`: a number, or None for `null`/`undefined`. */
  type EnhanceHook = int -> Option<int>

  /** `degradeBy(sellInValue)`: a directive object, or None for `undefined`. */
  type DegradeHook = int -> Option<Directive>

  /** The `qualityValue` block of a configuration: each hook may be absent. */
  datatype QualityHooks = QualityHooks(enhanceBy: Option<EnhanceHook>, degradeBy: Option<DegradeHook>)

  /** The value in a configuration's `name` property. */
  datatype NameValue = StringValue(s: string) | NonString

  /** A configuration record as `create` reads it. Absent properties are
      None. `qualityVaue` is the misspelt property that `create` reads its
      `degradeBy` hook from; no configuration in the repository sets it. */
  datatype Config = Config(
    name: NameValue,
    degradationFactorRelativeToNormal: Option<int>,
    minSellIn: Option<int>,
    minQuality: Option<int>,
    qualityValue: Option<QualityHooks>,
    qualityVaue: Option<QualityHooks>)

  /** `isString`: true of string primitives and String objects alike, false
      of every other value (`undefined` included). */
  predicate IsString(v: NameValue)
    ensures IsString(v) <==> v != NonString
  {
    v.StringValue?
  }

  /** `isStringEmpty`: a string that trims to nothing. The `str == null`
      disjunct of the source can never hold once `isString` did. */
  predicate IsStringEmpty(v: NameValue)
    ensures IsStringEmpty(v) <==> v.StringValue? && !HasNonWhiteSpace(v.s)
  {
    IsString(v) && |Trim(v.s)| == 0
  }

  /** How a call of `create` ends, as the code is written. It never returns
      the item it builds: it logs and returns null for a bad name, throws a
      TypeError when a hook block it dereferences is absent, and otherwise
      falls off its end and returns undefined. */
  datatype CreateOutcome =
    | NullForBadName
    | ThrowsReadingQualityValue
    | ThrowsReadingQualityVaue
    | ReturnsUndefined

  function Create(config: Config): (r: CreateOutcome)
    ensures r == NullForBadName <==> !(config.name.StringValue? && HasNonWhiteSpace(config.name.s))
    ensures r == ThrowsReadingQualityValue <==>
              config.name.StringValue? && HasNonWhiteSpace(config.name.s) && config.qualityValue.None?
    ensures r == ThrowsReadingQualityVaue <==>
              config.name.StringValue? && HasNonWhiteSpace(config.name.s) && config.qualityValue.Some? && config.qualityVaue.None?
    ensures r == ReturnsUndefined <==>
              config.name.StringValue? && HasNonWhiteSpace(config.name.s) && config.qualityValue.Some? && config.qualityVaue.Some?
  {
    if !IsString(config.name) || IsStringEmpty(config.name) then
      NullForBadName
    else if config.qualityValue.None? then
      ThrowsReadingQualityValue
    else if config.qualityVaue.None? then
      ThrowsReadingQualityVaue
    else
      ReturnsUndefined
  }

  /** The configuration an item carries once `create` has copied it. */
  datatype ItemSettings = ItemSettings(
    degradationFactorRelativeToNormal: int,
    minSellIn: Option<int>,
    minQuality: Option<int>,
    enhanceBy: Option<EnhanceHook>,
    degradeBy: Option<DegradeHook>)

  /** The field values `create` assigns: the degradation factor defaults to
      1 when absent or 0, the floors are copied as they are, and both hooks
      come from the `qualityValue` block (an absent block gives no hooks).
      As written, `create` reads `degradeBy` from the misspelt `qualityVaue`
      instead and throws there (see Create). */
  function SettingsOf(config: Config): (r: ItemSettings)
    ensures r.degradationFactorRelativeToNormal != 0
    ensures config.degradationFactorRelativeToNormal in {None, Some(0)} ==> r.degradationFactorRelativeToNormal == 1
    ensures config.degradationFactorRelativeToNormal.Some? && config.degradationFactorRelativeToNormal.value != 0 ==>
              r.degradationFactorRelativeToNormal == config.degradationFactorRelativeToNormal.value
    ensures r.minSellIn == config.minSellIn && r.minQuality == config.minQuality
    ensures config.qualityValue.None? ==> r.enhanceBy.None? && r.degradeBy.None?
    ensures config.qualityValue.Some? ==>
              r.enhanceBy == config.qualityValue.value.enhanceBy && r.degradeBy == config.qualityValue.value.degradeBy
  {
    var hooks := match config.qualityValue
      case Some(h) => h
      case None => QualityHooks(None, None);
    ItemSettings(JsOr(config.degradationFactorRelativeToNormal, 1), config.minSellIn, config.minQuality,
                 hooks.enhanceBy, hooks.degradeBy)
  }

  /** The two numbers that change from day to day. */
  datatype ItemState = ItemState(sellIn: int, quality: int)

  /** `updateSellInValue(numOfDays)`, with None for an omitted argument
      (`undefined > n` is false, and `undefined == null` picks the default
      of one day). The floor `minSellIn || 0` is not enforced on an explicit
      count that does not overshoot sellIn. */
  function NextSellIn(sellIn: int, minSellIn: Option<int>, numOfDays: Option<int>): (r: int)
    ensures numOfDays.Some? && numOfDays.value > sellIn ==> r == JsOr(minSellIn, 0)
    ensures numOfDays.None? && sellIn > JsOr(minSellIn, 0) ==> r == sellIn - 1
    ensures numOfDays.None? && sellIn <= JsOr(minSellIn, 0) ==> r == sellIn
    ensures numOfDays.None? && sellIn >= JsOr(minSellIn, 0) ==> r >= JsOr(minSellIn, 0)
    ensures numOfDays.Some? && numOfDays.value <= sellIn && sellIn > JsOr(minSellIn, 0) ==> r == sellIn - numOfDays.value
    ensures numOfDays.Some? && numOfDays.value <= sellIn && sellIn <= JsOr(minSellIn, 0) ==> r == sellIn
    ensures JsOr(minSellIn, 0) == 0 && numOfDays.Some? && numOfDays.value >= 0 ==> r >= 0
  {
    var floor := JsOr(minSellIn, 0);
    if numOfDays.Some? && numOfDays.value > sellIn then
      floor
    else if sellIn > floor then
      sellIn - (if numOfDays.None? then 1 else numOfDays.value)
    else
      sellIn
  }

  /** How `updateQualityValue` ends: normally, after logging the
      enhance/degrade conflict (quality untouched), or with the TypeError of
      reading `setQualityTo` off an undefined directive (quality untouched). */
  datatype Outcome = Completed | ConflictLogged | TypeError

  datatype QualityStep = QualityStep(quality: int, outcome: Outcome)

  /** The degrade amount before any hook is consulted: the item's factor
      times the regular factor, doubled on the day sellIn is 0. */
  function DefaultDegradeAmount(factor: int, sellIn: int): (r: int)
    ensures sellIn == 0 ==> r == 2 * factor
    ensures sellIn != 0 ==> r == factor
  {
    var defaultDegradationValue := RegularDegradationFactor * factor;
    if sellIn == 0 then defaultDegradationValue * 2 else defaultDegradationValue
  }

  /** `enhanceByValue` once the hook has run: 0 when there is no hook. */
  function EnhanceValue(s: ItemSettings, sellIn: int): (r: Option<int>)
    ensures s.enhanceBy.None? ==> r == Some(0)
    ensures s.enhanceBy.Some? ==> r == s.enhanceBy.value(sellIn)
  {
    match s.enhanceBy
    case Some(hook) => hook(sellIn)
    case None => Some(0)
  }

  /** `degradeByValue` as a directive without `setQualityTo` sets it: the
      factor scaled by the default amount when relative, verbatim otherwise. */
  function DirectiveAmount(d: Directive, defaultDegradationValue: int): (r: JsNumber)
    ensures !d.isRelative ==> r == d.factor
    ensures d.isRelative ==> r == d.factor.Times(defaultDegradationValue)
    ensures d.isRelative && d.factor.Num? ==> r == Num(d.factor.n * defaultDegradationValue)
    ensures r.IsNullish() ==> !d.isRelative
  {
    if d.isRelative then d.factor.Times(defaultDegradationValue) else d.factor
  }

  /** The closing if-chain of `updateQualityValue`: a conflict when both
      values are non-null, else the enhancement, else the degradation,
      falling to the floor when quality would not stay positive. */
  function ApplyValues(enhanceByValue: Option<int>, degradeByValue: JsNumber, quality: int, minQuality: int): (r: QualityStep)
    ensures enhanceByValue.Some? && !degradeByValue.IsNullish() ==> r == QualityStep(quality, ConflictLogged)
    ensures enhanceByValue.Some? && degradeByValue.IsNullish() ==> r == QualityStep(quality + enhanceByValue.value, Completed)
    ensures enhanceByValue.None? ==> r.outcome == Completed && (r.quality > 0 || r.quality == minQuality)
    ensures enhanceByValue.None? && degradeByValue.Num? && quality - degradeByValue.n > 0 ==> r.quality == quality - degradeByValue.n
    ensures enhanceByValue.None? && degradeByValue.Num? && quality - degradeByValue.n <= 0 ==> r.quality == minQuality
    ensures enhanceByValue.None? && degradeByValue.Null? && quality > 0 ==> r.quality == quality
    ensures enhanceByValue.None? && (degradeByValue.Undefined? || degradeByValue.NaN?) ==> r.quality == minQuality
  {
    if enhanceByValue.Some? && !degradeByValue.IsNullish() then
      QualityStep(quality, ConflictLogged)
    else if enhanceByValue.Some? then
      QualityStep(quality + enhanceByValue.value, Completed)
    else if degradeByValue.SubtractedFrom(quality).IsPositive() then
      QualityStep(degradeByValue.SubtractedFrom(quality).n, Completed)
    else
      QualityStep(minQuality, Completed)
  }

  /** `updateQualityValue` on an item whose sellIn has already been
      advanced. */
  function NextQuality(s: ItemSettings, sellIn: int, quality: int): (r: QualityStep)
    ensures quality <= 0 ==> r == QualityStep(quality, Completed)
    ensures r.outcome != Completed ==> r.quality == quality
    ensures r.outcome == TypeError <==> quality > 0 && s.degradeBy.Some? && s.degradeBy.value(sellIn).None?
    ensures r.outcome == ConflictLogged ==> quality > 0 && EnhanceValue(s, sellIn).Some?
  {
    var minQuality := JsOr(s.minQuality, 0);
    if quality <= 0 then
      QualityStep(quality, Completed)
    else
      var defaultDegradationValue := RegularDegradationFactor * s.degradationFactorRelativeToNormal;
      var enhanceByValue := EnhanceValue(s, sellIn);
      var degradeByValue := Num(DefaultDegradeAmount(s.degradationFactorRelativeToNormal, sellIn));
      match s.degradeBy
      case None =>
        ApplyValues(enhanceByValue, degradeByValue, quality, minQuality)
      case Some(hook) =>
        match hook(sellIn)
        case None => QualityStep(quality, TypeError)
        case Some(d) =>
          if d.setQualityTo.Some? then
            QualityStep(d.setQualityTo.value, Completed)
          else
            ApplyValues(enhanceByValue, DirectiveAmount(d, defaultDegradationValue), quality, minQuality)
  }

  /** `update(numOfDays)`: sellIn first, then quality from the new sellIn.
      When the quality step throws, sellIn has already moved. */
  function NextState(s: ItemSettings, st: ItemState, numOfDays: Option<int>): (r: ItemState)
    ensures r.sellIn == NextSellIn(st.sellIn, s.minSellIn, numOfDays)
    ensures r.quality == NextQuality(s, r.sellIn, st.quality).quality
    ensures st.quality <= 0 ==> r.quality == st.quality
    ensures NextQuality(s, r.sellIn, st.quality).outcome != Completed ==> r.quality == st.quality
  {
    var sellIn := NextSellIn(st.sellIn, s.minSellIn, numOfDays);
    ItemState(sellIn, NextQuality(s, sellIn, st.quality).quality)
  }

  /** The state after `n` calls of `update()` with no argument, as the
      inventory screen's "update all" makes once per click. */
  function AfterDays(s: ItemSettings, st: ItemState, n: nat): ItemState
    decreases n
  {
    if n == 0 then st else AfterDays(s, NextState(s, st, None), n - 1)
  }

  function Max(a: int, b: int): int {
    if a < b then b else a
  }

  /** A `setQualityTo` directive (0 included) decides the new quality on
      its own, whatever the enhance hook says. */
  lemma PinnedQualityIgnoresEnhance(s: ItemSettings, sellIn: int, quality: int, d: Directive)
    requires quality > 0 && s.degradeBy.Some? && s.degradeBy.value(sellIn) == Some(d)
    requires d.setQualityTo.Some?
    ensures NextQuality(s, sellIn, quality) == QualityStep(d.setQualityTo.value, Completed)
  {
  }

  /** When the enhance value and the degrade amount are both non-null the
      conflict is logged and quality stays as it was. */
  lemma ConflictLeavesQuality(s: ItemSettings, sellIn: int, quality: int)
    requires quality > 0 && EnhanceValue(s, sellIn).Some?
    requires s.degradeBy.Some? ==> s.degradeBy.value(sellIn).Some?
    requires s.degradeBy.Some? ==> s.degradeBy.value(sellIn).value.setQualityTo.None?
    requires s.degradeBy.Some? ==>
               !DirectiveAmount(s.degradeBy.value(sellIn).value, s.degradationFactorRelativeToNormal).IsNullish()
    ensures NextQuality(s, sellIn, quality) == QualityStep(quality, ConflictLogged)
  {
  }

  /** Because `enhanceByValue` starts at 0 rather than null, an item with
      neither hook never degrades: every update with positive quality is a
      logged conflict. */
  lemma NoHooksMeansConflict(s: ItemSettings, sellIn: int, quality: int)
    requires s.enhanceBy.None? && s.degradeBy.None? && quality > 0
    ensures NextQuality(s, sellIn, quality) == QualityStep(quality, ConflictLogged)
  {
  }

  /** The default degrade branch: taken only when the enhance hook returns
      null and there is no degrade hook. Quality drops by the default amount
      (doubled at sellIn 0) or falls to the floor `minQuality || 0`. */
  lemma DefaultDegradeBranch(s: ItemSettings, sellIn: int, quality: int)
    requires quality > 0 && s.degradeBy.None? && EnhanceValue(s, sellIn).None?
    ensures var amount := (if sellIn == 0 then 2 else 1) * s.degradationFactorRelativeToNormal;
            NextQuality(s, sellIn, quality) ==
              QualityStep(if quality - amount > 0 then quality - amount else JsOr(s.minQuality, 0), Completed)
  {
  }

  /** The directive degrade branch: a numeric factor replaces the default
      amount, multiplied by the item's factor when relative. */
  lemma DirectiveDegradeBranch(s: ItemSettings, sellIn: int, quality: int, d: Directive)
    requires quality > 0 && EnhanceValue(s, sellIn).None?
    requires s.degradeBy.Some? && s.degradeBy.value(sellIn) == Some(d)
    requires d.setQualityTo.None? && d.factor.Num?
    ensures var amount := if d.isRelative then d.factor.n * s.degradationFactorRelativeToNormal else d.factor.n;
            NextQuality(s, sellIn, quality) ==
              QualityStep(if quality - amount > 0 then quality - amount else JsOr(s.minQuality, 0), Completed)
  {
  }

  /** A directive whose factor is not a number: `null` (which `null * x`
      and `q - null` turn into 0) keeps quality, `undefined` (which turns
      the arithmetic into `NaN`, and `NaN > 0` is false) sends quality to
      the floor. */
  lemma NonNumericFactorBranch(s: ItemSettings, sellIn: int, quality: int, d: Directive)
    requires quality > 0 && EnhanceValue(s, sellIn).None?
    requires s.degradeBy.Some? && s.degradeBy.value(sellIn) == Some(d)
    requires d.setQualityTo.None? && !d.factor.Num?
    ensures d.factor.Null? ==> NextQuality(s, sellIn, quality) == QualityStep(quality, Completed)
    ensures !d.factor.Null? ==> NextQuality(s, sellIn, quality) == QualityStep(JsOr(s.minQuality, 0), Completed)
  {
  }

  /** Enhancement is possible only alongside a non-relative directive whose
      factor is null or undefined; it adds the hook value exactly, with no
      cap at 50 or anywhere else. */
  lemma EnhancementIsUncapped(s: ItemSettings, sellIn: int, quality: int, e: int, d: Directive)
    requires quality > 0 && EnhanceValue(s, sellIn) == Some(e)
    requires s.degradeBy.Some? && s.degradeBy.value(sellIn) == Some(d)
    requires d.setQualityTo.None? && !d.isRelative && d.factor.IsNullish()
    ensures NextQuality(s, sellIn, quality) == QualityStep(quality + e, Completed)
  {
  }

  /** `update` moves sellIn before quality is recomputed: the update that
      takes sellIn from 1 to 0 already degrades at the doubled rate. */
  lemma DoublingSeesAdvancedSellIn(s: ItemSettings, quality: int)
    requires JsOr(s.minSellIn, 0) == 0 && s.degradeBy.None? && EnhanceValue(s, 0).None?
    requires s.degradationFactorRelativeToNormal > 0 && quality > 2 * s.degradationFactorRelativeToNormal
    ensures NextState(s, ItemState(1, quality), None) == ItemState(0, quality - 2 * s.degradationFactorRelativeToNormal)
  {
  }

  /** Under default-day updates an item at or above its sellIn floor goes
      down one day at a time and stops at the floor. */
  lemma {:induction false} DefaultDaysStopAtFloor(s: ItemSettings, st: ItemState, n: nat)
    requires st.sellIn >= JsOr(s.minSellIn, 0)
    ensures AfterDays(s, st, n).sellIn == Max(JsOr(s.minSellIn, 0), st.sellIn - n)
    decreases n
  {
    if n > 0 {
      DefaultDaysStopAtFloor(s, NextState(s, st, None), n - 1);
    }
  }

  /** Quality at or below 0 is never touched again, however many days pass. */
  lemma {:induction false} NonPositiveQualityIsFinal(s: ItemSettings, st: ItemState, n: nat)
    requires st.quality <= 0
    ensures AfterDays(s, st, n).quality == st.quality
    decreases n
  {
    if n > 0 {
      NonPositiveQualityIsFinal(s, NextState(s, st, None), n - 1);
    }
  }

  /** An item with no degrade hook whose enhance hook never returns null
      (or that has none) keeps its quality forever: each day is either a
      no-op at quality <= 0 or a logged conflict. */
  lemma {:induction false} QualityFrozenWithoutDegradeHook(s: ItemSettings, st: ItemState, n: nat)
    requires s.degradeBy.None?
    requires forall k :: EnhanceValue(s, k).Some?
    ensures AfterDays(s, st, n).quality == st.quality
    decreases n
  {
    if n > 0 {
      QualityFrozenWithoutDegradeHook(s, NextState(s, st, None), n - 1);
    }
  }

  /** An item object: the configuration `create` copies, and the two values
      the prototype methods update in place. */
  class InventoryItem {
    const name: string
    const degradationFactorRelativeToNormal: int
    const minSellIn: Option<int>
    const minQuality: Option<int>
    const enhanceBy: Option<EnhanceHook>
    const degradeBy: Option<DegradeHook>
    var sellInValue: int
    var qualityValue: int

    function Settings(): ItemSettings {
      ItemSettings(degradationFactorRelativeToNormal, minSellIn, minQuality, enhanceBy, degradeBy)
    }

    function State(): ItemState
      reads this
    {
      ItemState(sellInValue, qualityValue)
    }

    /** The item `create` lays out once the name has passed validation,
        with the values `resetValues` would draw given as `sellIn` and
        `quality`. See SettingsOf for how the hooks are read. */
    constructor (config: Config, sellIn: int, quality: int)
      requires IsString(config.name) && !IsStringEmpty(config.name)
      ensures name == config.name.s
      ensures Settings() == SettingsOf(config)
      ensures State() == ItemState(sellIn, quality)
    {
      var settings := SettingsOf(config);
      name := config.name.s;
      degradationFactorRelativeToNormal := settings.degradationFactorRelativeToNormal;
      minSellIn := settings.minSellIn;
      minQuality := settings.minQuality;
      enhanceBy := settings.enhanceBy;
      degradeBy := settings.degradeBy;
      sellInValue := sellIn;
      qualityValue := quality;
    }

    method Update(numOfDays: Option<int>) returns (outcome: Outcome)
      modifies this
      ensures sellInValue == NextSellIn(old(sellInValue), minSellIn, numOfDays)
      ensures QualityStep(qualityValue, outcome) == NextQuality(Settings(), sellInValue, old(qualityValue))
      ensures State() == NextState(Settings(), old(State()), numOfDays)
    {
      var _ := UpdateSellInValue(numOfDays);
      var _, o := UpdateQualityValue();
      outcome := o;
    }

    method UpdateSellInValue(numOfDays: Option<int>) returns (r: int)
      modifies this
      ensures sellInValue == NextSellIn(old(sellInValue), minSellIn, numOfDays)
      ensures qualityValue == old(qualityValue)
      ensures r == sellInValue
    {
      var minSellIn := JsOr(this.minSellIn, 0);
      if numOfDays.Some? && numOfDays.value > sellInValue {
        sellInValue := minSellIn;
      } else if sellInValue > minSellIn {
        sellInValue := sellInValue - if numOfDays.None? then 1 else numOfDays.value;
      }
      r := sellInValue;
    }

    method UpdateQualityValue() returns (quality: int, outcome: Outcome)
      modifies this
      ensures sellInValue == old(sellInValue)
      ensures QualityStep(qualityValue, outcome) == NextQuality(Settings(), sellInValue, old(qualityValue))
      ensures quality == qualityValue
    {
      var minQuality := JsOr(this.minQuality, 0);
      outcome := Completed;
      if qualityValue > 0 {
        var defaultDegradationValue := RegularDegradationFactor * degradationFactorRelativeToNormal;
        var enhanceByValue: Option<int> := Some(0);
        var degradeByValue: JsNumber :=
          if sellInValue == 0 then Num(defaultDegradationValue * 2) else Num(defaultDegradationValue);
        if enhanceBy.Some? {
          enhanceByValue := enhanceBy.value(sellInValue);
        }
        if degradeBy.Some? {
          var degradeByConfig := degradeBy.value(sellInValue);
          if degradeByConfig.None? {
            // reading `setQualityTo` off `undefined` throws
            return qualityValue, TypeError;
          }
          var setQualityTo := degradeByConfig.value.setQualityTo;
          if setQualityTo.Some? {
            qualityValue := setQualityTo.value;
            return qualityValue, Completed;
          } else {
            degradeByValue := DirectiveAmount(degradeByConfig.value, defaultDegradationValue);
          }
        }
        if enhanceByValue.Some? && !degradeByValue.IsNullish() {
          outcome := ConflictLogged;
        } else if enhanceByValue.Some? {
          qualityValue := qualityValue + enhanceByValue.value;
        } else if degradeByValue.SubtractedFrom(qualityValue).IsPositive() {
          qualityValue := degradeByValue.SubtractedFrom(qualityValue).n;
        } else {
          qualityValue := minQuality;
        }
      }
      quality := qualityValue;
    }
  }
}
