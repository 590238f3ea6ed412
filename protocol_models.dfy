/**
 * The records of the `lfas_protocol` package (lfas_protocol/models.py): an
 * indicator that renders as "<category>: <pattern>", and a detection result
 * whose trigger count and level are recomputed from its indicators on
 * construction and after every added indicator (thresholds 0-1, 2, 3 or more).
 */
module ProtocolModels {
  import opened Common

  datatype VulnerabilityCategory = CrisisLanguage | FinancialDesperation | HealthCrisis | Isolation
  {
    /** The enum's string value. */
    function Value(): string {
      match this
      case CrisisLanguage => "crisis_language"
      case FinancialDesperation => "financial_desperation"
      case HealthCrisis => "health_crisis"
      case Isolation => "isolation"
    }
  }

  datatype VulnerabilityIndicator = VulnerabilityIndicator(
    category: VulnerabilityCategory, pattern: string, severity: string)
  {
    /** `__str__`: the category's value, a colon and a space, then the pattern. */
    function ToString(): (s: string)
      ensures |s| == |category.Value()| + 2 + |pattern|
      ensures s[|s| - |pattern|..] == pattern
    {
      category.Value() + ": " + pattern
    }
  }

  /** The category whose rendering starts `s`, with the pattern after it, if any. */
  function ParseIndicator(s: string): (r: Option<(VulnerabilityCategory, string)>)
    ensures r.Some? ==> |r.value.1| <= |s|
  {
    if StartsWithTag(s, CrisisLanguage) then Some((CrisisLanguage, s[|CrisisLanguage.Value()| + 2..]))
    else if StartsWithTag(s, FinancialDesperation) then Some((FinancialDesperation, s[|FinancialDesperation.Value()| + 2..]))
    else if StartsWithTag(s, HealthCrisis) then Some((HealthCrisis, s[|HealthCrisis.Value()| + 2..]))
    else if StartsWithTag(s, Isolation) then Some((Isolation, s[|Isolation.Value()| + 2..]))
    else None
  }

  predicate StartsWithTag(s: string, c: VulnerabilityCategory) {
    |c.Value()| + 2 <= |s| && s[..|c.Value()| + 2] == c.Value() + ": "
  }

  /** The rendering loses nothing but the severity: category and pattern can be read back. */
  lemma RenderingRoundTrip(i: VulnerabilityIndicator)
    ensures ParseIndicator(i.ToString()) == Some((i.category, i.pattern))
  {
    var s := i.ToString();
    var v := i.category.Value();
    assert s[..|v| + 2] == v + ": ";
    assert s[|v| + 2..] == i.pattern;
    // The four values start with different letters, so no other tag matches first.
    assert s[0] == v[0];
  }

  /** `__post_init__`'s level: 3 or more CRISIS, exactly 2 ENHANCED, otherwise STANDARD. */
  function LevelFor(triggerCount: nat): (level: ProtectionLevel)
    ensures level == Standard <==> triggerCount <= 1
    ensures level == Enhanced <==> triggerCount == 2
    ensures level == Crisis <==> triggerCount >= 3
  {
    if triggerCount >= 3 then Crisis
    else if triggerCount >= 2 then Enhanced
    else Standard
  }

  /** More indicators never give a lower level. */
  lemma LevelMonotone(m: nat, n: nat)
    requires m <= n
    ensures LevelFor(n).AtLeast(LevelFor(m))
  {
  }

  class DetectionResult {
    var text: string
    var indicators: seq<VulnerabilityIndicator>
    var protectionLevel: ProtectionLevel
    var triggerCount: int

    /** Count and level agree with the indicators, as `__post_init__` leaves them. */
    ghost predicate Valid()
      reads this
    {
      triggerCount == |indicators| && protectionLevel == LevelFor(|indicators|)
    }

    /** The dataclass constructor followed by `__post_init__`: the passed count and level are overridden. */
    constructor (text: string, indicators: seq<VulnerabilityIndicator>, protectionLevel: ProtectionLevel, triggerCount: int)
      ensures this.text == text && this.indicators == indicators
      ensures this.triggerCount == |indicators| && this.protectionLevel == LevelFor(|indicators|)
      ensures Valid()
    {
      this.text := text;
      this.indicators := indicators;
      this.protectionLevel := protectionLevel;
      this.triggerCount := triggerCount;
      new;
      PostInit();
    }

    /** `__post_init__`: recompute the count and the level from the indicators. */
    method PostInit()
      modifies this
      ensures text == old(text) && indicators == old(indicators)
      ensures triggerCount == |indicators| && protectionLevel == LevelFor(|indicators|)
      ensures Valid()
    {
      triggerCount := |indicators|;
      if triggerCount >= 3 {
        protectionLevel := Crisis;
      } else if triggerCount >= 2 {
        protectionLevel := Enhanced;
      } else {
        protectionLevel := Standard;
      }
    }

    /** `add_indicator`: append at the end, then recompute; a consistent result never loses level. */
    method AddIndicator(indicator: VulnerabilityIndicator)
      modifies this
      ensures text == old(text) && indicators == old(indicators) + [indicator]
      ensures triggerCount == |old(indicators)| + 1 && protectionLevel == LevelFor(|indicators|)
      ensures Valid()
      ensures old(Valid()) ==> triggerCount == old(triggerCount) + 1 && protectionLevel.AtLeast(old(protectionLevel))
    {
      indicators := indicators + [indicator];
      PostInit();
      LevelMonotone(|old(indicators)|, |indicators|);
    }
  }
}
