/**
 * The REFLECT phase of the platform-independent middleware
 * (integrations/core/protection.py).  The manager stores the level of the
 * latest trigger count outright: its clean-streak branch can only force
 * STANDARD on a turn that already maps to STANDARD, so there is no
 * hysteresis in this variant.
 */
module CoreProtection {
  import opened Common

  /** `determine_level`: 0 triggers are STANDARD, 1-2 ENHANCED, 3 or more CRISIS. */
  function DetermineLevel(triggerCount: nat): (level: ProtectionLevel)
    ensures level == Standard <==> triggerCount == 0
    ensures level == Enhanced <==> 1 <= triggerCount <= 2
    ensures level == Crisis <==> triggerCount >= 3
  {
    if triggerCount >= 3 then Crisis
    else if triggerCount >= 1 then Enhanced
    else Standard
  }

  /** More triggers never give a lower level. */
  lemma DetermineLevelMonotone(a: nat, b: nat)
    requires a <= b
    ensures DetermineLevel(b).AtLeast(DetermineLevel(a))
  {
  }

  /** The number of zeros at the end of a trigger history. */
  function TrailingZeros(history: seq<nat>): nat
  {
    if history == [] || history[|history| - 1] != 0 then 0
    else TrailingZeros(history[..|history| - 1]) + 1
  }

  const BaseSafeguards: seq<string> := [
    "VR-20: Unfounded Optimism Prevention",
    "VR-22: Realistic Capability Assessment",
    "VR-23: Financial Realism Verification"
  ]

  const EnhancedSafeguards: seq<string> := [
    "Enhanced reality checking",
    "Simplified language requirements",
    "Repeated verification steps",
    "Crisis resource provision"
  ]

  const CrisisSafeguards: seq<string> := [
    "VR-24: Crisis Detection & Response",
    "VR-25: Vulnerable User Amplification Prevention",
    "Emergency protocol activation",
    "Human escalation paths",
    "Immediate safety focus only"
  ]

  /** The safeguard names active at a level. */
  function SafeguardsFor(level: ProtectionLevel): seq<string>
  {
    match level
    case Standard => BaseSafeguards
    case Enhanced => BaseSafeguards + EnhancedSafeguards
    case Crisis => BaseSafeguards + EnhancedSafeguards + CrisisSafeguards
  }

  /** Three, seven and twelve safeguards; each level's list extends the list of every lower level. */
  lemma SafeguardsNested(lower: ProtectionLevel, higher: ProtectionLevel)
    requires higher.AtLeast(lower)
    ensures |SafeguardsFor(Standard)| == 3 && |SafeguardsFor(Enhanced)| == 7 && |SafeguardsFor(Crisis)| == 12
    ensures SafeguardsFor(lower) <= SafeguardsFor(higher)
  {
    assert BaseSafeguards <= BaseSafeguards + EnhancedSafeguards;
    assert BaseSafeguards + EnhancedSafeguards <= BaseSafeguards + EnhancedSafeguards + CrisisSafeguards;
  }

  class ProtectionLevelManager {
    var currentLevel: ProtectionLevel
    var triggerHistory: seq<nat>
    var exchangesSinceClear: nat

    /**
     * The streak counts the trailing zero counts of the history, and the
     * current level is the level of the latest count.
     */
    ghost predicate Valid()
      reads this
    {
      && exchangesSinceClear == TrailingZeros(triggerHistory)
      && currentLevel == (if triggerHistory == [] then Standard
                          else DetermineLevel(triggerHistory[|triggerHistory| - 1]))
    }

    constructor ()
      ensures Valid()
      ensures currentLevel == Standard && triggerHistory == [] && exchangesSinceClear == 0
    {
      currentLevel := Standard;
      triggerHistory := [];
      exchangesSinceClear := 0;
    }

    /**
     * `update(trigger_count)`: records the count and stores its level.
     * The level is exactly `determine_level(trigger_count)`, whatever the streak.
     */
    method Update(triggerCount: nat) returns (level: ProtectionLevel)
      requires Valid()
      modifies this
      ensures Valid()
      ensures level == currentLevel == DetermineLevel(triggerCount)
      ensures triggerHistory == old(triggerHistory) + [triggerCount]
      ensures exchangesSinceClear == if triggerCount == 0 then old(exchangesSinceClear) + 1 else 0
    {
      var newLevel := DetermineLevel(triggerCount);
      triggerHistory := triggerHistory + [triggerCount];
      assert triggerHistory[..|triggerHistory| - 1] == old(triggerHistory);
      if triggerCount == 0 {
        exchangesSinceClear := exchangesSinceClear + 1;
        if exchangesSinceClear >= 3 {
          newLevel := Standard;
        }
      } else {
        exchangesSinceClear := 0;
      }
      currentLevel := newLevel;
      level := newLevel;
    }

    /** `get_current_level`. */
    method GetCurrentLevel() returns (level: ProtectionLevel)
      requires Valid()
      ensures level == currentLevel
      ensures triggerHistory != [] ==> level == DetermineLevel(triggerHistory[|triggerHistory| - 1])
    {
      level := currentLevel;
    }

    /** `reset`: back to the initial state. */
    method Reset()
      modifies this
      ensures Valid()
      ensures currentLevel == Standard && triggerHistory == [] && exchangesSinceClear == 0
    {
      currentLevel := Standard;
      triggerHistory := [];
      exchangesSinceClear := 0;
    }

    /** `get_active_safeguards`: the base list, extended at ENHANCED and again at CRISIS. */
    method GetActiveSafeguards() returns (safeguards: seq<string>)
      ensures safeguards == SafeguardsFor(currentLevel)
      ensures |safeguards| == match currentLevel case Standard => 3 case Enhanced => 7 case Crisis => 12
    {
      safeguards := BaseSafeguards;
      if currentLevel.AtLeast(Enhanced) {
        safeguards := safeguards + EnhancedSafeguards;
      }
      if currentLevel.AtLeast(Crisis) {
        safeguards := safeguards + CrisisSafeguards;
      }
    }
  }
}
