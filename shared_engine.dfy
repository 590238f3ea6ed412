/**
 * The shared integration engine (integrations/python/shared/lfas_engine.py):
 * LISTEN tags every indicator found in the lowercased input, REFLECT keeps a
 * level with hysteresis (escalate at once, fall back to STANDARD only after
 * three clean turns), ACT appends or prepends fixed notes, ACKNOWLEDGE
 * reports, and every processed message is recorded as one turn.
 *
 * The regular-expression rewrites `_apply_vr20` and `_apply_vr22` are not
 * part of this model: their composition is the parameter `rewrite`.
 */
module SharedEngine {
  import opened Strings
  import opened Common

  const CrisisLanguage: seq<string> := [
    "last hope", "only chance", "can't take it anymore",
    "nobody understands", "completely alone",
    "if this doesn't work, i'm done", "i'm done",
    "thinking about ending it", "don't want to live",
    "want to die", "kill myself", "suicide"
  ]

  const FinancialDesperation: seq<string> := [
    "lost my job", "last $", "need money fast",
    "desperate for income", "can't pay bills",
    "behind on rent", "facing eviction",
    "out of money", "bankruptcy"
  ]

  const HealthCrisis: seq<string> := [
    "can't see a doctor", "no insurance",
    "pain won't stop", "no medical help",
    "can't afford medication", "untreated"
  ]

  const IsolationIndicators: seq<string> := [
    "no one to talk to", "family doesn't understand",
    "you're the only one who listens",
    "completely alone in this", "nobody cares"
  ]

  // ---------------------------------------------------------------- LISTEN

  /** `f"{prefix}{x}"` for every element, in order. */
  function Prefixed(prefix: string, xs: seq<string>): (r: seq<string>)
    ensures |r| == |xs| && forall i | 0 <= i < |xs| :: r[i] == prefix + xs[i]
  {
    seq(|xs|, i requires 0 <= i < |xs| => prefix + xs[i])
  }

  /** The tags of one category: its indicators found, as written, in the lowered input. */
  function CategoryTags(prefix: string, indicators: seq<string>, inputLower: string): seq<string>
  {
    Prefixed(prefix, Matching(indicators, inputLower, false))
  }

  /** The tags `_listen` produces, grouped crisis, financial, health, isolation. */
  function ListenTags(userInput: string): seq<string>
  {
    var lower := Lower(userInput);
    CategoryTags("crisis:", CrisisLanguage, lower)
    + CategoryTags("financial:", FinancialDesperation, lower)
    + CategoryTags("health:", HealthCrisis, lower)
    + CategoryTags("isolation:", IsolationIndicators, lower)
  }

  /** A tag of a category is its prefix followed by one of its indicators found in the text. */
  lemma CategoryTagsMembers(prefix: string, indicators: seq<string>, inputLower: string, t: string)
    ensures t in CategoryTags(prefix, indicators, inputLower) <==>
      exists p | p in indicators && Contains(inputLower, p) :: t == prefix + p
  {
    var m := Matching(indicators, inputLower, false);
    if t in CategoryTags(prefix, indicators, inputLower) {
      var i :| 0 <= i < |m| && CategoryTags(prefix, indicators, inputLower)[i] == t;
      MatchingMembers(indicators, inputLower, false, m[i]);
    }
    if exists p | p in indicators && Contains(inputLower, p) :: t == prefix + p {
      var p :| p in indicators && Contains(inputLower, p) && t == prefix + p;
      MatchingMembers(indicators, inputLower, false, p);
      var i :| 0 <= i < |m| && m[i] == p;
      assert CategoryTags(prefix, indicators, inputLower)[i] == t;
    }
  }

  /** Appends the tags of one category; one of the four loops of `_listen`. */
  method TagCategory(detected: seq<string>, prefix: string, indicators: seq<string>, inputLower: string)
    returns (tagged: seq<string>)
    ensures tagged == detected + CategoryTags(prefix, indicators, inputLower)
  {
    tagged := detected;
    for i := 0 to |indicators|
      invariant tagged == detected + CategoryTags(prefix, indicators[..i], inputLower)
    {
      assert indicators[..i + 1][..i] == indicators[..i];
      if Contains(inputLower, indicators[i]) {
        tagged := tagged + [prefix + indicators[i]];
      }
    }
    assert indicators[..|indicators|] == indicators;
  }

  /** `_listen`: one tag per indicator that is a substring of the lowercased input. */
  method Listen(userInput: string) returns (detected: seq<string>)
    ensures detected == ListenTags(userInput)
  {
    var inputLower := Lower(userInput);
    detected := [];
    detected := TagCategory(detected, "crisis:", CrisisLanguage, inputLower);
    detected := TagCategory(detected, "financial:", FinancialDesperation, inputLower);
    detected := TagCategory(detected, "health:", HealthCrisis, inputLower);
    detected := TagCategory(detected, "isolation:", IsolationIndicators, inputLower);
  }

  /** The tags are exactly the category-prefixed indicators found in the lowercased input. */
  lemma ListenMembers(userInput: string, t: string)
    ensures var lower := Lower(userInput);
      t in ListenTags(userInput) <==>
        || (exists p | p in CrisisLanguage && Contains(lower, p) :: t == "crisis:" + p)
        || (exists p | p in FinancialDesperation && Contains(lower, p) :: t == "financial:" + p)
        || (exists p | p in HealthCrisis && Contains(lower, p) :: t == "health:" + p)
        || (exists p | p in IsolationIndicators && Contains(lower, p) :: t == "isolation:" + p)
  {
    var lower := Lower(userInput);
    CategoryTagsMembers("crisis:", CrisisLanguage, lower, t);
    CategoryTagsMembers("financial:", FinancialDesperation, lower, t);
    CategoryTagsMembers("health:", HealthCrisis, lower, t);
    CategoryTagsMembers("isolation:", IsolationIndicators, lower, t);
  }

  /** Listening is case-insensitive: an input and its lowercase form give the same tags. */
  lemma ListenCaseInsensitive(userInput: string)
    ensures ListenTags(Lower(userInput)) == ListenTags(userInput)
  {
    LowerIsLower(userInput);
  }

  /**
   * Overlapping indicators each produce a tag: "completely alone in this"
   * is an isolation indicator and also contains the crisis indicator
   * "completely alone", so such an input carries at least two tags.
   */
  lemma OverlappingIndicatorsBothTag(userInput: string)
    requires Contains(Lower(userInput), "completely alone in this")
    ensures "crisis:" + "completely alone" in ListenTags(userInput)
    ensures "isolation:" + "completely alone in this" in ListenTags(userInput)
    ensures |ListenTags(userInput)| >= 2
  {
    var lower := Lower(userInput);
    ContainsPrefix(lower, "completely alone in this", 16);
    assert "completely alone in this"[..16] == CrisisLanguage[4];
    assert "completely alone in this" == IsolationIndicators[3];
    FoundIndicatorTagged("crisis:", CrisisLanguage, lower, 4);
    FoundIndicatorTagged("isolation:", IsolationIndicators, lower, 3);
    FirstAndLastListed(
      CategoryTags("crisis:", CrisisLanguage, lower),
      CategoryTags("financial:", FinancialDesperation, lower),
      CategoryTags("health:", HealthCrisis, lower),
      CategoryTags("isolation:", IsolationIndicators, lower),
      "crisis:" + CrisisLanguage[4], "isolation:" + IsolationIndicators[3]);
  }

  /** Tags of the first and of the last category both survive the concatenation. */
  lemma FirstAndLastListed(a: seq<string>, b: seq<string>, c: seq<string>, d: seq<string>, x: string, y: string)
    requires x in a && y in d
    ensures x in a + b + c + d && y in a + b + c + d && |a + b + c + d| >= 2
  {
  }

  /** An indicator found in the text yields its tag. */
  lemma FoundIndicatorTagged(prefix: string, indicators: seq<string>, inputLower: string, j: nat)
    requires j < |indicators| && Contains(inputLower, indicators[j])
    ensures prefix + indicators[j] in CategoryTags(prefix, indicators, inputLower)
    ensures |CategoryTags(prefix, indicators, inputLower)| >= 1
  {
    CategoryTagsMembers(prefix, indicators, inputLower, prefix + indicators[j]);
  }

  // --------------------------------------------------------------- REFLECT

  /** The level of one turn on its own: 0 tags STANDARD, 1-2 ENHANCED, 3 or more CRISIS. */
  function TurnLevel(triggerCount: nat): (level: ProtectionLevel)
    ensures level == Standard <==> triggerCount == 0
    ensures level == Enhanced <==> 1 <= triggerCount <= 2
    ensures level == Crisis <==> triggerCount >= 3
  {
    if triggerCount == 0 then Standard
    else if triggerCount <= 2 then Enhanced
    else Crisis
  }

  /** The part of the engine's state that `_reflect` reads and writes. */
  datatype Session = Session(level: ProtectionLevel, streak: nat)

  const InitialSession := Session(Standard, 0)

  /**
   * One `_reflect` step on a turn with `triggerCount` tags: the clean streak
   * grows on a clean turn and restarts otherwise; three clean turns drop the
   * stored level to STANDARD; the result is the larger of the stored level
   * and the turn's own level.
   */
  function Reflected(s: Session, triggerCount: nat): (t: Session)
    ensures t.streak == if triggerCount == 0 then s.streak + 1 else 0
    ensures t.level.AtLeast(TurnLevel(triggerCount))
    ensures t.streak < 3 ==> t.level.AtLeast(s.level)
    ensures t.streak >= 3 ==> t.level == Standard
    ensures t.level == s.level || t.level == TurnLevel(triggerCount) || t.level == Standard
  {
    var streak := if triggerCount == 0 then s.streak + 1 else 0;
    var kept := if streak >= 3 then Standard else s.level;
    Session(MaxLevel(kept, TurnLevel(triggerCount)), streak)
  }

  /** The session after a run of turns with the given tag counts. */
  function Run(s: Session, counts: seq<nat>): Session
  {
    if counts == [] then s else Reflected(Run(s, counts[..|counts| - 1]), counts[|counts| - 1])
  }

  /** Until the clean streak reaches three, the stored level never goes down. */
  lemma {:induction false} NoDeescalationBeforeThreeClean(s: Session, counts: seq<nat>)
    requires forall k | 0 < k <= |counts| :: Run(s, counts[..k]).streak < 3
    ensures Run(s, counts).level.AtLeast(s.level)
    decreases |counts|
  {
    if counts != [] {
      var init := counts[..|counts| - 1];
      forall k | 0 < k <= |init|
        ensures Run(s, init[..k]).streak < 3
      {
        assert init[..k] == counts[..k];
      }
      NoDeescalationBeforeThreeClean(s, init);
      assert counts[..|counts|] == counts;
    }
  }

  /** Three clean turns in a row leave the session at STANDARD, whatever came before. */
  lemma ThreeCleanTurnsGiveStandard(s: Session, counts: seq<nat>)
    requires |counts| >= 3
    requires counts[|counts| - 1] == 0 && counts[|counts| - 2] == 0 && counts[|counts| - 3] == 0
    ensures Run(s, counts).level == Standard
    ensures Run(s, counts).streak >= 3
  {
    var n := |counts|;
    assert counts[..n - 1][..n - 2] == counts[..n - 2];
    assert Run(s, counts[..n - 2]).streak >= 1;
    assert Run(s, counts[..n - 1]).streak >= 2;
  }

  /** A turn's own level is reached at once, whatever the earlier turns. */
  lemma EscalatesImmediately(s: Session, counts: seq<nat>, n: nat)
    ensures Run(s, counts + [n]).level.AtLeast(TurnLevel(n))
    ensures n > 0 ==> Run(s, counts + [n]).streak == 0
  {
    assert (counts + [n])[..|counts|] == counts;
  }

  // ------------------------------------------------------------------- ACT

  /** Does some tag contain `word` (`any(word in t for t in tags)`)? */
  predicate HasTag(tags: seq<string>, word: string) {
    exists i | 0 <= i < |tags| :: Contains(tags[i], word)
  }

  const FinancialCheckMarker: string := "Financial Reality Check"

  /** The VR-23 disclaimer: a warning sign, `FinancialCheckMarker`, then the advice. */
  const FinancialDisclaimerLead: string := "\n\n\U{26A0}\U{FE0F} "

  const FinancialDisclaimerAdvice: string :=
    ": All business ventures involve risk. "
    + "Many businesses fail in the first year. Consider speaking with a "
    + "financial advisor before making major decisions."

  const FinancialDisclaimer: string := FinancialDisclaimerLead + FinancialCheckMarker + FinancialDisclaimerAdvice

  /** The VR-24 resource block. */
  const CrisisResourceBlock: string :=
    "\n\n\U{1F198} CRISIS RESOURCES:\n"
    + "\U{2022} National Suicide Prevention Lifeline: 988 (US)\n"
    + "\U{2022} Crisis Text Line: Text HOME to 741741\n"
    + "\U{2022} International Association for Suicide Prevention: https://www.iasp.info/resources/Crisis_Centres/\n\n"
    + "Please reach out to a human - a counselor, friend, or family member. "
    + "You don't have to face this alone."

  const EncouragementMarker: string := "discussing this with someone"

  /** The VR-25 encouragement: a thought bubble and a request, `EncouragementMarker`, then the reason. */
  const EncouragementLead: string := "\n\n\U{1F4AD} Please consider "

  const EncouragementReason: string :=
    " you trust - "
    + "a friend, family member, or professional. AI should complement human "
    + "connection, not replace it."

  const Encouragement: string := EncouragementLead + EncouragementMarker + EncouragementReason

  /** `_apply_vr23`: append the disclaimer unless its heading is already present. */
  function Vr23(response: string): (r: string)
    ensures |r| >= |response| && r[..|response|] == response
    ensures Contains(response, FinancialCheckMarker) ==> r == response
  {
    if !Contains(response, FinancialCheckMarker) then response + FinancialDisclaimer else response
  }

  /** After VR-23 the heading is present, so a second VR-23 changes nothing. */
  lemma Vr23Idempotent(response: string)
    ensures Contains(Vr23(response), FinancialCheckMarker)
    ensures Vr23(Vr23(response)) == Vr23(response)
  {
    if !Contains(response, FinancialCheckMarker) {
      AppendedMarker(response, FinancialDisclaimerLead, FinancialCheckMarker, FinancialDisclaimerAdvice);
    }
  }

  /** Text that ends with a lead, a marker and more holds the marker. */
  lemma AppendedMarker(response: string, lead: string, marker: string, rest: string)
    ensures Contains(response + (lead + marker + rest), marker)
  {
    ContainsPiece(lead, marker, rest);
    ContainsRight(response, lead + marker + rest, marker);
  }

  /** `_apply_vr24`: the resource block and a newline go in front iff some tag contains "crisis". */
  function Vr24(response: string, tags: seq<string>): (r: string)
    ensures HasTag(tags, "crisis") ==>
      && |r| == |CrisisResourceBlock| + 1 + |response|
      && r[..|CrisisResourceBlock|] == CrisisResourceBlock
      && r[|CrisisResourceBlock|] == '\n'
      && r[|CrisisResourceBlock| + 1..] == response
    ensures !HasTag(tags, "crisis") ==> r == response
  {
    if HasTag(tags, "crisis") then CrisisResourceBlock + "\n" + response else response
  }

  /** `_apply_vr25`: append the encouragement unless its phrase is already present. */
  function Vr25(response: string): (r: string)
    ensures |r| >= |response| && r[..|response|] == response
    ensures Contains(response, EncouragementMarker) ==> r == response
  {
    if !Contains(response, EncouragementMarker) then response + Encouragement else response
  }

  /** After VR-25 the phrase is present, so a second VR-25 changes nothing. */
  lemma Vr25Idempotent(response: string)
    ensures Contains(Vr25(response), EncouragementMarker)
    ensures Vr25(Vr25(response)) == Vr25(response)
  {
    if !Contains(response, EncouragementMarker) {
      AppendedMarker(response, EncouragementLead, EncouragementMarker, EncouragementReason);
    }
  }

  /** A tag that contains a word makes the tags carry that word. */
  lemma HasTagOf(tags: seq<string>, t: string, word: string)
    requires t in tags && Contains(t, word)
    ensures HasTag(tags, word)
  {
    var i :| 0 <= i < |tags| && tags[i] == t;
  }

  /** A tag made of a word, a colon and an indicator contains the word. */
  lemma TagContainsWord(word: string, p: string)
    ensures Contains(word + ":" + p, word)
  {
    assert word + ":" + p == "" + word + (":" + p);
    ContainsPiece("", word, ":" + p);
  }

  /** A matched crisis indicator yields a tag containing "crisis". */
  lemma CrisisIndicatorTagged(userInput: string, p: string)
    requires p in CrisisLanguage && Contains(Lower(userInput), p)
    ensures HasTag(ListenTags(userInput), "crisis")
  {
    var lower := Lower(userInput);
    var t := "crisis" + ":" + p;
    assert t == "crisis:" + p;
    CategoryTagsMembers("crisis:", CrisisLanguage, lower, t);
    assert t in CategoryTags("crisis:", CrisisLanguage, lower);
    TagContainsWord("crisis", p);
    HasTagOf(ListenTags(userInput), t, "crisis");
  }

  /** A matched crisis indicator makes VR-24 put the crisis resources in front of the response. */
  lemma CrisisIndicatorTriggersVr24(userInput: string, p: string, response: string)
    requires p in CrisisLanguage && Contains(Lower(userInput), p)
    ensures HasTag(ListenTags(userInput), "crisis")
    ensures Vr24(response, ListenTags(userInput))[..|CrisisResourceBlock|] == CrisisResourceBlock
  {
    CrisisIndicatorTagged(userInput, p);
  }

  /**
   * `_act` on the response after the VR-20/VR-22 rewrites: VR-23 only at
   * ENHANCED or above with a financial tag, VR-24 and VR-25 only at CRISIS.
   */
  function Act(response: string, level: ProtectionLevel, tags: seq<string>, rewrite: string -> string): (r: string)
    ensures level == Standard ==> r == rewrite(response)
    ensures level == Enhanced ==> r == rewrite(response) || r == Vr23(rewrite(response))
    ensures !level.AtLeast(Enhanced) || !HasTag(tags, "financial") ==>
      level != Crisis ==> r == rewrite(response)
    ensures !(level == Crisis && HasTag(tags, "crisis")) ==>
      |r| >= |rewrite(response)| && r[..|rewrite(response)|] == rewrite(response)
    ensures level == Crisis && HasTag(tags, "crisis") ==>
      |r| > |CrisisResourceBlock| && r[..|CrisisResourceBlock|] == CrisisResourceBlock
    ensures level == Crisis ==>
      r == Vr25(Vr24(if HasTag(tags, "financial") then Vr23(rewrite(response)) else rewrite(response), tags))
  {
    var rewritten := rewrite(response);
    var enhanced :=
      if level.AtLeast(Enhanced) then
        (if HasTag(tags, "financial") then Vr23(rewritten) else rewritten)
      else rewritten;
    if level != Crisis then enhanced
    else
      var prepended := Vr24(enhanced, tags);
      var appended := Vr25(prepended);
      if HasTag(tags, "crisis") then
        PrefixTransitive(appended, prepended, CrisisResourceBlock);
        appended
      else
        PrefixTransitive(appended, enhanced, rewritten);
        appended
  }

  /** The notes `_act` promises: the financial check from ENHANCED up, the encouragement at CRISIS. */
  lemma ActNotes(response: string, level: ProtectionLevel, tags: seq<string>, rewrite: string -> string)
    ensures level.AtLeast(Enhanced) && HasTag(tags, "financial") ==>
      Contains(Act(response, level, tags, rewrite), FinancialCheckMarker)
    ensures level == Crisis ==> Contains(Act(response, level, tags, rewrite), EncouragementMarker)
  {
    var rewritten := rewrite(response);
    if level.AtLeast(Enhanced) && HasTag(tags, "financial") {
      var enhanced := Vr23(rewritten);
      Vr23Idempotent(rewritten);
      if level == Crisis {
        var prepended := Vr24(enhanced, tags);
        if HasTag(tags, "crisis") {
          assert prepended == CrisisResourceBlock + "\n" + enhanced;
          ContainsRight(CrisisResourceBlock + "\n", enhanced, FinancialCheckMarker);
        }
        var appended := Vr25(prepended);
        assert appended == prepended || appended == prepended + Encouragement;
        ContainsLeft(prepended, Encouragement, FinancialCheckMarker);
      }
    }
    if level == Crisis {
      var enhanced :=
        if HasTag(tags, "financial") then Vr23(rewritten) else rewritten;
      Vr25Idempotent(Vr24(enhanced, tags));
    }
  }

  /** `_get_active_safeguards`: 2, 4 or 6 names, each level's list extending the lower ones. */
  function ActiveSafeguards(level: ProtectionLevel): (s: seq<string>)
    ensures |s| == 2 * level.Value()
    ensures s[..2] == ["VR-20", "VR-22"]
    ensures ("VR-23" in s <==> level.AtLeast(Enhanced)) && ("VR-24" in s <==> level == Crisis)
  {
    var base := ["VR-20", "VR-22"];
    var enhanced := if level.AtLeast(Enhanced) then base + ["VR-23", "Language Simplification"] else base;
    if level == Crisis then enhanced + ["VR-24", "VR-25"] else enhanced
  }

  /** Each level's safeguard list is a prefix of every higher level's. */
  lemma ActiveSafeguardsNested(lower: ProtectionLevel, higher: ProtectionLevel)
    requires higher.AtLeast(lower)
    ensures ActiveSafeguards(lower) <= ActiveSafeguards(higher)
  {
    var base := ["VR-20", "VR-22"];
    assert base <= base + ["VR-23", "Language Simplification"];
    assert base + ["VR-23", "Language Simplification"]
      <= base + ["VR-23", "Language Simplification"] + ["VR-24", "VR-25"];
  }

  // ----------------------------------------------------------- ACKNOWLEDGE

  /** One entry of `conversation_history`. */
  datatype Turn = Turn(user: string, response: string, triggers: seq<string>, level: ProtectionLevel)

  /** The metadata dictionary of `_acknowledge`. */
  datatype Metadata = Metadata(
    triggersDetected: nat,
    triggerDetails: seq<string>,
    protectionLevel: string,
    safeguardsApplied: seq<string>,
    conversationLength: nat)

  /** The number of turns at the end of the history without any tag. */
  function CleanStreak(history: seq<Turn>): nat
  {
    if history == [] || history[|history| - 1].triggers != [] then 0
    else CleanStreak(history[..|history| - 1]) + 1
  }

  /** The level recorded with the latest turn, or STANDARD before any turn. */
  function LatestLevel(history: seq<Turn>): ProtectionLevel
  {
    if history == [] then Standard else history[|history| - 1].level
  }

  class LfasEngine {
    var conversationHistory: seq<Turn>
    var currentProtectionLevel: ProtectionLevel
    var triggerCount: nat
    var exchangesWithoutTriggers: nat

    /**
     * The stored level and streak are those of the recorded turns, and
     * `trigger_count` is never changed after construction.
     */
    ghost predicate Valid()
      reads this
    {
      && currentProtectionLevel == LatestLevel(conversationHistory)
      && exchangesWithoutTriggers == CleanStreak(conversationHistory)
      && triggerCount == 0
    }

    function State(): Session
      reads this
    {
      Session(currentProtectionLevel, exchangesWithoutTriggers)
    }

    constructor ()
      ensures Valid()
      ensures conversationHistory == [] && State() == InitialSession
    {
      conversationHistory := [];
      currentProtectionLevel := Standard;
      triggerCount := 0;
      exchangesWithoutTriggers := 0;
    }

    /** `_reflect`: one hysteresis step on the number of tags of this turn. */
    method Reflect(detectedTriggers: seq<string>) returns (level: ProtectionLevel)
      modifies this
      ensures State() == Reflected(old(State()), |detectedTriggers|)
      ensures level == currentProtectionLevel
      ensures conversationHistory == old(conversationHistory) && triggerCount == old(triggerCount)
    {
      var count := |detectedTriggers|;
      if count == 0 {
        exchangesWithoutTriggers := exchangesWithoutTriggers + 1;
      } else {
        exchangesWithoutTriggers := 0;
      }
      if exchangesWithoutTriggers >= 3 {
        currentProtectionLevel := Standard;
      }
      var turnLevel;
      if count == 0 {
        turnLevel := Standard;
      } else if count <= 2 {
        turnLevel := Enhanced;
      } else {
        turnLevel := Crisis;
      }
      currentProtectionLevel := MaxLevel(currentProtectionLevel, turnLevel);
      level := currentProtectionLevel;
    }

    /**
     * `process_message`: the five stages on one input and the AI's response,
     * then one turn recorded with the safe response.
     */
    method ProcessMessage(userInput: string, aiResponse: string, rewrite: string -> string)
      returns (safeResponse: string, metadata: Metadata)
      requires Valid()
      modifies this
      ensures Valid()
      ensures var tags := ListenTags(userInput);
        var s := Reflected(old(State()), |tags|);
        && State() == s
        && safeResponse == Act(aiResponse, s.level, tags, rewrite)
        && metadata == Metadata(|tags|, tags, s.level.Name(), ActiveSafeguards(s.level), |old(conversationHistory)|)
        && conversationHistory == old(conversationHistory) + [Turn(userInput, safeResponse, tags, s.level)]
    {
      var detected := Listen(userInput);
      var level := Reflect(detected);
      safeResponse := Act(aiResponse, level, detected, rewrite);
      metadata := Metadata(|detected|, detected, level.Name(), ActiveSafeguards(level), |conversationHistory|);
      ghost var before := conversationHistory;
      conversationHistory := conversationHistory + [Turn(userInput, safeResponse, detected, level)];
      assert conversationHistory[..|conversationHistory| - 1] == before;
    }

    /** `reset`: back to the state after construction. */
    method Reset()
      modifies this
      ensures Valid()
      ensures conversationHistory == [] && State() == InitialSession
    {
      conversationHistory := [];
      currentProtectionLevel := Standard;
      triggerCount := 0;
      exchangesWithoutTriggers := 0;
    }
  }
}
