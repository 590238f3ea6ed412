/**
 * The ACT phase of the platform-independent middleware
 * (integrations/core/safeguards.py): fixed texts prepended to, appended to,
 * or replacing an AI response according to the protection level and the
 * triggered categories.
 */
module CoreSafeguards {
  import opened Strings
  import opened Common

  const ForbiddenOptimisticPhrases: seq<string> := [
    "guaranteed success", "easy money", "can't fail", "cannot fail",
    "definitely will work", "overnight success", "100% sure",
    "risk-free", "foolproof"
  ]

  const CrisisResources: string :=
    "\n\n**Immediate Crisis Resources:**\n"
    + "- National Suicide Prevention Lifeline: 988 (US)\n"
    + "- Crisis Text Line: Text HOME to 741741\n"
    + "- International Association for Suicide Prevention: https://www.iasp.info/resources/Crisis_Centres/\n"
    + "\nPlease reach out to these resources or a trusted person in your life."

  /** VR-23 paragraph for financial desperation. */
  const FinancialNote: string :=
    "\n**Important:** I want to acknowledge this is a difficult financial situation. "
    + "Most new business ventures take months to generate income and involve significant risk. "
    + "Please consider immediate resources like unemployment benefits, food banks, or financial counseling services.\n"

  /** VR-22 paragraph for a health crisis. */
  const MedicalNote: string :=
    "\n**Medical Disclaimer:** I'm an AI assistant and cannot provide medical advice. "
    + "Please seek professional medical help for health concerns.\n"

  const CrisisOpening: string :=
    "**I hear the pain in your words, and I'm deeply concerned.**\n\n"
    + "What you're experiencing sounds like a crisis moment. "
    + "Before discussing anything else, I want to make sure you have access to immediate support."

  const CrisisClosing: string :=
    "\n\n**You don't have to face this alone.** "
    + "Would you be open to reaching out to one of these resources or a trusted person in your life?"

  /** The whole VR-24 reply that replaces the response. */
  const CrisisMessage: string := CrisisOpening + CrisisResources + CrisisClosing

  /** VR-25 note appended for isolation. */
  const IsolationNote: string :=
    "\n\n**Please note:** While I'm here to help, connecting with real people - "
    + "friends, family, support groups, or professionals - is important for your wellbeing. "
    + "An AI cannot replace human connection and support."

  /** `get_financial_disclaimer`: the fixed VR-23 disclaimer. */
  const FinancialDisclaimer: string :=
    "**Financial Disclaimer:** All business ventures involve risk. "
    + "Market validation is recommended. Consider speaking with financial advisors. "
    + "Past performance doesn't guarantee future results. "
    + "Many businesses fail in the first year."

  /**
   * `_filter_optimistic_language`: its loop over the forbidden phrases has an
   * empty body, so the response comes back unchanged.
   */
  function FilterOptimisticLanguage(response: string): (r: string)
    ensures forall p | p in ForbiddenOptimisticPhrases :: Contains(Lower(r), p) <==> Contains(Lower(response), p)
    ensures |r| == |response|
  {
    response
  }

  /**
   * `r` is `response` when neither paragraph applies; otherwise `r` starts
   * with the paragraphs that apply (`first`, then `second`), ends with a
   * newline followed by `response`, and holds nothing else.
   */
  ghost predicate HasPreamble(r: string, response: string, financial: bool, health: bool, first: string, second: string)
  {
    && (!financial && !health ==> r == response)
    && (financial || health ==>
          && |r| == (if financial then |first| else 0) + (if health then |second| else 0) + 1 + |response|
          && r[|r| - |response|..] == response && r[|r| - |response| - 1] == '\n')
    && (financial ==> |r| >= |first| && r[..|first|] == first)
    && (health ==>
          var at := if financial then |first| else 0;
          |r| >= at + |second| && r[at..at + |second|] == second)
  }

  /**
   * `_apply_enhanced_safeguards`: a preamble (financial paragraph first,
   * then the medical one) and a newline in front of the response, or the
   * response itself when neither category is present.
   */
  function ApplyEnhanced(response: string, categories: set<string>): (r: string)
    ensures HasPreamble(r, response, "financial_desperation" in categories, "health_crisis" in categories,
      FinancialNote, MedicalNote)
  {
    WithPreamble(response, "financial_desperation" in categories, "health_crisis" in categories, FinancialNote, MedicalNote)
  }

  /** The paragraphs that apply, in order, a newline, then the response; the response alone when none applies. */
  function WithPreamble(response: string, financial: bool, health: bool, first: string, second: string): (r: string)
    ensures HasPreamble(r, response, financial, health, first, second)
  {
    if !financial && !health then response
    else
      var a := if financial then first else "";
      var b := if health then second else "";
      var r := a + b + "\n" + response;
      assert r[..|a|] == a && r[|a|..|a| + |b|] == b;
      r
  }

  /**
   * `_apply_crisis_safeguards`: crisis language replaces the response by the
   * crisis reply; otherwise isolation appends a note; otherwise no change.
   */
  function ApplyCrisis(response: string, categories: set<string>): (r: string)
    ensures "crisis_language" in categories ==> r == CrisisMessage
    ensures "crisis_language" !in categories && "isolation_indicators" in categories ==>
      |r| >= |response| && r[..|response|] == response && r[|response|..] == IsolationNote
    ensures "crisis_language" !in categories && "isolation_indicators" !in categories ==> r == response
  {
    if "crisis_language" in categories then CrisisMessage
    else if "isolation_indicators" in categories then response + IsolationNote
    else response
  }

  /** With crisis language the reply ignores the response and carries the crisis resources. */
  lemma CrisisReplyIgnoresResponse(r1: string, r2: string, categories: set<string>)
    requires "crisis_language" in categories
    ensures ApplyCrisis(r1, categories) == ApplyCrisis(r2, categories)
    ensures Contains(ApplyCrisis(r1, categories), CrisisResources)
  {
    ContainsPiece(CrisisOpening, CrisisResources, CrisisClosing);
  }

  /**
   * `apply_safeguards`: unchanged at STANDARD; the enhanced safeguards at
   * ENHANCED and above, and the crisis safeguards applied after them at
   * CRISIS.
   */
  function ApplySafeguards(response: string, level: ProtectionLevel, categories: set<string>): (r: string)
    ensures level == Standard ==> r == response
    ensures level == Enhanced ==> r == ApplyEnhanced(response, categories)
    ensures level == Crisis && "crisis_language" in categories ==> r == CrisisMessage
    ensures level == Crisis && "crisis_language" !in categories && "isolation_indicators" in categories ==>
      r == ApplyEnhanced(response, categories) + IsolationNote
    ensures level == Crisis && "crisis_language" !in categories && "isolation_indicators" !in categories ==>
      r == ApplyEnhanced(response, categories)
  {
    var filtered := FilterOptimisticLanguage(response);
    var enhanced := if level.AtLeast(Enhanced) then ApplyEnhanced(filtered, categories) else filtered;
    if level.AtLeast(Crisis) then ApplyCrisis(enhanced, categories) else enhanced
  }

  /** `should_pause_and_verify`: a pause is required from ENHANCED upwards. */
  function ShouldPauseAndVerify(level: ProtectionLevel): (pause: bool)
    ensures pause <==> level != Standard
  {
    level.AtLeast(Enhanced)
  }
}
