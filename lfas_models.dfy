/**
 * The records of the `lfas` package (lfas/models.py): a detection result
 * with its level predicates, and a crisis response that renders itself as
 * a message of optional sections.
 */
module LfasModels {
  import opened Strings
  import opened Common

  /**
   * A detection result.  The detector also hands over a copy of the
   * conversation history, which the declared record lacks; this model
   * carries it as the field `conversationHistory` (see the detector).
   */
  datatype DetectionResult = DetectionResult(
    protectionLevel: ProtectionLevel,
    triggersCount: int,
    detectedCategories: seq<string>,
    originalInput: string,
    conversationHistory: seq<string>)
  {
    /** `is_crisis`: the level is CRISIS. */
    predicate IsCrisis()
      ensures IsCrisis() ==> protectionLevel.Value() == 3
      ensures IsCrisis() <==> protectionLevel.AtLeast(Crisis)
    {
      protectionLevel == Crisis
    }

    /** `is_vulnerable`: the level's value is at least 2, that is ENHANCED or CRISIS. */
    function IsVulnerable(): (v: bool)
      ensures v <==> protectionLevel == Enhanced || protectionLevel == Crisis
    {
      protectionLevel.Value() >= 2
    }
  }

  /** A crisis is always a vulnerability, and STANDARD is neither. */
  lemma CrisisIsVulnerable(d: DetectionResult)
    ensures d.IsCrisis() ==> d.IsVulnerable()
    ensures d.protectionLevel == Standard ==> !d.IsCrisis() && !d.IsVulnerable()
  {
  }

  datatype CrisisResponse = CrisisResponse(
    isCrisis: bool,
    crisisType: Option<string>,
    resources: seq<string>,
    recommendedActions: seq<string>)

  const MessageHeader: string := "\U{26A0}\U{FE0F} CRISIS SUPPORT NEEDED\n\n"

  /** One "• item" line per item, in order. */
  function Bullets(items: seq<string>): string
  {
    if items == [] then "" else Bullets(items[..|items| - 1]) + "\U{2022} " + items[|items| - 1] + "\n"
  }

  /** The "Detected:" section; Python treats both `None` and "" as absent. */
  function DetectedSection(crisisType: Option<string>): (s: string)
    ensures s != "" <==> crisisType.Some? && crisisType.value != ""
  {
    if crisisType.Some? && crisisType.value != "" then "Detected: " + crisisType.value + "\n\n" else ""
  }

  /** The resources section, present iff there are resources. */
  function ResourcesSection(resources: seq<string>): (s: string)
    ensures s != "" <==> resources != []
  {
    if resources != [] then "IMMEDIATE RESOURCES:\n" + Bullets(resources) + "\n" else ""
  }

  /** The actions section, present iff there are actions. */
  function ActionsSection(actions: seq<string>): (s: string)
    ensures s != "" <==> actions != []
  {
    if actions != [] then "RECOMMENDED ACTIONS:\n" + Bullets(actions) else ""
  }

  /** The text of `format_crisis_message`. */
  function CrisisMessage(r: CrisisResponse): string
  {
    if !r.isCrisis then ""
    else MessageHeader + DetectedSection(r.crisisType) + ResourcesSection(r.resources) + ActionsSection(r.recommendedActions)
  }

  /** Appends one "• item" line per item. */
  method AppendBullets(message: string, items: seq<string>) returns (extended: string)
    ensures extended == message + Bullets(items)
  {
    extended := message;
    for i := 0 to |items|
      invariant extended == message + Bullets(items[..i])
    {
      assert items[..i + 1][..i] == items[..i];
      extended := extended + "\U{2022} " + items[i] + "\n";
    }
    assert items[..|items|] == items;
  }

  /** `format_crisis_message`: the header and the sections that are present, resources before actions. */
  method FormatCrisisMessage(r: CrisisResponse) returns (message: string)
    ensures message == CrisisMessage(r)
  {
    if !r.isCrisis {
      return "";
    }
    message := MessageHeader;
    if r.crisisType.Some? && r.crisisType.value != "" {
      message := message + "Detected: " + r.crisisType.value + "\n\n";
    }
    assert message == MessageHeader + DetectedSection(r.crisisType);
    ghost var withDetected := message;
    if r.resources != [] {
      message := message + "IMMEDIATE RESOURCES:\n";
      message := AppendBullets(message, r.resources);
      message := message + "\n";
    }
    assert message == withDetected + ResourcesSection(r.resources);
    ghost var withResources := message;
    if r.recommendedActions != [] {
      message := message + "RECOMMENDED ACTIONS:\n";
      message := AppendBullets(message, r.recommendedActions);
    }
    assert message == withResources + ActionsSection(r.recommendedActions);
  }

  /** The message is empty exactly when there is no crisis. */
  lemma CrisisMessageEmptyIff(r: CrisisResponse)
    ensures CrisisMessage(r) == "" <==> !r.isCrisis
  {
    if r.isCrisis {
      assert |CrisisMessage(r)| >= |MessageHeader| > 0;
    }
  }

  /** Bullets of a concatenation are the bullets of each part, in order. */
  lemma {:induction false} BulletsAppend(xs: seq<string>, ys: seq<string>)
    ensures Bullets(xs + ys) == Bullets(xs) + Bullets(ys)
    decreases |ys|
  {
    if ys != [] {
      var init := ys[..|ys| - 1];
      assert (xs + ys)[..|xs + ys| - 1] == xs + init;
      var last := ys[|ys| - 1];
      assert (xs + ys)[|xs + ys| - 1] == last;
      BulletsAppend(xs, init);
      assert Bullets(xs + ys) == Bullets(xs + init) + "\U{2022} " + last + "\n";
      assert Bullets(ys) == Bullets(init) + "\U{2022} " + last + "\n";
      assert Bullets(xs) + Bullets(init) + "\U{2022} " + last + "\n"
        == Bullets(xs) + (Bullets(init) + "\U{2022} " + last + "\n");
    } else {
      assert xs + ys == xs;
    }
  }

  /** The bullets of a list are those before an item, the item's line, then those after it. */
  lemma BulletsAround(before: seq<string>, x: string, after: seq<string>)
    ensures Bullets(before + [x] + after) == Bullets(before) + ("\U{2022} " + x + "\n") + Bullets(after)
  {
    BulletsAppend(before + [x], after);
    BulletsOne(before, x);
  }

  /** Appending one item appends its line. */
  lemma BulletsOne(before: seq<string>, x: string)
    ensures Bullets(before + [x]) == Bullets(before) + ("\U{2022} " + x + "\n")
  {
    assert (before + [x])[..|before|] == before;
  }

  /** A list is the items before position `k`, the item at `k`, then the items after it. */
  lemma SplitAround(items: seq<string>, k: nat)
    requires k < |items|
    ensures items == items[..k] + [items[k]] + items[k + 1..]
  {
  }

  /** Every item appears as its own "• item" line. */
  lemma BulletsListEach(items: seq<string>, k: nat)
    requires k < |items|
    ensures Contains(Bullets(items), "\U{2022} " + items[k] + "\n")
  {
    SplitAround(items, k);
    BulletsAround(items[..k], items[k], items[k + 1..]);
    ContainsPiece(Bullets(items[..k]), "\U{2022} " + items[k] + "\n", Bullets(items[k + 1..]));
  }
}
