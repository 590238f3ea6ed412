/**
 * Scanning an insertion-ordered table of category to phrases: every phrase
 * found in the text is one trigger of its category.  The `lfas` and
 * `src/lfas` detectors lower each phrase first (`foldPhrase`), the
 * `lfas_protocol` detector compares the phrases as written.
 */
module Taxonomy {
  import opened Strings
  import opened Common

  /** Every matched phrase, category by category in table order, each category's phrases in list order. */
  function Triggered(table: Table, text: string, foldPhrase: bool): seq<string>
  {
    if table == [] then []
    else Triggered(table[..|table| - 1], text, foldPhrase) + Matching(table[|table| - 1].values, text, foldPhrase)
  }

  /** The categories with at least one matched phrase. */
  function TriggeredCategories(table: Table, text: string, foldPhrase: bool): set<string>
  {
    if table == [] then {}
    else
      TriggeredCategories(table[..|table| - 1], text, foldPhrase)
      + (if Matching(table[|table| - 1].values, text, foldPhrase) != [] then {table[|table| - 1].key} else {})
  }

  /** A category is reported exactly when one of its phrases, lowered, occurs in the text. */
  lemma {:induction false} TriggeredCategoriesMembers(table: Table, text: string, foldPhrase: bool, c: string)
    ensures c in TriggeredCategories(table, text, foldPhrase) <==>
      exists i | 0 <= i < |table| :: table[i].key == c && exists p | p in table[i].values :: Hit(p, text, foldPhrase)
    decreases |table|
  {
    if table != [] {
      var n := |table| - 1;
      var init := table[..n];
      TriggeredCategoriesMembers(init, text, foldPhrase, c);
      MatchingEmptyIff(table[n].values, text, foldPhrase);
      if exists i | 0 <= i < |table| :: table[i].key == c && exists p | p in table[i].values :: Hit(p, text, foldPhrase) {
        var i :| 0 <= i < |table| && table[i].key == c && exists p | p in table[i].values :: Hit(p, text, foldPhrase);
        if i < n {
          assert init[i] == table[i];
        }
      }
    }
  }

  /** Every phrase of a category that triggers is among the triggered indicators. */
  lemma {:induction false} TriggeredHas(table: Table, text: string, foldPhrase: bool, i: nat, p: string)
    requires i < |table| && p in table[i].values && Hit(p, text, foldPhrase)
    ensures p in Triggered(table, text, foldPhrase)
    decreases |table|
  {
    var n := |table| - 1;
    MatchingMembers(table[n].values, text, foldPhrase, p);
    if i < n {
      TriggeredHas(table[..n], text, foldPhrase, i, p);
    }
  }

  /** Only listed phrases that trigger are reported. */
  lemma {:induction false} TriggeredOnlyListed(table: Table, text: string, foldPhrase: bool, p: string)
    requires p in Triggered(table, text, foldPhrase)
    ensures exists i | 0 <= i < |table| :: p in table[i].values && Hit(p, text, foldPhrase)
    decreases |table|
  {
    var n := |table| - 1;
    var init := table[..n];
    MatchingMembers(table[n].values, text, foldPhrase, p);
    if p in Triggered(init, text, foldPhrase) {
      TriggeredOnlyListed(init, text, foldPhrase, p);
      var i :| 0 <= i < |init| && p in init[i].values && Hit(p, text, foldPhrase);
      assert table[i] == init[i];
    }
  }

  /** Every category's own matches are part of the triggers, so their number bounds the count from below. */
  lemma {:induction false} TriggeredAtLeastCategory(table: Table, text: string, foldPhrase: bool, i: nat)
    requires i < |table|
    ensures |Triggered(table, text, foldPhrase)| >= |Matching(table[i].values, text, foldPhrase)|
    decreases |table|
  {
    var n := |table| - 1;
    if i < n {
      assert table[..n][i] == table[i];
      TriggeredAtLeastCategory(table[..n], text, foldPhrase, i);
    }
  }

  /** For a table of lower-case phrases, folding the phrases first changes no trigger. */
  lemma {:induction false} TriggeredFoldIrrelevant(table: Table, text: string)
    requires forall i, p | 0 <= i < |table| && p in table[i].values :: IsLower(p)
    ensures Triggered(table, text, false) == Triggered(table, text, true)
    ensures TriggeredCategories(table, text, false) == TriggeredCategories(table, text, true)
    decreases |table|
  {
    if table != [] {
      var n := |table| - 1;
      assert forall i | 0 <= i < n :: table[..n][i] == table[i];
      TriggeredFoldIrrelevant(table[..n], text);
      MatchingFoldIrrelevant(table[n].values, text);
    }
  }

  /** There are never more triggered categories than table entries. */
  lemma {:induction false} TriggeredCategoriesBound(table: Table, text: string, foldPhrase: bool)
    ensures |TriggeredCategories(table, text, foldPhrase)| <= |table|
    decreases |table|
  {
    if table != [] {
      TriggeredCategoriesBound(table[..|table| - 1], text, foldPhrase);
    }
  }
}
