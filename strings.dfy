/**
 * Text primitives shared by every detector variant: ASCII case folding
 * (the model of Python's `str.lower()`), literal substring containment
 * (Python's `needle in hay`), `sep.join(parts)`, the `xs[-n:]` slice and the
 * in-order filter "the phrases of a list that occur in a text".
 */
module Strings {

  /** ASCII case folding of one character. */
  function LowerChar(c: char): char {
    if 'A' <= c <= 'Z' then (c as int + 32) as char else c
  }

  /** Python's `s.lower()`, restricted to ASCII letters. */
  function Lower(s: string): (r: string)
    ensures |r| == |s|
    ensures forall i | 0 <= i < |s| :: r[i] == LowerChar(s[i])
  {
    seq(|s|, i requires 0 <= i < |s| => LowerChar(s[i]))
  }

  /** A string that folding leaves unchanged. */
  predicate IsLower(s: string) {
    forall i | 0 <= i < |s| :: LowerChar(s[i]) == s[i]
  }

  /** A string without upper-case ASCII letters is in lower case. */
  lemma NoUpperIsLower(s: string)
    requires forall i | 0 <= i < |s| :: !('A' <= s[i] <= 'Z')
    ensures IsLower(s)
  {
  }

  lemma LowerIsLower(s: string)
    ensures IsLower(Lower(s))
    ensures Lower(Lower(s)) == Lower(s)
  {
  }

  lemma LowerOfLower(s: string)
    requires IsLower(s)
    ensures Lower(s) == s
  {
  }

  lemma LowerAppend(a: string, b: string)
    ensures Lower(a + b) == Lower(a) + Lower(b)
  {
  }

  /** `needle` occurs in `hay` starting at index `i`. */
  predicate OccursAt(hay: string, needle: string, i: int) {
    0 <= i && i + |needle| <= |hay| && hay[i..i + |needle|] == needle
  }

  /** Python's `needle in hay` on strings. */
  predicate Contains(hay: string, needle: string) {
    exists i | 0 <= i <= |hay| - |needle| :: OccursAt(hay, needle, i)
  }

  lemma ContainsEmpty(hay: string)
    ensures Contains(hay, "")
  {
    assert OccursAt(hay, "", 0);
  }

  lemma ContainsSelf(s: string)
    ensures Contains(s, s)
  {
    assert OccursAt(s, s, 0);
  }

  /** An occurrence in `b` is an occurrence in `a + b + c`. */
  lemma ContainsMiddle(a: string, b: string, c: string, x: string)
    requires Contains(b, x)
    ensures Contains(a + b + c, x)
  {
    var i :| 0 <= i <= |b| - |x| && OccursAt(b, x, i);
    assert (a + b + c)[|a| + i..|a| + i + |x|] == b[i..i + |x|];
    assert OccursAt(a + b + c, x, |a| + i);
  }

  lemma ContainsLeft(a: string, b: string, x: string)
    requires Contains(a, x)
    ensures Contains(a + b, x)
  {
    ContainsMiddle([], a, b, x);
    assert [] + a + b == a + b;
  }

  lemma ContainsRight(a: string, b: string, x: string)
    requires Contains(b, x)
    ensures Contains(a + b, x)
  {
    ContainsMiddle(a, b, [], x);
    assert a + b + [] == a + b;
  }

  /** A part of a text is contained in it. */
  lemma ContainsPiece(a: string, b: string, c: string)
    ensures Contains(a + b + c, b)
  {
    ContainsSelf(b);
    ContainsMiddle(a, b, c, b);
  }

  /** If a text contains `x`, it contains every prefix of `x`. */
  lemma ContainsPrefix(hay: string, x: string, k: nat)
    requires Contains(hay, x) && k <= |x|
    ensures Contains(hay, x[..k])
  {
    var i :| 0 <= i <= |hay| - |x| && OccursAt(hay, x, i);
    assert hay[i..i + k] == x[..k];
    assert OccursAt(hay, x[..k], i);
  }

  /** A folded text never contains a needle holding a character that folding changes. */
  lemma {:induction false} FoldedMissesUpper(hay: string, needle: string, k: nat)
    requires k < |needle| && LowerChar(needle[k]) != needle[k]
    ensures !Contains(Lower(hay), needle)
  {
    forall i | 0 <= i <= |Lower(hay)| - |needle|
      ensures !OccursAt(Lower(hay), needle, i)
    {
      assert LowerChar(LowerChar(hay[i + k])) == LowerChar(hay[i + k]);
      assert Lower(hay)[i..i + |needle|][k] != needle[k];
    }
  }

  /** Folding both the text and the needle keeps an occurrence. */
  lemma ContainsLowered(hay: string, needle: string)
    requires Contains(hay, needle)
    ensures Contains(Lower(hay), Lower(needle))
  {
    var i :| 0 <= i <= |hay| - |needle| && OccursAt(hay, needle, i);
    assert Lower(hay)[i..i + |needle|] == Lower(needle);
    assert OccursAt(Lower(hay), Lower(needle), i);
  }

  /**
   * Does phrase `p` trigger on `text`?  Some variants fold the phrase before
   * the test (`p.lower() in text`), others test it as written (`p in text`).
   */
  predicate Hit(p: string, text: string, foldPhrase: bool) {
    Contains(text, if foldPhrase then Lower(p) else p)
  }

  /** The phrases of `ps`, in list order, that trigger on `text`. */
  function Matching(ps: seq<string>, text: string, foldPhrase: bool): seq<string>
  {
    if ps == [] then []
    else
      var init := Matching(ps[..|ps| - 1], text, foldPhrase);
      if Hit(ps[|ps| - 1], text, foldPhrase) then init + [ps[|ps| - 1]] else init
  }

  /** A phrase is matched exactly when it is listed and triggers. */
  lemma {:induction false} MatchingMembers(ps: seq<string>, text: string, foldPhrase: bool, p: string)
    ensures p in Matching(ps, text, foldPhrase) <==> p in ps && Hit(p, text, foldPhrase)
    ensures |Matching(ps, text, foldPhrase)| <= |ps|
    decreases |ps|
  {
    if ps != [] {
      var init := ps[..|ps| - 1];
      MatchingMembers(init, text, foldPhrase, p);
      assert ps == init + [ps[|ps| - 1]];
    }
  }

  /** Nothing is matched exactly when no listed phrase triggers. */
  lemma {:induction false} MatchingEmptyIff(ps: seq<string>, text: string, foldPhrase: bool)
    ensures Matching(ps, text, foldPhrase) == [] <==> forall p | p in ps :: !Hit(p, text, foldPhrase)
    decreases |ps|
  {
    if ps != [] {
      var init := ps[..|ps| - 1];
      MatchingEmptyIff(init, text, foldPhrase);
      assert ps == init + [ps[|ps| - 1]];
    }
  }

  /** For phrases already in lower case, folding them first changes nothing. */
  lemma {:induction false} MatchingFoldIrrelevant(ps: seq<string>, text: string)
    requires forall p | p in ps :: IsLower(p)
    ensures Matching(ps, text, false) == Matching(ps, text, true)
    decreases |ps|
  {
    if ps != [] {
      var init := ps[..|ps| - 1];
      assert forall p | p in init :: p in ps;
      MatchingFoldIrrelevant(init, text);
      LowerOfLower(ps[|ps| - 1]);
    }
  }

  /** Two distinct matched phrases mean at least two matches. */
  lemma TwoDistinctMatches(ps: seq<string>, text: string, foldPhrase: bool, p: string, q: string)
    requires p != q && p in ps && q in ps
    requires Hit(p, text, foldPhrase) && Hit(q, text, foldPhrase)
    ensures |Matching(ps, text, foldPhrase)| >= 2
  {
    var m := Matching(ps, text, foldPhrase);
    MatchingMembers(ps, text, foldPhrase, p);
    MatchingMembers(ps, text, foldPhrase, q);
    assert p in m && q in m;
  }

  /** Python's `xs[-n:]`: the last `n` elements, or all of them when fewer. */
  function Last<T>(xs: seq<T>, n: nat): (r: seq<T>)
    ensures |r| == if |xs| < n then |xs| else n
    ensures forall i | 0 <= i < |r| :: r[i] == xs[|xs| - |r| + i]
  {
    if |xs| <= n then xs else xs[|xs| - n..]
  }

  /** Elements in front of a suffix of length at least `n` never reach `Last(_, n)`. */
  lemma LastIgnoresOlder<T>(older: seq<T>, xs: seq<T>, n: nat)
    requires |xs| >= n
    ensures Last(older + xs, n) == Last(xs, n)
  {
    assert (older + xs)[|older + xs| - n..] == xs[|xs| - n..];
  }

  /** Python's `sep.join(parts)`. */
  function Join(parts: seq<string>, sep: string): string
  {
    if parts == [] then ""
    else if |parts| == 1 then parts[0]
    else Join(parts[..|parts| - 1], sep) + sep + parts[|parts| - 1]
  }

  /** A text contains its own head. */
  lemma ContainsHead(x: string, y: string)
    ensures Contains(x + y, x)
  {
    assert OccursAt(x + y, x, 0);
  }

  /** Containment is transitive. */
  lemma ContainsTransitive(a: string, b: string, c: string)
    requires Contains(a, b) && Contains(b, c)
    ensures Contains(a, c)
  {
    var i :| 0 <= i <= |a| - |b| && OccursAt(a, b, i);
    var j :| 0 <= j <= |b| - |c| && OccursAt(b, c, j);
    assert a[i..i + |b|] == b;
    forall k | 0 <= k < |c| ensures a[i + j + k] == c[k] {
      assert a[i + j + k] == a[i..i + |b|][j + k];
      assert b[j..j + |c|][k] == c[k];
    }
    assert a[i + j..i + j + |c|] == c;
    assert OccursAt(a, c, i + j);
  }

  /** Every part is contained in the joined text. */
  lemma {:induction false} JoinContainsPart(parts: seq<string>, sep: string, k: nat)
    requires k < |parts|
    ensures Contains(Join(parts, sep), parts[k])
    decreases |parts|
  {
    if |parts| == 1 {
      ContainsSelf(parts[0]);
    } else if k == |parts| - 1 {
      ContainsPiece(Join(parts[..|parts| - 1], sep) + sep, parts[k], "");
      assert Join(parts[..|parts| - 1], sep) + sep + parts[k] + "" == Join(parts, sep);
    } else {
      JoinContainsPart(parts[..|parts| - 1], sep, k);
      ContainsLeft(Join(parts[..|parts| - 1], sep), sep + parts[|parts| - 1], parts[k]);
      assert Join(parts[..|parts| - 1], sep) + (sep + parts[|parts| - 1]) == Join(parts, sep);
    }
  }

  /** A joined text starts with its first part. */
  lemma {:induction false} JoinStartsWithFirst(parts: seq<string>, sep: string)
    requires parts != []
    ensures |Join(parts, sep)| >= |parts[0]| && Join(parts, sep)[..|parts[0]|] == parts[0]
    decreases |parts|
  {
    if |parts| > 1 {
      var init := parts[..|parts| - 1];
      JoinStartsWithFirst(init, sep);
      assert init[0] == parts[0];
      assert Join(parts, sep) == Join(init, sep) + (sep + parts[|parts| - 1]);
    }
  }

  /** A prefix of a prefix is a prefix. */
  lemma PrefixTransitive(a: string, b: string, c: string)
    requires |a| >= |b| && a[..|b|] == b
    requires |b| >= |c| && b[..|c|] == c
    ensures |a| >= |c| && a[..|c|] == c
  {
    assert a[..|c|] == a[..|b|][..|c|];
  }

  /** With an empty separator, joining one more part appends it. */
  lemma JoinEmptySeparatorAppend(parts: seq<string>, x: string)
    ensures Join(parts + [x], "") == Join(parts, "") + x
  {
    assert (parts + [x])[..|parts|] == parts;
  }

  /** Python's `c * n` for a one-character string. */
  function Repeat(c: char, n: nat): (r: string)
    ensures |r| == n && forall i | 0 <= i < n :: r[i] == c
  {
    seq(n, _ => c)
  }
}
