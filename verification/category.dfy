/** The tool-name classifier: a fixed, ordered table of platform prefixes
    with a fall-back to the text before the first underscore. */
module Category {
  import opened Wrappers
  import opened Text

  /** The keys of the platform label table, in declaration order; the order
      is the classifier's precedence. */
  const KnownPrefixes: seq<string> :=
    ["xiaohongshu", "tiktok", "douyin", "instagram", "youtube", "twitter",
     "weibo", "kuaishou", "threads", "lemon8", "tikhub", "health"]

  /** The separator whose first occurrence ends a fall-back category. */
  const Separator: char := '_'

  /** Some key of the table is a prefix of `name`. */
  predicate MatchesKnown(name: string)
  {
    exists i :: 0 <= i < |KnownPrefixes| && StartsWith(name, KnownPrefixes[i])
  }

  /** Key `i` prefixes `name` and no key declared before it does. */
  predicate IsEarliestKnown(name: string, i: int)
  {
    && 0 <= i < |KnownPrefixes|
    && StartsWith(name, KnownPrefixes[i])
    && forall j :: 0 <= j < i ==> !StartsWith(name, KnownPrefixes[j])
  }

  /** The index of the first key at position `from` or later that prefixes
      `name`, scanning the table in declaration order. */
  function FirstKnownFrom(name: string, from: nat): (r: Option<nat>)
    requires from <= |KnownPrefixes|
    ensures r.Some? ==> from <= r.value < |KnownPrefixes| && StartsWith(name, KnownPrefixes[r.value])
    ensures r.Some? ==> forall j :: from <= j < r.value ==> !StartsWith(name, KnownPrefixes[j])
    ensures r.None? ==> forall j :: from <= j < |KnownPrefixes| ==> !StartsWith(name, KnownPrefixes[j])
    decreases |KnownPrefixes| - from
  {
    if from == |KnownPrefixes| then None
    else if StartsWith(name, KnownPrefixes[from]) then Some(from)
    else FirstKnownFrom(name, from + 1)
  }

  /** The category of a tool name: the earliest table key that prefixes it;
      otherwise the text before the first separator when that separator is
      not at position 0; otherwise the whole name. The result is always a
      prefix of the name, and never empty for a non-empty name. */
  function GetCategory(name: string): (r: string)
    ensures StartsWith(name, r)
    ensures |name| > 0 ==> |r| > 0
  {
    match FirstKnownFrom(name, 0)
    case Some(i) => KnownPrefixes[i]
    case None =>
      var idx := IndexOf(name, Separator);
      if idx > 0 then name[..idx] else name
  }

  /** A known-prefix name is classified by the earliest key that prefixes it,
      and only by that one. */
  lemma KnownPrefixWins(name: string, i: int)
    requires 0 <= i < |KnownPrefixes|
    ensures IsEarliestKnown(name, i) <==> MatchesKnown(name) && GetCategory(name) == KnownPrefixes[i]
  {
  }

  /** No key of the table is a prefix of another key, so at most one key can
      prefix any name: the declaration order never decides between two
      candidates for this particular table. */
  lemma KeysPrefixFree(i: int, j: int)
    requires 0 <= i < |KnownPrefixes| && 0 <= j < |KnownPrefixes| && i != j
    ensures !StartsWith(KnownPrefixes[i], KnownPrefixes[j])
  {
    var a, b := KnownPrefixes[i], KnownPrefixes[j];
    assert |b| > |a| || a[0] != b[0] || a[1] != b[1] || a[3] != b[3];
  }

  /** With this table, any key that prefixes a name is its category. */
  lemma AnyKnownPrefixWins(name: string, i: int)
    requires 0 <= i < |KnownPrefixes| && StartsWith(name, KnownPrefixes[i])
    ensures GetCategory(name) == KnownPrefixes[i]
  {
    forall j | 0 <= j < i
      ensures !StartsWith(name, KnownPrefixes[j])
    {
      if StartsWith(name, KnownPrefixes[j]) {
        OverlappingPrefixes(name, KnownPrefixes[i], KnownPrefixes[j]);
        KeysPrefixFree(i, j);
        KeysPrefixFree(j, i);
      }
    }
    KnownPrefixWins(name, i);
  }

  /** Two prefixes of one string: the shorter prefixes the longer. */
  lemma OverlappingPrefixes(s: string, p: string, q: string)
    requires StartsWith(s, p) && StartsWith(s, q)
    ensures StartsWith(p, q) || StartsWith(q, p)
  {
  }

  /** Fall-back: when no key matches and the first separator sits at a
      position `i > 0`, the category is the text before it, which holds no
      separator. */
  lemma FallbackSplitsAtFirstSeparator(name: string, i: int)
    requires !MatchesKnown(name)
    requires 0 < i < |name| && name[i] == Separator && Separator !in name[..i]
    ensures GetCategory(name) == name[..i]
    ensures Separator !in GetCategory(name)
  {
  }

  /** Fall-back: with no key matching, a name without a separator, or one
      that starts with it, is its own category. */
  lemma FallbackWholeName(name: string)
    requires !MatchesKnown(name)
    requires Separator !in name || (|name| > 0 && name[0] == Separator)
    ensures GetCategory(name) == name
  {
  }

  /** Every category is one of three things: the earliest matching key, the
      text before the first separator, or the whole name. */
  lemma CategoryShapes(name: string)
    ensures var r := GetCategory(name);
      || (exists i :: IsEarliestKnown(name, i) && r == KnownPrefixes[i])
      || (!MatchesKnown(name) && 0 < |r| < |name| && name[|r|] == Separator && Separator !in r && r == name[..|r|])
      || (!MatchesKnown(name) && r == name)
  {
  }

  /** The classifier as the source writes it: a loop over the table that
      returns on the first key the name starts with, then a search for the
      first separator. */
  method Classify(name: string) returns (cat: string)
    ensures cat == GetCategory(name)
  {
    var i := 0;
    while i < |KnownPrefixes|
      invariant 0 <= i <= |KnownPrefixes|
      invariant FirstKnownFrom(name, 0) == FirstKnownFrom(name, i)
    {
      var prefix := KnownPrefixes[i];
      if |prefix| <= |name| && name[..|prefix|] == prefix {
        return prefix;
      }
      i := i + 1;
    }
    var idx := IndexOf(name, Separator);
    if idx > 0 {
      cat := name[..idx];
    } else {
      cat := name;
    }
  }
}
