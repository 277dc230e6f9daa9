/** The two JavaScript string primitives the classifier relies on, on strings
    modelled as `seq<char>`. */
module Text {
  import Seqs

  /** `s.startsWith(p)`: `p` is a literal prefix of `s` (the empty string is a
      prefix of every string). */
  predicate StartsWith(s: string, p: string)
  {
    Seqs.IsPrefix(s, p)
  }

  /** `s.indexOf(c)` for a one-character needle: the index of the first
      occurrence of `c` in `s`, or -1 when `c` does not occur. */
  function IndexOf(s: string, c: char): (r: int)
    ensures -1 <= r < |s|
    ensures r == -1 <==> c !in s
    ensures 0 <= r ==> s[r] == c && c !in s[..r]
  {
    if |s| == 0 then -1
    else if s[0] == c then 0
    else
      var k := IndexOf(s[1..], c);
      if k == -1 then -1
      else
        assert s[..k + 1] == [s[0]] + s[1..][..k];
        k + 1
  }

  /** Any position holding `c` with no earlier `c` is the one `IndexOf` finds. */
  lemma IndexOfFirst(s: string, c: char, i: nat)
    requires i < |s| && s[i] == c && c !in s[..i]
    ensures IndexOf(s, c) == i
  {
  }
}
