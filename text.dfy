/** Prefix and suffix handling on strings, used to read formatted lines back. */
module Text {
  import opened Wrappers

  predicate StartsWith(s: string, prefix: string) {
    |prefix| <= |s| && s[..|prefix|] == prefix
  }

  /** The middle of `s` once the prefix `pre` and the suffix `suf` are removed, if `s` has both. */
  function Between(s: string, pre: string, suf: string): (r: Option<string>)
    ensures r.Some? <==> |pre| + |suf| <= |s| && StartsWith(s, pre) && s[|s| - |suf|..] == suf
    ensures r.Some? ==> pre + r.value + suf == s
  {
    if |pre| + |suf| <= |s| && s[..|pre|] == pre && s[|s| - |suf|..] == suf then
      var mid := s[|pre|..|s| - |suf|];
      assert s == s[..|pre|] + mid + s[|s| - |suf|..];
      Some(mid)
    else
      None
  }

  /** Removing the pieces a string was built from gives back the middle piece. */
  lemma BetweenOfConcat(pre: string, mid: string, suf: string)
    ensures Between(pre + mid + suf, pre, suf) == Some(mid)
  {
  }
}
