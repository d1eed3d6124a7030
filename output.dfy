/** The name of the file the finished card is written to. */
module Output {
  import opened Outcomes

  const Extension: string := ".jpg"

  /** `shopName + "_" + cardOwner + ".jpg"`. */
  function CardFilename(shopName: string, cardOwner: string): (f: string)
    ensures |f| == |shopName| + 1 + |cardOwner| + |Extension|
    ensures f[..|shopName|] == shopName && f[|shopName|] == '_'
    ensures f[|shopName| + 1..|f| - |Extension|] == cardOwner
    ensures f[|f| - |Extension|..] == Extension
  {
    shopName + "_" + cardOwner + Extension
  }

  /** The first index of `c` in `s`, if any. */
  function FirstIndex(c: char, s: string): (r: Option<nat>)
    ensures r.None? <==> c !in s
    ensures r.Some? ==> r.value < |s| && s[r.value] == c && c !in s[..r.value]
  {
    if s == [] then None
    else if s[0] == c then Some(0)
    else match FirstIndex(c, s[1..])
      case None => None
      case Some(i) =>
        assert s[..i + 1] == [s[0]] + s[1..][..i];
        Some(i + 1)
  }

  /** Reads shop and owner back from a card file name, splitting at the first `_`. */
  function SplitFilename(f: string): Option<(string, string)> {
    if |f| < |Extension| || f[|f| - |Extension|..] != Extension then None
    else
      var stem := f[..|f| - |Extension|];
      match FirstIndex('_', stem)
      case None => None
      case Some(i) => Some((stem[..i], stem[i + 1..]))
  }

  /** A shop name without `_` and the owner name are recovered from the file name. */
  lemma {:induction false} FilenameRoundTrip(shopName: string, cardOwner: string)
    requires '_' !in shopName
    ensures SplitFilename(CardFilename(shopName, cardOwner)) == Some((shopName, cardOwner))
  {
    var f := CardFilename(shopName, cardOwner);
    var stem := f[..|f| - |Extension|];
    assert stem == shopName + "_" + cardOwner;
    assert stem[..|shopName|] == shopName;
    var r := FirstIndex('_', stem);
    assert r.Some? && r.value == |shopName| by {
      assert stem[|shopName|] == '_';
    }
    assert stem[|shopName| + 1..] == cardOwner;
  }

  /** Without that condition two different cards can share a file name, and
      the later one overwrites the earlier. */
  lemma FilenameCollision()
    ensures CardFilename("a_b", "c") == CardFilename("a", "b_c")
  {
  }
}
