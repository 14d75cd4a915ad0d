/**
 * Extraction of a card's BV identifier: the first descendant link whose href
 * contains "/video/" is taken, and the capture group of the leftmost match of
 * the regular expression `video\/(BV\w+)` in its href is the identifier.
 * Links are given as the sequence of their hrefs, in document order.
 */
module BvId {
  import opened Wrappers

  /** What a candidate link's href must contain (the selector `a[href*="/video/"]`). */
  const VideoPath: string := "/video/"
  /** The literal part of `video\/(BV\w+)` in front of `\w+`. */
  const Anchor: string := "video/BV"

  /** The regular-expression class `\w`. */
  predicate IsWordChar(c: char) {
    ('A' <= c <= 'Z') || ('a' <= c <= 'z') || ('0' <= c <= '9') || c == '_'
  }

  predicate OccursAt(s: string, pat: string, i: nat) {
    i + |pat| <= |s| && s[i..i + |pat|] == pat
  }

  predicate Contains(s: string, pat: string) {
    exists i :: 0 <= i <= |s| && OccursAt(s, pat, i)
  }

  /** A well-formed identifier: "BV" followed by at least one `\w` character. */
  predicate IsBvToken(t: string) {
    |t| >= 3 && t[0] == 'B' && t[1] == 'V' && forall k :: 2 <= k < |t| ==> IsWordChar(t[k])
  }

  /** The regular expression `video\/(BV\w+)` matches at position p of s. */
  predicate MatchesAt(s: string, p: nat) {
    OccursAt(s, Anchor, p) && p + |Anchor| < |s| && IsWordChar(s[p + |Anchor|])
  }

  /** The first position at or after `from` where the expression matches. */
  function LeftmostMatch(s: string, from: nat): (r: Option<nat>)
    decreases |s| - from
    ensures r.Some? ==> from <= r.value && MatchesAt(s, r.value)
    ensures forall q: nat :: from <= q && (r.None? || q < r.value) ==> !MatchesAt(s, q)
  {
    if |s| <= from + |Anchor| then None
    else if MatchesAt(s, from) then Some(from)
    else LeftmostMatch(s, from + 1)
  }

  /** The end of the longest run of `\w` characters starting at k (greedy `\w+`). */
  function WordRunEnd(s: string, k: nat): (e: nat)
    requires k <= |s|
    decreases |s| - k
    ensures k <= e <= |s|
    ensures forall j :: k <= j < e ==> IsWordChar(s[j])
    ensures e == |s| || !IsWordChar(s[e])
  {
    if k == |s| || !IsWordChar(s[k]) then k else WordRunEnd(s, k + 1)
  }

  /** The capture group of the leftmost match of `video\/(BV\w+)` in s. */
  function MatchBv(s: string): (r: Option<string>)
    ensures r.None? <==> forall p: nat :: !MatchesAt(s, p)
    ensures r.Some? ==> IsBvToken(r.value)
  {
    match LeftmostMatch(s, 0)
    case None => None
    case Some(p) =>
      var e := WordRunEnd(s, p + |Anchor|);
      assert s[p + 6] == s[p..p + |Anchor|][6] && s[p + 7] == s[p..p + |Anchor|][7];
      Some(s[p + 6..e])
  }

  /** Index of the first href containing "/video/". */
  function FirstVideoLink(hrefs: seq<string>): (r: Option<nat>)
    ensures r.Some? ==> r.value < |hrefs| && Contains(hrefs[r.value], VideoPath)
    ensures forall j :: 0 <= j < |hrefs| && (r.None? || j < r.value) ==> !Contains(hrefs[j], VideoPath)
  {
    if hrefs == [] then None
    else if Contains(hrefs[0], VideoPath) then Some(0)
    else match FirstVideoLink(hrefs[1..])
      case None => None
      case Some(i) => Some(i + 1)
  }

  /** `getBVID`: the identifier of a card whose links have the given hrefs. */
  function GetBvid(hrefs: seq<string>): (r: Option<string>)
    ensures r.Some? ==> IsBvToken(r.value)
  {
    match FirstVideoLink(hrefs)
    case None => None
    case Some(i) => MatchBv(hrefs[i])
  }

  /** Without any link to a video page there is no identifier. */
  lemma NoVideoLinkNoBvid(hrefs: seq<string>)
    requires forall j :: 0 <= j < |hrefs| ==> !Contains(hrefs[j], VideoPath)
    ensures GetBvid(hrefs) == None
  {
  }

  /**
   * Only the first video link is consulted: its match (or its lack of one)
   * decides the result, whatever the later links hold.
   */
  lemma GetBvidUsesFirstVideoLink(hrefs: seq<string>, i: nat)
    requires i < |hrefs| && Contains(hrefs[i], VideoPath)
    requires forall j :: 0 <= j < i ==> !Contains(hrefs[j], VideoPath)
    ensures GetBvid(hrefs) == MatchBv(hrefs[i])
    ensures forall later: seq<string> :: GetBvid(hrefs + later) == MatchBv(hrefs[i])
  {
    forall later: seq<string> ensures GetBvid(hrefs + later) == MatchBv(hrefs[i]) {
      var all := hrefs + later;
      assert all[i] == hrefs[i];
      assert forall j :: 0 <= j < i ==> all[j] == hrefs[j];
    }
  }

  /**
   * Independent statement of the regular-expression semantics: if p is the
   * leftmost match position and e ends the maximal `\w` run after "video/BV",
   * the identifier is exactly s[p + 6..e].
   */
  lemma MatchBvCharacterized(s: string, p: nat, e: nat)
    requires MatchesAt(s, p)
    requires forall q: nat :: q < p ==> !MatchesAt(s, q)
    requires p + |Anchor| < e <= |s|
    requires forall j :: p + |Anchor| <= j < e ==> IsWordChar(s[j])
    requires e == |s| || !IsWordChar(s[e])
    ensures MatchBv(s) == Some(s[p + 6..e])
  {
  }
}
