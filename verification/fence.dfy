/**
  The pattern ```` ```json\s*(.*?)\s*``` ```` searched with `re.DOTALL`, as
  `parse_tool_calls_from_content` uses it: the leftmost match, with the
  greedy leading `\s*`, the lazy capture and the trailing `\s*` resolved the
  way Python's backtracking engine resolves them.
 */
module Fence {
  import opened Wrappers
  import opened Text

  const Open: string := "```json"
  const Close: string := "```"

  /** Positions of one match: opening fence, captured group `[bodyStart, bodyEnd)`, closing fence. */
  datatype Match = Match(open: nat, bodyStart: nat, bodyEnd: nat, close: nat)

  predicate AllSpace(s: string, lo: nat, hi: nat)
    requires lo <= hi <= |s|
  {
    forall k :: lo <= k < hi ==> IsSpace(s[k])
  }

  /** A ```` ```json ```` fence at `i` with a ```` ``` ```` fence at `j` after it. */
  ghost predicate Fenced(s: string, i: nat, j: nat) {
    StartsAt(s, Open, i) && i + |Open| <= j && StartsAt(s, Close, j)
  }

  /**
    `m` is the match the engine reports for an attempt at `m.open`: the
    leading `\s*` takes every space it can, the lazy group stops before the
    first closing fence, and the spaces in front of that fence go to the
    trailing `\s*` rather than to the group.
   */
  ghost predicate IsMatch(s: string, m: Match) {
    && StartsAt(s, Open, m.open)
    && m.open + |Open| <= m.bodyStart <= m.bodyEnd <= m.close
    && StartsAt(s, Close, m.close)
    && AllSpace(s, m.open + |Open|, m.bodyStart)
    && !IsSpace(s[m.bodyStart])
    && (forall k :: m.bodyStart <= k < m.close ==> !StartsAt(s, Close, k))
    && AllSpace(s, m.bodyEnd, m.close)
    && (m.bodyStart < m.bodyEnd ==> !IsSpace(s[m.bodyEnd - 1]))
  }

  /** The first index at or after `k` that holds no space. */
  function SkipSpaces(s: string, k: nat): (r: nat)
    requires k <= |s|
    ensures k <= r <= |s| && AllSpace(s, k, r)
    ensures r < |s| ==> !IsSpace(s[r])
    decreases |s| - k
  {
    if k < |s| && IsSpace(s[k]) then SkipSpaces(s, k + 1) else k
  }

  /** The least `r` in `[lo, hi]` such that `s[r..hi]` is all spaces. */
  function TrimSpaces(s: string, lo: nat, hi: nat): (r: nat)
    requires lo <= hi <= |s|
    ensures lo <= r <= hi && AllSpace(s, r, hi)
    ensures lo < r ==> !IsSpace(s[r - 1])
    decreases hi - lo
  {
    if lo < hi && IsSpace(s[hi - 1]) then TrimSpaces(s, lo, hi - 1) else hi
  }

  /** `re.search` of the fence pattern: the leftmost match, or none. */
  function Search(s: string): (r: Option<Match>)
    ensures r.None? ==> forall i: nat, j: nat :: !Fenced(s, i, j)
    ensures r.Some? ==> IsMatch(s, r.value)
    ensures r.Some? ==> forall i: nat :: i < r.value.open ==> !StartsAt(s, Open, i)
  {
    match FindFrom(s, Open, 0)
    case None => None
    case Some(i) =>
      var start := SkipSpaces(s, i + |Open|);
      match FindFrom(s, Close, start)
      case None =>
        NoCloseNoFence(s, i, start);
        None
      case Some(c) =>
        CloseGivesMatch(s, i, start, c);
        Some(Match(i, start, TrimSpaces(s, start, c), c))
  }

  /** Without a closing fence after the spaces that follow the first opening fence, nothing is fenced. */
  lemma NoCloseNoFence(s: string, i: nat, start: nat)
    requires FindFrom(s, Open, 0) == Some(i) && i + |Open| <= |s|
    requires start == SkipSpaces(s, i + |Open|) && FindFrom(s, Close, start).None?
    ensures forall i': nat, j: nat :: !Fenced(s, i', j)
  {
    forall j | i + |Open| <= j < start ensures !StartsAt(s, Close, j) {
      assert IsSpace(s[j]);
    }
  }

  /** The first closing fence after those spaces completes the match of the first opening fence. */
  lemma CloseGivesMatch(s: string, i: nat, start: nat, c: nat)
    requires FindFrom(s, Open, 0) == Some(i) && i + |Open| <= |s|
    requires start == SkipSpaces(s, i + |Open|) && FindFrom(s, Close, start) == Some(c)
    ensures c <= |s| && IsMatch(s, Match(i, start, TrimSpaces(s, start, c), c))
  {
    assert s[c] == Close[0];
  }

  /** `json_match.group(1)` when the search succeeds. */
  function Body(s: string): (r: Option<string>)
    ensures r.None? <==> forall i: nat, j: nat :: !Fenced(s, i, j)
    ensures r.Some? ==>
      exists m :: && IsMatch(s, m) && r.value == s[m.bodyStart..m.bodyEnd]
                  && forall i: nat :: i < m.open ==> !StartsAt(s, Open, i)
  {
    match Search(s)
    case None => None
    case Some(m) =>
      assert Fenced(s, m.open, m.close);
      Some(s[m.bodyStart..m.bodyEnd])
  }

  /** The match conditions pin the capture down: one opening position admits one match. */
  lemma MatchUnique(s: string, m1: Match, m2: Match)
    requires IsMatch(s, m1) && IsMatch(s, m2) && m1.open == m2.open
    ensures m1 == m2
  {
  }

  /** Two strings that agree on their first `n` characters agree on every window inside them. */
  lemma AgreeOnWindows(s: string, s': string, n: nat)
    requires n <= |s| && n <= |s'| && s[..n] == s'[..n]
    ensures forall k: nat, pat: string :: k + |pat| <= n ==> (StartsAt(s, pat, k) <==> StartsAt(s', pat, k))
    ensures forall k :: 0 <= k < n ==> s[k] == s'[k]
  {
    forall k: nat, pat: string | k + |pat| <= n
      ensures StartsAt(s, pat, k) <==> StartsAt(s', pat, k)
    {
      assert s[k..k + |pat|] == s[..n][k..k + |pat|];
      assert s'[k..k + |pat|] == s'[..n][k..k + |pat|];
    }
    forall k | 0 <= k < n ensures s[k] == s'[k] {
      assert s[k] == s[..n][k];
      assert s'[k] == s'[..n][k];
    }
  }

  /** A match survives replacing everything after its closing fence. */
  lemma MatchSurvivesSuffix(s: string, m: Match, t: string)
    requires IsMatch(s, m)
    ensures IsMatch(s[..m.close + |Close|] + t, m)
  {
    var n := m.close + |Close|;
    var s' := s[..n] + t;
    assert s'[..n] == s[..n];
    AgreeOnWindows(s, s', n);
  }

  /** No opening fence before `o` stays true when only text beyond `o + |Open|` changes. */
  lemma NoEarlierOpen(s: string, s': string, n: nat, o: nat)
    requires o + |Open| <= n <= |s| && n <= |s'| && s[..n] == s'[..n]
    requires forall i: nat :: i < o ==> !StartsAt(s, Open, i)
    ensures forall i: nat :: i < o ==> !StartsAt(s', Open, i)
  {
    forall i: nat | i < o ensures !StartsAt(s', Open, i) {
      assert i + |Open| <= n;
      assert s[i..i + |Open|] == s[..n][i..i + |Open|];
      assert s'[i..i + |Open|] == s'[..n][i..i + |Open|];
      assert !StartsAt(s, Open, i);
      assert s'[i..i + |Open|] == s[i..i + |Open|];
    }
  }

  /** Replacing what follows the first match's closing fence keeps the search result. */
  lemma SearchKeepsFirstMatch(s: string, t: string)
    requires Search(s).Some?
    ensures Search(s[..Search(s).value.close + |Close|] + t) == Search(s)
  {
    var m := Search(s).value;
    var n := m.close + |Close|;
    var s' := s[..n] + t;
    assert s'[..n] == s[..n];
    MatchSurvivesSuffix(s, m, t);
    NoEarlierOpen(s, s', n, m.open);
    var m' := Search(s').value;
    assert m'.open == m.open by {
      assert StartsAt(s', Open, m.open);
    }
    MatchUnique(s', m, m');
  }

  /**
    Only the first fenced block is read: whatever follows the closing fence
    of the first match, the captured text is the same.
   */
  lemma FirstBlockOnly(s: string, t: string)
    requires Search(s).Some?
    ensures Body(s[..Search(s).value.close + |Close|] + t) == Body(s)
  {
    var m := Search(s).value;
    var n := m.close + |Close|;
    var s' := s[..n] + t;
    SearchKeepsFirstMatch(s, t);
    SliceBeforeCut(s, t, n, m.bodyStart, m.bodyEnd);
  }

  /** A slice that ends before the cut point is the same before and after the replacement. */
  lemma SliceBeforeCut(s: string, t: string, n: nat, lo: nat, hi: nat)
    requires lo <= hi <= n <= |s|
    ensures (s[..n] + t)[lo..hi] == s[lo..hi]
  {
  }
}
