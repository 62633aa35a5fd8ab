/** Plain string facts shared by the model: occurrence, search, whitespace, joining. */
module Text {
  import opened Wrappers

  /** `pat` occurs in `s` starting at index `k`. */
  predicate StartsAt(s: string, pat: string, k: nat) {
    k + |pat| <= |s| && s[k..k + |pat|] == pat
  }

  /** Python's `sub in s`. */
  predicate Contains(s: string, sub: string) {
    exists k :: 0 <= k <= |s| - |sub| && StartsAt(s, sub, k)
  }

  /** The least index at or after `from` where `pat` occurs, if any. */
  function FindFrom(s: string, pat: string, from: nat): (r: Option<nat>)
    requires from <= |s|
    ensures r.Some? ==> from <= r.value && StartsAt(s, pat, r.value)
    ensures r.Some? ==> forall k :: from <= k < r.value ==> !StartsAt(s, pat, k)
    ensures r.None? ==> forall k :: from <= k <= |s| ==> !StartsAt(s, pat, k)
    decreases |s| - from
  {
    if StartsAt(s, pat, from) then Some(from)
    else if from == |s| then None
    else FindFrom(s, pat, from + 1)
  }

  /** A window that disagrees with the pattern in one place is not an occurrence. */
  lemma MismatchAt(s: string, pat: string, k: nat, j: nat)
    requires j < |pat| && k + |pat| <= |s| && s[k + j] != pat[j]
    ensures !StartsAt(s, pat, k)
  {
    assert s[k..k + |pat|][j] == s[k + j];
  }

  /**
    A pattern character missing from `s[lo..hi]` rules out every occurrence
    that would put that character inside the range.
   */
  lemma AbsentCharRulesOut(s: string, pat: string, j: nat, lo: nat, hi: nat)
    requires j < |pat| && lo <= hi <= |s| && pat[j] !in s[lo..hi]
    ensures forall k: nat :: lo <= k + j < hi && k + |pat| <= |s| ==> !StartsAt(s, pat, k)
  {
    forall k: nat | lo <= k + j < hi && k + |pat| <= |s| ensures !StartsAt(s, pat, k) {
      assert s[k + j] == s[lo..hi][k + j - lo];
      MismatchAt(s, pat, k, j);
    }
  }

  /** The search from the start finds an occurrence exactly when the string contains the pattern. */
  lemma FindIffContains(s: string, pat: string)
    ensures FindFrom(s, pat, 0).Some? <==> Contains(s, pat)
  {
    var r := FindFrom(s, pat, 0);
    if r.Some? {
      assert 0 <= r.value <= |s| - |pat| && StartsAt(s, pat, r.value);
    }
  }

  /**
    The characters Python's `str.isspace()` accepts, which is what `\s`
    matches in a `str` pattern.
   */
  predicate IsSpace(c: char) {
    || '\t' <= c <= '\r'
    || '\U{1C}' <= c <= ' '
    || c == '\U{85}' || c == '\U{A0}' || c == '\U{1680}'
    || '\U{2000}' <= c <= '\U{200A}'
    || c == '\U{2028}' || c == '\U{2029}' || c == '\U{202F}' || c == '\U{205F}' || c == '\U{3000}'
  }

  /** Python's `sep.join(parts)`. */
  function Join(parts: seq<string>, sep: string): (r: string)
    ensures |parts| == 0 ==> r == ""
    ensures |parts| == 1 ==> r == parts[0]
  {
    if |parts| == 0 then ""
    else if |parts| == 1 then parts[0]
    else Join(parts[..|parts| - 1], sep) + sep + parts[|parts| - 1]
  }

  /** Joining two non-empty lists is joining each and putting one separator between them. */
  lemma {:induction false} JoinConcat(a: seq<string>, b: seq<string>, sep: string)
    requires |a| > 0 && |b| > 0
    ensures Join(a + b, sep) == Join(a, sep) + sep + Join(b, sep)
    decreases |b|
  {
    var ab := a + b;
    if |b| == 1 {
      assert ab[..|ab| - 1] == a;
    } else {
      var init := b[..|b| - 1];
      assert ab[..|ab| - 1] == a + init;
      JoinConcat(a, init, sep);
    }
  }
}
