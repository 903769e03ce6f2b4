/** The Python string operations the adapter uses: `str.rstrip`, `str.lstrip`,
    `str.strip`, the `in` substring test and `str.rfind`. Strings are
    sequences of code points; there is no normalisation. */
module PyText {
  import opened Wrappers

  /** Python's `str.isspace` on one character: the characters that `strip`
      removes when called without arguments. */
  predicate IsSpace(c: char)
  {
    || c == ' '
    || ('\t' <= c <= '\r')
    || ('\U{1C}' <= c <= '\U{1F}')
    || c == '\U{85}'
    || c == '\U{A0}'
    || c == '\U{1680}'
    || ('\U{2000}' <= c <= '\U{200A}')
    || c == '\U{2028}'
    || c == '\U{2029}'
    || c == '\U{202F}'
    || c == '\U{205F}'
    || c == '\U{3000}'
  }

  /** Every character of `s` from index `lo` up to `hi` is whitespace. */
  predicate SpaceBetween(s: string, lo: int, hi: int)
  {
    forall i :: lo <= i < hi && 0 <= i < |s| ==> IsSpace(s[i])
  }

  predicate AllSpace(s: string)
  {
    SpaceBetween(s, 0, |s|)
  }

  predicate NoTrailingSpace(s: string)
  {
    |s| == 0 || !IsSpace(s[|s| - 1])
  }

  predicate NoLeadingSpace(s: string)
  {
    |s| == 0 || !IsSpace(s[0])
  }

  /** A character that is not whitespace lies past any all-whitespace prefix. */
  lemma SpaceEndsBefore(s: string, m: int, i: int)
    requires SpaceBetween(s, 0, m) && 0 <= i < |s| && !IsSpace(s[i])
    ensures m <= i
  {
  }

  /** `s.rstrip()`: drops whitespace from the end, one character at a time. */
  function RStrip(s: string): string
    decreases |s|
  {
    if |s| > 0 && IsSpace(s[|s| - 1]) then RStrip(s[..|s| - 1]) else s
  }

  /** What `rstrip` keeps is the longest prefix of `s` that does not end in
      whitespace: what it drops is whitespace only. */
  lemma {:induction false} RStripSpec(s: string)
    ensures var r := RStrip(s);
      && |r| <= |s| && r == s[..|r|]
      && SpaceBetween(s, |r|, |s|)
      && NoTrailingSpace(r)
    decreases |s|
  {
    if |s| > 0 && IsSpace(s[|s| - 1]) {
      var p := s[..|s| - 1];
      RStripSpec(p);
      var r := RStrip(p);
      assert forall j :: 0 <= j < |r| ==> r[j] == p[j] == s[j];
      forall i | |r| <= i < |s| - 1
        ensures IsSpace(s[i])
      {
        assert s[i] == p[i];
      }
    }
  }

  /** `s.lstrip()`: drops whitespace from the start, one character at a time. */
  function LStrip(s: string): string
    decreases |s|
  {
    if |s| > 0 && IsSpace(s[0]) then LStrip(s[1..]) else s
  }

  /** What `lstrip` keeps is the longest suffix of `s` that does not start
      with whitespace: what it drops is whitespace only. */
  lemma {:induction false} LStripSpec(s: string)
    ensures var r := LStrip(s);
      && |r| <= |s| && r == s[|s| - |r|..]
      && SpaceBetween(s, 0, |s| - |r|)
      && NoLeadingSpace(r)
    decreases |s|
  {
    if |s| > 0 && IsSpace(s[0]) {
      var p := s[1..];
      LStripSpec(p);
      var r := LStrip(p);
      assert forall j :: 0 <= j < |r| ==> r[j] == p[|p| - |r| + j] == s[|s| - |r| + j];
      forall i | 1 <= i < |s| - |r|
        ensures IsSpace(s[i])
      {
        assert s[i] == p[i - 1];
      }
    }
  }

  /** `s.strip()`: `rstrip`, then `lstrip`. */
  function Strip(s: string): string
  {
    LStrip(RStrip(s))
  }

  /** What `strip` keeps is the slice of `s` between its leading and its
      trailing whitespace, and it neither starts nor ends with whitespace. */
  lemma {:induction false} StripSpec(s: string)
    ensures var r := Strip(s); var e := |RStrip(s)|;
      && NoLeadingSpace(r) && NoTrailingSpace(r)
      && |r| <= e <= |s| && r == s[e - |r|..e]
      && SpaceBetween(s, 0, e - |r|) && SpaceBetween(s, e, |s|)
  {
    var t := RStrip(s);
    RStripSpec(s);
    LStripSpec(t);
    var r := LStrip(t);
    var e := |t|;
    assert |r| > 0 ==> r[|r| - 1] == t[e - 1];
    assert forall j :: 0 <= j < |r| ==> r[j] == t[e - |r| + j] == s[e - |r| + j];
    forall i | 0 <= i < e - |r|
      ensures IsSpace(s[i])
    {
      assert s[i] == t[i];
    }
  }

  lemma RStripNoop(s: string)
    requires NoTrailingSpace(s)
    ensures RStrip(s) == s
  {
  }

  lemma LStripNoop(s: string)
    requires NoLeadingSpace(s)
    ensures LStrip(s) == s
  {
  }

  /** `lstrip` keeps the last `k` characters when the character `k` places
      from the end is not whitespace. */
  lemma {:induction false} LStripKeepsEnd(t: string, k: int)
    requires 0 < k <= |t| && !IsSpace(t[|t| - k])
    ensures k <= |LStrip(t)|
    ensures LStrip(t)[|LStrip(t)| - k..] == t[|t| - k..]
  {
    LStripSpec(t);
    var r := LStrip(t);
    var n := |t|;
    SpaceEndsBefore(t, n - |r|, n - k);
    var u, v := r[|r| - k..], t[n - k..];
    assert forall j :: 0 <= j < k ==> u[j] == v[j];
  }

  /** Stripping keeps a suffix that neither starts nor ends with whitespace. */
  lemma {:induction false} EndsWithKeptByStrip(t: string, pat: string)
    requires EndsWith(t, pat) && 0 < |pat|
    requires !IsSpace(pat[0]) && !IsSpace(pat[|pat| - 1])
    ensures EndsWith(Strip(t), pat)
  {
    var n := |t|;
    var tail := t[n - |pat|..];
    assert tail == pat;
    assert t[n - |pat|] == tail[0] == pat[0];
    assert t[n - 1] == tail[|pat| - 1] == pat[|pat| - 1];
    RStripNoop(t);
    LStripKeepsEnd(t, |pat|);
  }

  /** Stripping cannot create an occurrence. */
  lemma NoOccurrenceInStrip(t: string, pat: string)
    requires !Contains(t, pat)
    ensures !Contains(Strip(t), pat)
  {
    StripSpec(t);
    var e := |RStrip(t)|;
    var u := Strip(t);
    forall j | 0 <= j <= |u| && OccursAt(u, pat, j)
      ensures false
    {
      OccursInSlice(t, e - |u|, e, pat, j);
    }
  }

  /** Stripping twice changes nothing. */
  lemma StripIdempotent(s: string)
    ensures Strip(Strip(s)) == Strip(s)
  {
    StripSpec(s);
    var t := Strip(s);
    RStripNoop(t);
    LStripNoop(t);
  }

  predicate OccursAt(s: string, pat: string, i: int)
  {
    0 <= i && i + |pat| <= |s| && s[i..i + |pat|] == pat
  }

  /** Python's `pat in s`. */
  predicate Contains(s: string, pat: string)
  {
    exists i :: 0 <= i <= |s| && OccursAt(s, pat, i)
  }

  predicate EndsWith(s: string, suffix: string)
  {
    |suffix| <= |s| && s[|s| - |suffix|..] == suffix
  }

  /** Scans start positions `hi, hi - 1, ..., 0` for the first occurrence. */
  function RFindAtMost(s: string, pat: string, hi: nat): (r: Option<nat>)
    ensures r.Some? ==> r.value <= hi && OccursAt(s, pat, r.value)
    ensures r.Some? ==> forall j :: r.value < j <= hi ==> !OccursAt(s, pat, j)
    ensures r.None? ==> forall j :: 0 <= j <= hi ==> !OccursAt(s, pat, j)
    decreases hi
  {
    if OccursAt(s, pat, hi) then Some(hi)
    else if hi == 0 then None
    else RFindAtMost(s, pat, hi - 1)
  }

  /** `s.rfind(pat)`, with `None` for Python's `-1`: the start of the last
      occurrence of `pat` in `s`. */
  function RFind(s: string, pat: string): (r: Option<nat>)
    ensures r.Some? ==> OccursAt(s, pat, r.value)
    ensures r.Some? ==> forall j :: r.value < j ==> !OccursAt(s, pat, j)
    ensures r.None? <==> !Contains(s, pat)
  {
    RFindAtMost(s, pat, |s|)
  }

  /** An occurrence inside a slice is an occurrence in the whole string. */
  lemma OccursInSlice(s: string, lo: nat, hi: nat, pat: string, j: int)
    requires lo <= hi <= |s|
    requires OccursAt(s[lo..hi], pat, j)
    ensures OccursAt(s, pat, lo + j)
  {
    var t := s[lo..hi];
    var u := t[j..j + |pat|];
    assert forall k :: 0 <= k < |pat| ==> u[k] == s[lo + j + k];
    assert s[lo + j..lo + j + |pat|] == u;
  }
}
