/**
 * The two Python string operations the scraper relies on: `str.strip()` with no
 * argument, and `str.replace(old, "")`.
 */
module PyStr {

  /** The characters Python's `str.isspace()` accepts, which `str.strip()` removes. */
  predicate IsSpace(c: char)
  {
    ('\t' <= c <= '\r') || ('\U{1C}' <= c <= '\U{1F}') || c == ' ' ||
    c == '\U{85}' || c == '\U{A0}' || c == '\U{1680}' ||
    ('\U{2000}' <= c <= '\U{200A}') || c == '\U{2028}' || c == '\U{2029}' ||
    c == '\U{202F}' || c == '\U{205F}' || c == '\U{3000}'
  }

  /** Neither end of `s` is whitespace. */
  predicate IsStripped(s: string)
  {
    s == [] || (!IsSpace(s[0]) && !IsSpace(s[|s| - 1]))
  }

  /** The first index at or after `i` that does not hold whitespace (or `|s|`). */
  function SkipSpace(s: string, i: nat): (j: nat)
    requires i <= |s|
    ensures i <= j <= |s|
    ensures forall k :: i <= k < j ==> IsSpace(s[k])
    ensures j < |s| ==> !IsSpace(s[j])
    decreases |s| - i
  {
    if i < |s| && IsSpace(s[i]) then SkipSpace(s, i + 1) else i
  }

  /** The end of `s[lo..j]` once the whitespace at its right end is dropped. */
  function SkipSpaceBack(s: string, lo: nat, j: nat): (e: nat)
    requires lo <= j <= |s|
    ensures lo <= e <= j
    ensures forall k :: e <= k < j ==> IsSpace(s[k])
    ensures lo < e ==> !IsSpace(s[e - 1])
    decreases j
  {
    if lo < j && IsSpace(s[j - 1]) then SkipSpaceBack(s, lo, j - 1) else j
  }

  /** Where `Strip(s)` begins inside `s`: the number of leading whitespace characters. */
  function StripStart(s: string): (i: nat)
    ensures i <= |s|
  {
    SkipSpace(s, 0)
  }

  /**
   * `s.strip()`: `s` with its leading and trailing whitespace removed. The result is
   * the slice of `s` that starts at `StripStart(s)`; everything outside the slice is
   * whitespace, and the slice itself neither starts nor ends with whitespace (which
   * pins the slice down).
   */
  function Strip(s: string): (r: string)
    ensures IsStripped(r)
    ensures StripStart(s) + |r| <= |s| && r == s[StripStart(s)..StripStart(s) + |r|]
    ensures forall k :: 0 <= k < StripStart(s) ==> IsSpace(s[k])
    ensures forall k :: StripStart(s) + |r| <= k < |s| ==> IsSpace(s[k])
  {
    var i := StripStart(s);
    s[i..SkipSpaceBack(s, i, |s|)]
  }

  /**
   * The contract of `Strip` determines its result: any slice of `s` that neither starts
   * nor ends with whitespace and has only whitespace outside it is `Strip(s)`.
   */
  lemma {:induction false} StripUnique(s: string, i: nat, j: nat)
    requires i <= j <= |s| && IsStripped(s[i..j])
    requires forall k :: 0 <= k < i ==> IsSpace(s[k])
    requires forall k :: j <= k < |s| ==> IsSpace(s[k])
    ensures Strip(s) == s[i..j]
  {
    var a := StripStart(s);
    var r := Strip(s);
    if i < j {
      assert s[i..j][0] == s[i] && s[i..j][j - i - 1] == s[j - 1];
      assert a == i;
      var e := SkipSpaceBack(s, i, |s|);
      assert e == j;
    } else {
      assert a == |s|;
    }
  }

  /** Stripping changes a string exactly when one of its ends is whitespace. */
  lemma {:induction false} StripFixpoint(s: string)
    ensures Strip(s) == s <==> IsStripped(s)
  {
    if IsStripped(s) && s != [] {
      assert StripStart(s) == 0;
      assert SkipSpaceBack(s, 0, |s|) == |s|;
      assert s[0..|s|] == s;
    }
  }

  /** Stripping twice is stripping once. */
  lemma {:induction false} StripIdempotent(s: string)
    ensures Strip(Strip(s)) == Strip(s)
  {
    StripFixpoint(Strip(s));
  }

  /** Concatenating stripped pieces gives a stripped string. */
  lemma {:induction false} ConcatStripped(a: string, b: string)
    requires IsStripped(a) && IsStripped(b)
    ensures IsStripped(a + b)
  {
    if a != [] && b != [] {
      assert (a + b)[0] == a[0];
      assert (a + b)[|a + b| - 1] == b[|b| - 1];
    }
  }

  /** `pat` occurs somewhere in `s` (Python's `pat in s`). */
  predicate Occurs(pat: string, s: string)
    decreases |s|
  {
    |pat| <= |s| && (s[..|pat|] == pat || Occurs(pat, s[1..]))
  }

  /**
   * `s.replace(pat, "")`: one left-to-right pass deleting each non-overlapping
   * occurrence of `pat`. Python leaves `s` unchanged when `pat` is empty.
   */
  function RemoveAll(s: string, pat: string): (r: string)
    ensures |r| <= |s|
    decreases |s|
  {
    if pat == [] || |s| < |pat| then s
    else if s[..|pat|] == pat then RemoveAll(s[|pat|..], pat)
    else [s[0]] + RemoveAll(s[1..], pat)
  }

  /**
   * Deleting occurrences leaves `s` as it is exactly when `pat` does not occur in it
   * (or `pat` is empty).
   */
  lemma {:induction false} RemoveAllUnchanged(s: string, pat: string)
    ensures RemoveAll(s, pat) == s <==> pat == [] || !Occurs(pat, s)
    decreases |s|
  {
    if pat == [] || |s| < |pat| {
    } else if s[..|pat|] == pat {
      assert Occurs(pat, s);
    } else {
      RemoveAllUnchanged(s[1..], pat);
      assert Occurs(pat, s) == Occurs(pat, s[1..]);
      assert s == [s[0]] + s[1..];
    }
  }

  /**
   * The deletion is a single pass: removing an occurrence can bring two halves of
   * another together, so the result may still contain `pat`.
   */
  lemma SinglePass()
    ensures Occurs("ab", RemoveAll("aabb", "ab"))
  {
    assert "aabb"[..2][1] == 'a' != "ab"[1];
    assert "aabb"[1..] == "abb";
    assert "abb"[..2] == "ab";
    assert "abb"[2..] == "b";
    assert RemoveAll("b", "ab") == "b";
    assert RemoveAll("aabb", "ab") == "ab";
    assert "ab"[..2] == "ab";
  }
}
