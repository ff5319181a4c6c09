/**
 * The string operations the pages use: `toLowerCase` (ASCII only),
 * `includes` and `replace` with a string pattern.
 */
module Text {

  predicate IsUpper(c: char) {
    'A' <= c <= 'Z'
  }

  /** ASCII lower-casing of one character; every other character is kept. */
  function LowerChar(c: char): char {
    if IsUpper(c) then (c as int + 32) as char else c
  }

  /** No upper-case ASCII letter occurs in `s`. */
  predicate IsLowerCase(s: string) {
    forall i :: 0 <= i < |s| ==> !IsUpper(s[i])
  }

  /** `s.toLowerCase()`, restricted to ASCII letters. */
  function ToLower(s: string): (r: string)
    ensures |r| == |s|
    ensures IsLowerCase(r)
    ensures forall i :: 0 <= i < |s| && IsUpper(s[i]) ==> r[i] as int == s[i] as int + ('a' as int - 'A' as int)
    ensures forall i :: 0 <= i < |s| && !IsUpper(s[i]) ==> r[i] == s[i]
  {
    seq(|s|, i requires 0 <= i < |s| => LowerChar(s[i]))
  }

  /** `a` and `b` are the same character, or the upper- and lower-case forms of one ASCII letter. */
  predicate SameIgnoringCase(a: char, b: char) {
    a == b ||
    (IsUpper(a) && b as int == a as int + ('a' as int - 'A' as int)) ||
    (IsUpper(b) && a as int == b as int + ('a' as int - 'A' as int))
  }

  /** `s` and `t` spell the same text up to the case of ASCII letters. */
  predicate EqualIgnoringCase(s: string, t: string) {
    |s| == |t| && forall i :: 0 <= i < |s| ==> SameIgnoringCase(s[i], t[i])
  }

  lemma LowerCharEqual(a: char, b: char)
    ensures LowerChar(a) == LowerChar(b) <==> SameIgnoringCase(a, b)
  {
  }

  /** Two strings lower-case to the same string exactly when they agree up to letter case. */
  lemma ToLowerEqualIff(s: string, t: string)
    ensures ToLower(s) == ToLower(t) <==> EqualIgnoringCase(s, t)
  {
    if ToLower(s) == ToLower(t) {
      forall i | 0 <= i < |s| ensures SameIgnoringCase(s[i], t[i]) {
        assert ToLower(s)[i] == ToLower(t)[i];
        LowerCharEqual(s[i], t[i]);
      }
    }
    if EqualIgnoringCase(s, t) {
      forall i | 0 <= i < |s| ensures ToLower(s)[i] == ToLower(t)[i] {
        LowerCharEqual(s[i], t[i]);
      }
    }
  }

  /** `t` occurs in `s` starting at index `i`. */
  predicate OccursAt(s: string, t: string, i: int) {
    0 <= i && i + |t| <= |s| && s[i..i + |t|] == t
  }

  /** `s.includes(t)`. */
  predicate Contains(s: string, t: string)
    ensures Contains(s, t) ==> |t| <= |s|
  {
    exists i | 0 <= i <= |s| - |t| :: OccursAt(s, t, i)
  }

  /** `s.toLowerCase().includes(term.toLowerCase())`, the search test of every list page. */
  predicate IncludesIgnoringCase(s: string, term: string) {
    Contains(ToLower(s), ToLower(term))
  }

  /** An included string splits its host into a part before it and a part after it. */
  lemma ContainsSplit(s: string, t: string) returns (before: string, after: string)
    requires Contains(s, t)
    ensures s == before + t + after
  {
    var i :| 0 <= i <= |s| - |t| && OccursAt(s, t, i);
    before, after := s[..i], s[i + |t|..];
    assert s == s[..i] + s[i..i + |t|] + s[i + |t|..];
  }

  /** Conversely, `t` is included in every string that has it between two parts. */
  lemma ContainsOfSplit(before: string, t: string, after: string)
    ensures Contains(before + t + after, t)
  {
    var s := before + t + after;
    assert s[|before|..|before| + |t|] == t;
    assert OccursAt(s, t, |before|);
  }

  /** The empty string is included in every string, so an empty search term matches everything. */
  lemma EmptyIsIncluded(s: string)
    ensures Contains(s, "")
  {
    assert OccursAt(s, "", 0);
  }

  /** Lower-casing is idempotent. */
  lemma ToLowerIdempotent(s: string)
    ensures ToLower(ToLower(s)) == ToLower(s)
  {
  }

  /** Lower-casing leaves an already lower-case string as it is, and only such strings. */
  lemma ToLowerFixesExactlyLowerCase(s: string)
    ensures ToLower(s) == s <==> IsLowerCase(s)
  {
    if ToLower(s) == s {
      assert IsLowerCase(ToLower(s));
    }
  }

  /**
   * `s.replace(pat, rep)` with a string pattern: the first occurrence of `pat`
   * (scanning from the left) is replaced, later ones are kept; without an
   * occurrence the string is returned unchanged.
   */
  function ReplaceFirst(s: string, pat: string, rep: string): (r: string)
    ensures OccursAt(s, pat, 0) ==> r == rep + s[|pat|..]
    decreases |s|
  {
    if |s| < |pat| then
      s
    else if s[..|pat|] == pat then
      rep + s[|pat|..]
    else
      [s[0]] + ReplaceFirst(s[1..], pat, rep)
  }

  /** Without an occurrence of `pat`, `ReplaceFirst` changes nothing. */
  lemma {:induction false} ReplaceFirstAbsent(s: string, pat: string, rep: string)
    requires !Contains(s, pat)
    ensures ReplaceFirst(s, pat, rep) == s
    decreases |s|
  {
    if |s| >= |pat| {
      assert !OccursAt(s, pat, 0);
      ShiftOccurrence(s, pat);
      assert !Contains(s[1..], pat) by {
        forall i | 0 <= i <= |s[1..]| - |pat| ensures !OccursAt(s[1..], pat, i) {
          assert !OccursAt(s, pat, i + 1);
        }
      }
      ReplaceFirstAbsent(s[1..], pat, rep);
      assert s == [s[0]] + s[1..];
    }
  }

  /** `i` is the leftmost index at which `pat` occurs in `s`. */
  predicate IsFirstOccurrence(s: string, pat: string, i: int) {
    OccursAt(s, pat, i) && forall j :: 0 <= j < i ==> !OccursAt(s, pat, j)
  }

  /** With an occurrence, exactly the leftmost one, at the returned index `i`, is replaced. */
  lemma {:induction false} ReplaceFirstLeftmost(s: string, pat: string, rep: string) returns (i: nat)
    requires Contains(s, pat)
    ensures IsFirstOccurrence(s, pat, i)
    ensures ReplaceFirst(s, pat, rep) == s[..i] + rep + s[i + |pat|..]
    decreases |s|
  {
    if OccursAt(s, pat, 0) {
      i := 0;
      ReplaceFirstAtHead(s, pat, rep);
    } else {
      ContainsInTail(s, pat);
      var i' := ReplaceFirstLeftmost(s[1..], pat, rep);
      i := i' + 1;
      FirstOccurrenceShifts(s, pat, i');
      ReplaceFirstStep(s, pat, rep, i');
    }
  }

  lemma ReplaceFirstAtHead(s: string, pat: string, rep: string)
    requires OccursAt(s, pat, 0)
    ensures IsFirstOccurrence(s, pat, 0)
    ensures ReplaceFirst(s, pat, rep) == s[..0] + rep + s[|pat|..]
  {
    assert s[..0] == [];
  }

  lemma ContainsInTail(s: string, pat: string)
    requires Contains(s, pat) && !OccursAt(s, pat, 0)
    ensures |pat| < |s| && s[..|pat|] != pat
    ensures Contains(s[1..], pat)
  {
    var k :| 0 <= k <= |s| - |pat| && OccursAt(s, pat, k);
    ShiftOccurrence(s, pat);
    assert OccursAt(s[1..], pat, k - 1);
  }

  lemma ReplaceFirstStep(s: string, pat: string, rep: string, i: nat)
    requires |pat| <= |s| && s[..|pat|] != pat && i + |pat| <= |s| - 1
    requires ReplaceFirst(s[1..], pat, rep) == s[1..][..i] + rep + s[1..][i + |pat|..]
    ensures ReplaceFirst(s, pat, rep) == s[..i + 1] + rep + s[i + 1 + |pat|..]
  {
    ReplaceFirstUnfold(s, pat, rep);
    SpliceAfterHead(s, |pat|, rep, i);
  }

  lemma ReplaceFirstUnfold(s: string, pat: string, rep: string)
    requires |pat| <= |s| && s[..|pat|] != pat
    ensures ReplaceFirst(s, pat, rep) == [s[0]] + ReplaceFirst(s[1..], pat, rep)
  {
  }

  lemma SpliceAfterHead(s: string, k: nat, rep: string, i: nat)
    requires i + k <= |s| - 1
    ensures [s[0]] + (s[1..][..i] + rep + s[1..][i + k..]) == s[..i + 1] + rep + s[i + 1 + k..]
  {
    var a, b := s[1..][..i], s[1..][i + k..];
    assert s[..i + 1] == [s[0]] + a;
    assert s[i + 1 + k..] == b;
  }

  lemma FirstOccurrenceShifts(s: string, pat: string, i: int)
    requires |s| >= 1 && !OccursAt(s, pat, 0) && IsFirstOccurrence(s[1..], pat, i)
    ensures IsFirstOccurrence(s, pat, i + 1)
  {
    ShiftOccurrence(s, pat);
    forall j | 1 <= j < i + 1 ensures !OccursAt(s, pat, j) {
      assert !OccursAt(s[1..], pat, j - 1);
    }
  }

  /** Occurrences in `s[1..]` are the occurrences in `s` after index 0, shifted by one. */
  lemma ShiftOccurrence(s: string, pat: string)
    requires |s| >= 1
    ensures forall i :: 0 <= i ==> (OccursAt(s[1..], pat, i) <==> OccursAt(s, pat, i + 1))
  {
    forall i | 0 <= i
      ensures OccursAt(s[1..], pat, i) <==> OccursAt(s, pat, i + 1)
    {
      if i + |pat| <= |s| - 1 {
        assert s[1..][i..i + |pat|] == s[i + 1..i + 1 + |pat|];
      }
    }
  }
}
