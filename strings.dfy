/** The few JavaScript string operations the core relies on, over `seq<char>`. */
module Strings {

  /** `s.startsWith(prefix)`. */
  predicate StartsWith(s: string, prefix: string)
  {
    |prefix| <= |s| && s[..|prefix|] == prefix
  }

  /** `pat` occurs in `s` starting at index `i`. */
  predicate OccursAt(s: string, pat: string, i: nat)
  {
    i + |pat| <= |s| && s[i..i + |pat|] == pat
  }

  /** `s.includes(pat)`: `s` starts with `pat`, or its tail contains it. */
  predicate Contains(s: string, pat: string)
    decreases |s|
  {
    StartsWith(s, pat) || (|s| > 0 && Contains(s[1..], pat))
  }

  /** `includes` holds exactly when the pattern occurs at some index. */
  lemma {:induction false} ContainsOccurs(s: string, pat: string)
    ensures Contains(s, pat) <==> exists i: nat :: OccursAt(s, pat, i)
    decreases |s|
  {
    assert StartsWith(s, pat) <==> OccursAt(s, pat, 0);
    if |s| > 0 {
      ContainsOccurs(s[1..], pat);
      if Contains(s[1..], pat) {
        var i: nat :| OccursAt(s[1..], pat, i);
        assert s[1..][i..i + |pat|] == s[i + 1..i + 1 + |pat|];
        assert OccursAt(s, pat, i + 1);
      }
      if i: nat :| OccursAt(s, pat, i) && i > 0 {
        assert s[1..][i - 1..i - 1 + |pat|] == s[i..i + |pat|];
        assert OccursAt(s[1..], pat, i - 1);
      }
    } else if i: nat :| OccursAt(s, pat, i) {
      assert i == 0;
    }
  }

  /** `s.replace(pat, rep)` with a string pattern: only the first occurrence is replaced. */
  function ReplaceFirst(s: string, pat: string, rep: string): string
    decreases |s|
  {
    if StartsWith(s, pat) then rep + s[|pat|..]
    else if |s| == 0 then s
    else [s[0]] + ReplaceFirst(s[1..], pat, rep)
  }

  /** A string that lacks the first character of a pattern does not contain the pattern. */
  lemma {:induction false} AbsentHeadChar(s: string, pat: string)
    requires |pat| > 0 && forall k :: 0 <= k < |s| ==> s[k] != pat[0]
    ensures !Contains(s, pat)
    decreases |s|
  {
    if |s| > 0 {
      if |pat| <= |s| {
        assert s[..|pat|][0] == s[0];
      }
      AbsentHeadChar(s[1..], pat);
    }
  }

  /** A pattern longer than the string is not contained in it. */
  lemma {:induction false} LongerAbsent(s: string, pat: string)
    requires |s| < |pat|
    ensures !Contains(s, pat)
    decreases |s|
  {
    if |s| > 0 {
      LongerAbsent(s[1..], pat);
    }
  }

  /** Without an occurrence of the pattern, `replace` returns its input unchanged. */
  lemma {:induction false} ReplaceFirstAbsent(s: string, pat: string, rep: string)
    requires forall i: nat :: !OccursAt(s, pat, i)
    ensures ReplaceFirst(s, pat, rep) == s
    decreases |s|
  {
    assert !OccursAt(s, pat, 0);
    if |s| > 0 {
      forall i: nat
        ensures !OccursAt(s[1..], pat, i)
      {
        assert !OccursAt(s, pat, i + 1);
        if i + |pat| <= |s[1..]| {
          assert s[1..][i..i + |pat|] == s[i + 1..i + 1 + |pat|];
        }
      }
      ReplaceFirstAbsent(s[1..], pat, rep);
    }
  }

  /** `replace` rewrites exactly the first occurrence and leaves the rest of the string alone. */
  lemma {:induction false} ReplaceFirstAt(s: string, pat: string, rep: string, i: nat)
    requires OccursAt(s, pat, i)
    requires forall j: nat :: j < i ==> !OccursAt(s, pat, j)
    ensures ReplaceFirst(s, pat, rep) == s[..i] + rep + s[i + |pat|..]
    decreases i
  {
    if i == 0 {
      assert StartsWith(s, pat);
    } else {
      var t := s[1..];
      var before, after := t[..i - 1], t[i - 1 + |pat|..];
      assert ReplaceFirst(t, pat, rep) == before + rep + after by {
        FirstOccurrenceInTail(s, pat, i);
        ReplaceFirstAt(t, pat, rep, i - 1);
      }
      assert ReplaceFirst(s, pat, rep) == [s[0]] + ReplaceFirst(t, pat, rep) by {
        FirstOccurrenceInTail(s, pat, i);
      }
      assert s[..i] == [s[0]] + before;
      assert s[i + |pat|..] == after;
    }
  }

  /** A first occurrence past the head is, one character later, the first occurrence in the tail. */
  lemma FirstOccurrenceInTail(s: string, pat: string, i: nat)
    requires i > 0 && OccursAt(s, pat, i)
    requires forall j: nat :: j < i ==> !OccursAt(s, pat, j)
    ensures !StartsWith(s, pat) && |s| > 0
    ensures OccursAt(s[1..], pat, i - 1)
    ensures forall j: nat :: j < i - 1 ==> !OccursAt(s[1..], pat, j)
  {
    assert !OccursAt(s, pat, 0);
    assert s[1..][i - 1..i - 1 + |pat|] == s[i..i + |pat|];
    forall j: nat | j < i - 1
      ensures !OccursAt(s[1..], pat, j)
    {
      assert !OccursAt(s, pat, j + 1);
      if j + |pat| <= |s[1..]| {
        assert s[1..][j..j + |pat|] == s[j + 1..j + 1 + |pat|];
      }
    }
  }

  /** Whatever text `s` starts with, a first occurrence exists or none does. */
  lemma {:induction false} FirstOccurrence(s: string, pat: string, i: nat)
    requires OccursAt(s, pat, i)
    ensures exists f: nat :: f <= i && OccursAt(s, pat, f) && forall j: nat :: j < f ==> !OccursAt(s, pat, j)
    decreases i
  {
    if forall j: nat :: j < i ==> !OccursAt(s, pat, j) {
    } else {
      var j: nat :| j < i && OccursAt(s, pat, j);
      FirstOccurrence(s, pat, j);
    }
  }

  /** ASCII part of `toLowerCase()`. */
  function LowerChar(c: char): char
  {
    if 'A' <= c <= 'Z' then (c as int + 32) as char else c
  }

  function ToLower(s: string): (r: string)
    ensures |r| == |s|
    ensures forall i :: 0 <= i < |s| ==> r[i] == LowerChar(s[i])
  {
    if |s| == 0 then [] else [LowerChar(s[0])] + ToLower(s[1..])
  }
}
