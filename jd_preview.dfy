/**
 * The skill comparison on the job-description preview: the required skills are
 * split into those some candidate skill matches and the gap, and the match is
 * summarised as a rounded percentage.
 */
module JdPreview {
  import opened Basics
  import opened Text

  /**
   * A required skill and a candidate skill match when either contains the other,
   * compared after lower-casing both.
   */
  predicate SkillMatches(skill: string, cs: string)
  {
    Includes(ToLower(cs), ToLower(skill)) || Includes(ToLower(skill), ToLower(cs))
  }

  /** `candidateSkills.some(cs => ...)`. */
  function AnyMatch(skill: string, candidates: seq<string>): (b: bool)
    ensures b <==> exists i :: 0 <= i < |candidates| && SkillMatches(skill, candidates[i])
  {
    if candidates == [] then false
    else
      var rest := AnyMatch(skill, candidates[1..]);
      assert forall i :: 1 <= i < |candidates| ==> candidates[i] == candidates[1..][i - 1];
      SkillMatches(skill, candidates[0]) || rest
  }

  /** The required skills some candidate skill matches, in their original order. */
  function Matched(required: seq<string>, candidates: seq<string>): (r: seq<string>)
    ensures |r| <= |required|
    ensures forall i :: 0 <= i < |r| ==> r[i] in required && AnyMatch(r[i], candidates)
  {
    if required == [] then []
    else (if AnyMatch(required[0], candidates) then [required[0]] else []) + Matched(required[1..], candidates)
  }

  /** The required skills no candidate skill matches, in their original order. */
  function Unmatched(required: seq<string>, candidates: seq<string>): (r: seq<string>)
    ensures |r| <= |required|
    ensures forall i :: 0 <= i < |r| ==> r[i] in required && !AnyMatch(r[i], candidates)
  {
    if required == [] then []
    else (if AnyMatch(required[0], candidates) then [] else [required[0]]) + Unmatched(required[1..], candidates)
  }

  /** `matchedSkills`: empty when no candidate skills were given at all. */
  function MatchedSkills(required: seq<string>, candidateSkills: Option<seq<string>>): (r: seq<string>)
    ensures candidateSkills.None? ==> r == []
    ensures forall i :: 0 <= i < |r| ==> r[i] in required
  {
    if candidateSkills.None? then [] else Matched(required, candidateSkills.value)
  }

  /** `skillGap`: empty when no candidate skills were given at all. */
  function SkillGap(required: seq<string>, candidateSkills: Option<seq<string>>): (r: seq<string>)
    ensures candidateSkills.None? ==> r == []
    ensures forall i :: 0 <= i < |r| ==> r[i] in required
  {
    if candidateSkills.None? then [] else Unmatched(required, candidateSkills.value)
  }

  /** `skillMatchPercentage`: the rounded share of matched skills, 0 for an empty requirement list. */
  function SkillMatchPercentage(required: seq<string>, candidateSkills: Option<seq<string>>): (p: int)
    ensures 0 <= p <= 100
    ensures |required| == 0 || candidateSkills.None? ==> p == 0
    ensures |required| > 0 ==> p == Round(|MatchedSkills(required, candidateSkills)| as real / |required| as real * 100.0)
  {
    if |required| > 0 then
      var m := |MatchedSkills(required, candidateSkills)| as real;
      var n := |required| as real;
      assert 0.0 <= m / n <= 1.0 by {
        if candidateSkills.Some? {
          assert m <= n;
        }
      }
      Round(m / n * 100.0)
    else 0
  }

  /** Both filters distribute over concatenation, so each keeps the order of the required list. */
  lemma FiltersAppend(a: seq<string>, b: seq<string>, candidates: seq<string>)
    ensures Matched(a + b, candidates) == Matched(a, candidates) + Matched(b, candidates)
    ensures Unmatched(a + b, candidates) == Unmatched(a, candidates) + Unmatched(b, candidates)
  {
    MatchedAppend(a, b, candidates);
    UnmatchedAppend(a, b, candidates);
  }

  lemma {:induction false} MatchedAppend(a: seq<string>, b: seq<string>, candidates: seq<string>)
    ensures Matched(a + b, candidates) == Matched(a, candidates) + Matched(b, candidates)
  {
    if a == [] {
      assert a + b == b;
    } else {
      assert (a + b)[0] == a[0];
      assert (a + b)[1..] == a[1..] + b;
      MatchedAppend(a[1..], b, candidates);
    }
  }

  lemma {:induction false} UnmatchedAppend(a: seq<string>, b: seq<string>, candidates: seq<string>)
    ensures Unmatched(a + b, candidates) == Unmatched(a, candidates) + Unmatched(b, candidates)
  {
    if a == [] {
      assert a + b == b;
    } else {
      assert (a + b)[0] == a[0];
      assert (a + b)[1..] == a[1..] + b;
      UnmatchedAppend(a[1..], b, candidates);
    }
  }

  /** Every required skill lands in exactly one of the two lists, as often as it is required. */
  lemma {:induction false} FiltersPartition(required: seq<string>, candidates: seq<string>)
    ensures multiset(Matched(required, candidates)) + multiset(Unmatched(required, candidates)) == multiset(required)
    ensures |Matched(required, candidates)| + |Unmatched(required, candidates)| == |required|
  {
    if required != [] {
      FiltersPartition(required[1..], candidates);
      assert required == [required[0]] + required[1..];
    }
  }

  /**
   * With candidate skills given, `matchedSkills` and `skillGap` partition the
   * required skills: a skill is in the first iff it matches, in the second iff
   * it does not, and the two together are the whole list.
   */
  lemma SkillsPartition(required: seq<string>, candidates: seq<string>)
    ensures var m := MatchedSkills(required, Some(candidates));
            var g := SkillGap(required, Some(candidates));
            && multiset(m) + multiset(g) == multiset(required)
            && (forall s :: s in m <==> s in required && AnyMatch(s, candidates))
            && (forall s :: s in g <==> s in required && !AnyMatch(s, candidates))
            && (forall s :: !(s in m && s in g))
  {
    var m := Matched(required, candidates);
    var g := Unmatched(required, candidates);
    FiltersPartition(required, candidates);
    forall s | s in required
      ensures s in m || s in g
    {
      assert s in multiset(required);
    }
  }

  /** An empty candidate skill is contained in every skill, so everything matches. */
  lemma EmptyCandidateMatchesAll(required: seq<string>, candidates: seq<string>)
    requires "" in candidates
    ensures Matched(required, candidates) == required
    ensures Unmatched(required, candidates) == []
  {
    var k :| 0 <= k < |candidates| && candidates[k] == "";
    assert ToLower(candidates[k]) == "";
    forall s | s in required
      ensures AnyMatch(s, candidates)
    {
      IncludesEmptyAndSelf(ToLower(s));
      assert SkillMatches(s, candidates[k]);
    }
    AllMatch(required, candidates);
  }

  /** Changing the case of a skill never changes whether it matches. */
  lemma MatchIgnoresCase(skill: string, cs: string)
    ensures SkillMatches(ToLower(skill), cs) == SkillMatches(skill, cs)
    ensures SkillMatches(skill, ToLower(cs)) == SkillMatches(skill, cs)
  {
    ToLowerIdempotent(skill);
    ToLowerIdempotent(cs);
  }

  /** When every required skill matches, the matched list is the whole list and the gap is empty. */
  lemma {:induction false} AllMatch(required: seq<string>, candidates: seq<string>)
    requires forall s :: s in required ==> AnyMatch(s, candidates)
    ensures Matched(required, candidates) == required
    ensures Unmatched(required, candidates) == []
  {
    if required != [] {
      AllMatch(required[1..], candidates);
    }
  }

  /** When no required skill matches, the matched list is empty and the gap is the whole list. */
  lemma {:induction false} NoneMatch(required: seq<string>, candidates: seq<string>)
    requires forall s :: s in required ==> !AnyMatch(s, candidates)
    ensures Matched(required, candidates) == []
    ensures Unmatched(required, candidates) == required
  {
    if required != [] {
      NoneMatch(required[1..], candidates);
    }
  }

  lemma WholeIsHundred(n: real)
    requires n > 0.0
    ensures Round(n / n * 100.0) == 100
  {
    assert n / n == 1.0;
    assert Round(100.0) == 100;
  }

  /** The percentage is 100 when every required skill matches. */
  lemma AllMatchedIsFull(required: seq<string>, candidates: seq<string>)
    requires |required| > 0
    requires forall s :: s in required ==> AnyMatch(s, candidates)
    ensures SkillMatchPercentage(required, Some(candidates)) == 100
  {
    AllMatch(required, candidates);
    var n := |required| as real;
    assert MatchedSkills(required, Some(candidates)) == required;
    assert SkillMatchPercentage(required, Some(candidates)) == Round(n / n * 100.0);
    WholeIsHundred(n);
  }

  /** The percentage is 0 when no required skill matches. */
  lemma NoneMatchedIsZero(required: seq<string>, candidates: seq<string>)
    requires forall s :: s in required ==> !AnyMatch(s, candidates)
    ensures SkillMatchPercentage(required, Some(candidates)) == 0
  {
    NoneMatch(required, candidates);
  }
}
