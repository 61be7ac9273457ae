/** Matching a text against a pattern with the wildcards `*` and `?`, by a declarative meaning and by
    a loop that never goes back further than the last star. */
module Glob {

  /** The pattern from position `i` on stands for the text from position `j` on. */
  ghost predicate Matches(pattern: string, text: string, i: nat, j: nat)
    requires i <= |pattern|
    decreases |pattern| - i
  {
    if i == |pattern| then j == |text|
    else if pattern[i] == '*' then
      exists k {:trigger Matches(pattern, text, i + 1, k)} | j <= k <= |text| :: Matches(pattern, text, i + 1, k)
    else j < |text| && (pattern[i] == '?' || pattern[i] == text[j]) && Matches(pattern, text, i + 1, j + 1)
  }

  /** The pattern from `i` to `i'` has no star and stands for the text from `j` of that length. */
  ghost predicate Segment(pattern: string, text: string, i: nat, i': nat, j: nat)
    requires i <= i' <= |pattern|
  {
    && j + (i' - i) <= |text|
    && forall n | i <= n < i' ::
         pattern[n] != '*' && (pattern[n] == '?' || pattern[n] == text[j + (n - i)])
  }

  ghost predicate NoStar(pattern: string, i: nat, i': nat)
    requires i <= i' <= |pattern|
  {
    forall n | i <= n < i' :: pattern[n] != '*'
  }

  /** What has been matched so far can be set aside. */
  lemma {:induction false} SegmentFirst(pattern: string, text: string, i: nat, i': nat, j: nat)
    requires i <= i' <= |pattern| && Segment(pattern, text, i, i', j)
    ensures Matches(pattern, text, i, j) <==> Matches(pattern, text, i', j + (i' - i))
    decreases i' - i
  {
    if i < i' {
      assert pattern[i] != '*' && (pattern[i] == '?' || pattern[i] == text[j + (i - i)]);
      forall n | i + 1 <= n < i'
        ensures pattern[n] != '*' && (pattern[n] == '?' || pattern[n] == text[j + 1 + (n - (i + 1))])
      {
        assert j + (n - i) == j + 1 + (n - (i + 1));
      }
      SegmentFirst(pattern, text, i + 1, i', j + 1);
    }
  }

  /** A stretch without a star takes up as many characters of the text as it has. */
  lemma {:induction false} MatchUses(pattern: string, text: string, i: nat, i': nat, j: nat)
    requires i <= i' <= |pattern| && NoStar(pattern, i, i') && Matches(pattern, text, i, j)
    ensures j + (i' - i) <= |text| || (i == i' && j <= |text|)
    ensures Matches(pattern, text, i', j + (i' - i))
    decreases i' - i
  {
    if i < i' {
      MatchUses(pattern, text, i + 1, i', j + 1);
    } else {
      MatchEnds(pattern, text, i, j);
    }
  }

  lemma {:induction false} MatchEnds(pattern: string, text: string, i: nat, j: nat)
    requires i <= |pattern| && Matches(pattern, text, i, j)
    ensures j <= |text|
  {
  }

  /** Some place at or after `j` from which the pattern matches. */
  ghost predicate MatchesFrom(pattern: string, text: string, i: nat, j: nat)
    requires i <= |pattern|
  {
    exists k | j <= k <= |text| :: Matches(pattern, text, i, k)
  }

  /** A second star takes over from the first: what the first could still skip, the second can. */
  lemma {:induction false} LaterStar(pattern: string, text: string, star: nat, i: nat, resume: nat)
    requires star < i < |pattern| && pattern[i] == '*'
    requires Segment(pattern, text, star + 1, i, resume)
    ensures MatchesFrom(pattern, text, star + 1, resume)
       <==> MatchesFrom(pattern, text, i + 1, resume + (i - (star + 1)))
  {
    var j := resume + (i - (star + 1));
    if MatchesFrom(pattern, text, star + 1, resume) {
      var k :| resume <= k <= |text| && Matches(pattern, text, star + 1, k);
      MatchUses(pattern, text, star + 1, i, k);
      var k' :| k + (i - (star + 1)) <= k' <= |text| && Matches(pattern, text, i + 1, k');
      assert j <= k';
    }
    if MatchesFrom(pattern, text, i + 1, j) {
      assert Matches(pattern, text, i, j);
      SegmentFirst(pattern, text, star + 1, i, resume);
    }
  }

  /** Where the pattern does not match, only a later place is left. */
  lemma {:induction false} OnlyLater(pattern: string, text: string, i: nat, j: nat)
    requires i <= |pattern| && !Matches(pattern, text, i, j)
    ensures MatchesFrom(pattern, text, i, j) <==> MatchesFrom(pattern, text, i, j + 1)
  {
  }

  /** Once a stretch after the last star has used up the text, no later place is long enough. */
  lemma {:induction false} NoneLater(pattern: string, text: string, star: nat, i: nat, resume: nat)
    requires star < i <= |pattern| && Segment(pattern, text, star + 1, i, resume)
    requires resume + (i - (star + 1)) == |text|
    ensures MatchesFrom(pattern, text, star + 1, resume) <==> Matches(pattern, text, i, |text|)
  {
    SegmentFirst(pattern, text, star + 1, i, resume);
    if MatchesFrom(pattern, text, star + 1, resume) {
      var k :| resume <= k <= |text| && Matches(pattern, text, star + 1, k);
      MatchUses(pattern, text, star + 1, i, k);
      if i == star + 1 {
        assert k == |text|;
      }
    }
  }

  /** Whether the text matches, by a loop that on a mismatch goes back to the last star only. */
  method WildcardMatch(pattern: string, text: string) returns (matched: bool)
    ensures matched <==> Matches(pattern, text, 0, 0)
  {
    var p, t, star, resume := 0, 0, -1, 0;
    while t < |text|
      invariant 0 <= p <= |pattern| && 0 <= t <= |text| && -1 <= star < p + 1 && 0 <= resume <= t
      invariant star < 0 ==> (Matches(pattern, text, 0, 0) <==> Matches(pattern, text, p, t))
      invariant star >= 0 ==> star < p && Segment(pattern, text, star + 1, p, resume) && t == resume + (p - (star + 1))
      invariant star >= 0 ==> (Matches(pattern, text, 0, 0) <==> MatchesFrom(pattern, text, star + 1, resume))
      decreases |pattern| - star, |text| - resume, |pattern| - p
    {
      if p < |pattern| && pattern[p] == '*' {
        assert Matches(pattern, text, p, t) <==> MatchesFrom(pattern, text, p + 1, t);
        if star >= 0 {
          LaterStar(pattern, text, star, p, resume);
        }
        star := p;
        p := p + 1;
        resume := t;
      } else if p < |pattern| && (pattern[p] == '?' || pattern[p] == text[t]) {
        p := p + 1;
        t := t + 1;
      } else if star >= 0 {
        SegmentFirst(pattern, text, star + 1, p, resume);
        OnlyLater(pattern, text, star + 1, resume);
        p := star + 1;
        resume := resume + 1;
        t := resume;
      } else {
        return false;
      }
    }
    if star >= 0 {
      NoneLater(pattern, text, star, p, resume);
    }
    while p < |pattern| && pattern[p] == '*'
      invariant 0 <= p <= |pattern|
      invariant Matches(pattern, text, 0, 0) <==> Matches(pattern, text, p, |text|)
    {
      assert Matches(pattern, text, p, |text|) <==> MatchesFrom(pattern, text, p + 1, |text|);
      p := p + 1;
    }
    matched := p == |pattern|;
  }
}
