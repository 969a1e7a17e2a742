/** String search as used by the completion hook: JavaScript's `String.prototype.includes`. */
module Text {

  /** The completion marker the agent puts in its final message. */
  const Marker: string := "<task_summary>"

  /** `pat` occurs in `s` starting at index `i`. */
  predicate OccursAt(s: string, pat: string, i: nat) {
    i + |pat| <= |s| && s[i..i + |pat|] == pat
  }

  /** Executable substring test, scanning `s` from the left. */
  function Includes(s: string, pat: string): bool
    decreases |s|
  {
    if |pat| > |s| then false
    else if s[..|pat|] == pat then true
    else Includes(s[1..], pat)
  }

  /** An occurrence in the tail of `s` is an occurrence in `s`, one place further right. */
  lemma OccursInTail(s: string, pat: string, i: nat)
    requires |s| > 0
    ensures OccursAt(s[1..], pat, i) <==> OccursAt(s, pat, i + 1)
  {
    if i + |pat| <= |s| - 1 {
      assert s[1..][i..i + |pat|] == s[i + 1..i + 1 + |pat|];
    }
  }

  /** `Includes` holds exactly when the pattern occurs somewhere in the string. */
  lemma {:induction false} IncludesIffOccurs(s: string, pat: string)
    ensures Includes(s, pat) <==> exists i: nat :: OccursAt(s, pat, i)
    decreases |s|
  {
    if |pat| > |s| {
    } else if s[..|pat|] == pat {
      assert OccursAt(s, pat, 0);
    } else {
      IncludesIffOccurs(s[1..], pat);
      if Includes(s[1..], pat) {
        var j: nat :| OccursAt(s[1..], pat, j);
        OccursInTail(s, pat, j);
      } else {
        forall i: nat | OccursAt(s, pat, i)
          ensures false
        {
          assert i != 0;
          OccursInTail(s, pat, i - 1);
        }
      }
    }
  }

  /** A string that contains the marker is not empty, so it is truthy in JavaScript. */
  lemma MarkerTextIsNonEmpty(s: string)
    requires Includes(s, Marker)
    ensures |s| >= |Marker| > 0
  {
    IncludesIffOccurs(s, Marker);
  }
}
