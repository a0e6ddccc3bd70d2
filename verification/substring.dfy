/** Python's substring test `w in s` on strings, and a way to refute it for a given text. */
module Substring {

  /** `w` is a prefix of `s`. */
  predicate IsPrefix(w: string, s: string)
  {
    |w| <= |s| && s[..|w|] == w
  }

  /** Python's `w in s`: `w` occurs at some position of `s` (the empty string occurs everywhere). */
  predicate Occurs(w: string, s: string)
  {
    IsPrefix(w, s) || (s != [] && Occurs(w, s[1..]))
  }

  /** The first three characters of `w` start at position `i` of `s`. */
  predicate LeadsAt(w: string, s: string, i: int)
    requires |w| >= 3 && 0 <= i < |s| - 2
  {
    s[i] == w[0] && s[i + 1] == w[1] && s[i + 2] == w[2]
  }

  /** A text that starts with `w` also starts with the first three characters of `w`. */
  lemma PrefixLeads(w: string, s: string)
    requires |w| >= 3 && |s| >= 3
    ensures IsPrefix(w, s) ==> LeadsAt(w, s, 0)
  {
    if IsPrefix(w, s) {
      assert s[..|w|][0] == s[0] && s[..|w|][1] == s[1] && s[..|w|][2] == s[2];
    }
  }

  /** A word whose first three characters appear nowhere in a text does not occur in it. */
  lemma {:induction false} NotOccursWithoutLead(w: string, s: string)
    requires |w| >= 3
    requires forall i :: 0 <= i < |s| - 2 ==> !LeadsAt(w, s, i)
    ensures !Occurs(w, s)
  {
    if |s| >= 3 {
      PrefixLeads(w, s);
    }
    if s != [] {
      var rest := s[1..];
      forall i | 0 <= i < |rest| - 2
        ensures !LeadsAt(w, rest, i)
      {
        assert !LeadsAt(w, s, i + 1);
      }
      NotOccursWithoutLead(w, rest);
    }
  }
}
