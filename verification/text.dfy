/** The string operations the views apply to transaction fields. */
module Text {
  import opened Seqs

  /** `toLowerCase` on one character, for the ASCII letters. */
  function LowerChar(c: char): (r: char)
    ensures !('A' <= r <= 'Z')
    ensures 'a' <= c <= 'z' || !('A' <= c <= 'Z') ==> r == c
  {
    if 'A' <= c <= 'Z' then (c as int - 'A' as int + 'a' as int) as char else c
  }

  /** `String.prototype.toLowerCase`, character by character. */
  function Lower(s: string): (r: string)
    ensures |r| == |s|
    ensures forall i :: 0 <= i < |s| ==> r[i] == LowerChar(s[i])
  {
    if |s| == 0 then "" else Lower(s[..|s|-1]) + [LowerChar(s[|s|-1])]
  }

  /** `p` occurs in `s` starting at index `i`. */
  predicate OccursAt(s: string, p: string, i: int) {
    0 <= i && i + |p| <= |s| && s[i..i + |p|] == p
  }

  /** `s.includes(p)`: some window of `s` spells `p`. The empty pattern
      occurs in every string. */
  function Contains(s: string, p: string): (r: bool)
    ensures r <==> exists i :: OccursAt(s, p, i)
    decreases |s|
  {
    if |p| > |s| then false
    else if s[..|p|] == p then
      assert OccursAt(s, p, 0);
      true
    else
      ShiftOccurrence(s, p);
      Contains(s[1..], p)
  }

  /** When `p` does not start `s`, its occurrences in `s` are those in `s[1..]`. */
  lemma {:induction false} ShiftOccurrence(s: string, p: string)
    requires |s| > 0 && !OccursAt(s, p, 0)
    ensures (exists i :: OccursAt(s[1..], p, i)) <==> (exists i :: OccursAt(s, p, i))
  {
    if exists i :: OccursAt(s[1..], p, i) {
      var i :| OccursAt(s[1..], p, i);
      assert s[1..][i..i + |p|] == s[i + 1..i + 1 + |p|];
      assert OccursAt(s, p, i + 1);
    }
    if exists i :: OccursAt(s, p, i) {
      var i :| OccursAt(s, p, i);
      assert i >= 1;
      assert s[1..][i - 1..i - 1 + |p|] == s[i..i + |p|];
      assert OccursAt(s[1..], p, i - 1);
    }
  }

  /** The characters the amount parser strips: the rupee sign and the
      thousands separator. */
  predicate IsDecoration(c: char) { c == '₹' || c == ',' }

  predicate NotDecoration(c: char) { !IsDecoration(c) }

  /** `s.replace(/[₹,]/g, '')`. */
  function StripCurrency(s: string): (r: string)
    ensures forall i :: 0 <= i < |r| ==> !IsDecoration(r[i])
    ensures forall c :: NotDecoration(c) ==> multiset(r)[c] == multiset(s)[c]
    ensures IsSubseq(r, s)
  {
    if |s| == 0 then ""
    else
      var front := StripCurrency(s[..|s|-1]);
      var c := s[|s|-1];
      assert s == s[..|s|-1] + [c];
      if IsDecoration(c) then front
      else
        assert (front + [c])[..|front|] == front;
        front + [c]
  }

  // ---------------------------------------------------------------------

  /** Stripping keeps every other character, in order: it is the filter
      that drops exactly the decoration characters. */
  lemma {:induction false} StripIsFilter(s: string)
    ensures StripCurrency(s) == Keep(s, NotDecoration)
    decreases |s|
  {
    if |s| > 0 {
      StripIsFilter(s[..|s|-1]);
    }
  }

  /** Stripping twice changes nothing more. */
  lemma {:induction false} StripIdempotent(s: string)
    ensures StripCurrency(StripCurrency(s)) == StripCurrency(s)
  {
    StripIsFilter(s);
    StripIsFilter(StripCurrency(s));
    KeepIdempotent(s, NotDecoration);
  }
}
