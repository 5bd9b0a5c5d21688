/**
  String operations that the logger relies on. Strings are sequences of characters;
  matching a `&str` pattern in a Rust `String` agrees with matching the same text here.
 */
module Text {

  /** True when `p` appears somewhere in `s` as a contiguous block (the empty pattern always does). */
  predicate Occurs(p: string, s: string)
    decreases |s|
  {
    p <= s || (s != [] && Occurs(p, s[1..]))
  }

  /**
    Rust's `s.replace(p, "")` for a non-empty pattern: scan `s` from the left and delete every
    non-overlapping occurrence of `p`. Replacing the empty pattern by the empty string leaves `s`
    as it is.
   */
  function DeleteAll(s: string, p: string): (r: string)
    ensures |r| <= |s|
    ensures p == [] || !Occurs(p, s) ==> r == s
    ensures p != [] && Occurs(p, s) ==> |r| + |p| <= |s|
    decreases |s|
  {
    if p == [] || s == [] then s
    else if p <= s then DeleteAll(s[|p|..], p)
    else [s[0]] + DeleteAll(s[1..], p)
  }

  /** A leading occurrence of the pattern is removed and the scan resumes right after it. */
  lemma DeleteAllLeading(p: string, t: string)
    requires p != []
    ensures DeleteAll(p + t, p) == DeleteAll(t, p)
  {
  }

  /** When the only occurrence is at the front, deleting every occurrence drops just that one. */
  lemma DeleteAllOnlyLeading(p: string, t: string)
    requires p != [] && p <= t
    requires !Occurs(p, t[|p|..])
    ensures DeleteAll(t, p) == t[|p|..]
  {
  }

  /** An occurrence needs at least as many characters as the pattern has. */
  lemma {:induction false} OccurrenceFits(p: string, s: string)
    requires Occurs(p, s)
    ensures |p| <= |s|
    decreases |s|
  {
    if !(p <= s) {
      OccurrenceFits(p, s[1..]);
    }
  }

  /** Deleting from `p + a + p + b` keeps `a` and `b` when neither holds a match of its own. */
  lemma DeleteEnclosed(p: string, a: string, b: string)
    requires p != []
    requires forall i :: 0 <= i < |a| ==> !(p <= a[i..] + (p + b))
    requires !Occurs(p, b)
    ensures DeleteAll(p + a + p + b, p) == a + b
  {
    assert p + a + p + b == p + (a + (p + b));
    DeleteAllLeading(p, a + (p + b));
    DeleteAllSkip(a, p + b, p);
    DeleteAllLeading(p, b);
  }

  /** Characters before which the pattern never starts are kept, and the scan continues after them. */
  lemma {:induction false} DeleteAllSkip(head: string, tail: string, p: string)
    requires p != []
    requires forall i :: 0 <= i < |head| ==> !(p <= head[i..] + tail)
    ensures DeleteAll(head + tail, p) == head + DeleteAll(tail, p)
    decreases |head|
  {
    if head != [] {
      assert !(p <= head[0..] + tail);
      assert head[0..] == head;
      assert (head + tail)[1..] == head[1..] + tail;
      forall i | 0 <= i < |head[1..]| ensures !(p <= head[1..][i..] + tail) {
        assert head[1..][i..] == head[i + 1..];
      }
      DeleteAllSkip(head[1..], tail, p);
    } else {
      assert head + tail == tail;
    }
  }
}
