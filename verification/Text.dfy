/** The string operations of Python that the model needs. */
module Text {

  // `pattern in s`.
  predicate OccursIn(pattern: string, s: string) {
    pattern <= s || (s != "" && OccursIn(pattern, s[1..]))
  }

  // `s.partition(c)`: what is before the first `c`, and what is after it.
  function Before(s: string, c: char): string {
    if s == "" || s[0] == c then "" else [s[0]] + Before(s[1..], c)
  }

  function After(s: string, c: char): string {
    if s == "" then "" else if s[0] == c then s[1..] else After(s[1..], c)
  }

  lemma {:induction false} BeforeHasNot(s: string, c: char)
    ensures c !in Before(s, c) && forall d :: d in Before(s, c) ==> d in s
  {
    if s != "" && s[0] != c { BeforeHasNot(s[1..], c); }
  }

  lemma {:induction false} Cut(a: string, c: char, b: string)
    requires c !in a
    ensures Before(a + [c] + b, c) == a && After(a + [c] + b, c) == b
  {
    var s := a + [c] + b;
    if a != "" {
      assert s[1..] == a[1..] + [c] + b;
      Cut(a[1..], c, b);
    }
  }

  lemma {:induction false} SplitAt(s: string, c: char)
    requires c in s
    ensures s == Before(s, c) + [c] + After(s, c) && c !in Before(s, c)
  {
    if s[0] != c { SplitAt(s[1..], c); }
  }

  lemma {:induction false} AfterNothing(s: string, c: char)
    requires c !in s
    ensures After(s, c) == ""
  {
    if s != "" { AfterNothing(s[1..], c); }
  }

  // `pattern in s` says that the pattern is found at some place.
  lemma {:induction false} OccursInIff(pattern: string, s: string)
    ensures OccursIn(pattern, s) <==> exists a, b :: s == a + pattern + b
  {
    if pattern <= s {
      assert s == "" + pattern + s[|pattern|..];
    } else if s != "" {
      OccursInIff(pattern, s[1..]);
      if OccursIn(pattern, s[1..]) {
        var a, b :| s[1..] == a + pattern + b;
        assert s == ([s[0]] + a) + pattern + b;
      }
      if a, b :| s == a + pattern + b {
        assert a == "" ==> pattern <= s;
        assert s[1..] == a[1..] + pattern + b;
      }
    }
  }

  lemma {:induction false} BeforeAll(s: string, c: char)
    requires c !in s
    ensures Before(s, c) == s
  {
    if s != "" { BeforeAll(s[1..], c); }
  }
}
