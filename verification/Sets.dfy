/** Facts about finite sets and lists that the counting arguments share. */
module Sets {

  lemma {:induction false} SubsetSize<T>(a: set<T>, b: set<T>)
    requires a <= b
    ensures |a| <= |b|
  {
    if a != {} {
      var x :| x in a;
      SubsetSize(a - {x}, b - {x});
    }
  }

  ghost function Upto(n: nat): (all: set<nat>)
    ensures |all| == n && forall i :: i in all <==> 0 <= i < n
  {
    if n == 0 then {} else Upto(n - 1) + {n - 1}
  }

  ghost predicate NoRepeats<T>(s: seq<T>) {
    forall i, j :: 0 <= i < j < |s| ==> s[i] != s[j]
  }

  lemma {:induction false} MembersSize<T>(s: seq<T>)
    ensures |set x | x in s| <= |s|
    ensures NoRepeats(s) ==> |set x | x in s| == |s|
  {
    if s != [] {
      var init, last := s[..|s| - 1], s[|s| - 1];
      MembersSize(init);
      assert (set x | x in s) == (set x | x in init) + {last};
    }
  }

  // A list of more than `|b|` members of `b` repeats one of them.
  lemma {:induction false} Pigeonhole<T>(a: seq<T>, b: seq<T>)
    requires |a| > |b| && forall x :: x in a ==> x in b
    ensures !NoRepeats(a)
  {
    MembersSize(a);
    MembersSize(b);
    SubsetSize(set x | x in a, set x | x in b);
  }

  // As many positions as there are cover them all exactly when none comes twice.
  lemma {:induction false} CoversIffDistinct(w: seq<nat>, n: nat)
    requires |w| == n && forall p :: p in w ==> p < n
    ensures (forall p :: 0 <= p < n ==> p in w) <==> NoRepeats(w)
  {
    if NoRepeats(w) {
      forall p | 0 <= p < n ensures p in w {
        Covers(w, p);
      }
    } else {
      var i, j :| 0 <= i < j < |w| && w[i] == w[j];
      var others := w[..j] + w[j + 1..];
      if forall p :: 0 <= p < n ==> p in w {
        forall p | p in Upto(n) ensures p in others {
          StillThere(w, i, j, p);
        }
        MembersSize(others);
        SubsetSize(Upto(n), set p | p in others);
      }
    }
  }

  lemma {:induction false} Covers(w: seq<nat>, p: nat)
    requires NoRepeats(w) && (forall q :: q in w ==> q < |w|) && p < |w|
    ensures p in w
  {
    if p !in w {
      MembersSize(w);
      var more := (set q | q in w) + {p};
      SubsetSize(more, Upto(|w|));
    }
  }

  lemma {:induction false} StillThere(w: seq<nat>, i: nat, j: nat, p: nat)
    requires i < j < |w| && w[i] == w[j] && p in w
    ensures p in w[..j] + w[j + 1..]
  {
    var others := w[..j] + w[j + 1..];
    var k :| 0 <= k < |w| && w[k] == p;
    assert p == others[if k < j then k else if k == j then i else k - 1];
  }
}
