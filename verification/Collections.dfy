/** What several parts need to know of sets and sequences. */
module Collections {

  ghost predicate NoRepeats<T>(s: seq<T>) {
    forall i, j :: 0 <= i < j < |s| ==> s[i] != s[j]
  }

  /** A sequence repeats nothing exactly when all but its last does not, and
      the last is new. */
  lemma LastIsNew<T>(s: seq<T>)
    requires s != []
    ensures var (rest, x) := (s[..|s| - 1], s[|s| - 1]);
      s == rest + [x] && (NoRepeats(s) <==> NoRepeats(rest) && x !in rest)
  {
    var (rest, x) := (s[..|s| - 1], s[|s| - 1]);
    if NoRepeats(rest) && x !in rest {
      forall i, j | 0 <= i < j < |s|
        ensures s[i] != s[j]
      {
        assert s[i] in rest;
      }
    }
  }

  lemma {:induction false} SubsetFits<T>(a: set<T>, b: set<T>)
    requires a <= b
    ensures |a| <= |b|
    ensures a != b ==> |a| < |b|
  {
    if a != {} {
      var x :| x in a;
      SubsetFits(a - {x}, b - {x});
    }
  }

  lemma {:induction false} DistinctFit<T>(s: seq<T>, all: set<T>)
    requires NoRepeats(s) && forall x :: x in s ==> x in all
    ensures |s| <= |all|
  {
    if s != [] {
      var last := |s| - 1;
      LastIsNew(s);
      DistinctFit(s[..last], all - {s[last]});
    }
  }
}
