/** Facts about finite collections that several components need. */
module Collections {

  ghost predicate Ascending(xs: seq<nat>) {
    forall i, j :: 0 <= i < j < |xs| ==> xs[i] < xs[j]
  }

  ghost predicate Distinct<T(!new)>(xs: seq<T>) {
    forall i, j :: 0 <= i < j < |xs| ==> xs[i] != xs[j]
  }

  /** A subset is no larger. */
  lemma {:induction false} Fewer<T>(a: set<T>, b: set<T>)
    requires a <= b
    ensures |a| <= |b|
  {
    if a != {} {
      var x :| x in a;
      Fewer(a - {x}, b - {x});
    }
  }

  /** `p` held at `j`, and `q` has held at every place after it and before `n`. */
  ghost predicate Since(p: int -> bool, q: int -> bool, n: int, j: int) {
    0 <= j < n && p(j) && forall l :: j < l < n ==> q(l)
  }

  /** `q` has held since `p` did. */
  ghost predicate Ever(p: int -> bool, q: int -> bool, n: int) { exists j :: Since(p, q, n, j) }

  lemma SinceGrows(p: int -> bool, q: int -> bool, n: nat)
    ensures Ever(p, q, n + 1) <==> p(n) || (Ever(p, q, n) && q(n))
  {
    if p(n) {
      assert Since(p, q, n + 1, n);
    }
    if Ever(p, q, n) && q(n) {
      var j :| Since(p, q, n, j);
      assert Since(p, q, n + 1, j);
    }
    if Ever(p, q, n + 1) {
      var j :| Since(p, q, n + 1, j);
      assert j < n ==> Since(p, q, n, j) && q(n);
    }
  }
}
