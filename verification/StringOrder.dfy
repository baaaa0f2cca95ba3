/** The order of `sort.Strings`, and the sorted list of a finite set of strings. */
module StringOrder {

  predicate Before(a: string, b: string) {
    if a == [] then b != []
    else b != [] && (a[0] < b[0] || (a[0] == b[0] && Before(a[1..], b[1..])))
  }

  lemma {:induction false} BeforeTotal(a: string, b: string)
    ensures a == b || Before(a, b) || Before(b, a)
    ensures !(Before(a, b) && Before(b, a)) && !Before(a, a)
  {
    if a != [] && b != [] {
      BeforeTotal(a[1..], b[1..]);
      BeforeTotal(a[1..], a[1..]);
      assert a == [a[0]] + a[1..] && b == [b[0]] + b[1..];
    } else if a != [] {
      BeforeTotal(a[1..], a[1..]);
    }
  }

  lemma {:induction false} BeforeTransitive(a: string, b: string, c: string)
    requires Before(a, b) && Before(b, c)
    ensures Before(a, c)
  {
    if a != [] && a[0] == b[0] == c[0] {
      BeforeTransitive(a[1..], b[1..], c[1..]);
    }
  }

  ghost predicate IsFirst(k: string, ks: set<string>) {
    k in ks && forall j :: j in ks && j != k ==> Before(k, j)
  }

  lemma {:induction false} FirstExists(ks: set<string>) returns (k: string)
    requires ks != {}
    ensures IsFirst(k, ks)
  {
    var j :| j in ks;
    if ks == {j} {
      k := j;
    } else {
      var rest := ks - {j};
      var r := FirstExists(rest);
      BeforeTotal(j, r);
      if Before(j, r) {
        k := j;
        forall i | i in ks && i != j ensures Before(j, i) {
          if i != r { BeforeTransitive(j, r, i); }
        }
      } else {
        k := r;
      }
    }
  }

  lemma BeforeAsymmetric(ks: set<string>)
    ensures forall j, k :: j in ks && k in ks && Before(j, k) ==> !Before(k, j)
  {
    forall j, k | j in ks && k in ks && Before(j, k) ensures !Before(k, j) {
      BeforeTotal(j, k);
    }
  }

  predicate Sorted(r: seq<string>) {
    forall i, j :: 0 <= i < j < |r| ==> Before(r[i], r[j])
  }

  /** The strings of `ks` in ascending order, each once. */
  function SortedKeys(ks: set<string>): (r: seq<string>)
    ensures forall k :: k in r <==> k in ks
    ensures Sorted(r)
    ensures |r| == |ks|
  {
    if ks == {} then []
    else
      BeforeAsymmetric(ks);
      assert exists k :: IsFirst(k, ks) by { var k := FirstExists(ks); }
      var k :| k in ks && forall j :: j in ks && j != k ==> Before(k, j);
      assert IsFirst(k, ks);
      [k] + SortedKeys(ks - {k})
  }

  lemma SortedDistinct(r: seq<string>, i: nat, j: nat)
    requires Sorted(r) && i < |r| && j < |r| && r[i] == r[j]
    ensures i == j
  {
    BeforeTotal(r[i], r[j]);
  }
}
