/** The order in which `std::map<std::string, ...>` is traversed. */
module IdOrder {

  type Id = string

  /** Lexicographic comparison. */
  predicate Le(a: Id, b: Id) {
    a == [] || (b != [] && (a[0] < b[0] || (a[0] == b[0] && Le(a[1..], b[1..]))))
  }

  lemma {:induction false} LeTotal(a: Id, b: Id)
    ensures Le(a, b) || Le(b, a)
  {
    if a != [] && b != [] && a[0] == b[0] { LeTotal(a[1..], b[1..]); }
  }

  lemma {:induction false} LeAntisymmetric(a: Id, b: Id)
    requires Le(a, b) && Le(b, a)
    ensures a == b
  {
    if a != [] && b != [] {
      LeAntisymmetric(a[1..], b[1..]);
      assert a == [a[0]] + a[1..] && b == [b[0]] + b[1..];
    }
  }

  lemma {:induction false} LeTransitive(a: Id, b: Id, c: Id)
    requires Le(a, b) && Le(b, c)
    ensures Le(a, c)
  {
    if a != [] && a[0] == b[0] && b[0] == c[0] { LeTransitive(a[1..], b[1..], c[1..]); }
  }

  /** The first key of a set in traversal order. */
  ghost predicate IsFirst(k: Id, s: set<Id>) {
    k in s && forall j :: j in s ==> Le(k, j)
  }

  lemma {:induction false} FirstExists(s: set<Id>)
    requires s != {}
    ensures exists k :: IsFirst(k, s)
  {
    var x :| x in s;
    LeTotal(x, x);
    if s == {x} {
      assert IsFirst(x, s);
    } else {
      var rest := s - {x};
      FirstExists(rest);
      var k :| IsFirst(k, rest);
      LeTotal(x, k);
      var best := if Le(x, k) then x else k;
      forall j | j in s ensures Le(best, j) {
        if j != x && best == x { LeTransitive(x, k, j); }
      }
      assert IsFirst(best, s);
    }
  }

  lemma FirstUnique(j: Id, k: Id, s: set<Id>)
    requires IsFirst(j, s) && IsFirst(k, s)
    ensures j == k
  {
    LeAntisymmetric(j, k);
  }

  ghost function First(s: set<Id>): (k: Id)
    requires s != {}
    ensures IsFirst(k, s)
  {
    FirstExists(s);
    var k :| IsFirst(k, s);
    k
  }
}
