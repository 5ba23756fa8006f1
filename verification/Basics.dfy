/** Option values, the listing order of names, and joined lines of text. */
module Basics {

  datatype Option<+T> = None | Some(value: T)

  // ---------------------------------------------------------------- order of names

  /** Lexicographic order: the order in which the API server lists names. */
  predicate Precedes(a: string, b: string) {
    a == "" || (b != "" && (a[0] < b[0] || (a[0] == b[0] && Precedes(a[1..], b[1..]))))
  }

  lemma PrecedesTotal(a: string, b: string)
    ensures Precedes(a, b) || Precedes(b, a)
  {
  }

  lemma PrecedesAntisymmetric(a: string, b: string)
    requires Precedes(a, b) && Precedes(b, a)
    ensures a == b
  {
  }

  lemma PrecedesTransitive(a: string, b: string, c: string)
    requires Precedes(a, b) && Precedes(b, c)
    ensures Precedes(a, c)
  {
  }

  ghost predicate IsLeast(least: string, names: set<string>) {
    least in names && forall x | x in names :: Precedes(least, x)
  }

  lemma {:induction false} LeastExists(names: set<string>) returns (least: string)
    requires names != {}
    ensures IsLeast(least, names)
  {
    var y :| y in names;
    PrecedesTotal(y, y);
    least := y;
    if names != {y} {
      assert names - {y} != {};
      var z := LeastExists(names - {y});
      PrecedesTotal(y, z);
      if Precedes(y, z) {
        forall x | x in names ensures Precedes(y, x) {
          if x != y { PrecedesTransitive(y, z, x); }
        }
      } else {
        least := z;
      }
    }
  }

  function Least(names: set<string>): (least: string)
    requires names != {}
    ensures least in names && forall x | x in names :: Precedes(least, x)
  {
    assert exists least :: IsLeast(least, names) by { var least := LeastExists(names); }
    assert forall p, q | p in names && q in names && Precedes(p, q) && Precedes(q, p) :: p == q by {
      forall p, q | p in names && q in names && Precedes(p, q) && Precedes(q, p) ensures p == q {
        PrecedesAntisymmetric(p, q);
      }
    }
    var least :| least in names && forall x | x in names :: Precedes(least, x);
    least
  }

  predicate Distinct<T(==)>(s: seq<T>) {
    forall i, j | 0 <= i < j < |s| :: s[i] != s[j]
  }

  /** `s` names every member of `names` exactly once. */
  predicate Lists(s: seq<string>, names: set<string>) {
    Distinct(s) && (forall x | x in s :: x in names) && (forall x | x in names :: x in s)
  }

  function Sorted(names: set<string>): (s: seq<string>)
    ensures Lists(s, names)
  {
    if names == {} then []
    else
      var least := Least(names);
      [least] + Sorted(names - {least})
  }

  /** The result of a List: the proposed order if it is one of `names`, else the order of the names. */
  function Arrange(order: seq<string>, names: set<string>): (s: seq<string>)
    ensures Lists(s, names)
  {
    if Lists(order, names) then order else Sorted(names)
  }
}
