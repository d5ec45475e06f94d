/** Small types shared by every component. */
module Common {

  datatype Option<+T> = None | Some(value: T)

  /** A UUID as a number; `ObjectKeys.Text` renders it. */
  type Uuid = nat

  /** The elements of a sequence, as a set. */
  function Elements<T>(s: seq<T>): set<T> {
    set x | x in s
  }

  /** `rows` lists every element of `s` exactly once, in an order nobody promises. */
  ghost predicate Enumerates<T>(rows: seq<T>, s: set<T>) {
    && Elements(rows) == s
    && (forall i, k :: 0 <= i < k < |rows| ==> rows[i] != rows[k])
  }

  /** Some element of a nonempty set. */
  method Any<T(==)>(s: set<T>) returns (x: T)
    requires s != {}
    ensures x in s
  {
    x :| x in s;
  }

  lemma SomeElement<T>(s: set<T>) returns (x: T)
    requires s != {}
    ensures x in s
  {
    x :| x in s;
  }

  /** The result of a SELECT without ORDER BY: the matching rows in arbitrary order. */
  method Select<T(==)>(s: set<T>) returns (rows: seq<T>)
    ensures Enumerates(rows, s)
  {
    rows := [];
    var todo := s;
    while todo != {}
      invariant todo <= s
      invariant forall x :: x in rows <==> x in s - todo
      invariant forall i, k :: 0 <= i < k < |rows| ==> rows[i] != rows[k]
      decreases |todo|
    {
      var x :| x in todo;
      forall i | 0 <= i < |rows| ensures rows[i] != x {
        assert rows[i] in rows;
      }
      rows := rows + [x];
      todo := todo - {x};
    }
  }
}
