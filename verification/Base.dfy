/** Vocabulary shared by the models: nullable columns and finite-set facts. */
module Base {

  // A nullable column, or a Redis key that may be absent.
  datatype Option<+T> = None | Some(value: T) {
    function GetOr(default: T): T {
      if Some? then value else default
    }
  }

  predicate NoDuplicates<T(==)>(s: seq<T>) {
    forall i, j :: 0 <= i < j < |s| ==> s[i] != s[j]
  }

  lemma SubsetSize<T>(a: set<T>, b: set<T>)
    requires a <= b
    ensures |a| <= |b|
  {
    assert b == a + (b - a);
  }

  function ToSet<T>(s: seq<T>): set<T> {
    set x | x in s
  }

  lemma {:induction false} DistinctSize<T>(s: seq<T>)
    requires NoDuplicates(s)
    ensures |ToSet(s)| == |s|
  {
    if s != [] {
      var last := s[|s| - 1];
      DistinctSize(s[..|s| - 1]);
      assert ToSet(s) == ToSet(s[..|s| - 1]) + {last};
    }
  }

  // Products and quotients are named, so that equal operands are seen to give equal results.
  function Times(x: real, y: real): real {
    x * y
  }

  function Over(x: real, y: real): real
    requires y != 0.0
  {
    x / y
  }
}
