/** Vocabulary shared by every module: optional values and UUIDs. */
module Base {

  datatype Option<+T> = None | Some(value: T)

  /** A UUID; only equality (and, for keyset order, comparison) matters. */
  type Uuid = nat

  /** How a write to the database or the broker ends for its caller: it took effect and
      said so, it had no effect and failed, or it took effect and still reported a failure. */
  datatype Io = Done | Refused | Unsure {
    predicate Applied() { this != Refused }
  }

  function Last<T>(s: seq<T>): T
    requires |s| > 0
  {
    s[|s| - 1]
  }

  lemma Inhabited(a: set<int>)
    ensures a != {} ==> exists x :: x in a
  {
    if !exists x :: x in a { assert a == {}; }
  }

  /** A number none of the used ones equals. */
  method UnusedNat(used: set<nat>) returns (n: nat)
    ensures n !in used
  {
    n := 0;
    var left := used;
    while left != {}
      invariant left <= used && forall k | k in used && k !in left :: k < n
      decreases left
    {
      Inhabited(left);
      var k :| k in left;
      if k >= n { n := k + 1; }
      left := left - {k};
    }
  }
}
