/** Small datatypes and sequence facts shared by the other modules. */
module Common {

  datatype Option<+T> = None | Some(value: T)

  ghost predicate Distinct<T>(s: seq<T>) {
    forall i, j :: 0 <= i < j < |s| ==> s[i] != s[j]
  }

  function Min(a: int, b: int): int {
    if a <= b then a else b
  }

  function Max(a: int, b: int): int {
    if a <= b then b else a
  }

  /** The elements of a sequence, as a set. */
  ghost function Elems<T>(s: seq<T>): set<T> {
    set x | x in s
  }

  lemma MulOrder(c: int, x: int, y: int)
    ensures c >= 0 && x <= y ==> c * x <= c * y
  {
  }

  /** A count that goes up by one at each place of a set is the size of the set. */
  lemma OneMorePlace(s: set<nat>, s': set<nat>, n: nat, more: bool)
    requires n !in s && s' == s + if more then {n} else {}
    ensures |s'| == |s| + if more then 1 else 0
  {
  }
}
