/** Go's `range` over a map visits every key exactly once, in an order the
    language leaves unspecified. The model receives that order as a
    parameter: a sequence that enumerates the key set. */
module Enumeration {

  /** `order` lists every key of `keys` exactly once and nothing else. */
  ghost predicate Enumerates<K>(order: seq<K>, keys: set<K>)
  {
    && (forall i :: 0 <= i < |order| ==> order[i] in keys)
    && (forall k :: k in keys ==> k in order)
    && (forall i, j :: 0 <= i < j < |order| ==> order[i] != order[j])
  }

  /** An enumeration visits as many elements as the set holds. */
  lemma {:induction false} EnumerationLength<K>(order: seq<K>, keys: set<K>)
    requires Enumerates(order, keys)
    ensures |order| == |keys|
  {
    if |order| == 0 {
      assert keys == {};
    } else {
      var rest := keys - {order[0]};
      forall k | k in rest ensures k in order[1..] {
        var i :| 0 <= i < |order| && order[i] == k;
        assert i != 0;
        assert order[1..][i - 1] == k;
      }
      forall i | 0 <= i < |order[1..]| ensures order[1..][i] in rest {
        assert order[1..][i] == order[i + 1] != order[0];
      }
      EnumerationLength(order[1..], rest);
    }
  }
}
