/** `RollbackOrdered`: the insertion-ordered register of every rollback id ever seen. */
module Ordering {
  import opened Prelude

  datatype Order = Order(order: map<RollbackId, int>, sorted: seq<RollbackId>)

  const NO_ORDER := Order(map[], [])

  function Register(o: Order, x: RollbackId): Order {
    var sorted := o.sorted + [x];
    Order(o.order[x := |sorted| - 1], sorted)
  }

  /** The two fields are inverse to each other: a bijection between ids and `0..len`. */
  ghost predicate Bijective(o: Order) {
    && (forall i :: 0 <= i < |o.sorted| ==> o.sorted[i] in o.order && o.order[o.sorted[i]] == i)
    && (forall x :: x in o.order ==> 0 <= o.order[x] < |o.sorted| && o.sorted[o.order[x]] == x)
  }

  lemma RegisterKeepsBijection(o: Order, x: RollbackId)
    requires Bijective(o) && x !in o.order
    ensures Bijective(Register(o, x))
    ensures o.sorted <= Register(o, x).sorted
    ensures Register(o, x).order.Keys == o.order.Keys + {x}
  {
  }
}
