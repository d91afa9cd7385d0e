/** Small shared vocabulary: optional values and the identifiers of the entity world. */
module Prelude {

  datatype Option<+T> = None | Some(value: T) {
    function GetOr(default: T): T {
      match this
      case Some(v) => v
      case None => default
    }
  }

  /** An entity handle. Handles are never reused, so one number stands for index and generation. */
  datatype Entity = Entity(id: nat)

  /** The stable identity of a rollback entity: the handle it was first registered under. */
  datatype RollbackId = RollbackId(entity: Entity)

  const I32_MAX := 0x7fff_ffff
  const I32_MIN := -0x8000_0000

  /** Frames are 32-bit signed integers. */
  type Frame = x: int | I32_MIN <= x <= I32_MAX

  function Max(a: int, b: int): int {
    if a < b then b else a
  }

  function Get<K, V>(m: map<K, V>, k: K): Option<V> {
    if k in m then Some(m[k]) else None
  }

  lemma SameMap<K, V>(a: map<K, V>, b: map<K, V>)
    requires forall k :: k in a ==> k in b && a[k] == b[k]
    requires forall k :: k in b ==> k in a
    ensures a == b
  {
  }

  lemma SameMembers<T>(a: set<T>, b: set<T>)
    requires forall i :: i in a <==> i in b
    ensures a == b
  {
  }

  lemma Member<T>(s: set<T>) returns (x: T)
    requires s != {}
    ensures x in s
  {
    x :| x in s;
  }

  lemma Included<T>(a: set<T>, b: set<T>)
    requires forall x :: x in a ==> x in b
    ensures a <= b
  {
  }
}
