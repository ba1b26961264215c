/**
  What other processes do to a table between two steps of an action: a finite list of acts, each of
  which puts an entry or removes one.
*/
module Interference {

  import opened Basics

  datatype Act<K, V> = Put(key: K, value: V) | Drop(key: K)

  function Acted<K(==), V>(m: map<K, V>, a: Act<K, V>): map<K, V> {
    match a
    case Put(key, value) => m[key := value]
    case Drop(key) => m - {key}
  }

  function Acts<K(==), V>(m: map<K, V>, acts: seq<Act<K, V>>): map<K, V> {
    if acts == [] then m else Acted(Acts(m, acts[..|acts| - 1]), acts[|acts| - 1])
  }

  /** The last act on a key. */
  function LastAct<K(==), V>(acts: seq<Act<K, V>>, key: K): Option<Act<K, V>> {
    if acts == [] then None
    else if acts[|acts| - 1].key == key then Some(acts[|acts| - 1])
    else LastAct(acts[..|acts| - 1], key)
  }

  /** It alone decides what the key holds afterwards. */
  lemma {:induction false} ActsAt<K, V>(m: map<K, V>, acts: seq<Act<K, V>>, key: K)
    ensures match LastAct(acts, key)
            case None => (key in Acts(m, acts) <==> key in m) && (key in m ==> Acts(m, acts)[key] == m[key])
            case Some(Put(k, value)) => k == key && key in Acts(m, acts) && Acts(m, acts)[key] == value
            case Some(Drop(_)) => key !in Acts(m, acts)
  {
    if acts != [] {
      ActsAt(m, acts[..|acts| - 1], key);
    }
  }

  lemma {:induction false} LastActIn<K, V>(acts: seq<Act<K, V>>, key: K)
    ensures LastAct(acts, key).Some? ==> LastAct(acts, key).value in acts
  {
    if acts != [] {
      LastActIn(acts[..|acts| - 1], key);
    }
  }
}
