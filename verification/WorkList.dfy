/**
 * What the two Kahn traversals share: a queue that receives each key at the moment its degree
 * drops to zero, so that placed and queued keys together are exactly the keys of degree zero.
 */
module WorkList {
  import opened Digraph

  /** Some listing of a finite set: the arbitrary iteration order of a Python set or dict. */
  method ListOf<T(==, !new)>(s: set<T>) returns (q: seq<T>)
    ensures NoDuplicates(q) && Elems(q) == s
  {
    q := [];
    var todo := s;
    while todo != {}
      invariant todo <= s && NoDuplicates(q) && Elems(q) == s - todo
    {
      var x :| x in todo;
      NoDuplicatesAppend(q, x);
      ElemsAppend(q, x);
      q, todo := q + [x], todo - {x};
    }
  }

  ghost function Zeros<T(!new)>(degree: map<T, nat>): set<T> {
    set n | n in degree && degree[n] == 0
  }

  ghost predicate Listed<T(!new)>(degree: map<T, nat>, listed: seq<T>) {
    NoDuplicates(listed) && Elems(listed) == Zeros(degree)
  }

  /** Lowering a degree to zero lists its key; lowering it less lists nothing. */
  lemma ListKey<T(!new)>(degree: map<T, nat>, listed: seq<T>, t: T)
    requires Listed(degree, listed) && t in degree && degree[t] >= 1
    ensures degree[t] == 1 ==> Listed(degree[t := 0], listed + [t])
    ensures degree[t] > 1 ==> Listed(degree[t := degree[t] - 1], listed)
  {
    assert t !in Elems(listed);
    if degree[t] == 1 {
      NoDuplicatesAppend(listed, t);
      ElemsAppend(listed, t);
      assert Zeros(degree[t := 0]) == Zeros(degree) + {t};
    } else {
      assert Zeros(degree[t := degree[t] - 1]) == Zeros(degree);
    }
  }

  /** Decrements one degree and queues its key when nothing is left. */
  method LowerDegree<T(==, !new)>(t: T, degree: map<T, nat>, queue: seq<T>, ghost placed: seq<T>)
    returns (degree': map<T, nat>, queue': seq<T>)
    requires Listed(degree, placed + queue) && t in degree && degree[t] >= 1
    ensures degree' == degree[t := degree[t] - 1] && Listed(degree', placed + queue')
  {
    ListKey(degree, placed + queue, t);
    degree', queue' := degree[t := degree[t] - 1], queue;
    if degree'[t] == 0 {
      assert placed + (queue + [t]) == (placed + queue) + [t];
      queue' := queue + [t];
    }
  }

  lemma {:induction false} ListedSize<T(!new)>(keys: set<T>, listed: seq<T>)
    requires NoDuplicates(listed) && Elems(listed) <= keys
    ensures |listed| <= |keys|
    ensures |listed| == |keys| ==> Elems(listed) == keys
  {
    if listed == [] {
      assert |keys| == 0 ==> keys == {};
    } else {
      var last := |listed| - 1;
      assert listed[last] in Elems(listed);
      forall x | x in Elems(listed[..last]) ensures x in keys - {listed[last]} {
        assert x in Elems(listed);
      }
      ListedSize(keys - {listed[last]}, listed[..last]);
      assert listed == listed[..last] + [listed[last]];
      ElemsAppend(listed[..last], listed[last]);
    }
  }

  /** The sum of the weights of the listed keys. */
  ghost function Total<T(!new)>(keys: seq<T>, weight: map<T, nat>): nat
    requires Elems(keys) <= weight.Keys
  {
    if keys == [] then 0
    else
      assert keys[0] in Elems(keys) && Elems(keys[1..]) <= Elems(keys);
      weight[keys[0]] + Total(keys[1..], weight)
  }

  lemma {:induction false} TotalUpdate<T(!new)>(keys: seq<T>, weight: map<T, nat>, k: T, v: nat)
    requires NoDuplicates(keys) && Elems(keys) <= weight.Keys && k in weight
    ensures k !in keys ==> Total(keys, weight[k := v]) == Total(keys, weight)
    ensures k in keys ==> Total(keys, weight[k := v]) == Total(keys, weight) - weight[k] + v
  {
    if keys != [] {
      assert keys[0] in Elems(keys) && Elems(keys[1..]) <= Elems(keys);
      TotalUpdate(keys[1..], weight, k, v);
    }
  }

  /** Lowering one listed weight lowers the total. */
  lemma TotalDrops<T(!new)>(keys: seq<T>, weight: map<T, nat>, weight': map<T, nat>, k: T)
    requires NoDuplicates(keys) && Elems(keys) == weight.Keys && k in weight
    requires k in weight' && weight' == weight[k := weight'[k]] && weight'[k] < weight[k]
    ensures Elems(keys) == weight'.Keys && Total(keys, weight') < Total(keys, weight)
  {
    assert k in Elems(keys);
    TotalUpdate(keys, weight, k, weight'[k]);
  }
}
