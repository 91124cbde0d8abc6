/** The ordered containers: progressions of identifiers, piles of items, and flows that hold both. */
module Containers {
  import opened Options
  import opened Digraph
  import KronGraph

  type Id = KronGraph.Id

  // ------------------------------------------------------------------ lists of identifiers

  function RemoveFirst(s: seq<Id>, x: Id): seq<Id> {
    if s == [] then [] else if s[0] == x then s[1..] else [s[0]] + RemoveFirst(s[1..], x)
  }

  function RemoveAt(s: seq<Id>, i: nat): seq<Id>
    requires i < |s|
  {
    s[..i] + s[i + 1..]
  }

  function InsertAt(s: seq<Id>, i: nat, x: Id): seq<Id>
    requires i <= |s|
  {
    s[..i] + [x] + s[i..]
  }

  lemma {:induction false} RemoveFirstCount(s: seq<Id>, x: Id)
    ensures multiset(RemoveFirst(s, x)) == multiset(s) - multiset{x}
  {
    if s != [] {
      assert s == [s[0]] + s[1..];
      if s[0] != x {
        RemoveFirstCount(s[1..], x);
      }
    }
  }

  /** Removing the first occurrence removes the identifier exactly when it occurred no more than once. */
  lemma RemoveFirstElems(s: seq<Id>, x: Id)
    ensures x !in RemoveFirst(s, x) <==> multiset(s)[x] <= 1
    ensures Elems(RemoveFirst(s, x)) + {x} == Elems(s) + {x}
  {
    RemoveFirstCount(s, x);
    var r := RemoveFirst(s, x);
    assert forall y :: (y in s <==> y in multiset(s)) && (y in r <==> y in multiset(r));
  }

  lemma NoDuplicatesCount(s: seq<Id>)
    ensures NoDuplicates(s) <==> forall x :: multiset(s)[x] <= 1
  {
    if NoDuplicates(s) {
      UniqueCount(s);
    } else {
      var i, j :| 0 <= i < j < |s| && s[i] == s[j];
      assert s == s[..j] + [s[j]] + s[j + 1..];
      assert s[..j][i] == s[i] && s[i] in s[..j];
      assert multiset(s)[s[i]] >= 2;
    }
  }

  lemma {:induction false} UniqueCount(s: seq<Id>)
    requires NoDuplicates(s)
    ensures forall x :: multiset(s)[x] <= 1
  {
    if s != [] {
      var n := |s| - 1;
      UniqueCount(s[..n]);
      assert s == s[..n] + [s[n]];
      assert s[n] !in s[..n];
    }
  }

  /** Removing keeps a list free of repeats. */
  lemma RemoveKeepsUnique(s: seq<Id>, x: Id)
    requires NoDuplicates(s)
    ensures NoDuplicates(RemoveFirst(s, x)) && Elems(RemoveFirst(s, x)) == Elems(s) - {x}
  {
    NoDuplicatesCount(s);
    RemoveFirstCount(s, x);
    RemoveFirstElems(s, x);
    NoDuplicatesCount(RemoveFirst(s, x));
  }

  /** A Python index: negative ones count from the end. */
  function Normal(index: int, length: nat): int {
    if index < 0 then length + index else index
  }

  /** Moving an element takes it out and puts it before what stood at the target. */
  function Moved(s: seq<Id>, from: nat, to: nat): seq<Id>
    requires from < |s| && to <= |s|
  {
    InsertAt(RemoveAt(s, from), if from < to then to - 1 else to, s[from])
  }

  /** Exactly the first occurrence goes; everything else keeps its order. */
  lemma {:induction false} RemoveFirstMeans(s: seq<Id>, x: Id, i: nat)
    requires i < |s| && s[i] == x && x !in s[..i]
    ensures RemoveFirst(s, x) == s[..i] + s[i + 1..]
    decreases i
  {
    if i > 0 {
      var rest := s[1..];
      assert s[0] == s[..i][0];
      assert rest[..i - 1] == s[..i][1..];
      RemoveFirstMeans(rest, x, i - 1);
      assert s[..i] == [s[0]] + rest[..i - 1] && s[i + 1..] == rest[i..];
    }
  }

  /** Valid Python indices run from minus the length up to the length, -1 being the last. */
  lemma NormalMeans(index: int, length: nat)
    ensures 0 <= Normal(index, length) < length <==> 0 <= index + length < 2 * length
    ensures index >= 0 ==> Normal(index, length) == index
    ensures index < 0 ==> Normal(index, length) - length == index
  {
  }

  /**
   * A moved element stands right before what stood at the target, or last if the target is the end,
   * and the others keep their order.
   */
  lemma MovedMeans(s: seq<Id>, from: nat, to: nat)
    requires from < |s| && to <= |s|
    ensures var r, k := Moved(s, from, to), if from < to then to - 1 else to;
      && |r| == |s| && r[k] == s[from] && r[..k] + r[k + 1..] == s[..from] + s[from + 1..]
      && (to < |s| && to != from ==> k + 1 < |r| && r[k + 1] == s[to])
      && (to == |s| ==> k + 1 == |r|)
  {
    var r, k := Moved(s, from, to), if from < to then to - 1 else to;
    var rest := s[..from] + s[from + 1..];
    assert r == rest[..k] + [s[from]] + rest[k..];
    assert r[..k] == rest[..k] && r[k + 1..] == rest[k..] && rest[..k] + rest[k..] == rest;
  }

  lemma RemoveAtCount(s: seq<Id>, i: nat)
    requires i < |s|
    ensures multiset(RemoveAt(s, i)) == multiset(s) - multiset{s[i]}
  {
    assert s == s[..i] + [s[i]] + s[i + 1..];
  }

  lemma InsertAtCount(s: seq<Id>, i: nat, x: Id)
    requires i <= |s|
    ensures multiset(InsertAt(s, i, x)) == multiset(s) + multiset{x}
  {
    assert s == s[..i] + s[i..];
  }

  /** Moving and swapping rearrange: no identifier is lost, added or repeated. */
  lemma MovedCount(s: seq<Id>, from: nat, to: nat)
    requires from < |s| && to <= |s|
    ensures multiset(Moved(s, from, to)) == multiset(s)
  {
    RemoveAtCount(s, from);
    InsertAtCount(RemoveAt(s, from), if from < to then to - 1 else to, s[from]);
    assert s[from] in multiset(s);
  }

  lemma SwappedCount(s: seq<Id>, i: nat, j: nat)
    requires i < |s| && j < |s|
    ensures multiset(s[i := s[j]][j := s[i]]) == multiset(s)
  {
  }

  lemma CountElems(s: seq<Id>, t: seq<Id>)
    requires multiset(s) == multiset(t)
    ensures Elems(s) == Elems(t)
  {
    assert forall x :: (x in s <==> x in multiset(s)) && (x in t <==> x in multiset(t));
  }

  // ------------------------------------------------------------------ progressions

  /** A list of identifiers with the set of its members beside it. */
  class Progression {
    var order: seq<Id>
    var members: set<Id>

    ghost predicate Valid()
      reads this
    {
      members == Elems(order)
    }

    constructor (ids: seq<Id>)
      ensures Valid() && order == ids
    {
      order, members := ids, set x | x in ids;
    }

    method Append(x: Id)
      requires Valid()
      modifies this
      ensures Valid() && order == old(order) + [x]
    {
      ElemsAppend(order, x);
      order, members := order + [x], members + {x};
    }

    /** Inserts at a position, clamped to the list as Python does. */
    method Insert(index: int, x: Id)
      requires Valid()
      modifies this
      ensures Valid() && multiset(order) == multiset(old(order)) + multiset{x}
      ensures var i := Normal(index, |old(order)|);
        order == InsertAt(old(order), if i < 0 then 0 else if i > |old(order)| then |old(order)| else i, x)
    {
      var i := Normal(index, |order|);
      i := if i < 0 then 0 else if i > |order| then |order| else i;
      InsertAtCount(order, i, x);
      assert Elems(InsertAt(order, i, x)) == Elems(order) + {x} by {
        assert forall y :: y in InsertAt(order, i, x) <==> y in multiset(InsertAt(order, i, x));
        assert forall y :: y in order <==> y in multiset(order);
      }
      order, members := InsertAt(order, i, x), members + {x};
    }

    /** Removes the first occurrence; the member set follows only when it was the last. */
    method Remove(x: Id) returns (found: bool)
      requires Valid()
      modifies this
      ensures Valid() && found == (x in old(order)) && order == RemoveFirst(old(order), x)
    {
      found := x in order;
      RemoveFirstElems(order, x);
      Absent(order, x);
      if found {
        order := RemoveFirst(order, x);
        if x !in order {
          members := members - {x};
        }
      }
    }

    method Pop(index: int) returns (r: Option<Id>)
      requires Valid()
      modifies this
      ensures Valid()
      ensures var i := Normal(index, |old(order)|);
        if 0 <= i < |old(order)| then r == Some(old(order)[i]) && order == RemoveAt(old(order), i)
        else r.None? && order == old(order)
    {
      var i := Normal(index, |order|);
      if i < 0 || i >= |order| {
        return None;
      }
      var x := order[i];
      RemovedElems(order, i);
      order := RemoveAt(order, i);
      if x !in order {
        members := members - {x};
      }
      return Some(x);
    }

    method SetItem(index: int, x: Id) returns (ok: bool)
      requires Valid()
      modifies this
      ensures Valid()
      ensures var i := Normal(index, |old(order)|);
        if 0 <= i < |old(order)| then ok && order == old(order)[i := x] else !ok && order == old(order)
    {
      var i := Normal(index, |order|);
      if i < 0 || i >= |order| {
        return false;
      }
      var before := order[i];
      ReplacedElems(order, i, x);
      order := order[i := x];
      if before !in order {
        members := members - {before};
      }
      members := members + {x};
      return true;
    }

    /** Moves an element; the target index refers to the list before the move. */
    method Move(fromIndex: int, toIndex: int) returns (ok: bool)
      requires Valid()
      modifies this
      ensures Valid() && multiset(order) == multiset(old(order))
      ensures var f, t := Normal(fromIndex, |old(order)|), Normal(toIndex, |old(order)|);
        if 0 <= f < |old(order)| && 0 <= t <= |old(order)| then ok && order == Moved(old(order), f, t)
        else !ok && order == old(order)
    {
      var f, t := Normal(fromIndex, |order|), Normal(toIndex, |order|);
      if f < 0 || f >= |order| || t < 0 || t > |order| {
        return false;
      }
      MovedCount(order, f, t);
      CountElems(order, Moved(order, f, t));
      var item := order[f];
      order := RemoveAt(order, f);
      if f < t {
        t := t - 1;
      }
      order := InsertAt(order, t, item);
      return true;
    }

    method Swap(index1: int, index2: int) returns (ok: bool)
      requires Valid()
      modifies this
      ensures Valid() && multiset(order) == multiset(old(order))
      ensures var i, j := Normal(index1, |old(order)|), Normal(index2, |old(order)|);
        if 0 <= i < |old(order)| && 0 <= j < |old(order)|
        then ok && order == old(order)[i := old(order)[j]][j := old(order)[i]] else !ok && order == old(order)
    {
      var i, j := Normal(index1, |order|), Normal(index2, |order|);
      if i < 0 || i >= |order| || j < 0 || j >= |order| {
        return false;
      }
      SwappedCount(order, i, j);
      CountElems(order, order[i := order[j]][j := order[i]]);
      order := order[i := order[j]][j := order[i]];
      return true;
    }

    method Include(x: Id) returns (added: bool)
      requires Valid()
      modifies this
      ensures Valid() && added == (x !in old(order)) && order == if added then old(order) + [x] else old(order)
    {
      added := x !in members;
      if added {
        Append(x);
      }
    }

    method Exclude(x: Id) returns (removed: bool)
      requires Valid()
      modifies this
      ensures Valid() && removed == (x in old(order)) && order == RemoveFirst(old(order), x)
    {
      Absent(order, x);
      removed := x in members;
      if removed {
        removed := Remove(x);
      }
    }
  }

  lemma {:induction false} Absent(s: seq<Id>, x: Id)
    ensures x !in s ==> RemoveFirst(s, x) == s
  {
    if s != [] && x !in s {
      Absent(s[1..], x);
    }
  }

  lemma RemovedElems(s: seq<Id>, i: nat)
    requires i < |s|
    ensures Elems(RemoveAt(s, i)) == if s[i] in RemoveAt(s, i) then Elems(s) else Elems(s) - {s[i]}
  {
    var r := RemoveAt(s, i);
    forall k | 0 <= k < |s| && k != i ensures s[k] in r {
      assert s[k] == if k < i then r[k] else r[k - 1];
    }
  }

  lemma ReplacedElems(s: seq<Id>, i: nat, x: Id)
    requires i < |s|
    ensures Elems(s[i := x]) == (if s[i] in s[i := x] then Elems(s) else Elems(s) - {s[i]}) + {x}
  {
    var r := s[i := x];
    assert r[i] == x;
    forall k | 0 <= k < |s| && k != i ensures s[k] in r && r[k] in s {
      assert s[k] == r[k];
    }
  }

  // ------------------------------------------------------------------ piles

  /** Items by identifier, in insertion order. */
  class Pile<T> {
    var items: map<Id, T>
    const progression: Progression

    /** The order lists every key once and nothing else. */
    ghost predicate Valid()
      reads this, progression
    {
      progression.Valid() && NoDuplicates(progression.order) && Elems(progression.order) == items.Keys
    }

    constructor ()
      ensures Valid() && items == map[] && progression.order == [] && fresh(progression)
    {
      items := map[];
      progression := new Progression([]);
    }

    method Add(id: Id, item: T) returns (ok: bool)
      requires Valid()
      modifies this, progression
      ensures Valid() && ok == (id !in old(items))
      ensures ok ==> items == old(items)[id := item] && progression.order == old(progression.order) + [id]
      ensures !ok ==> items == old(items) && progression.order == old(progression.order)
    {
      ok := id !in items;
      if ok {
        NoDuplicatesAppend(progression.order, id);
        ElemsAppend(progression.order, id);
        items := items[id := item];
        progression.Append(id);
      }
    }

    method Remove(id: Id) returns (r: Option<T>)
      requires Valid()
      modifies this, progression
      ensures Valid() && items == old(items) - {id} && progression.order == RemoveFirst(old(progression.order), id)
      ensures r == if id in old(items) then Some(old(items)[id]) else None
    {
      RemoveKeepsUnique(progression.order, id);
      Absent(progression.order, id);
      if id !in items {
        return None;
      }
      r := Some(items[id]);
      items := items - {id};
      var _ := progression.Remove(id);
    }

    method Update(id: Id, item: T) returns (ok: bool)
      requires Valid()
      modifies this
      ensures Valid() && ok == (id in old(items)) && items == if ok then old(items)[id := item] else old(items)
    {
      ok := id in items;
      if ok {
        items := items[id := item];
      }
    }

    /** Puts changed items back under the same keys. */
    method Replace(changed: map<Id, T>)
      requires Valid() && changed.Keys == items.Keys
      modifies this
      ensures Valid() && items == changed
    {
      items := changed;
    }

    /** Adds at the end unless present, and answers that the item is in the pile. */
    method Include(id: Id, item: T) returns (present: bool)
      requires Valid()
      modifies this, progression
      ensures Valid() && present && id in items
      ensures items == if id in old(items) then old(items) else old(items)[id := item]
      ensures progression.order == if id in old(items) then old(progression.order) else old(progression.order) + [id]
    {
      var _ := Add(id, item);
      present := true;
    }

    /** Removes if present, and answers that the item is not in the pile. */
    method Exclude(id: Id) returns (absent: bool)
      requires Valid()
      modifies this, progression
      ensures Valid() && absent && id !in items
      ensures items == old(items) - {id} && progression.order == RemoveFirst(old(progression.order), id)
    {
      var _ := Remove(id);
      absent := true;
    }

    method GetByIndex(index: int) returns (r: Option<T>)
      requires Valid()
      ensures var i := Normal(index, |progression.order|);
        if 0 <= i < |progression.order| then progression.order[i] in items && r == Some(items[progression.order[i]])
        else r.None?
    {
      var i := Normal(index, |progression.order|);
      if i < 0 || i >= |progression.order| {
        return None;
      }
      assert progression.order[i] in Elems(progression.order);
      return Some(items[progression.order[i]]);
    }
  }

  // ------------------------------------------------------------------ flows

  /** A progression as a flow stores it. */
  datatype Shelf = Shelf(name: Option<string>, order: seq<Id>)

  type Shelves = map<Id, Shelf>

  ghost predicate Integrity(shelves: Shelves, keys: set<Id>) {
    forall p :: p in shelves ==> Elems(shelves[p].order) <= keys
  }

  ghost predicate Unrepeated(shelves: Shelves) {
    forall p :: p in shelves ==> NoDuplicates(shelves[p].order)
  }

  /** The name index maps exactly the names in use, each to the progression that bears it. */
  ghost predicate Indexed(shelves: Shelves, names: map<string, Id>) {
    && (forall n :: n in names ==> names[n] in shelves && shelves[names[n]].name == Some(n))
    && (forall p :: p in shelves && shelves[p].name.Some? ==>
         shelves[p].name.value in names && names[shelves[p].name.value] == p)
  }

  ghost function WithoutItem(shelves: Shelves, x: Id, done: set<Id>): Shelves {
    map p | p in shelves :: if p in done then shelves[p].(order := RemoveFirst(shelves[p].order, x)) else shelves[p]
  }

  /** Removing one occurrence everywhere leaves no dangling reference exactly when no progression repeats the item. */
  lemma RemovalIntegrity(shelves: Shelves, keys: set<Id>, x: Id)
    requires Integrity(shelves, keys)
    ensures Integrity(WithoutItem(shelves, x, shelves.Keys), keys - {x}) <==>
            forall p :: p in shelves ==> multiset(shelves[p].order)[x] <= 1
  {
    var after := WithoutItem(shelves, x, shelves.Keys);
    forall p | p in shelves ensures Elems(after[p].order) <= keys - {x} <==> multiset(shelves[p].order)[x] <= 1 {
      var s := shelves[p].order;
      RemoveFirstElems(s, x);
      assert x in Elems(after[p].order) <==> x in after[p].order;
      assert Elems(after[p].order) <= Elems(s) + {x};
    }
    assert forall p :: p in after <==> p in shelves;
  }

  lemma RemovalUnrepeated(shelves: Shelves, x: Id)
    requires Unrepeated(shelves)
    ensures Unrepeated(WithoutItem(shelves, x, shelves.Keys))
    ensures forall p :: p in shelves ==> multiset(shelves[p].order)[x] <= 1
  {
    forall p | p in shelves
      ensures NoDuplicates(RemoveFirst(shelves[p].order, x)) && multiset(shelves[p].order)[x] <= 1 {
      RemoveKeepsUnique(shelves[p].order, x);
      NoDuplicatesCount(shelves[p].order);
    }
  }

  ghost function WithItem(shelves: Shelves, ps: seq<Id>, x: Id): Shelves
    requires forall i :: 0 <= i < |ps| ==> ps[i] in shelves
  {
    if ps == [] then shelves
    else
      var rest := WithItem(shelves, ps[..|ps| - 1], x);
      var p := ps[|ps| - 1];
      if p in rest then rest[p := rest[p].(order := rest[p].order + [x])] else rest
  }

  /** Appending a new item keeps integrity; it keeps progressions free of repeats when none is named twice. */
  lemma {:induction false} WithItemKeeps(shelves: Shelves, keys: set<Id>, ps: seq<Id>, x: Id)
    requires Integrity(shelves, keys) && x !in keys && forall i :: 0 <= i < |ps| ==> ps[i] in shelves
    ensures var after := WithItem(shelves, ps, x);
      && after.Keys == shelves.Keys && Integrity(after, keys + {x})
      && (forall p :: p in shelves ==> after[p].name == shelves[p].name && (p !in ps ==> after[p] == shelves[p]))
      && (Unrepeated(shelves) && NoDuplicates(ps) ==> Unrepeated(after))
  {
    if ps != [] {
      var n := |ps| - 1;
      WithItemKeeps(shelves, keys, ps[..n], x);
      var rest, p := WithItem(shelves, ps[..n], x), ps[n];
      ElemsAppend(rest[p].order, x);
      if Unrepeated(shelves) && NoDuplicates(ps) {
        assert p !in ps[..n] && rest[p] == shelves[p];
        assert x !in Elems(shelves[p].order);
        NoDuplicatesAppend(shelves[p].order, x);
      }
    }
  }

  /** Every named progression gets the item at its end, once for each time it is named; the others stay. */
  lemma {:induction false} WithItemMeans(shelves: Shelves, ps: seq<Id>, x: Id, p: Id)
    requires p in shelves && forall i :: 0 <= i < |ps| ==> ps[i] in shelves
    ensures var after := WithItem(shelves, ps, x);
      p in after && after[p] == shelves[p].(order := shelves[p].order + Copies(x, multiset(ps)[p]))
  {
    if ps == [] {
      assert shelves[p].order + Copies(x, 0) == shelves[p].order;
    } else {
      var n := |ps| - 1;
      WithItemMeans(shelves, ps[..n], x, p);
      assert ps == ps[..n] + [ps[n]];
      var k := multiset(ps[..n])[p];
      assert shelves[p].order + Copies(x, k) + [x] == shelves[p].order + Copies(x, k + 1);
    }
  }

  function Copies(x: Id, n: nat): (s: seq<Id>)
    ensures |s| == n && forall i :: 0 <= i < n ==> s[i] == x
  {
    seq(n, _ => x)
  }

  method AppendToAll(shelves: Shelves, ps: seq<Id>, x: Id) returns (after: Shelves)
    requires forall i :: 0 <= i < |ps| ==> ps[i] in shelves
    ensures after == WithItem(shelves, ps, x)
  {
    after := shelves;
    for k := 0 to |ps|
      invariant after.Keys == shelves.Keys && after == WithItem(shelves, ps[..k], x)
    {
      assert ps[..k + 1][..k] == ps[..k];
      after := after[ps[k] := after[ps[k]].(order := after[ps[k]].order + [x])];
    }
    assert ps[..|ps|] == ps;
  }

  lemma WithoutOneMore(shelves: Shelves, x: Id, done: set<Id>, p: Id)
    requires p in shelves && p !in done
    ensures var sofar := WithoutItem(shelves, x, done);
      && p in sofar && sofar[p] == shelves[p]
      && WithoutItem(shelves, x, done + {p}) ==
         if x in shelves[p].order then sofar[p := shelves[p].(order := RemoveFirst(shelves[p].order, x))] else sofar
  {
    Absent(shelves[p].order, x);
  }

  /** Takes one occurrence of `x` out of every progression that has it. */
  method RemoveFromAll(shelves: Shelves, order: seq<Id>, x: Id) returns (after: Shelves)
    requires NoDuplicates(order) && Elems(order) == shelves.Keys
    ensures after == WithoutItem(shelves, x, shelves.Keys)
  {
    after := shelves;
    for k := 0 to |order|
      invariant after == WithoutItem(shelves, x, Elems(order[..k]))
    {
      var p := order[k];
      assert p in Elems(order) && p !in Elems(order[..k]);
      assert order[..k + 1] == order[..k] + [p];
      ElemsAppend(order[..k], p);
      WithoutOneMore(shelves, x, Elems(order[..k]), p);
      if x in after[p].order {
        after := after[p := after[p].(order := RemoveFirst(after[p].order, x))];
      }
    }
    assert order[..|order|] == order;
  }

  class Flow<E> {
    const items: Pile<E>
    const progressions: Pile<Shelf>
    var names: map<string, Id>

    ghost predicate Owned()
      reads this
    {
      items.progression != progressions.progression && (items as object) != (progressions as object)
    }

    /** Both piles are in order, progressions refer only to stored items, and the name index is exact. */
    ghost predicate Valid()
      reads this, items, items.progression, progressions, progressions.progression
    {
      && Owned() && items.Valid() && progressions.Valid()
      && Integrity(progressions.items, items.items.Keys) && Indexed(progressions.items, names)
    }

    constructor ()
      ensures Valid() && items.items == map[] && progressions.items == map[] && names == map[]
      ensures fresh(items) && fresh(items.progression) && fresh(progressions) && fresh(progressions.progression)
    {
      items := new Pile<E>();
      progressions := new Pile<Shelf>();
      names := map[];
    }

    /** Adds a progression unless its name is taken, it refers to a missing item, or its identifier is in use. */
    method AddProgression(id: Id, shelf: Shelf) returns (ok: bool)
      requires Valid()
      modifies this, progressions, progressions.progression
      ensures Valid()
      ensures ok <==>
              (shelf.name.Some? ==> shelf.name.value !in old(names)) &&
              Elems(shelf.order) <= items.items.Keys && id !in old(progressions.items)
      ensures progressions.items == if ok then old(progressions.items)[id := shelf] else old(progressions.items)
      ensures !ok ==> names == old(names)
    {
      if shelf.name.Some? && shelf.name.value in names {
        return false;
      }
      var missing := set x | x in shelf.order && x !in items.items;
      if missing != {} {
        assert exists x :: x in missing && x in Elems(shelf.order);
        return false;
      }
      assert forall x :: x in Elems(shelf.order) ==> x !in missing;
      ok := progressions.Add(id, shelf);
      if ok && shelf.name.Some? {
        names := names[shelf.name.value := id];
      }
    }

    /** Removes a progression and its name. */
    method RemoveProgression(id: Id) returns (r: Option<Shelf>)
      requires Valid()
      modifies this, progressions, progressions.progression
      ensures Valid() && progressions.items == old(progressions.items) - {id}
      ensures r == if id in old(progressions.items) then Some(old(progressions.items)[id]) else None
    {
      r := progressions.Remove(id);
      if r.Some? && r.value.name.Some? && r.value.name.value in names {
        names := names - {r.value.name.value};
      }
    }

    /** Stores a new item and appends it to the named progressions; on any error nothing changes. */
    method AddItem(id: Id, item: E, ps: seq<Id>) returns (ok: bool)
      requires Valid()
      modifies items, items.progression, progressions
      ensures Valid()
      ensures ok <==> id !in old(items.items) && forall i :: 0 <= i < |ps| ==> ps[i] in old(progressions.items)
      ensures ok ==>
              items.items == old(items.items)[id := item] &&
              progressions.items == WithItem(old(progressions.items), ps, id)
      ensures !ok ==> items.items == old(items.items) && progressions.items == old(progressions.items)
      ensures ok && Unrepeated(old(progressions.items)) && NoDuplicates(ps) ==> Unrepeated(progressions.items)
    {
      for k := 0 to |ps|
        invariant forall i :: 0 <= i < k ==> ps[i] in progressions.items
      {
        if ps[k] !in progressions.items {
          return false;
        }
      }
      ok := items.Add(id, item);
      if !ok {
        return;
      }
      WithItemKeeps(progressions.items, old(items.items).Keys, ps, id);
      var shelves := AppendToAll(progressions.items, ps, id);
      progressions.Replace(shelves);
    }

    /** Takes one occurrence out of every progression and removes the item; all is in order when none repeats it. */
    method RemoveItem(id: Id) returns (r: Option<E>)
      requires Valid()
      modifies items, items.progression, progressions
      ensures items.items == old(items.items) - {id} &&
              r == if id in old(items.items) then Some(old(items.items)[id]) else None
      ensures progressions.items == WithoutItem(old(progressions.items), id, old(progressions.items).Keys)
      ensures Valid() <==>
              forall p :: p in old(progressions.items) ==> multiset(old(progressions.items)[p].order)[id] <= 1
      ensures Unrepeated(old(progressions.items)) ==> Valid() && Unrepeated(progressions.items)
    {
      RemovalIntegrity(progressions.items, items.items.Keys, id);
      if Unrepeated(progressions.items) {
        RemovalUnrepeated(progressions.items, id);
      }
      var shelves := RemoveFromAll(progressions.items, progressions.progression.order, id);
      progressions.Replace(shelves);
      r := items.Remove(id);
    }
  }
}
