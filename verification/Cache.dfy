/** The bounded decision cache against the plain history of what was set and removed. */
module DecisionCaches {
  import opened Options

  /** A cached value, when it was cached, and for how long it is good. */
  datatype Entry<V> = Entry(value: V, createdAt: real, ttl: real)

  predicate Expired<V>(e: Entry<V>, now: real) {
    now - e.createdAt > e.ttl
  }

  /** What happens to a cache, in order: a value is set, or keys go, whatever the cause. */
  datatype Event<V> = Put(key: string, entry: Entry<V>) | Gone(keys: set<string>)

  /** What the history leaves under a key. */
  ghost function Latest<V>(history: seq<Event<V>>, key: string): Option<Entry<V>> {
    if history == [] then None
    else
      var n := |history| - 1;
      match history[n]
      case Put(k, e) => if k == key then Some(e) else Latest(history[..n], key)
      case Gone(ks) => if key in ks then None else Latest(history[..n], key)
  }

  predicate Touches<V>(event: Event<V>, key: string) {
    match event
    case Put(k, _) => k == key
    case Gone(ks) => key in ks
  }

  /** An entry is left exactly when it was put there and nothing has touched its key since. */
  lemma {:induction false} LatestMeans<V>(history: seq<Event<V>>, key: string, e: Entry<V>)
    ensures Latest(history, key) == Some(e) <==>
            exists i :: 0 <= i < |history| && history[i] == Put(key, e) &&
                        forall j :: i < j < |history| ==> !Touches(history[j], key)
  {
    if history != [] {
      var n := |history| - 1;
      LatestMeans(history[..n], key, e);
      assert forall i :: 0 <= i < n ==> history[..n][i] == history[i];
    }
  }

  lemma LatestAppend<V>(history: seq<Event<V>>, event: Event<V>, key: string)
    ensures Latest(history + [event], key) ==
            if !Touches(event, key) then Latest(history, key) else if event.Put? then Some(event.entry) else None
  {
    assert (history + [event])[..|history|] == history;
  }

  /** A value put under the key, untouched since, and still within its lifetime. */
  ghost predicate Served<V>(history: seq<Event<V>>, key: string, now: real, value: V) {
    exists i :: 0 <= i < |history| && LastPut(history, key, i) &&
                now <= history[i].entry.createdAt + history[i].entry.ttl
                && history[i].entry.value == value
  }

  ghost predicate LastPut<V>(history: seq<Event<V>>, key: string, i: int)
    requires 0 <= i < |history|
  {
    history[i].Put? && history[i].key == key && forall j :: i < j < |history| ==> !Touches(history[j], key)
  }

  lemma ServedIsLatest<V>(history: seq<Event<V>>, key: string, now: real, value: V)
    ensures Served(history, key, now, value) <==>
            var e := Latest(history, key);
            e.Some? && !Expired(e.value, now) && e.value.value == value
  {
    if Latest(history, key).Some? {
      var e := Latest(history, key).value;
      LatestMeans(history, key, e);
      var i :| 0 <= i < |history| && history[i] == Put(key, e) &&
               forall j :: i < j < |history| ==> !Touches(history[j], key);
      assert LastPut(history, key, i);
    }
    forall i | 0 <= i < |history| && LastPut(history, key, i) ensures Latest(history, key) == Some(history[i].entry) {
      LatestMeans(history, key, history[i].entry);
    }
  }

  class DecisionCache<V> {
    const maxSize: int
    const enabled: bool
    const gateTtl: real
    const policyTtl: real
    const defaultTtl: real
    var cache: map<string, Entry<V>>
    var hits: nat
    var misses: nat
    var evictions: nat
    ghost var history: seq<Event<V>>
    ghost var gets: nat

    /** The cache is what the history leaves, never more than it may hold, and every get is counted once. */
    ghost predicate Valid()
      reads this
    {
      && (forall k :: Latest(history, k) == if k in cache then Some(cache[k]) else None)
      && |cache| <= Capacity()
      && hits + misses == gets
    }

    /** A bound below one still lets one entry in. */
    function Capacity(): nat {
      if maxSize >= 1 then maxSize else 1
    }

    constructor (maxSize: int, enabled: bool, gateTtl: real, policyTtl: real, defaultTtl: real)
      ensures Valid() && cache == map[] && this.maxSize == maxSize && this.enabled == enabled
      ensures this.gateTtl == gateTtl && this.policyTtl == policyTtl && this.defaultTtl == defaultTtl
    {
      this.maxSize, this.enabled := maxSize, enabled;
      this.gateTtl, this.policyTtl, this.defaultTtl := gateTtl, policyTtl, defaultTtl;
      cache, hits, misses, evictions, history, gets := map[], 0, 0, 0, [], 0;
    }

    /** Drops some keys. */
    method Drop(keys: set<string>)
      requires Valid()
      modifies this`cache, this`history
      ensures Valid() && cache == old(cache) - keys && history == old(history) + [Gone(keys)]
    {
      forall k
        ensures Latest(history + [Gone(keys)], k) == if k in cache - keys then Some((cache - keys)[k]) else None {
        LatestAppend(history, Gone(keys), k);
      }
      Shrinks(cache, keys);
      cache, history := cache - keys, history + [Gone(keys)];
    }

    /** A hit is the latest value set under the key, not dropped since and not expired; anything else is a miss. */
    method Get(key: string, now: real) returns (r: Option<V>)
      requires Valid()
      modifies this
      ensures Valid() && gets == old(gets) + (if enabled then 1 else 0)
      ensures enabled ==>
              r == var e := Latest(old(history), key);
                   if e.Some? && !Expired(e.value, now) then Some(e.value.value) else None
      ensures forall v :: r == Some(v) <==> enabled && Served(old(history), key, now, v)
      ensures !enabled ==> r.None? && cache == old(cache)
      ensures enabled ==> hits == old(hits) + (if r.Some? then 1 else 0)
      ensures enabled ==> misses == old(misses) + (if r.Some? then 0 else 1)
      ensures cache ==
              if key in old(cache) && enabled && Expired(old(cache)[key], now) then old(cache) - {key} else old(cache)
    {
      forall v {
        ServedIsLatest(history, key, now, v);
      }
      if !enabled {
        return None;
      }
      gets := gets + 1;
      if key !in cache {
        misses := misses + 1;
        return None;
      }
      var entry := cache[key];
      if Expired(entry, now) {
        misses := misses + 1;
        Drop({key});
        return None;
      }
      hits := hits + 1;
      return Some(entry.value);
    }

    function TtlFor(kind: string, ttl: Option<real>): (r: real)
      ensures ttl.Some? ==> r == ttl.value
      ensures ttl.None? && kind == "gate" ==> r == gateTtl
      ensures ttl.None? && kind == "policy" ==> r == policyTtl
      ensures ttl.None? && kind !in {"gate", "policy"} ==> r == defaultTtl
    {
      if ttl.Some? then ttl.value else if kind == "gate" then gateTtl
      else if kind == "policy" then policyTtl else defaultTtl
    }

    /** Stores a value; at capacity an oldest entry goes first, and only then. */
    method Set(key: string, kind: string, value: V, ttl: Option<real>, now: real)
      requires Valid()
      modifies this
      ensures Valid() && gets == old(gets) && (!enabled ==> cache == old(cache) && history == old(history))
      ensures enabled ==> Latest(history, key) == Some(Entry(value, now, TtlFor(kind, ttl)))
      ensures enabled && |old(cache)| < maxSize ==>
              cache == old(cache)[key := Entry(value, now, TtlFor(kind, ttl))] && evictions == old(evictions)
      ensures enabled && |old(cache)| >= maxSize && old(cache) != map[] ==>
                exists oldest :: IsOldest(old(cache), oldest) &&
                  cache == (old(cache) - {oldest})[key := Entry(value, now, TtlFor(kind, ttl))] &&
                  evictions == old(evictions) + 1
    {
      if !enabled {
        return;
      }
      ghost var before := cache;
      ghost var evicted := "";
      if |cache| >= maxSize && cache != map[] {
        var oldest := OldestKey();
        evicted := oldest;
        Drop({oldest});
        evictions := evictions + 1;
        OneFewer(before, oldest);
      }
      var event := Put(key, Entry(value, now, TtlFor(kind, ttl)));
      forall k
        ensures Latest(history + [event], k) ==
                if k in cache[key := event.entry] then Some(cache[key := event.entry][k]) else None {
        LatestAppend(history, event, k);
      }
      OneMore(cache, key, event.entry);
      cache, history := cache[key := event.entry], history + [event];
      assert before != map[] && |before| >= maxSize ==>
        IsOldest(before, evicted) && cache == (before - {evicted})[key := event.entry];
    }

    /** A key whose entry no other predates. */
    method OldestKey() returns (oldest: string)
      requires cache != map[]
      ensures IsOldest(cache, oldest)
    {
      var todo := cache.Keys;
      oldest :| oldest in todo;
      todo := todo - {oldest};
      while todo != {}
        invariant todo <= cache.Keys && oldest in cache
        invariant forall k :: k in cache && k !in todo ==> cache[oldest].createdAt <= cache[k].createdAt
      {
        var k :| k in todo;
        if cache[k].createdAt < cache[oldest].createdAt {
          oldest := k;
        }
        todo := todo - {k};
      }
    }

    method Invalidate(key: string) returns (found: bool)
      requires Valid()
      modifies this`cache, this`history
      ensures Valid() && found == (key in old(cache)) && cache == old(cache) - {key} && Latest(history, key).None?
    {
      found := key in cache;
      Drop({key});
    }

    /** Removes every entry whose key satisfies the test. */
    method InvalidateWhere(test: string -> bool) returns (count: nat)
      requires Valid()
      modifies this`cache, this`history
      ensures Valid() && cache == map k | k in old(cache) && !test(k) :: old(cache)[k]
      ensures count == |old(cache)| - |cache| && forall k :: test(k) ==> Latest(history, k).None?
    {
      var doomed := set k | k in cache && test(k);
      RemovedCount(cache, doomed);
      KeptWhere(cache, test, doomed);
      Drop(doomed);
      count := |doomed|;
    }

    method InvalidateByPrefix(prefix: string) returns (count: nat)
      requires Valid()
      modifies this`cache, this`history
      ensures Valid() && cache == map k | k in old(cache) && !At(k, 0, prefix) :: old(cache)[k]
      ensures count == |old(cache)| - |cache|
    {
      count := InvalidateWhere(k => At(k, 0, prefix));
    }

    /** Removes every entry whose key contains the tenant between two colons. */
    method InvalidateByTenant(tenant: string) returns (count: nat)
      requires Valid()
      modifies this`cache, this`history
      ensures Valid() && cache == map k | k in old(cache) && !Contains(k, ":" + tenant + ":") :: old(cache)[k]
      ensures count == |old(cache)| - |cache|
    {
      count := InvalidateWhere(k => Contains(k, ":" + tenant + ":"));
    }

    method Clear() returns (count: nat)
      requires Valid()
      modifies this`cache, this`history
      ensures Valid() && cache == map[] && count == |old(cache)|
    {
      count := InvalidateWhere(k => true);
    }

    method CleanupExpired(now: real) returns (count: nat)
      requires Valid()
      modifies this`cache, this`history
      ensures Valid() && cache == map k | k in old(cache) && !Expired(old(cache)[k], now) :: old(cache)[k]
      ensures forall k :: k in cache <==> k in old(cache) && now <= old(cache)[k].createdAt + old(cache)[k].ttl
      ensures count == |old(cache)| - |cache|
    {
      var doomed := set k | k in cache && Expired(cache[k], now);
      RemovedCount(cache, doomed);
      Drop(doomed);
      count := |doomed|;
    }
  }

  ghost predicate IsOldest<V>(cache: map<string, Entry<V>>, key: string) {
    key in cache && forall k :: k in cache ==> cache[key].createdAt <= cache[k].createdAt
  }

  lemma RemovedCount<V>(m: map<string, V>, keys: set<string>)
    requires keys <= m.Keys
    ensures |m - keys| == |m| - |keys|
  {
    assert (m - keys).Keys == m.Keys - keys;
    assert |m| == |m.Keys| && |m - keys| == |(m - keys).Keys|;
  }

  lemma KeptWhere<V>(m: map<string, V>, test: string -> bool, keys: set<string>)
    requires forall k :: k in keys <==> k in m && test(k)
    ensures m - keys == map k | k in m && !test(k) :: m[k]
    ensures forall k :: test(k) ==> k !in m - keys
  {
  }

  lemma Shrinks<V>(m: map<string, V>, keys: set<string>)
    ensures |m - keys| <= |m|
  {
    var present := set k | k in m && k in keys;
    assert m - keys == m - present;
    RemovedCount(m, present);
  }

  lemma OneFewer<V>(m: map<string, V>, key: string)
    requires key in m
    ensures |m - {key}| == |m| - 1
  {
    RemovedCount(m, {key});
  }

  lemma OneMore<V>(m: map<string, V>, key: string, v: V)
    ensures |m[key := v]| <= |m| + 1
  {
    assert m[key := v].Keys == m.Keys + {key};
    assert |m| == |m.Keys| && |m[key := v]| == |m[key := v].Keys|;
  }

  // ------------------------------------------------------------------ key strings

  predicate At(s: string, i: nat, sub: string) {
    i + |sub| <= |s| && s[i..i + |sub|] == sub
  }

  predicate Contains(s: string, sub: string) {
    exists i: nat :: i <= |s| && At(s, i, sub)
  }

  datatype CacheKey = CacheKey(kind: string, id: string, tenant: string, scope: string, contextHash: string)

  function KeyText(k: CacheKey): string {
    k.kind + ":" + (k.id + ":" + (k.tenant + ":" + (k.scope + ":" + k.contextHash)))
  }

  predicate ColonFree(k: CacheKey) {
    ':' !in k.kind && ':' !in k.id && ':' !in k.tenant && ':' !in k.scope && ':' !in k.contextHash
  }

  function Colons(s: string): nat {
    multiset(s)[':']
  }

  lemma ColonsJoin(x: string, r: string)
    ensures Colons(x + ":" + r) == Colons(x) + 1 + Colons(r)
    ensures Colons(x) == 0 <==> ':' !in x
  {
    assert multiset(x + ":" + r) == multiset(x) + multiset(":") + multiset(r);
    assert ':' in x <==> ':' in multiset(x);
  }

  lemma FirstColon(x: string, r: string, y: string, s: string)
    requires ':' !in x && ':' !in y && x + ":" + r == y + ":" + s
    ensures x == y && r == s
  {
    var a, b := x + ":" + r, y + ":" + s;
    assert a[|x|] == ':' && b[|y|] == ':';
    assert forall i :: 0 <= i < |x| ==> a[i] == x[i] && x[i] in x;
    assert forall i :: 0 <= i < |y| ==> b[i] == y[i] && y[i] in y;
    assert |x| == |y|;
    assert x == a[..|x|] && y == b[..|y|] && r == a[|x| + 1..] && s == b[|y| + 1..];
  }

  /** A key text has four colons and those of its parts. */
  lemma KeyColons(k: CacheKey)
    ensures Colons(KeyText(k)) >= 4 && (Colons(KeyText(k)) == 4 <==> ColonFree(k))
  {
    var t4 := k.scope + ":" + k.contextHash;
    var t3 := k.tenant + ":" + t4;
    ColonsJoin(k.scope, k.contextHash);
    ColonsJoin(k.contextHash, "");
    ColonsJoin(k.tenant, t4);
    ColonsJoin(k.id, t3);
    ColonsJoin(k.kind, k.id + ":" + t3);
  }

  /** A key without colons in its parts shares its slot with no other key at all. */
  lemma KeyTextUnique(a: CacheKey, b: CacheKey)
    requires ColonFree(a) && KeyText(a) == KeyText(b)
    ensures a == b
  {
    KeyColons(a);
    KeyColons(b);
    var a4, b4 := a.scope + ":" + a.contextHash, b.scope + ":" + b.contextHash;
    var a3, b3 := a.tenant + ":" + a4, b.tenant + ":" + b4;
    var a2, b2 := a.id + ":" + a3, b.id + ":" + b3;
    FirstColon(a.kind, a2, b.kind, b2);
    FirstColon(a.id, a3, b.id, b3);
    FirstColon(a.tenant, a4, b.tenant, b4);
    FirstColon(a.scope, a.contextHash, b.scope, b.contextHash);
  }

  lemma AtColon(s: string) returns (x: string, y: string)
    requires ':' in s
    ensures s == x + ":" + y
  {
    var i :| 0 <= i < |s| && s[i] == ':';
    x, y := s[..i], s[i + 1..];
  }

  lemma Regroup(x: string, y: string, r: string)
    ensures (x + ":" + y) + ":" + r == x + ":" + (y + ":" + r)
  {
  }

  /** A key of another tenant with the same text: one colon moves across the tenant's boundary. */
  lemma SharedSlot(a: CacheKey) returns (b: CacheKey)
    requires !ColonFree(a)
    ensures KeyText(b) == KeyText(a) && b.tenant != a.tenant
  {
    var last := a.scope + ":" + a.contextHash;
    if ':' in a.kind {
      var x, y := AtColon(a.kind);
      Regroup(x, y, a.id + ":" + (a.tenant + ":" + last));
      Regroup(a.id, a.tenant, last);
      b := CacheKey(x, y, a.id + ":" + a.tenant, a.scope, a.contextHash);
      assert |b.tenant| > |a.tenant|;
    } else if ':' in a.id {
      var x, y := AtColon(a.id);
      Regroup(x, y, a.tenant + ":" + last);
      Regroup(y, a.tenant, last);
      b := CacheKey(a.kind, x, y + ":" + a.tenant, a.scope, a.contextHash);
      assert |b.tenant| > |a.tenant|;
    } else if ':' in a.tenant {
      var x, y := AtColon(a.tenant);
      Regroup(x, y, last);
      Regroup(a.id, x, y + ":" + last);
      b := CacheKey(a.kind, a.id + ":" + x, y, a.scope, a.contextHash);
      assert |b.tenant| < |a.tenant|;
    } else if ':' in a.scope {
      var x, y := AtColon(a.scope);
      Regroup(x, y, a.contextHash);
      Regroup(a.tenant, x, y + ":" + a.contextHash);
      b := CacheKey(a.kind, a.id, a.tenant + ":" + x, y, a.contextHash);
      assert |b.tenant| > |a.tenant|;
    } else {
      var x, y := AtColon(a.contextHash);
      Regroup(a.tenant, a.scope, a.contextHash);
      b := CacheKey(a.kind, a.id, a.tenant + ":" + a.scope, x, y);
      assert |b.tenant| > |a.tenant|;
    }
  }

  /** A key shares its slot with a key of another tenant exactly when one of its parts contains a colon. */
  lemma KeyTextShared(a: CacheKey)
    ensures (exists b :: KeyText(b) == KeyText(a) && b.tenant != a.tenant) <==> !ColonFree(a)
  {
    if ColonFree(a) {
      forall b | KeyText(b) == KeyText(a) ensures b.tenant == a.tenant {
        KeyTextUnique(a, b);
      }
    } else {
      var b := SharedSlot(a);
    }
  }

  lemma AtShift(p: string, r: string, i: nat, sub: string)
    ensures At(p + r, |p| + i, sub) <==> At(r, i, sub)
  {
    if i + |sub| <= |r| {
      assert (p + r)[|p| + i..|p| + i + |sub|] == r[i..i + |sub|];
    }
  }

  lemma AtHead(s: string, i: nat, c: char, sub: string)
    ensures At(s, i, [c] + sub) <==> i < |s| && s[i] == c && At(s, i + 1, sub)
  {
    if i + 1 + |sub| <= |s| {
      assert s[i..i + 1 + |sub|] == [s[i]] + s[i + 1..i + 1 + |sub|];
    }
  }

  /** A colon-free word stands between two colons of `x:r` right after the first colon, or further on. */
  lemma WordAfter(x: string, r: string, w: string)
    requires ':' !in x && ':' !in w
    ensures Contains(x + ":" + r, ":" + w + ":") <==> At(r, 0, w + ":") || Contains(r, ":" + w + ":")
  {
    var p, s, sub := x + ":", x + ":" + r, ":" + w + ":";
    assert sub == [':'] + (w + ":");
    AtHead(s, |x|, ':', w + ":");
    AtShift(p, r, 0, w + ":");
    if i: nat :| i <= |r| && At(r, i, sub) {
      AtShift(p, r, i, sub);
    }
    if i: nat :| i <= |s| && At(s, i, sub) {
      AtHead(s, i, ':', w + ":");
      assert forall j :: 0 <= j < |x| ==> s[j] == x[j] && x[j] in x;
      if i > |x| {
        AtShift(p, r, i - |p|, sub);
      }
    }
  }

  lemma WordFirst(y: string, r: string, w: string)
    requires ':' !in y && ':' !in w
    ensures At(y + ":" + r, 0, w + ":") <==> y == w
  {
    var s := y + ":" + r;
    if At(s, 0, w + ":") {
      assert s == w + ":" + s[|w| + 1..];
      FirstColon(y, r, w, s[|w| + 1..]);
    }
    assert s[0..|y| + 1] == y + ":";
  }

  lemma WordIn(x: string, y: string, r: string, w: string)
    requires ':' !in x && ':' !in y && ':' !in w
    ensures Contains(x + ":" + (y + ":" + r), ":" + w + ":") <==> y == w || Contains(y + ":" + r, ":" + w + ":")
  {
    WordAfter(x, y + ":" + r, w);
    WordFirst(y, r, w);
  }

  /**
   * The tenant test on a key without colons: it holds exactly when the id, the tenant or the scope
   * is the word, so invalidating a tenant also drops entries that merely use its name elsewhere.
   */
  lemma TenantTest(k: CacheKey, w: string)
    requires ColonFree(k) && ':' !in w
    ensures Contains(KeyText(k), ":" + w + ":") <==> k.id == w || k.tenant == w || k.scope == w
  {
    var last := k.scope + ":" + k.contextHash;
    WordIn(k.kind, k.id, k.tenant + ":" + last, w);
    WordIn(k.id, k.tenant, last, w);
    WordIn(k.tenant, k.scope, k.contextHash, w);
    WordAfter(k.scope, k.contextHash, w);
    NoColonNoWord(k.contextHash, w);
  }

  /** The prefix test on a key without colons: it compares the kind, the id, the tenant and the scope, in this order. */
  lemma PrefixTest(k: CacheKey, kind: string, id: string, tenant: string, scope: string)
    requires ColonFree(k) && ':' !in kind && ':' !in id && ':' !in tenant && ':' !in scope
    ensures At(KeyText(k), 0, kind + ":") <==> k.kind == kind
    ensures At(KeyText(k), 0, kind + ":" + (id + ":")) <==> k.kind == kind && k.id == id
    ensures At(KeyText(k), 0, kind + ":" + (id + ":" + (tenant + ":" + (scope + ":")))) <==>
            k.kind == kind && k.id == id && k.tenant == tenant && k.scope == scope
  {
    var t4 := k.scope + ":" + k.contextHash;
    var t3 := k.tenant + ":" + t4;
    var t2 := k.id + ":" + t3;
    WordFirst(k.kind, t2, kind);
    WordThen(k.kind, t2, kind, id + ":");
    WordFirst(k.id, t3, id);
    WordThen(k.kind, t2, kind, id + ":" + (tenant + ":" + (scope + ":")));
    WordThen(k.id, t3, id, tenant + ":" + (scope + ":"));
    WordThen(k.tenant, t4, tenant, scope + ":");
    WordFirst(k.scope, k.contextHash, scope);
  }

  lemma WordThen(y: string, r: string, w: string, more: string)
    requires ':' !in y && ':' !in w
    ensures At(y + ":" + r, 0, w + ":" + more) <==> y == w && At(r, 0, more)
  {
    var s, sub := y + ":" + r, w + ":" + more;
    if At(s, 0, sub) {
      assert s == w + ":" + (more + s[|sub|..]);
      FirstColon(y, r, w, more + s[|sub|..]);
      assert r[0..|more|] == more;
    }
    if y == w && At(r, 0, more) {
      assert s[0..|sub|] == y + ":" + r[0..|more|];
    }
  }

  lemma NoColonNoWord(s: string, w: string)
    requires ':' !in s
    ensures !At(s, 0, w + ":") && !Contains(s, ":" + w + ":")
  {
    forall i: nat ensures !At(s, i, ":" + w + ":") {
      if At(s, i, ":" + w + ":") {
        AtMember(s, i, ":" + w + ":", 0);
      }
    }
    if At(s, 0, w + ":") {
      AtMember(s, 0, w + ":", |w|);
    }
  }

  lemma AtMember(s: string, i: nat, sub: string, j: nat)
    requires At(s, i, sub) && j < |sub|
    ensures sub[j] in s
  {
    assert s[i + j] == s[i..i + |sub|][j];
  }
}
