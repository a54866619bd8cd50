/** The shared key-value store: entries with a time to live, sliding-window sets, and the
    in-process MemoryStore that implements them with lazy eviction and eager purging.

    Two descriptions are related. `Ideal` is the simple one: nothing is ever evicted, an
    entry past its deadline just stops being visible, and a window set remembers every
    timestamp ever added. `Evicting` is what MemoryStore does. Over any run under a
    monotone clock with one window per set the two answer alike. */
module TimedStore {
  import opened Options

  datatype Entry<+V> = Entry(value: V, expires: Option<int>)

  /** An entry is dead only strictly after its deadline. */
  predicate Live<V>(e: Entry<V>, now: int) {
    e.expires.Some? ==> now <= e.expires.value
  }

  predicate Alive<K, V>(kv: map<K, Entry<V>>, k: K, now: int) {
    k in kv && Live(kv[k], now)
  }

  function Peek<K, V>(kv: map<K, Entry<V>>, k: K, now: int): Option<V> {
    if Alive(kv, k, now) then Some(kv[k].value) else None
  }

  /** A time to live of zero means no deadline at all. */
  function Stamp<V>(v: V, ex: nat, now: int): Entry<V> {
    Entry(v, if ex == 0 then None else Some(now + ex))
  }

  function PutIfAbsent<K, V>(kv: map<K, Entry<V>>, k: K, v: V, ex: nat, now: int): map<K, Entry<V>> {
    if Alive(kv, k, now) then kv else kv[k := Stamp(v, ex, now)]
  }

  function DropIfValue<K, V(==)>(kv: map<K, Entry<V>>, k: K, v: V, now: int): map<K, Entry<V>> {
    if Peek(kv, k, now) == Some(v) then kv - {k} else kv
  }

  /** The timestamps of a window set that are not older than lo. */
  function Since(ts: seq<int>, lo: int): seq<int> {
    if ts == [] then [] else (if ts[0] >= lo then [ts[0]] else []) + Since(ts[1..], lo)
  }

  lemma {:induction false} SinceAppend(a: seq<int>, b: seq<int>, lo: int)
    ensures Since(a + b, lo) == Since(a, lo) + Since(b, lo)
  {
    if a == [] {
      assert a + b == b;
    } else {
      SinceAppend(a[1..], b, lo);
      assert (a + b)[0] == a[0] && (a + b)[1..] == a[1..] + b;
      assert Since(a + b, lo) == (if a[0] >= lo then [a[0]] else []) + Since(a[1..] + b, lo);
    }
  }

  /** Purging what is older than an earlier limit never changes what a later limit keeps. */
  lemma {:induction false} SinceOfSince(ts: seq<int>, lo: int, later: int)
    requires lo <= later
    ensures Since(Since(ts, lo), later) == Since(ts, later)
  {
    if ts != [] {
      SinceOfSince(ts[1..], lo, later);
      SinceAppend(if ts[0] >= lo then [ts[0]] else [], Since(ts[1..], lo), later);
    }
  }

  datatype Store<K, V, Z> = Store(kv: map<K, Entry<V>>, sets: map<Z, seq<int>>)

  function Marks<K, V, Z>(s: Store<K, V, Z>, z: Z): seq<int> {
    if z in s.sets then s.sets[z] else []
  }

  datatype Op<K, V, Z> =
    | Get(key: K)
    | Set(key: K, val: V, ex: nat)
    | SetNx(key: K, val: V, ex: nat)
    | DeleteIfValue(key: K, val: V)
    | ZAddWindow(zset: Z)
    | ZCountWindow(zset: Z)

  datatype StoreReply<V> = Found(found: Option<V>) | Flag(flag: bool) | Size(size: nat)

  /** Nothing is ever forgotten; visibility is decided by the clock alone. */
  function Ideal<K, V(==), Z>(s: Store<K, V, Z>, op: Op<K, V, Z>, now: int, window: Z -> nat)
    : (Store<K, V, Z>, StoreReply<V>)
  {
    match op
    case Get(k) => (s, Found(Peek(s.kv, k, now)))
    case Set(k, v, ex) => (s.(kv := s.kv[k := Stamp(v, ex, now)]), Flag(true))
    case SetNx(k, v, ex) =>
      (s.(kv := PutIfAbsent(s.kv, k, v, ex, now)), Flag(!Alive(s.kv, k, now)))
    case DeleteIfValue(k, v) =>
      (s.(kv := DropIfValue(s.kv, k, v, now)), Flag(Peek(s.kv, k, now) == Some(v)))
    case ZAddWindow(z) =>
      var ts := Marks(s, z) + [now];
      (s.(sets := s.sets[z := ts]), Size(|Since(ts, now - window(z))|))
    case ZCountWindow(z) => (s, Size(|Since(Marks(s, z), now - window(z))|))
  }

  /** What `_alive` does on the side: it pops a dead entry. */
  function Evict<K, V>(kv: map<K, Entry<V>>, k: K, now: int): map<K, Entry<V>> {
    if k in kv && !Live(kv[k], now) then kv - {k} else kv
  }

  function Evicting<K, V(==), Z>(s: Store<K, V, Z>, op: Op<K, V, Z>, now: int, window: Z -> nat)
    : (Store<K, V, Z>, StoreReply<V>)
  {
    match op
    case Get(k) => (s.(kv := Evict(s.kv, k, now)), Found(Peek(s.kv, k, now)))
    case Set(k, v, ex) => (s.(kv := s.kv[k := Stamp(v, ex, now)]), Flag(true))
    case SetNx(k, v, ex) =>
      (s.(kv := PutIfAbsent(Evict(s.kv, k, now), k, v, ex, now)), Flag(!Alive(s.kv, k, now)))
    case DeleteIfValue(k, v) =>
      (s.(kv := DropIfValue(Evict(s.kv, k, now), k, v, now)), Flag(Peek(s.kv, k, now) == Some(v)))
    case ZAddWindow(z) =>
      var ts := Since(Marks(s, z), now - window(z)) + [now];
      (s.(sets := s.sets[z := ts]), Size(|ts|))
    case ZCountWindow(z) => (s, Size(|Since(Marks(s, z), now - window(z))|))
  }

  /** The evicting map holds nothing the ideal one does not, and everything it lost is dead. */
  ghost predicate KvSimulates<K(!new), V>(e: map<K, Entry<V>>, i: map<K, Entry<V>>, now: int) {
    && (forall k | k in e :: k in i && i[k] == e[k])
    && (forall k | k in i && k !in e :: !Live(i[k], now))
  }

  /** Every window set agrees on the part still inside its window. */
  ghost predicate SetsSimulate<K, V, Z(!new)>(e: Store<K, V, Z>, i: Store<K, V, Z>, now: int, window: Z -> nat) {
    forall z :: Since(Marks(e, z), now - window(z)) == Since(Marks(i, z), now - window(z))
  }

  ghost predicate Simulates<K(!new), V, Z(!new)>(e: Store<K, V, Z>, i: Store<K, V, Z>, now: int, window: Z -> nat) {
    KvSimulates(e.kv, i.kv, now) && SetsSimulate(e, i, now, window)
  }

  lemma LaterStillSimulates<K(!new), V, Z(!new)>(
    e: Store<K, V, Z>, i: Store<K, V, Z>, now: int, later: int, window: Z -> nat)
    requires Simulates(e, i, now, window) && now <= later
    ensures Simulates(e, i, later, window)
  {
    forall z ensures Since(Marks(e, z), later - window(z)) == Since(Marks(i, z), later - window(z)) {
      SinceOfSince(Marks(e, z), now - window(z), later - window(z));
      SinceOfSince(Marks(i, z), now - window(z), later - window(z));
    }
  }

  lemma EvictSimulates<K(!new), V>(e: map<K, Entry<V>>, i: map<K, Entry<V>>, k: K, now: int)
    requires KvSimulates(e, i, now)
    ensures Peek(e, k, now) == Peek(i, k, now)
    ensures KvSimulates(Evict(e, k, now), i, now)
    ensures Peek(Evict(e, k, now), k, now) == Peek(i, k, now)
    ensures Alive(Evict(e, k, now), k, now) == Alive(i, k, now) == Alive(e, k, now)
  {
  }

  lemma AddSimulates<K, V, Z(!new)>(e: Store<K, V, Z>, i: Store<K, V, Z>, z: Z, now: int, window: Z -> nat)
    requires SetsSimulate(e, i, now, window)
    ensures Evicting(e, ZAddWindow(z), now, window).1 == Ideal(i, ZAddWindow(z), now, window).1
    ensures SetsSimulate(Evicting(e, ZAddWindow(z), now, window).0, Ideal(i, ZAddWindow(z), now, window).0, now, window)
  {
    var lo := now - window(z);
    SinceAppend(Since(Marks(e, z), lo), [now], lo);
    SinceAppend(Marks(i, z), [now], lo);
    SinceOfSince(Marks(e, z), lo, lo);
    var e', i' := Evicting(e, ZAddWindow(z), now, window).0, Ideal(i, ZAddWindow(z), now, window).0;
    forall y ensures Since(Marks(e', y), now - window(y)) == Since(Marks(i', y), now - window(y)) {
      if y != z {
        assert Marks(e', y) == Marks(e, y) && Marks(i', y) == Marks(i, y);
      }
    }
  }

  lemma KvOpSimulates<K(!new), V, Z>(
    e: Store<K, V, Z>, i: Store<K, V, Z>, op: Op<K, V, Z>, now: int, window: Z -> nat)
    requires KvSimulates(e.kv, i.kv, now)
    requires !op.ZAddWindow? && !op.ZCountWindow?
    ensures Evicting(e, op, now, window).1 == Ideal(i, op, now, window).1
    ensures KvSimulates(Evicting(e, op, now, window).0.kv, Ideal(i, op, now, window).0.kv, now)
  {
    EvictSimulates(e.kv, i.kv, op.key, now);
  }

  lemma OpSimulates<K(!new), V, Z(!new)>(
    e: Store<K, V, Z>, i: Store<K, V, Z>, op: Op<K, V, Z>, now: int, window: Z -> nat)
    requires Simulates(e, i, now, window)
    ensures Evicting(e, op, now, window).1 == Ideal(i, op, now, window).1
    ensures Simulates(Evicting(e, op, now, window).0, Ideal(i, op, now, window).0, now, window)
  {
    if op.ZAddWindow? {
      AddSimulates(e, i, op.zset, now, window);
    } else if op.ZCountWindow? {
      assert |Since(Marks(e, op.zset), now - window(op.zset))| == |Since(Marks(i, op.zset), now - window(op.zset))|;
    } else {
      KvOpSimulates(e, i, op, now, window);
      var e', i' := Evicting(e, op, now, window).0, Ideal(i, op, now, window).0;
      forall z ensures Since(Marks(e', z), now - window(z)) == Since(Marks(i', z), now - window(z)) {
        assert Marks(e', z) == Marks(e, z) && Marks(i', z) == Marks(i, z);
      }
    }
  }

  datatype At<K, V, Z> = At(at: int, op: Op<K, V, Z>)

  predicate Monotone<K, V, Z>(ops: seq<At<K, V, Z>>, from: int) {
    && (|ops| > 0 ==> from <= ops[0].at)
    && forall i | 0 < i < |ops| :: ops[i - 1].at <= ops[i].at
  }

  function IdealReplies<K, V(==), Z>(s: Store<K, V, Z>, ops: seq<At<K, V, Z>>, window: Z -> nat): seq<StoreReply<V>>
    decreases |ops|
  {
    if ops == [] then [] else
      var (t, r) := Ideal(s, ops[0].op, ops[0].at, window);
      [r] + IdealReplies(t, ops[1..], window)
  }

  function EvictingReplies<K, V(==), Z>(s: Store<K, V, Z>, ops: seq<At<K, V, Z>>, window: Z -> nat): seq<StoreReply<V>>
    decreases |ops|
  {
    if ops == [] then [] else
      var (t, r) := Evicting(s, ops[0].op, ops[0].at, window);
      [r] + EvictingReplies(t, ops[1..], window)
  }

  /** No run can tell MemoryStore from a store that never forgets. */
  lemma {:induction false} EvictionIsInvisible<K(!new), V, Z(!new)>(
    e: Store<K, V, Z>, i: Store<K, V, Z>, ops: seq<At<K, V, Z>>, from: int, window: Z -> nat)
    requires Simulates(e, i, from, window)
    requires Monotone(ops, from)
    ensures EvictingReplies(e, ops, window) == IdealReplies(i, ops, window)
    decreases |ops|
  {
    if ops != [] {
      LaterStillSimulates(e, i, from, ops[0].at, window);
      OpSimulates(e, i, ops[0].op, ops[0].at, window);
      assert forall j | 0 < j < |ops[1..]| :: ops[1..][j - 1] == ops[j] && ops[1..][j] == ops[j + 1];
      EvictionIsInvisible(Evicting(e, ops[0].op, ops[0].at, window).0,
                          Ideal(i, ops[0].op, ops[0].at, window).0, ops[1..], ops[0].at, window);
    }
  }

  /** In particular none that starts with an empty store. */
  lemma FromEmptyNothingShows<K(!new), V, Z(!new)>(ops: seq<At<K, V, Z>>, from: int, window: Z -> nat)
    requires Monotone(ops, from)
    ensures EvictingReplies(Store(map[], map[]), ops, window) == IdealReplies(Store(map[], map[]), ops, window)
  {
    EvictionIsInvisible<K, V, Z>(Store(map[], map[]), Store(map[], map[]), ops, from, window);
  }

  /** The in-process store. Every method is one operation of `Evicting` at the time it reads. */
  class MemoryStore<K(==), V(==), Z(==)> {
    var kv: map<K, Entry<V>>
    var sets: map<Z, seq<int>>

    ghost function Contents(): Store<K, V, Z>
      reads this
    {
      Store(kv, sets)
    }

    constructor ()
      ensures Contents() == Store(map[], map[])
    {
      kv, sets := map[], map[];
    }

    /** Lazy expiry: looking at a dead entry removes it. */
    method CheckAlive(key: K, now: int) returns (alive: bool)
      modifies this`kv
      ensures alive == Alive(old(kv), key, now)
      ensures kv == Evict(old(kv), key, now)
    {
      if key !in kv {
        return false;
      }
      var item := kv[key];
      if item.expires.Some? && item.expires.value < now {
        kv := kv - {key};
        return false;
      }
      return true;
    }

    method Get(key: K, now: int, ghost window: Z -> nat) returns (value: Option<V>)
      modifies this`kv
      ensures (Contents(), Found(value)) == Evicting(old(Contents()), Op.Get(key), now, window)
    {
      var alive := CheckAlive(key, now);
      value := if alive then Some(kv[key].value) else None;
    }

    method Set(key: K, value: V, ex: nat, now: int, ghost window: Z -> nat) returns (ok: bool)
      modifies this`kv
      ensures (Contents(), Flag(ok)) == Evicting(old(Contents()), Op.Set(key, value, ex), now, window)
    {
      kv := kv[key := Stamp(value, ex, now)];
      ok := true;
    }

    method SetNx(key: K, value: V, ex: nat, now: int, ghost window: Z -> nat) returns (ok: bool)
      modifies this`kv
      ensures (Contents(), Flag(ok)) == Evicting(old(Contents()), Op.SetNx(key, value, ex), now, window)
    {
      var alive := CheckAlive(key, now);
      if alive {
        return false;
      }
      kv := kv[key := Stamp(value, ex, now)];
      ok := true;
    }

    method DeleteIfValue(key: K, value: V, now: int, ghost window: Z -> nat) returns (ok: bool)
      modifies this`kv
      ensures (Contents(), Flag(ok)) == Evicting(old(Contents()), Op.DeleteIfValue(key, value), now, window)
    {
      var alive := CheckAlive(key, now);
      if alive && kv[key].value == value {
        kv := kv - {key};
        return true;
      }
      ok := false;
    }

    /** Purge, add, count. */
    method ZAddWindow(key: Z, windowSeconds: nat, now: int, ghost window: Z -> nat) returns (size: nat)
      requires windowSeconds == window(key)
      modifies this`sets
      ensures (Contents(), Size(size)) == Evicting(old(Contents()), Op.ZAddWindow(key), now, window)
    {
      var z := if key in sets then sets[key] else [];
      var kept := [];
      for i := 0 to |z|
        invariant sets == old(sets)
        invariant kept == Since(z[..i], now - windowSeconds)
      {
        assert z[..i + 1] == z[..i] + [z[i]];
        SinceAppend(z[..i], [z[i]], now - windowSeconds);
        if z[i] >= now - windowSeconds {
          kept := kept + [z[i]];
        }
      }
      assert z[..|z|] == z;
      kept := kept + [now];
      sets := sets[key := kept];
      size := |kept|;
    }

    method ZCountWindow(key: Z, windowSeconds: nat, now: int, ghost window: Z -> nat) returns (size: nat)
      requires windowSeconds == window(key)
      ensures (Contents(), Size(size)) == Evicting(Contents(), Op.ZCountWindow(key), now, window)
    {
      var z := if key in sets then sets[key] else [];
      size := 0;
      for i := 0 to |z|
        invariant size == |Since(z[..i], now - windowSeconds)|
      {
        assert z[..i + 1] == z[..i] + [z[i]];
        SinceAppend(z[..i], [z[i]], now - windowSeconds);
        if z[i] >= now - windowSeconds {
          size := size + 1;
        }
      }
      assert z[..|z|] == z;
    }
  }
}
