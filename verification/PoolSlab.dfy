/**
 The connection pool's slab and index as values: what each step under a lock does
 (src/operator/connection.rs), and what holds under every interleaving of lends and evictions.
 Module Pool holds the mutable pool and is proved against these functions.
 */
module PoolSlab {
  import opened Basics

  type Key = string

  // A channel remembers the address it was connected to.
  datatype Channel = Channel(target: Key, serial: nat)

  datatype PoolEntry = PoolEntry(channel: Channel, lastUsed: nat)

  const SLAB_SIZE: nat := 64

  datatype Slab = Slab(entries: seq<Option<PoolEntry>>, index: map<Key, nat>) {

    ghost predicate WellFormed() {
      && |entries| == SLAB_SIZE
      && forall k :: k in index ==> index[k] < SLAB_SIZE
    }

    // The index is injective and every key leads to an occupied slot holding its own channel.
    ghost predicate Sound() {
      && WellFormed()
      && (forall k, l :: k in index && l in index && index[k] == index[l] ==> k == l)
      && (forall k :: k in index ==> entries[index[k]].Some? && entries[index[k]].value.channel.target == k)
    }

    // Occupied slots no key leads to.
    ghost function Orphans(): set<nat>
      requires WellFormed()
    {
      set i: nat | i < SLAB_SIZE && entries[i].Some? && i !in index.Values
    }

    ghost function Occupied(): set<nat>
      requires WellFormed()
    {
      set i: nat | i < SLAB_SIZE && entries[i].Some?
    }

    // The keyed map the pool stands for.
    ghost function Cache(): map<Key, PoolEntry>
      requires Sound()
    {
      map k | k in index :: entries[index[k]].value
    }
  }

  ghost function EmptySlab(): Slab {
    Slab(seq(SLAB_SIZE, i => None), map[])
  }

  // ----------------------------------------------------------------- steps

  function IdleFor(e: PoolEntry, now: nat): nat {
    if e.lastUsed <= now then now - e.lastUsed else 0
  }

  // Fast path: the entry of an indexed key is used again.
  ghost predicate CanHit(s: Slab, k: Key)
    requires s.WellFormed()
  {
    k in s.index && s.entries[s.index[k]].Some?
  }

  ghost function Touched(s: Slab, k: Key, now: nat): Slab
    requires s.WellFormed() && CanHit(s, k)
  {
    s.(entries := s.entries[s.index[k] := Some(s.entries[s.index[k]].value.(lastUsed := now))])
  }

  ghost predicate IsFirstFree(s: Slab, slot: nat)
    requires s.WellFormed()
  {
    slot < SLAB_SIZE && s.entries[slot].None? && forall i :: 0 <= i < slot ==> s.entries[i].Some?
  }

  ghost predicate IsFull(s: Slab)
    requires s.WellFormed()
  {
    forall i :: 0 <= i < SLAB_SIZE ==> s.entries[i].Some?
  }

  // The slot of the least recently used indexed entry, if one is older than now. Ties are open:
  // the source walks a hash map.
  ghost predicate IsOldest(s: Slab, now: nat, k: Key)
    requires s.WellFormed()
  {
    && CanHit(s, k)
    && s.entries[s.index[k]].value.lastUsed < now
    && forall l :: CanHit(s, l) ==>
         s.entries[s.index[k]].value.lastUsed <= s.entries[s.index[l]].value.lastUsed
  }

  ghost predicate NoneOlder(s: Slab, now: nat)
    requires s.WellFormed()
  {
    forall l :: CanHit(s, l) ==> s.entries[s.index[l]].value.lastUsed >= now
  }

  ghost function Evicted(s: Slab, slot: nat): Slab
    requires s.WellFormed() && slot < SLAB_SIZE
  {
    Slab(s.entries[slot := None], map k | k in s.index && s.index[k] != slot :: s.index[k])
  }

  // Slot selection: the first free slot, else the slot of an oldest entry, which is evicted.
  ghost predicate Selects(s: Slab, now: nat, slot: nat, s1: Slab)
    requires s.WellFormed()
  {
    || (IsFirstFree(s, slot) && s1 == s)
    || (IsFull(s) && exists k :: IsOldest(s, now, k) && s.index[k] == slot && s1 == Evicted(s, slot))
  }

  ghost function Placed(s: Slab, k: Key, slot: nat, e: PoolEntry): Slab
    requires s.WellFormed() && slot < SLAB_SIZE
  {
    Slab(s.entries[slot := Some(e)], s.index[k := slot])
  }

  ghost predicate Expires(s: Slab, i: nat, now: nat, maxIdle: nat)
    requires s.WellFormed() && i < SLAB_SIZE
  {
    i in s.index.Values && s.entries[i].Some? && IdleFor(s.entries[i].value, now) >= maxIdle
  }

  ghost function Pruned(s: Slab, now: nat, maxIdle: nat): Slab
    requires s.WellFormed()
  {
    var entries := seq(SLAB_SIZE, i requires 0 <= i < SLAB_SIZE =>
      if Expires(s, i, now, maxIdle) then None else s.entries[i]);
    Slab(entries, map k | k in s.index && entries[s.index[k]].Some? :: s.index[k])
  }

  // --------------------------------------------------- what each step keeps

  lemma TouchKeeps(s: Slab, k: Key, now: nat)
    requires s.Sound() && CanHit(s, k)
    ensures var s' := Touched(s, k, now);
            && s'.Sound() && s'.Orphans() == s.Orphans()
            && s'.Cache() == s.Cache()[k := s.Cache()[k].(lastUsed := now)]
  {}

  lemma SelectionKeeps(s: Slab, now: nat, slot: nat, s1: Slab)
    requires s.Sound() && Selects(s, now, slot, s1)
    ensures slot < SLAB_SIZE && s1.Sound() && s1.entries[slot].None? && slot !in s1.index.Values
    ensures s1.Orphans() == s.Orphans()
  {
    if !(IsFirstFree(s, slot) && s1 == s) {
      var k :| IsOldest(s, now, k) && s.index[k] == slot && s1 == Evicted(s, slot);
      EvictionKeeps(s, k);
    }
  }

  lemma EvictionKeeps(s: Slab, victim: Key)
    requires s.Sound() && victim in s.index
    ensures var s1 := Evicted(s, s.index[victim]);
            && s1.Sound() && s1.index == s.index - {victim} && s1.index.Values == s.index.Values - {s.index[victim]}
            && s1.Orphans() == s.Orphans()
            && s1.Cache() == s.Cache() - {victim}
  {
    var s1 := Evicted(s, s.index[victim]);
    assert s1.index == s.index - {victim};
    ValuesWithout(s.index, victim);
  }

  lemma ValuesWithout(m: map<Key, nat>, k: Key)
    requires k in m && forall a, b :: a in m && b in m && m[a] == m[b] ==> a == b
    ensures (m - {k}).Values == m.Values - {m[k]}
  {
    var rest := m - {k};
    forall v | v in m.Values && v != m[k] ensures v in rest.Values {
      var l :| l in m && m[l] == v;
      assert l in rest && rest[l] == v;
    }
  }

  lemma ValuesWith(m: map<Key, nat>, k: Key, v: nat)
    requires k !in m
    ensures m[k := v].Values == m.Values + {v}
  {
    var more := m[k := v];
    assert k in more && more[k] == v;
    forall u | u in m.Values ensures u in more.Values {
      var l :| l in m && m[l] == u;
      assert l in more && more[l] == u;
    }
  }

  // Placing a channel creates an orphan exactly when its key is still indexed: the old slot.
  lemma PlacementKeeps(s1: Slab, k: Key, slot: nat, e: PoolEntry)
    requires s1.Sound() && slot < SLAB_SIZE && s1.entries[slot].None? && slot !in s1.index.Values
    requires e.channel.target == k
    ensures var s' := Placed(s1, k, slot, e);
            && s'.Sound()
            && s'.Orphans() == s1.Orphans() + (if k in s1.index then {s1.index[k]} else {})
            && (k in s1.index ==> s1.index[k] !in s1.Orphans())
            && s'.Cache() == s1.Cache()[k := e]
  {
    PlacedSound(s1, k, slot, e);
    PlacedOrphans(s1, k, slot, e);
    PlacedCache(s1, k, slot, e);
  }

  lemma PlacedOrphans(s1: Slab, k: Key, slot: nat, e: PoolEntry)
    requires s1.Sound() && slot < SLAB_SIZE && s1.entries[slot].None? && slot !in s1.index.Values
    ensures Placed(s1, k, slot, e).Orphans() == s1.Orphans() + (if k in s1.index then {s1.index[k]} else {})
    ensures k in s1.index ==> s1.index[k] !in s1.Orphans()
  {
    var s' := Placed(s1, k, slot, e);
    if k in s1.index {
      assert s1.index[k] in s1.index.Values;
      ValuesWithout(s1.index, k);
      ValuesWith(s1.index - {k}, k, slot);
      assert s'.index == (s1.index - {k})[k := slot];
    } else {
      ValuesWith(s1.index, k, slot);
    }
  }

  lemma PlacedCache(s1: Slab, k: Key, slot: nat, e: PoolEntry)
    requires s1.Sound() && slot < SLAB_SIZE && slot !in s1.index.Values && Placed(s1, k, slot, e).Sound()
    ensures Placed(s1, k, slot, e).Cache() == s1.Cache()[k := e]
  {
    var s', was := Placed(s1, k, slot, e), s1.Cache();
    forall l | l in was && l != k ensures l in s'.Cache() && s'.Cache()[l] == was[l] {
      PlacedElsewhere(s1, k, slot, e, l);
    }
    assert k in s'.Cache() && s'.Cache()[k] == e;
    SameMap(s'.Cache(), was, k, e);
  }

  lemma SameMap(m: map<Key, PoolEntry>, was: map<Key, PoolEntry>, k: Key, e: PoolEntry)
    requires k in m && m[k] == e && m.Keys <= was.Keys + {k}
    requires forall l :: l in was && l != k ==> l in m && m[l] == was[l]
    ensures m == was[k := e]
  {}

  lemma PlacedElsewhere(s1: Slab, k: Key, slot: nat, e: PoolEntry, l: Key)
    requires s1.Sound() && slot < SLAB_SIZE && slot !in s1.index.Values && l in s1.index && l != k
    ensures var s' := Placed(s1, k, slot, e); l in s'.index && s'.entries[s'.index[l]] == s1.entries[s1.index[l]]
  {
    assert s1.index[l] in s1.index.Values;
  }

  lemma PlacedSound(s1: Slab, k: Key, slot: nat, e: PoolEntry)
    requires s1.Sound() && slot < SLAB_SIZE && slot !in s1.index.Values && e.channel.target == k
    ensures Placed(s1, k, slot, e).Sound()
  {
    assert forall l :: l in s1.index ==> s1.index[l] in s1.index.Values;
  }

  lemma PruningKeeps(s: Slab, now: nat, maxIdle: nat)
    requires s.Sound()
    ensures var s' := Pruned(s, now, maxIdle);
            && s'.Sound() && s'.Orphans() == s.Orphans()
            && s'.Cache() == map k | k in s.Cache() && IdleFor(s.Cache()[k], now) < maxIdle :: s.Cache()[k]
  {
    PruningSound(s, now, maxIdle);
    PruningOrphans(s, now, maxIdle);
    var s' := Pruned(s, now, maxIdle);
    assert s'.Cache().Keys == s'.index.Keys;
  }

  lemma PruningSound(s: Slab, now: nat, maxIdle: nat)
    requires s.Sound()
    ensures var s' := Pruned(s, now, maxIdle);
            && s'.Sound()
            && (forall k :: k in s'.index <==> k in s.index && IdleFor(s.entries[s.index[k]].value, now) < maxIdle)
            && (forall k :: k in s'.index ==>
                  s'.index[k] == s.index[k] && s'.entries[s.index[k]] == s.entries[s.index[k]])
  {
    var s' := Pruned(s, now, maxIdle);
    forall k | k in s.index
      ensures s'.entries[s.index[k]] ==
                if IdleFor(s.entries[s.index[k]].value, now) < maxIdle then s.entries[s.index[k]] else None
    {
      assert s.index[k] in s.index.Values;
    }
  }

  lemma PruningOrphans(s: Slab, now: nat, maxIdle: nat)
    requires s.Sound() && Pruned(s, now, maxIdle).Sound()
    ensures Pruned(s, now, maxIdle).Orphans() == s.Orphans()
  {
    var s' := Pruned(s, now, maxIdle);
    assert s'.index.Values <= s.index.Values by {
      forall v | v in s'.index.Values ensures v in s.index.Values {
        var k :| k in s'.index && s'.index[k] == v;
        assert k in s.index && s.index[k] == v;
      }
    }
    forall i: nat | i < SLAB_SIZE && s'.entries[i].Some? && i in s.index.Values ensures i in s'.index.Values {
      var k :| k in s.index && s.index[k] == i;
      assert k in s'.index && s'.index[k] == i;
    }
    assert forall i: nat | i < SLAB_SIZE && i !in s.index.Values :: s'.entries[i] == s.entries[i];
  }

  // ------------------------------------------------- least recently used

  // Selection on a full slab takes out exactly one entry with the smallest last use.
  lemma EvictionIsLru(s: Slab, now: nat, slot: nat, s1: Slab) returns (victim: Key)
    requires s.Sound() && IsFull(s) && Selects(s, now, slot, s1)
    ensures s1.Sound() && victim in s.Cache() && s1.Cache() == s.Cache() - {victim}
    ensures s.Cache()[victim].lastUsed < now
    ensures forall l :: l in s.Cache() ==> s.Cache()[victim].lastUsed <= s.Cache()[l].lastUsed
  {
    victim :| IsOldest(s, now, victim) && s.index[victim] == slot && s1 == Evicted(s, slot);
    EvictionKeeps(s, victim);
    forall l | l in s.Cache() ensures s.Cache()[victim].lastUsed <= s.Cache()[l].lastUsed {
      assert CanHit(s, l);
    }
  }

  // Selection fails only on a full slab with nothing older than now.
  lemma SelectionFails(s: Slab, now: nat)
    requires s.Sound()
    ensures (IsFull(s) && NoneOlder(s, now)) <==> !exists slot, s1 :: Selects(s, now, slot, s1)
  {
    if !IsFull(s) {
      var slot := LeastFree(s, SLAB_SIZE);
      assert Selects(s, now, slot, s);
    } else if !NoneOlder(s, now) {
      var l :| CanHit(s, l) && s.entries[s.index[l]].value.lastUsed < now;
      var k := Least(s, s.index.Keys);
      assert IsOldest(s, now, k) by {
        assert forall m :: CanHit(s, m) ==> m in s.index.Keys;
      }
      assert Selects(s, now, s.index[k], Evicted(s, s.index[k]));
    }
  }

  lemma LeastFree(s: Slab, n: nat) returns (slot: nat)
    requires s.WellFormed() && n <= SLAB_SIZE && exists i :: 0 <= i < n && s.entries[i].None?
    ensures slot < n && IsFirstFree(s, slot)
  {
    slot := 0;
    while s.entries[slot].Some?
      invariant slot < n && forall i :: 0 <= i < slot ==> s.entries[i].Some?
      decreases n - slot
    {
      slot := slot + 1;
    }
  }

  lemma {:induction false} Least(s: Slab, keys: set<Key>) returns (k: Key)
    requires s.Sound() && keys <= s.index.Keys && keys != {}
    ensures k in keys
    ensures forall l :: l in keys ==> s.entries[s.index[k]].value.lastUsed <= s.entries[s.index[l]].value.lastUsed
    decreases |keys|
  {
    k :| k in keys;
    if keys != {k} {
      assert keys == {k} + (keys - {k});
      var m := Least(s, keys - {k});
      if s.entries[s.index[m]].value.lastUsed < s.entries[s.index[k]].value.lastUsed {
        k := m;
      }
    }
  }

  // ---------------------------------------------------------------- capacity

  ghost function Below(n: nat): (b: set<nat>)
    ensures forall i: nat :: i in b <==> i < n
    ensures |b| == n
  {
    if n == 0 then {} else Below(n - 1) + {n - 1}
  }

  lemma SubsetSize(a: set<nat>, b: set<nat>)
    requires a <= b
    ensures |a| <= |b|
  {
    assert b == a + (b - a);
  }

  lemma {:induction false} InjectiveValues(m: map<Key, nat>)
    requires forall k, l :: k in m && l in m && m[k] == m[l] ==> k == l
    ensures |m.Values| == |m|
    decreases |m|
  {
    if m.Keys != {} {
      var k :| k in m;
      var rest := m - {k};
      assert m.Values == rest.Values + {m[k]} by {
        forall v | v in m.Values ensures v in rest.Values + {m[k]} {
          var l :| l in m && m[l] == v;
          if l != k { assert l in rest && rest[l] == v; }
        }
        assert k in m;
      }
      assert m.Keys == rest.Keys + {k};
      assert m[k] !in rest.Values;
      InjectiveValues(rest);
    } else {
      assert m == map[];
    }
  }

  // Orphans eat capacity for good, but never all of it while a key is indexed.
  lemma OrphansTakeCapacity(s: Slab)
    requires s.Sound()
    ensures |s.index| + |s.Orphans()| == |s.Occupied()| <= SLAB_SIZE
    ensures IsFull(s) <==> |s.index| == SLAB_SIZE - |s.Orphans()|
  {
    InjectiveValues(s.index);
    assert s.Occupied() == s.index.Values + s.Orphans() by {
      forall v | v in s.index.Values ensures v in s.Occupied() {
        var k :| k in s.index && s.index[k] == v;
      }
    }
    FullMeansAll(s);
  }

  lemma FullMeansAll(s: Slab)
    requires s.WellFormed()
    ensures |s.Occupied()| <= SLAB_SIZE
    ensures IsFull(s) <==> |s.Occupied()| == SLAB_SIZE
  {
    var occupied, all := s.Occupied(), Below(SLAB_SIZE);
    SubsetSize(occupied, all);
    if IsFull(s) {
      assert occupied == all;
    } else {
      var i: nat :| i < SLAB_SIZE && s.entries[i].None?;
      assert i !in occupied;
      SizeLeavesRoom(occupied, i, all);
    }
  }

  lemma SizeLeavesRoom(few: set<nat>, i: nat, all: set<nat>)
    requires few <= all && i in all && i !in few
    ensures |few| < |all|
  {
    SubsetSize(few + {i}, all);
  }

  // ----------------------------------------------------- interleaved lends

  // Connecting happens outside every lock: a lend that missed is a pending connect for its key.
  datatype PoolWorld = PoolWorld(now: nat, slab: Slab, connecting: multiset<Key>)

  datatype PoolEvent =
    | Tick(ms: nat)
    | Hit(key: Key)
    | Miss(key: Key)
    | ConnectFails(key: Key)
    | Insert(key: Key, serial: nat, slot: nat)
    | EvictIdle(maxIdle: nat)

  ghost predicate CanInsert(w: PoolWorld, k: Key, slot: nat)
    requires w.slab.WellFormed()
  {
    k in w.connecting && exists s1 :: Selects(w.slab, w.now, slot, s1)
  }

  ghost function SlabAfter(w: PoolWorld, e: PoolEvent): Slab
    requires w.slab.WellFormed()
  {
    match e
    case Hit(k) => if CanHit(w.slab, k) then Touched(w.slab, k, w.now) else w.slab
    case Insert(k, serial, slot) =>
      if CanInsert(w, k, slot) then
        var s1 :| Selects(w.slab, w.now, slot, s1);
        if s1.WellFormed() && slot < SLAB_SIZE then Placed(s1, k, slot, PoolEntry(Channel(k, serial), w.now)) else s1
      else w.slab
    case EvictIdle(maxIdle) => Pruned(w.slab, w.now, maxIdle)
    case _ => w.slab
  }

  ghost function ConnectingAfter(w: PoolWorld, e: PoolEvent): multiset<Key>
    requires w.slab.WellFormed()
  {
    match e
    case Miss(k) => if CanHit(w.slab, k) then w.connecting else w.connecting + multiset{k}
    case ConnectFails(k) => w.connecting - multiset{k}
    case Insert(k, _, slot) =>
      if CanInsert(w, k, slot) || (IsFull(w.slab) && NoneOlder(w.slab, w.now)) then w.connecting - multiset{k}
      else w.connecting
    case _ => w.connecting
  }

  ghost function PoolStep(w: PoolWorld, e: PoolEvent): PoolWorld
    requires w.slab.WellFormed()
  {
    PoolWorld(if e.Tick? then w.now + e.ms else w.now, SlabAfter(w, e), ConnectingAfter(w, e))
  }

  // The orphans a step may add: the slot of a key that is inserted while it is still indexed.
  ghost predicate AddsOrphan(w: PoolWorld, e: PoolEvent, slot: nat)
    requires w.slab.WellFormed()
  {
    && e.Insert? && CanInsert(w, e.key, e.slot)
    && exists s1 :: Selects(w.slab, w.now, e.slot, s1) && e.key in s1.index && s1.index[e.key] == slot
  }

  lemma SelectionIsUnique(s: Slab, now: nat, slot: nat, s1: Slab, s2: Slab)
    requires s.Sound() && Selects(s, now, slot, s1) && Selects(s, now, slot, s2)
    ensures s1 == s2
  {}

  // Every interleaving keeps the pool sound; orphans are added one at a time, exactly by an
  // insert whose key is still indexed once its slot is chosen, and never taken away.
  lemma InterleavingKeeps(w: PoolWorld, e: PoolEvent)
    requires w.slab.Sound()
    ensures var w' := PoolStep(w, e);
            && w'.slab.Sound()
            && w.slab.Orphans() <= w'.slab.Orphans()
            && (forall slot :: slot in w'.slab.Orphans() - w.slab.Orphans() <==> AddsOrphan(w, e, slot))
            && |w'.slab.Orphans()| <= |w.slab.Orphans()| + 1
  {
    match e
    case Hit(k) => if CanHit(w.slab, k) { TouchKeeps(w.slab, k, w.now); }
    case EvictIdle(maxIdle) => PruningKeeps(w.slab, w.now, maxIdle);
    case Insert(k, serial, slot) =>
      if CanInsert(w, k, slot) {
        InsertKeeps(w, k, serial, slot);
      }
    case _ =>
  }

  lemma InsertKeeps(w: PoolWorld, k: Key, serial: nat, slot: nat)
    requires w.slab.Sound() && CanInsert(w, k, slot)
    ensures var s', o := SlabAfter(w, Insert(k, serial, slot)), w.slab.Orphans();
            && s'.Sound() && k in s'.index && o <= s'.Orphans()
            && (forall stale :: stale in s'.Orphans() - o <==> AddsOrphan(w, Insert(k, serial, slot), stale))
            && |s'.Orphans()| <= |o| + 1
  {
    var s1: Slab :| Selects(w.slab, w.now, slot, s1);
    SelectionKeeps(w.slab, w.now, slot, s1);
    forall s2 | Selects(w.slab, w.now, slot, s2) ensures s2 == s1 {
      SelectionIsUnique(w.slab, w.now, slot, s1, s2);
    }
    PlacementKeeps(s1, k, slot, PoolEntry(Channel(k, serial), w.now));
  }

  ghost function PoolRun(w: PoolWorld, es: seq<PoolEvent>): (w': PoolWorld)
    requires w.slab.Sound()
    ensures w'.slab.Sound()
  {
    if es == [] then w
    else
      var v := PoolRun(w, es[..|es| - 1]);
      InterleavingKeeps(v, es[|es| - 1]);
      PoolStep(v, es[|es| - 1])
  }

  ghost predicate FreshPool(w: PoolWorld) {
    w.slab == EmptySlab() && w.connecting == multiset{}
  }

  lemma SlotIsLeft(w: PoolWorld, e: PoolEvent)
    requires w.slab.Sound() && |w.slab.Orphans()| < SLAB_SIZE
    ensures var s' := PoolStep(w, e).slab; s'.Sound() && |s'.Orphans()| < SLAB_SIZE
  {
    InterleavingKeeps(w, e);
    var s' := PoolStep(w, e).slab;
    var more := s'.Orphans() - w.slab.Orphans();
    if more == {} {
      assert forall slot :: slot in s'.Orphans() ==> slot !in more ==> slot in w.slab.Orphans();
      assert s'.Orphans() == w.slab.Orphans();
    } else {
      var slot :| slot in more;
      assert AddsOrphan(w, e, slot);
      InsertKeeps(w, e.key, e.serial, e.slot);
      OrphansTakeCapacity(s');
      assert s'.index.Keys != {};
    }
  }

  lemma FreshIsSound(w: PoolWorld)
    requires FreshPool(w)
    ensures w.slab.Sound() && w.slab.Orphans() == {}
  {}

  // However many orphans pile up, a slot is always left: the pool never wedges for good.
  lemma {:induction false} OrphansNeverFillThePool(w: PoolWorld, es: seq<PoolEvent>)
    requires FreshPool(w) && w.slab.Sound()
    ensures |PoolRun(w, es).slab.Orphans()| < SLAB_SIZE
  {
    FreshIsSound(w);
    if es != [] {
      OrphansNeverFillThePool(w, es[..|es| - 1]);
      SlotIsLeft(PoolRun(w, es[..|es| - 1]), es[|es| - 1]);
    }
  }

  // At most one connect is pending per key, at every moment of the run.
  ghost predicate OneConnectPerKey(w: PoolWorld, es: seq<PoolEvent>)
    requires w.slab.Sound()
  {
    forall n, k :: 0 <= n <= |es| ==> PoolRun(w, es[..n]).connecting[k] <= 1
  }

  // Without two concurrent connects for one key there are no orphans, so all 64 slots serve.
  lemma {:induction false} LoneConnectsLeaveNoOrphans(w: PoolWorld, es: seq<PoolEvent>)
    requires FreshPool(w) && w.slab.Sound() && OneConnectPerKey(w, es)
    ensures var w' := PoolRun(w, es);
            && w'.slab.Orphans() == {}
            && forall k :: k in w'.connecting ==> k !in w'.slab.index
  {
    if es != [] {
      var init := es[..|es| - 1];
      forall n, k | 0 <= n <= |init| ensures PoolRun(w, init[..n]).connecting[k] <= 1 {
        assert init[..n] == es[..n];
      }
      LoneConnectsLeaveNoOrphans(w, init);
      assert es[..|es|] == es && es[..|es| - 1] == init;
      forall k ensures PoolRun(w, es).connecting[k] <= 1 && PoolRun(w, init).connecting[k] <= 1 {
        assert PoolRun(w, es[..|es|]).connecting[k] <= 1;
        assert PoolRun(w, es[..|init|]).connecting[k] <= 1;
      }
      LoneStep(PoolRun(w, init), es[|es| - 1]);
    }
  }

  lemma LoneStep(w: PoolWorld, e: PoolEvent)
    requires w.slab.Sound() && w.slab.Orphans() == {}
    requires forall k :: k in w.connecting ==> k !in w.slab.index
    requires forall k :: w.connecting[k] <= 1 && PoolStep(w, e).connecting[k] <= 1
    ensures var w' := PoolStep(w, e);
            && w'.slab.Sound() && w'.slab.Orphans() == {}
            && forall k :: k in w'.connecting ==> k !in w'.slab.index
  {
    InterleavingKeeps(w, e);
    var w' := PoolStep(w, e);
    NoOrphanAdded(w, e);
    assert w'.slab.Orphans() - w.slab.Orphans() == {};
    if e.Insert? && CanInsert(w, e.key, e.slot) {
      LoneInsert(w, e.key, e.serial, e.slot);
    }
  }

  lemma NoOrphanAdded(w: PoolWorld, e: PoolEvent)
    requires w.slab.Sound()
    requires forall k :: k in w.connecting ==> k !in w.slab.index
    ensures forall slot :: !AddsOrphan(w, e, slot)
  {
    if e.Insert? && CanInsert(w, e.key, e.slot) {
      forall s1 | Selects(w.slab, w.now, e.slot, s1) ensures e.key !in s1.index {
        assert s1.index.Keys <= w.slab.index.Keys;
      }
    }
  }

  lemma LoneInsert(w: PoolWorld, k: Key, serial: nat, slot: nat)
    requires w.slab.Sound() && CanInsert(w, k, slot) && w.connecting[k] <= 1
    requires forall l :: l in w.connecting ==> l !in w.slab.index
    ensures forall l :: l in w.connecting - multiset{k} ==> l !in SlabAfter(w, Insert(k, serial, slot)).index
  {
    var s' := SlabAfter(w, Insert(k, serial, slot));
    assert s'.index.Keys <= w.slab.index.Keys + {k};
  }
}
