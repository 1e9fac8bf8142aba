/**
 The mutable connection pool of src/operator/connection.rs, each method proved against the steps
 of module PoolSlab. A method is what runs under one acquisition of the index lock; Lend is the
 sequential composition a lone caller sees.
 */
module Pool {
  import opened Basics
  import opened PoolSlab

  class ConnectionPool {
    const entries: array<Option<PoolEntry>>
    var index: map<Key, nat>
    const maxIdle: nat

    ghost function View(): Slab
      reads this, entries
    {
      Slab(entries[..], index)
    }

    ghost predicate Valid()
      reads this, entries
    {
      View().WellFormed()
    }

    constructor (maxIdle: nat)
      ensures Valid() && View() == EmptySlab() && fresh(entries) && this.maxIdle == maxIdle
    {
      entries := new Option<PoolEntry>[SLAB_SIZE](i => None);
      index := map[];
      this.maxIdle := maxIdle;
    }

    method FindFreeSlot() returns (free: Option<nat>)
      requires Valid()
      ensures free.Some? ==> IsFirstFree(View(), free.value)
      ensures free.None? ==> IsFull(View())
      ensures entries.Length == 64
      ensures free.Some? ==> && free.value < 64 && entries[free.value].None?
                             && forall i :: 0 <= i < free.value ==> entries[i].Some?
      ensures free.None? ==> forall i :: 0 <= i < 64 ==> entries[i].Some?
    {
      for i := 0 to entries.Length
        invariant forall j :: 0 <= j < i ==> entries[j].Some?
      {
        if entries[i].None? {
          return Some(i);
        }
      }
      free := None;
    }

    // The walk over the index meets its keys in any order.
    method EvictOldest(now: nat) returns (evicted: Option<nat>)
      requires Valid()
      modifies this`index, entries
      ensures Valid()
      ensures evicted.Some? ==>
                exists k :: && IsOldest(old(View()), now, k) && old(View()).index[k] == evicted.value
                            && View() == Evicted(old(View()), evicted.value)
      ensures evicted.None? ==> NoneOlder(old(View()), now) && View() == old(View())
    {
      var oldestTime := now;
      var oldestKey: Option<Key> := None;
      var todo := index.Keys;
      while todo != {}
        invariant todo <= index.Keys
        invariant forall l :: l in index.Keys - todo && CanHit(View(), l) ==>
                    entries[index[l]].value.lastUsed >= oldestTime
        invariant oldestKey.None? ==> oldestTime == now
        invariant oldestKey.Some? ==>
                    && CanHit(View(), oldestKey.value)
                    && entries[index[oldestKey.value]].value.lastUsed == oldestTime < now
      {
        var k: Key :| k in todo;
        var entry := entries[index[k]];
        if entry.Some? && entry.value.lastUsed < oldestTime {
          oldestTime := entry.value.lastUsed;
          oldestKey := Some(k);
        }
        todo := todo - {k};
      }
      if oldestKey.None? {
        return None;
      }
      var slot := index[oldestKey.value];
      assert IsOldest(View(), now, oldestKey.value);
      entries[slot] := None;
      index := map k | k in index && index[k] != slot :: index[k];
      evicted := Some(slot);
      assert entries[..] == old(entries[..])[slot := None];
    }

    method EvictIdle(now: nat)
      requires Valid()
      modifies this`index, entries
      ensures Valid() && View() == Pruned(old(View()), now, maxIdle)
      ensures forall i :: 0 <= i < 64 ==>
                var was := old(entries[..])[i];
                entries[i] ==
                  if && i in old(index).Values && was.Some?
                     && (if was.value.lastUsed <= now then now - was.value.lastUsed else 0) >= maxIdle
                  then None else was
    {
      var todo := index.Keys;
      while todo != {}
        invariant index == old(index) && todo <= index.Keys
        invariant forall i :: 0 <= i < SLAB_SIZE ==>
                    || entries[i] == old(entries[i])
                    || (entries[i].None? && Expires(old(View()), i, now, maxIdle))
        invariant forall k :: k in index.Keys - todo && Expires(old(View()), index[k], now, maxIdle) ==>
                    entries[index[k]].None?
      {
        var k: Key :| k in todo;
        var slot := index[k];
        assert slot in index.Values;
        if entries[slot].Some? && IdleFor(entries[slot].value, now) >= maxIdle {
          entries[slot] := None;
        }
        todo := todo - {k};
      }
      forall i | 0 <= i < SLAB_SIZE
        ensures entries[i] == if Expires(old(View()), i, now, maxIdle) then None else old(entries[i])
      {
        if Expires(old(View()), i, now, maxIdle) {
          var k :| k in index && index[k] == i;
        }
      }
      assert entries[..] == Pruned(old(View()), now, maxIdle).entries;
      index := map k | k in index && entries[index[k]].Some? :: index[k];
    }

    // Fast path of a lend.
    method TryHit(key: Key, now: nat) returns (channel: Option<Channel>)
      requires Valid()
      modifies entries
      ensures Valid()
      ensures channel.Some? <==> CanHit(old(View()), key)
      ensures channel.Some? ==>
                && channel.value == old(View()).entries[old(View()).index[key]].value.channel
                && View() == Touched(old(View()), key, now)
      ensures channel.None? ==> View() == old(View())
    {
      channel := None;
      if key in index {
        var slot := index[key];
        if entries[slot].Some? {
          var e := entries[slot].value;
          entries[slot] := Some(e.(lastUsed := now));
          channel := Some(e.channel);
          assert entries[..] == old(entries[..])[slot := Some(e.(lastUsed := now))];
        }
      }
    }

    // Second half of a lend that missed, once its connect has succeeded.
    method InsertChannel(key: Key, channel: Channel, now: nat) returns (slot: Option<nat>)
      requires Valid()
      modifies this`index, entries
      ensures Valid()
      ensures slot.Some? ==>
                exists s1 :: && Selects(old(View()), now, slot.value, s1) && s1.WellFormed() && slot.value < SLAB_SIZE
                             && View() == Placed(s1, key, slot.value, PoolEntry(channel, now))
      ensures slot.None? ==> IsFull(old(View())) && NoneOlder(old(View()), now) && View() == old(View())
    {
      slot := FindFreeSlot();
      if slot.None? {
        slot := EvictOldest(now);
        if slot.None? {
          return;
        }
      }
      ghost var s1 := View();
      assert Selects(old(View()), now, slot.value, s1);
      entries[slot.value] := Some(PoolEntry(channel, now));
      index := index[key := slot.value];
      assert entries[..] == s1.entries[slot.value := Some(PoolEntry(channel, now))];
    }

    // A whole lend with nothing in between: the pool is a map of 64 keys that gives up the least
    // recently used one. `connected` is the outcome of the connect, `later` when it returned.
    method Lend(key: Key, connected: Option<nat>, now: nat, later: nat) returns (r: Result<Channel, ()>)
      requires Valid() && View().Sound() && View().Orphans() == {}
      modifies this`index, entries
      ensures Valid() && View().Sound() && View().Orphans() == {}
      ensures var was, left := old(View().Cache()), View().Cache();
              if key in was then
                r == Ok(was[key].channel) && left == was[key := was[key].(lastUsed := now)]
              else if connected.None? then
                r.Err? && left == was
              else if |was| < 64 then
                r == Ok(Channel(key, connected.value)) && left == was[key := PoolEntry(r.value, later)]
              else if forall l :: l in was ==> was[l].lastUsed >= later then
                r.Err? && left == was
              else
                && r == Ok(Channel(key, connected.value))
                && exists victim :: victim in was
                     && was[victim].lastUsed < later
                     && (forall l :: l in was ==> was[victim].lastUsed <= was[l].lastUsed)
                     && left == (was - {victim})[key := PoolEntry(r.value, later)]
    {
      ghost var was := View();
      OrphansTakeCapacity(was);
      assert |was.index| == |was.Cache()| by { assert was.Cache().Keys == was.index.Keys; }
      var hit := TryHit(key, now);
      if hit.Some? {
        TouchKeeps(was, key, now);
        return Ok(hit.value);
      }
      if connected.None? {
        return Err(());
      }
      var channel := Channel(key, connected.value);
      var slot := InsertChannel(key, channel, later);
      if slot.None? {
        forall l | l in was.Cache() ensures was.Cache()[l].lastUsed >= later {
          assert CanHit(was, l);
        }
        return Err(());
      }
      ghost var s1 :| && Selects(was, later, slot.value, s1) && s1.WellFormed()
                      && View() == Placed(s1, key, slot.value, PoolEntry(channel, later));
      SelectionKeeps(was, later, slot.value, s1);
      PlacementKeeps(s1, key, slot.value, PoolEntry(channel, later));
      assert s1.index.Keys <= was.index.Keys;
      if IsFull(was) {
        ghost var victim := EvictionIsLru(was, later, slot.value, s1);
      }
      r := Ok(channel);
    }
  }
}
