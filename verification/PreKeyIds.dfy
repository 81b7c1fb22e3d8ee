/**
 Pre-key ids (key_helper.c, PreKeyStorePillar.swift, SignalClient.swift): generating a block
 of pre keys with cyclic ids, and refilling the store behind its largest id.
 */
module PreKeyIds {
  import opened Common
  import opened Crypto

  /** Ids run from 1 to 0xFFFFFE. */
  const ID_COUNT: nat := 0xFFFFFE

  datatype PreKey = PreKey(id: uint32, pair: KeyPair)

  /** The id of the i-th key of a block: the sum is a 32-bit one, and so is `start - 1`. */
  function IdAt(start: uint32, i: uint32): (id: uint32)
    ensures 1 <= id <= ID_COUNT
  {
    (if start == 0 then TWO32 - 1 + i else start - 1 + i) % TWO32 % ID_COUNT + 1
  }

  /** `signal_protocol_key_helper_generate_pre_keys`. */
  method GeneratePreKeys(start: uint32, count: uint32, gen: KeyGenerator) returns (keys: seq<PreKey>)
    modifies gen
    ensures |keys| == count && gen.next == old(gen.next) + count
    ensures forall i :: 0 <= i < count ==> keys[i] == PreKey(IdAt(start, i), PairOf(old(gen.next) + i))
  {
    keys := [];
    var startIndex: uint32 := if start == 0 then TWO32 - 1 else start - 1;
    var i: uint32 := 0;
    while i < count
      invariant 0 <= i <= count && |keys| == i && gen.next == old(gen.next) + i
      invariant forall j :: 0 <= j < i ==> keys[j] == PreKey(IdAt(start, j), PairOf(old(gen.next) + j))
    {
      var pair := gen.Generate();
      var id: uint32 := (startIndex + i) % TWO32 % ID_COUNT + 1;
      keys := keys + [PreKey(id, pair)];
      i := i + 1;
    }
  }

  /** Ids ascend one by one and start again at 1 after the last, until the 32-bit sum wraps around. */
  lemma IdsAscend(start: uint32, i: uint32)
    requires i + 1 < BeforeWrap(start)
    ensures IdAt(start, i + 1) == if IdAt(start, i) == ID_COUNT then 1 else IdAt(start, i) + 1
  {
    IdBeforeWrap(start, i);
    IdBeforeWrap(start, i + 1);
    NextResidue(TWO32 - BeforeWrap(start) + i);
  }

  lemma NextResidue(n: nat)
    ensures (n + 1) % ID_COUNT == if n % ID_COUNT == ID_COUNT - 1 then 0 else n % ID_COUNT + 1
  {
  }

  /** How many keys of a block come before the 32-bit sum wraps around. */
  function BeforeWrap(start: uint32): (k: nat)
    ensures 1 <= k <= TWO32
  {
    if start == 0 then 1 else TWO32 - (start - 1)
  }

  predicate Distinct(start: uint32, count: nat)
    requires count <= TWO32
  {
    forall i, j :: 0 <= i < j < count ==> IdAt(start, i) != IdAt(start, j)
  }

  /** The residue of the id, counted from the last wrap-around. */
  lemma IdBeforeWrap(start: uint32, i: uint32)
    requires i < BeforeWrap(start)
    ensures IdAt(start, i) == (TWO32 - BeforeWrap(start) + i) % ID_COUNT + 1
  {
  }

  lemma IdAfterWrap(start: uint32, i: uint32)
    requires BeforeWrap(start) <= i
    ensures IdAt(start, i) == (i - BeforeWrap(start)) % ID_COUNT + 1
  {
    var k := BeforeWrap(start);
    assert (TWO32 - k + i) % TWO32 == i - k by {
      WrapOnce(i - k);
    }
  }

  lemma WrapOnce(n: nat)
    requires n < TWO32
    ensures (TWO32 + n) % TWO32 == n
  {
  }

  /** The 32-bit range is 256 full cycles and 512 more. */
  lemma LastIdsBeforeWrap(n: nat)
    requires 1 <= n <= 512
    ensures (TWO32 - n) % ID_COUNT == 512 - n
  {
    assert TWO32 - n == 256 * ID_COUNT + (512 - n);
  }

  /** Two ids less than a full cycle apart differ. */
  lemma LessThanACycleApart(x: nat, y: nat)
    requires x < y < x + ID_COUNT
    ensures x % ID_COUNT != y % ID_COUNT
  {
    var (p, q) := (x / ID_COUNT, y / ID_COUNT);
    assert x == ID_COUNT * p + x % ID_COUNT && y == ID_COUNT * q + y % ID_COUNT;
  }

  lemma FullCycleApart(x: nat)
    ensures (x + ID_COUNT) % ID_COUNT == x % ID_COUNT
  {
  }

  /** A block that does not wrap around. */
  lemma DistinctBeforeWrap(start: uint32, count: nat)
    requires count <= BeforeWrap(start)
    ensures Distinct(start, count) <==> count <= ID_COUNT
  {
    hide IdAt;
    var first := TWO32 - BeforeWrap(start);
    if count <= ID_COUNT {
      forall i, j | 0 <= i < j < count
        ensures IdAt(start, i) != IdAt(start, j)
      {
        IdBeforeWrap(start, i);
        IdBeforeWrap(start, j);
        LessThanACycleApart(first + i, first + j);
      }
    } else {
      IdBeforeWrap(start, 0);
      IdBeforeWrap(start, ID_COUNT);
      FullCycleApart(first);
      assert IdAt(start, 0) == IdAt(start, ID_COUNT);
    }
  }

  /** The ids of a short block that wraps around: those before the wrap are the last ones up to 512, those after it
      count up from 1. */
  lemma IdAroundWrap(start: uint32, count: nat, i: nat)
    requires BeforeWrap(start) < count <= 512 && i < count
    ensures var k := BeforeWrap(start); IdAt(start, i) == if i < k then 512 - k + i + 1 else i - k + 1
  {
    hide IdAt;
    var k := BeforeWrap(start);
    if i < k {
      IdBeforeWrap(start, i);
      LastIdsBeforeWrap(k - i);
      assert TWO32 - k + i == TWO32 - (k - i);
    } else {
      IdAfterWrap(start, i);
    }
  }

  /** A long block that wraps around repeats an id. */
  lemma RepeatsAroundWrap(start: uint32, count: nat)
    requires BeforeWrap(start) < count && 512 < count <= TWO32
    ensures !Distinct(start, count)
  {
    hide IdAt;
    var k := BeforeWrap(start);
    var (i, j) := if k <= 512 then (0, 512) else (k - 512, k);
    IdBeforeWrap(start, i);
    LastIdsBeforeWrap(k - i);
    assert TWO32 - k + i == TWO32 - (k - i);
    IdAfterWrap(start, j);
    assert IdAt(start, i) == IdAt(start, j);
  }

  /** For every start and every count: the ids of a block are distinct exactly when the block has at most 512 keys,
      or at most a full cycle of them without wrapping around 32 bits. */
  lemma IdsAreDistinct(start: uint32, count: nat)
    requires count <= TWO32
    ensures Distinct(start, count) <==> count <= 512 || (count <= BeforeWrap(start) && count <= ID_COUNT)
  {
    hide IdAt;
    if count <= BeforeWrap(start) {
      DistinctBeforeWrap(start, count);
    } else if count <= 512 {
      forall i, j | 0 <= i < j < count
        ensures IdAt(start, i) != IdAt(start, j)
      {
        IdAroundWrap(start, count, i);
        IdAroundWrap(start, count, j);
      }
    } else {
      RepeatsAroundWrap(start, count);
    }
  }

  /** No block of 512 keys repeats an id; one of 513 does exactly when it wraps around 32 bits. */
  lemma ShortestRepeatingBlock(start: uint32)
    ensures Distinct(start, 512)
    ensures Distinct(start, 513) <==> 513 <= BeforeWrap(start)
  {
    hide Distinct;
    IdsAreDistinct(start, 512);
    IdsAreDistinct(start, 513);
  }

  /** No block contains the id 0xFFFFFF that the session cipher never removes, whatever it starts from; and a block
      begins with the id asked for exactly when that is an id of the cycle. */
  lemma ExemptIdIsNeverGenerated(start: uint32, i: uint32)
    ensures IdAt(start, i) != 0xFFFFFF
    ensures IdAt(start, 0) == start <==> 1 <= start <= ID_COUNT
  {
  }

  // ---- Which ids a block takes ----

  /** How many keys after the start of a block its ids reach this one. */
  function Distance(start: uint32, id: uint32): (n: nat)
    requires 1 <= start && 1 <= id <= ID_COUNT
    ensures n < ID_COUNT
  {
    (id - start) % ID_COUNT
  }

  /** A block takes an id: it reaches it before the 32-bit sum wraps around, or counting up from 1 afterwards. */
  predicate Takes(start: uint32, count: uint32, id: uint32)
    requires 1 <= start
  {
    && 1 <= id <= ID_COUNT
    && (|| Distance(start, id) < (if count <= BeforeWrap(start) then count else BeforeWrap(start))
        || id + BeforeWrap(start) <= count)
  }

  lemma ReachedAtItsDistance(start: uint32, id: uint32)
    requires 1 <= start && 1 <= id <= ID_COUNT
    ensures (start - 1 + Distance(start, id)) % ID_COUNT == id - 1
  {
    var q := (id - start) / ID_COUNT;
    assert id - start == ID_COUNT * q + Distance(start, id);
    assert start - 1 + Distance(start, id) == ID_COUNT * (-q) + (id - 1);
    SameResidue(start - 1 + Distance(start, id), -q, id - 1);
  }

  lemma SameResidue(x: nat, q: int, r: nat)
    requires x == ID_COUNT * q + r && r < ID_COUNT
    ensures x % ID_COUNT == r
  {
  }

  lemma NotReachedBefore(start: uint32, id: uint32, i: nat)
    requires 1 <= start && 1 <= id <= ID_COUNT && i < Distance(start, id)
    ensures (start - 1 + i) % ID_COUNT != id - 1
  {
    ReachedAtItsDistance(start, id);
    LessThanACycleApart(start - 1 + i, start - 1 + Distance(start, id));
  }

  /** Exactly the ids of a block, by a condition on start, count and id. */
  lemma TakesExactly(start: uint32, count: uint32, id: uint32)
    requires 1 <= start
    ensures Takes(start, count, id) <==> exists i :: 0 <= i < count && IdAt(start, i) == id
  {
    hide IdAt;
    var k := BeforeWrap(start);
    if 1 <= id <= ID_COUNT {
      if Takes(start, count, id) {
        TakenSomewhere(start, count, id);
      } else {
        forall i | 0 <= i < count
          ensures IdAt(start, i) != id
        {
          NotTaken(start, count, id, i);
        }
      }
    }
  }

  lemma TakenSomewhere(start: uint32, count: uint32, id: uint32)
    requires 1 <= start && Takes(start, count, id)
    ensures exists i :: 0 <= i < count && IdAt(start, i) == id
  {
    hide IdAt;
    var k := BeforeWrap(start);
    if id + k <= count {
      IdAfterWrap(start, k + id - 1);
      assert IdAt(start, k + id - 1) == id;
    } else {
      var n := Distance(start, id);
      IdBeforeWrap(start, n);
      ReachedAtItsDistance(start, id);
      assert IdAt(start, n) == id;
    }
  }

  lemma NotTaken(start: uint32, count: uint32, id: uint32, i: uint32)
    requires 1 <= start && 1 <= id <= ID_COUNT && !Takes(start, count, id) && i < count
    ensures IdAt(start, i) != id
  {
    hide IdAt;
    var k := BeforeWrap(start);
    if i < k {
      IdBeforeWrap(start, i);
      NotReachedBefore(start, id, i);
    } else {
      IdAfterWrap(start, i);
    }
  }

  // ---- The store ----

  /** A block of this length behind the largest id takes none of the stored ids. */
  predicate Clear(keys: map<uint32, KeyPair>, last: uint32, count: uint32)
    requires last < TWO32 - 1
  {
    forall id :: id in keys ==> !Takes(last + 1, count, id)
  }

  function Stored(keys: map<uint32, KeyPair>, block: seq<PreKey>): map<uint32, KeyPair> {
    if block == [] then keys
    else
      var last := block[|block| - 1];
      Stored(keys, block[..|block| - 1])[last.id := last.pair]
  }

  predicate Kept(keys: map<uint32, KeyPair>, keys': map<uint32, KeyPair>) {
    forall id :: id in keys ==> id in keys' && keys'[id] == keys[id]
  }

  /** What storing a block leaves under an id: one of its keys, or what was there. */
  lemma {:induction false} StoredAt(keys: map<uint32, KeyPair>, block: seq<PreKey>, id: uint32)
    ensures id in Stored(keys, block) <==> id in keys || exists i :: 0 <= i < |block| && block[i].id == id
    ensures (forall i :: 0 <= i < |block| ==> block[i].id != id) && id in keys ==> Stored(keys, block)[id] == keys[id]
    ensures (exists i :: 0 <= i < |block| && block[i].id == id) ==>
              exists i :: 0 <= i < |block| && block[i].id == id && Stored(keys, block)[id] == block[i].pair
  {
    if block != [] {
      var (before, n) := (block[..|block| - 1], |block| - 1);
      StoredAt(keys, before, id);
      assert forall i :: 0 <= i < n ==> before[i] == block[i];
      if block[n].id == id {
        assert Stored(keys, block)[id] == block[n].pair;
      }
    }
  }

  /** Distinct ids that are not stored yet add one entry each. */
  lemma {:induction false} StoredSize(keys: map<uint32, KeyPair>, block: seq<PreKey>)
    requires forall i :: 0 <= i < |block| ==> block[i].id !in keys
    requires forall i, j :: 0 <= i < j < |block| ==> block[i].id != block[j].id
    ensures |Stored(keys, block)| == |keys| + |block|
  {
    if block != [] {
      var (before, last) := (block[..|block| - 1], block[|block| - 1]);
      StoredSize(keys, before);
      StoredAt(keys, before, last.id);
      var stored := Stored(keys, before);
      assert last.id !in stored;
      assert stored[last.id := last.pair].Keys == stored.Keys + {last.id};
    }
  }

  /** A pair generated after the stored ones and before the block is nowhere in the store. */
  lemma NotAmongStored(keys: map<uint32, KeyPair>, block: seq<PreKey>, pair: KeyPair, next: nat, later: nat)
    requires forall id :: id in keys ==> keys[id].pub.id < next
    requires pair == PairOf(next) && next < later
    requires forall i :: 0 <= i < |block| ==> block[i].pair.pub.id >= later
    ensures forall id :: id in Stored(keys, block) ==> Stored(keys, block)[id] != pair
  {
    hide Stored;
    forall id | id in Stored(keys, block)
      ensures Stored(keys, block)[id] != pair
    {
      StoredAt(keys, block, id);
    }
  }

  /** A refill keeps every stored key exactly when its block takes none of their ids. */
  lemma KeptExactlyIfClear(keys: map<uint32, KeyPair>, last: uint32, block: seq<PreKey>, next: nat)
    requires last < TWO32 - 1 && |block| < TWO32
    requires forall i :: 0 <= i < |block| ==> block[i] == PreKey(IdAt(last + 1, i), PairOf(next + i))
    requires forall id :: id in keys ==> keys[id].pub.id < next
    ensures Kept(keys, Stored(keys, block)) <==> Clear(keys, last, |block|)
  {
    hide IdAt, Takes, Stored;
    forall id | id in keys
      ensures (id in Stored(keys, block) && Stored(keys, block)[id] == keys[id]) <==> !Takes(last + 1, |block|, id)
    {
      TakesExactly(last + 1, |block|, id);
      StoredAt(keys, block, id);
      if Takes(last + 1, |block|, id) {
        var i :| 0 <= i < |block| && IdAt(last + 1, i) == id;
        assert block[i].id == id;
      }
    }
  }

  /** While the largest stored id and the block together stay within the cycle, the block is clear. */
  lemma RoomIsClear(keys: map<uint32, KeyPair>, last: uint32, count: uint32)
    requires last + count <= ID_COUNT && forall id :: id in keys ==> id <= last
    ensures Clear(keys, last, count) && Distinct(last + 1, count)
  {
    hide IdAt, Distinct;
    IdsAreDistinct(last + 1, count);
    forall id | id in keys && 1 <= id
      ensures !Takes(last + 1, count, id)
    {
      SmallNegative(id - (last + 1));
    }
  }

  lemma SmallNegative(n: int)
    requires n < 0 <= n + ID_COUNT
    ensures n % ID_COUNT == n + ID_COUNT
  {
  }

  /** With all stored ids within the cycle, the block is clear exactly as long as it ends before it comes round to the
      smallest of them. */
  lemma ClearWithinTheCycle(keys: map<uint32, KeyPair>, last: uint32, count: uint32)
    requires last <= ID_COUNT && count <= ID_COUNT && forall id :: id in keys ==> 1 <= id <= last
    ensures Clear(keys, last, count) <==> forall id :: id in keys ==> last + count < id + ID_COUNT
  {
    hide IdAt;
    forall id | id in keys
      ensures Takes(last + 1, count, id) <==> id + ID_COUNT <= last + count
    {
      SmallNegative(id - (last + 1));
    }
  }

  /** The pre keys as the application stores them. */
  class PreKeyStore {
    var keys: map<uint32, KeyPair>

    /** `getLastPreKeyIndex`: a running maximum over the stored ids, in whatever order they come. */
    method GetLastPreKeyIndex() returns (index: uint32)
      ensures IsLast(keys, index)
    {
      index := 0;
      var left := keys.Keys;
      ghost var seen: set<uint32> := {};
      while left != {}
        invariant seen + left == keys.Keys
        invariant forall id :: id in seen ==> id <= index
        invariant index in seen || (index == 0 && seen == {})
        decreases left
      {
        var id :| id in left;
        index := if index < id then id else index;
        seen, left := seen + {id}, left - {id};
      }
      assert seen == keys.Keys;
    }

    /** Stores every key of a block under its id. */
    method StoreAll(block: seq<PreKey>)
      modifies this
      ensures keys == Stored(old(keys), block)
    {
      var i := 0;
      while i < |block|
        invariant 0 <= i <= |block| && keys == Stored(old(keys), block[..i])
      {
        assert block[..i + 1][..i] == block[..i];
        keys := keys[block[i].id := block[i].pair];
        i := i + 1;
      }
      assert block[..i] == block;
    }

    /** The last-resort key of `registerPreKeys`: the key stored under its index, or a new one, which is not stored. */
    method LastResortKey(index: uint32, gen: KeyGenerator) returns (key: PreKey)
      modifies gen
      ensures keys == old(keys)
      ensures index in keys ==> key == PreKey(index, keys[index]) && gen.next == old(gen.next)
      ensures index !in keys ==> key == PreKey(IdAt(index, 0), PairOf(old(gen.next))) && gen.next == old(gen.next) + 1
    {
      if index in keys {
        return PreKey(index, keys[index]);
      }
      var block := GeneratePreKeys(index, 1, gen);
      return block[0];
    }

    /** The key part of `registerPreKeys`: the last-resort key to be published, and a stored block. A last-resort key
        generated here is published, but no id of the store leads to it. */
    method RegisterPreKeys(index: uint32, start: uint32, count: uint32, gen: KeyGenerator)
      returns (lastResort: PreKey, block: seq<PreKey>)
      modifies this, gen
      ensures keys == Stored(old(keys), block) && |block| == count
      ensures var first := old(gen.next) + if index in old(keys) then 0 else 1;
              && gen.next == first + count
              && forall i :: 0 <= i < count ==> block[i] == PreKey(IdAt(start, i), PairOf(first + i))
      ensures lastResort.id == (if index in old(keys) then index else IdAt(index, 0))
      ensures (forall id :: id in old(keys) ==> old(keys)[id].pub.id < old(gen.next)) ==>
                ((exists id :: id in old(keys) && old(keys)[id] == lastResort.pair) <==> index in old(keys))
      ensures (forall id :: id in old(keys) ==> old(keys)[id].pub.id < old(gen.next)) && index !in old(keys) ==>
                forall id :: id in keys ==> keys[id] != lastResort.pair
    {
      hide IdAt, Stored;
      ghost var next := gen.next;
      lastResort := LastResortKey(index, gen);
      ghost var later := gen.next;
      block := GeneratePreKeys(start, count, gen);
      if (forall id :: id in keys ==> keys[id].pub.id < next) && index !in keys {
        NotAmongStored(keys, block, lastResort.pair, next, later);
      }
      StoreAll(block);
    }

    /** The refill of `checkPreKeys`: the keys are registered again, with a block behind the largest stored id. It
        keeps every stored key exactly when the block takes none of their ids. */
    method Refill(index: uint32, count: uint32, gen: KeyGenerator) returns (lastResort: PreKey, ghost last: uint32)
      requires TWO32 - 1 !in keys
      modifies this, gen
      ensures IsLast(old(keys), last) && last < TWO32 - 1
      ensures gen.next == old(gen.next) + (if index in old(keys) then 0 else 1) + count
      ensures lastResort.id == (if index in old(keys) then index else IdAt(index, 0))
      ensures (forall id :: id in old(keys) ==> old(keys)[id].pub.id < old(gen.next)) && index !in old(keys) ==>
                forall id :: id in keys ==> keys[id] != lastResort.pair
      ensures (forall id :: id in old(keys) ==> old(keys)[id].pub.id < old(gen.next)) ==>
                (Kept(old(keys), keys) <==> Clear(old(keys), last, count))
      ensures Clear(old(keys), last, count) && Distinct(last + 1, count) ==> |keys| == |old(keys)| + count
    {
      hide IdAt, Takes, Stored, IsLast;
      var start := GetLastPreKeyIndex();
      last := start;
      assert start < TWO32 - 1 by {
        LastIsStored(keys, start);
      }
      ghost var before := keys;
      ghost var first := gen.next + if index in keys then 0 else 1;
      var block;
      lastResort, block := RegisterPreKeys(index, start + 1, count, gen);
      if forall id :: id in before ==> before[id].pub.id < old(gen.next) {
        KeptExactlyIfClear(before, last, block, first);
      }
      if Clear(before, last, count) && Distinct(last + 1, count) {
        ClearIsNew(before, last, block);
        StoredSize(before, block);
      }
    }
  }

  /** The largest stored id, or 0 for an empty store. */
  predicate IsLast(keys: map<uint32, KeyPair>, last: uint32) {
    (forall id :: id in keys ==> id <= last) && (last in keys || (last == 0 && keys == map[]))
  }

  lemma LastIsStored(keys: map<uint32, KeyPair>, last: uint32)
    requires IsLast(keys, last) && TWO32 - 1 !in keys
    ensures last < TWO32 - 1
  {
  }

  lemma ClearIsNew(keys: map<uint32, KeyPair>, last: uint32, block: seq<PreKey>)
    requires last < TWO32 - 1 && |block| < TWO32 && Clear(keys, last, |block|)
    requires forall i :: 0 <= i < |block| ==> block[i].id == IdAt(last + 1, i)
    ensures forall i :: 0 <= i < |block| ==> block[i].id !in keys
  {
    hide IdAt, Takes;
    forall i | 0 <= i < |block|
      ensures block[i].id !in keys
    {
      TakesExactly(last + 1, |block|, block[i].id);
    }
  }
}
