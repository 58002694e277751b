/** The free list of entity slots. A slot index stays meaningful for as long as the entity lives. */
module Pools {

  /** No index is on the free list twice, and all are slots of the pool. */
  ghost predicate FreeListSound(free: seq<nat>, size: nat) {
    && (forall i :: 0 <= i < |free| ==> free[i] < size)
    && (forall i, j :: 0 <= i < j < |free| ==> free[i] != free[j])
  }

  class Pool<T> {
    const blank: T
    var entities: seq<T>
    var freeList: seq<nat>

    ghost predicate Valid()
      reads this
    {
      forall i :: 0 <= i < |freeList| ==> freeList[i] < |entities|
    }

    /** The slots in use. */
    ghost function Live(): set<nat>
      reads this
    {
      set i: nat | i < |entities| && i !in freeList
    }

    constructor (blank: T)
      ensures Valid() && entities == [] && freeList == [] && this.blank == blank
    {
      this.blank := blank;
      entities, freeList := [], [];
    }

    /** Hands out a slot that was not in use, the last freed first. */
    method Alloc() returns (idx: nat)
      requires Valid()
      modifies this
      ensures Valid() && idx < |entities|
      ensures if old(freeList) == []
              then idx == old(|entities|) && entities == old(entities) + [blank] && freeList == []
              else old(freeList) == freeList + [idx] && entities == old(entities)
      ensures old(FreeListSound(freeList, |entities|)) ==>
                FreeListSound(freeList, |entities|) && idx !in old(Live()) && Live() == old(Live()) + {idx}
    {
      if |freeList| == 0 {
        idx := |entities|;
        entities := entities + [blank];
      } else {
        idx := freeList[|freeList| - 1];
        freeList := freeList[..|freeList| - 1];
      }
    }

    /** Clears the slot and makes it available again; freeing a slot that is not in use would list it twice. */
    method Free(idx: nat)
      requires Valid() && idx < |entities|
      modifies this
      ensures Valid()
      ensures entities == old(entities)[idx := blank] && freeList == old(freeList) + [idx]
      ensures old(FreeListSound(freeList, |entities|)) ==>
                (FreeListSound(freeList, |entities|) <==> idx in old(Live())) && Live() == old(Live()) - {idx}
    {
      entities := entities[idx := blank];
      freeList := freeList + [idx];
      if idx !in old(Live()) && old(FreeListSound(freeList, |entities|)) {
        ghost var i :| 0 <= i < |old(freeList)| && old(freeList)[i] == idx;
        assert freeList[i] == freeList[|freeList| - 1];
      }
    }

    method Set(idx: nat, x: T)
      requires Valid() && idx < |entities|
      modifies this`entities
      ensures Valid() && entities == old(entities)[idx := x]
    {
      entities := entities[idx := x];
    }
  }
}
