/** The id-keyed buffer allocator (packages/src/memory_manager.rs). */
module MemoryManagement {
  import opened Numeric

  /** A `Vec<u8>` held by the manager, seen through its length and capacity. */
  datatype Allocation = Allocation(length: nat, capacity: nat)

  type Buffers = map<u32, Allocation>

  /** Sum of the capacities of the buffers whose ids are in `ids`, taken in any order. */
  ghost function TotalOver(buffers: Buffers, ids: set<u32>): nat
    requires ids <= buffers.Keys
    decreases ids
  {
    if ids == {} then 0
    else
      var id :| id in ids;
      buffers[id].capacity + TotalOver(buffers, ids - {id})
  }

  /** What `get_total_allocated` reports: the capacities of all live buffers, summed. */
  ghost function TotalCapacity(buffers: Buffers): nat {
    TotalOver(buffers, buffers.Keys)
  }

  /** The sum does not depend on the order: any id may be taken out first. */
  lemma {:induction false} TotalOverRemove(buffers: Buffers, ids: set<u32>, id: u32)
    requires ids <= buffers.Keys && id in ids
    ensures TotalOver(buffers, ids) == buffers[id].capacity + TotalOver(buffers, ids - {id})
    decreases ids
  {
    var first :| first in ids && TotalOver(buffers, ids) == buffers[first].capacity + TotalOver(buffers, ids - {first});
    if first != id {
      TotalOverRemove(buffers, ids - {first}, id);
      TotalOverRemove(buffers, ids - {id}, first);
      assert ids - {first} - {id} == ids - {id} - {first};
    }
  }

  /** The sum over `ids` reads only the entries of `ids`. */
  lemma {:induction false} TotalOverFrame(a: Buffers, b: Buffers, ids: set<u32>)
    requires ids <= a.Keys && ids <= b.Keys
    requires forall id :: id in ids ==> a[id] == b[id]
    ensures TotalOver(a, ids) == TotalOver(b, ids)
    decreases ids
  {
    if ids != {} {
      var id :| id in ids;
      TotalOverRemove(a, ids, id);
      TotalOverRemove(b, ids, id);
      TotalOverFrame(a, b, ids - {id});
    }
  }

  /** Adding a buffer under an unused id adds its capacity to the total. */
  lemma TotalCapacityInsert(buffers: Buffers, id: u32, a: Allocation)
    requires id !in buffers
    ensures TotalCapacity(buffers[id := a]) == TotalCapacity(buffers) + a.capacity
  {
    var after := buffers[id := a];
    TotalOverRemove(after, after.Keys, id);
    assert after.Keys - {id} == buffers.Keys;
    TotalOverFrame(after, buffers, buffers.Keys);
  }

  /** Removing a live buffer takes its capacity off the total; removing a dead id changes nothing. */
  lemma TotalCapacityRemove(buffers: Buffers, id: u32)
    ensures id in buffers ==> TotalCapacity(buffers - {id}) + buffers[id].capacity == TotalCapacity(buffers)
    ensures id !in buffers ==> TotalCapacity(buffers - {id}) == TotalCapacity(buffers)
  {
    var after := buffers - {id};
    if id in buffers {
      TotalOverRemove(buffers, buffers.Keys, id);
      assert after.Keys == buffers.Keys - {id};
      TotalOverFrame(after, buffers, after.Keys);
    } else {
      assert after == buffers;
    }
  }

  /** Ids all below `bound` are at most `bound` in number. */
  lemma {:induction false} IdsBelowBound(ids: set<u32>, bound: nat)
    requires forall id :: id in ids ==> (id as int) < bound
    ensures |ids| <= bound
  {
    if bound > 0 {
      var top := bound - 1;
      var rest := set id | id in ids && (id as int) < top;
      if top < U32_LIMIT && top as u32 in ids {
        assert ids == rest + {top as u32};
      } else {
        assert ids == rest;
      }
      IdsBelowBound(rest, top);
    }
  }

  class MemoryManager {
    var buffers: Buffers
    var nextId: u32

    /** Every live id was handed out before `nextId`, and no buffer is longer than its capacity. */
    ghost predicate Valid()
      reads this
    {
      forall id :: id in buffers ==> id < nextId && buffers[id].length <= buffers[id].capacity
    }

    /** `MemoryManager::new`: no buffers, ids start at 0. */
    constructor ()
      ensures Valid()
      ensures buffers == map[] && nextId == 0
    {
      buffers := map[];
      nextId := 0;
    }

    /** `allocate_buffer`: hands out `nextId`, which no live buffer holds, for an empty
        buffer of capacity `size`. The `+= 1` on a `u32` overflows at `u32::MAX`. */
    method AllocateBuffer(size: nat) returns (id: u32)
      requires Valid()
      requires nextId < U32_MAX
      modifies this
      ensures Valid()
      ensures id == old(nextId) && id !in old(buffers)
      ensures nextId as int == old(nextId) as int + 1
      ensures buffers == old(buffers)[id := Allocation(0, size)]
      ensures |buffers| == |old(buffers)| + 1
      ensures GetBufferLen(id) == 0
      ensures TotalCapacity(buffers) == TotalCapacity(old(buffers)) + size
    {
      id := nextId;
      TotalCapacityInsert(buffers, id, Allocation(0, size));
      buffers := buffers[id := Allocation(0, size)];
      nextId := nextId + 1;
    }

    /** `get_buffer_len`: the length of a live buffer, 0 for an id that is not live. */
    function GetBufferLen(id: u32): (n: nat)
      reads this
      ensures id !in buffers ==> n == 0
      ensures Valid() && id in buffers ==> n <= buffers[id].capacity
    {
      if id in buffers then buffers[id].length else 0
    }

    /** `deallocate_buffer`: reports whether `id` was live and frees it; nothing else changes. */
    method DeallocateBuffer(id: u32) returns (removed: bool)
      requires Valid()
      modifies this
      ensures Valid()
      ensures removed <==> id in old(buffers)
      ensures buffers == old(buffers) - {id} && nextId == old(nextId)
      ensures id !in buffers
      ensures removed ==> TotalCapacity(buffers) + old(buffers)[id].capacity == TotalCapacity(old(buffers))
      ensures !removed ==> buffers == old(buffers)
    {
      removed := id in buffers;
      TotalCapacityRemove(buffers, id);
      buffers := buffers - {id};
    }

    /** `get_total_allocated`: visits the live buffers in whatever order and sums their capacities. */
    method GetTotalAllocated() returns (total: nat)
      ensures total == TotalCapacity(buffers)
    {
      total := 0;
      var pending := buffers.Keys;
      while pending != {}
        invariant pending <= buffers.Keys
        invariant total + TotalOver(buffers, pending) == TotalCapacity(buffers)
        decreases pending
      {
        var id :| id in pending;
        TotalOverRemove(buffers, pending, id);
        total := total + buffers[id].capacity;
        pending := pending - {id};
      }
    }

    /** `get_buffer_count`: the number of live buffers; the `as u32` never truncates,
        since live ids are distinct values below `nextId`. */
    function GetBufferCount(): (n: u32)
      reads this
      requires Valid()
      ensures n as int == |buffers|
      ensures n <= nextId
    {
      IdsBelowBound(buffers.Keys, nextId as int);
      |buffers| as u32
    }
  }

  /** The crate's `test_memory_manager_allocation`, extended with a second release. */
  method AllocationScenario() {
    var manager := new MemoryManager();
    var id := manager.AllocateBuffer(1024);
    assert manager.GetBufferLen(id) == 0;
    assert manager.GetBufferCount() == 1;
    var total := manager.GetTotalAllocated();
    assert total == 1024 by { TotalCapacityInsert(map[], id, Allocation(0, 1024)); }
    var freed := manager.DeallocateBuffer(id);
    assert freed;
    freed := manager.DeallocateBuffer(id);
    assert !freed;
    assert manager.GetBufferCount() == 0;
  }
}
