/**
 The in-memory store of executions: a ring buffer of fixed capacity, an index by id and
 an event log per execution.  The ghost history `added` is everything ever added; the
 ring is its last `capacity` entries.
 */
module ExecutionStore {
  import opened Wrappers

  type Event = string

  datatype Record = Record(status: string, steps: map<string, string>)

  datatype Snapshot = Snapshot(id: string, record: Record)

  class Execution {
    const id: string
    var record: Record

    constructor (id: string, record: Record)
      ensures this.id == id && this.record == record
    {
      this.id := id;
      this.record := record;
    }
  }

  const DEFAULT_CAPACITY: nat := 100

  /** The slot of the `k`-th newest entry when the next one goes to `head`. */
  function Slot(head: nat, k: nat, capacity: nat): (i: int)
    requires head < capacity && k < capacity
    ensures 0 <= i < capacity
  {
    if k < head then head - 1 - k else head - 1 - k + capacity
  }

  /** The index computed with a remainder is that slot. */
  lemma SlotIsRemainder(head: nat, k: nat, capacity: nat)
    requires head < capacity && k < capacity
    ensures (head - 1 - k + capacity) % capacity == Slot(head, k, capacity)
    ensures (head + 1) % capacity == if head + 1 == capacity then 0 else head + 1
  {
    var x := head - 1 - k + capacity;
    if x >= capacity {
      RemainderOf(x, x - capacity, capacity);
    } else {
      RemainderSmall(x, capacity);
    }
    if head + 1 == capacity {
      RemainderOf(head + 1, 0, capacity);
    } else {
      RemainderSmall(head + 1, capacity);
    }
  }

  lemma RemainderOf(x: nat, r: nat, capacity: nat)
    requires r < capacity && x == capacity + r
    ensures x % capacity == r
  {
  }

  lemma RemainderSmall(r: nat, capacity: nat)
    requires r < capacity
    ensures r % capacity == r
  {
  }

  /** The slots hold the last `capacity` additions, the next one goes to `head`. */
  ghost predicate Ring(slots: seq<Execution?>, head: nat, count: nat, added: seq<Execution>, capacity: nat) {
    && 0 < capacity == |slots| && head < capacity
    && count == (if |added| < capacity then |added| else capacity)
    && forall k: nat | k < count :: slots[Slot(head, k, capacity)] == added[|added| - 1 - k]
  }

  lemma RingAdd(slots: seq<Execution?>, head: nat, count: nat, added: seq<Execution>, capacity: nat, exec: Execution)
    requires Ring(slots, head, count, added, capacity)
    ensures count == capacity ==> slots[head] == added[|added| - count]
    ensures Ring(
              slots[head := exec], (head + 1) % capacity, if count < capacity then count + 1 else count,
              added + [exec], capacity)
  {
    SlotIsRemainder(head, 0, capacity);
    var head', count' := (head + 1) % capacity, if count < capacity then count + 1 else count;
    if count == capacity {
      assert slots[Slot(head, capacity - 1, capacity)] == added[|added| - count];
    }
    forall k: nat | k < count'
      ensures slots[head := exec][Slot(head', k, capacity)] == (added + [exec])[|added| - k]
    {
      if k > 0 {
        assert Slot(head', k, capacity) == Slot(head, k - 1, capacity) != head;
      }
    }
  }

  ghost predicate UniqueIds(es: seq<Execution>) {
    forall i, j | 0 <= i < j < |es| :: es[i].id != es[j].id
  }

  ghost predicate Listed(es: seq<Execution>, id: string) {
    exists i :: 0 <= i < |es| && es[i].id == id
  }

  /** No id is stored twice and the index finds exactly the stored executions. */
  ghost predicate ExactIndex(es: seq<Execution>, byID: map<string, Execution>) {
    && UniqueIds(es)
    && (forall id :: id in byID <==> Listed(es, id))
    && (forall i | 0 <= i < |es| :: es[i].id in byID && byID[es[i].id] == es[i])
  }

  /** Event logs are kept for stored executions only. */
  ghost predicate LogsOf(es: seq<Execution>, events: map<string, seq<Event>>) {
    forall id | id in events :: Listed(es, id)
  }

  /** What stays when the next execution is added. */
  ghost function Kept(es: seq<Execution>, capacity: nat): (kept: seq<Execution>) {
    if |es| < capacity || es == [] then es else es[1..]
  }

  /** The keys that stay: the oldest execution's goes when the ring is full. */
  function WithoutOldest<V>(m: map<string, V>, es: seq<Execution>, capacity: nat): map<string, V> {
    if |es| < capacity || es == [] then m else m - {es[0].id}
  }

  lemma RetainedAfter(slots: seq<Execution?>, head: nat, count: nat, added: seq<Execution>, capacity: nat, exec: Execution)
    requires Ring(slots, head, count, added, capacity)
    ensures var es, count' := added[|added| - count..], if count < capacity then count + 1 else count;
            && count' <= |added| + 1 && |es| == count <= capacity
            && (added + [exec])[|added| + 1 - count'..] == Kept(es, capacity) + [exec]
  {
  }

  lemma OldestGoes<V>(m: map<string, V>, es: seq<Execution>, capacity: nat)
    requires 0 < capacity && |es| <= capacity
    ensures WithoutOldest(m, es, capacity) == if |es| < capacity then m else m - {es[0].id}
  {
  }

  class MemoryExecutionStore {
    const capacity: nat
    const buffer: array<Execution?>
    var byID: map<string, Execution>
    var events: map<string, seq<Event>>
    var head: nat
    var count: nat
    ghost var added: seq<Execution>

    ghost predicate Valid()
      reads this, buffer
    {
      && 0 < capacity == buffer.Length && head < capacity && count <= capacity && count <= |added|
      && Ring(buffer[..], head, count, added, capacity)
    }

    /** The executions still stored, oldest first. */
    ghost function Retained(): (es: seq<Execution>)
      requires count <= |added|
      reads this
    {
      added[|added| - count..]
    }

    ghost predicate IndexExact()
      requires count <= |added|
      reads this
    {
      ExactIndex(Retained(), byID)
    }

    ghost predicate LogsRetained()
      requires count <= |added|
      reads this
    {
      LogsOf(Retained(), events)
    }

    constructor (capacity: int)
      ensures Valid() && fresh(buffer) && added == [] && byID == map[] && events == map[]
      ensures this.capacity == if capacity <= 0 then 100 else capacity
      ensures IndexExact() && LogsRetained()
    {
      var size := if capacity <= 0 then DEFAULT_CAPACITY else capacity;
      this.capacity := size;
      buffer := new Execution?[size](_ => null);
      byID := map[];
      events := map[];
      head := 0;
      count := 0;
      added := [];
    }

    /**
     Keeps the last `capacity` executions; what falls out disappears from the index and
     the event logs.  The index stays exact if and only if no stored execution has the
     new one's id once the oldest has made room.
     */
    method Add(exec: Execution)
      requires Valid()
      modifies this, buffer
      ensures Valid() && added == old(added) + [exec]
      ensures Retained() == Kept(old(Retained()), capacity) + [exec]
      ensures byID == WithoutOldest(old(byID), old(Retained()), capacity)[exec.id := exec]
      ensures events == WithoutOldest(old(events), old(Retained()), capacity)
      ensures old(IndexExact()) ==> (IndexExact() <==> !Listed(Kept(old(Retained()), capacity), exec.id))
      ensures old(IndexExact()) && old(LogsRetained()) ==> LogsRetained()
    {
      hide Ring, ExactIndex, LogsOf, Listed, Kept, WithoutOldest;
      ghost var before := Retained();
      RingAdd(buffer[..], head, count, added, capacity, exec);
      RetainedAfter(buffer[..], head, count, added, capacity, exec);
      OldestGoes(byID, before, capacity);
      OldestGoes(events, before, capacity);
      AfterAdd(before, exec, byID, events, capacity);
      if count >= capacity {
        var oldest := buffer[head];
        if oldest != null {
          byID := byID - {oldest.id};
          events := events - {oldest.id};
        }
      }
      buffer[head] := exec;
      byID := byID[exec.id := exec];
      head := (head + 1) % capacity;
      added := added + [exec];
      if count < capacity {
        count := count + 1;
      }
    }

    /** A snapshot of the execution with that id, if the index knows it. */
    method Get(id: string) returns (result: Option<Snapshot>)
      requires Valid()
      ensures result.Some? <==> id in byID
      ensures result.Some? ==> result.value == Snapshot(byID[id].id, byID[id].record)
      ensures IndexExact() ==> (result.Some? <==> Listed(Retained(), id))
      ensures IndexExact() && result.Some? ==>
                exists i :: 0 <= i < |Retained()| && result.value == Snapshot(id, Retained()[i].record)
    {
      if id !in byID {
        return None;
      }
      result := Some(Snapshot(byID[id].id, byID[id].record));
    }

    /** Newest first. */
    method List() returns (result: seq<Snapshot>)
      requires Valid()
      ensures |result| == |Retained()| == if |added| < capacity then |added| else capacity
      ensures forall k | 0 <= k < |result| ::
                result[k] == Snapshot(added[|added| - 1 - k].id, added[|added| - 1 - k].record)
    {
      result := [];
      for i := 0 to count
        invariant |result| == i
        invariant forall k | 0 <= k < i ::
                    result[k] == Snapshot(added[|added| - 1 - k].id, added[|added| - 1 - k].record)
      {
        SlotIsRemainder(head, i, capacity);
        var idx := (head - 1 - i + capacity) % capacity;
        assert buffer[..][idx] == added[|added| - 1 - i];
        var exec := buffer[idx];
        if exec != null {
          result := result + [Snapshot(exec.id, exec.record)];
        }
      }
    }

    /** Overwrites through the index what the ring shows as well; an unknown id changes nothing. */
    method Update(id: string, record: Record)
      requires Valid()
      modifies if id in byID then {byID[id]} else {}
      ensures Valid()
      ensures id in byID ==> byID[id].record == record
      ensures IndexExact() ==>
                forall i | 0 <= i < |Retained()| ::
                  Retained()[i].record == if Retained()[i].id == id then record else old(Retained()[i].record)
    {
      if id in byID {
        var existing := byID[id];
        existing.record := record;
      }
    }

    /** Appends to the log of that id, stored or not. */
    method AppendEvent(id: string, ev: Event)
      requires Valid()
      modifies this`events
      ensures id in events && events[id] == (if id in old(events) then old(events)[id] else []) + [ev]
      ensures events.Keys == old(events).Keys + {id} && forall i | i in events && i != id :: events[i] == old(events)[i]
      ensures old(LogsRetained()) ==> (LogsRetained() <==> Listed(Retained(), id))
    {
      events := events[id := (if id in events then events[id] else []) + [ev]];
    }
  }

  lemma KeptListed(es: seq<Execution>, capacity: nat)
    requires 0 < capacity && |es| <= capacity && UniqueIds(es)
    ensures UniqueIds(Kept(es, capacity))
    ensures forall id :: Listed(Kept(es, capacity), id) <==> Listed(es, id) && !(|es| == capacity && id == es[0].id)
  {
    var kept := Kept(es, capacity);
    if |es| == capacity {
      forall id
        ensures Listed(kept, id) <==> Listed(es, id) && id != es[0].id
      {
        if Listed(es, id) && id != es[0].id {
          var i :| 0 <= i < |es| && es[i].id == id;
          assert kept[i - 1].id == id;
        }
        if Listed(kept, id) {
          var i :| 0 <= i < |kept| && kept[i].id == id;
          assert es[i + 1].id == id && es[0].id != es[i + 1].id;
        }
      }
    }
  }

  lemma ListedAppend(es: seq<Execution>, exec: Execution)
    requires UniqueIds(es)
    ensures forall id :: Listed(es + [exec], id) <==> Listed(es, id) || id == exec.id
    ensures UniqueIds(es + [exec]) <==> !Listed(es, exec.id)
  {
    forall id
      ensures Listed(es + [exec], id) <==> Listed(es, id) || id == exec.id
    {
      if Listed(es, id) {
        var i :| 0 <= i < |es| && es[i].id == id;
        assert (es + [exec])[i].id == id;
      }
      assert (es + [exec])[|es|].id == exec.id;
    }
    if Listed(es, exec.id) {
      var i :| 0 <= i < |es| && es[i].id == exec.id;
      assert (es + [exec])[i].id == (es + [exec])[|es|].id;
    }
  }

  /**
   After an addition the index is exact again if and only if no execution that stays has
   the new one's id; logs of executions that fell out are gone.
   */
  lemma AfterAdd(es: seq<Execution>, exec: Execution, byID: map<string, Execution>, events: map<string, seq<Event>>, capacity: nat)
    requires 0 < capacity && |es| <= capacity
    ensures var es' := Kept(es, capacity) + [exec];
            && (ExactIndex(es, byID) ==>
                  (ExactIndex(es', WithoutOldest(byID, es, capacity)[exec.id := exec]) <==> !Listed(Kept(es, capacity), exec.id)))
            && (ExactIndex(es, byID) && LogsOf(es, events) ==> LogsOf(es', WithoutOldest(events, es, capacity)))
  {
    if ExactIndex(es, byID) {
      KeptListed(es, capacity);
      ListedAppend(Kept(es, capacity), exec);
      hide Listed, UniqueIds;
      if !Listed(Kept(es, capacity), exec.id) {
        IndexEntries(es, exec, byID, capacity);
      }
    }
  }

  /** With an id stored twice the index forgets it as soon as the older entry falls out, while the newer is still listed. */
  lemma DuplicateForgotten(es: seq<Execution>, exec: Execution, byID: map<string, Execution>, capacity: nat)
    requires 2 <= capacity == |es| && es[0].id == es[1].id != exec.id
    ensures es[0].id !in WithoutOldest(byID, es, capacity)[exec.id := exec]
    ensures Listed(Kept(es, capacity) + [exec], es[0].id)
  {
    assert (Kept(es, capacity) + [exec])[0].id == es[0].id;
  }

  lemma IndexEntries(es: seq<Execution>, exec: Execution, byID: map<string, Execution>, capacity: nat)
    requires 0 < capacity && |es| <= capacity && ExactIndex(es, byID) && !Listed(Kept(es, capacity), exec.id)
    ensures var es', byID' := Kept(es, capacity) + [exec], WithoutOldest(byID, es, capacity)[exec.id := exec];
            forall i | 0 <= i < |es'| :: es'[i].id in byID' && byID'[es'[i].id] == es'[i]
  {
    var kept := Kept(es, capacity);
    forall i | 0 <= i < |kept|
      ensures kept[i].id != exec.id && kept[i].id in WithoutOldest(byID, es, capacity)
      ensures WithoutOldest(byID, es, capacity)[kept[i].id] == kept[i]
    {
      assert Listed(kept, kept[i].id);
      assert kept[i] == es[i] || kept[i] == es[i + 1];
    }
  }
}
