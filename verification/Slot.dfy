/** The scheduler's slot as a value: who may hold it, and who is in line. */
module Slot {
  import opened Prelude
  import opened WaiterHeap

  /** arrivals is the source's seq; queue holds the key of every queued waiter. */
  datatype Slot = Slot(arrivals: nat, queue: set<Key>, holder: bool)

  /** The key a waiter has once it has acquired: its first acquire numbers it. */
  function KeyIn(s: Slot, k: Key): Key {
    if k.arrival == 0 then Key(k.priority, s.arrivals + 1) else k
  }

  /** acquire's first locked section. */
  function Acquired(s: Slot, k: Key): Slot {
    Slot(if k.arrival == 0 then s.arrivals + 1 else s.arrivals,
         if s.holder then s.queue + {KeyIn(s, k)} else s.queue,
         true)
  }

  /** acquire's second locked section, for a waiter that has not been granted the slot. */
  function Withdrawn(s: Slot, k: Key): Slot {
    s.(queue := s.queue - {k})
  }

  /** release: the slot goes to the waiter with the given key, or is freed. */
  function Released(s: Slot, next: Option<Key>): Slot {
    if next.None? then s.(holder := false) else s.(queue := s.queue - {next.value})
  }
}
