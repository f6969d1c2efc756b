/** The few pieces of the discrete-event simulator that the task code touches,
    specialised to one task running without contention: a request is granted
    at once when the resource can satisfy it, and otherwise it stays pending
    for ever (there is no other task that could free the resource). The
    clock advances only at timeouts. */
module Sim {

  /** A process registered with the environment: its name and the virtual
      time at which it was started. */
  datatype Launch = Launch(name: string, at: real)

  /** The simulation environment: the virtual clock and the processes
      started so far, in the order they were started. `waited` lists the
      delays of the timeouts served so far, in order; a proof device, not
      state of the simulator. */
  class Env {
    var now: real
    var processes: seq<Launch>
    ghost var waited: seq<real>

    constructor (start: real)
      requires start >= 0.0
      ensures now == start && processes == [] && waited == []
    {
      now := start;
      processes := [];
      waited := [];
    }

    /** `env.timeout(delay)`: the caller resumes `delay` units later. */
    method Timeout(delay: real)
      requires delay >= 0.0
      modifies this
      ensures now == old(now) + delay
      ensures processes == old(processes)
      ensures waited == old(waited) + [delay]
    {
      now := now + delay;
      waited := waited + [delay];
    }

    /** `env.process(...)`: registers a new process at the current instant. */
    method Process(name: string)
      modifies this
      ensures processes == old(processes) + [Launch(name, old(now))]
      ensures now == old(now)
      ensures waited == old(waited)
    {
      processes := processes + [Launch(name, now)];
    }
  }

  /** A bounded stock of units (the RAM container, and the memory manager
      of the object-oriented variant): `get` subtracts, `put` adds. */
  class Container {
    const capacity: int
    var level: int

    ghost predicate Valid()
      reads this
    {
      0 <= level <= capacity
    }

    constructor (capacity: int, init: int)
      requires capacity > 0 && 0 <= init <= capacity
      ensures Valid() && this.capacity == capacity && level == init
    {
      this.capacity := capacity;
      level := init;
    }

    /** `get(amount)`: granted at once when the level covers the amount;
        otherwise the request stays pending and the level is untouched. */
    method Get(amount: int) returns (granted: bool)
      requires Valid() && amount > 0
      modifies this
      ensures Valid()
      ensures granted <==> amount <= old(level)
      ensures level == if granted then old(level) - amount else old(level)
    {
      granted := amount <= level;
      if granted {
        level := level - amount;
      }
    }

    /** `put(amount)`: accepted at once when the units fit under the
        capacity; otherwise the put stays pending and the level is untouched. */
    method Put(amount: int) returns (accepted: bool)
      requires Valid() && amount > 0
      modifies this
      ensures Valid()
      ensures accepted <==> old(level) + amount <= capacity
      ensures level == if accepted then old(level) + amount else old(level)
    {
      accepted := level + amount <= capacity;
      if accepted {
        level := level + amount;
      }
    }
  }

  /** A resource with `capacity` identical slots (the CPU). */
  class Resource {
    const capacity: nat
    var users: nat

    ghost predicate Valid()
      reads this
    {
      users <= capacity
    }

    constructor (capacity: nat)
      requires capacity > 0
      ensures Valid() && this.capacity == capacity && users == 0
    {
      this.capacity := capacity;
      users := 0;
    }

    /** `request()`: granted at once when a slot is free; otherwise pending. */
    method Request() returns (granted: bool)
      requires Valid()
      modifies this
      ensures Valid()
      ensures granted <==> old(users) < capacity
      ensures users == if granted then old(users) + 1 else old(users)
    {
      granted := users < capacity;
      if granted {
        users := users + 1;
      }
    }

    /** Leaving the `with` block of a granted request frees its slot. */
    method Release()
      requires Valid() && users > 0
      modifies this
      ensures Valid()
      ensures users == old(users) - 1
    {
      users := users - 1;
    }
  }
}
