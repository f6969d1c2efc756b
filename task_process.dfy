/** The object-oriented task of task_process.py: a `TaskProcess` asks its
    memory manager for memory, executes its instructions in CPU bursts of at
    most three, and gives the memory back, in that order. */
module TaskProcessVariant {
  import opened Bursts
  import opened Sim

  /** The calls a task has made so far, in order. */
  datatype Phase =
    | MemoryRequested(amount: int)
    | Executed(count: int)
    | MemoryReleased(amount: int)

  /** What became of `run` with nothing else running: a request that
      cannot be served stays pending for ever. */
  datatype RunOutcome = WaitingForMemory | WaitingForCpu | Finished

  /** One `Executed` phase per burst, in burst order. */
  function Executions(counts: seq<int>): (phases: seq<Phase>)
    ensures |phases| == |counts|
    ensures forall i :: 0 <= i < |counts| ==> phases[i] == Executed(counts[i])
  {
    if counts == [] then []
    else Executions(counts[..|counts| - 1]) + [Executed(counts[|counts| - 1])]
  }

  /** One more burst extends the record of executions at its end. */
  lemma ExecutionsAppend(before: seq<Phase>, counts: seq<int>, c: int)
    ensures before + Executions(counts + [c]) == (before + Executions(counts)) + [Executed(c)]
  {
  }

  /** One burst moves from the bursts still to run to the bursts done. */
  lemma BurstsStep(done: seq<int>, n: int, next: int, total: seq<int>)
    requires n > 0 && next == n - Retired(n) && done + BurstSizes(n) == total
    ensures (done + [Retired(n)]) + BurstSizes(next) == total
  {
  }

  class TaskProcess {
    const env: Env
    const pid: int
    var instructions: int
    const memoryManager: Container
    const cpu: Resource
    /** Drawn once, at construction, and never changed afterwards. */
    const memoryNeeded: int
    /** The calls made so far; a proof device, not a field of the source. */
    ghost var history: seq<Phase>

    /** `memoryDraw` stands for `random.randint(1, 10)`. */
    constructor (env: Env, pid: int, instructions: int, memoryManager: Container, cpu: Resource,
                 memoryDraw: int)
      requires 1 <= memoryDraw <= 10
      ensures this.env == env && this.pid == pid && this.instructions == instructions
      ensures this.memoryManager == memoryManager && this.cpu == cpu
      ensures memoryNeeded == memoryDraw && 1 <= memoryNeeded <= 10
      ensures history == []
    {
      this.env := env;
      this.pid := pid;
      this.instructions := instructions;
      this.memoryManager := memoryManager;
      this.cpu := cpu;
      memoryNeeded := memoryDraw;
      history := [];
    }

    /** `request_memory`: ask the memory manager for `memoryNeeded` units. */
    method RequestMemory() returns (granted: bool)
      requires memoryManager.Valid() && memoryNeeded > 0
      modifies memoryManager, this`history
      ensures memoryManager.Valid()
      ensures granted <==> memoryNeeded <= old(memoryManager.level)
      ensures memoryManager.level
              == if granted then old(memoryManager.level) - memoryNeeded else old(memoryManager.level)
      ensures history == old(history) + [MemoryRequested(memoryNeeded)]
    {
      history := history + [MemoryRequested(memoryNeeded)];
      granted := memoryManager.Get(memoryNeeded);
    }

    /** One pass through the `with self.cpu.request()` block of `execute`:
        take the CPU, retire min(instructions, 3), hold the CPU for one time
        unit, free it. Without a free slot the request stays pending. */
    method Burst() returns (granted: bool)
      requires cpu.Valid() && instructions > 0
      modifies this`instructions, this`history, env, cpu
      ensures cpu.Valid() && cpu.users == old(cpu.users)
      ensures env.processes == old(env.processes)
      ensures granted <==> old(cpu.users) < cpu.capacity
      ensures granted ==>
                && instructions == old(instructions) - Retired(old(instructions))
                && history == old(history) + [Executed(Retired(old(instructions)))]
                && env.now == old(env.now) + 1.0
      ensures !granted ==>
                instructions == old(instructions) && history == old(history) && env.now == old(env.now)
    {
      granted := cpu.Request();
      if granted {
        var executeCount := Retired(instructions);
        instructions := instructions - executeCount;
        history := history + [Executed(executeCount)];
        env.Timeout(1.0);
        cpu.Release();
      }
    }

    /** `execute`: run bursts while instructions remain. */
    method Execute() returns (finished: bool)
      requires cpu.Valid()
      modifies this`instructions, this`history, env, cpu
      ensures cpu.Valid() && cpu.users == old(cpu.users)
      ensures env.processes == old(env.processes)
      ensures finished <==> old(instructions) <= 0 || old(cpu.users) < cpu.capacity
      ensures finished ==>
                && instructions == (if old(instructions) > 0 then 0 else old(instructions))
                && env.now == old(env.now) + |BurstSizes(old(instructions))| as real
                && history == old(history) + Executions(BurstSizes(old(instructions)))
      ensures !finished ==>
                instructions == old(instructions) && env.now == old(env.now) && history == old(history)
    {
      ghost var done: seq<int> := [];
      while instructions > 0
        invariant instructions <= old(instructions)
        invariant old(instructions) > 0 ==> instructions >= 0
        invariant old(instructions) <= 0 ==> instructions == old(instructions)
        invariant done + BurstSizes(instructions) == BurstSizes(old(instructions))
        invariant history == old(history) + Executions(done)
        invariant env.now == old(env.now) + |done| as real
        invariant env.processes == old(env.processes)
        invariant cpu.Valid() && cpu.users == old(cpu.users)
        invariant instructions < old(instructions) ==> old(cpu.users) < cpu.capacity
        invariant instructions == old(instructions) ==> done == []
        decreases instructions
      {
        ghost var pending, retired := instructions, Retired(instructions);
        var granted := Burst();
        if !granted {
          return false;
        }
        BurstsStep(done, pending, instructions, BurstSizes(old(instructions)));
        ExecutionsAppend(old(history), done, retired);
        done := done + [retired];
      }
      finished := true;
    }

    /** `release_memory`: give the same `memoryNeeded` units back. */
    method ReleaseMemory() returns (accepted: bool)
      requires memoryManager.Valid() && memoryNeeded > 0
      modifies memoryManager, this`history
      ensures memoryManager.Valid()
      ensures accepted <==> old(memoryManager.level) + memoryNeeded <= memoryManager.capacity
      ensures memoryManager.level
              == if accepted then old(memoryManager.level) + memoryNeeded else old(memoryManager.level)
      ensures history == old(history) + [MemoryReleased(memoryNeeded)]
    {
      history := history + [MemoryReleased(memoryNeeded)];
      accepted := memoryManager.Put(memoryNeeded);
    }

    /** `run`: request memory, execute, release memory; each phase starts
        only once the previous one has finished. */
    method Run() returns (outcome: RunOutcome)
      requires memoryManager.Valid() && cpu.Valid() && memoryNeeded > 0
      modifies this`instructions, this`history, env, cpu, memoryManager
      ensures memoryManager.Valid() && cpu.Valid() && cpu.users == old(cpu.users)
      ensures env.processes == old(env.processes)
      ensures outcome == WaitingForMemory <==> old(memoryManager.level) < memoryNeeded
      ensures outcome == WaitingForCpu <==>
                && memoryNeeded <= old(memoryManager.level)
                && old(instructions) > 0 && cpu.capacity <= old(cpu.users)
      ensures outcome == WaitingForMemory ==>
                && history == old(history) + [MemoryRequested(memoryNeeded)]
                && memoryManager.level == old(memoryManager.level)
                && instructions == old(instructions) && env.now == old(env.now)
      ensures outcome == WaitingForCpu ==>
                && history == old(history) + [MemoryRequested(memoryNeeded)]
                && memoryManager.level == old(memoryManager.level) - memoryNeeded
                && instructions == old(instructions) && env.now == old(env.now)
      ensures outcome == Finished ==>
                && history == old(history) + [MemoryRequested(memoryNeeded)]
                              + Executions(BurstSizes(old(instructions)))
                              + [MemoryReleased(memoryNeeded)]
                && memoryManager.level == old(memoryManager.level)
                && instructions == (if old(instructions) > 0 then 0 else old(instructions))
                && env.now == old(env.now) + |BurstSizes(old(instructions))| as real
    {
      var granted := RequestMemory();
      if !granted {
        return WaitingForMemory;
      }
      var finished := Execute();
      if !finished {
        return WaitingForCpu;
      }
      var accepted := ReleaseMemory();
      assert accepted;
      outcome := Finished;
    }
  }
}
