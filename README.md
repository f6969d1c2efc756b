# Per-task lifecycle of the HDT5 operating-system simulation

HDT5 simulates processes that compete for RAM and a CPU under a
discrete-event simulator. The repository writes the lifecycle of one
process in two variants:

- **`proceso`** in `hoja5.py`. It draws an amount of RAM (1 to 10 units)
  and takes it from the RAM container. It then runs CPU bursts until its
  1 to 10 instructions are done. Each burst retires `min(3, remaining)`
  instructions and costs one time unit. After a burst that leaves
  instructions behind, a draw from [1, 21] equal to 1 adds a 3-unit I/O
  wait. At the end the process gives the RAM back and appends its sojourn
  time (`now - arrival`) to the global list `tiempos_totales`.
  **`generar_procesos`** starts `num_procesos` such processes, named
  `Proceso-1`, `Proceso-2`, … in order, with a delay after each one.
- **`TaskProcess`** in `task_process.py`. It draws `memory_needed` once,
  at construction. `run` does `request_memory`, then `execute`, then
  `release_memory`. `execute` decrements `instructions` by `min(n, 3)`
  per burst, and each burst costs one time unit. It has no I/O wait.

The model follows one process running without contention. The modules are:

- **`Sim`** (`sim.dfy`) holds thin stand-ins for the simulator objects the
  process touches. `Env` is the clock plus the list of started processes.
  It also keeps a ghost log, `waited`, of the delays of the timeouts served
  so far.
  `Container` models the RAM and the memory manager: `get` subtracts and
  `put` adds. `Resource` models the CPU slots. A request these objects can
  serve is granted at once. A request they cannot serve stays pending for
  ever, because no other process exists to free the resource.
- **`Bursts`** (`bursts.dfy`) holds the burst quantisation that both
  variants share.
- **`Hoja5`** (`hoja5.dfy`) models `proceso` as the method `Proceso`. Its
  `while` loop is the method `RunBursts`. One turn of the loop is
  `BurstTurn`, and the `with CPU.request()` block inside a turn is
  `CpuBurst`. Each turn returns the steps it waited through as a ghost
  `turn`: one burst of min(3, pending), then an I/O wait if that turn's
  draw hits. The environment's `waited` log grows by exactly those steps'
  delays. The loop collects the turns into a ghost `trace`. `RunBursts`
  proves three facts about it: the `waited` log grows by the trace's
  delays, the clock by its duration, and a finished loop's trace is
  exactly `Schedule`. `Schedule` is the list of timeouts a process with
  those draws waits through. The lemmas about `Schedule` therefore
  describe the timeouts the loop really served: the bursts, their count,
  the I/O waits and the total time. The module
  also models `generar_procesos` and the task names.
- **`TaskProcessVariant`** (`task_process.py`'s model, `task_process.dfy`)
  models `TaskProcess` as a class. `Execute` keeps the `while` loop over
  the `instructions` field. A ghost `history` records the calls in order,
  so that `Run` can state the order of its phases.

Random draws become parameters:
- `memoryDraw` and `instructionDraw` are restricted to [1, 10], the range
  of `random.randint(1, 10)`.
- `ioDraws` lists the successive `randint(1, 21)` values. One is used
  after each burst that leaves instructions behind, as Python's
  short-circuiting `and` does.
- `delays` lists the inter-arrival times.

The clock is a `real`, because arrival times come from exponential
delays. It is computed exactly, whereas the program uses floating-point
numbers (see "## Left out").

Details of the code that the model keeps:
- In `hoja5.py`, the instruction count is drawn after the RAM is granted,
  not when the process is created.
- `RAM.put` is not yielded.
- `TaskProcess` takes its instruction count as a constructor argument. It
  decrements the count before its one-unit timeout, whereas `proceso`
  decrements after it.

## Model

| member | source | states |
|---|---|---|
| `Bursts.Retired` | hoja5.py:26 | one burst retires between 1 and 3 instructions, never more than remain, and is the smaller of 3 and the remaining count |
| `Bursts.BurstCount` | hoja5.py:22-28 | the burst loop runs ceil(n/3) times for n > 0 and not at all for n ≤ 0 |
| `Bursts.BurstsRetireAll` | hoja5.py:23-28 | the bursts retire exactly the initial count, so the remaining counter ends at exactly 0 and never goes negative |
| `Bursts.BurstShape` | task_process.py:42-46 | every burst retires 1 to 3 instructions, and every burst but the last retires a full 3 |
| `Bursts.BurstSizes` | hoja5.py:23-28 | the loop makes no burst exactly when no instruction is pending; with `BurstCount`, `BurstsRetireAll` and `BurstShape`, its bursts are ceil(n/3) in number, retire exactly n, and are all full 3s but the last |
| `Bursts.CeilBursts` | hoja5.py:22-28 | the burst bound c is ceil(n/3): (c-1)·3 < n ≤ c·3 |
| `Hoja5.Schedule` | hoja5.py:23-32 | a process with no pending instruction waits through no timeout; otherwise its timeouts start and end with a CPU burst (the I/O check at line 31 never fires after the final burst) |
| `Hoja5.Duration` | hoja5.py:27-32 | every timeout costs between 1 and 3 time units, so a schedule of m timeouts lasts between m and 3m |
| `Hoja5.DurationSplit` | hoja5.py:26-32 | each burst costs 1 time unit whatever it retires, and each I/O wait costs 3 |
| `Hoja5.ScheduleBursts` | hoja5.py:23-32 | I/O waits consume no burst: the bursts of `proceso` retire the same counts, in the same order, as `TaskProcess.execute` does for the same initial count |
| `Hoja5.ScheduleIoWaits` | hoja5.py:31-32 | a task with k instructions uses ceil(k/3)−1 I/O draws, and an I/O wait happens exactly once for each of these draws that equals 1 |
| `Hoja5.IoWaitPlacement` | hoja5.py:23-32 | every I/O wait sits between two bursts: never before the first, never after the final burst, never two in a row |
| `Hoja5.SojournBound` | hoja5.py:15-36 | without contention, sojourn = ceil(k/3) + 3·(I/O draws that hit); hence sojourn ≥ ceil(k/3), with equality iff no I/O wait happens |
| `Hoja5.SevenInstructionsNoIo` | hoja5.py:22-36 | 7 instructions with no I/O hit give a sojourn of exactly 3 |
| `Hoja5.CpuBurst` | hoja5.py:24-28 | with a free CPU slot, exactly one timeout of one time unit is served, min(3, pending) instructions are retired and the slot is freed again; without one, nothing changes |
| `Hoja5.BurstTurn` | hoja5.py:23-32 | one turn waits through exactly one burst of min(3, pending) and then one I/O wait if the turn leaves instructions and its draw is 1. The timeouts served are exactly these steps' delays, and the clock advances by their duration. The steps are the head of the schedule still to wait through. The next I/O draw is used only when instructions remain. Without a free slot nothing happens. |
| `Hoja5.RunBursts` | hoja5.py:22-32 | the loop finishes iff a CPU slot is free (or nothing is pending). The timeouts it serves are the delays of its trace, in order, and a finished loop's trace is exactly `Schedule(k, draws)`. It therefore runs ceil(k/3) bursts retiring exactly k instructions (`ScheduleBursts`, `BurstCount`, `BurstsRetireAll`), and no I/O wait comes first, last or twice in a row (`IoWaitPlacement`). The clock advances by the trace's duration and the CPU slot count is restored; otherwise no time passes. |
| `Hoja5.Proceso` | hoja5.py:13-37 | if RAM cannot cover the draw, the process stays pending and nothing changes; if no CPU slot is free, it stays pending holding its RAM; otherwise the timeouts it serves are exactly the delays of `Schedule`, in order, its sojourn is their duration, at least ceil(k/3), the clock advances by exactly that, the RAM level and the CPU users return to their values before the process, and exactly one record, the sojourn, is appended to `tiempos_totales`, with nothing else in the list changed |
| `Hoja5.SojournLog.constructor` | hoja5.py:11 | `tiempos_totales` starts empty |
| `Hoja5.SojournLog.Append` | hoja5.py:37 | appending a sojourn time adds it at the end and keeps every earlier entry |
| `Hoja5.Decimal` | hoja5.py:42 | the numeral of the task number is a non-empty string of decimal digits, with a leading `0` only for the number 0 |
| `Hoja5.TaskName` | hoja5.py:42 | a task name is the prefix `Proceso-` followed by the digits of its number, with at least one digit |
| `Hoja5.DecimalRoundTrip` | hoja5.py:42 | reading back the decimal numeral of the task number gives the number |
| `Hoja5.TaskNameRoundTrip` | hoja5.py:42 | the name `Proceso-i` parses back to i |
| `Hoja5.TaskNamesDistinct` | hoja5.py:42 | two tasks get the same name iff they have the same number |
| `Hoja5.ArrivalsOrdered` | hoja5.py:41-43 | with non-negative delays, a later task's start time is never earlier than an earlier task's |
| `Hoja5.GenerarProcesos` | hoja5.py:39-43 | exactly `num_procesos` processes are started (none if it is ≤ 0), the i-th named `Proceso-i` and started after the first i−1 delays; earlier processes are kept; the clock advances by the sum of the delays |
| `Sim.Env.Timeout` | hoja5.py:27 | a timeout advances the clock by exactly its delay, records that delay at the end of the served timeouts, and starts no process |
| `Sim.Env.Process` | hoja5.py:42 | starting a process registers it at the current time without moving the clock or serving a timeout |
| `Sim.Container.Get` | hoja5.py:19 | a get is granted iff the level covers the amount, and then subtracts it; otherwise the level is unchanged |
| `Sim.Container.Put` | hoja5.py:35 | a put is accepted iff it fits under the capacity, and then adds the amount; otherwise the level is unchanged |
| `Sim.Resource.Request` | hoja5.py:24-25 | a CPU request is granted iff a slot is free, and then takes one |
| `Sim.Resource.Release` | hoja5.py:24-28 | leaving the `with` block frees exactly one slot |
| `TaskProcessVariant.Executions` | task_process.py:45-46 | one `Executed` record per burst, in burst order |
| `TaskProcessVariant.TaskProcess.constructor` | task_process.py:10-24 | the fields are the constructor's arguments, and `memory_needed` is a constant drawn once in [1, 10] |
| `TaskProcessVariant.TaskProcess.RequestMemory` | task_process.py:35-38 | `memory_needed` units are asked for; granted iff available, and then subtracted |
| `TaskProcessVariant.TaskProcess.Burst` | task_process.py:43-48 | one pass through the `with` block: with a free CPU slot, `instructions` drops by min(instructions, 3), one time unit passes and the slot is freed again; without one, nothing changes |
| `TaskProcessVariant.TaskProcess.Execute` | task_process.py:40-48 | if `instructions` ≤ 0 there are no bursts and no time passes; otherwise, with a free CPU slot, the bursts are exactly `BurstSizes(n)` (ceil(n/3) of them), `instructions` ends at 0, the clock advances by the number of bursts and the CPU slot count is restored; with no free slot nothing happens |
| `TaskProcessVariant.TaskProcess.ReleaseMemory` | task_process.py:50-53 | the same `memory_needed` units are given back |
| `TaskProcessVariant.TaskProcess.Run` | task_process.py:27-33 | the calls happen in the order request, execute, release, none skipped or reordered; the amount released equals the amount requested, so the memory level after a finished run equals the level before it; a run that stops waiting for memory or CPU makes no later call |

Proof helpers, which state no property of the program of their own and
have no row:
- `Hoja5.Delays`: the delays of a list of steps.
- `Hoja5.DurationConcat`, `Hoja5.DelaysConcat`, `Hoja5.RetirementsConcat`
  and `Hoja5.IoCountConcat`: time, delays and bursts of concatenated
  schedules.
- `Hoja5.ScheduleStep` and `Hoja5.TurnHead`: one unfolding of `Schedule`.
- `Hoja5.DurationUnit`: a single step.
- `Hoja5.TraceStep`: one step of the loop invariant of `RunBursts`.
- `TaskProcessVariant.ExecutionsAppend` and
  `TaskProcessVariant.BurstsStep`: one step of the loop invariant of
  `Execute`.

## Left out

- Contention between processes is not modelled: the simulator's event queue, the FIFO blocking of `Container`, and the slot queue of `Resource`. That behaviour lives in the simulation library, which is not part of this model. A request the single process cannot have served stays pending for ever.
- The memory manager's own class is not part of this model. It is treated as a counter, the same `Container`.
- `random` and its global seeding: every draw is a parameter.
- `random.expovariate` inter-arrival delays: these are floating-point numerics. They appear as the given `delays`.
- The `print` logging in `task_process.py`, and the `statistics` and `matplotlib` imports.
- `Hoja5.GenerarProcesos`: the started processes are only registered, with their names and start times. Running them concurrently is the simulator's interleaving, and it is not modelled.
- `TaskProcessVariant.TaskProcess.constructor`: the constructor does not itself start `run`, as `self.action = env.process(self.run())` does. The caller invokes `Run`.
- `Hoja5.Proceso`: the unused `nombre` argument is kept, but nothing is done with it.
- `Hoja5.Proceso`: the clock and the sojourn time are computed exactly, as reals. The program uses floating-point numbers, so when the arrival time is not a whole number its result can differ by rounding. For example, an arrival at 1.1 with 7 instructions and no I/O hit records ((1.1+1)+1)+1 − 1.1 = 2.9999999999999996 in floating point, where the model gives exactly 3.
- `Hoja5.GenerarProcesos`: the start times are exact sums of the delays, whereas the program sums floating-point delays with rounding.
- `TaskProcessVariant.TaskProcess.Execute`: the clock advances by exact whole units; with a floating-point start time the program's clock can differ by rounding, as for `Proceso`.
