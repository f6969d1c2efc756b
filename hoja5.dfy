/** The free-function workload of hoja5.py: one task (`proceso`) takes RAM,
    runs CPU bursts with an occasional I/O wait, gives the RAM back and
    records its sojourn time in the global list; a generator
    (`generar_procesos`) starts the named tasks one after another. */
module Hoja5 {
  import opened Bursts
  import opened Sim

  /** Length of one I/O wait. */
  const IO_WAIT: int := 3
  /** An I/O wait happens when the draw from [1, 21] equals this value. */
  const IO_HIT: int := 1
  /** Task names are this prefix followed by the task's number. */
  const NAME_PREFIX: string := "Proceso-"

  datatype Option<T> = None | Some(value: T)

  /** One timeout the task waits through: a CPU burst retiring `retired`
      instructions (one time unit), or an I/O wait (IO_WAIT time units). */
  datatype Step = Burst(retired: int) | IoWait

  /** What became of one `proceso` with nothing else running: a request
      that cannot be served stays pending for ever. */
  datatype Outcome =
    | WaitingForRam
    | WaitingForCpu
    | Completed(sojourn: real)

  /** The global list `tiempos_totales`. */
  class SojournLog {
    var times: seq<real>

    constructor ()
      ensures times == []
    {
      times := [];
    }

    method Append(t: real)
      modifies this
      ensures times == old(times) + [t]
    {
      times := times + [t];
    }
  }

  // ---------------------------------------------------------------------
  // The timeouts of one task, as a function of its draws

  /** The timeouts a task waits through when `pending` instructions remain
      and `draws` are the next draws from [1, 21]. A draw is taken only after
      a burst that leaves instructions behind. */
  function Schedule(pending: int, draws: seq<int>): (s: seq<Step>)
    requires |BurstSizes(pending)| <= |draws| + 1
    ensures pending <= 0 <==> s == []
    ensures s != [] ==> s[0].Burst? && s[|s| - 1].Burst?
    decreases pending
  {
    if pending <= 0 then []
    else
      var left := pending - Retired(pending);
      if left <= 0 then [Burst(Retired(pending))]
      else
        assert BurstSizes(left) == [Retired(left)] + BurstSizes(left - Retired(left));
        [Burst(Retired(pending))]
        + (if draws[0] == IO_HIT then [IoWait] else [])
        + Schedule(left, draws[1..])
  }

  /** Virtual time spent waiting through `steps`. */
  function Duration(steps: seq<Step>): (d: int)
    ensures |steps| <= d <= IO_WAIT * |steps|
  {
    if steps == [] then 0
    else (if steps[0].Burst? then 1 else IO_WAIT) + Duration(steps[1..])
  }

  /** The delays of the timeouts that `steps` waits through, in order. */
  function Delays(steps: seq<Step>): (ds: seq<real>)
    ensures |ds| == |steps|
  {
    if steps == [] then []
    else [(if steps[0].Burst? then 1 else IO_WAIT) as real] + Delays(steps[1..])
  }

  /** The instructions retired by the bursts among `steps`, in order. */
  function Retirements(steps: seq<Step>): seq<int>
  {
    if steps == [] then []
    else (if steps[0].Burst? then [steps[0].retired] else []) + Retirements(steps[1..])
  }

  /** The number of I/O waits among `steps`. */
  function IoCount(steps: seq<Step>): nat
  {
    if steps == [] then 0
    else (if steps[0].IoWait? then 1 else 0) + IoCount(steps[1..])
  }

  /** The number of draws that trigger an I/O wait. */
  function Hits(draws: seq<int>): nat
  {
    if draws == [] then 0
    else (if draws[0] == IO_HIT then 1 else 0) + Hits(draws[1..])
  }

  /** How many draws a task with `k` instructions takes: one after every
      burst but the last. */
  function DrawsUsed(k: int): nat
  {
    if k > 0 then |BurstSizes(k)| - 1 else 0
  }

  lemma {:induction false} DurationConcat(a: seq<Step>, b: seq<Step>)
    ensures Duration(a + b) == Duration(a) + Duration(b)
    decreases |a|
  {
    if a == [] {
      assert a + b == b;
    } else {
      assert (a + b)[0] == a[0];
      assert (a + b)[1..] == a[1..] + b;
      DurationConcat(a[1..], b);
    }
  }

  lemma {:induction false} DelaysConcat(a: seq<Step>, b: seq<Step>)
    ensures Delays(a + b) == Delays(a) + Delays(b)
    decreases |a|
  {
    if a == [] {
      assert a + b == b;
    } else {
      assert (a + b)[0] == a[0];
      assert (a + b)[1..] == a[1..] + b;
      DelaysConcat(a[1..], b);
    }
  }

  lemma {:induction false} RetirementsConcat(a: seq<Step>, b: seq<Step>)
    ensures Retirements(a + b) == Retirements(a) + Retirements(b)
    decreases |a|
  {
    if a == [] {
      assert a + b == b;
    } else {
      assert (a + b)[0] == a[0];
      assert (a + b)[1..] == a[1..] + b;
      RetirementsConcat(a[1..], b);
    }
  }

  lemma {:induction false} IoCountConcat(a: seq<Step>, b: seq<Step>)
    ensures IoCount(a + b) == IoCount(a) + IoCount(b)
    decreases |a|
  {
    if a == [] {
      assert a + b == b;
    } else {
      assert (a + b)[0] == a[0];
      assert (a + b)[1..] == a[1..] + b;
      IoCountConcat(a[1..], b);
    }
  }

  /** A burst costs one unit and an I/O wait three, whatever the burst retires. */
  lemma {:induction false} DurationSplit(steps: seq<Step>)
    ensures Duration(steps) == |Retirements(steps)| + IO_WAIT * IoCount(steps)
    decreases |steps|
  {
    if steps != [] {
      DurationSplit(steps[1..]);
    }
  }

  /** I/O waits consume no burst: the bursts of hoja5.py's task are exactly
      those of a loop without I/O, i.e. those of `TaskProcess.execute`. */
  lemma {:induction false} ScheduleBursts(k: int, draws: seq<int>)
    requires |BurstSizes(k)| <= |draws| + 1
    ensures Retirements(Schedule(k, draws)) == BurstSizes(k)
    decreases k
  {
    if k > 0 {
      var left := k - Retired(k);
      if left > 0 {
        var io: seq<Step> := if draws[0] == IO_HIT then [IoWait] else [];
        var rest := Schedule(left, draws[1..]);
        ScheduleBursts(left, draws[1..]);
        RetirementsConcat([Burst(Retired(k))] + io, rest);
        RetirementsConcat([Burst(Retired(k))], io);
      }
    }
  }

  /** An I/O wait happens exactly once for each draw taken that equals 1. */
  lemma {:induction false} ScheduleIoWaits(k: int, draws: seq<int>)
    requires |BurstSizes(k)| <= |draws| + 1
    ensures DrawsUsed(k) <= |draws|
    ensures IoCount(Schedule(k, draws)) == Hits(draws[..DrawsUsed(k)])
    decreases k
  {
    if k > 0 {
      var left := k - Retired(k);
      if left > 0 {
        var io: seq<Step> := if draws[0] == IO_HIT then [IoWait] else [];
        var rest := Schedule(left, draws[1..]);
        ScheduleIoWaits(left, draws[1..]);
        IoCountConcat([Burst(Retired(k))] + io, rest);
        IoCountConcat([Burst(Retired(k))], io);
        var used := draws[..DrawsUsed(k)];
        assert used[1..] == draws[1..][..DrawsUsed(left)];
      }
    }
  }

  /** An I/O wait always sits between two bursts: it never precedes the
      first burst, never follows the final one, and never repeats. */
  lemma {:induction false} IoWaitPlacement(k: int, draws: seq<int>)
    requires |BurstSizes(k)| <= |draws| + 1
    ensures forall i :: 0 <= i < |Schedule(k, draws)| && Schedule(k, draws)[i].IoWait? ==>
              0 < i < |Schedule(k, draws)| - 1
              && Schedule(k, draws)[i - 1].Burst? && Schedule(k, draws)[i + 1].Burst?
    decreases k
  {
    if k > 0 {
      var left := k - Retired(k);
      if left > 0 {
        var s := Schedule(k, draws);
        var io: seq<Step> := if draws[0] == IO_HIT then [IoWait] else [];
        var rest := Schedule(left, draws[1..]);
        IoWaitPlacement(left, draws[1..]);
        assert s == [Burst(Retired(k))] + io + rest;
        assert rest != [] && rest[0].Burst?;
        forall i | 0 <= i < |s| && s[i].IoWait?
          ensures 0 < i < |s| - 1 && s[i - 1].Burst? && s[i + 1].Burst?
        {
          var j := i - 1 - |io|;
          if j >= 0 {
            assert s[i] == rest[j];
            assert s[i - 1] == rest[j - 1];
            assert s[i + 1] == rest[j + 1];
          }
        }
      }
    }
  }

  /** One turn of the burst loop as `Schedule` lists it: a burst, an I/O
      wait when the turn leaves instructions and its draw hits, then the
      schedule of the instructions left. */
  lemma ScheduleStep(pending: int, draws: seq<int>)
    requires pending > 0 && |BurstSizes(pending)| <= |draws| + 1
    ensures var left := pending - Retired(pending);
            && |BurstSizes(pending)| == 1 + |BurstSizes(left)|
            && (left <= 0 ==> Schedule(pending, draws) == [Burst(Retired(pending))] + Schedule(left, draws))
            && (left > 0 ==>
                  && |draws| >= 1
                  && |BurstSizes(left)| <= |draws[1..]| + 1
                  && Schedule(pending, draws)
                     == [Burst(Retired(pending))] + (if draws[0] == IO_HIT then [IoWait] else [])
                        + Schedule(left, draws[1..]))
  {
    var left := pending - Retired(pending);
    if left <= 0 {
      assert [Burst(Retired(pending))] + Schedule(left, draws) == [Burst(Retired(pending))];
    }
  }

  /** The time and the delay of a single step. */
  lemma DurationUnit(step: Step)
    ensures Duration([step]) == if step.Burst? then 1 else IO_WAIT
    ensures Delays([step]) == [(if step.Burst? then 1 else IO_WAIT) as real]
  {
    assert [step][1..] == [];
  }

  /** Appending one turn to the steps waited through so far. */
  lemma TraceStep(trace: seq<Step>, turn: seq<Step>, rest: seq<Step>, before: seq<Step>, total: seq<Step>,
                  waited: seq<real>)
    requires trace + before == total && turn + rest == before
    ensures (trace + turn) + rest == total
    ensures Duration(trace + turn) == Duration(trace) + Duration(turn)
    ensures (waited + Delays(trace)) + Delays(turn) == waited + Delays(trace + turn)
  {
    assert (trace + turn) + rest == trace + (turn + rest);
    DurationConcat(trace, turn);
    DelaysConcat(trace, turn);
  }

  /** One turn of the burst loop is a burst of min(3, pending) followed, when
      it leaves instructions and its draw hits, by an I/O wait; it is the
      head of the schedule, before the schedule of the instructions left. */
  lemma TurnHead(pending: int, draws: seq<int>)
    requires pending > 0 && |BurstSizes(pending)| <= |draws| + 1
    ensures var left := pending - Retired(pending);
            && (left > 0 ==> |draws| >= 1)
            && var later := if left > 0 then draws[1..] else draws;
               var hit := left > 0 && draws[0] == IO_HIT;
               var turn := [Burst(Retired(pending))] + (if hit then [IoWait] else []);
               && |BurstSizes(left)| <= |later| + 1
               && turn + Schedule(left, later) == Schedule(pending, draws)
               && Duration(turn) == 1 + (if hit then IO_WAIT else 0)
               && Delays(turn) == [1.0] + (if hit then [IO_WAIT as real] else [])
  {
    ScheduleStep(pending, draws);
    var left := pending - Retired(pending);
    var hit := left > 0 && draws[0] == IO_HIT;
    var head := [Burst(Retired(pending))];
    DurationUnit(Burst(Retired(pending)));
    if hit {
      DurationUnit(IoWait);
      DurationConcat(head, [IoWait]);
      DelaysConcat(head, [IoWait]);
    } else {
      assert head + [] == head;
    }
  }

  /** Without contention the sojourn is ceil(k/3) + 3 * (I/O waits): never
      below ceil(k/3), and equal to it exactly when no draw taken hits. */
  lemma SojournBound(k: int, draws: seq<int>)
    requires k >= 0
    requires |BurstSizes(k)| <= |draws| + 1
    ensures DrawsUsed(k) <= |draws|
    ensures Duration(Schedule(k, draws)) == CeilBursts(k) + IO_WAIT * Hits(draws[..DrawsUsed(k)])
    ensures Duration(Schedule(k, draws)) >= CeilBursts(k)
    ensures Duration(Schedule(k, draws)) == CeilBursts(k) <==> Hits(draws[..DrawsUsed(k)]) == 0
  {
    DurationSplit(Schedule(k, draws));
    ScheduleBursts(k, draws);
    ScheduleIoWaits(k, draws);
    BurstCount(k);
  }

  /** Seven instructions and no I/O hit: three bursts, sojourn 3. */
  lemma SevenInstructionsNoIo(draws: seq<int>)
    requires |draws| >= 2 && draws[0] != IO_HIT && draws[1] != IO_HIT
    ensures Duration(Schedule(7, draws)) == 3
  {
    SojournBound(7, draws);
    BurstCount(7);
    var used := draws[..DrawsUsed(7)];
    assert used == [draws[0], draws[1]];
    assert used[1..] == [draws[1]];
    assert used[1..][1..] == [];
    assert Hits(used[1..]) == 0;
    assert Hits(used) == 0;
  }

  // ---------------------------------------------------------------------
  // proceso

  /** The `with CPU.request()` block of `proceso`: take a CPU slot, hold it
      for one time unit, retire min(3, pending) instructions and free the
      slot. Without a free slot the request stays pending and nothing
      changes. */
  method CpuBurst(env: Env, cpu: Resource, pending: int) returns (granted: bool, left: int)
    requires cpu.Valid() && pending > 0
    modifies env, cpu
    ensures cpu.Valid() && cpu.users == old(cpu.users)
    ensures env.processes == old(env.processes)
    ensures granted <==> old(cpu.users) < cpu.capacity
    ensures granted ==> left == pending - Retired(pending) && env.now == old(env.now) + 1.0
    ensures !granted ==> left == pending && env.now == old(env.now)
    ensures env.waited == old(env.waited) + (if granted then [1.0] else [])
  {
    left := pending;
    granted := cpu.Request();
    if granted {
      env.Timeout(1.0);
      left := pending - Retired(pending);
      cpu.Release();
    }
  }

  /** One turn of the burst loop of `proceso`: a CPU burst and, when it
      leaves instructions behind, the next I/O draw, which adds an I/O wait
      when it hits. `turn` lists the timeouts waited through: one burst of
      min(3, pending) and that optional I/O wait. They are the head of the
      schedule still to wait through. */
  method BurstTurn(env: Env, cpu: Resource, pending: int, draws: seq<int>)
    returns (granted: bool, left: int, later: seq<int>, ghost turn: seq<Step>)
    requires cpu.Valid() && pending > 0
    requires |BurstSizes(pending)| <= |draws| + 1
    modifies env, cpu
    ensures cpu.Valid() && cpu.users == old(cpu.users)
    ensures env.processes == old(env.processes)
    ensures granted <==> old(cpu.users) < cpu.capacity
    ensures env.waited == old(env.waited) + Delays(turn)
    ensures !granted ==> env.now == old(env.now) && turn == []
    ensures granted ==>
              && left == pending - Retired(pending)
              && 0 <= left < pending
              && (left > 0 ==> |draws| >= 1 && later == draws[1..])
              && (left == 0 ==> later == draws)
              && turn == [Burst(Retired(pending))]
                         + (if left > 0 && draws[0] == IO_HIT then [IoWait] else [])
              && |BurstSizes(left)| <= |later| + 1
              && turn + Schedule(left, later) == Schedule(pending, draws)
              && env.now == old(env.now) + Duration(turn) as real
  {
    TurnHead(pending, draws);
    granted, left := CpuBurst(env, cpu, pending);
    later := draws;
    ghost var hit := false;
    if granted && left > 0 {
      var draw := draws[0];
      later := draws[1..];
      if draw == IO_HIT {
        env.Timeout(IO_WAIT as real);
        hit := true;
      }
    }
    turn := if granted then [Burst(Retired(pending))] + (if hit then [IoWait] else []) else [];
  }

  /** The burst loop of `proceso`: turns while instructions remain. `trace`
      lists the timeouts waited through, in order; when the loop finishes
      they are exactly `Schedule(instructions, ioDraws)`. Without a free CPU
      slot the first request stays pending and no time passes. */
  method RunBursts(env: Env, cpu: Resource, instructions: int, ioDraws: seq<int>)
    returns (ran: bool, ghost trace: seq<Step>)
    requires cpu.Valid() && instructions >= 0
    requires |BurstSizes(instructions)| <= |ioDraws| + 1
    modifies env, cpu
    ensures cpu.Valid() && cpu.users == old(cpu.users)
    ensures env.processes == old(env.processes)
    ensures ran <==> instructions == 0 || old(cpu.users) < cpu.capacity
    ensures env.now == old(env.now) + Duration(trace) as real
    ensures env.waited == old(env.waited) + Delays(trace)
    ensures ran ==> trace == Schedule(instructions, ioDraws)
    ensures ran ==> env.now == old(env.now) + Duration(Schedule(instructions, ioDraws)) as real
    ensures !ran ==> trace == [] && env.now == old(env.now)
  {
    var pending := instructions;
    var draws := ioDraws;
    trace := [];
    while pending > 0
      invariant 0 <= pending <= instructions
      invariant |BurstSizes(pending)| <= |draws| + 1
      invariant trace + Schedule(pending, draws) == Schedule(instructions, ioDraws)
      invariant env.now == old(env.now) + Duration(trace) as real
      invariant env.waited == old(env.waited) + Delays(trace)
      invariant env.processes == old(env.processes)
      invariant cpu.Valid() && cpu.users == old(cpu.users)
      invariant pending < instructions ==> old(cpu.users) < cpu.capacity
      invariant pending == instructions ==> trace == []
      decreases pending
    {
      ghost var before := Schedule(pending, draws);
      ghost var wasFirst := pending == instructions;
      var granted;
      ghost var turn;
      granted, pending, draws, turn := BurstTurn(env, cpu, pending, draws);
      if !granted {
        assert wasFirst;
        return false, trace;
      }
      TraceStep(trace, turn, Schedule(pending, draws), before, Schedule(instructions, ioDraws), old(env.waited));
      trace := trace + turn;
    }
    assert trace + Schedule(pending, draws) == trace;
    ran := true;
  }

  /** `proceso`: take `memoryDraw` units of RAM, run the burst loop over
      `instructionDraw` instructions with an I/O wait after a burst that
      leaves instructions behind and whose draw hits, give the RAM back
      and append the sojourn time to the log. */
  method Proceso(env: Env, name: string, ram: Container, cpu: Resource, log: SojournLog,
                 memoryDraw: int, instructionDraw: int, ioDraws: seq<int>)
    returns (outcome: Outcome, ghost trace: seq<Step>)
    requires ram.Valid() && cpu.Valid()
    requires 1 <= memoryDraw <= 10 && 1 <= instructionDraw <= 10
    requires |BurstSizes(instructionDraw)| <= |ioDraws| + 1
    modifies env, ram, cpu, log
    ensures ram.Valid() && cpu.Valid()
    ensures outcome.WaitingForRam? <==> old(ram.level) < memoryDraw
    ensures outcome.WaitingForCpu? <==> memoryDraw <= old(ram.level) && cpu.capacity <= old(cpu.users)
    ensures outcome.WaitingForRam? ==> ram.level == old(ram.level) && unchanged(env, cpu, log)
    ensures outcome.WaitingForCpu? ==>
              && ram.level == old(ram.level) - memoryDraw
              && env.now == old(env.now) && env.processes == old(env.processes)
              && cpu.users == old(cpu.users) && log.times == old(log.times)
    ensures !outcome.Completed? ==> trace == []
    ensures env.waited == old(env.waited) + Delays(trace)
    ensures outcome.Completed? ==>
              && trace == Schedule(instructionDraw, ioDraws)
              && outcome.sojourn == Duration(trace) as real
              && outcome.sojourn == Duration(Schedule(instructionDraw, ioDraws)) as real
              && outcome.sojourn >= CeilBursts(instructionDraw) as real
              && env.now == old(env.now) + outcome.sojourn
              && env.processes == old(env.processes)
              && ram.level == old(ram.level)
              && cpu.users == old(cpu.users)
              && log.times == old(log.times) + [outcome.sojourn]
  {
    var arrival := env.now;
    var granted := ram.Get(memoryDraw);
    if !granted {
      return WaitingForRam, [];
    }

    var ran;
    ran, trace := RunBursts(env, cpu, instructionDraw, ioDraws);
    if !ran {
      return WaitingForCpu, trace;
    }

    SojournBound(instructionDraw, ioDraws);
    var accepted := ram.Put(memoryDraw);
    assert accepted;
    var total := env.now - arrival;
    log.Append(total);
    outcome := Completed(total);
  }

  // ---------------------------------------------------------------------
  // Task names and generar_procesos

  function DigitChar(d: int): (c: char)
    requires 0 <= d < 10
    ensures '0' <= c <= '9' && c as int - '0' as int == d
  {
    ('0' as int + d) as char
  }

  predicate IsDigits(s: string)
  {
    forall i :: 0 <= i < |s| ==> '0' <= s[i] <= '9'
  }

  /** The decimal numeral of `n`, as Python's `str` writes it. */
  function Decimal(n: nat): (s: string)
    ensures |s| >= 1 && IsDigits(s)
    ensures s[0] == '0' <==> n == 0
  {
    if n < 10 then [DigitChar(n)] else Decimal(n / 10) + [DigitChar(n % 10)]
  }

  /** The value of a decimal numeral. */
  function ParseDecimal(s: string): nat
    requires IsDigits(s)
  {
    if s == [] then 0
    else 10 * ParseDecimal(s[..|s| - 1]) + (s[|s| - 1] as int - '0' as int)
  }

  lemma {:induction false} DecimalRoundTrip(n: nat)
    ensures ParseDecimal(Decimal(n)) == n
  {
    if n >= 10 {
      var s := Decimal(n);
      assert s[..|s| - 1] == Decimal(n / 10);
      DecimalRoundTrip(n / 10);
    }
  }

  /** `f"Proceso-{i}"`. */
  function TaskName(i: nat): (name: string)
    ensures |name| > |NAME_PREFIX| && name[..|NAME_PREFIX|] == NAME_PREFIX
    ensures IsDigits(name[|NAME_PREFIX|..]) && name[|NAME_PREFIX|..] == Decimal(i)
  {
    NAME_PREFIX + Decimal(i)
  }

  /** The number in a task name, if the name has the form of one. */
  function TaskNumber(name: string): Option<nat>
  {
    if |name| > |NAME_PREFIX| && name[..|NAME_PREFIX|] == NAME_PREFIX && IsDigits(name[|NAME_PREFIX|..])
    then Some(ParseDecimal(name[|NAME_PREFIX|..]))
    else None
  }

  lemma TaskNameRoundTrip(i: nat)
    ensures TaskNumber(TaskName(i)) == Some(i)
  {
    var name := TaskName(i);
    assert name[..|NAME_PREFIX|] == NAME_PREFIX;
    assert name[|NAME_PREFIX|..] == Decimal(i);
    DecimalRoundTrip(i);
  }

  /** Different task numbers give different names. */
  lemma TaskNamesDistinct(i: nat, j: nat)
    ensures TaskName(i) == TaskName(j) <==> i == j
  {
    TaskNameRoundTrip(i);
    TaskNameRoundTrip(j);
  }

  /** Sum of the delays, added up from the front. */
  function SumReal(d: seq<real>): real
  {
    if d == [] then 0.0 else SumReal(d[..|d| - 1]) + d[|d| - 1]
  }

  /** With non-negative delays, later tasks never arrive earlier. */
  lemma {:induction false} ArrivalsOrdered(d: seq<real>, i: nat, j: nat)
    requires forall n :: 0 <= n < |d| ==> d[n] >= 0.0
    requires i <= j <= |d|
    ensures SumReal(d[..i]) <= SumReal(d[..j])
    decreases j - i
  {
    if i < j {
      ArrivalsOrdered(d, i, j - 1);
      assert d[..j][..j - 1] == d[..j - 1];
    }
  }

  /** `generar_procesos`: start `numProcesos` tasks named Proceso-1,
      Proceso-2, ... in that order, waiting `delays[i]` after the i-th. */
  method GenerarProcesos(env: Env, numProcesos: int, delays: seq<real>)
    requires |delays| == if numProcesos > 0 then numProcesos else 0
    requires forall i :: 0 <= i < |delays| ==> delays[i] >= 0.0
    modifies env
    ensures |env.processes| == |old(env.processes)| + |delays|
    ensures env.processes[..|old(env.processes)|] == old(env.processes)
    ensures forall i :: 0 <= i < |delays| ==>
              env.processes[|old(env.processes)| + i]
              == Launch(TaskName(i + 1), old(env.now) + SumReal(delays[..i]))
    ensures env.now == old(env.now) + SumReal(delays)
  {
    var count := if numProcesos > 0 then numProcesos else 0;
    var start := env.now;
    ghost var before := env.processes;
    for i := 0 to count
      invariant |env.processes| == |before| + i
      invariant env.processes[..|before|] == before
      invariant forall n :: 0 <= n < i ==>
                  env.processes[|before| + n] == Launch(TaskName(n + 1), start + SumReal(delays[..n]))
      invariant env.now == start + SumReal(delays[..i])
    {
      env.Process(TaskName(i + 1));
      env.Timeout(delays[i]);
      assert delays[..i + 1][..i] == delays[..i];
    }
    assert delays[..count] == delays;
  }
}
