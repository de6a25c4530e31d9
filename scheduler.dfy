/** The once-a-second tick: a counter picks the probe, the probe's outcome
    becomes one record, and the record is appended to the log. */
module Scheduler {
  import opened Outcomes
  import opened Records
  import opened Summaries
  import opened Probes

  /** Every this many ticks the bandwidth test runs instead of the ping test. */
  const SpeedTestPeriod: nat := 600

  /** The probe a tick runs, from the counter's value before the increment. */
  function ChooseAction(tick: nat): (k: Kind)
    ensures k == SpeedTest <==> tick % SpeedTestPeriod == 0
  {
    if tick % SpeedTestPeriod == 0 then SpeedTest else Ping
  }

  /** What the environment supplies to one tick: the clock's reading when the
      record is made, and the outcome of whichever probe the tick runs. */
  datatype TickInput = TickInput(time: string, ping: Outcome<seq<PingResponse>>, speed: Outcome<SpeedResult>)

  predicate WellFormedTick(input: TickInput)
  {
    WellFormedPing(input.ping)
  }

  /** The record one tick appends, given the counter's pre-increment value. */
  function TickRecord(tick: nat, input: TickInput): (r: Record)
    requires WellFormedTick(input)
    ensures r.kind == ChooseAction(tick) && r.time == input.time
    ensures r.kind == SpeedTest ==> r == SpeedRecord(input.time, input.speed)
    ensures r.kind == Ping ==> r == PingRecord(input.time, input.ping)
  {
    match ChooseAction(tick)
    case SpeedTest => SpeedRecord(input.time, input.speed)
    case Ping => PingRecord(input.time, input.ping)
  }

  /** The records written by successive ticks, the first with counter `start`. */
  function Replay(start: nat, inputs: seq<TickInput>): (r: seq<Record>)
    requires forall i :: 0 <= i < |inputs| ==> WellFormedTick(inputs[i])
    ensures |r| == |inputs|
  {
    if inputs == [] then []
    else Replay(start, inputs[..|inputs| - 1]) + [TickRecord(start + |inputs| - 1, inputs[|inputs| - 1])]
  }

  /** One more tick appends exactly the record that tick makes. */
  lemma ReplayStep(start: nat, inputs: seq<TickInput>, next: TickInput)
    requires forall i :: 0 <= i < |inputs| ==> WellFormedTick(inputs[i])
    requires WellFormedTick(next)
    ensures Replay(start, inputs + [next]) == Replay(start, inputs) + [TickRecord(start + |inputs|, next)]
  {
  }

  /** N ticks write exactly N records, the i-th by the probe that tick
      `start + i` selects, stamped with that tick's time. */
  lemma {:induction false} ReplayShape(start: nat, inputs: seq<TickInput>)
    requires forall i :: 0 <= i < |inputs| ==> WellFormedTick(inputs[i])
    ensures forall i :: 0 <= i < |inputs| ==>
              Replay(start, inputs)[i] == TickRecord(start + i, inputs[i])
  {
    if inputs != [] {
      var init := inputs[..|inputs| - 1];
      ReplayShape(start, init);
    }
  }

  /** Number of ticks among 0 .. n-1 that run the bandwidth test. */
  function SpeedTestTicks(n: nat): nat
  {
    if n == 0 then 0
    else SpeedTestTicks(n - 1) + (if ChooseAction(n - 1) == SpeedTest then 1 else 0)
  }

  /** From a fresh start, the bandwidth test runs on ticks 0, 600, 1200, …:
      among the first n ticks, ceil(n / 600) of them. */
  lemma {:induction false} SpeedTestTicksCount(n: nat)
    ensures SpeedTestTicks(n) == (n + SpeedTestPeriod - 1) / SpeedTestPeriod
  {
    if n > 0 {
      SpeedTestTicksCount(n - 1);
    }
  }

  /** The logger's process-wide state: the tick counter and the log, which
      only ever grows at its end. */
  class Monitor {
    var loop: nat
    var log: seq<Record>

    constructor ()
      ensures loop == 0 && log == []
    {
      loop := 0;
      log := [];
    }

    /** Appends one record stamped with `time`. */
    method LogResult(time: string, kind: Kind, isSuccessful: bool, summary: Summary, data: Data)
      modifies this`log
      ensures log == old(log) + [Record(time, kind, isSuccessful, summary, data)]
    {
      log := log + [Record(time, kind, isSuccessful, summary, data)];
    }

    /** Runs the ping test on an outcome of the three probes; appends one record. */
    method TestPing(time: string, probe: Outcome<seq<PingResponse>>)
      requires WellFormedPing(probe)
      modifies this`log
      ensures log == old(log) + [PingRecord(time, probe)]
    {
      match probe {
        case Ok(results) =>
          LogResult(time, Ping, AllAlive(results), SummarizePing(results), PingResults(results));
        case Err(message) =>
          LogResult(time, Ping, false, ProbeFailed, ErrorMessage(message));
      }
    }

    /** Runs the bandwidth test on an outcome of the measurement; appends one record. */
    method TestSpeed(time: string, probe: Outcome<SpeedResult>)
      modifies this`log
      ensures log == old(log) + [SpeedRecord(time, probe)]
    {
      match probe {
        case Ok(result) =>
          LogResult(time, SpeedTest, true, SummarizeSpeed(result), SpeedData(result));
        case Err(message) =>
          LogResult(time, SpeedTest, false, ProbeFailed, ErrorMessage(message));
      }
    }

    /** One tick: reads the counter, bumps it by one, and runs the probe the
        old value selects; exactly one record is appended. */
    method Run(input: TickInput) returns (action: Kind)
      requires WellFormedTick(input)
      modifies this
      ensures loop == old(loop) + 1
      ensures action == ChooseAction(old(loop))
      ensures log == old(log) + [TickRecord(old(loop), input)]
      ensures log[|old(log)|].kind == action
    {
      var currentLoop := loop;
      loop := loop + 1;
      if currentLoop % SpeedTestPeriod == 0 {
        action := SpeedTest;
        TestSpeed(input.time, input.speed);
      } else {
        action := Ping;
        TestPing(input.time, input.ping);
      }
    }

    /** Successive ticks, one per input, as the repeating timer fires them
        when no tick overlaps the next: the counter advances by the number of
        ticks and the log grows by exactly their records, in order. */
    method RunTicks(inputs: seq<TickInput>)
      requires forall i :: 0 <= i < |inputs| ==> WellFormedTick(inputs[i])
      modifies this
      ensures loop == old(loop) + |inputs|
      ensures log == old(log) + Replay(old(loop), inputs)
    {
      ghost var start, log0 := loop, log;
      var i := 0;
      while i < |inputs|
        invariant 0 <= i <= |inputs|
        invariant loop == start + i
        invariant log == log0 + Replay(start, inputs[..i])
      {
        var done := inputs[..i];
        assert done + [inputs[i]] == inputs[..i + 1];
        ReplayStep(start, done, inputs[i]);
        var _ := Run(inputs[i]);
        i := i + 1;
      }
      assert inputs[..i] == inputs;
    }
  }
}
