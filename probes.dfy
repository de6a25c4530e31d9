/** Turning a probe's outcome into the record that is logged for it: the
    success branch and the catch branch of the ping test and of the speed test. */
module Probes {
  import opened Outcomes
  import opened Records
  import opened Summaries

  /** The joined ping outcome the logger can receive: either an exception,
      or one response per target address. */
  predicate WellFormedPing(probe: Outcome<seq<PingResponse>>)
  {
    probe.Ok? ==> |probe.payload| == |PingAddresses|
  }

  /** The record logged by a ping test. Success means the probes resolved and
      every target was reachable; an exception gives an unsuccessful record
      whose summary is "failed" and whose data is the error message. */
  function PingRecord(time: string, probe: Outcome<seq<PingResponse>>): (r: Record)
    requires WellFormedPing(probe)
    ensures r.time == time && r.kind == Ping
    ensures r.isSuccessful <==> probe.Ok? && AllAlive(probe.payload)
    ensures r.summary == ProbeFailed <==> probe.Err?
    ensures probe.Ok? ==> r.data == PingResults(probe.payload)
    ensures probe.Err? ==> r.data == ErrorMessage(probe.message)
  {
    match probe
    case Ok(results) => Record(time, Ping, AllAlive(results), SummarizePing(results), PingResults(results))
    case Err(message) => Record(time, Ping, false, ProbeFailed, ErrorMessage(message))
  }

  /** The record logged by a speed test. A result that arrives is always a
      success; an exception gives an unsuccessful record whose summary is
      "failed" and whose data is the error message. */
  function SpeedRecord(time: string, probe: Outcome<SpeedResult>): (r: Record)
    ensures r.time == time && r.kind == SpeedTest
    ensures r.isSuccessful <==> probe.Ok?
    ensures r.summary == ProbeFailed <==> probe.Err?
    ensures probe.Ok? ==> r.summary == SummarizeSpeed(probe.payload) && r.data == SpeedData(probe.payload)
    ensures probe.Err? ==> r.data == ErrorMessage(probe.message)
  {
    match probe
    case Ok(result) => Record(time, SpeedTest, true, SummarizeSpeed(result), SpeedData(result))
    case Err(message) => Record(time, SpeedTest, false, ProbeFailed, ErrorMessage(message))
  }

  /** A ping record is successful exactly when its digest is the average, and
      otherwise its digest names the failed targets or the exception. */
  lemma PingSuccessIffAverage(time: string, probe: Outcome<seq<PingResponse>>)
    requires WellFormedPing(probe)
    ensures PingRecord(time, probe).isSuccessful <==> PingRecord(time, probe).summary.AverageMs?
    ensures probe.Ok? && !AllAlive(probe.payload) ==>
              PingRecord(time, probe).summary == CountFailed(FailedCount(probe.payload))
  {
  }

  /** An average digest carries the mean over the three targets: three times
      the logged figure is the sum of the round-trip times. */
  lemma PingAverageIsMean(time: string, probe: Outcome<seq<PingResponse>>)
    requires WellFormedPing(probe)
    requires PingRecord(time, probe).isSuccessful
    ensures PingRecord(time, probe).summary.AverageMs?
    ensures PingRecord(time, probe).summary.ms * 3.0 == TimeSum(probe.payload)
  {
  }

  /** The summary text of an unsuccessful ping record tells a reader why it
      failed: it reads back as the number of unreachable targets when the
      probes resolved, and as no count at all when they threw. */
  lemma UnsuccessfulPingSummaryText(time: string, probe: Outcome<seq<PingResponse>>)
    requires WellFormedPing(probe)
    requires !PingRecord(time, probe).isSuccessful
    ensures SummaryText(PingRecord(time, probe).summary).Some?
    ensures ParseFailedCount(SummaryText(PingRecord(time, probe).summary).value)
            == if probe.Ok? then Some(FailedCount(probe.payload)) else None
  {
    var r := PingRecord(time, probe);
    if probe.Ok? {
      NoneFailedIffAllAlive(probe.payload);
      assert r.summary == CountFailed(FailedCount(probe.payload));
    }
    SummaryTextRoundTrip(r.summary);
  }
}
