/** The digests written into a record's `summary` field. */
module Summaries {
  import opened Outcomes
  import opened Records

  // ---------------------------------------------------------------------------
  // Ping summary
  // ---------------------------------------------------------------------------

  /** The number of responses whose target was not reachable. */
  function FailedCount(results: seq<PingResponse>): (n: nat)
    ensures n <= |results|
  {
    if results == [] then 0
    else FailedCount(results[..|results| - 1]) + (if results[|results| - 1].alive then 0 else 1)
  }

  /** The positions of the unreachable targets: an independent definition of
      which results count as failed. */
  ghost function FailingIndices(results: seq<PingResponse>): set<nat>
  {
    set i: nat | i < |results| && !results[i].alive
  }

  /** The left-to-right sum of the round-trip times. */
  function TimeSum(results: seq<PingResponse>): real
  {
    if results == [] then 0.0
    else TimeSum(results[..|results| - 1]) + results[|results| - 1].time
  }

  /** Whether every target was reachable. */
  predicate AllAlive(results: seq<PingResponse>)
  {
    forall i :: 0 <= i < |results| ==> results[i].alive
  }

  /** The failed count is exactly the number of unreachable targets. */
  lemma {:induction false} FailedCountIsFailingIndices(results: seq<PingResponse>)
    ensures FailedCount(results) == |FailingIndices(results)|
  {
    if results != [] {
      var init := results[..|results| - 1];
      var last := |results| - 1;
      FailedCountIsFailingIndices(init);
      assert forall i: nat :: i < |init| ==> init[i] == results[i];
      if results[last].alive {
        assert FailingIndices(results) == FailingIndices(init);
      } else {
        assert FailingIndices(results) == FailingIndices(init) + {last};
      }
    }
  }

  /** No target failed exactly when every target was reachable. */
  lemma {:induction false} NoneFailedIffAllAlive(results: seq<PingResponse>)
    ensures FailedCount(results) == 0 <==> AllAlive(results)
  {
    if results != [] {
      var init := results[..|results| - 1];
      NoneFailedIffAllAlive(init);
      assert forall i :: 0 <= i < |init| ==> init[i] == results[i];
    }
  }

  /** The failed count depends on the reachability flags only. */
  lemma {:induction false} FailedCountIgnoresTimes(results: seq<PingResponse>, other: seq<PingResponse>)
    requires |results| == |other|
    requires forall i :: 0 <= i < |results| ==> results[i].alive == other[i].alive
    ensures FailedCount(results) == FailedCount(other)
  {
    if results != [] {
      FailedCountIgnoresTimes(results[..|results| - 1], other[..|other| - 1]);
    }
  }

  /** The ping digest: the number of unreachable targets when there is at
      least one, otherwise the mean round-trip time. The input is never empty
      in the logger (one response per address); the source divides 0 by 0
      on an empty one. */
  function SummarizePing(results: seq<PingResponse>): (r: Summary)
    requires |results| > 0
    ensures r.CountFailed? || r.AverageMs?
    ensures r.CountFailed? <==> exists i :: 0 <= i < |results| && !results[i].alive
    ensures r.CountFailed? ==> r.failed == FailedCount(results) && r.failed > 0
    ensures r.AverageMs? ==> r.ms * |results| as real == TimeSum(results)
  {
    NoneFailedIffAllAlive(results);
    var failed := FailedCount(results);
    if failed != 0 then CountFailed(failed)
    else AverageMs(TimeSum(results) / |results| as real)
  }

  /** When some target failed, the round-trip times do not matter: two inputs
      that agree on which targets were reachable get the same digest. */
  lemma FailureSummaryIgnoresTimes(results: seq<PingResponse>, other: seq<PingResponse>)
    requires |results| == |other| > 0
    requires forall i :: 0 <= i < |results| ==> results[i].alive == other[i].alive
    requires !AllAlive(results)
    ensures SummarizePing(results) == SummarizePing(other) == CountFailed(FailedCount(results))
  {
    FailedCountIgnoresTimes(results, other);
    NoneFailedIffAllAlive(results);
  }

  /** Bounds of the sum of times, from bounds of each time. */
  lemma {:induction false} TimeSumBounds(results: seq<PingResponse>, lo: real, hi: real)
    requires forall i :: 0 <= i < |results| ==> lo <= results[i].time <= hi
    ensures lo * |results| as real <= TimeSum(results) <= hi * |results| as real
  {
    if results != [] {
      var init := results[..|results| - 1];
      assert forall i :: 0 <= i < |init| ==> init[i] == results[i];
      TimeSumBounds(init, lo, hi);
      assert |results| as real == |init| as real + 1.0;
    }
  }

  /** The average lies between the smallest and the largest round-trip time. */
  lemma AverageWithinRange(results: seq<PingResponse>, lo: real, hi: real)
    requires |results| > 0 && AllAlive(results)
    requires forall i :: 0 <= i < |results| ==> lo <= results[i].time <= hi
    ensures SummarizePing(results).AverageMs?
    ensures lo <= SummarizePing(results).ms <= hi
  {
    NoneFailedIffAllAlive(results);
    TimeSumBounds(results, lo, hi);
    var n := |results| as real;
    var m := SummarizePing(results).ms;
    assert m * n == TimeSum(results);
    assert (m - lo) * n >= 0.0;
    assert (hi - m) * n >= 0.0;
  }

  /** The worked cases: all three reachable at 10, 20 and 30 ms average
      20 ms; with one unreachable the digest is one failure, whatever the times. */
  lemma PingSummaryExamples()
    ensures SummarizePing([PingResponse(true, 10.0), PingResponse(true, 20.0), PingResponse(true, 30.0)])
            == AverageMs(20.0)
    ensures SummarizePing([PingResponse(true, 10.0), PingResponse(false, 20.0), PingResponse(true, 30.0)])
            == CountFailed(1)
  {
    var ok := [PingResponse(true, 10.0), PingResponse(true, 20.0), PingResponse(true, 30.0)];
    assert ok[..2] == [PingResponse(true, 10.0), PingResponse(true, 20.0)];
    assert ok[..2][..1] == [PingResponse(true, 10.0)];
    assert FailedCount(ok) == 0;
    assert TimeSum(ok[..2][..1]) == 10.0;
    assert TimeSum(ok[..2]) == 30.0;
    assert TimeSum(ok) == 60.0;
    var bad := [PingResponse(true, 10.0), PingResponse(false, 20.0), PingResponse(true, 30.0)];
    assert bad[..2] == [PingResponse(true, 10.0), PingResponse(false, 20.0)];
    assert bad[..2][..1] == [PingResponse(true, 10.0)];
  }

  // ---------------------------------------------------------------------------
  // Speed-test summary
  // ---------------------------------------------------------------------------

  /** The bandwidth digest: download and upload bandwidth as fractions of the
      reference bandwidths (not scaled by 100, although labelled with "%"),
      and the measured latency. */
  function SummarizeSpeed(result: SpeedResult): (s: Summary)
    ensures s.SpeedRatios?
    ensures s.download * DownloadInBytes == result.downloadBandwidth
    ensures s.upload * UploadInBytes == result.uploadBandwidth
    ensures s.latencyMs == result.pingLatency
  {
    SpeedRatios(result.downloadBandwidth / DownloadInBytes,
                result.uploadBandwidth / UploadInBytes,
                result.pingLatency)
  }

  /** A ratio is 1 exactly when the measured bandwidth equals the reference:
      the general form of the worked case where 125,000,000 and 6,250,000
      bytes/s with a 15 ms latency are logged as "1% 1% 15ms". */
  lemma SpeedRatioIsOneIffReference(result: SpeedResult)
    ensures SummarizeSpeed(result).download == 1.0 <==> result.downloadBandwidth == DownloadInBytes
    ensures SummarizeSpeed(result).upload == 1.0 <==> result.uploadBandwidth == UploadInBytes
    ensures SummarizeSpeed(SpeedResult(125000000.0, 6250000.0, 15.0)) == SpeedRatios(1.0, 1.0, 15.0)
  {
  }

  // ---------------------------------------------------------------------------
  // The literal failure texts
  // ---------------------------------------------------------------------------

  predicate IsDigit(c: char) { '0' <= c <= '9' }

  predicate AllDigits(s: string) { forall i :: 0 <= i < |s| ==> IsDigit(s[i]) }

  /** The decimal text of a count, as a template string renders an integer:
      no leading zero except for 0 itself. */
  function DecimalText(n: nat): (s: string)
    ensures |s| > 0 && AllDigits(s)
    ensures s[0] == '0' ==> n == 0
  {
    var digit := ('0' as int + n % 10) as char;
    if n < 10 then [digit] else DecimalText(n / 10) + [digit]
  }

  /** The value of a string of decimal digits. */
  function DecimalValue(s: string): nat
    requires AllDigits(s)
  {
    if s == [] then 0
    else DecimalValue(s[..|s| - 1]) * 10 + (s[|s| - 1] as int - '0' as int)
  }

  /** Reading the decimal text back gives the count. */
  lemma {:induction false} DecimalRoundTrip(n: nat)
    ensures DecimalValue(DecimalText(n)) == n
  {
    var s := DecimalText(n);
    if n >= 10 {
      DecimalRoundTrip(n / 10);
      assert s[..|s| - 1] == DecimalText(n / 10);
    }
  }

  const FailedSuffix: string := " failed"

  /** The text of a probe that threw. */
  const ProbeFailedText: string := "failed"

  /** The text of a ping digest with `n` unreachable targets. It always ends
      in " failed" and is longer than the text of a probe that threw. */
  function FailedCountText(n: nat): (t: string)
    ensures |t| > |ProbeFailedText| && t[|t| - |FailedSuffix|..] == FailedSuffix
  {
    DecimalText(n) + FailedSuffix
  }

  /** Reads a failed-count text back, if the string is one. */
  function ParseFailedCount(s: string): Option<nat>
  {
    var k := |s| - |FailedSuffix|;
    if k > 0 && s[k..] == FailedSuffix && AllDigits(s[..k]) then Some(DecimalValue(s[..k]))
    else None
  }

  /** A failed-count text is read back as its count. */
  lemma FailedCountTextRoundTrip(n: nat)
    ensures ParseFailedCount(FailedCountText(n)) == Some(n)
  {
    var s := FailedCountText(n);
    var k := |s| - |FailedSuffix|;
    assert s[..k] == DecimalText(n);
    assert s[k..] == FailedSuffix;
    DecimalRoundTrip(n);
  }

  /** The logged text of a digest, for the digests whose text is not a
      floating-point rendering: `"<n> failed"` and `"failed"`. */
  function SummaryText(s: Summary): (t: Option<string>)
    ensures t.Some? <==> s.CountFailed? || s.ProbeFailed?
  {
    match s
    case CountFailed(n) => Some(FailedCountText(n))
    case ProbeFailed => Some(ProbeFailedText)
    case _ => None
  }

  /** Through the logged text, a failed-count digest reads back as its count,
      the digest of a probe that threw reads back as no count, and the two
      texts never coincide. */
  lemma SummaryTextRoundTrip(s: Summary)
    requires s.CountFailed? || s.ProbeFailed?
    ensures s.CountFailed? ==> ParseFailedCount(SummaryText(s).value) == Some(s.failed)
    ensures s.ProbeFailed? ==> ParseFailedCount(SummaryText(s).value) == None
    ensures forall n: nat :: SummaryText(CountFailed(n)) != SummaryText(ProbeFailed)
  {
    if s.CountFailed? {
      FailedCountTextRoundTrip(s.failed);
    }
  }
}
