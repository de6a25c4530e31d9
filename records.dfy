/** The outcome of an external probe: it either resolves with a payload or
    throws, in which case only the error's message is kept. */
module Outcomes {
  datatype Outcome<+T> = Ok(payload: T) | Err(message: string)

  datatype Option<+T> = None | Some(value: T)
}

/** The entities of the logger: per-target ping responses, the bandwidth
    test's result, the digest written as `summary`, and the logged record. */
module Records {
  import opened Outcomes

  /** Which probe produced a record; it is also what a tick chooses to run. */
  datatype Kind = Ping | SpeedTest

  /** One ping target's response: reachable or not, and its round-trip time
      in milliseconds (only read when the target is reachable). */
  datatype PingResponse = PingResponse(alive: bool, time: real)

  /** The three quantities of a bandwidth test that the logger reads. */
  datatype SpeedResult = SpeedResult(downloadBandwidth: real, uploadBandwidth: real, pingLatency: real)

  /** The short digest of a record. Each variant stands for one shape of the
      logged string:
        CountFailed(n)      "<n> failed"
        AverageMs(ms)       "<ms to two decimals>ms"
        SpeedRatios(d,u,l)  "<d>% <u>% <l>ms"
        ProbeFailed         "failed" */
  datatype Summary =
    | CountFailed(failed: nat)
    | AverageMs(ms: real)
    | SpeedRatios(download: real, upload: real, latencyMs: real)
    | ProbeFailed

  /** The raw payload of a record, as a tagged union instead of an untyped value. */
  datatype Data =
    | PingResults(results: seq<PingResponse>)
    | SpeedData(result: SpeedResult)
    | ErrorMessage(message: string)

  /** One line of the log. */
  datatype Record = Record(time: string, kind: Kind, isSuccessful: bool, summary: Summary, data: Data)

  /** The targets pinged on every ping tick. */
  const PingAddresses: seq<string> := ["1.1.1.1", "8.8.8.8", "95.216.19.251"]

  /** Reference bandwidths (bytes per second) the measured ones are divided by. */
  const DownloadInBytes: real := 125.0 * 1000.0 * 1000.0
  const UploadInBytes: real := 6.25 * 1000.0 * 1000.0
}
