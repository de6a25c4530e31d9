# Network-quality logger, modelled in Dafny

The logger wakes once a second. A module-level counter `loop` decides what each
tick does. When the counter's value before the increment is a multiple of 600,
the tick runs a bandwidth test. Otherwise it pings three fixed addresses.
Either way the tick writes exactly one record to an append-only log. A record
holds `time`, `type` (`ping` or `speedtest`), `isSuccessful`, a short
`summary` and the raw `data`.

The model has five modules:

- `Outcomes` (records.dfy): `Outcome<T> = Ok(payload) | Err(message)`. It
  replaces each external probe: the probe resolves with a payload or throws an
  error whose message is kept.
- `Records` (records.dfy): the record and its parts. `summary` is the datatype
  `Summary`, one variant per shape of the logged string. `data` is the tagged
  union `Data`: ping responses, a bandwidth result or an error message. Also the
  constants: the three ping addresses and the reference bandwidths
  (125·10⁶ and 6.25·10⁶ bytes/s).
- `Summaries` (summaries.dfy): the ping digest `SummarizePing`, the bandwidth
  digest `SummarizeSpeed`, and the exact texts `"<n> failed"` and `"failed"`.
  The texts come with a decimal rendering and a parser that reads them back.
- `Probes` (probes.dfy): `PingRecord` and `SpeedRecord` map a probe outcome to
  the logged record. They cover the try branch and the catch branch of
  `testPing` and `testSpeed`.
- `Scheduler` (scheduler.dfy): `ChooseAction` picks the probe for a tick.
  `Replay` is a pure model of the records written by successive ticks. The
  class `Monitor` holds the counter `loop` and the log, and its methods
  `LogResult`, `TestPing`, `TestSpeed` and `Run` update them in place;
  `RunTicks` runs one tick per input and is proved to append `Replay` of them.

Inputs from outside the program become parameters. A tick receives a
`TickInput`: the clock's reading, plus the outcome of whichever probe the tick
runs. An `Ok` ping outcome holds one response per address, as joining the
three probes gives.

On an empty set of ping responses the source divides 0 by 0
(source/index.ts:44) and logs `NaNms`. The logger never reaches that case,
because it always pings three addresses (source/index.ts:9). So
`SummarizePing` requires a non-empty input.

## Model

| member | source | states |
|---|---|---|
| Summaries.FailedCount | source/index.ts:39 | the number of responses that are not alive, never more than the number of responses; `FailedCountIsFailingIndices` proves it equals the number of failing positions |
| Summaries.AllAlive | source/index.ts:58 | definition, no contract: every response is alive, as `every` tests; `NoneFailedIffAllAlive` proves it holds exactly when the failed count is 0 |
| Summaries.TimeSum | source/index.ts:44 | definition, no contract: the left-to-right sum of the times starting from 0, as the `reduce` computes; `TimeSumBounds` bounds it |
| Summaries.FailedCountIsFailingIndices | source/index.ts:39 | the failed count equals the number of positions whose response is not alive |
| Summaries.NoneFailedIffAllAlive | source/index.ts:39-44 | the failed count is 0 exactly when every response is alive |
| Summaries.FailedCountIgnoresTimes | source/index.ts:39 | the failed count depends only on the alive flags, not on the times |
| Summaries.SummarizePing | source/index.ts:38-47 | the digest is a failure count exactly when some target is not alive, and that count is the failed count (> 0); otherwise it is an average whose product with the number of results is the sum of the times |
| Summaries.FailureSummaryIgnoresTimes | source/index.ts:41-46 | when some target failed, two inputs with the same alive flags get the same digest `CountFailed(failed)`: the times are discarded |
| Summaries.TimeSumBounds | source/index.ts:44 | if every time lies in [lo, hi], the left-to-right sum lies in [lo·n, hi·n] |
| Summaries.AverageWithinRange | source/index.ts:41-46 | when all targets are alive, the digest is an average that lies between any lower and upper bound of the times |
| Summaries.PingSummaryExamples | source/index.ts:38-47 | times 10, 20, 30 all alive give average 20; the same with the second not alive give a count of 1 failure |
| Summaries.SummarizeSpeed | source/index.ts:67-71 | the digest's download and upload figures times the reference bandwidths (lines 10-11) give back the measured bandwidths, and its latency is the measured latency |
| Summaries.SpeedRatioIsOneIffReference | source/index.ts:10-11 | a bandwidth figure is 1 exactly when the measured bandwidth equals its reference |
| Summaries.DecimalText | source/index.ts:46 | the rendering of a count is a non-empty string of digits, with no leading zero unless the count is 0 |
| Summaries.DecimalRoundTrip | source/index.ts:46 | reading the decimal rendering of n gives back n |
| Summaries.FailedCountText | source/index.ts:46 | the text `"<n> failed"` always ends in `" failed"` and is longer than the exception summary `"failed"` (lines 63, 78), so it never equals it |
| Summaries.FailedCountTextRoundTrip | source/index.ts:46 | the text `"<n> failed"` parses back to n |
| Summaries.SummaryText | source/index.ts:46 | a digest has an exact logged text precisely when it is a failed count or the exception summary, the two digests whose text is not a floating-point rendering |
| Summaries.SummaryTextRoundTrip | source/index.ts:46-78 | through its logged text, a failed-count digest parses back to its count, the exception summary `"failed"` (lines 63, 78) parses as no count, and no count's text equals `"failed"` |
| Probes.WellFormedPing | source/index.ts:51-55 | definition, no contract: a resolved ping outcome holds one response per address of line 9, as joining the three probes gives; an outcome that threw is always admitted |
| Probes.PingRecord | source/index.ts:49-65 | a ping record is stamped with its time and typed `ping`; it is successful exactly when the probes resolved and every target is alive; its summary is `failed` exactly when the probes threw; its data is the responses, or the error message after an exception |
| Probes.SpeedRecord | source/index.ts:73-80 | a speed record is typed `speedtest`; it is successful exactly when the test resolved; its summary is `failed` exactly when the test threw, and otherwise it is the bandwidth digest; its data is the result or the error message |
| Probes.PingSuccessIffAverage | source/index.ts:39-59 | a ping record is successful exactly when its summary is the average; a resolved ping with an unreachable target is summarised by its failed count |
| Probes.PingAverageIsMean | source/index.ts:9-59 | a successful ping record's average times 3, the number of addresses, is the sum of the three round-trip times |
| Probes.UnsuccessfulPingSummaryText | source/index.ts:46-63 | an unsuccessful ping record's summary text parses back to the number of unreachable targets when the probes resolved, and to no count when they threw |
| Scheduler.ChooseAction | source/index.ts:87-88 | a tick runs the bandwidth test exactly when its pre-increment counter is divisible by 600, and the ping test otherwise |
| Scheduler.TickRecord | source/index.ts:84-89 | the record of a tick has the kind that tick selects and is the record of the test it runs |
| Scheduler.Replay | source/index.ts:82-91 | successive ticks write exactly one record each: as many records as ticks |
| Scheduler.ReplayStep | source/index.ts:82-91 | one more tick appends exactly one record, the one that tick makes, after all earlier ones |
| Scheduler.ReplayShape | source/index.ts:82-91 | the i-th of the records written by successive ticks is the record of tick start+i on its own input |
| Scheduler.SpeedTestTicksCount | source/index.ts:82-88 | among the first n ticks after a start, ceil(n/600) run the bandwidth test (ticks 0, 600, 1200, …) |
| Scheduler.Monitor.constructor | source/index.ts:7-82 | at start the counter is 0 and the log is empty |
| Scheduler.Monitor.LogResult | source/index.ts:21-36 | appends exactly one record with the given fields and the given time; earlier records are unchanged |
| Scheduler.Monitor.TestPing | source/index.ts:49-65 | appends exactly one record, `PingRecord` of the outcome, whether the probes resolved or threw |
| Scheduler.Monitor.TestSpeed | source/index.ts:73-80 | appends exactly one record, `SpeedRecord` of the outcome, whether the test resolved or threw |
| Scheduler.Monitor.Run | source/index.ts:82-89 | uses the counter's pre-increment value, leaves the counter exactly one larger, returns the action `ChooseAction` selects for that value, and appends exactly one record, of that kind |
| Scheduler.Monitor.RunTicks | source/index.ts:82-91 | N successive ticks advance the counter by N and append exactly `Replay` of the inputs: N records, the i-th that of tick old counter + i |

## Left out

- File path construction, opening the write stream and the write itself (source/index.ts:6-7, 35): these are I/O. The log is the sequence `Monitor.log`, and a record is appended as one value.
- Timestamps from the clock (source/index.ts:6, 27): the time is an opaque string supplied with each tick.
- The ping and bandwidth probes themselves (source/index.ts:53, 75): they are foreign library calls, modelled as `Outcome` inputs. Only the download bandwidth, upload bandwidth and latency of a bandwidth result are modelled.
- Records.PingResponse keeps only `alive` and a real `time`. The source logs the library's whole response objects as `data` (source/index.ts:60), and the library does not type `time` as a number: the source casts it (source/index.ts:44). The model assumes every reachable target has a real round-trip time, and `AverageWithinRange` and `PingAverageIsMean` rely on that.
- The parallel fan-out of the three pings and the joining of their results (source/index.ts:51-55): the model receives the joined outcome. Which rejection wins when several probes throw is not modelled.
- The repeating timer and overlapping ticks (source/index.ts:91): ticks are modelled as strictly sequential calls of `Run` (`RunTicks`). In the running program a bandwidth test lasts much longer than the one-second period, so the pings of the following ticks run while it does, and the record of tick 0, 600, 1200, … is appended after theirs. The model does not capture this interleaving: `ReplayShape`'s statement that the i-th record is tick start+i's holds only when every tick finishes before the next one fires.
- Summaries.SummarizePing: the mean is exact over reals, and its rendering to two decimals is not modelled, because that is floating-point to string conversion. The empty input, where the source divides 0 by 0, is excluded by a precondition; the logger always pings three addresses.
- Summaries.SummarizeSpeed: the division is exact over reals, and the rendering of the three figures into `"<d>% <u>% <l>ms"` is not modelled, because that is floating-point to string conversion.
- Serialising a record to one JSON line (source/index.ts:35): that is a library serialiser over an untyped value. `data` is modelled as a tagged union instead.
- Scheduler.Monitor.Run: the counter is an unbounded natural number. The source's counter is a floating-point number, which stops counting exactly after 2^53 ticks (far beyond any process lifetime at one tick per second).
- The console progress line (source/index.ts:86) and the unused `filesize` import (source/index.ts:4): neither affects the log.
