# A verified model of the Knative workload generator and its log parser

The repository is a pipeline: a generator sends requests on a schedule, writes one log record per request, and a parser
turns log files into database rows. This project models both ends and the text between them, and proves what the pipeline
as a whole keeps.

**The generator.** `Machine` is the generator as a transition system: the scheduling goroutine of `run`, `rampUp` and
`runMaxThroughput`, any number of workers, the clock, the ticker with its one-slot channel, the token bucket, the cancelled
flag and the WaitGroup. An action is one step of any of them, so a sequence of actions is an interleaving, and a property of
every reachable state is a property of every run with every timing. `Generator` is the same code as loops over the
generator's fields; whatever the script that fixes its surroundings, the loops make exactly the moves of the machine.
`Goroutines` writes the request goroutines out as sequences of statements and proves each equal to the worker's steps.
`ColdStart` holds the sequential cold-start loop, `Pool` the counting mock and the clock readings of a real request.

The foreign parts are explicit definitions. A limiter wait fails if it begins after cancellation or is cancelled while it is
delayed; the bucket starts full; a delay loses its fraction of a nanosecond; the k-th received tick is no earlier than k
intervals after the ticker's start; a tick for a full channel is dropped; a select may take any ready case. Rates are reals,
times are integer nanoseconds.

**The log.** `Slog` renders a record by the text rule of `log/slog`, `Durations` prints and parses Go durations over the
int64 range, `Instants` the times of records with their calendar and zones. `Regex` gives regular expressions their
leftmost-first meaning, and `Tokens` proves the hand-written scanner equal to the pattern of the parser. `ConfigLine`,
`LogFile`, `Records` and `Filenames` are the parsers and the printers they undo; `Ledger` is the load into the database.
`Pipeline` joins both ends, and `Transcript` writes the log of a run out, record by record.

Findings, each stated as an exact condition or with a run that shows it:

- At most one more batch after Stop holds for the HTTP generator and for no configuration of the cloud-event generator,
  whose steady loop waits for no limiter (`Cancellation.CancellationSafety`): until its deadline that may send as many events
  as if it had not been cancelled (`Soonest.CancelledExact`). And every HTTP configuration with a target has
  a run in which Stop returns while `run` still owes a whole batch (`Cancellation.StopTooSoon`); when Stop is final is exact
  too (`Cancellation.StopIsFinal`).
- The racing counter is right in every run exactly for the configurations that never count: cloud events, a rate of zero, no
  target (`Counter.CounterAlways`). Every other one has a run with two successes and a counter of one
  (`Counter.LostInSomeRun`); a single run's counter is right exactly if no two workers were together between its read and its
  write (`Counter.CounterExact`).
- One plus rate times time is not a bound on the batches in a window: a launch one nanosecond late breaks it at every rate,
  and without lateness it holds exactly if 1e9 divided by the rate is a whole number, since the limiter drops the fraction
  of its delay (`Rate.LateRate`, `Rate.PunctualRate`). For every run the bound is two plus rate times time plus a nanosecond
  (`Pacing.BatchWindow`), the least whole one for every window (`Rate.WindowAttained`).
- floor(D/I) + 1 batches before the deadline holds for every run of a configuration exactly if the whole part of floor(D/I)
  times the limiter's period is beyond D, which it never is for cloud events (`Deadline.DeadlineAlways`). The ticker is
  started before the start time is read; for each distance between the two the exact maximum is `Soonest.BatchesExact`.
  Since missed ticks are dropped, no distance costs more than three further batches (`Dropped.LateStart`), and without the
  limiter it does cost them (`Soonest.LateStartAttained`).
- In cold-start mode a pass is followed by another exactly if the first of them ends by the deadline at the soonest of its
  times: by seven seconds a target or by the interval, whichever holds it up (`ColdExact.PassesExact`).
- The first batches of a ramp step never wait for its limiter, as many as whole requests a second; the one after may wait
  exactly in the steps below four requests a second (`Bursts.NoneDelayed`, `Bursts.NextWaits`).
- A step of the ramp-up may outlast its second, since a select may prefer ticks to the timer: without that confinement the
  first step alone may launch any number of batches (`Overtime.RampOutlasts`).
- A rate is stored as its whole part exactly if it is zero or at least 0.0001 and below a million; otherwise it is
  printed with an exponent and read back as its first digit (`ConfigLine.RateExact`).
- The pattern for the timeout matches the label of the idle timeout first, unless that is negative
  (`ConfigLine.FindTimeouts`). So the timeout is stored exactly if it is not negative and printed as one word, and the
  idle timeout is the same or negative (`ConfigLine.TimeoutExact`). With an rps override the parser reads the line about
  the override and stores no configuration (`ConfigLine.OverrideHidesConfig`).
- Quoted text comes back whole exactly if it has no inner quotes or the shape of a JSON string (`Slog.WholeValue`).

Where the code and its documentation differ the code is followed: the comment on cold start speaks of rates below one, but
the ramp-up is skipped at one as well (pkg/generator/generator.go:79-80), and "one step per second" is what the step timer
asks for, not what the select need give.

## Model

| member | source | states |
|---|---|---|
| Limiter.BucketIsSchedule | pkg/generator/generator.go:100 | the token bucket is virtual scheduling: each wait moves the instant of a zero balance by one period, never below burst - 1 periods before the wait |
| Limiter.WaitEnds | pkg/generator/generator.go:100 | a wait ends at that instant less its fraction of a nanosecond, or at once |
| Machine.FireTicker | pkg/generator/generator.go:89 | a tick fires only when due, leaves the channel full and nothing due, and skips what it missed |
| Accounting.StepHolds | pkg/generator/generator.go:93-133 | every step of every part keeps the control state, the WaitGroup's count, the pool's counts, the log and the success counter consistent |
| Accounting.AllGone | pkg/generator/generator.go:63-66 | at a WaitGroup count of zero every worker has ended |
| Progress.WorkerAccounts | pkg/generator/generator.go:105-125 | in every reachable state the count is the number of unfinished workers, and launched = succeeded + failed + rejected + in flight |
| Progress.SuccessCounter | pkg/generator/generator.go:91-123 | with reads and writes of requestCount racing it never exceeds the successes and is positive once one write is done |
| Progress.LostUpdate | pkg/generator/generator.go:123 | from any state with two workers about to count there is a continuation in which both succeed and the counter rises by one only |
| Counter.CounterExact | pkg/generator/generator.go:91-123 | in a run ending with no increment under way the counter equals the number of increments if and only if no two workers were ever together between reading and writing it |
| Counter.LostInSomeRun | pkg/generator/generator.go:105-123 | every HTTP configuration with a positive rate and a target has a run with two successes and a counter of one |
| Counter.CounterAlways | pkg/generator/generator.go:91-123 | over all runs that end with no increment under way the counter equals the increments if and only if the generator is the cloud-event one, the rate is zero or there is no target |
| Progress.NoneInFlight | pkg/generator/generator.go:51-66 | whenever wg.Wait can return no worker is under way, and the log has one Success per success and one Failed per rejection |
| Progress.StartReturns | pkg/generator/generator.go:51-55 | Start returns with zero in flight and every target counted once a batch: all batches for HTTP, for cloud events the steady ones for the first target only |
| Progress.StaysFinished | pkg/generator/generator.go:63-66 | after Start has returned nothing changes any more, so a second Stop finds a count of zero |
| Progress.WorkerMoves | pkg/generator/generator.go:183-191 | an unfinished worker can always step, whatever the scheduler does, and each step brings it nearer its end |
| Progress.WorkersFinish | pkg/generator/generator.go:63-66 | from every state the workers alone bring the count to zero |
| Progress.ShutdownBound | pkg/generator/generator.go:93-133 | once the HTTP generator is cancelled at most 10 + 8n + 7w more steps follow, w workers being under way |
| Progress.NeverStuck | pkg/generator/generator.go:93-133 | until Start has returned a cancelled generator can always make a step, after a limiter's delay at the latest |
| Cancellation.AfterCancel | pkg/generator/generator.go:80-104 | after cancellation the HTTP generator launches at most the rest of one batch, at most one request a target, through ramp-up, steady loop and maximum throughput |
| Cancellation.CancellationSafety | pkg/generator/generator.go:355-400 | that bound holds for every run if and only if the generator is the HTTP one |
| Cancellation.ManyMore | pkg/generator/generator.go:355-400 | without a deadline a cancelled cloud-event generator may launch any number of requests more |
| Soonest.CancelledExact | pkg/generator/generator.go:358-407 | with a deadline a cancelled cloud-event generator may send more than n + 1 events more if and only if batch number n + 1, at its soonest, ends by the deadline: as many as if it had not been cancelled |
| Cancellation.StopIsFinal | pkg/generator/generator.go:63-66 | from a cancelled state no worker is launched in any continuation if and only if the HTTP scheduler is neither in a limiter wait nor inside a batch |
| Cancellation.StopTooSoon | pkg/generator/generator.go:63-66 | every HTTP configuration with a target has a run in which the context is cancelled, the count is zero so that Stop has returned, and a whole batch is still launched in some continuation |
| Cancellation.ErrorMeansStopped | pkg/generator/generator.go:51-66 | Start returns an error only after a cancellation |
| Cancellation.StoppedBeforeWait | pkg/generator/generator.go:98-103 | some run of every HTTP configuration with a rate, stopped between a tick and its wait, returns one |
| Cancellation.NilWithoutLimiter | pkg/generator/generator.go:259-298 | at maximum throughput, and for cloud events without ramp-up, Start always returns nil |
| Cancellation.StoppedBetweenTicks | pkg/generator/generator.go:93-97 | stopped while it waits for a tick every configuration with a rate has a run in which it returns nil |
| Pacing.StepTimed | pkg/generator/generator.go:93-125 | every step keeps batches in order, tokens a period apart and workers numbered batch by batch |
| Pacing.BatchesApart | pkg/generator/generator.go:98-105 | n batches apart takes n periods but for a nanosecond and the lateness of the first |
| Pacing.BatchWindow | pkg/generator/generator.go:93-125 | batches launching anything within t nanoseconds number less than 2 + R(t + 1), in every run |
| Pacing.RequestWindow | pkg/generator/generator.go:105-125 | requests launched within t nanoseconds number less than n(2 + R(t + 1)) |
| Ticked.EventWindow | pkg/generator/generator.go:358-400 | the cloud-event loop's batches launching anything within t nanoseconds number less than 4 + t/I, in every run |
| Ticked.EventsAtOnce | pkg/generator/generator.go:358-400 | which is tight: without a deadline three events may be sent at one instant |
| Rate.PunctualRate | pkg/generator/generator.go:44 | with no launch late, 1 + R t bounds every run if and only if 1e9/R is whole |
| Rate.LateRate | pkg/generator/generator.go:98-105 | with launches up to a nanosecond late 1 + R t fails at every rate |
| Rate.WindowAttained | pkg/generator/generator.go:98-105 | the bound on a window is the least whole one: at every rate and for every window that ends by the deadline some run has the greatest number of batches in it that is below the bound |
| Deadline.DeadlineBound | pkg/generator/generator.go:89-131 | m batches satisfy (m - 1) I <= D + gap, and none follows one that ended after the deadline |
| Deadline.DeadlineExact | pkg/generator/generator.go:86-131 | for each distance between ticker start and start time, floor(D/I) + 1 bounds every run with that distance if and only if one batch more, at its earliest, lies after the deadline |
| Deadline.DeadlineAlways | pkg/generator/generator.go:86-131 | over all runs of a configuration floor(D/I) + 1 is a bound if and only if the whole part of floor(D/I) limiter periods exceeds D; for cloud events never |
| Deadline.DeadlineGap | pkg/generator/generator.go:86-131 | it does for gap 0; for whole periods or no limiter exactly if gap + D mod I < I |
| Deadline.LastBatch | pkg/generator/generator.go:127-131 | in every mode, maximum throughput and cloud events included, no worker is launched after a batch by whose end the duration has passed |
| Dropped.StepSkipped | pkg/generator/generator.go:89-99 | every step keeps: from the second on, received ticks fired after the start time, one a grid point |
| Dropped.LateStart | pkg/generator/generator.go:89-131 | however long the ticker ran before the start time, at most D/I + 4 batches are launched |
| Soonest.BatchesExact | pkg/generator/generator.go:86-131 | for each distance between ticker start and start time and each n: some run has more than n + 1 batches if and only if batch number n + 1, at its soonest, ends by the deadline; for the limiter's tokens and for the one-slot channel's ticks |
| Soonest.LateStartAttained | pkg/generator/generator.go:358-400 | without the limiter, with two ticks or more missed, some run has 3 + (D + gap mod I)/I batches, the bound for a late start |
| Ramp.LadderRises | pkg/generator/generator.go:143-153 | the rates rise strictly from one, never above R, and equal R exactly at step 15 |
| Ramp.LadderSound | pkg/generator/generator.go:154-168 | in every step the burst is at least one, the bucket holds a token and the interval is positive |
| Ramp.IntervalsFall | pkg/generator/generator.go:163-165 | intervals never grow with the rate and are positive up to 1e9 |
| Ramp.LadderTotal | pkg/generator/generator.go:143-153 | the fifteen rates sum to 8R + 7 |
| Ramp.StepStepped | pkg/generator/generator.go:170-193 | every step keeps: k batches of a ramp step take k of its ticker's intervals |
| Ramp.RampTotal | pkg/generator/generator.go:143-193 | a ramp-up whose steps take no tick after their second launches at most 16R + 14 batches |
| Ramp.RampRequests | pkg/generator/generator.go:183-191 | and at most so many requests to each target |
| Bursts.StepSetup | pkg/generator/generator.go:152-168 | in every reachable state inside a ramp step the bucket has the step's rate and a burst of its whole requests a second, the ticker the whole nanoseconds of its period, and the timer a second from the step's beginning |
| Bursts.StepsLast | pkg/generator/generator.go:166-178 | ramp steps begin a second or more apart |
| Bursts.NoneDelayed | pkg/generator/generator.go:154-183 | as many batches of a step as whole requests a second never wait for the limiter, whatever the timing of the ticks; at four a second and more nor does the one after |
| Bursts.NextWaits | pkg/generator/generator.go:154-183 | in step i some run makes the batch after the burst wait if and only if the step's rate is below four |
| Overtime.RampOutlasts | pkg/generator/generator.go:170-193 | for every n some run launches n batches in the first step of the ramp-up; beyond 16R + 14 that step has outlasted its second |
| Generator.Generator.constructor | pkg/generator/generator.go:39-49 | a new generator is the machine's initial state |
| Generator.Generator.Await | pkg/generator/generator.go:93-98 | workers, ticker, clock and callers of Stop move as in the machine until the scheduler's turn |
| Generator.Generator.WorkerStatement | pkg/generator/generator.go:107-125 | one statement of a worker changes the fields as one worker step of the machine: the call, the record, the counter, wg.Done |
| Generator.Generator.LaunchBatch | pkg/generator/generator.go:105-125 | the launching loop makes the machine's moves from the first target to the last |
| Generator.Generator.WaitLimiter | pkg/generator/generator.go:100-103 | limiter.Wait follows the machine: a token, an error when cancelled, or blocked |
| Generator.Generator.StepLoop | pkg/generator/generator.go:170-193 | a ramp step ends by timer, by cancellation or by the limiter's error, and in no other way |
| Generator.Generator.RampUp | pkg/generator/generator.go:136-201 | fifteen steps, nil also when cancelled, along the machine |
| Generator.Generator.CheckDuration | pkg/generator/generator.go:127-131 | the duration check: on, or Stop and joined |
| Generator.Generator.SteadyTick | pkg/generator/generator.go:98-132 | one tick of the steady loop, HTTP and cloud-event |
| Generator.Generator.RunSteady | pkg/generator/generator.go:93-133 | the steady loop is a run of the machine for every script |
| Generator.Generator.RunMaxThroughput | pkg/generator/generator.go:259-298 | the flood loop is a run of the machine for every script |
| Generator.Generator.RunAll | pkg/generator/generator.go:72-134 | run, with its choice of mode, is a run of the machine |
| Generator.Generator.Start | pkg/generator/generator.go:51-55 | Start returns with no worker under way and each target's batches counted, or the script has ended or asks for the impossible |
| Goroutines.SteadyBody | pkg/generator/generator.go:107-124 | the goroutine of the steady loop, statement by statement, ends, logs and counts as the worker's steps one after another |
| Goroutines.SendRequest | pkg/generator/generator.go:232-257 | an error exactly if the request or the reading of the body failed, and one record for each of the three outcomes |
| Goroutines.RampBody | pkg/generator/generator.go:185-190 | the same for the ramp-up, with its complaint after an error |
| Goroutines.FloodBody | pkg/generator/generator.go:270-288 | the same at maximum throughput, where a refused status is a Failed record and a body error stops nothing |
| Goroutines.EventBody | pkg/generator/generator.go:369-400 | the same for cloud events, with and without metrics beside the error |
| Goroutines.RunsAlone | pkg/generator/generator.go:107-124 | from any place in its body a worker left alone in the machine reaches its end with those records, that outcome and that counter |
| ColdStart.ColdGenerator.SendRequest | pkg/generator/generator.go:232-257 | one sequential request: its time, its call and its records, nothing else changed |
| ColdStart.ColdGenerator.RunPass | pkg/generator/generator.go:215-221 | one request and one sleep for each target in order |
| ColdStart.ColdGenerator.Select | pkg/generator/generator.go:209-227 | one turn of the loop: Done, a tick's pass and the duration check, or waiting on |
| ColdStart.ColdGenerator.RunColdStart | pkg/generator/generator.go:203-230 | the loop's final state is that of the specification for every script |
| ColdStart.ColdPacing | pkg/generator/generator.go:215-221 | one request at a time, seven seconds or more between end and next start, targets in rotation, one request a target and pass |
| ColdStart.ColdPasses | pkg/generator/generator.go:207-226 | passes <= 1 + floor((D - F) / 7n s), F the wait for the first tick, and F + gap >= I |
| ColdStart.ColdLog | pkg/generator/generator.go:218-257 | the log of the loop is that of its requests in order: a success where a body was read, otherwise the error and a complaint |
| ColdStart.LogCounts | pkg/generator/generator.go:218-257 | as many success, error and body error records as requests ended so, and a complaint for each of the latter two |
| ColdStart.ColdEnds | pkg/generator/generator.go:211-227 | the loop ends only when cancelled, and that only by a Stop or with a deadline |
| ColdExact.PassesExact | pkg/generator/generator.go:203-230 | for each distance between ticker start and start time and each n: some run makes more than n + 1 passes if and only if pass number n + 1, at its soonest, ends by the deadline; its soonest is the later of n passes of seven seconds a target and its tick |
| Pool.PoolMock.constructor | pkg/connection/pool.go:161-171 | every target starts at zero |
| Pool.PoolMock.Get | pkg/connection/pool.go:129-141 | the target's count goes up by one, no other changes, the answer is 200 with an empty body |
| Pool.PoolMock.Post | pkg/connection/pool.go:143-155 | the same |
| Pool.PoolMock.GenerateCloudEvent | pkg/connection/pool.go:115-127 | the same |
| Pool.CallsCounted | pkg/connection/pool.go:115-155 | after any calls each target's count has grown by its calls |
| Pool.OrderIrrelevant | pkg/connection/pool.go:115-155 | the counts do not depend on the order of the critical sections |
| Pool.ExecuteWithMetrics | pkg/connection/pool.go:173-214 | first byte: from the start to its last callback, or zero; each phase: from its last start before its last end to that end, the longest duration if nothing started it, zero if it never ended; the total; nothing after an error |
| Pool.TimesOrdered | pkg/connection/pool.go:175-211 | on one monotone clock 0 <= TTFB <= total; no started phase exceeds the total, one never started counts as the longest duration |
| Pipeline.PoolFollows | pkg/connection/pool.go:115-141 | the machine's counts are the mock's after the run's calls in their order |
| Pipeline.MockFairness | pkg/generator/generator.go:51-55 | when Start has returned the mock shows for each target the batches it belongs to |
| Pipeline.EveryRequestFound | cmd/logparser/main.go:284-323 | when Start has returned the parser finds one row for each request succeeded or rejected, whatever other records stand between and whether or not the values come back whole; those launched and not found have failed |
| Pipeline.OtherRecords | cmd/logparser/main.go:306-316 | a file that holds a run's log still does with any uncounted record put anywhere |
| Transcript.ReachableSigned | pkg/generator/generator.go:107-125 | in every reachable state each worker that has reported or was rejected has written exactly one Success or Failed record, and no other worker has |
| Transcript.RowsOfRun | cmd/logparser/main.go:284-323 | the log of a finished run, rendered with any texts that do not hold the filter's words, is a file whose rows are, in log order, one for each request that succeeded or was rejected and none for another; the row of a request whose own shown texts the tokeniser gives back whole holds its own target's printed address, its own times and id and the moment of its record, whatever the other records say |
| Pipeline.EveryRequestStored | cmd/logparser/main.go:154-194 | loading a finished run's file adds its experiment, with the parsed name and configuration, and as its rows the parsed requests in their order, one for each succeeded or rejected; or the experiment alone, or nothing, by which database call fails |
| Pipeline.MeasuredToRow | pkg/connection/pool.go:173-214 | from the callbacks on a monotone clock to the row: 0 <= ttfb <= total, and first byte, phases and total as measured, in whole milliseconds |
| Regex.LabelSubmatch | cmd/logparser/main.go:64-71 | first submatch of a label and a class, as the scanner finds it, is that of the leftmost-first regular expression |
| Tokens.ScanIsRegex | cmd/logparser/main.go:402 | the scanner finds exactly the token of the pattern with its ordered alternatives, on every text |
| Tokens.ParseKeyValuePairs | cmd/logparser/main.go:399-413 | the map of all successive matches: each key has the value of its last pair |
| Durations.DurationRoundTrip | cmd/logparser/main.go:417-423 | every int64 duration printed in Go's text parses back to itself |
| Durations.WholeShown | pkg/generator/generator.go:247-254 | whole seconds are logged as hours, minutes and seconds, each below the next unit |
| Durations.ThousandsShown | pkg/generator/generator.go:247-254 | and whole milli-, micro- and nanoseconds below a second with their own units |
| Durations.PrintedMilliseconds | cmd/logparser/main.go:417-423 | a printed duration is stored as its milliseconds rounded down |
| Durations.OtherMilliseconds | cmd/logparser/main.go:417-423 | a negative duration is cut towards zero, and a text that is none is zero |
| Durations.PrintedOrder | cmd/logparser/main.go:417-423 | order survives printing, parsing and truncation |
| Instants.InstantRoundTrip | cmd/logparser/main.go:354-359 | every instant, printed as a record's time in any zone of whole minutes, is stored as the same instant to the millisecond |
| Instants.YearLength | cmd/logparser/main.go:354-359 | the instants count the days of the Gregorian calendar, month by month |
| Instants.InstantOrder | cmd/logparser/main.go:354-359 | stored times keep the order of the instants, also across a change of zone |
| Slog.WholeValue | cmd/logparser/main.go:402 | a value is tokenised whole if and only if it has no inner quotes or the shape of a JSON string |
| Slog.QuoteRoundTrip | cmd/logparser/main.go:402 | what quoting writes, unquoting reads back, for every text |
| Slog.RecordTokens | cmd/logparser/main.go:399-413 | for every record with word keys, whichever non-ASCII characters are printable, the tokens are its keys and texts in order if and only if every value is recoverable |
| Lines.LinesRoundTrip | cmd/logparser/main.go:293-309 | the scanner gives back the lines written |
| Lines.LineRead | cmd/logparser/main.go:293-309 | whatever a line holds: it ends at the first newline without one carriage return before that; a last line needs no newline |
| Lines.RecordIsLine | cmd/logparser/main.go:308-309 | a rendered record is one line |
| Lines.FilterExact | cmd/logparser/main.go:310 | a rendered record contains msg=word exactly if one of its attributes shows it |
| LogFile.ParseRequest | cmd/logparser/main.go:350-397 | the row of a line, field by field from the first to the last pair |
| LogFile.LooseIsAtoi | cmd/logparser/main.go:361-364 | the status is what Atoi reads, and where that fails zero or the end of the range |
| LogFile.ProcessFile | cmd/logparser/main.go:284-323 | no file, no line, no second line, or the configuration and the rows of the filtered lines in order |
| LogFile.FileRefused | cmd/logparser/main.go:284-305 | a file is refused exactly if it cannot be opened, is empty or has one line, each for its own reason |
| LogFile.FilterByMessage | cmd/logparser/main.go:310 | the filter keeps exactly the records whose message is Success or Failed |
| LogFile.RecordRow | cmd/logparser/main.go:350-397 | a rendered record, tokenised and parsed, gives each field from the value of its own key |
| LogFile.LogKept | cmd/logparser/main.go:306-316 | for every interleaving of records after two header lines: one row per Success or Failed record, in order, none for others |
| LogFile.LogRecovered | cmd/logparser/main.go:306-316 | and if their values are given back whole each row holds its own record's |
| Records.SuccessRow | pkg/generator/generator.go:247-254 | a Success record's row has its parsed time, its printed target and id, its status, and its durations in milliseconds |
| Records.SuccessInstant | cmd/logparser/main.go:354-359 | the row of a success logged at an instant, in whatever zone, holds that instant to the millisecond |
| Records.FailedRow | pkg/generator/generator.go:275-278 | a refused status gives a row with that status |
| Records.FailedEventRow | pkg/generator/generator.go:383-399 | a failed event gives a row with status 0, its id and its error's printed text |
| Records.ColdRow | cmd/logparser/main.go:370-380 | a body bare or as a JSON string is read as cold exactly if its word, lowercased, is true |
| Records.TimingOrder | cmd/logparser/main.go:382-383 | every Success row keeps 0 <= ttfb <= total |
| Records.SuccessEmitted | pkg/generator/generator.go:247-254 | a Success record meets the filter's conditions if its texts do not mention the filter's words |
| Records.FailedEmitted | pkg/generator/generator.go:275-278 | so does a Failed record |
| Records.FailedEventEmitted | pkg/generator/generator.go:383-399 | and a cloud event's |
| Records.ErrorEmitted | pkg/generator/generator.go:234-244 | a request error or body error is never counted, whatever else its text says |
| Records.ComplaintEmitted | pkg/generator/generator.go:187-189 | nor is the complaint after it |
| Records.InfoEmitted | cmd/workload-generator/main.go:83 | a bare record with a message of several words, such as that the generator is initialised, is never counted |
| Records.NoteEmitted | pkg/generator/generator.go:73-87 | nor is a scheduler's record with a message of several words, whatever attributes without the filter's words follow it |
| ConfigLine.AddConfigValue | cmd/logparser/main.go:343-348 | a key is set to the pattern's first submatch, or left |
| ConfigLine.ParseConfig | cmd/logparser/main.go:325-341 | the configuration a line gives under the six patterns; what the keys hold is stated by the rows below |
| ConfigLine.Collected | cmd/logparser/main.go:325-341 | each of the six keys holds the first submatch of its own pattern, the rate as an integer, or is missing, and there is no other key |
| ConfigLine.ConfigRecovered | cmd/logparser/main.go:64-71 | for every printed rate section, negative durations and limits included, whatever surrounds it: what each pattern finds, though labels are parts of one another |
| ConfigLine.LoadedConfig | cmd/workload-generator/main.go:39 | the same through the rendered record of the loaded configuration, written at any instant in any zone |
| ConfigLine.RateExact | cmd/logparser/main.go:65 | the stored rate is the whole part of the configured number if and only if that is zero or at least 0.0001 and below 1000000 |
| ConfigLine.DurationExact | cmd/logparser/main.go:66 | the stored duration is the printed one if and only if it is not negative and a single word |
| ConfigLine.IdleTimeoutExact | cmd/logparser/main.go:69 | so is the idle timeout |
| ConfigLine.LimitsExact | cmd/logparser/main.go:67-68 | from a printed line max_idle_conns and max_idle_conns_per_host hold the two limits as they are; for a negative one what the pattern finds after the section |
| ConfigLine.FindTimeouts | cmd/logparser/main.go:69-70 | both timeout patterns first match the idle timeout's value, but if that is negative the plain one finds the timeout, and past a negative number each finds what follows the section |
| ConfigLine.TimeoutExact | cmd/logparser/main.go:70 | the stored timeout is the configured one if and only if that is not negative and a single word, and the idle timeout is the same or negative |
| ConfigLine.OverrideHidesConfig | cmd/workload-generator/main.go:35-39 | with an rps override the second line configures nothing |
| Filenames.ParseEventing | cmd/logparser/main.go:219-253 | of the parts of an eventing name, in any number and order: each parameter is the number of the last part with its ending and missing without one; or the reason of the first part with an ending and no number |
| Filenames.ParseServing | cmd/logparser/main.go:256-279 | of the parts of a serving name: the rate is the number of the last part that ends in rps, no other parameter is set, and it is refused exactly if such a part has no number; its language is stated below |
| Filenames.ParseFilename | cmd/logparser/main.go:199-282 | the experiment of a name or the reason it is refused |
| Filenames.NameRefused | cmd/logparser/main.go:199-282 | a name is refused for its form exactly if it has less than three parts, then for its time exactly if that is none, then as unrecognized exactly if it begins as neither scenario |
| Filenames.StampRoundTrip | pkg/store/store.go:14-17 | every printed timestamp parses back to the second |
| Filenames.EventingRoundTrip | pkg/store/store.go:14-17 | every printed eventing name gives back timestamp, scenario and parameters |
| Filenames.ServingRoundTrip | pkg/store/store.go:14-17 | every printed serving name gives back timestamp, scenario, rate and language |
| Filenames.LanguageOfName | cmd/logparser/main.go:53-62 | the language is the last of the eight known words among the parts of a serving name, and empty if there is none |
| Filenames.ReasonsOfPart | cmd/logparser/main.go:224-244 | a part that ends in rps, triggers or workers without a number before it is refused for just that |
| Filenames.AcceptedStamp | cmd/logparser/main.go:207-214 | an accepted name has a date and time that exist |
| Filenames.EventingPermutation | cmd/logparser/main.go:223-245 | with one token a kind their order does not matter |
| Filenames.ServingPermutation | cmd/logparser/main.go:261-271 | nor does it for serving names |
| Ledger.Database.InsertExperiment | cmd/logparser/main.go:425-456 | one row more and its id; an error and no row when the insert fails; an error and the row when only its id cannot be read |
| Ledger.Database.InsertRequests | cmd/logparser/main.go:458-504 | all rows of a file or none, exactly by whether some call of the transaction fails; row i holds the experiment's id, request i, and its event id or NULL if that is empty |
| Ledger.Database.ProcessEntry | cmd/logparser/main.go:154-194 | only a log file with an accepted name, readable lines and an instant at the cutoff or later adds anything; every such file whose insert succeeds adds its experiment, and its rows and the statistics unless a call fails |
| Ledger.Database.ProcessLogs | cmd/logparser/main.go:145-197 | the whole directory, or nothing when it cannot be read |
| Ledger.BeforeIsEarlier | cmd/logparser/main.go:165 | the cutoff test compares instants |
| Ledger.LoadInOrder | cmd/logparser/main.go:154-194 | entry by entry in the directory's order: each adds what it adds to what those before it have left |
| Ledger.LedgerBalances | cmd/logparser/main.go:154-196 | over every directory and failure pattern: rows added equal requestsInserted, files equal experiments, extra experiments equal failed request inserts plus lost ids, every row has its experiment |
| Ledger.AllOrNone | cmd/logparser/main.go:458-504 | every new experiment belongs to a file of the directory and has all its rows, one a request in order, or none |

## Left out

- Generator.Generator.Start: makes no claim that it returns when the surroundings stop, because a script is finite.
- Generator.Generator.RampUp: keeps the rate in the one field currentRate, not also in a local variable of the same value.
- Deadline.DeadlineBound: counts no batches of the maximum-throughput loop, which have no least distance; that none follows the deadline is `Deadline.LastBatch`.
- Pacing.BatchWindow: is about the HTTP generator; the cloud-event loop, which has only its ticker, is in `Ticked.EventWindow`.
- Progress.SuccessCounter: does not give a value read by the scheduler's last log line, which races as well.
- Durations.ParseGoDuration: takes the fraction of a number exactly; Go computes it in floating point, with the same result on printed texts.
- Slog.RecordTokens: covers texts of valid UTF-8; bytes that are not, which Go escapes one by one, are not modelled. Which characters beyond ASCII are printable is an arbitrary set.
- Instants.InstantRoundTrip: is for years of four digits and zones of whole minutes, as the printed form holds no more.
- ColdStart.ColdGenerator.RunColdStart: covers the HTTP generator; the cloud-event one returns at once (pkg/generator/generator.go:508-514).
- Rounding of floating-point rates and of the ramp's increments: rates are reals, so step 15 reaches the target exactly.
- Rates above 1e9 or below zero, and for cloud events zero: NewTicker panics or the interval is undefined. The printed rate sections have no negative rates either.
- Several progress records written in a row are one step and one event of the machine; the results on log files allow any number of them.
- Filenames.EventingRoundTrip: is about the name alone. The path is joined and cleaned (pkg/store/store.go:14-17), so a prefix with a slash puts the file into a subdirectory, which the parser does not enter.
- Worker steps are whole: a request, a read of the body, a record, a read or a write of the counter. Weaker memory effects of the race on the counter are not modelled.
- Database rows are two sequences with sequential ids; SQL text, schema and drivers are left out.
- Scanner line lengths, file permissions, flags, environment, YAML and the ping mode.
- HTTP transport, DNS and TLS beyond the order of their callbacks, and cloud-event encoding.
- The random ids of events: they are given texts.
- The deployer, receiver, event logger and resource monitor commands, the sample functions and the infrastructure files: no further invariant of the kind proved here.
