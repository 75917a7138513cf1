# Load tester core, modelled in Dafny

The program is a single-file HTTP load tester: a pool of workers sends
requests to one URL, each answered request becomes an outcome (success flag
and latency), and one receiver folds the outcomes into statistics until the
configured number of requests has been seen, then prints the total,
success and failure counts and the longest, shortest and mean successful
latency.

This project models the two sequential parts of that program:

- **Receiver** (`receiver.dfy`): the receiver's per-outcome update and its
  termination check, as a left fold over the sequence of outcomes in the
  order the receiver dequeues them. Latencies are Go `time.Duration` values,
  that is integer nanoseconds, modelled as `int`. The fold ends in one of
  three receipts: `Summary` (threshold reached, mean computed), `DivideByZero`
  (threshold reached with no success, where Go's integer division panics)
  or `Waiting` (the sequence ran out first; the real receiver keeps blocking
  on the channel, which is never closed).
- **Durations** (`durations.dfy`): the duration units and Go's integer
  division, which truncates toward zero, with the fact that truncation stays
  inside any integer interval holding the exact quotient.
- **RequestBody** (`requestbody.dfy`): the decision of which body a request
  carries: none, JSON-encoded data, form-encoded data, or the fatal
  "unsupported content type" error. The encoders themselves are opaque; a
  body records which encoder it takes and the data fields it encodes.
- **Worker** (`worker.dfy`): the classification of an HTTP response as a
  success (status in the 2xx class) and the outcome a worker sends, with two
  whole-run scenarios (a target that always answers 200, and one that always
  answers 500).

Behaviour of the code worth knowing:

- The shortest latency starts at one minute (`time.Minute`, main.go:59), so
  a run whose successes all took longer than a minute reports one minute as
  its shortest latency (`Receiver.SlowSuccessesReportMinute`).
- A request number of zero or less stops the receiver after exactly one
  outcome (the check `total >= requestNumber` runs after the first update).
- When no request succeeded the mean is not guarded: Go panics on the
  integer division. The model makes that an explicit `DivideByZero` receipt.
- A failed outcome carries the measured latency, not zero; the receiver
  ignores it either way (`Receiver.FailedTimingsIgnored`).
- A `Content-Type` header that is missing, is not a string, or is the empty
  string all read as the empty string and are rejected alike.

## Model

| member | source | states |
|---|---|---|
| Receiver.Record | main.go:65-78 | one outcome adds exactly one attempt; a failure adds one failure and changes nothing else; a success adds one success and its latency to the total, and moves the longest/shortest latency only up/down, to the old value or to this latency |
| Receiver.StopIndex | main.go:64-80 | the receiver reads at least one outcome and stops at the first count that reaches the request number |
| Receiver.AccumulateSummarizes | main.go:59-78 | starting from `Initial` (all zero, shortest latency one minute, main.go:59), folding the update `Record` with `Accumulate` over any outcomes gives the number of outcomes read, the number of successes and failures, the sum of successful latencies, the maximum of zero and all successful latencies, and the minimum of one minute and all successful latencies |
| Receiver.CountsAddUp | main.go:65-78 | after every processed outcome, the attempt total equals the number of outcomes read and equals successes plus failures |
| Receiver.ConsumeFollowsThreshold | main.go:64-96 | the receiving loop `Consume` (with its threshold step `Finish`, main.go:80-81), from any point before the threshold, either waits with the statistics of the whole stream or stops after exactly the stopping count with that prefix's statistics |
| Receiver.StopsAtFirstThreshold | main.go:80 | after k >= 1 outcomes the threshold test holds exactly when k has reached the stopping count, so no earlier outcome ends the run |
| Receiver.Receive | main.go:59-96 | the run (`Consume` from `Initial`, ended by `Finish`) waits iff fewer outcomes than the stopping count arrive; otherwise it consumes exactly that many, its counts are those of the consumed prefix, it divides by zero iff that prefix has no success, and else its mean is the truncated average of the successful latencies |
| Receiver.ReceiveMeanWithinBounds | main.go:59-81 | when the run ends in a summary, its mean lies between its shortest and its longest successful latency |
| Receiver.MeanWithinBounds | main.go:81 | with at least one success, the truncated mean of the recorded statistics lies between the recorded shortest and longest latency |
| Receiver.SuccessTimeBounds | main.go:68 | if every successful latency is in [lo, hi] then the total successful latency is between lo and hi times the number of successes |
| Receiver.FailedTimingsIgnored | main.go:66-78 | two outcome streams that agree on which outcomes succeeded and on successful latencies give identical statistics: a failure's latency is ignored |
| Receiver.SlowSuccessesReportMinute | main.go:59-74 | when every success took more than a minute the reported shortest latency is the one-minute starting value |
| Receiver.AllSuccessRun | main.go:64-96 | if every outcome succeeds and at least the stopping count arrive, the run ends in a summary with total and successes equal to the stopping count (the request number when positive, else 1) and no failures |
| Receiver.AllFailureRun | main.go:64-96 | if every outcome fails, the run ends dividing by zero with no success and the stopping count of failures |
| Durations.TruncDiv | main.go:81 | Go's division by a positive count: the quotient rounded toward zero, so quotient times divisor lies between zero and the dividend, within one divisor of it |
| Durations.TruncDivBetween | main.go:81 | if lo·b <= a <= hi·b with b > 0, the truncated quotient a / b lies in [lo, hi] |
| RequestBody.StringInSlice | main.go:188-195 | the linear search answers true iff the string occurs in the list |
| RequestBody.GenerateBody | main.go:143-164 | no body iff the method is not exactly POST, PUT or PATCH or the data is empty; otherwise a JSON body iff the Content-Type header is exactly the string application/json, a form body iff it is exactly application/x-www-form-urlencoded, and the fatal unsupported error otherwise; a body encodes exactly the given data |
| RequestBody.UntypedContentTypeIsEmpty | main.go:153-154 | as read by `DeclaredContentType` (the comma-ok `v.(string)`), a missing Content-Type header, a non-string one and an empty string one give the same decision |
| RequestBody.MethodIsCaseSensitive | main.go:148-152 | a lower-case method name never carries a body |
| RequestBody.CharsetParameterIsUnsupported | main.go:153-161 | a JSON content type with a charset parameter is the fatal unsupported case |
| RequestBody.ScenarioGetIsEmpty | main.go:150-152 | GET with no data and no headers has no body |
| RequestBody.ScenarioPostJson | main.go:153-156 | POST with the JSON content type and data {"a": "1"} sends that data JSON-encoded |
| RequestBody.ScenarioPostForm | main.go:153-158 | POST with the form content type and data {"a": "1", "b": "2"} sends that data form-encoded |
| RequestBody.ScenarioPatchPlainText | main.go:153-160 | PATCH with a text/plain content type and some data is the fatal unsupported case |
| Worker.Report | main.go:132-134 | built on the predicate `IsSuccess` (main.go:132), a worker's outcome is a success iff the status code is in the 2xx class, and carries the measured latency |
| Worker.AlwaysOkRun | main.go:132-134 | against a target always answering 200, the run ends with exactly the stopping count of successes (the request number when positive, else 1) and no failure |
| Worker.AlwaysServerErrorRun | main.go:132-134 | against a target always answering 500, the run counts only failures and the mean divides by zero |

## Left out

- Goroutines, the start and exit channels, the buffered outcome channel and
  the start barrier (main.go:18-28, 55-58, 61, 94-105, 136-141): their point is
  concurrency. The channel's delivery order is an arbitrary input sequence.
- The HTTP client, request construction, header setting, the per-request
  timeout, the retry on transport errors and the wall-clock timing
  (main.go:106-130, 166-170): network I/O and the clock. A latency is an input.
  Header setting also panics on a non-string header value; that is not modelled.
- The byte output of the JSON and form encoders (main.go:172-186): library
  code. The form encoder panics on a non-string data value (main.go:183); the
  model stops at the choice of encoder and does not model that panic.
- The text of the fatal "unsupported" log message (main.go:160): only the
  fact of the fatal error and the method are kept.
- Flag parsing and configuration reading (main.go:197-220): I/O and library
  decoding.
- The summary printout and the run's wall-clock duration (main.go:63, 82-92):
  only the printed statistics are modelled.
- Durations.TruncDiv: defined for a positive divisor only, the only case the
  receiver reaches once a zero success count is taken as `DivideByZero`.
- Receiver.Receive: latencies and counters are unbounded integers; the 64-bit
  wrap-around of the latency total (after about 292 years of summed latency)
  is not modelled.
