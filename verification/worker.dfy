/**
 The part of a worker's request loop (`sendRequest` in main.go) that is not
 network I/O: turning an HTTP response into the outcome sent to the receiver.
 */
module Worker {
  import opened Receiver

  /** A response counts as a success exactly when its status is in the 2xx class */
  predicate IsSuccess(statusCode: int)
  {
    200 <= statusCode && statusCode < 300
  }

  /** The outcome a worker reports for a response with status `statusCode` after `delta` nanoseconds */
  function Report(statusCode: int, delta: int): (o: Outcome)
    ensures o.isSuccess <==> statusCode >= 0 && statusCode / 100 == 2
    ensures o.timing == delta
  {
    Outcome(IsSuccess(statusCode), delta)
  }

  /**
   A load run against a target that always answers 200: the receiver stops
   with exactly `StopIndex(requestNumber)` successes (the request number
   itself when it is positive) and no failures.
   */
  lemma AlwaysOkRun(delays: seq<int>, requestNumber: int)
    requires |delays| >= StopIndex(requestNumber)
    ensures var r := Receive(seq(|delays|, i requires 0 <= i < |delays| => Report(200, delays[i])), requestNumber);
            r.Summary? && r.count.total == StopIndex(requestNumber)
            && r.count.successNumber == StopIndex(requestNumber) && r.count.badNumber == 0
  {
    AllSuccessRun(seq(|delays|, i requires 0 <= i < |delays| => Report(200, delays[i])), requestNumber);
  }

  /**
   A load run against a target that always answers 500: only failures are
   counted and the mean computation divides by zero.
   */
  lemma AlwaysServerErrorRun(delays: seq<int>, requestNumber: int)
    requires |delays| >= StopIndex(requestNumber)
    ensures var r := Receive(seq(|delays|, i requires 0 <= i < |delays| => Report(500, delays[i])), requestNumber);
            r.DivideByZero? && r.count.successNumber == 0
            && r.count.badNumber == StopIndex(requestNumber)
  {
    AllFailureRun(seq(|delays|, i requires 0 <= i < |delays| => Report(500, delays[i])), requestNumber);
  }
}
