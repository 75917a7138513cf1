/**
 The statistics collector of the load tester (`newReceiver` in main.go). The
 outcome channel is modelled as the sequence of outcomes in the order the
 receiver dequeues them, and the receiving loop as a left fold over that
 sequence which stops at the first outcome that brings the attempt count up
 to the configured request number.
 */
module Receiver {
  import opened Durations

  /** `ResponseData`: one answered request; `timing` is a latency in nanoseconds */
  datatype Outcome = Outcome(isSuccess: bool, timing: int)

  /** `CountData`: the receiver's running statistics */
  datatype CountData = CountData(
    total: nat,
    successNumber: nat,
    badNumber: nat,
    maxTime: int,
    minTime: int,
    totalTime: int,
    meanTime: int)

  /** The statistics before any outcome: all zero except the one-minute floor of `minTime` */
  const Initial: CountData := CountData(0, 0, 0, 0, Minute, 0, 0)

  /** What the receiver ends in after reading a prefix of the outcome stream */
  datatype Receipt =
    | /** the threshold was reached and the summary was computed */
      Summary(count: CountData, consumed: nat)
    | /** the threshold was reached with no success: Go's integer division panics */
      DivideByZero(count: CountData, consumed: nat)
    | /** the stream ran out first: the receiver keeps waiting on the channel */
      Waiting(count: CountData)

  /*** Reference definitions, independent of the fold ***/

  /** Number of successful outcomes in `s` */
  function SuccessCount(s: seq<Outcome>): nat {
    if |s| == 0 then 0 else (if s[0].isSuccess then 1 else 0) + SuccessCount(s[1..])
  }

  /** Number of failed outcomes in `s` */
  function FailureCount(s: seq<Outcome>): nat {
    if |s| == 0 then 0 else (if s[0].isSuccess then 0 else 1) + FailureCount(s[1..])
  }

  /** Sum of the latencies of the successful outcomes in `s` */
  function SuccessTime(s: seq<Outcome>): int {
    if |s| == 0 then 0 else (if s[0].isSuccess then s[0].timing else 0) + SuccessTime(s[1..])
  }

  /** `m` is the largest of zero and the latencies of the successes in `s` */
  ghost predicate IsMaxTime(m: int, s: seq<Outcome>) {
    && 0 <= m
    && (forall i :: 0 <= i < |s| && s[i].isSuccess ==> s[i].timing <= m)
    && (m == 0 || exists i :: 0 <= i < |s| && s[i].isSuccess && s[i].timing == m)
  }

  /** `m` is the smallest of one minute and the latencies of the successes in `s` */
  ghost predicate IsMinTime(m: int, s: seq<Outcome>) {
    && m <= Minute
    && (forall i :: 0 <= i < |s| && s[i].isSuccess ==> m <= s[i].timing)
    && (m == Minute || exists i :: 0 <= i < |s| && s[i].isSuccess && s[i].timing == m)
  }

  /** `c` holds the receiver's statistics (all but the mean) over exactly the outcomes `s` */
  ghost predicate Summarizes(c: CountData, s: seq<Outcome>) {
    && c.total == |s|
    && c.successNumber == SuccessCount(s)
    && c.badNumber == FailureCount(s)
    && c.totalTime == SuccessTime(s)
    && IsMaxTime(c.maxTime, s)
    && IsMinTime(c.minTime, s)
  }

  /**
   Number of outcomes the receiver reads before it stops: the first count
   `k >= 1` with `k >= requestNumber`.
   */
  function StopIndex(requestNumber: int): (k: nat)
    ensures k >= 1 && k >= requestNumber
    ensures k == 1 || k - 1 < requestNumber
  {
    if requestNumber <= 1 then 1 else requestNumber
  }

  /*** The fold ***/

  /** The body of the receiving loop for one outcome, before the threshold check */
  function Record(c: CountData, x: Outcome): (r: CountData)
    ensures r.total == c.total + 1
    ensures r.meanTime == c.meanTime
    ensures !x.isSuccess ==> r == c.(total := c.total + 1, badNumber := c.badNumber + 1)
    ensures x.isSuccess ==>
              && r.successNumber == c.successNumber + 1
              && r.badNumber == c.badNumber
              && r.totalTime == c.totalTime + x.timing
    ensures x.isSuccess ==>
              && c.maxTime <= r.maxTime && x.timing <= r.maxTime
              && (r.maxTime == c.maxTime || r.maxTime == x.timing)
    ensures x.isSuccess ==>
              && r.minTime <= c.minTime && r.minTime <= x.timing
              && (r.minTime == c.minTime || r.minTime == x.timing)
  {
    var c := c.(total := c.total + 1);
    if x.isSuccess then
      var c := c.(successNumber := c.successNumber + 1, totalTime := c.totalTime + x.timing);
      var c := if x.timing > c.maxTime then c.(maxTime := x.timing) else c;
      if x.timing < c.minTime then c.(minTime := x.timing) else c
    else
      c.(badNumber := c.badNumber + 1)
  }

  /** The statistics after recording every outcome of `s`, with no threshold */
  function Accumulate(s: seq<Outcome>): CountData {
    if |s| == 0 then Initial else Record(Accumulate(s[..|s| - 1]), s[|s| - 1])
  }

  /** The threshold check and the mean computed when it fires */
  function Finish(c: CountData, consumed: nat): Receipt {
    if c.successNumber == 0 then DivideByZero(c, consumed)
    else Summary(c.(meanTime := TruncDiv(c.totalTime, c.successNumber)), consumed)
  }

  /** The receiving loop from position `i` of the stream, with statistics `count` */
  function Consume(s: seq<Outcome>, requestNumber: int, count: CountData, i: nat): Receipt
    requires i <= |s|
    decreases |s| - i
  {
    if i == |s| then Waiting(count)
    else
      var c := Record(count, s[i]);
      if c.total >= requestNumber then Finish(c, i + 1)
      else Consume(s, requestNumber, c, i + 1)
  }

  /**
   The receiver run over the outcome stream `s`: it stops after exactly
   `StopIndex(requestNumber)` outcomes when there are that many, its counts
   are those of the consumed prefix, it fails exactly when that prefix has no
   success, and otherwise its mean is the truncated average.
   */
  function Receive(s: seq<Outcome>, requestNumber: int): (r: Receipt)
    ensures r.Waiting? <==> |s| < StopIndex(requestNumber)
    ensures r.Waiting? ==> Summarizes(r.count, s)
    ensures !r.Waiting? ==> r.consumed == StopIndex(requestNumber)
    ensures !r.Waiting? ==>
              |s| >= StopIndex(requestNumber) && Summarizes(r.count, s[..StopIndex(requestNumber)])
    ensures r.DivideByZero? <==>
              |s| >= StopIndex(requestNumber) && SuccessCount(s[..StopIndex(requestNumber)]) == 0
    ensures r.Summary? ==>
              && r.count.successNumber > 0
              && r.count.meanTime == TruncDiv(r.count.totalTime, r.count.successNumber)
  {
    assert s[..0] == [];
    ConsumeFollowsThreshold(s, requestNumber, 0);
    var k := StopIndex(requestNumber);
    AccumulateSummarizes(if |s| < k then s else s[..k]);
    Consume(s, requestNumber, Initial, 0)
  }

  /**
   When the run ends in a summary, its mean lies between its shortest and
   longest successful latency.
   */
  lemma ReceiveMeanWithinBounds(s: seq<Outcome>, requestNumber: int)
    requires Receive(s, requestNumber).Summary?
    ensures var c := Receive(s, requestNumber).count;
            c.minTime <= c.meanTime <= c.maxTime
  {
    var r := Receive(s, requestNumber);
    var c := r.count.(meanTime := 0);
    assert Summarizes(c, s[..StopIndex(requestNumber)]);
    MeanWithinBounds(c, s[..StopIndex(requestNumber)]);
  }

  /*** Lemmas ***/

  lemma {:induction false} SuccessCountAppend(s: seq<Outcome>, x: Outcome)
    ensures SuccessCount(s + [x]) == SuccessCount(s) + (if x.isSuccess then 1 else 0)
    ensures FailureCount(s + [x]) == FailureCount(s) + (if x.isSuccess then 0 else 1)
    ensures SuccessTime(s + [x]) == SuccessTime(s) + (if x.isSuccess then x.timing else 0)
  {
    if |s| > 0 {
      assert (s + [x])[1..] == s[1..] + [x];
      SuccessCountAppend(s[1..], x);
    } else {
      assert (s + [x])[1..] == [];
    }
  }

  /** Every outcome is either a success or a failure */
  lemma {:induction false} SuccessPlusFailure(s: seq<Outcome>)
    ensures SuccessCount(s) + FailureCount(s) == |s|
  {
    if |s| > 0 {
      SuccessPlusFailure(s[1..]);
    }
  }

  /**
   Folding the receiver's update over any outcome sequence yields exactly the
   reference statistics of that sequence; no mean is computed yet.
   */
  lemma {:induction false} AccumulateSummarizes(s: seq<Outcome>)
    ensures Summarizes(Accumulate(s), s)
    ensures Accumulate(s).meanTime == 0
  {
    if |s| > 0 {
      var p, x := s[..|s| - 1], s[|s| - 1];
      assert s == p + [x];
      AccumulateSummarizes(p);
      SuccessCountAppend(p, x);
      var c, r := Accumulate(p), Accumulate(s);
      assert r == Record(c, x);
      forall i | 0 <= i < |s| && s[i].isSuccess
        ensures r.minTime <= s[i].timing <= r.maxTime
      {
        if i < |p| {
          assert s[i] == p[i];
        }
      }
      if r.maxTime != 0 && r.maxTime != x.timing {
        var i :| 0 <= i < |p| && p[i].isSuccess && p[i].timing == r.maxTime;
        assert s[i] == p[i];
      }
      if r.minTime != Minute && r.minTime != x.timing {
        var i :| 0 <= i < |p| && p[i].isSuccess && p[i].timing == r.minTime;
        assert s[i] == p[i];
      }
      if x.isSuccess {
        assert s[|s| - 1] == x;
      }
    }
  }

  /**
   At every point of the run the attempt counter is the number of outcomes
   read so far and equals successes plus failures.
   */
  lemma CountsAddUp(s: seq<Outcome>)
    ensures forall k :: 0 <= k <= |s| ==>
              && Accumulate(s[..k]).total == k
              && Accumulate(s[..k]).total == Accumulate(s[..k]).successNumber + Accumulate(s[..k]).badNumber
  {
    forall k | 0 <= k <= |s|
      ensures Accumulate(s[..k]).total == k
      ensures Accumulate(s[..k]).total == Accumulate(s[..k]).successNumber + Accumulate(s[..k]).badNumber
    {
      AccumulateSummarizes(s[..k]);
      SuccessPlusFailure(s[..k]);
    }
  }

  /**
   The loop, entered at a position before the stopping point with the fold of
   the prefix read so far, either waits with the fold of the whole stream or
   finishes on the fold of exactly `StopIndex(requestNumber)` outcomes.
   */
  lemma {:induction false} ConsumeFollowsThreshold(s: seq<Outcome>, requestNumber: int, i: nat)
    requires i <= |s| && i < StopIndex(requestNumber)
    ensures Consume(s, requestNumber, Accumulate(s[..i]), i) ==
              if |s| < StopIndex(requestNumber) then Waiting(Accumulate(s))
              else Finish(Accumulate(s[..StopIndex(requestNumber)]), StopIndex(requestNumber))
    decreases |s| - i
  {
    if i == |s| {
      assert s[..i] == s;
    } else {
      assert s[..i + 1][..i] == s[..i];
      var c := Record(Accumulate(s[..i]), s[i]);
      assert c == Accumulate(s[..i + 1]);
      AccumulateSummarizes(s[..i + 1]);
      if c.total < requestNumber {
        ConsumeFollowsThreshold(s, requestNumber, i + 1);
      }
    }
  }

  /**
   The threshold test `total >= requestNumber` after `k >= 1` outcomes holds
   exactly from the stopping point on, so the loop stops at the first outcome
   that reaches the request number (the very first one when it is at most 1).
   */
  lemma StopsAtFirstThreshold(s: seq<Outcome>, requestNumber: int)
    ensures forall k :: 1 <= k <= |s| ==>
              (Accumulate(s[..k]).total >= requestNumber <==> k >= StopIndex(requestNumber))
  {
    CountsAddUp(s);
  }

  /** `SuccessTime` of outcomes whose successful latencies lie in `[lo, hi]` */
  lemma {:induction false} SuccessTimeBounds(s: seq<Outcome>, lo: int, hi: int)
    requires forall i :: 0 <= i < |s| && s[i].isSuccess ==> lo <= s[i].timing <= hi
    ensures lo * SuccessCount(s) <= SuccessTime(s) <= hi * SuccessCount(s)
  {
    if |s| > 0 {
      forall i | 0 <= i < |s[1..]| && s[1..][i].isSuccess
        ensures lo <= s[1..][i].timing <= hi
      {
        assert s[1..][i] == s[i + 1];
      }
      SuccessTimeBounds(s[1..], lo, hi);
      var n := SuccessCount(s[1..]);
      if s[0].isSuccess {
        assert lo * (n + 1) == lo * n + lo;
        assert hi * (n + 1) == hi * n + hi;
      }
    }
  }

  /**
   With at least one success, the truncated mean of the recorded statistics
   lies between the recorded shortest and longest latency.
   */
  lemma MeanWithinBounds(c: CountData, s: seq<Outcome>)
    requires Summarizes(c, s) && c.successNumber > 0
    ensures c.minTime <= TruncDiv(c.totalTime, c.successNumber) <= c.maxTime
  {
    SuccessTimeBounds(s, c.minTime, c.maxTime);
    TruncDivBetween(c.totalTime, c.successNumber, c.minTime, c.maxTime);
  }

  /**
   A failed outcome's latency plays no part: streams that agree on which
   outcomes succeeded and on the successful latencies fold to the same
   statistics.
   */
  lemma {:induction false} FailedTimingsIgnored(s: seq<Outcome>, t: seq<Outcome>)
    requires |s| == |t|
    requires forall i :: 0 <= i < |s| ==> s[i].isSuccess == t[i].isSuccess
    requires forall i :: 0 <= i < |s| && s[i].isSuccess ==> s[i].timing == t[i].timing
    ensures Accumulate(s) == Accumulate(t)
  {
    if |s| > 0 {
      var n := |s| - 1;
      FailedTimingsIgnored(s[..n], t[..n]);
    }
  }

  /**
   Because the shortest latency starts at one minute rather than at infinity,
   a run whose successes all took longer than a minute reports one minute as
   its shortest successful latency, below every latency it observed.
   */
  lemma {:induction false} SlowSuccessesReportMinute(s: seq<Outcome>)
    requires forall i :: 0 <= i < |s| && s[i].isSuccess ==> s[i].timing > Minute
    ensures Accumulate(s).minTime == Minute
  {
    AccumulateSummarizes(s);
  }

  lemma {:induction false} AllSuccessCount(s: seq<Outcome>)
    requires forall i :: 0 <= i < |s| ==> s[i].isSuccess
    ensures SuccessCount(s) == |s|
  {
    if |s| > 0 {
      assert forall i :: 0 <= i < |s[1..]| ==> s[1..][i] == s[i + 1];
      AllSuccessCount(s[1..]);
    }
  }

  /**
   Every response succeeds: the run ends in a summary of exactly
   `StopIndex(requestNumber)` successes (the request number itself when it is
   positive) and no failures.
   */
  lemma AllSuccessRun(s: seq<Outcome>, requestNumber: int)
    requires |s| >= StopIndex(requestNumber)
    requires forall i :: 0 <= i < |s| ==> s[i].isSuccess
    ensures Receive(s, requestNumber).Summary?
    ensures Receive(s, requestNumber).count.total == StopIndex(requestNumber)
    ensures Receive(s, requestNumber).count.successNumber == StopIndex(requestNumber)
    ensures Receive(s, requestNumber).count.badNumber == 0
  {
    var p := s[..StopIndex(requestNumber)];
    AllSuccessCount(p);
    SuccessPlusFailure(p);
  }

  /**
   Every response fails: the run reaches its threshold with only failures
   counted and the mean computation divides by zero.
   */
  lemma AllFailureRun(s: seq<Outcome>, requestNumber: int)
    requires |s| >= StopIndex(requestNumber)
    requires forall i :: 0 <= i < |s| ==> !s[i].isSuccess
    ensures Receive(s, requestNumber).DivideByZero?
    ensures Receive(s, requestNumber).count.badNumber == StopIndex(requestNumber)
    ensures Receive(s, requestNumber).count.successNumber == 0
  {
    var p := s[..StopIndex(requestNumber)];
    NoSuccessCount(p);
    SuccessPlusFailure(p);
  }

  lemma {:induction false} NoSuccessCount(s: seq<Outcome>)
    requires forall i :: 0 <= i < |s| ==> !s[i].isSuccess
    ensures SuccessCount(s) == 0
  {
    if |s| > 0 {
      assert forall i :: 0 <= i < |s[1..]| ==> s[1..][i] == s[i + 1];
      NoSuccessCount(s[1..]);
    }
  }
}
