/** The dead-letter page over the runs table (graph/worker.py). */
module DeadLetters {
  import opened Domain
  import Worker
  import Protocol
  import Attempts

  datatype StoredRun = StoredRun(id: nat, row: RunRow)

  datatype DeadLetter = DeadLetter(run: nat, attempts: nat, cycle: nat, errorType: string, retryable: bool)

  datatype ListError = InvalidLimit | BadRecord

  /** `ORDER BY completed_at, id`; a missing time sorts last. */
  predicate Earlier(a: StoredRun, b: StoredRun) {
    match (a.row.completedAt, b.row.completedAt)
    case (Some(x), Some(y)) => x < y || (x == y && a.id < b.id)
    case (None, Some(_)) => false
    case (Some(_), None) => true
    case (None, None) => a.id < b.id
  }

  function Enqueue(x: StoredRun, queue: seq<StoredRun>): seq<StoredRun> {
    if queue == [] || Earlier(x, queue[0]) then [x] + queue else [queue[0]] + Enqueue(x, queue[1..])
  }

  /** The FAILED runs in the order of the query. */
  function Queue(runs: seq<StoredRun>): seq<StoredRun> {
    if runs == [] then []
    else
      var rest := Queue(runs[1..]);
      if runs[0].row.status == Failed then Enqueue(runs[0], rest) else rest
  }

  function Page(runs: seq<StoredRun>, limit: nat): seq<StoredRun> {
    var queue := Queue(runs);
    if limit < |queue| then queue[..limit] else queue
  }

  /** The retry state of a FAILED run says what failed and counts an attempt. */
  predicate Recorded(row: RunRow) {
    Worker.Stored(row).deadLettered && Worker.Stored(row).errorType.Some? && Worker.Stored(row).attempts >= 1
  }

  function Letter(x: StoredRun): DeadLetter
    requires Recorded(x.row)
  {
    var s := Worker.Stored(x.row);
    DeadLetter(x.id, s.attempts, s.cycle, s.errorType.value, s.retryable == Some(true))
  }

  /** One page of dead letters, in order; it fails exactly when a run on the page lacks its record. */
  method ListDeadLetters(runs: seq<StoredRun>, limit: int) returns (r: Result<seq<DeadLetter>, ListError>)
    ensures r == Err(InvalidLimit) <==> !(1 <= limit <= 100)
    ensures 1 <= limit <= 100 ==>
              var page := Page(runs, limit);
              if forall x <- page :: Recorded(x.row)
              then r.Ok? && |r.value| == |page| && forall i | 0 <= i < |page| :: r.value[i] == Letter(page[i])
              else r == Err(BadRecord)
    ensures r == Err(BadRecord) ==>
              exists x <- Page(runs, limit) ::
                match x.row.error case None => true case Some(s) => !s.deadLettered || s.errorType == None || s.attempts == 0
    ensures r.Ok? ==>
              forall x <- Page(runs, limit) ::
                match x.row.error case None => false case Some(s) => s.deadLettered && s.errorType != None && s.attempts > 0
  {
    if !(1 <= limit <= 100) {
      return Err(InvalidLimit);
    }
    var page := Page(runs, limit);
    var result: seq<DeadLetter> := [];
    for i := 0 to |page|
      invariant |result| == i
      invariant forall j | 0 <= j < i :: Recorded(page[j].row) && result[j] == Letter(page[j])
    {
      if !Recorded(page[i].row) {
        assert page[i] in page;
        return Err(BadRecord);
      }
      result := result + [Letter(page[i])];
    }
    r := Ok(result);
  }

  // ---------------------------------------------------------------- the page is the oldest failures

  predicate Sorted(queue: seq<StoredRun>) {
    forall i, j | 0 <= i < j < |queue| :: Earlier(queue[i], queue[j])
  }

  /** It failed before, or at the same time with a smaller id. */
  predicate FailedBefore(a: StoredRun, b: StoredRun) {
    && (a.row.completedAt == b.row.completedAt ==> a.id < b.id)
    && (b.row.completedAt != None ==> a.row.completedAt != None && a.row.completedAt.value <= b.row.completedAt.value)
  }

  lemma EarlierMeans(a: StoredRun, b: StoredRun)
    ensures Earlier(a, b) <==> FailedBefore(a, b)
  {
  }

  predicate DistinctRuns(runs: seq<StoredRun>) {
    forall i, j | 0 <= i < j < |runs| :: runs[i].id != runs[j].id
  }

  lemma {:induction false} EnqueueMembers(x: StoredRun, queue: seq<StoredRun>)
    ensures forall y :: y in Enqueue(x, queue) <==> y == x || y in queue
    ensures |Enqueue(x, queue)| == |queue| + 1
  {
    if !(queue == [] || Earlier(x, queue[0])) {
      assert queue == [queue[0]] + queue[1..];
      EnqueueMembers(x, queue[1..]);
    }
  }

  lemma {:induction false} EnqueueSorted(x: StoredRun, queue: seq<StoredRun>)
    requires Sorted(queue) && forall y <- queue :: y.id != x.id
    ensures Sorted(Enqueue(x, queue))
  {
    if queue != [] && !Earlier(x, queue[0]) {
      assert queue == [queue[0]] + queue[1..];
      EnqueueSorted(x, queue[1..]);
      EnqueueMembers(x, queue[1..]);
      forall y | y in Enqueue(x, queue[1..]) ensures Earlier(queue[0], y) {
        if y != x {
          var i :| 0 <= i < |queue[1..]| && queue[1..][i] == y;
          assert queue[i + 1] == y;
        }
      }
    }
  }

  function Failures(runs: seq<StoredRun>): nat {
    if runs == [] then 0 else (if runs[0].row.status == Failed then 1 else 0) + Failures(runs[1..])
  }

  lemma {:induction false} QueueSorted(runs: seq<StoredRun>)
    requires DistinctRuns(runs)
    ensures Sorted(Queue(runs)) && |Queue(runs)| == Failures(runs)
    ensures forall x :: x in Queue(runs) <==> x in runs && x.row.status == Failed
  {
    if runs != [] {
      assert runs == [runs[0]] + runs[1..];
      QueueSorted(runs[1..]);
      forall y | y in runs[1..] ensures y.id != runs[0].id {
        var i :| 0 <= i < |runs[1..]| && runs[1..][i] == y;
        assert runs[i + 1] == y;
      }
      hide Sorted, DistinctRuns, Earlier;
      if runs[0].row.status == Failed {
        EnqueueSorted(runs[0], Queue(runs[1..]));
        EnqueueMembers(runs[0], Queue(runs[1..]));
      }
    }
  }

  /** A page holds the oldest failures, as many as asked for or all of them, and nothing else: every failed
  run that is not on it failed after every run that is. */
  lemma {:induction false} PageIsOldest(runs: seq<StoredRun>, limit: nat)
    requires DistinctRuns(runs)
    ensures var page := Page(runs, limit);
            && |page| == (if limit < Failures(runs) then limit else Failures(runs))
            && (forall i, j | 0 <= i < j < |page| :: FailedBefore(page[i], page[j]))
            && (forall x <- page :: x in runs && x.row.status == Failed)
            && forall x, y | x in page && y in runs && y.row.status == Failed && y !in page :: FailedBefore(x, y)
  {
    QueueSorted(runs);
    var page, queue := Page(runs, limit), Queue(runs);
    hide Queue, Earlier;
    assert forall i | 0 <= i < |page| :: page[i] == queue[i];
    forall i, j | 0 <= i < j < |page| ensures FailedBefore(page[i], page[j]) {
      EarlierMeans(page[i], page[j]);
    }
    forall x, y | x in page && y in runs && y.row.status == Failed && y !in page ensures FailedBefore(x, y) {
      EarlierMeans(x, y);
      var i :| 0 <= i < |page| && page[i] == x;
      var j :| 0 <= j < |queue| && queue[j] == y;
      assert j >= |page|;
    }
  }

  /** Every run of the protocol keeps the listing working: a failed run is listed with what its latest
  dead-letter event says. */
  lemma {:induction false} ListingNeverFails(p: Protocol.Params, steps: seq<Protocol.Step>, id: nat)
    requires p.retry.maxAttempts >= 1
    ensures var rows := Protocol.Run(Protocol.Init(), p, steps).rows;
            rows.run.status == Failed ==>
              && Recorded(rows.run)
              && match LatestDeadLetter(rows.ledger)
                 case Some(DeadLettered(attempts, cycle, errorType, retryable)) =>
                   Letter(StoredRun(id, rows.run)) == DeadLetter(id, attempts, cycle, errorType, retryable)
                 case _ => false
  {
    hide Protocol.Run;
    Attempts.DeadLettersBalance(p, steps, 0, false);
  }
}
