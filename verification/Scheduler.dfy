/** Arrival batches that respect parents, and the workers' share of a batch (eval/runners/run_pipeline.py). */
module Scheduler {
  import opened Domain

  datatype Sample = Sample(id: string, parent: Option<string>)

  datatype ScheduleError = BadBatchSize | RepeatedIds | CyclicOrMissing

  predicate DistinctIds(samples: seq<Sample>) {
    forall i, j | 0 <= i < j < |samples| :: samples[i].id != samples[j].id
  }

  function Ids(samples: seq<Sample>): set<string> {
    set s | s in samples :: s.id
  }

  predicate IsReady(s: Sample, completed: set<string>) {
    s.parent == None || s.parent.value in completed
  }

  lemma DistinctCons(all: seq<Sample>, rest: seq<Sample>)
    requires all != [] && DistinctIds(all) && DistinctIds(rest) && forall s <- rest :: s in all[1..]
    ensures DistinctIds([all[0]] + rest)
  {
    forall j | 0 <= j < |rest| ensures rest[j].id != all[0].id {
      assert rest[j] in rest;
      var i :| 0 <= i < |all[1..]| && all[1..][i] == rest[j];
      assert all[i + 1] == rest[j];
    }
  }

  function Ready(pending: seq<Sample>, completed: set<string>): (ready: seq<Sample>)
    ensures forall s :: s in ready <==> s in pending && IsReady(s, completed)
    ensures DistinctIds(pending) ==> DistinctIds(ready)
  {
    if pending == [] then []
    else
      assert pending == [pending[0]] + pending[1..];
      var rest := Ready(pending[1..], completed);
      assert DistinctIds(pending) ==> DistinctIds([pending[0]] + rest) by {
        if DistinctIds(pending) { DistinctCons(pending, rest); }
      }
      if IsReady(pending[0], completed) then [pending[0]] + rest else rest
  }

  function Without(pending: seq<Sample>, batch: seq<Sample>): (rest: seq<Sample>)
    ensures forall s :: s in rest <==> s in pending && s !in batch
    ensures DistinctIds(pending) ==> DistinctIds(rest)
    ensures |rest| <= |pending|
    ensures (exists s <- batch :: s in pending) ==> |rest| < |pending|
  {
    if pending == [] then []
    else
      assert pending == [pending[0]] + pending[1..];
      var rest := Without(pending[1..], batch);
      assert DistinctIds(pending) ==> DistinctIds([pending[0]] + rest) by {
        if DistinctIds(pending) { DistinctCons(pending, rest); }
      }
      if pending[0] in batch then rest else [pending[0]] + rest
  }

  function Flat(batches: seq<seq<Sample>>): seq<Sample> {
    if batches == [] then [] else Flat(batches[..|batches| - 1]) + batches[|batches| - 1]
  }

  /** The sample's chain of parents ends, within `n` steps and inside the selection. */
  predicate RootedWithin(selected: seq<Sample>, s: Sample, n: nat)
    decreases n
  {
    s.parent == None
    || (n > 0 && exists p <- selected :: Some(p.id) == s.parent && RootedWithin(selected, p, n - 1))
  }

  /** The chain of parents neither leaves the selection nor runs in a circle. */
  ghost predicate Rooted(selected: seq<Sample>, s: Sample) {
    exists n: nat :: RootedWithin(selected, s, n)
  }

  predicate Before(batches: seq<seq<Sample>>, k: nat, id: string) {
    exists j | 0 <= j < k && j < |batches| :: id in Ids(batches[j])
  }

  /** Every parent is in a strictly earlier batch. */
  predicate ParentsFirst(batches: seq<seq<Sample>>) {
    forall k | 0 <= k < |batches| :: forall s <- batches[k] :: s.parent.Some? ==> Before(batches, k, s.parent.value)
  }

  lemma FlatAppend(batches: seq<seq<Sample>>, batch: seq<Sample>)
    ensures Flat(batches + [batch]) == Flat(batches) + batch
  {
    assert (batches + [batch])[..|batches|] == batches;
  }

  lemma {:induction false} FlatMember(batches: seq<seq<Sample>>, s: Sample)
    requires s in Flat(batches)
    ensures Before(batches, |batches|, s.id)
  {
    var front, last := batches[..|batches| - 1], batches[|batches| - 1];
    if s in last {
      assert s.id in Ids(batches[|batches| - 1]);
    } else {
      FlatMember(front, s);
      var j :| 0 <= j < |front| && s.id in Ids(front[j]);
      assert front[j] == batches[j];
    }
  }

  lemma ParentsAppend(batches: seq<seq<Sample>>, batch: seq<Sample>, completed: set<string>)
    requires ParentsFirst(batches) && completed == Ids(Flat(batches))
    requires forall s <- batch :: IsReady(s, completed)
    ensures ParentsFirst(batches + [batch])
  {
    var longer := batches + [batch];
    forall k: nat, s: Sample | k < |longer| && s in longer[k] && s.parent.Some? ensures Before(longer, k, s.parent.value) {
      if k < |batches| {
        assert Before(batches, k, s.parent.value);
        var j :| 0 <= j < k && s.parent.value in Ids(batches[j]);
        assert longer[j] == batches[j];
      } else {
        var p :| p in Flat(batches) && p.id == s.parent.value;
        FlatMember(batches, p);
        var j :| 0 <= j < |batches| && p.id in Ids(batches[j]);
        assert longer[j] == batches[j];
      }
    }
  }

  lemma {:induction false} Counts(samples: seq<Sample>)
    requires DistinctIds(samples)
    ensures forall s :: multiset(samples)[s] == if s in samples then 1 else 0
  {
    if samples != [] {
      assert samples == [samples[0]] + samples[1..];
      Counts(samples[1..]);
      assert samples[0] !in samples[1..];
    }
  }

  lemma SplitPending(pending: seq<Sample>, batch: seq<Sample>)
    requires DistinctIds(pending) && DistinctIds(batch) && forall s <- batch :: s in pending
    ensures multiset(Without(pending, batch)) + multiset(batch) == multiset(pending)
  {
    Counts(pending);
    Counts(batch);
    Counts(Without(pending, batch));
  }

  /** Samples whose parents are among rooted samples are rooted. */
  lemma RootedNext(selected: seq<Sample>, done: seq<Sample>, s: Sample)
    requires forall d <- done :: d in selected && Rooted(selected, d)
    requires IsReady(s, Ids(done))
    ensures Rooted(selected, s)
  {
    if s.parent == None {
      assert RootedWithin(selected, s, 0);
    } else {
      var p :| p in done && p.id == s.parent.value;
      var n: nat :| RootedWithin(selected, p, n);
      assert RootedWithin(selected, s, n + 1);
    }
  }

  /** When nothing pending is ready, nothing pending is rooted. */
  lemma {:induction false} StuckIsUnrooted(selected: seq<Sample>, pending: seq<Sample>, completed: set<string>, s: Sample, n: nat)
    requires forall p <- selected :: p in pending || p.id in completed
    requires forall p <- pending :: !IsReady(p, completed)
    requires s in pending
    ensures !RootedWithin(selected, s, n)
    decreases n
  {
    if RootedWithin(selected, s, n) {
      var p :| p in selected && Some(p.id) == s.parent && RootedWithin(selected, p, n - 1);
      StuckIsUnrooted(selected, pending, completed, p, n - 1);
    }
  }

  // ---------------------------------------------------------------- in the order of the selection

  predicate Precedes(selected: seq<Sample>, s: Sample, t: Sample) {
    exists i, j | 0 <= i < j < |selected| :: selected[i] == s && selected[j] == t
  }

  predicate InOrder(selected: seq<Sample>, part: seq<Sample>) {
    forall i, j | 0 <= i < j < |part| :: Precedes(selected, part[i], part[j])
  }

  /** A sample that could have been in the batch and comes later has to wait only because the batch is full of
  samples selected before it. */
  predicate Eager(selected: seq<Sample>, batches: seq<seq<Sample>>, k: nat, batchSize: int)
    requires k < |batches|
  {
    forall x <- selected :: x !in Flat(batches[..k + 1]) && IsReady(x, Ids(Flat(batches[..k]))) ==>
      |batches[k]| == batchSize && forall s <- batches[k] :: Precedes(selected, s, x)
  }

  /** Batches follow the order of the selection, inside a batch and from one to the next. */
  predicate SelectionOrder(selected: seq<Sample>, batches: seq<seq<Sample>>, batchSize: int) {
    && (forall batch <- batches :: InOrder(selected, batch))
    && forall k | 0 <= k < |batches| :: Eager(selected, batches, k, batchSize)
  }

  lemma ConsInOrder(selected: seq<Sample>, first: Sample, rest: seq<Sample>)
    requires InOrder(selected, rest) && forall s <- rest :: Precedes(selected, first, s)
    ensures InOrder(selected, [first] + rest)
  {
    hide Precedes;
  }

  lemma TailInOrder(selected: seq<Sample>, part: seq<Sample>)
    requires InOrder(selected, part) && part != []
    ensures InOrder(selected, part[1..]) && forall s <- part[1..] :: Precedes(selected, part[0], s)
  {
    hide Precedes;
    forall s | s in part[1..] ensures Precedes(selected, part[0], s) {
      var i :| 0 <= i < |part[1..]| && part[1..][i] == s;
      assert part[i + 1] == s;
    }
  }

  lemma {:induction false} ReadyInOrder(selected: seq<Sample>, pending: seq<Sample>, completed: set<string>)
    requires InOrder(selected, pending)
    ensures InOrder(selected, Ready(pending, completed))
  {
    if pending != [] {
      hide Precedes, InOrder, IsReady, DistinctIds;
      TailInOrder(selected, pending);
      ReadyInOrder(selected, pending[1..], completed);
      ConsInOrder(selected, pending[0], Ready(pending[1..], completed));
    }
  }

  lemma {:induction false} WithoutInOrder(selected: seq<Sample>, pending: seq<Sample>, batch: seq<Sample>)
    requires InOrder(selected, pending)
    ensures InOrder(selected, Without(pending, batch))
  {
    if pending != [] {
      hide Precedes, InOrder, DistinctIds;
      TailInOrder(selected, pending);
      WithoutInOrder(selected, pending[1..], batch);
      ConsInOrder(selected, pending[0], Without(pending[1..], batch));
    }
  }

  lemma SelectedInOrder(selected: seq<Sample>)
    ensures InOrder(selected, selected)
  {
  }

  lemma NotDone(selected: seq<Sample>, done: seq<Sample>, x: Sample)
    requires DistinctIds(selected) && x in selected && x !in done && forall s <- done :: s in selected
    ensures x.id !in Ids(done)
  {
    forall y | y in done ensures y.id != x.id {
      var i :| 0 <= i < |selected| && selected[i] == x;
      var j :| 0 <= j < |selected| && selected[j] == y;
    }
  }

  /** Taking the first of the ready samples keeps every batch in order and eager. */
  lemma {:induction false} BatchIsEager(
    selected: seq<Sample>, batches: seq<seq<Sample>>, pending: seq<Sample>, ready: seq<Sample>, batchSize: nat)
    requires DistinctIds(selected) && InOrder(selected, pending) && ready == Ready(pending, Ids(Flat(batches)))
    requires forall s <- selected :: s in pending || s.id in Ids(Flat(batches))
    requires forall s <- Flat(batches) :: s in selected
    ensures var batch := ready[..if batchSize < |ready| then batchSize else |ready|];
            InOrder(selected, batch) && Eager(selected, batches + [batch], |batches|, batchSize)
  {
    var n := if batchSize < |ready| then batchSize else |ready|;
    var batch, after := ready[..n], batches + [ready[..n]];
    ReadyInOrder(selected, pending, Ids(Flat(batches)));
    assert after[..|batches| + 1] == after && after[..|batches|] == batches;
    FlatAppend(batches, batch);
    forall x | x in selected && x !in Flat(after) && IsReady(x, Ids(Flat(batches)))
      ensures n == batchSize && forall s <- batch :: Precedes(selected, s, x)
    {
      NotDone(selected, Flat(batches), x);
      hide DistinctIds, Flat, IsReady, Precedes;
      assert ready == batch + ready[n..];
      var j :| 0 <= j < |ready[n..]| && ready[n..][j] == x;
    }
  }

  lemma StillEager(selected: seq<Sample>, batches: seq<seq<Sample>>, batch: seq<Sample>, k: nat, batchSize: int)
    requires k < |batches| && Eager(selected, batches, k, batchSize)
    ensures Eager(selected, batches + [batch], k, batchSize)
  {
    assert (batches + [batch])[..k + 1] == batches[..k + 1] && (batches + [batch])[..k] == batches[..k];
    hide Flat, IsReady, Precedes;
  }

  lemma {:induction false} OrderGoesOn(
    selected: seq<Sample>, batches: seq<seq<Sample>>, pending: seq<Sample>, ready: seq<Sample>, batch: seq<Sample>, batchSize: nat)
    requires DistinctIds(selected) && InOrder(selected, pending) && ready == Ready(pending, Ids(Flat(batches)))
    requires forall s <- selected :: s in pending || s.id in Ids(Flat(batches))
    requires forall s <- Flat(batches) :: s in selected
    requires batch == ready[..if batchSize < |ready| then batchSize else |ready|] && SelectionOrder(selected, batches, batchSize)
    ensures SelectionOrder(selected, batches + [batch], batchSize) && InOrder(selected, Without(pending, batch))
  {
    hide DistinctIds, InOrder, Eager, Ready, Flat, Ids;
    BatchIsEager(selected, batches, pending, ready, batchSize);
    WithoutInOrder(selected, pending, batch);
    forall k | 0 <= k < |batches| ensures Eager(selected, batches + [batch], k, batchSize) {
      StillEager(selected, batches, batch, k, batchSize);
    }
  }

  lemma NothingScheduled(selected: seq<Sample>, batchSize: int)
    ensures SelectionOrder(selected, [], batchSize)
  {
  }

  /** Batches are a permutation of the selection, each of one to `batchSize` samples with every parent
  strictly earlier; scheduling fails exactly on a bad size, repeated identifiers, or a sample whose
  chain of parents cycles or leaves the selection. */
  method ScheduleSampleBatches(selected: seq<Sample>, batchSize: int)
    returns (r: Result<seq<seq<Sample>>, ScheduleError>)
    ensures r == Err(BadBatchSize) <==> !(1 <= batchSize <= 16)
    ensures r == Err(RepeatedIds) <==> 1 <= batchSize <= 16 && !DistinctIds(selected)
    ensures r == Err(CyclicOrMissing) <==>
              1 <= batchSize <= 16 && DistinctIds(selected) && exists s <- selected :: !Rooted(selected, s)
    ensures r.Ok? ==>
              && multiset(Flat(r.value)) == multiset(selected)
              && (forall batch <- r.value :: 1 <= |batch| <= batchSize)
              && ParentsFirst(r.value)
              && SelectionOrder(selected, r.value, batchSize)
  {
    if !(1 <= batchSize <= 16) {
      return Err(BadBatchSize);
    }
    if !DistinctIds(selected) {
      return Err(RepeatedIds);
    }
    var pending := selected;
    SelectedInOrder(selected);
    NothingScheduled(selected, batchSize);
    var completed: set<string> := {};
    var batches: seq<seq<Sample>> := [];
    while pending != []
      invariant DistinctIds(pending)
      invariant multiset(Flat(batches)) + multiset(pending) == multiset(selected)
      invariant completed == Ids(Flat(batches))
      invariant forall s <- selected :: s in pending || s.id in completed
      invariant forall s <- pending :: s in selected
      invariant forall s <- Flat(batches) :: s in selected && Rooted(selected, s)
      invariant forall s <- selected :: s in pending || Rooted(selected, s)
      invariant forall batch <- batches :: 1 <= |batch| <= batchSize
      invariant ParentsFirst(batches) && InOrder(selected, pending) && SelectionOrder(selected, batches, batchSize)
      decreases |pending|
    {
      hide InOrder, SelectionOrder, ParentsFirst;
      var ready := Ready(pending, completed);
      if ready == [] {
        forall n: nat ensures !RootedWithin(selected, pending[0], n) {
          StuckIsUnrooted(selected, pending, completed, pending[0], n);
        }
        return Err(CyclicOrMissing);
      }
      var batch := ready[..if batchSize < |ready| then batchSize else |ready|];
      Advance(selected, batches, pending, completed, ready, batch);
      OrderGoesOn(selected, batches, pending, ready, batch, batchSize);
      batches := batches + [batch];
      completed := completed + Ids(batch);
      pending := Without(pending, batch);
    }
    r := Ok(batches);
  }

  lemma DistinctPrefix(ready: seq<Sample>, batch: seq<Sample>)
    requires DistinctIds(ready) && batch <= ready
    ensures DistinctIds(batch)
  {
  }

  /** What one batch keeps of the loop's invariant. */
  lemma {:induction false} Advance(selected: seq<Sample>, batches: seq<seq<Sample>>, pending: seq<Sample>, completed: set<string>,
                ready: seq<Sample>, batch: seq<Sample>)
    requires DistinctIds(pending) && ready == Ready(pending, completed) && completed == Ids(Flat(batches))
    requires multiset(Flat(batches)) + multiset(pending) == multiset(selected)
    requires forall s <- selected :: s in pending || s.id in completed
    requires forall s <- pending :: s in selected
    requires forall s <- Flat(batches) :: s in selected && Rooted(selected, s)
    requires forall s <- selected :: s in pending || Rooted(selected, s)
    requires batch != [] && batch <= ready && ParentsFirst(batches)
    ensures var after, rest, done := batches + [batch], Without(pending, batch), completed + Ids(batch);
            && multiset(Flat(after)) + multiset(rest) == multiset(selected)
            && done == Ids(Flat(after)) && ParentsFirst(after) && |rest| < |pending|
            && (forall s <- selected :: s in rest || s.id in done)
            && (forall s <- Flat(after) :: s in selected && Rooted(selected, s))
            && (forall s <- selected :: s in rest || Rooted(selected, s))
  {
    hide Rooted, Ready, Without, Flat, ParentsFirst, DistinctIds;
    assert batch[0] in ready && DistinctIds(batch) by { DistinctPrefix(ready, batch); }
    FlatAppend(batches, batch);
    ParentsAppend(batches, batch, completed);
    SplitPending(pending, batch);
    forall s | s in batch ensures Rooted(selected, s) {
      RootedNext(selected, Flat(batches), s);
    }
  }

  // ---------------------------------------------------------------- chunks for parallel workers

  /** Every `count`-th identifier from `start`. */
  function Stride<T>(ids: seq<T>, start: nat, count: nat): seq<T>
    requires count > 0
    decreases |ids| - start
  {
    if start >= |ids| then [] else [ids[start]] + Stride(ids, start + count, count)
  }

  function Chunks<T>(ids: seq<T>, count: nat, n: nat): seq<seq<T>>
    requires 0 < count && n <= count
  {
    if n == 0 then [] else Chunks(ids, count, n - 1) + [Stride(ids, n - 1, count)]
  }

  lemma {:induction false} StrideAt<T>(ids: seq<T>, start: nat, count: nat, k: nat)
    requires count > 0 && start + k * count < |ids|
    ensures k < |Stride(ids, start, count)| && Stride(ids, start, count)[k] == ids[start + k * count]
    decreases k
  {
    if k > 0 {
      assert start + count + (k - 1) * count == start + k * count;
      StrideAt(ids, start + count, count, k - 1);
    }
  }

  lemma {:induction false} ChunksAt<T>(ids: seq<T>, count: nat, n: nat, i: nat)
    requires 0 < count && i < n <= count
    ensures |Chunks(ids, count, n)| == n && Chunks(ids, count, n)[i] == Stride(ids, i, count)
  {
    if i < n - 1 {
      ChunksAt(ids, count, n - 1, i);
    } else if n > 1 {
      ChunksAt(ids, count, n - 1, 0);
    }
  }

  lemma {:induction false} StrideWithin<T>(ids: seq<T>, start: nat, count: nat, k: nat)
    requires count > 0 && k < |Stride(ids, start, count)|
    ensures start + k * count < |ids|
    decreases k
  {
    if k > 0 {
      StrideWithin(ids, start + count, count, k - 1);
      assert start + count + (k - 1) * count == start + k * count;
    }
  }

  lemma PositionSplit(p: nat, count: nat)
    requires count > 0
    ensures p % count + (p / count) * count == p
  {
  }

  /** The chunks partition the identifiers: position p is entry p / count of chunk p % count, and every
  entry of every chunk is such a position. No worker layout loses or repeats a run. */
  lemma ChunksPartition<T>(ids: seq<T>, count: nat, p: nat, r: nat, k: nat)
    requires 0 < count && r < count
    ensures var chunks := Chunks(ids, count, count);
            && |chunks| == count
            && (p < |ids| ==> p / count < |chunks[p % count]| && chunks[p % count][p / count] == ids[p])
            && (k < |chunks[r]| ==> r + k * count < |ids| && chunks[r][k] == ids[r + k * count])
  {
    hide Chunks, Stride;
    ChunksAt(ids, count, count, p % count);
    ChunksAt(ids, count, count, r);
    if p < |ids| {
      PositionSplit(p, count);
      StrideAt(ids, p % count, count, p / count);
    }
    if k < |Stride(ids, r, count)| {
      StrideWithin(ids, r, count, k);
      StrideAt(ids, r, count, k);
    }
  }
}
