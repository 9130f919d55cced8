/** The progress projection read from the ledger alone (api/run_progress_reader.py) against the
graph's real frontier. */
module Progress {
  import opened Domain
  import opened Graph
  import opened Services
  import opened Protocol
  import opened GraphInvariant
  import opened Invariant
  import opened Safety
  import History

  /** The node whose progress an event reports; similarity and taxonomy report none. */
  function NodeOf(e: Event): Option<Node> {
    if e == IngestAccepted then Some(Ingest)
    else
      match KindOf(e)
      case Some(KExtraction) => Some(Extract)
      case Some(KValidation) => Some(Validate)
      case Some(KMatch) => Some(Match3Way)
      case Some(KPolicy) => Some(PolicyNode)
      case Some(KGate) => Some(GateNode)
      case Some(KAuto) => Some(AutoApprove)
      case Some(KTriage) => Some(ExceptionTriage)
      case Some(KReview) => Some(HumanReview)
      case Some(KArchive) => Some(Archive)
      case Some(KReject) => Some(Reject)
      case _ => None
  }

  function LatestOf(ledger: seq<Event>, node: Node): Option<Event> {
    if ledger == [] then None
    else if NodeOf(ledger[|ledger| - 1]) == Some(node) then Some(ledger[|ledger| - 1])
    else LatestOf(ledger[..|ledger| - 1], node)
  }

  /** `observed`: per node, its newest event. */
  predicate Observes(observed: map<Node, Event>, ledger: seq<Event>) {
    forall node :: (if node in observed then Some(observed[node]) else None) == LatestOf(ledger, node)
  }

  method ReadObserved(ledger: seq<Event>) returns (observed: map<Node, Event>)
    ensures Observes(observed, ledger)
  {
    observed := map[];
    var n := |ledger|;
    assert ledger[..n] == ledger;
    while n > 0
      invariant 0 <= n <= |ledger|
      invariant forall node | node in observed :: Some(observed[node]) == LatestOf(ledger, node)
      invariant forall node | node !in observed :: LatestOf(ledger, node) == LatestOf(ledger[..n], node)
    {
      n := n - 1;
      assert ledger[..n + 1][..n] == ledger[..n];
      var node := NodeOf(ledger[n]);
      if node.Some? && node.value !in observed {
        observed := observed[node.value := ledger[n]];
      }
    }
  }

  function ActiveNode(status: RunStatus, observed: map<Node, Event>): Option<Node> {
    if status in {Queued, Completed, Failed, Cancelled} then None
    else if status == Paused then Some(HumanReview)
    else if Reject in observed || Archive in observed then None
    else if HumanReview in observed then Some(Archive)
    else if ExceptionTriage in observed then Some(HumanReview)
    else if AutoApprove in observed then Some(Archive)
    else if GateNode in observed then
      var e := observed[GateNode];
      Some(if e.GateCompleted? && e.gate.route == AutoRoute then AutoApprove else ExceptionTriage)
    else if PolicyNode in observed then Some(GateNode)
    else if Match3Way in observed then Some(PolicyNode)
    else if Validate in observed then Some(Match3Way)
    else if Extract in observed then
      var e := observed[Extract];
      Some(if e.ExtractionRecorded? && e.outcome.ExtractionEscalated? then ExceptionTriage else Validate)
    else if Ingest in observed then Some(Extract)
    else Some(Ingest)
  }

  // ---------------------------------------------------------------- the graph's own frontier

  /** Where the graph stands once everything committed is replayed: the node in progress, or the
  successor of the last node whose evidence is complete. */
  function Frontier(p: Params, c: Option<Checkpoint>, events: seq<Event>): Option<Node>
    requires c.Some? ==> |KindsDone(c.value.w, c.value.next)| <= |events|
  {
    match c
    case None => Some(if p.duplicate then Reject else Extract)
    case Some(at) =>
      if at.next.Some? && |events| == |KindsThrough(at.w, at.next)|
      then Successor(at.next.value, Finish(at.next.value, Replayed(at, events)))
      else at.next
  }

  /** The node after a piece of evidence. */
  function After(e: Event): Option<Node> {
    match e
    case ExtractionRecorded(_, o) => Some(if o.ExtractionEscalated? then ExceptionTriage else Validate)
    case ValidationCompleted(_) => Some(Match3Way)
    case MatchingCompleted(_) => Some(PolicyNode)
    case SimilarityCompleted(_) => Some(PolicyNode)
    case ClassificationCompleted(_) => Some(PolicyNode)
    case PolicyCompleted(_) => Some(GateNode)
    case GateCompleted(g) => Some(if g.route == AutoRoute then AutoApprove else ExceptionTriage)
    case AutoGranted(_) => Some(Archive)
    case TriagePrepared(_) => Some(HumanReview)
    case ReviewRecorded(_) => Some(Archive)
    case _ => None
  }

  /** A node part-way through its evidence, or just reached, is the node after its last evidence. */
  lemma ReachedAfter(c: Checkpoint, events: seq<Event>)
    requires CheckpointInv(c, events) && events != [] && c.next.Some?
    requires |events| < |KindsThrough(c.w, c.next)|
    ensures After(events[|events| - 1]) == c.next
  {
    var ks, n, last := KindsThrough(c.w, c.next), |KindsDone(c.w, c.next)|, |events| - 1;
    if |events| == n {
      assert Backed(KindsDone(c.w, c.next)[last], events[..n][last], c.w);
    }
  }

  /** A node whose evidence is complete is followed by the node after its last evidence. */
  lemma FinishedAfter(c: Checkpoint, events: seq<Event>)
    requires CheckpointInv(c, events) && events != [] && c.next.Some?
    requires |events| == |KindsThrough(c.w, c.next)|
    ensures After(events[|events| - 1]) == Successor(c.next.value, Finish(c.next.value, Replayed(c, events)))
  {
    var ks, last := KindsThrough(c.w, c.next), |events| - 1;
    WholeLedgerChains(c, events);
    hide KindsDone, Positioned, SnapshotMatches, TailGrounded, Replayed, Grounded;
    assert ks[..|events|][last] == ks[last] == Kinds(c.next.value)[|Kinds(c.next.value)| - 1] by { LastKind(c); }
    assert Backed(ks[last], events[last], Replayed(c, events));
    LastKindFacts(c, ks[last], events[last], Replayed(c, events));
  }

  lemma LastKind(c: Checkpoint)
    requires Positioned(c.w, c.next) && c.next.Some? && KindsThrough(c.w, c.next) != []
    ensures Kinds(c.next.value) != []
    ensures KindsThrough(c.w, c.next)[|KindsThrough(c.w, c.next)| - 1] == Kinds(c.next.value)[|Kinds(c.next.value)| - 1]
  {
  }

  lemma LastKindFacts(c: Checkpoint, k: Kind, e: Event, w: GraphState)
    requires c.next.Some? && Kinds(c.next.value) != [] && k == Kinds(c.next.value)[|Kinds(c.next.value)| - 1]
    requires Backed(k, e, w)
    ensures After(e) == Successor(c.next.value, Finish(c.next.value, w))
  {
  }

  lemma EndedAfter(c: Checkpoint, events: seq<Event>)
    requires CheckpointInv(c, events) && c.next == None
    ensures events != [] && After(events[|events| - 1]) == None
  {
    assert |events| == |KindsDone(c.w, None)|;
  }

  lemma {:induction false} LatestOfKind(ledger: seq<Event>, node: Node, k: Kind)
    requires node != Ingest && Kinds(node) != [] && k == Kinds(node)[|Kinds(node)| - 1]
    ensures LatestOf(ledger, node) == Latest(ledger, k)
  {
    if ledger != [] {
      LatestOfKind(ledger[..|ledger| - 1], node, k);
    }
  }

  /** The kind whose events report a node's progress. */
  function Reports(node: Node): Kind
    requires node != Ingest
  {
    Kinds(node)[|Kinds(node)| - 1]
  }

  lemma {:induction false} ActiveCases(observed: map<Node, Event>, k: Kind, e: Event)
    requires KindOf(e) == Some(k)
    requires forall node | node != Ingest && Rank(Reports(node)) > Rank(k) :: node !in observed
    requires forall node | node != Ingest && Reports(node) == k :: node in observed && observed[node] == e
    requires k in {KSimilarity, KTaxonomy} ==> Match3Way in observed
    ensures ActiveNode(Running, observed) == After(e)
  {
    if Rank(k) >= 6 {
      ActiveLate(observed, k, e);
    } else {
      ActiveEarly(observed, k, e);
    }
  }

  lemma ActiveLate(observed: map<Node, Event>, k: Kind, e: Event)
    requires KindOf(e) == Some(k) && Rank(k) >= 6
    requires forall node | node != Ingest && Rank(Reports(node)) > Rank(k) :: node !in observed
    requires forall node | node != Ingest && Reports(node) == k :: node in observed && observed[node] == e
    ensures ActiveNode(Running, observed) == After(e)
  {
    if e.GateCompleted? { assert Reports(GateNode) == k; }
    if e.AutoGranted? { assert Reports(AutoApprove) == k; }
    if e.TriagePrepared? { assert Reports(ExceptionTriage) == k; }
    if e.ReviewRecorded? { assert Reports(HumanReview) == k; }
    if e.WorkflowArchived? { assert Reports(Archive) == k; }
    if e.WorkflowRejected? { assert Reports(Reject) == k; }
  }

  lemma {:induction false} ActiveEarly(observed: map<Node, Event>, k: Kind, e: Event)
    requires KindOf(e) == Some(k) && Rank(k) < 6
    requires forall node | node != Ingest && Rank(Reports(node)) > Rank(k) :: node !in observed
    requires forall node | node != Ingest && Reports(node) == k :: node in observed && observed[node] == e
    requires k in {KSimilarity, KTaxonomy} ==> Match3Way in observed
    ensures ActiveNode(Running, observed) == After(e)
  {
    if e.ExtractionRecorded? { assert Reports(Extract) == k; }
    if e.ValidationCompleted? { assert Reports(Validate) == k; }
    if e.MatchingCompleted? { assert Reports(Match3Way) == k; }
    if e.PolicyCompleted? { assert Reports(PolicyNode) == k; }
  }

  lemma NodeShown(observed: map<Node, Event>, ledger: seq<Event>, node: Node)
    requires Observes(observed, ledger) && node != Ingest
    ensures Shown(observed, node, Latest(ledger, Reports(node)))
  {
    LatestOfKind(ledger, node, Reports(node));
    hide LatestOf, Latest;
  }

  /** Reading the newest recorded node gives the node after the last evidence. */
  lemma ActiveIsAfter(ledger: seq<Event>, observed: map<Node, Event>, ks: seq<Kind>, events: seq<Event>, k: Kind)
    requires events == Evidences(ledger) && events != [] && Ordered(ks) && Spells(events, ks)
    requires Observes(observed, ledger) && k == ks[|events| - 1]
    requires k in {KSimilarity, KTaxonomy} ==> Latest(events, KMatch).Some?
    ensures ActiveNode(Running, observed) == After(events[|events| - 1])
  {
    hide Latest, Observes, Evidences, Rank, Reports, ActiveNode, After;
    var e := events[|events| - 1];
    forall node | node != Ingest && Rank(Reports(node)) > Rank(k) ensures node !in observed {
      NodeShown(observed, ledger, node);
      NoneAbove(events, ks, Reports(node));
      LatestEvidence(ledger, Reports(node));
    }
    LatestAligned(events, ks, |events| - 1);
    forall node | node != Ingest && Reports(node) == k ensures node in observed && observed[node] == e {
      NodeShown(observed, ledger, node);
      LatestEvidence(ledger, k);
    }
    NodeShown(observed, ledger, Match3Way);
    MatchReports();
    LatestEvidence(ledger, KMatch);
    ActiveCases(observed, k, e);
  }

  lemma MatchReports()
    ensures Reports(Match3Way) == KMatch
  {
  }

  lemma NoneAbove(events: seq<Event>, ks: seq<Kind>, later: Kind)
    requires Ordered(ks) && Spells(events, ks) && events != [] && Rank(later) > Rank(ks[|events| - 1])
    ensures Latest(events, later) == None
  {
    hide Latest, KindOf;
    LatestAbsent(events, ks[..|events|], later);
  }

  predicate Shown(observed: map<Node, Event>, node: Node, e: Option<Event>) {
    if e.Some? then node in observed && observed[node] == e.value else node !in observed
  }

  lemma MatchBefore(w: GraphState, next: Option<Node>, i: nat)
    requires i < |KindsThrough(w, next)| && KindsThrough(w, next)[i] in {KSimilarity, KTaxonomy}
    ensures i > 2 && KindsThrough(w, next)[2] == KMatch
  {
    EvidenceBefore(w, next, i);
    assert KindsThrough(w, next)[2] == KindsThrough(w, next)[..i][2];
  }

  /** The frontier is the node after the last evidence. */
  lemma {:induction false} FrontierIsAfter(p: Params, c: Checkpoint, events: seq<Event>)
    requires CheckpointInv(c, events) && events != []
    ensures |KindsDone(c.w, c.next)| <= |events|
    ensures Frontier(p, Some(c), events) == After(events[|events| - 1])
  {
    hide KindsThrough, KindsDone, Positioned, Chained, SnapshotMatches, TailGrounded, After, Replayed, Finish;
    hide Successor;
    WholeLedgerChains(c, events);
    if c.next == None {
      EndedAfter(c, events);
    } else if |events| == |KindsThrough(c.w, c.next)| {
      FinishedAfter(c, events);
    } else {
      ReachedAfter(c, events);
    }
  }

  lemma ActiveIsFrontier(s: State, p: Params, observed: map<Node, Event>)
    requires GraphOk(s) && s.ckpt.Some? && Observes(observed, s.rows.ledger) && Evidences(s.rows.ledger) != []
    ensures var c := s.ckpt.value; |KindsDone(c.w, c.next)| <= |Evidences(s.rows.ledger)|
    ensures ActiveNode(Running, observed) == Frontier(p, s.ckpt, Evidences(s.rows.ledger))
  {
    hide KindsThrough, KindsDone, Positioned, Chained, SnapshotMatches, TailGrounded, After, Frontier;
    hide ActiveNode, Observes;
    hide Evidences, ExecInv, Latest, KindOf;
    var c, events := s.ckpt.value, Evidences(s.rows.ledger);
    var ks := KindsThrough(c.w, c.next);
    KindsOrdered(c.w, c.next);
    FrontierIsAfter(p, c, events);
    var k := ks[|events| - 1];
    if k in {KSimilarity, KTaxonomy} {
      MatchBefore(c.w, c.next, |events| - 1);
      LatestAligned(events, ks, 2);
    }
    ActiveIsAfter(s.rows.ledger, observed, ks, events, k);
  }

  // ---------------------------------------------------------------- what the projection shows

  lemma {:induction false} NothingObserved(ledger: seq<Event>, node: Node)
    requires Evidences(ledger) == [] && node != Ingest
    ensures LatestOf(ledger, node) == None
  {
    if ledger != [] {
      NothingObserved(ledger[..|ledger| - 1], node);
    }
  }

  lemma {:induction false} IngestObserved(ledger: seq<Event>)
    requires ledger != [] && ledger[0] == IngestAccepted
    ensures LatestOf(ledger, Ingest).Some?
  {
    if |ledger| > 1 {
      IngestObserved(ledger[..|ledger| - 1]);
    }
  }

  lemma ActiveAtStart(s: State, p: Params, observed: map<Node, Event>)
    requires GraphOk(s) && InputInv(s.ckpt, p) && Observes(observed, s.rows.ledger) && Evidences(s.rows.ledger) == []
    requires s.rows.ledger != [] && s.rows.ledger[0] == IngestAccepted
    ensures s.ckpt.Some? ==> KindsDone(s.ckpt.value.w, s.ckpt.value.next) == []
    ensures ActiveNode(Running, observed) == Some(Extract)
    ensures Frontier(p, s.ckpt, []) == Some(if p.duplicate then Reject else Extract)
  {
    IngestObserved(s.rows.ledger);
    assert Shown(observed, Ingest, LatestOf(s.rows.ledger, Ingest));
    forall node | node != Ingest ensures node !in observed {
      NothingObserved(s.rows.ledger, node);
      assert Shown(observed, node, None);
    }
    FrontierAtStart(s, p);
    hide Frontier, LatestOf, Observes, GraphInv;
  }

  lemma FrontierAtStart(s: State, p: Params)
    requires GraphOk(s) && InputInv(s.ckpt, p) && Evidences(s.rows.ledger) == []
    ensures s.ckpt.Some? ==> KindsDone(s.ckpt.value.w, s.ckpt.value.next) == []
    ensures Frontier(p, s.ckpt, []) == Some(if p.duplicate then Reject else Extract)
  {
    hide Evidences, Chained, TailGrounded, SnapshotMatches, ExecInv;
  }

  lemma PausedKinds(w: GraphState, next: Option<Node>)
    requires KTriage in KindsDone(w, next)
    ensures KindsThrough(w, next) in {TriageKinds(w) + [KReview], TriageKinds(w) + [KReview, KArchive]}
    ensures |KindsDone(w, next)| >= |TriageKinds(w)| > 0 && TriageKinds(w)[|TriageKinds(w)| - 1] == KTriage
  {
    KindsThroughSplit(w, next);
  }

  lemma PausedFrontier(s: State, p: Params)
    requires GraphOk(s) && Recorded(s.ckpt, KTriage)
    ensures var c := s.ckpt.value; |KindsDone(c.w, c.next)| <= |Evidences(s.rows.ledger)|
    ensures Frontier(p, s.ckpt, Evidences(s.rows.ledger)) == Some(HumanReview) <==> Latest(s.rows.ledger, KReview) == None
  {
    hide KindsThrough, KindsDone, TriageKinds, Positioned, Chained, SnapshotMatches, TailGrounded, Frontier;
    hide Evidences, ExecInv, Latest;
    var c, events := s.ckpt.value, Evidences(s.rows.ledger);
    var ks, t := KindsThrough(c.w, c.next), |TriageKinds(c.w)|;
    PausedKinds(c.w, c.next);
    KindsOrdered(c.w, c.next);
    FrontierIsAfter(p, c, events);
    LatestEvidence(s.rows.ledger, KReview);
    assert ks[t] == KReview && ks[t - 1] == KTriage && (|ks| > t + 1 ==> ks[t + 1] == KArchive);
    LatestAligned(events, ks, t);
  }

  /** While a run executes, the projection shows the graph's frontier after every step of every run,
  except, exactly, for a duplicate before its rejection is recorded. While a run is paused it shows
  HumanReview, which is the frontier exactly until the review is recorded. A run that is neither shows none. */
  lemma {:induction false} ActiveNodeIsFrontier(p: Params, steps: seq<Step>, observed: map<Node, Event>)
    requires p.retry.maxAttempts >= 1
    requires Observes(observed, Run(Init(), p, steps).rows.ledger)
    ensures var s := Run(Init(), p, steps);
            var events := Evidences(s.rows.ledger);
            && (s.ckpt.Some? ==> |KindsDone(s.ckpt.value.w, s.ckpt.value.next)| <= |events|)
            && (s.rows.run.status == Running ==>
                  (ActiveNode(Running, observed) == Frontier(p, s.ckpt, events) <==> !(p.duplicate && events == [])))
            && (s.rows.run.status == Paused ==>
                  (ActiveNode(Paused, observed) == Frontier(p, s.ckpt, events) <==> Latest(s.rows.ledger, KReview) == None))
            && (s.rows.run.status !in {Running, Paused} ==> ActiveNode(s.rows.run.status, observed) == None)
  {
    hide Run, TableInv, Evidences, Observes, Frontier, Latest, KindsDone, Mine, ExecInv, Handled, ReviewIs, PendingIs;
    hide Reported, Recorded, KindsThrough, Positioned, Chained, SnapshotMatches, TailGrounded, Spells;
    InitInv(p);
    RunsKeepInv(Init(), p, steps);
    History.RunsOnlyGrow(Init(), p, steps);
    var s := Run(Init(), p, steps);
    assert s.rows.ledger[0] == IngestAccepted;
    if Evidences(s.rows.ledger) == [] {
      ActiveAtStart(s, p, observed);
    } else {
      ActiveIsFrontier(s, p, observed);
    }
    if s.rows.run.status == Paused {
      PausedFrontier(s, p);
    }
  }
}
