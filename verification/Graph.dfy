/** The invoice graph: state, node updates, routing and the progress validator
(graph/state.py, graph/invoice_nodes.py, graph/invoice.py). */
module Graph {
  import opened Domain

  datatype Node =
    | Ingest | Extract | Validate | Match3Way | PolicyNode | GateNode
    | AutoApprove | ExceptionTriage | HumanReview | Archive | Reject

  datatype GraphState = GraphState(
    asOf: int, contentHash: string, duplicate: bool, status: GraphStatus, route: Option<Route>,
    outcome: Option<ExtractionOutcome>, extraction: Option<Extraction>, validation: Option<Validation>,
    match_: Option<Match>, snapshot: Option<Snapshot>, similarity: Option<Similarity>, taxonomy: Option<Taxonomy>,
    policy: Option<Policy>, gate: Option<Gate>, triage: Option<Triage>, review: Option<ReviewDecision>,
    completed: seq<Node>)

  function InitialState(asOf: int, contentHash: string, duplicate: bool): GraphState {
    GraphState(asOf, contentHash, duplicate, GraphQueued, None, None, None, None, None, None, None, None, None, None,
               None, None, [])
  }

  /** The conditional and plain edges of the compiled graph; None is END. */
  function Successor(node: Node, w: GraphState): Option<Node> {
    match node
    case Ingest => Some(if w.duplicate then Reject else Extract)
    case Extract => Some(if w.extraction.Some? then Validate else ExceptionTriage)
    case Validate => Some(Match3Way)
    case Match3Way => Some(PolicyNode)
    case PolicyNode => Some(GateNode)
    case GateNode => Some(if w.route == Some(AutoRoute) then AutoApprove else ExceptionTriage)
    case AutoApprove => Some(Archive)
    case ExceptionTriage => Some(HumanReview)
    case HumanReview => Some(Archive)
    case Archive => None
    case Reject => None
  }

  /** The update a node returns once its services have answered. */
  function Finish(node: Node, w: GraphState): GraphState {
    var done := w.(completed := w.completed + [node]);
    match node
    case Ingest => done.(status := GraphRunning, route := if w.duplicate then Some(RejectRoute) else None)
    case GateNode => done.(route := if w.gate.Some? then Some(w.gate.value.route) else w.route)
    case ExceptionTriage => done.(status := AwaitingReview, route := Some(ReviewRoute))
    case HumanReview => done.(status := GraphRunning)
    case Archive => done.(status := GraphCompleted)
    case Reject => done.(status := GraphRejected)
    case _ => done
  }

  /** The validator every stored state passes through. */
  predicate ValidProgress(w: GraphState) {
    && (forall i, j | 0 <= i < j < |w.completed| :: w.completed[i] != w.completed[j])
    && (w.status == GraphCompleted ==> Archive in w.completed)
    && (w.status == GraphRejected ==> Reject in w.completed)
  }

  /** The evidence a node's service commits, in order. */
  function Kinds(node: Node): seq<Kind> {
    match node
    case Ingest => []
    case Extract => [KExtraction]
    case Validate => [KValidation]
    case Match3Way => [KMatch]
    case PolicyNode => [KSimilarity, KTaxonomy, KPolicy]
    case GateNode => [KGate]
    case AutoApprove => [KAuto]
    case ExceptionTriage => [KTriage]
    case HumanReview => [KReview]
    case Archive => [KArchive]
    case Reject => [KReject]
  }

  // ---------------------------------------------------------------- where a checkpoint can stand

  const PREFIX: seq<Node> := [Ingest, Extract, Validate, Match3Way, PolicyNode, GateNode]

  const EVIDENCE: seq<Kind> := [KExtraction, KValidation, KMatch, KSimilarity, KTaxonomy, KPolicy, KGate]

  function TriageHistory(w: GraphState): seq<Node> {
    (if w.extraction.Some? then PREFIX else PREFIX[..2]) + [ExceptionTriage]
  }

  /** The completed nodes of a state whose next node is `next`. */
  function History(w: GraphState, next: Option<Node>): seq<Node> {
    match next
    case Some(Ingest) => []
    case Some(Extract) => PREFIX[..1]
    case Some(Reject) => PREFIX[..1]
    case Some(Validate) => PREFIX[..2]
    case Some(Match3Way) => PREFIX[..3]
    case Some(PolicyNode) => PREFIX[..4]
    case Some(GateNode) => PREFIX[..5]
    case Some(AutoApprove) => PREFIX
    case Some(ExceptionTriage) => if w.extraction.Some? then PREFIX else PREFIX[..2]
    case Some(HumanReview) => TriageHistory(w)
    case Some(Archive) =>
      if w.route == Some(AutoRoute) then PREFIX + [AutoApprove] else TriageHistory(w) + [HumanReview]
    case None =>
      if w.duplicate then PREFIX[..1] + [Reject]
      else if w.route == Some(AutoRoute) then PREFIX + [AutoApprove, Archive]
      else TriageHistory(w) + [HumanReview, Archive]
  }

  function TriageKinds(w: GraphState): seq<Kind> {
    (if w.extraction.Some? then EVIDENCE else EVIDENCE[..1]) + [KTriage]
  }

  /** The evidence committed by the completed nodes of such a state. */
  function KindsDone(w: GraphState, next: Option<Node>): seq<Kind> {
    match next
    case Some(Ingest) => []
    case Some(Extract) => []
    case Some(Reject) => []
    case Some(Validate) => EVIDENCE[..1]
    case Some(Match3Way) => EVIDENCE[..2]
    case Some(PolicyNode) => EVIDENCE[..3]
    case Some(GateNode) => EVIDENCE[..6]
    case Some(AutoApprove) => EVIDENCE
    case Some(ExceptionTriage) => if w.extraction.Some? then EVIDENCE else EVIDENCE[..1]
    case Some(HumanReview) => TriageKinds(w)
    case Some(Archive) =>
      if w.route == Some(AutoRoute) then EVIDENCE + [KAuto] else TriageKinds(w) + [KReview]
    case None =>
      if w.duplicate then [KReject]
      else if w.route == Some(AutoRoute) then EVIDENCE + [KAuto, KArchive]
      else TriageKinds(w) + [KReview, KArchive]
  }

  function KindsThrough(w: GraphState, next: Option<Node>): seq<Kind> {
    KindsDone(w, next) + if next.Some? then Kinds(next.value) else []
  }

  predicate Distinct<T(==)>(s: seq<T>) {
    forall i, j | 0 <= i < j < |s| :: s[i] != s[j]
  }

  /** The route and status of a state whose next node is `next`, with the fields routing reads. */
  predicate Positioned(w: GraphState, next: Option<Node>) {
    && w.completed == History(w, next)
    && (next != Some(Ingest) && next != Some(Reject) ==> w.duplicate == (next == None && w.status == GraphRejected))
    && (next == Some(Reject) ==> w.duplicate)
    && match next
       case Some(Ingest) => w.status == GraphQueued && w.route == None
       case Some(Extract) => w.status == GraphRunning && w.route == None
       case Some(Reject) => w.status == GraphRunning && w.route == Some(RejectRoute)
       case Some(Validate) => w.status == GraphRunning && w.route == None && w.extraction.Some?
       case Some(Match3Way) => w.status == GraphRunning && w.route == None && w.extraction.Some?
       case Some(PolicyNode) => w.status == GraphRunning && w.route == None && w.extraction.Some?
       case Some(GateNode) => w.status == GraphRunning && w.route == None && w.extraction.Some?
       case Some(AutoApprove) => w.status == GraphRunning && w.route == Some(AutoRoute) && Gated(w, AutoRoute)
       case Some(ExceptionTriage) => w.status == GraphRunning && NotAuto(w) && w.route != Some(AutoRoute)
       case Some(HumanReview) => w.status == AwaitingReview && NotAuto(w) && w.route == Some(ReviewRoute)
       case Some(Archive) => w.status == GraphRunning && Decided(w)
       case None =>
         if w.duplicate then w.route == Some(RejectRoute) else w.status == GraphCompleted && Decided(w)
  }

  predicate Gated(w: GraphState, route: Route) {
    w.extraction.Some? && w.gate.Some? && w.gate.value.route == route
  }

  /** Extraction was escalated, or the gate did not choose automatic approval. */
  predicate NotAuto(w: GraphState) {
    w.extraction.Some? ==> w.gate.Some? && w.gate.value.route != AutoRoute
  }

  predicate Decided(w: GraphState) {
    if w.route == Some(AutoRoute) then Gated(w, AutoRoute) else w.route == Some(ReviewRoute) && NotAuto(w)
  }

  lemma DistinctAppend<T>(s: seq<T>, x: T)
    requires Distinct(s) && x !in s
    ensures Distinct(s + [x])
  {
  }

  lemma PrefixDistinct()
    ensures Distinct(PREFIX)
    ensures forall n | 0 <= n <= 6 :: Distinct(PREFIX[..n])
  {
  }

  lemma TriageDistinct(w: GraphState)
    ensures Distinct(TriageHistory(w))
  {
    PrefixDistinct();
    DistinctAppend(if w.extraction.Some? then PREFIX else PREFIX[..2], ExceptionTriage);
  }

  /** The order in which kinds of evidence can be committed. */
  function Rank(k: Kind): nat {
    match k
    case KExtraction => 0
    case KValidation => 1
    case KMatch => 2
    case KSimilarity => 3
    case KTaxonomy => 4
    case KPolicy => 5
    case KGate => 6
    case KAuto => 7
    case KTriage => 8
    case KReview => 9
    case KArchive => 10
    case KReject => 11
  }

  predicate Ordered(ks: seq<Kind>) {
    forall i, j | 0 <= i < j < |ks| :: Rank(ks[i]) < Rank(ks[j])
  }

  predicate Below(ks: seq<Kind>, k: Kind) {
    forall i | 0 <= i < |ks| :: Rank(ks[i]) < Rank(k)
  }

  lemma OrderedAppend(ks: seq<Kind>, k: Kind)
    requires Ordered(ks) && Below(ks, k)
    ensures Ordered(ks + [k])
    ensures forall later | Rank(k) < Rank(later) :: Below(ks + [k], later)
  {
  }

  lemma EvidenceOrdered()
    ensures forall n | 0 <= n <= 7 :: Ordered(EVIDENCE[..n]) && Below(EVIDENCE[..n], KAuto)
    ensures Ordered(EVIDENCE) && Below(EVIDENCE, KAuto)
  {
    forall n | 0 <= n <= 7 ensures Ordered(EVIDENCE[..n]) && Below(EVIDENCE[..n], KAuto) {
      assert forall i | 0 <= i < n :: Rank(EVIDENCE[..n][i]) == i;
    }
    assert EVIDENCE[..7] == EVIDENCE;
  }

  lemma TriageOrdered(w: GraphState)
    ensures Ordered(TriageKinds(w)) && Below(TriageKinds(w), KReview)
  {
    EvidenceOrdered();
    OrderedAppend(if w.extraction.Some? then EVIDENCE else EVIDENCE[..1], KTriage);
  }

  lemma EndsOrdered(w: GraphState)
    ensures Ordered(EVIDENCE + [KAuto]) && Ordered(EVIDENCE + [KAuto, KArchive])
    ensures Ordered(TriageKinds(w)) && Ordered(TriageKinds(w) + [KReview]) && Ordered(TriageKinds(w) + [KReview, KArchive])
  {
    EvidenceOrdered();
    TriageOrdered(w);
    var auto, reviewed := EVIDENCE + [KAuto], TriageKinds(w) + [KReview];
    OrderedAppend(EVIDENCE, KAuto);
    OrderedAppend(auto, KArchive);
    OrderedAppend(TriageKinds(w), KReview);
    OrderedAppend(reviewed, KArchive);
    assert auto + [KArchive] == EVIDENCE + [KAuto, KArchive];
    assert reviewed + [KArchive] == TriageKinds(w) + [KReview, KArchive];
  }

  lemma KindsThroughSplit(w: GraphState, next: Option<Node>)
    ensures match next
            case Some(Extract) => KindsThrough(w, next) == EVIDENCE[..1]
            case Some(Validate) => KindsThrough(w, next) == EVIDENCE[..2]
            case Some(Match3Way) => KindsThrough(w, next) == EVIDENCE[..3]
            case Some(PolicyNode) => KindsThrough(w, next) == EVIDENCE[..6]
            case Some(GateNode) => KindsThrough(w, next) == EVIDENCE
            case Some(ExceptionTriage) => KindsThrough(w, next) == TriageKinds(w)
            case Some(AutoApprove) => KindsThrough(w, next) == EVIDENCE + [KAuto]
            case Some(HumanReview) => KindsThrough(w, next) == TriageKinds(w) + [KReview]
            case Some(Archive) =>
              KindsThrough(w, next)
              == if w.route == Some(AutoRoute) then EVIDENCE + [KAuto, KArchive] else TriageKinds(w) + [KReview, KArchive]
            case Some(Ingest) => KindsThrough(w, next) == []
            case Some(Reject) => KindsThrough(w, next) == [KReject]
            case None => KindsThrough(w, next) == KindsDone(w, None)
  {
  }

  /** A run can commit each kind of evidence at most once, in rank order. */
  lemma {:induction false} KindsOrdered(w: GraphState, next: Option<Node>)
    ensures Ordered(KindsThrough(w, next))
  {
    KindsThroughSplit(w, next);
    EndsOrdered(w);
    EvidenceOrdered();
    hide KindsThrough, TriageKinds, Ordered;
    if next == Some(Reject) || next == Some(Ingest) || next == None {
      SingleOrdered(KReject);
    }
  }

  lemma SingleOrdered(k: Kind)
    ensures Ordered([]) && Ordered([k])
  {
  }

  lemma InitialPositioned(asOf: int, contentHash: string, duplicate: bool)
    ensures Positioned(InitialState(asOf, contentHash, duplicate), Some(Ingest))
  {
  }

  /** What a node's services leave alone, and what the node needs them to have found. */
  predicate Kept(node: Node, before: GraphState, w: GraphState) {
    && w.asOf == before.asOf && w.contentHash == before.contentHash && w.duplicate == before.duplicate
    && w.status == before.status && w.route == before.route && w.completed == before.completed
    && (node != Extract ==> w.extraction == before.extraction)
    && (node != GateNode ==> w.gate == before.gate)
  }

  predicate Worked(node: Node, before: GraphState, w: GraphState) {
    Kept(node, before, w) && (node == GateNode ==> w.gate.Some? && w.gate.value.route != RejectRoute)
  }

  /** Every node moves a positioned state to its successor's position. */
  lemma FinishPositioned(node: Node, before: GraphState, w: GraphState)
    requires Positioned(before, Some(node)) && Worked(node, before, w)
    ensures Positioned(Finish(node, w), Successor(node, Finish(node, w)))
  {
    var after := Finish(node, w);
    assert after.completed == before.completed + [node];
  }

  lemma FinishKinds(node: Node, before: GraphState, w: GraphState)
    requires Positioned(before, Some(node)) && Worked(node, before, w)
    ensures var after := Finish(node, w);
            KindsDone(after, Successor(node, after)) == KindsThrough(before, Some(node))
  {
  }

  /** The validator refuses exactly a state with a node completed twice or an end it did not come to. */
  lemma ValidatorRefuses(w: GraphState)
    ensures !ValidProgress(w) <==>
              || (exists i, j | 0 <= i < j < |w.completed| :: w.completed[i] == w.completed[j])
              || (w.status == GraphCompleted && forall node <- w.completed :: node != Archive)
              || (w.status == GraphRejected && forall node <- w.completed :: node != Reject)
  {
  }

  /** The progress validator accepts every positioned state, and automatic approval and human
  review exclude each other. */
  lemma {:induction false} PositionedIsValid(w: GraphState, next: Option<Node>)
    requires Positioned(w, next)
    ensures ValidProgress(w)
    ensures !(AutoApprove in w.completed && HumanReview in w.completed)
  {
    PrefixDistinct();
    TriageDistinct(w);
    var auto := PREFIX + [AutoApprove];
    DistinctAppend(PREFIX, AutoApprove);
    DistinctAppend(auto, Archive);
    var reviewed := TriageHistory(w) + [HumanReview];
    DistinctAppend(TriageHistory(w), HumanReview);
    DistinctAppend(reviewed, Archive);
    DistinctAppend(PREFIX[..1], Reject);
    assert auto + [Archive] == PREFIX + [AutoApprove, Archive];
    assert reviewed + [Archive] == TriageHistory(w) + [HumanReview, Archive];
    assert Distinct(w.completed);
  }
}
