/** The second implementation of the topology (graph/adk_invoice.py, graph/adk_runner.py) against the
graph of graph/invoice.py: the same nodes, states and routes, up to the step that asks for a review.

Both engines are driven by the same acts; a step carries whatever the node's services answered. */
module Adk {
  import opened Domain
  import opened Graph
  import opened Protocol

  // ---------------------------------------------------------------- the two edge tables

  datatype AdkNode = Invoice(node: Node) | AskReview

  datatype Label = RejectLabel | ExtractLabel | ValidateLabel | TriageLabel | AutoLabel

  /** The label a node's event carries, for the nodes that choose one. */
  function LabelOf(node: Node, w: GraphState): Option<Label> {
    match node
    case Ingest => Some(if w.duplicate then RejectLabel else ExtractLabel)
    case Extract => Some(if w.extraction.Some? then ValidateLabel else TriageLabel)
    case GateNode => Some(if w.route == Some(AutoRoute) then AutoLabel else TriageLabel)
    case _ => None
  }

  /** The workflow's edges: by label where the source has several, else the single target. */
  function Edge(from: AdkNode, route: Option<Label>): Option<AdkNode> {
    match (from, route)
    case (Invoice(Ingest), Some(RejectLabel)) => Some(Invoice(Reject))
    case (Invoice(Ingest), Some(ExtractLabel)) => Some(Invoice(Extract))
    case (Invoice(Extract), Some(ValidateLabel)) => Some(Invoice(Validate))
    case (Invoice(Extract), Some(TriageLabel)) => Some(Invoice(ExceptionTriage))
    case (Invoice(Validate), None) => Some(Invoice(Match3Way))
    case (Invoice(Match3Way), None) => Some(Invoice(PolicyNode))
    case (Invoice(PolicyNode), None) => Some(Invoice(GateNode))
    case (Invoice(GateNode), Some(AutoLabel)) => Some(Invoice(AutoApprove))
    case (Invoice(GateNode), Some(TriageLabel)) => Some(Invoice(ExceptionTriage))
    case (Invoice(AutoApprove), None) => Some(Invoice(Archive))
    case (Invoice(ExceptionTriage), None) => Some(AskReview)
    case (AskReview, None) => Some(Invoice(HumanReview))
    case (Invoice(HumanReview), None) => Some(Invoice(Archive))
    case _ => None
  }

  /** The graph node an ADK position stands for. */
  function AsNode(at: AdkNode): Node {
    match at
    case Invoice(node) => node
    case AskReview => HumanReview
  }

  function AsNext(next: Option<AdkNode>): Option<Node> {
    match next
    case Some(at) => Some(AsNode(at))
    case None => None
  }

  /** Both tables lead every node in every state to the same node. */
  lemma SameTopology(node: Node, w: GraphState)
    ensures AsNext(Edge(Invoice(node), LabelOf(node, w))) == Successor(node, w)
    ensures Edge(Invoice(node), LabelOf(node, w)) == Some(AskReview) <==> node == ExceptionTriage
  {
  }

  // ---------------------------------------------------------------- the two engines

  /** A stored workflow and the process executing it, if any, with the decision it resumes with. */
  datatype Stored<N> = Absent | Stored(w: GraphState, next: Option<N>, alive: bool, input: Option<ReviewDecision>)

  datatype Act =
    | Run(initial: GraphState)
    | Resume(decision: ReviewDecision)
    | Step(answer: GraphState)
    | Die

  /** What executing a node makes of the services' answer; None when no service answers so. */
  function Executed(node: Node, w: GraphState, answer: GraphState, input: Option<ReviewDecision>): Option<GraphState> {
    if node == HumanReview then
      if input.Some? then Some(Finish(HumanReview, w.(review := input))) else None
    else if Worked(node, w, answer) && answer.review == w.review then Some(Finish(node, answer))
    else None
  }

  predicate Final(status: GraphStatus) {
    status in {GraphCompleted, GraphRejected, AwaitingReview}
  }

  /** A living process holds the run lock, so `run` and `resume` are turned away until it ends. A review
  without a decision interrupts the graph, which ends the process. */
  function GraphAct(s: Stored<Node>, act: Act): Stored<Node> {
    match act
    case Run(initial) =>
      if s.Absent? then if ValidHash(initial.contentHash) then Stored(initial, Some(Ingest), true, None) else s
      else if s.alive || Final(s.w.status) || s.next == None then s
      else s.(alive := true, input := None)
    case Resume(d) =>
      if s.Absent? || s.alive || !ResumePlanFor(Checkpoint(s.w, s.next), d).Continue? then s
      else s.(alive := true, input := Some(d))
    case Step(answer) =>
      if s.Absent? || !s.alive || s.next == None then s
      else if s.next == Some(HumanReview) && s.input == None then s.(alive := false)
      else
        var after := Executed(s.next.value, s.w, answer, s.input);
        if after == None then s
        else
          var next := Successor(s.next.value, after.value);
          Stored(after.value, next, next.Some?, s.input)
    case Die => if s.Absent? then s else s.(alive := false)
  }

  function AdkAct(s: Stored<AdkNode>, act: Act): Stored<AdkNode> {
    match act
    case Run(initial) =>
      if s.Absent? then if ValidHash(initial.contentHash) then Stored(initial, Some(Invoice(Ingest)), true, None) else s
      else if s.alive || Final(s.w.status) || s.next == None then s
      else s.(alive := true, input := None)
    case Resume(d) =>
      if s.Absent? || s.alive || (s.w.status == GraphCompleted && s.w.review == Some(d)) then s
      else if s.w.status == AwaitingReview then
        // the request event exists once its step has run
        if s.next == Some(Invoice(HumanReview)) then s.(alive := true, input := Some(d)) else s
      else if s.w.status == GraphRunning && s.w.review == Some(d) && s.next.Some? then s.(alive := true, input := Some(d))
      else s
    case Step(answer) =>
      if s.Absent? || !s.alive || s.next == None then s
      else if s.next == Some(AskReview) then s.(next := Edge(AskReview, None), alive := false)
      else
        var node := s.next.value.node;
        var after := Executed(node, s.w, answer, s.input);
        if after == None then s
        else
          var next := Edge(Invoice(node), LabelOf(node, after.value));
          Stored(after.value, next, next.Some?, s.input)
    case Die => if s.Absent? then s else s.(alive := false)
  }

  /** The stored session and the step of its current node. */
  class AdkSession {
    var stored: Stored<AdkNode>

    constructor ()
      ensures stored == Absent
    {
      stored := Absent;
    }

    method ExecuteStep(answer: GraphState)
      modifies this
      ensures stored == AdkAct(old(stored), Step(answer))
    {
      if stored.Absent? || !stored.alive || stored.next.None? {
        return;
      }
      if stored.next == Some(AskReview) {
        stored := stored.(next := Edge(AskReview, None), alive := false);
        return;
      }
      var node := stored.next.value.node;
      var after := Executed(node, stored.w, answer, stored.input);
      if after.Some? {
        var next := Edge(Invoice(node), LabelOf(node, after.value));
        stored := stored.(w := after.value, next := next, alive := next.Some?);
      }
    }
  }

  function GraphRun(acts: seq<Act>): Stored<Node> {
    if acts == [] then Absent else GraphAct(GraphRun(acts[..|acts| - 1]), acts[|acts| - 1])
  }

  function AdkRun(acts: seq<Act>): Stored<AdkNode> {
    if acts == [] then Absent else AdkAct(AdkRun(acts[..|acts| - 1]), acts[|acts| - 1])
  }

  /** An ADK session read as a graph checkpoint: asking for the review is the interrupt of the graph. */
  function Seen(s: Stored<AdkNode>): Stored<Node> {
    match s
    case Absent => Absent
    case Stored(w, next, alive, input) => Stored(w, AsNext(next), alive, input)
  }

  predicate Entries(acts: seq<Act>) {
    forall a <- acts :: a.Run? ==> a.initial == InitialState(a.initial.asOf, a.initial.contentHash, a.initial.duplicate)
  }

  predicate SessionInv(s: Stored<AdkNode>) {
    s.Stored? ==>
      && Positioned(s.w, AsNext(s.next)) && ValidHash(s.w.contentHash)
      && (s.next == Some(Invoice(HumanReview)) && s.alive ==> s.input.Some?)
      && (s.next.Some? && s.next.value !in {Invoice(HumanReview), Invoice(Archive)} ==> s.w.review == None && s.input == None)
  }

  /** A crash fell between storing the triaged state and storing the request for its review. */
  predicate Unasked(s: Stored<AdkNode>) {
    s.Stored? && s.next == Some(AskReview) && !s.alive
  }

  lemma ExecutedPositioned(node: Node, w: GraphState, answer: GraphState, input: Option<ReviewDecision>)
    requires Positioned(w, Some(node)) && Executed(node, w, answer, input).Some?
    ensures var after := Executed(node, w, answer, input).value; Positioned(after, Successor(node, after))
  {
    FinishPositioned(node, w, if node == HumanReview then w.(review := input) else answer);
  }

  lemma {:induction false} StepKeepsSession(s: Stored<AdkNode>, answer: GraphState)
    requires SessionInv(s)
    ensures SessionInv(AdkAct(s, Step(answer)))
  {
    if s.Stored? && s.alive && s.next.Some? && s.next.value.Invoice? {
      var node := s.next.value.node;
      if Executed(node, s.w, answer, s.input).Some? {
        ExecutedPositioned(node, s.w, answer, s.input);
        SameTopology(node, Executed(node, s.w, answer, s.input).value);
        hide Positioned, Executed, LabelOf;
      }
    }
  }

  lemma {:induction false} ActKeepsSession(s: Stored<AdkNode>, act: Act)
    requires SessionInv(s) && Entries([act])
    ensures SessionInv(AdkAct(s, act))
  {
    match act
    case Step(answer) => StepKeepsSession(s, answer);
    case Run(initial) =>
      assert act in [act];
      InitialPositioned(initial.asOf, initial.contentHash, initial.duplicate);
      if s.Stored? { AwaitingMeans(s.w, AsNext(s.next)); }
      hide Positioned, InitialState;
    case _ => hide Positioned;
  }

  lemma AwaitingMeans(w: GraphState, next: Option<Node>)
    requires Positioned(w, next)
    ensures w.status == AwaitingReview <==> next == Some(HumanReview)
    ensures w.status == GraphCompleted ==> next == None
  {
  }

  /** One ADK act is the same act of the graph, or nothing the graph can see; it differs from the
  graph's act exactly when a review was never asked for and a decision for it arrives. */
  lemma ActRefines(s: Stored<AdkNode>, act: Act)
    requires SessionInv(s) && Entries([act])
    ensures Seen(AdkAct(s, act)) == GraphAct(Seen(s), act) || Seen(AdkAct(s, act)) == Seen(s)
    ensures Seen(AdkAct(s, act)) == GraphAct(Seen(s), act) <==> !(Unasked(s) && act.Resume?)
  {
    if s.Stored? {
      AwaitingMeans(s.w, AsNext(s.next));
      hide Positioned;
      if act.Step? && s.next.Some? && s.next.value.Invoice? {
        var node := s.next.value.node;
        var after := Executed(node, s.w, act.answer, s.input);
        if after.Some? {
          SameTopology(node, after.value);
        }
        hide Executed, LabelOf, Successor, Edge;
      }
    }
  }

  // ---------------------------------------------------------------- whole runs

  lemma {:induction false} SessionsInv(acts: seq<Act>)
    requires Entries(acts)
    ensures SessionInv(AdkRun(acts))
  {
    if acts != [] {
      hide AdkAct, SessionInv;
      var front := acts[..|acts| - 1];
      assert acts == front + [acts[|acts| - 1]];
      SessionsInv(front);
      ActKeepsSession(AdkRun(front), acts[|acts| - 1]);
    } else {
      hide AdkAct;
    }
  }

  /** The acts without the decisions that arrive for a review nobody asked for. */
  function Heard(acts: seq<Act>): seq<Act> {
    if acts == [] then []
    else
      var front, act := acts[..|acts| - 1], acts[|acts| - 1];
      if Unasked(AdkRun(front)) && act.Resume? then Heard(front) else Heard(front) + [act]
  }

  lemma GraphRunAppend(acts: seq<Act>, act: Act)
    ensures GraphRun(acts + [act]) == GraphAct(GraphRun(acts), act)
  {
    assert (acts + [act])[..|acts|] == acts;
    hide GraphAct;
  }

  /** For all service answers, crashes and restarts the ADK workflow visits the same nodes with the
  same states as the graph, up to the step that asks for the review. */
  lemma {:induction false} AdkRefinesGraph(acts: seq<Act>)
    requires Entries(acts)
    ensures Seen(AdkRun(acts)) == GraphRun(Heard(acts))
  {
    if acts != [] {
      hide AdkAct, GraphAct, SessionInv, Seen, Unasked;
      var front, act := acts[..|acts| - 1], acts[|acts| - 1];
      assert acts == front + [act];
      AdkRefinesGraph(front);
      SessionsInv(front);
      ActRefines(AdkRun(front), act);
      GraphRunAppend(Heard(front), act);
    } else {
      hide AdkAct, GraphAct;
    }
  }

  lemma {:induction false} AgreeSoFar(acts: seq<Act>, n: nat)
    requires Entries(acts) && n <= |acts|
    requires forall i | 0 <= i < n :: !(Unasked(AdkRun(acts[..i])) && acts[i].Resume?)
    ensures Seen(AdkRun(acts[..n])) == GraphRun(acts[..n])
  {
    hide AdkAct, GraphAct, Unasked;
    if n > 0 {
      AgreeSoFar(acts, n - 1);
      TakeBoth(acts, n - 1);
    }
  }

  /** One more act of both engines, from where they agree. */
  lemma TakeBoth(acts: seq<Act>, n: nat)
    requires Entries(acts) && n < |acts| && Seen(AdkRun(acts[..n])) == GraphRun(acts[..n])
    ensures Seen(AdkRun(acts[..n + 1])) == GraphRun(acts[..n + 1])
            <==> !(Unasked(AdkRun(acts[..n])) && acts[n].Resume?)
  {
    hide AdkRun, GraphRun, AdkAct, GraphAct, SessionInv, Seen, Unasked;
    AdkTake(acts, n);
    assert acts[..n + 1] == acts[..n] + [acts[n]];
    GraphRunAppend(acts[..n], acts[n]);
    SessionsInv(acts[..n]);
    ActRefines(AdkRun(acts[..n]), acts[n]);
  }

  /** The engines show the same state after every act of a run exactly when no decision of the run
  arrives for a review nobody asked for. */
  lemma {:induction false} EnginesAgree(acts: seq<Act>)
    requires Entries(acts)
    ensures (forall n | 0 <= n <= |acts| :: Seen(AdkRun(acts[..n])) == GraphRun(acts[..n]))
            <==> (forall n | 0 <= n < |acts| :: !(Unasked(AdkRun(acts[..n])) && acts[n].Resume?))
  {
    hide AdkRun, GraphRun, Seen, Unasked, Entries;
    if forall n | 0 <= n < |acts| :: !(Unasked(AdkRun(acts[..n])) && acts[n].Resume?) {
      forall n | 0 <= n <= |acts| ensures Seen(AdkRun(acts[..n])) == GraphRun(acts[..n]) {
        AgreeSoFar(acts, n);
      }
    } else {
      var n :| 0 <= n < |acts| && Unasked(AdkRun(acts[..n])) && acts[n].Resume?;
      if Seen(AdkRun(acts[..n])) == GraphRun(acts[..n]) {
        TakeBoth(acts, n);
        assert n + 1 <= |acts|;
      }
    }
  }

  /** Both engines keep the progress validator satisfied and never approve and review one run. */
  lemma {:induction false} EnginesStayValid(acts: seq<Act>)
    requires Entries(acts)
    ensures var s := AdkRun(acts);
            s.Stored? ==> ValidProgress(s.w) && !(AutoApprove in s.w.completed && HumanReview in s.w.completed)
  {
    hide AdkRun, Positioned, ValidProgress;
    SessionsInv(acts);
    var s := AdkRun(acts);
    if s.Stored? {
      PositionedIsValid(s.w, AsNext(s.next));
    }
  }

  function AdkFrom(s: Stored<AdkNode>, acts: seq<Act>): Stored<AdkNode> {
    if acts == [] then s else AdkAct(AdkFrom(s, acts[..|acts| - 1]), acts[|acts| - 1])
  }

  /** A session left without its review request can never be moved again: every entry reports it as
  awaiting review and every decision is refused. The graph resumes the same run. */
  lemma {:induction false} UnaskedIsStuck(s: Stored<AdkNode>, acts: seq<Act>, d: ReviewDecision)
    requires SessionInv(s) && Unasked(s)
    ensures AdkFrom(s, acts) == s
    ensures GraphAct(Seen(s), Resume(d)) != Seen(s)
  {
    AwaitingMeans(s.w, AsNext(s.next));
    if acts != [] {
      UnaskedIsStuck(s, acts[..|acts| - 1], d);
    }
  }

  /** A decision reaches the workflow exactly when the graph would take it and it was asked for. */
  lemma ResumableWhenAsked(s: Stored<AdkNode>, d: ReviewDecision)
    requires SessionInv(s) && s.Stored? && !s.alive
    ensures AdkAct(s, Resume(d)) != s <==> GraphAct(Seen(s), Resume(d)) != Seen(s) && !Unasked(s)
  {
    AwaitingMeans(s.w, AsNext(s.next));
  }

  function Loaded(hash: string): GraphState {
    InitialState(0, hash, false)
  }

  function Started(hash: string): GraphState {
    Finish(Ingest, Loaded(hash))
  }

  function Escalated(hash: string): GraphState {
    Started(hash).(outcome := Some(ExtractionEscalated(0)))
  }

  function Extracted(hash: string): GraphState {
    Finish(Extract, Escalated(hash))
  }

  lemma EscalationStarts(hash: string)
    requires ValidHash(hash)
    ensures AdkAct(Absent, Run(Loaded(hash))) == Stored(Loaded(hash), Some(Invoice(Ingest)), true, None)
    ensures AdkAct(Stored(Loaded(hash), Some(Invoice(Ingest)), true, None), Step(Loaded(hash)))
         == Stored(Started(hash), Some(Invoice(Extract)), true, None)
    ensures AdkAct(Stored(Started(hash), Some(Invoice(Extract)), true, None), Step(Escalated(hash)))
         == Stored(Extracted(hash), Some(Invoice(ExceptionTriage)), true, None)
  {
  }

  lemma EscalationTriaged(hash: string)
    ensures AdkAct(Stored(Extracted(hash), Some(Invoice(ExceptionTriage)), true, None), Step(Extracted(hash)))
         == Stored(Finish(ExceptionTriage, Extracted(hash)), Some(AskReview), true, None)
  {
  }

  /** Such a session exists for every document: extraction is escalated, triage is stored, and the process
  dies. */
  lemma UnaskedIsReachable(hash: string)
    requires ValidHash(hash)
    ensures var acts := [Run(Loaded(hash)), Step(Loaded(hash)), Step(Escalated(hash)), Step(Extracted(hash)), Die];
            Entries(acts) && Unasked(AdkRun(acts)) && !AdkRun(acts).alive
  {
    hide Finish, Executed, LabelOf, Edge, ValidHash;
    var acts := [Run(Loaded(hash)), Step(Loaded(hash)), Step(Escalated(hash)), Step(Extracted(hash)), Die];
    EscalationStarts(hash);
    EscalationTriaged(hash);
    AdkTake(acts, 0);
    AdkTake(acts, 1);
    AdkTake(acts, 2);
    AdkTake(acts, 3);
    AdkTake(acts, 4);
    assert acts[..5] == acts;
  }

  lemma AdkTake(acts: seq<Act>, n: nat)
    requires n < |acts|
    ensures AdkRun(acts[..n + 1]) == AdkAct(AdkRun(acts[..n]), acts[n])
  {
    assert acts[..n + 1][..n] == acts[..n];
    hide AdkAct;
  }
}
