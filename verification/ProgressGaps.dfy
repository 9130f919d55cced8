/** Two runs on which the progress projection names another node than the graph's frontier. */
module ProgressGaps {
  import opened Domain
  import opened Graph
  import opened Services
  import Worker
  import opened Decisions
  import opened Protocol
  import opened GraphInvariant
  import opened Progress

  /** What the two runs are made of: any content hash, reason code and rationale the schemas admit. */
  datatype Input = Input(hash: string, code: string, rationale: string)

  predicate Admitted(i: Input) {
    ValidHash(i.hash) && ValidReasonCode(i.code) && ValidRationale(i.rationale)
  }

  lemma SomeInput()
    ensures Admitted(Input(seq(64, _ => 'a'), "PRICE_CONFIRMED", "agreed"))
  {
  }

  const RETRY := Worker.RetryConfig(3, 1.0, 30.0, 300)

  // ---------------------------------------------------------------- a duplicate that is being rejected

  function Copy(i: Input): Params {
    Params(RETRY, i.hash, true)
  }

  function LoadedCopy(i: Input): GraphState {
    InitialState(0, i.hash, true)
  }

  /** A worker claims the run, loads a state marked as a duplicate and finishes the first node. */
  const REJECTING: seq<Step> := [BeginStep(0, false), RunStep(0), CheckpointStep]

  const CLAIMED := Rows(RunRow(Running, Some(0), None, None), InQueue, None, [], [IngestAccepted])

  lemma ClaimFirst(p: Params)
    requires p.retry == RETRY
    ensures Apply(Init(), p, BeginStep(0, false)) == State(CLAIMED, None, None, {RunAttempt(1, 0)}, {})
  {
    var s := Apply(Init(), p, BeginStep(0, false));
    assert s.claims == {RunAttempt(1, 0)};
  }

  lemma RejectingStates(i: Input)
    requires Admitted(i)
    ensures var at := Run(Init(), Copy(i), REJECTING);
            at.rows == CLAIMED && at.ckpt == Some(Checkpoint(Finish(Ingest, LoadedCopy(i)), Some(Reject)))
  {
    ClaimFirst(Copy(i));
    RunTake(Init(), Copy(i), REJECTING, 0);
    RunTake(Init(), Copy(i), REJECTING, 1);
    RunTake(Init(), Copy(i), REJECTING, 2);
    assert REJECTING[..3] == REJECTING;
    assert ValidProgress(Finish(Ingest, LoadedCopy(i)));
  }

  /** Until its rejection is committed, a running duplicate is shown extracting. */
  lemma DuplicateShownExtracting(i: Input, observed: map<Node, Event>)
    requires Admitted(i)
    requires observed == map[Ingest := IngestAccepted]
    ensures var s := Run(Init(), Copy(i), REJECTING);
            && s.rows.run.status == Running && Observes(observed, s.rows.ledger) && Evidences(s.rows.ledger) == []
            && s.ckpt.Some? && KindsDone(s.ckpt.value.w, s.ckpt.value.next) == []
            && ActiveNode(Running, observed) == Some(Extract)
            && Frontier(Copy(i), s.ckpt, []) == Some(Reject)
  {
    RejectingStates(i);
    hide Run;
    assert CLAIMED.ledger[..0] == [];
    forall node ensures (if node in observed then Some(observed[node]) else None) == LatestOf(CLAIMED.ledger, node) {
      assert LatestOf(CLAIMED.ledger[..0], node) == None;
    }
  }

  // ---------------------------------------------------------------- a review that is recorded and not settled

  function Plain(i: Input): Params {
    Params(RETRY, i.hash, false)
  }

  function Escalation(i: Input): Event {
    ExtractionRecorded(i.hash, ExtractionEscalated(0))
  }

  function Verdict(i: Input): ReviewDecision {
    ReviewDecision(Approve, Manager, i.rationale, i.code)
  }

  function Loaded(i: Input): GraphState {
    InitialState(0, i.hash, false)
  }

  function Started(i: Input): GraphState {
    Finish(Ingest, Loaded(i))
  }

  function Triaging(i: Input): GraphState {
    Finish(Extract, Started(i).(outcome := Some(ExtractionEscalated(0))))
  }

  function Waiting(i: Input): GraphState {
    Finish(ExceptionTriage, Triaging(i).(triage := Some(Triage(0, [], true))))
  }

  const TRIAGED := TriagePrepared(Triage(0, [], true))

  const TO_EXTRACT: seq<Step> := [BeginStep(0, false), RunStep(0), CheckpointStep]

  const TRIAGING: seq<Step> := [LookStep(None, false), CommitStep(TRIAGED, 7)]

  function ExtractSteps(i: Input): seq<Step> {
    [LookStep(None, false), CommitStep(Escalation(i), 0)]
  }

  function DecideSteps(i: Input): seq<Step> {
    [SubmitStep(7, DecisionRequest(Approve, i.rationale, i.code, None), Analyst, "proposal", 1),
     SubmitStep(7, DecisionRequest(Approve, i.rationale, i.code, Some(1)), Manager, "signoff", 2),
     ResumeStep(2)]
  }

  function RecordSteps(i: Input): seq<Step> {
    [LookStep(None, false), CommitStep(ReviewRecorded(Verdict(i)), 0)]
  }

  /** Extraction is escalated and the run pauses. */
  function UntilPaused(i: Input): seq<Step> {
    TO_EXTRACT + (ExtractSteps(i) + [CheckpointStep]) + (TRIAGING + [CheckpointStep, SettleStep(AwaitingReview, 1)])
  }

  /** Then two people decide, and the resumed run records the review. */
  function UntilRecorded(i: Input): seq<Step> {
    UntilPaused(i) + DecideSteps(i) + RecordSteps(i)
  }

  /** An executor on the state of its checkpoint. */
  function At(rows: Rows, w: GraphState, node: Node, decision: Option<ReviewDecision>, returned: set<GraphStatus>): State {
    State(rows, Some(Checkpoint(w, Some(node))), Some(Exec(w, node, [], false, Env(None, false, decision))),
          {RunAttempt(1, 0)}, returned)
  }

  function Holding(s: State, e: Event): State
    requires s.exec.Some?
  {
    s.(exec := Some(s.exec.value.(got := [e])))
  }

  function Written(rows: Rows, k: Kind, e: Event, newId: nat): Rows {
    if k == KTriage && e.TriagePrepared? then PrepareTriage(rows, e.triage, newId).0 else CommitEvent(rows, e)
  }

  /** The only service of a node finds nothing committed and commits its answer. */
  lemma ServiceCommits(s: State, p: Params, k: Kind, e: Event, newId: nat)
    requires s.exec.Some? && s.exec.value.got == [] && !s.exec.value.looked && !s.exec.value.env.stalePo
    requires Kinds(s.exec.value.node) == [k] && k != KMatch && Latest(s.rows.ledger, k) == None
    requires var x := s.exec.value; Ready(k, x.base, x.env) && Fresh(k, e, x.base, x.env)
    requires k == KTriage ==> s.rows.exc == None && s.rows.decisions == []
    ensures Run(s, p, [LookStep(None, false), CommitStep(e, newId)])
         == Holding(s, e).(rows := Written(s.rows, k, e, newId))
  {
    var steps := [LookStep(None, false), CommitStep(e, newId)];
    FindsNothing(s, p, k);
    AnswerWritten(s, p, k, e, newId);
    hide Apply, Ready, Fresh, Kinds, Latest, Written;
    RunTake(s, p, steps, 0);
    RunTake(s, p, steps, 1);
    assert steps[..2] == steps && steps[..0] == [];
    assert s.exec.value.(looked := false) == s.exec.value;
  }

  lemma FindsNothing(s: State, p: Params, k: Kind)
    requires s.exec.Some? && s.exec.value.got == [] && !s.exec.value.looked && !s.exec.value.env.stalePo
    requires Kinds(s.exec.value.node) == [k] && k != KMatch && Latest(s.rows.ledger, k) == None
    requires Ready(k, s.exec.value.base, s.exec.value.env)
    ensures Apply(s, p, LookStep(None, false)) == s.(exec := Some(s.exec.value.(looked := true)))
  {
    NothingAbsorbed(s.exec.value);
    hide Ready, Kinds, Work, Latest;
  }

  lemma AnswerWritten(s: State, p: Params, k: Kind, e: Event, newId: nat)
    requires s.exec.Some? && s.exec.value.got == [] && Kinds(s.exec.value.node) == [k]
    requires var x := s.exec.value; Ready(k, x.base, x.env) && Fresh(k, e, x.base, x.env)
    requires Latest(s.rows.ledger, k) == None && (k == KTriage ==> s.rows.exc == None && s.rows.decisions == [])
    ensures Apply(s.(exec := Some(s.exec.value.(looked := true))), p, CommitStep(e, newId))
         == Holding(s.(exec := Some(s.exec.value.(looked := false))), e).(rows := Written(s.rows, k, e, newId))
  {
    var x := s.exec.value.(looked := true);
    NothingAbsorbed(x);
    FreshFacts(k, e, x.base, x.env);
    assert x.got + [e] == [e];
    hide Ready, Fresh, Kinds, Work, Latest, CommitEvent, KindOf, PrepareTriage;
    if k == KTriage {
      TriageIsNew(s.rows, e.triage, newId);
    }
  }

  lemma NothingAbsorbed(x: Exec)
    requires x.got == []
    ensures Work(x) == x.base
  {
  }

  lemma TriageIsNew(rows: Rows, t: Triage, newId: nat)
    requires Latest(rows.ledger, KTriage) == None && rows.exc == None && rows.decisions == []
    ensures PrepareTriage(rows, t, newId) == (CommitEvent(rows.(exc := Some(ExceptionRow(newId, Open))), TriagePrepared(t)), Ok(t))
  {
  }

  /** The checkpoint after a node with one piece of evidence. */
  lemma NodeStored(p: Params, s: State, e: Event)
    requires s.exec.Some? && !s.exec.value.looked && s.exec.value.got == [] && |Kinds(s.exec.value.node)| == 1
    requires var x := s.exec.value; ValidProgress(Finish(x.node, Absorb(e, x.base, x.env)))
    ensures var x := s.exec.value;
            var w := Finish(x.node, Absorb(e, x.base, x.env));
            Apply(Holding(s, e), p, CheckpointStep)
            == if Successor(x.node, w) in {None, Some(HumanReview)}
               then s.(ckpt := Some(Checkpoint(w, Successor(x.node, w))), exec := None, returned := s.returned + {w.status})
               else s.(ckpt := Some(Checkpoint(w, Successor(x.node, w))),
                       exec := Some(Starting(Checkpoint(w, Successor(x.node, w)), x.env.decision)))
  {
    var x := s.exec.value.(got := [e]);
    assert AbsorbAll(x.base, [e][..0], x.env) == x.base;
    assert Work(x) == Absorb(e, x.base, x.env);
    hide Work, Finish, Successor, ValidProgress, Absorb, Kinds;
  }

  function LedgerAtTriage(i: Input): seq<Event> {
    [IngestAccepted, Escalation(i)]
  }

  function AtExtract(i: Input): State {
    At(CLAIMED, Started(i), Extract, None, {})
  }

  function AtTriage(i: Input): State {
    At(CLAIMED.(ledger := LedgerAtTriage(i)), Triaging(i), ExceptionTriage, None, {})
  }

  function PausedState(i: Input): State {
    State(
      Rows(RunRow(Paused, Some(0), None, None), NeedsReview, Some(ExceptionRow(7, Open)), [], LedgerAtTriage(i) + [TRIAGED]),
      Some(Checkpoint(Waiting(i), Some(HumanReview))), None, {RunAttempt(1, 0)}, {AwaitingReview})
  }

  lemma ToExtract(i: Input)
    requires Admitted(i)
    ensures Run(Init(), Plain(i), TO_EXTRACT) == AtExtract(i)
  {
    ClaimFirst(Plain(i));
    RunTake(Init(), Plain(i), TO_EXTRACT, 0);
    RunTake(Init(), Plain(i), TO_EXTRACT, 1);
    RunTake(Init(), Plain(i), TO_EXTRACT, 2);
    assert TO_EXTRACT[..3] == TO_EXTRACT;
    assert ValidProgress(Started(i));
  }

  lemma EscalatedHistory(i: Input)
    requires Admitted(i)
    ensures Triaging(i).completed == [Ingest, Extract] && Triaging(i).status == GraphRunning
    ensures Waiting(i).completed == [Ingest, Extract, ExceptionTriage]
  {
  }

  lemma EscalatedValid(i: Input)
    requires Admitted(i)
    ensures ValidProgress(Triaging(i)) && ValidProgress(Waiting(i))
  {
    EscalatedHistory(i);
    EscalatedStates(i);
    hide Finish, Successor, Absorb;
  }

  lemma EscalatedStates(i: Input)
    requires Admitted(i)
    ensures Triaging(i) == Finish(Extract, Absorb(Escalation(i), Started(i), Env(None, false, None)))
    ensures Waiting(i) == Finish(ExceptionTriage, Absorb(TRIAGED, Triaging(i), Env(None, false, None)))
    ensures Successor(Extract, Triaging(i)) == Some(ExceptionTriage) && Successor(ExceptionTriage, Waiting(i)) == Some(HumanReview)
    ensures Triaging(i).extraction == None && Triaging(i).taxonomy == None && Started(i).contentHash == i.hash
    ensures Waiting(i).status == AwaitingReview && Waiting(i).extraction == None && Waiting(i).review == None
  {
  }

  lemma NothingYet(ledger: seq<Event>, k: Kind)
    requires forall e <- ledger :: KindOf(e) != Some(k)
    ensures Latest(ledger, k) == None
  {
    LatestKind(ledger, k);
    hide Latest, KindOf;
  }

  lemma ToTriage(i: Input)
    requires Admitted(i)
    ensures Run(AtExtract(i), Plain(i), ExtractSteps(i) + [CheckpointStep]) == AtTriage(i)
  {
    EscalatedStates(i);
    EscalatedValid(i);
    NothingYet(CLAIMED.ledger, KExtraction);
    ServiceCommits(AtExtract(i), Plain(i), KExtraction, Escalation(i), 0);
    assert Written(CLAIMED, KExtraction, Escalation(i), 0) == CLAIMED.(ledger := LedgerAtTriage(i));
    hide Run, Apply, Finish, Successor, ValidProgress, Absorb, Latest, KindOf, Written;
    NodeStored(Plain(i), AtExtract(i).(rows := CLAIMED.(ledger := LedgerAtTriage(i))), Escalation(i));
    RunConcat(AtExtract(i), Plain(i), ExtractSteps(i), [CheckpointStep]);
    RunOne(Run(AtExtract(i), Plain(i), ExtractSteps(i)), Plain(i), CheckpointStep);
  }

  function TriagedTables(i: Input): Rows {
    Rows(CLAIMED.run, NeedsReview, Some(ExceptionRow(7, Open)), [], LedgerAtTriage(i) + [TRIAGED])
  }

  lemma TriagedRows(i: Input)
    requires Admitted(i)
    ensures Written(CLAIMED.(ledger := LedgerAtTriage(i)), KTriage, TRIAGED, 7) == TriagedTables(i)
  {
    var rows := CLAIMED.(ledger := LedgerAtTriage(i));
    NothingYet(rows.ledger, KTriage);
    TriageIsNew(rows, Triage(0, [], true), 7);
  }

  lemma TriageAnswered(i: Input)
    requires Admitted(i)
    ensures Run(AtTriage(i), Plain(i), TRIAGING) == Holding(AtTriage(i), TRIAGED).(rows := TriagedTables(i))
  {
    EscalatedStates(i);
    TriagedRows(i);
    NothingYet(LedgerAtTriage(i), KTriage);
    hide Finish, Successor, Latest, Written, Run, Apply;
    ServiceCommits(AtTriage(i), Plain(i), KTriage, TRIAGED, 7);
  }

  lemma TriageStored(i: Input)
    requires Admitted(i)
    ensures Apply(Holding(AtTriage(i), TRIAGED).(rows := TriagedTables(i)), Plain(i), CheckpointStep)
         == State(TriagedTables(i), PausedState(i).ckpt, None, {RunAttempt(1, 0)}, {AwaitingReview})
  {
    EscalatedStates(i);
    EscalatedValid(i);
    hide Finish, Successor, ValidProgress, Absorb, Apply;
    NodeStored(Plain(i), AtTriage(i).(rows := TriagedTables(i)), TRIAGED);
  }

  lemma ToPause(i: Input)
    requires Admitted(i)
    ensures Run(AtTriage(i), Plain(i), TRIAGING + [CheckpointStep, SettleStep(AwaitingReview, 1)]) == PausedState(i)
  {
    TriageAnswered(i);
    TriageStored(i);
    hide Finish, Run, Apply;
    RunConcat(AtTriage(i), Plain(i), TRIAGING, [CheckpointStep, SettleStep(AwaitingReview, 1)]);
    SettlePauses(i, Run(AtTriage(i), Plain(i), TRIAGING));
  }

  lemma SettlePauses(i: Input, held: State)
    requires Admitted(i)
    requires var s := Apply(held, Plain(i), CheckpointStep);
             s == State(TriagedTables(i), PausedState(i).ckpt, None, {RunAttempt(1, 0)}, {AwaitingReview})
    ensures Run(held, Plain(i), [CheckpointStep, SettleStep(AwaitingReview, 1)]) == PausedState(i)
  {
    var end := [CheckpointStep, SettleStep(AwaitingReview, 1)];
    RunTake(held, Plain(i), end, 0);
    RunTake(held, Plain(i), end, 1);
    assert end[..2] == end && end[..0] == [];
    hide WriteCheckpoint;
  }

  // Two people decide.

  function Proposal(i: Input): Decision {
    Decision(1, 7, "proposal", Approve, i.rationale, i.code, Analyst, None)
  }

  function SignoffDecision(i: Input): Decision {
    Decision(2, 7, "signoff", Approve, i.rationale, i.code, Manager, Some(1))
  }

  function Proposed(i: Input): Rows {
    PausedState(i).rows.(
      exc := Some(ExceptionRow(7, InReview)), decisions := [Proposal(i)],
      ledger := PausedState(i).rows.ledger + [DecisionProposed(1, Approve)])
  }

  function BothDecided(i: Input): Rows {
    Proposed(i).(
      decisions := [Proposal(i), SignoffDecision(i)], ledger := Proposed(i).ledger + [DecisionAccepted(2, Approve)])
  }

  lemma FirstDecision(i: Input)
    requires Admitted(i)
    ensures Submit(PausedState(i).rows, 7, DecisionRequest(Approve, i.rationale, i.code, None), Analyst, "proposal", 1).0 == Proposed(i)
  {
  }

  lemma OneDecision(i: Input)
    requires Admitted(i)
    ensures ByKey([Proposal(i)], "signoff") == None && ById([Proposal(i)], 2) == None && For([Proposal(i)], 7) == [Proposal(i)]
  {
    assert [Proposal(i)][..0] == [];
    assert Proposal(i).key != "signoff";
  }

  lemma SecondDecision(i: Input)
    requires Admitted(i)
    ensures Submit(Proposed(i), 7, DecisionRequest(Approve, i.rationale, i.code, Some(1)), Manager, "signoff", 2).0 == BothDecided(i)
  {
    OneDecision(i);
    hide ByKey, ById, For;
    assert [Proposal(i)] + [SignoffDecision(i)] == [Proposal(i), SignoffDecision(i)];
  }

  lemma SignoffFound(i: Input)
    requires Admitted(i)
    ensures Signoff(BothDecided(i), 2) == Some(SignoffDecision(i))
  {
    assert [Proposal(i), SignoffDecision(i)][..1] == [Proposal(i)];
    assert ById([Proposal(i), SignoffDecision(i)], 2) == Some(SignoffDecision(i));
    assert ById([Proposal(i), SignoffDecision(i)], 1) == ById([Proposal(i)], 1) == Some(Proposal(i));
    hide ById;
  }

  function Resumed(i: Input): State {
    At(BothDecided(i), Waiting(i), HumanReview, Some(Verdict(i)), {AwaitingReview})
  }

  lemma ThreeSteps(s: State, p: Params, a: Step, b: Step, c: Step)
    ensures Run(s, p, [a, b, c]) == Apply(Apply(Apply(s, p, a), p, b), p, c)
  {
    var steps := [a, b, c];
    hide Apply;
    RunTake(s, p, steps, 0);
    RunTake(s, p, steps, 1);
    RunTake(s, p, steps, 2);
    assert steps[..3] == steps && steps[..0] == [];
  }

  lemma ResumeStarts(i: Input)
    requires Admitted(i)
    ensures ResumeEntry(PausedState(i).(rows := BothDecided(i)), 2) == Resumed(i)
  {
    EscalatedStates(i);
    SignoffFound(i);
    hide Signoff, Finish;
  }

  lemma SubmitApplies(s: State, p: Params, request: DecisionRequest, role: Actor, key: string, newId: nat, after: Rows)
    requires Submit(s.rows, 7, request, role, key, newId).0 == after
    ensures Apply(s, p, SubmitStep(7, request, role, key, newId)) == s.(rows := after)
  {
    hide Submit;
  }

  lemma ToReview(i: Input)
    requires Admitted(i)
    ensures Run(PausedState(i), Plain(i), DecideSteps(i)) == Resumed(i)
  {
    hide Apply, Submit, Finish, Waiting, Proposed, BothDecided, Resumed, ResumeEntry;
    FirstDecision(i);
    SecondDecision(i);
    ResumeStarts(i);
    var p, s := Plain(i), PausedState(i);
    var first, second := DecisionRequest(Approve, i.rationale, i.code, None), DecisionRequest(Approve, i.rationale, i.code, Some(1));
    SubmitApplies(s, p, first, Analyst, "proposal", 1, Proposed(i));
    SubmitApplies(s.(rows := Proposed(i)), p, second, Manager, "signoff", 2, BothDecided(i));
    ResumeApplies(s.(rows := BothDecided(i)), p);
    ThreeSteps(s, p, SubmitStep(7, first, Analyst, "proposal", 1), SubmitStep(7, second, Manager, "signoff", 2), ResumeStep(2));
  }

  lemma ResumeApplies(s: State, p: Params)
    ensures Apply(s, p, ResumeStep(2)) == ResumeEntry(s, 2)
  {
    hide ResumeEntry;
  }

  lemma WrittenEvidence(i: Input)
    requires Admitted(i)
    ensures Evidences(LedgerAtTriage(i)) == [Escalation(i)]
  {
    assert LedgerAtTriage(i) == [IngestAccepted] + [Escalation(i)] && [IngestAccepted][..0] == [];
    EvidencesAppend([IngestAccepted], Escalation(i));
    assert Evidences([IngestAccepted]) == [];
  }

  /** Decisions are not workflow evidence. */
  lemma DecisionsAside(ledger: seq<Event>, proposed: Event, accepted: Event)
    requires proposed.DecisionProposed? && accepted.DecisionAccepted?
    ensures Evidences(ledger + [proposed] + [accepted]) == Evidences(ledger)
  {
    EvidencesAppend(ledger, proposed);
    EvidencesAppend(ledger + [proposed], accepted);
    hide Evidences;
    assert Evidences(ledger) + [] == Evidences(ledger);
  }

  lemma DecidedEvidence(i: Input)
    requires Admitted(i)
    ensures Evidences(BothDecided(i).ledger) == [Escalation(i), TRIAGED] && Latest(BothDecided(i).ledger, KReview) == None
  {
    WrittenEvidence(i);
    hide Evidences, Latest, Finish;
    EvidencesAppend(LedgerAtTriage(i), TRIAGED);
    assert [Escalation(i)] + [TRIAGED] == [Escalation(i), TRIAGED];
    DecisionsAside(LedgerAtTriage(i) + [TRIAGED], DecisionProposed(1, Approve), DecisionAccepted(2, Approve));
    LatestEvidence(BothDecided(i).ledger, KReview);
    NothingYet([Escalation(i), TRIAGED], KReview);
  }

  lemma ToRecord(i: Input)
    requires Admitted(i)
    ensures var s := Run(Resumed(i), Plain(i), RecordSteps(i));
            && s.rows.run.status == Paused && s.ckpt == PausedState(i).ckpt
            && Evidences(s.rows.ledger) == [Escalation(i), TRIAGED, ReviewRecorded(Verdict(i))]
  {
    DecidedEvidence(i);
    hide Evidences, Latest, Run, Finish, Waiting, Admitted, Apply;
    ServiceCommits(Resumed(i), Plain(i), KReview, ReviewRecorded(Verdict(i)), 0);
    EvidencesAppend(BothDecided(i).ledger, ReviewRecorded(Verdict(i)));
  }

  lemma ReviewedFrontier(i: Input, events: seq<Event>)
    requires Admitted(i)
    requires events == [Escalation(i), TRIAGED, ReviewRecorded(Verdict(i))]
    ensures |KindsDone(Waiting(i), Some(HumanReview))| <= |events|
    ensures Frontier(Plain(i), Some(Checkpoint(Waiting(i), Some(HumanReview))), events) == Some(Archive)
  {
  }

  lemma PausedRun(i: Input)
    requires Admitted(i)
    ensures Run(Init(), Plain(i), UntilPaused(i)) == PausedState(i)
  {
    ToExtract(i);
    ToTriage(i);
    ToPause(i);
    hide Run, Apply, Finish;
    RunConcat(Init(), Plain(i), TO_EXTRACT, ExtractSteps(i) + [CheckpointStep]);
    RunConcat(Init(), Plain(i), TO_EXTRACT + (ExtractSteps(i) + [CheckpointStep]), TRIAGING + [CheckpointStep, SettleStep(AwaitingReview, 1)]);
  }

  /** A paused run is shown under review although its review is recorded and archiving comes next. */
  lemma ReviewedShownWaiting(i: Input, observed: map<Node, Event>)
    requires Admitted(i)
    ensures var s := Run(Init(), Plain(i), UntilRecorded(i));
            var events := Evidences(s.rows.ledger);
            && s.rows.run.status == Paused && s.ckpt.Some?
            && |KindsDone(s.ckpt.value.w, s.ckpt.value.next)| <= |events|
            && ActiveNode(Paused, observed) == Some(HumanReview)
            && Frontier(Plain(i), s.ckpt, events) == Some(Archive)
  {
    PausedRun(i);
    ToReview(i);
    ToRecord(i);
    hide Run, Apply, Frontier, KindsDone, Finish, Evidences;
    RunConcat(Init(), Plain(i), UntilPaused(i), DecideSteps(i));
    RunConcat(Init(), Plain(i), UntilPaused(i) + DecideSteps(i), RecordSteps(i));
    ReviewedFrontier(i, [Escalation(i), TRIAGED, ReviewRecorded(Verdict(i))]);
  }
}
