/** Safety of the whole protocol: what holds in every state of every run, however workers crash,
retry, go stale or interleave. */
module Safety {
  import opened Domain
  import opened Graph
  import opened Services
  import Worker
  import opened Decisions
  import opened Protocol
  import opened GraphInvariant
  import opened Invariant

  // ---------------------------------------------------------------- the committed evidence is one state

  /** The state an uninterrupted replay of all committed evidence arrives at. */
  function Replayed(c: Checkpoint, events: seq<Event>): GraphState
    requires |KindsDone(c.w, c.next)| <= |events|
  {
    AbsorbAll(c.w, events[|KindsDone(c.w, c.next)|..], NO_ENV)
  }

  lemma {:induction false} TailChains(w: GraphState, ks: seq<Kind>, events: seq<Event>, n: nat, m: nat)
    requires Ordered(ks) && TailGrounded(w, ks, events, n) && n <= m <= |events|
    requires Chained(w, ks[..n], events[..n])
    ensures Chained(AbsorbAll(w, events[n..m], NO_ENV), ks[..m], events[..m])
  {
    hide Chained, Grounded, Absorb;
    if m == n {
      assert events[n..m] == [];
    } else {
      TailStep(w, ks, events, n, m - 1);
      hide AbsorbAll, TailGrounded, Ordered;
      TailChains(w, ks, events, n, m - 1);
      ChainAdvances(AbsorbAll(w, events[n..m - 1], NO_ENV), ks, m - 1, events, NO_ENV);
    }
  }

  lemma TailStep(w: GraphState, ks: seq<Kind>, events: seq<Event>, n: nat, m: nat)
    requires TailGrounded(w, ks, events, n) && n <= m < |events|
    ensures var before := AbsorbAll(w, events[n..m], NO_ENV);
            && Grounded(ks[m], events[m], before)
            && AbsorbAll(w, events[n..m + 1], NO_ENV) == Absorb(events[m], before, NO_ENV)
  {
    hide Grounded, Absorb;
    assert events[n..m + 1][..m - n] == events[n..m];
  }

  lemma WholeLedgerChains(c: Checkpoint, events: seq<Event>)
    requires CheckpointInv(c, events)
    ensures |events| <= |KindsThrough(c.w, c.next)|
    ensures Chained(Replayed(c, events), KindsThrough(c.w, c.next)[..|events|], events)
  {
    hide Chained, Grounded, Absorb, KindsDone, Kinds, Positioned, SnapshotMatches, TailGrounded;
    var n, ks := |KindsDone(c.w, c.next)|, KindsThrough(c.w, c.next);
    KindsOrdered(c.w, c.next);
    assert ks[..n] == KindsDone(c.w, c.next);
    TailBound(c.w, ks, events, n);
    TailChains(c.w, ks, events, n, |events|);
    assert events[n..|events|] == events[n..] && events[..|events|] == events;
  }

  lemma TailBound(w: GraphState, ks: seq<Kind>, events: seq<Event>, n: nat)
    requires TailGrounded(w, ks, events, n)
    ensures n <= |events| <= |ks|
  {
  }

  lemma CommittedIndex(events: seq<Event>, ks: seq<Kind>, k: Kind) returns (i: nat)
    requires Ordered(ks) && Spells(events, ks) && Latest(events, k).Some?
    ensures i < |events| && ks[i] == k && Latest(events, k) == Some(events[i])
  {
    hide Latest, KindOf;
    if k !in ks[..|events|] {
      LatestAbsent(events, ks[..|events|], k);
    }
    i :| 0 <= i < |events| && ks[i] == k;
    LatestAligned(events, ks, i);
  }

  /** The payload a completed node committed is the payload the checkpoint holds, and is grounded. */
  lemma DoneBacked(c: Checkpoint, events: seq<Event>, k: Kind)
    requires CheckpointInv(c, events) && k in KindsDone(c.w, c.next)
    ensures Latest(events, k).Some? && Backed(k, Latest(events, k).value, c.w)
  {
    hide Backed, KindsDone, Positioned, SnapshotMatches, TailGrounded, KindOf, Latest, Kinds;
    var done, ks := KindsDone(c.w, c.next), KindsThrough(c.w, c.next);
    var i :| 0 <= i < |done| && done[i] == k;
    KindsOrdered(c.w, c.next);
    LatestAligned(events, ks, i);
  }

  /** Every committed payload, checkpointed or not, is the payload of the replayed state. */
  lemma CommittedBacked(c: Checkpoint, events: seq<Event>, k: Kind)
    requires CheckpointInv(c, events) && Latest(events, k).Some?
    ensures Backed(k, Latest(events, k).value, Replayed(c, events))
  {
    WholeLedgerChains(c, events);
    KindsOrdered(c.w, c.next);
    hide Backed, KindsDone, KindsThrough, Positioned, SnapshotMatches, TailGrounded, Latest, Replayed;
    var i := CommittedIndex(events, KindsThrough(c.w, c.next), k);
  }

  // ---------------------------------------------------------------- each workflow event once

  function Occurrences(ledger: seq<Event>, k: Kind): nat {
    if ledger == [] then 0
    else Occurrences(ledger[..|ledger| - 1], k) + if KindOf(ledger[|ledger| - 1]) == Some(k) then 1 else 0
  }

  lemma OccurrencesAppend(ledger: seq<Event>, e: Event, k: Kind)
    ensures Occurrences(ledger + [e], k) == Occurrences(ledger, k) + if KindOf(e) == Some(k) then 1 else 0
  {
    assert (ledger + [e])[..|ledger|] == ledger;
  }

  lemma {:induction false} OccurrencesOfEvidence(ledger: seq<Event>, k: Kind)
    ensures Occurrences(ledger, k) == Occurrences(Evidences(ledger), k)
  {
    if ledger != [] {
      hide Occurrences, Evidences, KindOf;
      var front, last := ledger[..|ledger| - 1], ledger[|ledger| - 1];
      assert ledger == front + [last];
      OccurrencesOfEvidence(front, k);
      EvidencesAppend(front, last);
      OccurrencesAppend(front, last, k);
      OccurrencesAppend(Evidences(front), last, k);
      assert Evidences(front) + [] == Evidences(front);
    }
  }

  lemma {:induction false} OccurrencesAligned(events: seq<Event>, ks: seq<Kind>, k: Kind)
    requires Ordered(ks) && Spells(events, ks)
    ensures Occurrences(events, k) == if Latest(events, k).Some? then 1 else 0
  {
    if events != [] {
      hide KindOf, Rank;
      var last := |events| - 1;
      OccurrencesAligned(events[..last], ks, k);
      if ks[last] == k {
        LatestAbsent(events[..last], ks[..last], k);
      }
    }
  }

  /** Under crashes anywhere and any number of re-executions, every workflow event is appended at
  most once, whatever the model answered when it was asked again. */
  lemma {:induction false} OncePerRun(p: Params, steps: seq<Step>, k: Kind)
    requires p.retry.maxAttempts >= 1
    ensures Occurrences(Run(Init(), p, steps).rows.ledger, k) <= 1
  {
    hide Run, GraphOk, RowsInv, TableInv, Occurrences, Evidences;
    InitInv(p);
    RunsKeepInv(Init(), p, steps);
    var s := Run(Init(), p, steps);
    OccurrencesExact(s, k);
  }

  lemma OccurrencesExact(s: State, k: Kind)
    requires GraphOk(s)
    ensures Occurrences(s.rows.ledger, k) == if Latest(s.rows.ledger, k).Some? then 1 else 0
  {
    hide KindsDone, KindsThrough, ExecInv, TailGrounded, Chained, SnapshotMatches, Positioned, Spells;
    hide Occurrences, Latest;
    OccurrencesOfEvidence(s.rows.ledger, k);
    LatestEvidence(s.rows.ledger, k);
    if s.ckpt.Some? {
      var c := s.ckpt.value;
      KindsOrdered(c.w, c.next);
      OccurrencesAligned(Evidences(s.rows.ledger), KindsThrough(c.w, c.next), k);
    } else {
      NoOccurrences(k);
    }
  }

  lemma NoOccurrences(k: Kind)
    ensures Occurrences([], k) == 0 && Latest([], k) == None
  {
  }

  // ---------------------------------------------------------------- invoice status from the ledger alone

  /** What the committed evidence says the invoice status is. */
  function StatusByEvidence(ledger: seq<Event>): InvoiceStatus {
    match Latest(ledger, KReview)
    case Some(ReviewRecorded(d)) => StatusAfter(d.action)
    case _ =>
      if Latest(ledger, KTriage).Some? then NeedsReview
      else if Latest(ledger, KAuto).Some? then Approved
      else InQueue
  }

  function ReviewedAction(ledger: seq<Event>): Option<Action> {
    match Latest(ledger, KReview)
    case Some(ReviewRecorded(d)) => Some(d.action)
    case _ => None
  }

  lemma {:induction false} StatusOfEvidence(ledger: seq<Event>)
    ensures StatusOf(ledger) == StatusOf(Evidences(ledger))
  {
    if ledger != [] {
      hide StatusOf, Evidences;
      var front, last := ledger[..|ledger| - 1], ledger[|ledger| - 1];
      assert ledger == front + [last];
      StatusOfEvidence(front);
      EvidencesAppend(front, last);
      StatusAppend(front, last);
      StatusAppend(Evidences(front), last);
      assert Evidences(front) + [] == Evidences(front);
    }
  }

  lemma {:induction false} StatusAligned(events: seq<Event>, ks: seq<Kind>)
    requires Ordered(ks) && Spells(events, ks)
    ensures StatusOf(events) == StatusByEvidence(events)
  {
    if events != [] {
      hide StatusOf, Latest, Ordered;
      var front, last := events[..|events| - 1], events[|events| - 1];
      assert events == front + [last];
      StatusAligned(front, ks);
      StatusAppend(front, last);
      LatestAppend(front, last, KReview);
      LatestAppend(front, last, KTriage);
      LatestAppend(front, last, KAuto);
      LaterAbsent(front, ks, KTriage, KReview);
      LaterAbsent(front, ks, KAuto, KReview);
      LaterAbsent(front, ks, KAuto, KTriage);
    }
  }

  lemma LaterAbsent(events: seq<Event>, ks: seq<Kind>, k: Kind, later: Kind)
    requires Ordered(ks) && Spells(events, ks) && |events| < |ks| && Rank(k) < Rank(later)
    ensures ks[|events|] == k ==> Latest(events, later) == None
  {
    hide Latest, KindOf;
    if ks[|events|] == k {
      LatestAbsent(events, ks[..|events|], later);
    }
  }

  lemma Exclusive(w: GraphState, next: Option<Node>)
    ensures !(KAuto in KindsThrough(w, next) && KTriage in KindsThrough(w, next))
    ensures KReview in KindsThrough(w, next) ==> KTriage in KindsDone(w, next)
  {
  }

  /** Automatic approval and triage never both happen, and a review only after triage. */
  lemma {:induction false} EvidenceExclusive(s: State)
    requires GraphOk(s)
    ensures var events := Evidences(s.rows.ledger);
            && StatusOf(events) == StatusByEvidence(events)
            && !(Latest(events, KAuto).Some? && Latest(events, KTriage).Some?)
            && (Latest(events, KReview).Some? ==> Latest(events, KTriage).Some?)
  {
    hide KindsDone, ExecInv, TailGrounded, Chained, SnapshotMatches, Positioned, Spells, Latest, StatusOf, Kinds;
    if s.ckpt.Some? {
      var c, events := s.ckpt.value, Evidences(s.rows.ledger);
      var ks := KindsThrough(c.w, c.next);
      KindsOrdered(c.w, c.next);
      StatusAligned(events, ks);
      Exclusive(c.w, c.next);
      if KAuto !in ks { LatestAbsent(events, ks, KAuto); }
      if KTriage !in ks { LatestAbsent(events, ks, KTriage); }
      if KReview !in ks { LatestAbsent(events, ks, KReview); } else { RecordedIsCommitted(c, events, KTriage); }
    } else {
      EmptyEvidence();
    }
  }

  lemma EmptyEvidence()
    ensures StatusOf([]) == StatusByEvidence([]) && forall k :: Latest([], k) == None
  {
  }

  /** In every reachable state the invoice status is a function of the committed evidence:
  APPROVED exactly when auto-granted or reviewed APPROVE, RETURNED exactly when reviewed RETURN,
  NEEDS_REVIEW exactly when triaged and not reviewed, or reviewed ESCALATE. */
  lemma {:induction false} StatusFromLedger(p: Params, steps: seq<Step>)
    requires p.retry.maxAttempts >= 1
    ensures var rows := Run(Init(), p, steps).rows;
            var review, triage, auto := ReviewedAction(rows.ledger), Latest(rows.ledger, KTriage), Latest(rows.ledger, KAuto);
            && (rows.invoice == Approved <==> auto.Some? || review == Some(Approve))
            && (rows.invoice == Returned <==> review == Some(Return))
            && (rows.invoice == NeedsReview <==> triage.Some? && review in {None, Some(Escalate)})
            && (rows.invoice == InQueue <==> triage == None && auto == None)
  {
    hide Run, CheckpointInv, ExecInv, RowsInv, Evidences, StatusOf, Latest, RunInv, ClaimsInv, UniqueKeys;
    InitInv(p);
    RunsKeepInv(Init(), p, steps);
    var s := Run(Init(), p, steps);
    StatusOfEvidence(s.rows.ledger);
    EvidenceExclusive(s);
    LatestEvidence(s.rows.ledger, KReview);
    LatestEvidence(s.rows.ledger, KTriage);
    LatestEvidence(s.rows.ledger, KAuto);
    LatestKind(s.rows.ledger, KReview);
  }

  // ---------------------------------------------------------------- who approved

  /** A committed gate chose automatic approval: eligible policy, switched on, score at threshold. */
  predicate AutoJustified(ledger: seq<Event>) {
    match (Latest(ledger, KGate), Latest(ledger, KPolicy), Latest(ledger, KAuto))
    case (Some(GateCompleted(g)), Some(PolicyCompleted(q)), Some(AutoGranted(input))) =>
      && g.route == AutoRoute && g.policy == Sha(OfPolicy(q)) && input == q.input
      && q.status == AutoApproveEligible && q.findings == [] && g.config.autoApprovalEnabled
      && g.score == Score(g.config, g.minimumField, g.matchDelta, g.policyTerm) && g.score >= g.config.threshold
    case _ => false
  }

  /** Two people approved: the recorded review is the manager's decision on the analyst's proposal. */
  predicate HumanJustified(rows: Rows) {
    && |Mine(rows)| == 2
    && var proposal, signoff := Mine(rows)[0], Mine(rows)[1];
       && proposal.actor == Analyst && signoff.actor == Manager && signoff.supersedes == Some(proposal.id)
       && proposal.action == Approve && signoff.action == Approve
       && Latest(rows.ledger, KReview) == Some(ReviewRecorded(ReviewOf(signoff)))
  }

  lemma AutoShape(w: GraphState, next: Option<Node>)
    requires Positioned(w, next) && KAuto in KindsThrough(w, next)
    ensures Gated(w, AutoRoute) && KGate in KindsDone(w, next) && KPolicy in KindsDone(w, next)
  {
  }

  lemma GrantIsJustified(s: State)
    requires GraphOk(s) && Latest(s.rows.ledger, KAuto).Some?
    ensures AutoJustified(s.rows.ledger)
  {
    hide KindsDone, KindsThrough, ExecInv, Positioned, Latest, Evidences, TailGrounded, Chained;
    hide SnapshotMatches, Spells;
    hide Replayed, KindOf;
    var events := Evidences(s.rows.ledger);
    LatestEvidence(s.rows.ledger, KAuto);
    LatestEvidence(s.rows.ledger, KGate);
    LatestEvidence(s.rows.ledger, KPolicy);
    if s.ckpt == None {
      EmptyEvidence();
    } else {
      var c := s.ckpt.value;
      GrantShape(c, events);
      DoneBacked(c, events, KGate);
      DoneBacked(c, events, KPolicy);
      GrantPayload(c, events);
      AutoRouteMeans(c.w.gate.value, c.w.policy.value);
    }
  }

  lemma GrantShape(c: Checkpoint, events: seq<Event>)
    requires CheckpointInv(c, events) && Latest(events, KAuto).Some?
    ensures Gated(c.w, AutoRoute) && KGate in KindsDone(c.w, c.next) && KPolicy in KindsDone(c.w, c.next)
  {
    hide KindsDone, KindsThrough, Positioned, Latest, TailGrounded, Chained, SnapshotMatches, Spells;
    if KAuto !in KindsThrough(c.w, c.next) {
      LatestAbsent(events, KindsThrough(c.w, c.next), KAuto);
    }
    AutoShape(c.w, c.next);
  }

  /** The grant names the input of the policy result in the checkpoint. */
  lemma GrantPayload(c: Checkpoint, events: seq<Event>)
    requires CheckpointInv(c, events) && Latest(events, KAuto).Some? && KPolicy in KindsDone(c.w, c.next)
    ensures c.w.policy.Some? && Latest(events, KAuto) == Some(AutoGranted(c.w.policy.value.input))
  {
    CommittedBacked(c, events, KAuto);
    DoneBacked(c, events, KPolicy);
    RecordedIsCommitted(c, events, KPolicy);
    CommittedBacked(c, events, KPolicy);
    hide KindsDone, KindsThrough, Positioned, Latest, TailGrounded, Chained, SnapshotMatches, Spells;
    hide Replayed, Grounded;
  }

  /** Every approved invoice was approved by a gate that allowed it or by two different people. */
  lemma {:induction false} ApprovalIsJustified(p: Params, steps: seq<Step>)
    requires p.retry.maxAttempts >= 1
    ensures var rows := Run(Init(), p, steps).rows;
            rows.invoice == Approved <==> AutoJustified(rows.ledger) || HumanJustified(rows)
  {
    hide Run, CheckpointInv, ExecInv, Evidences, RunInv, ClaimsInv, UniqueKeys, AutoJustified, Latest, Mine;
    hide Reported, Handled, Recorded;
    InitInv(p);
    RunsKeepInv(Init(), p, steps);
    StatusFromLedger(p, steps);
    var s := Run(Init(), p, steps);
    LatestEvidence(s.rows.ledger, KReview);
    if Latest(s.rows.ledger, KAuto).Some? {
      GrantIsJustified(s);
    } else {
      NotGranted(s.rows.ledger);
    }
  }

  lemma NotGranted(ledger: seq<Event>)
    requires Latest(ledger, KAuto) == None
    ensures !AutoJustified(ledger)
  {
  }
}
