/** Re-execution after a crash: what the nodes return, when a replay refuses, and how the committed
evidence fits together. */
module Replay {
  import opened Domain
  import opened Graph
  import opened Services
  import opened Decisions
  import opened Protocol
  import opened GraphInvariant
  import opened Invariant
  import opened Safety

  // ---------------------------------------------------------------- nodes return committed payloads

  lemma HandIsCommitted(c: Checkpoint, x: Exec, ledger: seq<Event>, i: nat)
    requires CheckpointInv(c, Evidences(ledger)) && ExecInv(c, x, Evidences(ledger)) && i < |x.got|
    ensures i < |Kinds(x.node)|
    ensures Latest(ledger, Kinds(x.node)[i]).Some?
    ensures EventOf(Kinds(x.node)[i], Work(x)) == Latest(ledger, Kinds(x.node)[i])
  {
    hide KindsDone, Positioned, SnapshotMatches, TailGrounded, KindOf, Latest, Kinds, Work, EventOf, Grounded;
    var events, ks, n := Evidences(ledger), KindsThrough(c.w, c.next), |KindsDone(c.w, c.next)|;
    KindsOrdered(c.w, c.next);
    LatestAligned(events, ks, n + i);
    LatestEvidence(ledger, ks[n + i]);
    assert ks[n..][i] == ks[n + i] == ks[..n + |x.got|][n + i];
    assert Backed(ks[n + i], events[n + i], Work(x));
  }

  /** Every payload in the checkpoint and in the executor's hands is the committed one, whatever
  the model answered on a re-execution. */
  lemma {:induction false} OutputsAreCommitted(p: Params, steps: seq<Step>)
    requires p.retry.maxAttempts >= 1
    ensures var s := Run(Init(), p, steps);
            && (s.ckpt.Some? ==>
                  forall k <- KindsDone(s.ckpt.value.w, s.ckpt.value.next) ::
                    EventOf(k, s.ckpt.value.w) == Latest(s.rows.ledger, k) != None)
            && (s.exec.Some? ==>
                  |s.exec.value.got| <= |Kinds(s.exec.value.node)| &&
                  forall i | 0 <= i < |s.exec.value.got| ::
                    EventOf(Kinds(s.exec.value.node)[i], Work(s.exec.value))
                    == Latest(s.rows.ledger, Kinds(s.exec.value.node)[i]) != None)
  {
    hide Run, CheckpointInv, ExecInv, RowsInv, TableInv, Evidences, KindsDone, Kinds, EventOf, Work, Grounded;
    hide KindOf, Latest;
    InitInv(p);
    RunsKeepInv(Init(), p, steps);
    var s := Run(Init(), p, steps);
    var events := Evidences(s.rows.ledger);
    if s.ckpt.Some? {
      var c := s.ckpt.value;
      forall k | k in KindsDone(c.w, c.next) ensures EventOf(k, c.w) == Latest(s.rows.ledger, k) != None {
        DoneBacked(c, events, k);
        LatestEvidence(s.rows.ledger, k);
      }
      if s.exec.Some? {
        var x := s.exec.value;
        HandBound(c, x, events);
        forall i | 0 <= i < |x.got|
          ensures EventOf(Kinds(x.node)[i], Work(x)) == Latest(s.rows.ledger, Kinds(x.node)[i]) != None
        {
          HandIsCommitted(c, x, s.rows.ledger, i);
        }
      }
    }
  }

  lemma HandBound(c: Checkpoint, x: Exec, events: seq<Event>)
    requires CheckpointInv(c, events) && ExecInv(c, x, events)
    ensures |x.got| <= |Kinds(x.node)|
  {
    hide KindsDone, Positioned, SnapshotMatches, TailGrounded, Chained, Kinds, Work;
    KindsLength(c.w, c.next);
  }

  // ---------------------------------------------------------------- when a replay is refused

  /** The inputs a replayed service reads from outside the evidence chain are the ones it read. */
  predicate SameOutsideInputs(e: Event, env: Env) {
    && (e.MatchingCompleted? ==> e.match_.snapshot == SnapshotSha(env.snapshot))
    && (e.ClassificationCompleted? && e.taxonomy.input.content.OfTaxonomyRequest? ==>
          e.taxonomy.input.content.t.stalePo == env.stalePo)
  }

  lemma GroundedAccepts(k: Kind, e: Event, w: GraphState, env: Env)
    requires Ready(k, w, env) && Grounded(k, e, w)
    requires k == KReview ==> e == ReviewRecorded(env.decision.value)
    ensures Accepts(k, e, w, env) <==> SameOutsideInputs(e, env)
  {
  }

  lemma ReviewAgrees(s: State, x: Exec)
    requires RowsInv(s) && s.exec == Some(x) && x.env.decision.Some? && Latest(s.rows.ledger, KReview).Some?
    ensures Latest(s.rows.ledger, KReview) == Some(ReviewRecorded(x.env.decision.value))
  {
    hide Evidences, Latest, Mine, Handled, FourEyes, Reported, Recorded;
    LatestEvidence(s.rows.ledger, KReview);
  }

  /** In every reachable state, reading committed evidence either returns that very payload or, exactly
  when the ERP snapshot or the order-age signal changed since it was committed, ends the execution;
  nothing is written either way. */
  lemma {:induction false} ReplayReturnsOrRaises(p: Params, steps: seq<Step>, snapshot: Option<Snapshot>, stalePo: bool)
    requires p.retry.maxAttempts >= 1
    ensures var s := Run(Init(), p, steps);
            s.exec.Some? && !s.exec.value.looked && |s.exec.value.got| < |Kinds(s.exec.value.node)| ==>
              var x := s.exec.value;
              var k := NextKind(x);
              var env := Observe(x, k, snapshot, stalePo);
              k != KTriage && Latest(s.rows.ledger, k).Some? ==>
                var e := Latest(s.rows.ledger, k).value;
                Look(s, snapshot, stalePo)
                == if SameOutsideInputs(e, env) then s.(exec := Some(x.(env := env, got := x.got + [e])))
                   else s.(exec := None)
  {
    hide Run, CheckpointInv, ExecInv, RowsInv, TableInv, Evidences, Kinds, Work, Grounded, Latest, Observe;
    InitInv(p);
    RunsKeepInv(Init(), p, steps);
    var s := Run(Init(), p, steps);
    if s.exec.Some? && !s.exec.value.looked && |s.exec.value.got| < |Kinds(s.exec.value.node)|
       && NextKind(s.exec.value) != KTriage && Latest(s.rows.ledger, NextKind(s.exec.value)).Some? {
      LookDecides(s, p, snapshot, stalePo);
    }
  }

  lemma {:induction false} LookDecides(s: State, p: Params, snapshot: Option<Snapshot>, stalePo: bool)
    requires Inv(s, p) && s.exec.Some? && !s.exec.value.looked && |s.exec.value.got| < |Kinds(s.exec.value.node)|
    requires NextKind(s.exec.value) != KTriage && Latest(s.rows.ledger, NextKind(s.exec.value)).Some?
    ensures var x := s.exec.value;
            var env := Observe(x, NextKind(x), snapshot, stalePo);
            var e := Latest(s.rows.ledger, NextKind(x)).value;
            ReadEvidence(x, s.rows.ledger, snapshot, stalePo)
            == if SameOutsideInputs(e, env) then Some(x.(env := env, got := x.got + [e])) else None
  {
    hide ExecInv, RowsInv, TableInv, Evidences, Kinds, Work, AbsorbAll, Grounded, Latest, Observe, Ready, Accepts;
    hide SameOutsideInputs, KindsThrough, KindsDone, Chained, SnapshotMatches, TailGrounded, Positioned;
    var c, x, events := s.ckpt.value, s.exec.value, Evidences(s.rows.ledger);
    var env := Observe(x, NextKind(x), snapshot, stalePo);
    ObservedWork(c, x, events, snapshot, stalePo);
    ServicesReady(c, x, events, env);
    NextEvidence(c, x, s.rows.ledger, events, |KindsDone(c.w, c.next)| + |x.got|);
    WorkEnv(x, env);
    if NextKind(x) == KReview {
      ReadyToReview(x, env);
      ReviewAgrees(s, x);
    }
    GroundedAccepts(NextKind(x), Latest(s.rows.ledger, NextKind(x)).value, Work(x), env);
  }

  lemma ReadyToReview(x: Exec, env: Env)
    requires |x.got| < |Kinds(x.node)| && NextKind(x) == KReview && Ready(KReview, Work(x), env)
    ensures env.decision.Some?
  {
  }

  lemma ObservedWork(c: Checkpoint, x: Exec, events: seq<Event>, snapshot: Option<Snapshot>, stalePo: bool)
    requires CheckpointInv(c, events) && ExecInv(c, x, events) && |x.got| < |Kinds(x.node)|
    ensures var env := Observe(x, NextKind(x), snapshot, stalePo);
            AbsorbAll(x.base, x.got, env) == Work(x) && env.decision == x.env.decision
  {
    hide KindsDone, KindsThrough, Positioned, SnapshotMatches, TailGrounded, Chained, Kinds, Work, AbsorbAll, Observe;
    Observed(x, KindsThrough(c.w, c.next), |KindsDone(c.w, c.next)|, events, snapshot, stalePo);
  }

  // ---------------------------------------------------------------- the committed evidence fits together

  lemma PolicyNeedsMatch(w: GraphState, next: Option<Node>)
    ensures KPolicy in KindsThrough(w, next) || KTaxonomy in KindsThrough(w, next) ==> KMatch in KindsDone(w, next)
  {
    KindsThroughSplit(w, next);
    if KPolicy in KindsThrough(w, next) || KTaxonomy in KindsThrough(w, next) {
      assert |KindsDone(w, next)| > 2 && KindsDone(w, next)[2] == KMatch;
    }
  }

  lemma {:induction false} MatchStays(w: GraphState, got: seq<Event>, env: Env)
    requires forall e <- got :: !e.MatchingCompleted?
    ensures AbsorbAll(w, got, env).match_ == w.match_ && AbsorbAll(w, got, env).snapshot == w.snapshot
  {
    if got != [] {
      MatchStays(w, got[..|got| - 1], env);
    }
  }

  lemma NoSecondMatch(ks: seq<Kind>, events: seq<Event>, n: nat)
    requires Ordered(ks) && Spells(events, ks) && n <= |events| && KMatch in ks[..n]
    ensures forall e <- events[n..] :: !e.MatchingCompleted?
  {
    var i :| 0 <= i < n && ks[..n][i] == KMatch;
    forall j | n <= j < |events| ensures !events[j].MatchingCompleted? {
      assert Rank(ks[i]) < Rank(ks[j]);
    }
  }

  lemma ReplayedSnapshot(c: Checkpoint, events: seq<Event>)
    requires CheckpointInv(c, events) && KMatch in KindsDone(c.w, c.next)
    ensures SnapshotMatches(Replayed(c, events), EVIDENCE[..5])
  {
    hide KindsDone, Positioned, TailGrounded, Chained, Kinds, AbsorbAll;
    var ks, n := KindsThrough(c.w, c.next), |KindsDone(c.w, c.next)|;
    KindsOrdered(c.w, c.next);
    assert ks[..n] == KindsDone(c.w, c.next);
    NoSecondMatch(ks, events, n);
    MatchStays(c.w, events[n..], NO_ENV);
  }

  /** The request the committed policy answered passes its validator with the committed evidence. */
  lemma PolicyRequestFits(c: Checkpoint, events: seq<Event>)
    requires CheckpointInv(c, events) && Latest(events, KPolicy).Some?
    ensures Ready(KPolicy, Replayed(c, events), NO_ENV)
  {
    hide KindsDone, KindsThrough, Positioned, Chained, SnapshotMatches, TailGrounded, Latest, Grounded, Ready;
    hide Replayed, Kinds;
    hide Rank, Ordered, KindOf;
    var ks := KindsThrough(c.w, c.next);
    KindsOrdered(c.w, c.next);
    WholeLedgerChains(c, events);
    PolicyNeedsMatch(c.w, c.next);
    var i := CommittedIndex(events, ks, KPolicy);
    assert ks[i] in ks;
    ReplayedSnapshot(c, events);
    PolicyRank();
    EvidenceBefore(c.w, c.next, i);
    FiveBeforePolicy(ks, i);
    ChainPrefix(Replayed(c, events), ks[..|events|], events, i);
    assert ks[..|events|][..i] == ks[..i];
    PolicyBacked(Replayed(c, events), ks[..|events|], events, i);
    ChainIsReady(KPolicy, Replayed(c, events), events[..i], NO_ENV);
  }

  lemma PolicyRank()
    ensures Rank(KPolicy) == 5
  {
  }

  lemma FiveBeforePolicy(ks: seq<Kind>, i: nat)
    requires i < |ks| && ks[i] == KPolicy && ks[..i] == EVIDENCE[..Rank(KPolicy)]
    ensures i == 5 && ks[..i] == EVIDENCE[..5]
  {
    assert |ks[..i]| == i;
  }

  lemma ChainPrefix(w: GraphState, ks: seq<Kind>, events: seq<Event>, i: nat)
    requires Chained(w, ks, events) && i <= |ks|
    ensures Chained(w, ks[..i], events[..i])
  {
    hide Backed;
  }

  lemma PolicyBacked(w: GraphState, ks: seq<Kind>, events: seq<Event>, i: nat)
    requires Chained(w, ks, events) && i < |ks| && ks[i] == KPolicy
    ensures w.extraction.Some?
  {
    assert Backed(KPolicy, events[i], w);
  }

  /** Evidence of the rule chain is committed after all the kinds before it. */
  lemma {:induction false} EarlierCommitted(c: Checkpoint, events: seq<Event>, k: Kind, earlier: Kind)
    requires CheckpointInv(c, events) && Latest(events, k).Some? && Rank(earlier) < Rank(k) <= 6
    ensures Latest(events, earlier).Some?
  {
    hide KindsDone, KindsThrough, Positioned, Chained, SnapshotMatches, TailGrounded, Latest, KindOf, Rank;
    var ks := KindsThrough(c.w, c.next);
    KindsOrdered(c.w, c.next);
    var i := CommittedIndex(events, ks, k);
    EvidenceBefore(c.w, c.next, i);
    RankedEvidence(earlier);
    assert |ks[..i]| == i && ks[..i][Rank(earlier)] == earlier;
    LatestAligned(events, ks, Rank(earlier));
  }

  lemma RankedEvidence(k: Kind)
    ensures Rank(k) <= 6 ==> EVIDENCE[Rank(k)] == k
  {
  }

  // The payloads of the committed rule chain, as far as it got.

  function CommittedExtraction(ledger: seq<Event>): Option<Extraction> {
    match Latest(ledger, KExtraction)
    case Some(ExtractionRecorded(_, Extracted(x, _))) => Some(x)
    case _ => None
  }

  /** The vendor's account in the snapshot that the match fingerprints. */
  function MatchedIban(m: Match): Option<string> {
    match m.snapshot
    case Some(Sha(OfSnapshot(s))) => s.vendorIban
    case _ => None
  }

  /** The committed taxonomy answers the request made of the committed extraction, validation and match,
  the vendor's account in the matched snapshot and the committed similarity verdict. */
  predicate TaxonomyTied(ledger: seq<Event>) {
    match (CommittedExtraction(ledger), Latest(ledger, KValidation), Latest(ledger, KMatch), Latest(ledger, KSimilarity),
           Latest(ledger, KTaxonomy))
    case (Some(x), Some(ValidationCompleted(v)), Some(MatchingCompleted(m)), Some(SimilarityCompleted(s)),
          Some(ClassificationCompleted(t))) =>
      && t.input.content.OfTaxonomyRequest?
      && t.input.content.t
         == TaxonomyRequest(x, v, m, MatchedIban(m), s.nearDuplicate, t.input.content.t.stalePo)
      && s.extraction == Sha(OfExtraction(x))
    case (_, _, _, _, taxonomy) => taxonomy == None
  }

  /** The committed policy answers the request made of the committed payloads and the matched snapshot. */
  predicate PolicyTied(ledger: seq<Event>) {
    match (CommittedExtraction(ledger), Latest(ledger, KValidation), Latest(ledger, KMatch), Latest(ledger, KTaxonomy),
           Latest(ledger, KPolicy))
    case (Some(x), Some(ValidationCompleted(v)), Some(MatchingCompleted(m)), Some(ClassificationCompleted(t)),
          Some(PolicyCompleted(q))) =>
      && q.input.content.OfPolicyRequest?
      && var r := q.input.content.r;
         r.extraction == x && r.validation == v && r.match_ == m && r.taxonomy == t && SnapshotSha(r.snapshot) == m.snapshot
    case (_, _, _, _, policy) => policy == None
  }

  /** The committed gate judged the committed extraction, match and policy. */
  predicate GateTied(ledger: seq<Event>) {
    match (CommittedExtraction(ledger), Latest(ledger, KMatch), Latest(ledger, KPolicy), Latest(ledger, KGate))
    case (Some(x), Some(MatchingCompleted(m)), Some(PolicyCompleted(q)), Some(GateCompleted(g))) =>
      && g.extraction == Sha(OfExtraction(x)) && g.match_ == Sha(OfMatch(m)) && g.policy == Sha(OfPolicy(q))
      && g.policyStatus == q.status
    case (_, _, _, gate) => gate == None
  }

  predicate Fits(ledger: seq<Event>, w: GraphState) {
    forall k | Latest(ledger, k).Some? :: Backed(k, Latest(ledger, k).value, w)
  }

  lemma ExtractionFits(ledger: seq<Event>, w: GraphState)
    requires Fits(ledger, w) && w.extraction.Some? && Latest(ledger, KExtraction).Some?
    ensures CommittedExtraction(ledger) == w.extraction
  {
    hide Latest, Grounded;
    assert Backed(KExtraction, Latest(ledger, KExtraction).value, w);
  }

  lemma TaxonomyFits(ledger: seq<Event>, w: GraphState)
    requires Fits(ledger, w) && SnapshotMatches(w, EVIDENCE[..5])
    requires forall k | Rank(k) <= 4 :: Latest(ledger, k).Some?
    ensures TaxonomyTied(ledger)
  {
    assert EVIDENCE[..5][2] == KMatch;
    FitsAt(ledger, w, KValidation);
    FitsAt(ledger, w, KMatch);
    FitsAt(ledger, w, KSimilarity);
    FitsAt(ledger, w, KTaxonomy);
    ExtractionFits(ledger, w);
    hide Latest, Fits, CommittedExtraction;
  }

  lemma FitsAt(ledger: seq<Event>, w: GraphState, k: Kind)
    requires Fits(ledger, w) && Latest(ledger, k).Some?
    ensures Backed(k, Latest(ledger, k).value, w)
  {
    hide Latest, Backed;
  }

  lemma PolicyFits(ledger: seq<Event>, w: GraphState)
    requires Fits(ledger, w) && Ready(KPolicy, w, NO_ENV)
    requires forall k | Rank(k) <= 5 :: Latest(ledger, k).Some?
    ensures PolicyTied(ledger)
  {
    FitsAt(ledger, w, KValidation);
    FitsAt(ledger, w, KMatch);
    FitsAt(ledger, w, KTaxonomy);
    FitsAt(ledger, w, KPolicy);
    ExtractionFits(ledger, w);
    hide Latest, Fits, CommittedExtraction;
  }

  lemma GateFits(ledger: seq<Event>, w: GraphState)
    requires Fits(ledger, w)
    requires forall k | Rank(k) <= 6 :: Latest(ledger, k).Some?
    ensures GateTied(ledger)
  {
    FitsAt(ledger, w, KMatch);
    FitsAt(ledger, w, KPolicy);
    FitsAt(ledger, w, KGate);
    ExtractionFits(ledger, w);
    hide Latest, Fits, CommittedExtraction;
  }

  lemma NothingTied(ledger: seq<Event>)
    ensures Latest(ledger, KTaxonomy) == None ==> TaxonomyTied(ledger)
    ensures Latest(ledger, KPolicy) == None ==> PolicyTied(ledger)
    ensures Latest(ledger, KGate) == None ==> GateTied(ledger)
  {
    hide Latest, CommittedExtraction;
  }

  lemma CommittedThrough(c: Checkpoint, ledger: seq<Event>, k: Kind)
    requires CheckpointInv(c, Evidences(ledger)) && Latest(ledger, k).Some? && Rank(k) <= 6
    ensures forall e | Rank(e) <= Rank(k) :: Latest(ledger, e).Some?
  {
    hide CheckpointInv, Evidences, Latest;
    LatestEvidence(ledger, k);
    forall e | Rank(e) <= Rank(k) ensures Latest(ledger, e).Some? {
      LatestEvidence(ledger, e);
      if Rank(e) == Rank(k) {
        RankedEvidence(e);
        RankedEvidence(k);
      } else {
        EarlierCommitted(c, Evidences(ledger), k, e);
      }
    }
  }

  /** The committed requests are made of the committed answers. */
  lemma CommittedTied(c: Checkpoint, ledger: seq<Event>, w: GraphState)
    requires CheckpointInv(c, Evidences(ledger)) && Fits(ledger, w)
    requires Latest(ledger, KTaxonomy).Some? ==> SnapshotMatches(w, EVIDENCE[..5])
    requires Latest(ledger, KPolicy).Some? ==> Ready(KPolicy, w, NO_ENV)
    ensures TaxonomyTied(ledger) && PolicyTied(ledger) && GateTied(ledger)
  {
    hide CheckpointInv, Evidences, Latest, Fits, Ready, SnapshotMatches, TaxonomyTied, PolicyTied, GateTied;
    NothingTied(ledger);
    if Latest(ledger, KTaxonomy).Some? {
      CommittedThrough(c, ledger, KTaxonomy);
      TaxonomyFits(ledger, w);
    }
    if Latest(ledger, KPolicy).Some? {
      CommittedThrough(c, ledger, KPolicy);
      PolicyFits(ledger, w);
    }
    if Latest(ledger, KGate).Some? {
      CommittedThrough(c, ledger, KGate);
      GateFits(ledger, w);
    }
  }

  lemma TaxonomySnapshot(c: Checkpoint, events: seq<Event>)
    requires CheckpointInv(c, events) && Latest(events, KTaxonomy).Some?
    ensures |KindsDone(c.w, c.next)| <= |events| && SnapshotMatches(Replayed(c, events), EVIDENCE[..5])
  {
    hide KindsDone, KindsThrough, Positioned, Chained, SnapshotMatches, TailGrounded, Latest, Replayed, Rank, KindOf;
    PolicyNeedsMatch(c.w, c.next);
    KindsOrdered(c.w, c.next);
    TailFits(c, events);
    var i := CommittedIndex(events, KindsThrough(c.w, c.next), KTaxonomy);
    assert KindsThrough(c.w, c.next)[i] in KindsThrough(c.w, c.next);
    ReplayedSnapshot(c, events);
  }

  /** In every reachable state there is one graph state whose evidence is exactly the committed
  evidence, each payload grounded in the others by their fingerprints; and the requests behind the
  committed taxonomy, policy and gate are made of the committed payloads themselves. */
  lemma {:induction false} EvidenceFits(p: Params, steps: seq<Step>) returns (w: GraphState)
    requires p.retry.maxAttempts >= 1
    ensures var ledger := Run(Init(), p, steps).rows.ledger;
            && (forall k | Latest(ledger, k).Some? :: Backed(k, Latest(ledger, k).value, w))
            && (Latest(ledger, KPolicy).Some? ==> Ready(KPolicy, w, NO_ENV))
            && TaxonomyTied(ledger) && PolicyTied(ledger) && GateTied(ledger)
  {
    hide Run, CheckpointInv, ExecInv, RowsInv, TableInv, Evidences, Backed, Ready, Latest, Replayed, KindsDone;
    hide TaxonomyTied, PolicyTied, GateTied, SnapshotMatches;
    InitInv(p);
    RunsKeepInv(Init(), p, steps);
    var s := Run(Init(), p, steps);
    var ledger, events := s.rows.ledger, Evidences(s.rows.ledger);
    if s.ckpt == None {
      w := InitialState(0, p.contentHash, p.duplicate);
      EmptyEvidence();
      forall k ensures Latest(ledger, k) == None {
        LatestEvidence(ledger, k);
      }
      NothingTied(ledger);
    } else {
      TailFits(s.ckpt.value, events);
      w := Replayed(s.ckpt.value, events);
      forall k | Latest(ledger, k).Some? ensures Backed(k, Latest(ledger, k).value, w) {
        LatestEvidence(ledger, k);
        CommittedBacked(s.ckpt.value, events, k);
      }
      LatestEvidence(ledger, KPolicy);
      if Latest(ledger, KPolicy).Some? {
        PolicyRequestFits(s.ckpt.value, events);
      }
      LatestEvidence(ledger, KTaxonomy);
      if Latest(ledger, KTaxonomy).Some? {
        TaxonomySnapshot(s.ckpt.value, events);
      }
      CommittedTied(s.ckpt.value, ledger, w);
    }
  }

  /** In every reachable state the requests behind the committed taxonomy, policy and gate are made of the
  committed payloads. */
  lemma {:induction false} RequestsAreTied(p: Params, steps: seq<Step>)
    requires p.retry.maxAttempts >= 1
    ensures var ledger := Run(Init(), p, steps).rows.ledger;
            TaxonomyTied(ledger) && PolicyTied(ledger) && GateTied(ledger)
  {
    hide Run, Ready, Latest, Backed, TaxonomyTied, PolicyTied, GateTied;
    var _ := EvidenceFits(p, steps);
  }

  lemma TailFits(c: Checkpoint, events: seq<Event>)
    requires CheckpointInv(c, events)
    ensures |KindsDone(c.w, c.next)| <= |events|
  {
  }

  // ---------------------------------------------------------------- the workflow's own checks never fail

  /** In every reachable state: the service about to run finds its required inputs and coherent
  requests, the progress validator accepts the state after every node and every stored state, and
  automatic approval and human review exclude each other. */
  lemma {:induction false} ValidatorsNeverFail(p: Params, steps: seq<Step>, snapshot: Option<Snapshot>, stalePo: bool)
    requires p.retry.maxAttempts >= 1
    ensures var s := Run(Init(), p, steps);
            && (s.ckpt.Some? ==>
                  && ValidProgress(s.ckpt.value.w)
                  && !(AutoApprove in s.ckpt.value.w.completed && HumanReview in s.ckpt.value.w.completed))
            && (s.exec.Some? ==>
                  var x := s.exec.value;
                  if |x.got| < |Kinds(x.node)|
                  then Ready(NextKind(x), Work(x), Observe(x, NextKind(x), snapshot, stalePo))
                  else ValidProgress(Finish(x.node, Work(x))))
  {
    hide Run, ExecInv, RowsInv, TableInv, Evidences, KindsDone, KindsThrough, Kinds, Work, Ready;
    hide ValidProgress, Positioned;
    hide Observe, Finish, Chained, SnapshotMatches, TailGrounded, Spells;
    InitInv(p);
    RunsKeepInv(Init(), p, steps);
    var s := Run(Init(), p, steps);
    var events := Evidences(s.rows.ledger);
    if s.ckpt.Some? {
      var c := s.ckpt.value;
      PositionedIsValid(c.w, c.next);
      if s.exec.Some? {
        var x := s.exec.value;
        HandBound(c, x, events);
        if |x.got| < |Kinds(x.node)| {
          ObservedWork(c, x, events, snapshot, stalePo);
          ServicesReady(c, x, events, Observe(x, NextKind(x), snapshot, stalePo));
        } else {
          CheckpointKeeps(c, x, events);
        }
      }
    }
  }
}
