/** What every step of an execution keeps between the ledger, the checkpoint and the executor.

The evidence a run commits always spells a prefix of its node sequence's kinds, the checkpoint
holds exactly the committed payloads of its completed nodes, and every committed payload is
grounded in the evidence before it. */
module GraphInvariant {
  import opened Domain
  import opened Graph
  import opened Services
  import opened Protocol

  // ---------------------------------------------------------------- workflow evidence in the ledger

  function Evidences(ledger: seq<Event>): seq<Event> {
    if ledger == [] then []
    else Evidences(ledger[..|ledger| - 1]) + if KindOf(ledger[|ledger| - 1]).Some? then [ledger[|ledger| - 1]] else []
  }

  lemma EvidencesAppend(ledger: seq<Event>, e: Event)
    ensures Evidences(ledger + [e]) == Evidences(ledger) + if KindOf(e).Some? then [e] else []
  {
    assert (ledger + [e])[..|ledger|] == ledger;
  }

  lemma LatestAppend(ledger: seq<Event>, e: Event, k: Kind)
    ensures Latest(ledger + [e], k) == if KindOf(e) == Some(k) then Some(e) else Latest(ledger, k)
  {
    assert (ledger + [e])[..|ledger|] == ledger;
  }

  lemma {:induction false} LatestEvidence(ledger: seq<Event>, k: Kind)
    ensures Latest(ledger, k) == Latest(Evidences(ledger), k)
  {
    if ledger != [] {
      hide Latest, Evidences, KindOf;
      var front, last := ledger[..|ledger| - 1], ledger[|ledger| - 1];
      assert ledger == front + [last];
      LatestEvidence(front, k);
      EvidencesAppend(front, last);
      LatestAppend(front, last, k);
      LatestAppend(Evidences(front), last, k);
      assert Evidences(front) + [] == Evidences(front);
    }
  }

  predicate Spells(events: seq<Event>, ks: seq<Kind>) {
    |events| <= |ks| && forall i | 0 <= i < |events| :: KindOf(events[i]) == Some(ks[i])
  }

  /** In evidence that spells ordered kinds, the latest event of the kind at `i` is the event at `i`. */
  lemma {:induction false} LatestAligned(events: seq<Event>, ks: seq<Kind>, i: nat)
    requires Ordered(ks) && Spells(events, ks) && i < |ks|
    ensures Latest(events, ks[i]) == if i < |events| then Some(events[i]) else None
  {
    if events != [] && i != |events| - 1 {
      assert Rank(ks[i]) != Rank(ks[|events| - 1]);
      LatestAligned(events[..|events| - 1], ks, i);
    }
  }

  lemma {:induction false} LatestAbsent(events: seq<Event>, ks: seq<Kind>, k: Kind)
    requires Spells(events, ks) && k !in ks
    ensures Latest(events, k) == None
  {
    if events != [] {
      LatestAbsent(events[..|events| - 1], ks, k);
    }
  }

  // ---------------------------------------------------------------- evidence held by a state

  predicate ExtractionAgrees(w: GraphState) {
    w.extraction == match w.outcome case Some(Extracted(e, _)) => Some(e) case _ => None
  }

  /** The state's payload of this kind is the committed one and is grounded in the state. */
  predicate Backed(k: Kind, e: Event, w: GraphState) {
    KindOf(e) == Some(k) && EventOf(k, w) == Some(e) && Grounded(k, e, w) && (k == KExtraction ==> ExtractionAgrees(w))
  }

  predicate Chained(w: GraphState, ks: seq<Kind>, events: seq<Event>) {
    |ks| == |events| && forall i | 0 <= i < |ks| :: Backed(ks[i], events[i], w)
  }

  predicate SnapshotMatches(w: GraphState, ks: seq<Kind>) {
    KMatch in ks ==> w.match_.Some? && w.match_.value.snapshot == SnapshotSha(w.snapshot)
  }

  lemma BackedAfterAbsorb(k: Kind, e: Event, w: GraphState, later: Event, env: Env)
    requires Backed(k, e, w)
    requires KindOf(later).Some? && Rank(k) < Rank(KindOf(later).value)
    ensures Backed(k, e, Absorb(later, w, env))
  {
    hide PolicyCoherent, GateCoherent;
  }

  lemma AbsorbBacks(k: Kind, e: Event, w: GraphState, env: Env)
    requires Grounded(k, e, w)
    ensures Backed(k, e, Absorb(e, w, env))
  {
  }

  /** Finishing a node only moves the position: completed nodes, status and route. */
  predicate SameEvidence(a: GraphState, b: GraphState) {
    b == a.(completed := b.completed, status := b.status, route := b.route)
  }

  lemma BackedAnywhere(k: Kind, e: Event, w: GraphState, later: GraphState)
    requires Backed(k, e, w) && SameEvidence(w, later) && (k == KArchive ==> w.route == later.route)
    ensures Backed(k, e, later)
  {
    hide PolicyCoherent, GateCoherent;
  }

  lemma BackedAfterFinish(k: Kind, e: Event, w: GraphState, node: Node)
    requires Backed(k, e, w) && (k == KArchive ==> node == Archive)
    ensures Backed(k, e, Finish(node, w))
  {
    hide Backed;
    BackedAnywhere(k, e, w, Finish(node, w));
  }

  lemma ChainedExtends(w: GraphState, ks: seq<Kind>, events: seq<Event>, k: Kind, e: Event, env: Env)
    requires Chained(w, ks, events) && Grounded(k, e, w)
    requires Below(ks, k)
    ensures Chained(Absorb(e, w, env), ks + [k], events + [e])
  {
    forall i | 0 <= i < |ks| ensures Backed(ks[i], events[i], Absorb(e, w, env)) {
      BackedAfterAbsorb(ks[i], events[i], w, e, env);
    }
    AbsorbBacks(k, e, w, env);
  }

  lemma ChainedFinish(w: GraphState, ks: seq<Kind>, events: seq<Event>, node: Node)
    requires Chained(w, ks, events) && (KArchive in ks ==> node == Archive)
    ensures Chained(Finish(node, w), ks, events)
  {
    forall i | 0 <= i < |ks| ensures Backed(ks[i], events[i], Finish(node, w)) {
      BackedAfterFinish(ks[i], events[i], w, node);
    }
  }

  // ---------------------------------------------------------------- the invariant

  const NO_ENV := Env(None, false, None)

  /** Evidence committed past the checkpoint is grounded in the evidence before it. */
  predicate TailGrounded(w: GraphState, ks: seq<Kind>, events: seq<Event>, n: nat) {
    n <= |events| <= |ks| &&
    forall j | n <= j < |events| :: Grounded(ks[j], events[j], AbsorbAll(w, events[n..j], NO_ENV))
  }

  predicate CheckpointInv(c: Checkpoint, events: seq<Event>) {
    var done, ks := KindsDone(c.w, c.next), KindsThrough(c.w, c.next);
    && Positioned(c.w, c.next)
    && |done| <= |events| && Spells(events, ks)
    && Chained(c.w, done, events[..|done|])
    && SnapshotMatches(c.w, done)
    && TailGrounded(c.w, ks, events, |done|)
  }

  /** An executor on a state whose completed nodes left `n` of the kinds `ks`. */
  predicate Executing(x: Exec, ks: seq<Kind>, n: nat, events: seq<Event>) {
    var m := n + |x.got|;
    && m <= |events| && m <= |ks| && ks[n..] == Kinds(x.node) && x.got == events[n..m]
    && Chained(Work(x), ks[..m], events[..m])
    && SnapshotMatches(Work(x), ks[..m])
    && (x.looked ==> m < |ks| && (x.node != ExceptionTriage ==> m == |events|))
    && (x.node == HumanReview ==> x.env.decision.Some?)
  }

  predicate ExecInv(c: Checkpoint, x: Exec, events: seq<Event>) {
    && x.base == c.w && Some(x.node) == c.next
    && Executing(x, KindsThrough(c.w, c.next), |KindsDone(c.w, c.next)|, events)
  }

  predicate GraphInv(events: seq<Event>, ckpt: Option<Checkpoint>, exec: Option<Exec>) {
    match ckpt
    case None => events == [] && exec == None
    case Some(c) => CheckpointInv(c, events) && (exec.Some? ==> ExecInv(c, exec.value, events))
  }

  // ---------------------------------------------------------------- executors

  lemma {:induction false} EnvFree(w: GraphState, got: seq<Event>, a: Env, b: Env)
    requires a.snapshot == b.snapshot || forall e <- got :: !e.MatchingCompleted?
    ensures AbsorbAll(w, got, a) == AbsorbAll(w, got, b)
  {
    if got != [] {
      EnvFree(w, got[..|got| - 1], a, b);
    }
  }

  /** The kinds of a node beyond its first exist only for the policy node, which reads no snapshot. */
  lemma GotHasNoMatch(x: Exec, ks: seq<Kind>, n: nat, events: seq<Event>)
    requires Spells(events, ks) && Executing(x, ks, n, events) && |x.got| < |Kinds(x.node)|
    ensures forall e <- x.got :: !e.MatchingCompleted?
  {
    forall i | 0 <= i < |x.got| ensures !x.got[i].MatchingCompleted? {
      assert x.got[i] == events[n + i];
      assert ks[n..][i] == Kinds(x.node)[i];
    }
  }

  lemma {:induction false} AbsorbKeeps(node: Node, w: GraphState, got: seq<Event>, env: Env)
    requires forall e <- got :: KindOf(e).Some? && KindOf(e).value in Kinds(node)
    ensures Kept(node, w, AbsorbAll(w, got, env))
  {
    if got != [] {
      assert forall e <- got[..|got| - 1] :: e in got;
      AbsorbKeeps(node, w, got[..|got| - 1], env);
      var e := got[|got| - 1];
      assert e in got;
      AbsorbKept(node, w, AbsorbAll(w, got[..|got| - 1], env), e, env);
    }
  }

  lemma AbsorbKept(node: Node, before: GraphState, w: GraphState, e: Event, env: Env)
    requires Kept(node, before, w) && KindOf(e).Some? && KindOf(e).value in Kinds(node)
    ensures Kept(node, before, Absorb(e, w, env))
  {
  }

  /** The next evidence of an executor, seen from the state it is working on. */
  function NextKind(x: Exec): Kind
    requires |x.got| < |Kinds(x.node)|
  {
    Kinds(x.node)[|x.got|]
  }

  lemma WorkAdvances(x: Exec, e: Event, env: Env)
    requires AbsorbAll(x.base, x.got, env) == Work(x)
    ensures Work(x.(env := env, looked := false, got := x.got + [e])) == Absorb(e, Work(x), env)
  {
    assert (x.got + [e])[..|x.got|] == x.got;
  }

  lemma SnapshotAdvances(w: GraphState, ks: seq<Kind>, k: Kind, e: Event, env: Env)
    requires SnapshotMatches(w, ks) && KindOf(e) == Some(k)
    requires e.MatchingCompleted? ==> e.match_.snapshot == SnapshotSha(env.snapshot)
    ensures SnapshotMatches(Absorb(e, w, env), ks + [k])
  {
  }

  lemma ChainAdvances(w: GraphState, ks: seq<Kind>, m: nat, events: seq<Event>, env: Env)
    requires Ordered(ks) && m < |ks| && m < |events|
    requires Chained(w, ks[..m], events[..m]) && Grounded(ks[m], events[m], w)
    ensures Chained(Absorb(events[m], w, env), ks[..m + 1], events[..m + 1])
  {
    hide Grounded, Absorb, Chained;
    assert Below(ks[..m], ks[m]);
    ChainedExtends(w, ks[..m], events[..m], ks[m], events[m], env);
    assert ks[..m] + [ks[m]] == ks[..m + 1];
    assert events[..m] + [events[m]] == events[..m + 1];
  }

  lemma HandAdvances(w: GraphState, ks: seq<Kind>, m: nat, events: seq<Event>, env: Env)
    requires Ordered(ks) && m < |ks| && m < |events|
    requires Chained(w, ks[..m], events[..m]) && SnapshotMatches(w, ks[..m])
    requires Grounded(ks[m], events[m], w)
    requires events[m].MatchingCompleted? ==> events[m].match_.snapshot == SnapshotSha(env.snapshot)
    ensures Chained(Absorb(events[m], w, env), ks[..m + 1], events[..m + 1])
    ensures SnapshotMatches(Absorb(events[m], w, env), ks[..m + 1])
  {
    hide Grounded, Absorb, Chained, SnapshotMatches;
    ChainAdvances(w, ks, m, events, env);
    GroundedKind(ks[m], events[m], w);
    SnapshotAdvances(w, ks[..m], ks[m], events[m], env);
    assert ks[..m] + [ks[m]] == ks[..m + 1];
  }

  /** Returning committed or freshly committed evidence moves the executor one kind on. */
  lemma {:induction false} AdvanceKeeps(x: Exec, ks: seq<Kind>, n: nat, env: Env, events: seq<Event>, e: Event)
    requires Ordered(ks) && Executing(x, ks, n, events) && |x.got| < |Kinds(x.node)|
    requires n + |x.got| < |events| && events[n + |x.got|] == e
    requires AbsorbAll(x.base, x.got, env) == Work(x) && env.decision == x.env.decision
    requires Grounded(NextKind(x), e, Work(x))
    requires e.MatchingCompleted? ==> e.match_.snapshot == SnapshotSha(env.snapshot)
    ensures Executing(x.(env := env, looked := false, got := x.got + [e]), ks, n, events)
  {
    hide Chained, Grounded, Work, AbsorbAll, Absorb, SnapshotMatches, Kinds;
    var m := n + |x.got|;
    assert ks[m] == ks[n..][|x.got|];
    HandAdvances(Work(x), ks, m, events, env);
    WorkAdvances(x, e, env);
    assert x.got + [e] == events[n..m + 1];
  }

  // ---------------------------------------------------------------- services never refuse their inputs

  lemma WorkKept(x: Exec, ks: seq<Kind>, n: nat, events: seq<Event>)
    requires Spells(events, ks) && Executing(x, ks, n, events) && |x.got| <= |Kinds(x.node)|
    ensures Kept(x.node, x.base, Work(x))
  {
    forall e | e in x.got ensures KindOf(e).Some? && KindOf(e).value in Kinds(x.node) {
      var i :| 0 <= i < |x.got| && x.got[i] == e;
      assert e == events[n + i] && ks[n + i] == ks[n..][i];
    }
    AbsorbKeeps(x.node, x.base, x.got, x.env);
  }

  /** With the chain complete up to a kind, its service's own checks hold. */
  lemma ChainIsReady(k: Kind, w: GraphState, events: seq<Event>, env: Env)
    requires Rank(k) <= 7 && Chained(w, EVIDENCE[..Rank(k)], events) && SnapshotMatches(w, EVIDENCE[..Rank(k)])
    requires k == KExtraction || w.extraction.Some?
    ensures Ready(k, w, env)
  {
    hide PolicyCoherent, GateCoherent;
    var done := EVIDENCE[..Rank(k)];
    if Rank(k) > 1 { assert Backed(KValidation, events[1], w) by { assert done[1] == KValidation; } }
    if Rank(k) > 2 {
      assert Backed(KMatch, events[2], w) by { assert done[2] == KMatch; }
      assert KMatch in done;
    }
    if Rank(k) > 3 { assert Backed(KSimilarity, events[3], w) by { assert done[3] == KSimilarity; } }
    if Rank(k) > 4 { assert Backed(KTaxonomy, events[4], w) by { assert done[4] == KTaxonomy; } }
    if Rank(k) > 5 { assert Backed(KPolicy, events[5], w) by { assert done[5] == KPolicy; } }
    hide Chained, SnapshotMatches;
  }

  lemma {:induction false} EvidenceBefore(w: GraphState, next: Option<Node>, m: nat)
    requires m < |KindsThrough(w, next)| && Rank(KindsThrough(w, next)[m]) <= 7
    ensures KindsThrough(w, next)[..m] == EVIDENCE[..Rank(KindsThrough(w, next)[m])]
  {
    KindsThroughSplit(w, next);
    var ks, triage := KindsThrough(w, next), TriageKinds(w);
    assert |triage| == 8 || |triage| == 2;
    hide KindsThrough;
    assert Rank(ks[m]) == m;
  }

  lemma NextAligned(x: Exec, ks: seq<Kind>, n: nat, events: seq<Event>)
    requires Executing(x, ks, n, events) && |x.got| < |Kinds(x.node)|
    ensures n + |x.got| < |ks| && n + |x.got| <= |events| && ks[n + |x.got|] == NextKind(x)
  {
    assert ks[n..][|x.got|] == Kinds(x.node)[|x.got|];
  }

  lemma ExtractionKnown(w: GraphState, node: Node, k: Kind)
    requires Positioned(w, Some(node)) && k in Kinds(node) && k != KExtraction && Rank(k) <= 7
    ensures w.extraction.Some? && node != Extract
  {
  }

  lemma LateReady(node: Node, k: Kind, w: GraphState, env: Env)
    requires k in Kinds(node) && Rank(k) > 7 && (node == HumanReview ==> env.decision.Some?)
    ensures Ready(k, w, env)
  {
  }

  /** Every service finds the inputs it requires: the digest checks on requests never fail. */
  lemma ServicesReady(c: Checkpoint, x: Exec, events: seq<Event>, env: Env)
    requires CheckpointInv(c, events) && ExecInv(c, x, events) && |x.got| < |Kinds(x.node)|
    requires env.decision == x.env.decision
    ensures Ready(NextKind(x), Work(x), env)
  {
    hide KindsThrough, KindsDone, Positioned, Chained, Ready, SnapshotMatches, TailGrounded;
    hide Kinds, Rank, Work, AbsorbAll, Spells;
    var ks, n := KindsThrough(c.w, c.next), |KindsDone(c.w, c.next)|;
    var m := n + |x.got|;
    NextAligned(x, ks, n, events);
    if Rank(ks[m]) <= 7 {
      EvidenceBefore(c.w, c.next, m);
      if ks[m] != KExtraction {
        ExtractionKnown(c.w, x.node, ks[m]);
        WorkKept(x, ks, n, events);
      }
      ChainIsReady(ks[m], Work(x), events[..m], env);
    } else {
      LateReady(x.node, ks[m], Work(x), env);
    }
  }

  lemma Observed(x: Exec, ks: seq<Kind>, n: nat, events: seq<Event>, snapshot: Option<Snapshot>, stalePo: bool)
    requires Spells(events, ks) && Executing(x, ks, n, events) && |x.got| < |Kinds(x.node)|
    ensures var env := Observe(x, NextKind(x), snapshot, stalePo);
            AbsorbAll(x.base, x.got, env) == Work(x) && env.decision == x.env.decision
  {
    GotHasNoMatch(x, ks, n, events);
    EnvFree(x.base, x.got, x.env, Observe(x, NextKind(x), snapshot, stalePo));
  }

  /** Without the match evidence in hand, the environment does not show in the working state. */
  lemma WorkIsReplay(x: Exec, ks: seq<Kind>, n: nat, events: seq<Event>)
    requires Spells(events, ks) && Executing(x, ks, n, events) && |x.got| < |Kinds(x.node)|
    ensures Work(x) == AbsorbAll(x.base, x.got, NO_ENV)
  {
    GotHasNoMatch(x, ks, n, events);
    EnvFree(x.base, x.got, x.env, NO_ENV);
  }

  /** What the executor meets next in the ledger: nothing yet, or evidence grounded in its state. */
  lemma {:induction false} NextInLedger(x: Exec, ks: seq<Kind>, n: nat, events: seq<Event>)
    requires Ordered(ks) && Spells(events, ks) && TailGrounded(x.base, ks, events, n)
    requires Executing(x, ks, n, events) && |x.got| < |Kinds(x.node)|
    ensures var m := n + |x.got|;
            && Latest(events, NextKind(x)) == (if m < |events| then Some(events[m]) else None)
            && (m < |events| ==> Grounded(NextKind(x), events[m], Work(x)))
  {
    hide Grounded, Chained;
    NextAligned(x, ks, n, events);
    LatestAligned(events, ks, n + |x.got|);
    WorkIsReplay(x, ks, n, events);
  }

  // ---------------------------------------------------------------- steps of the executor

  lemma ObservedExecuting(x: Exec, ks: seq<Kind>, n: nat, events: seq<Event>, env: Env, looked: bool)
    requires Executing(x, ks, n, events) && n + |x.got| < |ks|
    requires AbsorbAll(x.base, x.got, env) == Work(x) && env.decision == x.env.decision
    requires looked && x.node != ExceptionTriage ==> n + |x.got| == |events|
    ensures Executing(x.(env := env, looked := looked), ks, n, events)
  {
    hide Chained, SnapshotMatches;
  }

  lemma {:induction false} LookKeeps(c: Checkpoint, x: Exec, ledger: seq<Event>, snapshot: Option<Snapshot>, stalePo: bool)
    requires CheckpointInv(c, Evidences(ledger)) && ExecInv(c, x, Evidences(ledger))
    requires !x.looked && |x.got| < |Kinds(x.node)|
    ensures var t := ReadEvidence(x, ledger, snapshot, stalePo); t.Some? ==> ExecInv(c, t.value, Evidences(ledger))
  {
    hide KindsThrough, KindsDone, Positioned, Chained, Ready, Accepts, SnapshotMatches, TailGrounded;
    hide Executing, Observe;
    hide Kinds, Work, AbsorbAll, Latest, Evidences, Grounded, Spells;
    var events := Evidences(ledger);
    var ks, n, k := KindsThrough(c.w, c.next), |KindsDone(c.w, c.next)|, NextKind(x);
    var env := Observe(x, k, snapshot, stalePo);
    Observed(x, ks, n, events, snapshot, stalePo);
    ServicesReady(c, x, events, env);
    KindsOrdered(c.w, c.next);
    NextInLedger(x, ks, n, events);
    LatestEvidence(ledger, k);
    NextAligned(x, ks, n, events);
    TriageNode(x.node, |x.got|);
    WorkEnv(x, env);
    if k == KTriage || Latest(events, k) == None {
      ObservedExecuting(x, ks, n, events, env, true);
    } else if Accepts(k, Latest(events, k).value, Work(x), env) {
      AcceptedSnapshot(k, Latest(events, k).value, Work(x), env);
      AdvanceKeeps(x, ks, n, env, events, Latest(events, k).value);
    }
  }

  lemma WorkEnv(x: Exec, env: Env)
    ensures Work(x.(env := env)) == AbsorbAll(x.base, x.got, env)
  {
  }

  lemma TriageNode(node: Node, i: nat)
    requires i < |Kinds(node)|
    ensures Kinds(node)[i] == KTriage <==> node == ExceptionTriage
  {
  }

  lemma AcceptedSnapshot(k: Kind, e: Event, w: GraphState, env: Env)
    requires Ready(k, w, env) && (Accepts(k, e, w, env) || Fresh(k, e, w, env))
    ensures e.MatchingCompleted? ==> e.match_.snapshot == SnapshotSha(env.snapshot)
  {
  }

  lemma TailExtends(w: GraphState, ks: seq<Kind>, n: nat, events: seq<Event>, e: Event)
    requires TailGrounded(w, ks, events, n) && |events| < |ks|
    requires Grounded(ks[|events|], e, AbsorbAll(w, events[n..], NO_ENV))
    ensures TailGrounded(w, ks, events + [e], n)
  {
    hide Grounded, AbsorbAll;
    var longer := events + [e];
    forall j | n <= j < |longer| ensures Grounded(ks[j], longer[j], AbsorbAll(w, longer[n..j], NO_ENV)) {
      assert longer[n..j] == events[n..j];
    }
  }

  lemma SpellsExtends(events: seq<Event>, ks: seq<Kind>, e: Event)
    requires Spells(events, ks) && |events| < |ks| && KindOf(e) == Some(ks[|events|])
    ensures Spells(events + [e], ks)
  {
    hide KindOf;
  }

  lemma ExecutingExtends(x: Exec, ks: seq<Kind>, n: nat, events: seq<Event>, e: Event)
    requires Executing(x, ks, n, events)
    ensures Executing(x.(looked := false), ks, n, events + [e])
  {
    hide Chained, SnapshotMatches, Kinds, Work, AbsorbAll;
    var m, longer := n + |x.got|, events + [e];
    WorkUnlooked(x);
    assert longer[..m] == events[..m] && longer[n..m] == events[n..m];
  }

  lemma CheckpointExtends(c: Checkpoint, events: seq<Event>, e: Event)
    requires CheckpointInv(c, events) && Spells(events + [e], KindsThrough(c.w, c.next))
    requires TailGrounded(c.w, KindsThrough(c.w, c.next), events + [e], |KindsDone(c.w, c.next)|)
    ensures CheckpointInv(c, events + [e])
  {
    hide KindsThrough, KindsDone, Positioned, Chained, SnapshotMatches, TailGrounded, Spells;
    var n := |KindsDone(c.w, c.next)|;
    assert (events + [e])[..n] == events[..n];
  }

  /** New evidence grounded in the executor's state fits the checkpoint and the executor. */
  lemma {:induction false} AppendKeeps(c: Checkpoint, x: Exec, ks: seq<Kind>, n: nat, events: seq<Event>, e: Event)
    requires ks == KindsThrough(c.w, c.next) && n == |KindsDone(c.w, c.next)|
    requires CheckpointInv(c, events) && ExecInv(c, x, events) && |x.got| < |Kinds(x.node)|
    requires n + |x.got| == |events| && Grounded(NextKind(x), e, Work(x))
    ensures CheckpointInv(c, events + [e])
    ensures Executing(x.(looked := false), ks, n, events + [e])
  {
    hide KindsThrough, KindsDone, Positioned, Chained, SnapshotMatches, Grounded, Work, AbsorbAll, Kinds;
    hide Spells, TailGrounded, KindOf;
    NextAligned(x, ks, n, events);
    WorkIsReplay(x, ks, n, events);
    GroundedKind(NextKind(x), e, Work(x));
    SpellsExtends(events, ks, e);
    assert x.got == events[n..];
    TailExtends(c.w, ks, n, events, e);
    CheckpointExtends(c, events, e);
    ExecutingExtends(x, ks, n, events, e);
  }

  lemma WorkUnlooked(x: Exec)
    ensures Work(x.(looked := false)) == Work(x)
  {
  }

  lemma GroundedKind(k: Kind, e: Event, w: GraphState)
    requires Grounded(k, e, w)
    ensures KindOf(e) == Some(k) && (e.MatchingCompleted? <==> k == KMatch)
  {
  }

  /** The executor's next kind in the ledger: absent, or committed past its hand and grounded. */
  lemma NextEvidence(c: Checkpoint, x: Exec, ledger: seq<Event>, events: seq<Event>, m: nat)
    requires events == Evidences(ledger) && CheckpointInv(c, events) && ExecInv(c, x, events)
    requires |x.got| < |Kinds(x.node)| && m == |KindsDone(c.w, c.next)| + |x.got|
    ensures m <= |events|
    ensures Latest(ledger, NextKind(x)) == if m < |events| then Some(events[m]) else None
    ensures m < |events| ==> Grounded(NextKind(x), events[m], Work(x))
    ensures x.looked && x.node != ExceptionTriage ==> m == |events|
  {
    hide KindsThrough, KindsDone, Positioned, Chained, SnapshotMatches, TailGrounded;
    hide Kinds, Work, AbsorbAll, Latest, Evidences, Grounded, Spells, KindOf;
    var ks, n := KindsThrough(c.w, c.next), |KindsDone(c.w, c.next)|;
    NextAligned(x, ks, n, events);
    KindsOrdered(c.w, c.next);
    NextInLedger(x, ks, n, events);
    LatestEvidence(ledger, NextKind(x));
  }

  lemma NewEvidence(c: Checkpoint, x: Exec, ledger: seq<Event>, events: seq<Event>, e: Event)
    requires events == Evidences(ledger) && CheckpointInv(c, events) && ExecInv(c, x, events)
    requires |x.got| < |Kinds(x.node)| && |KindsDone(c.w, c.next)| + |x.got| == |events|
    requires Grounded(NextKind(x), e, Work(x))
    requires e.MatchingCompleted? ==> e.match_.snapshot == SnapshotSha(x.env.snapshot)
    ensures CheckpointInv(c, Evidences(ledger + [e]))
    ensures ExecInv(c, x.(looked := false, got := x.got + [e]), Evidences(ledger + [e]))
  {
    hide KindsThrough, KindsDone, Positioned, Chained, SnapshotMatches, TailGrounded;
    hide Kinds, Work, AbsorbAll, Evidences, Grounded, Spells, KindOf, CheckpointInv, Executing;
    var ks, n := KindsThrough(c.w, c.next), |KindsDone(c.w, c.next)|;
    GroundedKind(NextKind(x), e, Work(x));
    EvidencesAppend(ledger, e);
    AppendKeeps(c, x, ks, n, events, e);
    KindsOrdered(c.w, c.next);
    WorkUnlooked(x);
    WorkEnv(x, x.env);
    AdvanceKeeps(x.(looked := false), ks, n, x.env, events + [e], e);
  }

  lemma {:induction false} OldEvidence(c: Checkpoint, x: Exec, events: seq<Event>, e: Event)
    requires CheckpointInv(c, events) && ExecInv(c, x, events) && |x.got| < |Kinds(x.node)|
    requires var m := |KindsDone(c.w, c.next)| + |x.got|; m < |events| && events[m] == e
    requires Grounded(NextKind(x), e, Work(x)) && !e.MatchingCompleted?
    ensures ExecInv(c, x.(looked := false, got := x.got + [e]), events)
  {
    hide KindsThrough, KindsDone, Positioned, Chained, SnapshotMatches, TailGrounded;
    hide Kinds, Work, AbsorbAll, Grounded, Spells, KindOf, CheckpointInv, Executing;
    KindsOrdered(c.w, c.next);
    WorkEnv(x, x.env);
    AdvanceKeeps(x, KindsThrough(c.w, c.next), |KindsDone(c.w, c.next)|, x.env, events, e);
  }

  lemma TriageWrites(rows: Rows, t: Triage, newId: nat)
    ensures var (after, r) := PrepareTriage(rows, t, newId);
            match Latest(rows.ledger, KTriage)
            case None =>
              after.ledger == (if r.Ok? then rows.ledger + [TriagePrepared(t)] else rows.ledger) && (r.Ok? ==> r.value == t)
            case Some(e) => after.ledger == rows.ledger && (r.Ok? ==> e == TriagePrepared(r.value))
  {
    LatestKind(rows.ledger, KTriage);
  }

  /** A write keeps the ledger, the checkpoint and the executor in step. */
  lemma {:induction false} CommitKeeps(c: Checkpoint, x: Exec, rows: Rows, answer: Event, newId: nat)
    requires CheckpointInv(c, Evidences(rows.ledger)) && ExecInv(c, x, Evidences(rows.ledger))
    requires x.looked && |x.got| < |Kinds(x.node)|
    ensures var (after, t) := WriteEvidence(x, rows, answer, newId);
            && CheckpointInv(c, Evidences(after.ledger))
            && (t.Some? ==> ExecInv(c, t.value, Evidences(after.ledger)))
  {
    hide KindsThrough, KindsDone, Positioned, Chained, Ready, Fresh, SnapshotMatches, TailGrounded, Executing;
    hide ExecInv;
    hide Kinds, Work, AbsorbAll, Latest, Evidences, Grounded, Spells, CheckpointInv, PrepareTriage, KindOf;
    var events, k, m := Evidences(rows.ledger), NextKind(x), |KindsDone(c.w, c.next)| + |x.got|;
    if Ready(k, Work(x), x.env) && Fresh(k, answer, Work(x), x.env) {
      FreshFacts(k, answer, Work(x), x.env);
      NextEvidence(c, x, rows.ledger, events, m);
      TriageNode(x.node, |x.got|);
      if k == KTriage {
        TriageWrites(rows, answer.triage, newId);
      }
      if m == |events| {
        NewEvidence(c, x, rows.ledger, events, answer);
      } else {
        GroundedKind(k, events[m], Work(x));
        OldEvidence(c, x, events, events[m]);
      }
    }
  }

  lemma FreshFacts(k: Kind, e: Event, w: GraphState, env: Env)
    requires Ready(k, w, env) && Fresh(k, e, w, env)
    ensures Grounded(k, e, w) && KindOf(e) == Some(k)
    ensures e.MatchingCompleted? ==> e.match_.snapshot == SnapshotSha(env.snapshot)
    ensures k == KTriage ==> e.TriagePrepared?
  {
  }

  lemma GateHasRoute(x: Exec, ks: seq<Kind>, n: nat, events: seq<Event>)
    requires Executing(x, ks, n, events) && x.node == GateNode && |x.got| == 1
    ensures Work(x).gate.Some? && Work(x).gate.value.route != RejectRoute
  {
    assert Kinds(x.node) == [KGate];
    assert ks[..n + 1][n] == ks[n..][0] == KGate;
    assert Backed(KGate, events[..n + 1][n], Work(x)) by { hide Work, AbsorbAll, Backed; }
  }

  lemma NodeWorked(x: Exec, ks: seq<Kind>, n: nat, events: seq<Event>)
    requires Spells(events, ks) && Executing(x, ks, n, events) && |x.got| == |Kinds(x.node)|
    ensures Worked(x.node, x.base, Work(x))
  {
    hide Executing, Work, AbsorbAll, Chained, SnapshotMatches;
    WorkKept(x, ks, n, events);
    if x.node == GateNode {
      GateHasRoute(x, ks, n, events);
    }
  }

  lemma ArchiveIsLast(w: GraphState, node: Node)
    requires KArchive in KindsThrough(w, Some(node))
    ensures node == Archive
  {
    KindsThroughSplit(w, Some(node));
    hide KindsThrough;
  }

  /** A checkpoint whose evidence is exactly the evidence of its completed nodes. */
  lemma SettledCheckpoint(c: Checkpoint, events: seq<Event>)
    requires Positioned(c.w, c.next)
    requires Chained(c.w, KindsDone(c.w, c.next), events) && SnapshotMatches(c.w, KindsDone(c.w, c.next))
    ensures CheckpointInv(c, events)
  {
    hide KindsDone, Positioned, SnapshotMatches, EventOf, Grounded;
    assert events[..|events|] == events;
  }

  /** Executing the next node starts from the checkpoint. */
  lemma StartKeeps(c: Checkpoint, decision: Option<ReviewDecision>, events: seq<Event>)
    requires CheckpointInv(c, events) && c.next.Some? && (c.next == Some(HumanReview) ==> decision.Some?)
    ensures ExecInv(c, Starting(c, decision), events)
  {
    hide KindsDone, Positioned, SnapshotMatches, Chained, Kinds;
    var x, ks, n := Starting(c, decision), KindsThrough(c.w, c.next), |KindsDone(c.w, c.next)|;
    assert Work(x) == c.w;
    assert ks[..n] == KindsDone(c.w, c.next) && ks[n..] == Kinds(x.node);
  }

  lemma FinishMatches(w: GraphState, ks: seq<Kind>, node: Node)
    requires SnapshotMatches(w, ks)
    ensures SnapshotMatches(Finish(node, w), ks)
  {
  }

  /** The checkpoint after a node: the validator accepts it and its evidence is the ledger's. */
  lemma CheckpointKeeps(c: Checkpoint, x: Exec, events: seq<Event>)
    requires CheckpointInv(c, events) && ExecInv(c, x, events) && |x.got| == |Kinds(x.node)|
    ensures var w := Finish(x.node, Work(x));
            ValidProgress(w) && CheckpointInv(Checkpoint(w, Successor(x.node, w)), events)
  {
    hide KindsThrough, KindsDone, Positioned, Chained, SnapshotMatches, TailGrounded;
    hide Work, AbsorbAll, Spells, Kinds, Finish, ValidProgress, Successor;
    var ks, n, w := KindsThrough(c.w, c.next), |KindsDone(c.w, c.next)|, Finish(x.node, Work(x));
    NodeWorked(x, ks, n, events);
    FinishPositioned(x.node, c.w, Work(x));
    FinishKinds(x.node, c.w, Work(x));
    PositionedIsValid(w, Successor(x.node, w));
    KindsLength(c.w, c.next);
    SpellsLength(events, ks);
    assert ks[..|ks|] == ks && events[..|events|] == events;
    if KArchive in ks {
      ArchiveIsLast(c.w, x.node);
    }
    ChainedFinish(Work(x), ks, events, x.node);
    FinishMatches(Work(x), ks, x.node);
    SettledCheckpoint(Checkpoint(w, Successor(x.node, w)), events);
  }

  lemma KindsLength(w: GraphState, next: Option<Node>)
    ensures |KindsThrough(w, next)| == |KindsDone(w, next)| + if next.Some? then |Kinds(next.value)| else 0
  {
    hide KindsDone, Kinds;
  }

  lemma SpellsLength(events: seq<Event>, ks: seq<Kind>)
    requires Spells(events, ks)
    ensures |events| <= |ks|
  {
  }
}
