/** The durable protocol's executor against the engine of graph/invoice.py: seen at its checkpoints, every
run of the protocol is a run of that engine, which the second engine refines. */
module EngineRuns {
  import opened Domain
  import opened Graph
  import opened Services
  import opened Decisions
  import opened Protocol
  import opened GraphInvariant
  import opened Invariant
  import opened Replay
  import Adk

  /** The engine's stored workflow is the checkpoint, alive while an executor holds the run lock. */
  predicate Mirrors(s: State, g: Adk.Stored<Node>) {
    match s.ckpt
    case None => g.Absent? && s.exec == None
    case Some(c) =>
      && g.Stored? && g.w == c.w && g.next == c.next && (g.alive <==> s.exec.Some?)
      && (s.exec.Some? ==> g.input == s.exec.value.env.decision)
  }

  /** Every service of the node has answered. */
  predicate Answered(s: State) {
    s.exec.Some? && !s.exec.value.looked && |s.exec.value.got| == |Kinds(s.exec.value.node)|
  }

  /** What the engine does at a step of the protocol. A review nobody decided yet interrupts it. */
  function Acts(s: State, p: Params, step: Step): seq<Adk.Act> {
    match step
    case RunStep(asOf) => [Adk.Run(InitialState(asOf, p.contentHash, p.duplicate))]
    case ResumeStep(decisionId) =>
      var d := Signoff(s.rows, decisionId);
      if d.Some? && s.rows.run.status in {Paused, Completed} then [Adk.Resume(ReviewOf(d.value))] else []
    case CheckpointStep =>
      if !Answered(s) then []
      else
        var answer := Adk.Step(Work(s.exec.value));
        if s.exec.value.node == ExceptionTriage then [answer, answer] else [answer]
    case _ => if s.exec.Some? && Apply(s, p, step).exec == None then [Adk.Die] else []
  }

  function ActAll(g: Adk.Stored<Node>, acts: seq<Adk.Act>): Adk.Stored<Node> {
    if acts == [] then g else Adk.GraphAct(ActAll(g, acts[..|acts| - 1]), acts[|acts| - 1])
  }

  lemma ActOne(g: Adk.Stored<Node>, a: Adk.Act)
    ensures ActAll(g, [a]) == Adk.GraphAct(g, a) && ActAll(g, [a, a]) == Adk.GraphAct(Adk.GraphAct(g, a), a)
  {
    hide Adk.GraphAct;
    assert [a][..0] == [] && [a, a][..1] == [a];
    assert ActAll(g, [a]) == Adk.GraphAct(g, a);
  }

  lemma RunMirrors(s: State, p: Params, g: Adk.Stored<Node>, asOf: int)
    requires Mirrors(s, g)
    ensures Mirrors(RunEntry(s, p, asOf), Adk.GraphAct(g, Adk.Run(InitialState(asOf, p.contentHash, p.duplicate))))
  {
    hide ValidHash;
  }

  lemma ResumeMirrors(s: State, g: Adk.Stored<Node>, decisionId: nat)
    requires Mirrors(s, g)
    ensures var d := Signoff(s.rows, decisionId);
            Mirrors(ResumeEntry(s, decisionId),
                    if d.Some? && s.rows.run.status in {Paused, Completed} then Adk.GraphAct(g, Adk.Resume(ReviewOf(d.value))) else g)
  {
    hide Signoff;
  }

  lemma {:induction false} ReviewKept(w: GraphState, got: seq<Event>, env: Env)
    requires forall e <- got :: !e.ReviewRecorded?
    ensures AbsorbAll(w, got, env).review == w.review
  {
    if got != [] {
      ReviewKept(w, got[..|got| - 1], env);
    }
  }

  /** The evidence an executor holds is of its node's kinds, and backs its working state. */
  lemma {:induction false} GotBacked(c: Checkpoint, x: Exec, events: seq<Event>, i: nat)
    requires CheckpointInv(c, events) && ExecInv(c, x, events) && i < |x.got| <= |Kinds(x.node)|
    ensures Backed(Kinds(x.node)[i], x.got[i], Work(x))
  {
    hide Backed, KindsDone, KindsThrough, Positioned, SnapshotMatches, TailGrounded, Kinds, Work;
    var ks, n := KindsThrough(c.w, c.next), |KindsDone(c.w, c.next)|;
    assert x.got[i] == events[n + i] && ks[n..][i] == ks[n + i];
    assert Backed(ks[..n + |x.got|][n + i], events[..n + |x.got|][n + i], Work(x));
  }

  /** Any node but the review leaves the review alone. */
  lemma {:induction false} OthersKeepReview(c: Checkpoint, x: Exec, events: seq<Event>)
    requires CheckpointInv(c, events) && ExecInv(c, x, events) && |x.got| <= |Kinds(x.node)| && x.node != HumanReview
    ensures Work(x).review == x.base.review
  {
    hide CheckpointInv, ExecInv, EventOf, Grounded;
    forall e | e in x.got ensures !e.ReviewRecorded? {
      var i :| 0 <= i < |x.got| && x.got[i] == e;
      GotBacked(c, x, events, i);
    }
    ReviewKept(x.base, x.got, x.env);
  }

  lemma AbsorbedReview(w: GraphState, d: ReviewDecision, env: Env)
    ensures AbsorbAll(w, [ReviewRecorded(d)], env) == w.(review := Some(d))
  {
    assert [ReviewRecorded(d)][..0] == [];
  }

  /** A finished review put in the decision it resumed with. */
  lemma {:induction false} ReviewIsTheDecision(s: State, p: Params)
    requires Inv(s, p) && Answered(s) && s.exec.value.node == HumanReview
    ensures var x := s.exec.value; x.env.decision.Some? && Work(x) == x.base.(review := x.env.decision)
  {
    hide Evidences, CheckpointInv, ExecInv, TableInv, Latest, RowsInv;
    var c, x, events := s.ckpt.value, s.exec.value, Evidences(s.rows.ledger);
    ReviewCommitted(c, x, events);
    LatestEvidence(s.rows.ledger, KReview);
    DecisionHeld(c, x, events);
    ReviewAgrees(s, x);
    hide Inv;
    assert x.got == [ReviewRecorded(x.env.decision.value)];
    AbsorbedReview(x.base, x.env.decision.value, x.env);
  }

  lemma DecisionHeld(c: Checkpoint, x: Exec, events: seq<Event>)
    requires ExecInv(c, x, events) && x.node == HumanReview
    ensures x.env.decision.Some?
  {
  }

  lemma {:induction false} ReviewCommitted(c: Checkpoint, x: Exec, events: seq<Event>)
    requires CheckpointInv(c, events) && ExecInv(c, x, events) && |x.got| == 1 && x.node == HumanReview
    ensures Latest(events, KReview) == Some(x.got[0])
  {
    hide Backed, Positioned, SnapshotMatches, TailGrounded, Latest, KindsDone, KindsThrough, Work;
    var ks, n := KindsThrough(c.w, c.next), |KindsDone(c.w, c.next)|;
    assert x.got[0] == events[n] && ks[n..][0] == ks[n];
    KindsOrdered(c.w, c.next);
    LatestAligned(events, ks, n);
  }

  /** A triage in progress was not resumed with a decision. */
  lemma {:induction false} TriageUndecided(s: State, p: Params)
    requires Inv(s, p) && s.exec.Some? && s.exec.value.node == ExceptionTriage
    ensures s.exec.value.env.decision == None
  {
    var c, events := s.ckpt.value, Evidences(s.rows.ledger);
    TriageKindsOnly(c, events);
    hide Evidences, CheckpointInv, TableInv, Latest, FourEyes, Executing, KindsDone, Mine, Handled;
  }

  lemma TriageKindsOnly(c: Checkpoint, events: seq<Event>)
    requires CheckpointInv(c, events) && c.next == Some(ExceptionTriage)
    ensures Latest(events, KArchive) == None && Latest(events, KReject) == None
    ensures KTriage !in KindsDone(c.w, c.next)
  {
    var ks := KindsThrough(c.w, c.next);
    assert KArchive !in ks && KReject !in ks;
    LatestAbsent(events, ks, KArchive);
    LatestAbsent(events, ks, KReject);
  }

  /** A checkpoint is the engine's execution of the node. */
  lemma {:induction false} CheckpointMirrors(s: State, p: Params, g: Adk.Stored<Node>)
    requires Inv(s, p) && Mirrors(s, g) && Answered(s)
    ensures var a := Adk.Step(Work(s.exec.value));
            var once := Adk.GraphAct(g, a);
            Mirrors(WriteCheckpoint(s), if s.exec.value.node == ExceptionTriage then Adk.GraphAct(once, a) else once)
  {
    hide CheckpointInv, ExecInv, Evidences, TableInv, RowsInv, Work, Kinds;
    var c, x, events := s.ckpt.value, s.exec.value, Evidences(s.rows.ledger);
    CheckpointKeeps(c, x, events);
    WorkedThere(s, p);
    if x.node == HumanReview {
      ReviewIsTheDecision(s, p);
    } else {
      OthersKeepReview(c, x, events);
      if x.node == ExceptionTriage {
        TriageUndecided(s, p);
      }
    }
    hide Inv, Finish, ValidProgress, Worked;
    NodeExecuted(c, x, g);
  }

  lemma {:induction false} NodeExecuted(c: Checkpoint, x: Exec, g: Adk.Stored<Node>)
    requires g == Adk.Stored(c.w, c.next, true, x.env.decision) && x.base == c.w && Some(x.node) == c.next
    requires Worked(x.node, c.w, Work(x))
    requires if x.node == HumanReview then x.env.decision.Some? && Work(x) == x.base.(review := x.env.decision)
             else Work(x).review == x.base.review
    ensures var w := Finish(x.node, Work(x));
            var next := Successor(x.node, w);
            Adk.GraphAct(g, Adk.Step(Work(x))) == Adk.Stored(w, next, next.Some?, x.env.decision)
  {
    hide Finish, Work, Worked;
  }

  lemma {:induction false} WorkedThere(s: State, p: Params)
    requires Inv(s, p) && Answered(s)
    ensures Worked(s.exec.value.node, s.ckpt.value.w, Work(s.exec.value))
    ensures s.exec.value.base == s.ckpt.value.w && Some(s.exec.value.node) == s.ckpt.value.next
  {
    hide KindsDone, KindsThrough, Positioned, Chained, SnapshotMatches, TailGrounded, Evidences, TableInv, RowsInv;
    hide Kinds, Work, Worked, Spells;
    var c := s.ckpt.value;
    NodeWorked(s.exec.value, KindsThrough(c.w, c.next), |KindsDone(c.w, c.next)|, Evidences(s.rows.ledger));
  }

  /** Any other step leaves the checkpoint alone, or ends the executor. */
  lemma OthersMirror(s: State, p: Params, g: Adk.Stored<Node>, step: Step)
    requires Mirrors(s, g) && !step.RunStep? && !step.ResumeStep? && !step.CheckpointStep?
    ensures var t := Apply(s, p, step);
            Mirrors(t, if s.exec.Some? && t.exec == None then Adk.GraphAct(g, Adk.Die) else g)
  {
    hide Ready, Fresh, Accepts, Latest, Work, Kinds, Signoff, For, ByKey, ById, Objection, SameContent, ValidRequest;
  }

  lemma {:induction false} StepMirrors(s: State, p: Params, g: Adk.Stored<Node>, step: Step)
    requires Inv(s, p) && Mirrors(s, g)
    ensures Mirrors(Apply(s, p, step), ActAll(g, Acts(s, p, step)))
  {
    hide Inv, Mirrors, Adk.GraphAct, RunEntry, ResumeEntry, WriteCheckpoint, Look, Commit, Work, Kinds, Signoff;
    match step
    case RunStep(asOf) =>
      RunMirrors(s, p, g, asOf);
      ActOne(g, Adk.Run(InitialState(asOf, p.contentHash, p.duplicate)));
    case ResumeStep(decisionId) =>
      ResumeMirrors(s, g, decisionId);
      var d := Signoff(s.rows, decisionId);
      if d.Some? {
        ActOne(g, Adk.Resume(ReviewOf(d.value)));
      }
    case CheckpointStep =>
      if Answered(s) {
        CheckpointMirrors(s, p, g);
        ActOne(g, Adk.Step(Work(s.exec.value)));
      } else {
        NotYet(s);
      }
    case _ =>
      OthersMirror(s, p, g, step);
      ActOne(g, Adk.Die);
  }

  lemma NotYet(s: State)
    requires !Answered(s)
    ensures WriteCheckpoint(s) == s
  {
  }

  function ActsOf(p: Params, steps: seq<Step>): seq<Adk.Act> {
    if steps == [] then []
    else ActsOf(p, steps[..|steps| - 1]) + Acts(Run(Init(), p, steps[..|steps| - 1]), p, steps[|steps| - 1])
  }

  lemma {:induction false} ActAllConcat(acts: seq<Adk.Act>, more: seq<Adk.Act>)
    ensures Adk.GraphRun(acts + more) == ActAll(Adk.GraphRun(acts), more)
  {
    if more == [] {
      assert acts + more == acts;
    } else {
      hide Adk.GraphAct;
      assert (acts + more)[..|acts + more| - 1] == acts + more[..|more| - 1];
      ActAllConcat(acts, more[..|more| - 1]);
    }
  }

  /** Whatever workers, people and crashes do, the checkpoint of the protocol is the workflow the engine stores
  when it is run, resumed and killed at the same points. */
  lemma {:induction false} ProtocolRunsEngine(p: Params, steps: seq<Step>)
    requires p.retry.maxAttempts >= 1
    ensures Mirrors(Run(Init(), p, steps), Adk.GraphRun(ActsOf(p, steps)))
  {
    if steps != [] {
      hide Inv, Apply, Mirrors, Acts, Adk.GraphRun;
      var front, last := steps[..|steps| - 1], steps[|steps| - 1];
      var s := Run(Init(), p, front);
      ProtocolRunsEngine(p, front);
      InitInv(p);
      RunsKeepInv(Init(), p, front);
      StepMirrors(s, p, Adk.GraphRun(ActsOf(p, front)), last);
      ActAllConcat(ActsOf(p, front), Acts(s, p, last));
    }
  }
}
