/** The two-person decision protocol (api/decision_service.py). */
module Decisions {
  import opened Domain
  import opened Tables

  datatype DecisionRequest = DecisionRequest(
    action: Action, rationale: string, reasonCode: string, proposalId: Option<nat>)

  datatype Stage = PendingSignoff | QueuedForResume

  datatype DecisionResponse = DecisionResponse(
    decisionId: nat, exceptionId: nat, action: Action, actor: Actor, stage: Stage, proposalId: Option<nat>)

  /** `Invalid`: the schema of the request refuses it before the service is called. */
  datatype DecisionError = NotFound | Conflict | Unavailable | Invalid

  predicate ValidRequest(r: DecisionRequest) {
    ValidReasonCode(r.reasonCode) && ValidRationale(r.rationale)
  }

  /** The committed decision that used this idempotency key (the key column is unique). */
  function ByKey(decisions: seq<Decision>, key: string): Option<Decision> {
    if decisions == [] then None
    else if decisions[|decisions| - 1].key == key then Some(decisions[|decisions| - 1])
    else ByKey(decisions[..|decisions| - 1], key)
  }

  function ById(decisions: seq<Decision>, id: nat): Option<Decision> {
    if decisions == [] then None
    else if decisions[|decisions| - 1].id == id then Some(decisions[|decisions| - 1])
    else ById(decisions[..|decisions| - 1], id)
  }

  /** The decisions of one exception, oldest first. */
  function For(decisions: seq<Decision>, exceptionId: nat): seq<Decision> {
    if decisions == [] then []
    else
      var last := decisions[|decisions| - 1];
      For(decisions[..|decisions| - 1], exceptionId) + if last.exceptionId == exceptionId then [last] else []
  }

  predicate SameContent(d: Decision, exceptionId: nat, request: DecisionRequest, role: Actor) {
    && d.exceptionId == exceptionId && d.action == request.action && d.rationale == request.rationale
    && d.reasonCode == request.reasonCode && d.actor == role && d.supersedes == request.proposalId
  }

  function ResponseOf(d: Decision): DecisionResponse {
    DecisionResponse(d.id, d.exceptionId, d.action, d.actor,
                     if d.actor == Analyst then PendingSignoff else QueuedForResume, d.supersedes)
  }

  /** What the state of the exception has against this decision, if anything. */
  function Objection(rows: Rows, exc: ExceptionRow, request: DecisionRequest, role: Actor): Option<DecisionError> {
    var decisions := For(rows.decisions, exc.id);
    if rows.run.status != Paused || exc.status !in {Open, InReview} then Some(Conflict)
    else if role == Analyst then
      if request.proposalId != None || decisions != [] || exc.status != Open then Some(Conflict) else None
    else if request.proposalId == None || |decisions| != 1 then Some(Conflict)
    else
      var proposal := decisions[0];
      if Some(proposal.id) != request.proposalId || proposal.actor != Analyst || proposal.supersedes != None then
        Some(Conflict)
      else if request.action == Approve && proposal.action != Approve then Some(Conflict)
      else if exc.status != InReview then Some(Conflict)
      else None
  }

  /** One submission; `newId` is the identifier drawn for a new decision. */
  function Submit(rows: Rows, exceptionId: nat, request: DecisionRequest, role: Actor, key: string, newId: nat)
    : (Rows, Result<DecisionResponse, DecisionError>)
  {
    if !ValidRequest(request) then (rows, Err(Invalid))
    else if role == AuditorRole then (rows, Err(Conflict))
    else
      match ByKey(rows.decisions, key)
      case Some(existing) =>
        if SameContent(existing, exceptionId, request, role) then (rows, Ok(ResponseOf(existing)))
        else (rows, Err(Conflict))
      case None =>
        if rows.exc == None || rows.exc.value.id != exceptionId then (rows, Err(NotFound))
        else
          match Objection(rows, rows.exc.value, request, role)
          case Some(error) => (rows, Err(error))
          case None =>
            if ById(rows.decisions, newId).Some? then (rows, Err(Unavailable)) // primary key violation
            else
              var d := Decision(newId, exceptionId, key, request.action, request.rationale, request.reasonCode,
                                role, request.proposalId);
              (rows.(decisions := rows.decisions + [d],
                     exc := if role == Analyst then Some(rows.exc.value.(status := InReview)) else rows.exc,
                     ledger := rows.ledger + [if role == Analyst then DecisionProposed(newId, request.action)
                                              else DecisionAccepted(newId, request.action)]),
               Ok(ResponseOf(d)))
  }

  class DecisionService {
    const tables: InvoiceTables

    constructor (tables: InvoiceTables)
      ensures this.tables == tables
    {
      this.tables := tables;
    }

    method SubmitDecision(exceptionId: nat, request: DecisionRequest, role: Actor, key: string, newId: nat)
      returns (r: Result<DecisionResponse, DecisionError>)
      modifies tables
      ensures (tables.View(), r) == Submit(old(tables.View()), exceptionId, request, role, key, newId)
    {
      if !ValidRequest(request) {
        return Err(Invalid);
      }
      if role == AuditorRole {
        return Err(Conflict);
      }
      var existing := ByKey(tables.decisions, key);
      if existing.Some? {
        if !SameContent(existing.value, exceptionId, request, role) {
          return Err(Conflict);
        }
        return Ok(ResponseOf(existing.value));
      }
      if tables.exc.None? || tables.exc.value.id != exceptionId {
        return Err(NotFound);
      }
      var exc := tables.exc.value;
      if tables.run.status != Paused || exc.status !in {Open, InReview} {
        return Err(Conflict);
      }
      var decisions := For(tables.decisions, exceptionId);
      var stage: Stage;
      if role == Analyst {
        if request.proposalId != None || decisions != [] || exc.status != Open {
          return Err(Conflict);
        }
        stage := PendingSignoff;
      } else {
        if request.proposalId == None || |decisions| != 1 {
          return Err(Conflict);
        }
        var proposal := decisions[0];
        if Some(proposal.id) != request.proposalId || proposal.actor != Analyst || proposal.supersedes != None {
          return Err(Conflict);
        }
        if request.action == Approve && proposal.action != Approve {
          return Err(Conflict);
        }
        if exc.status != InReview {
          return Err(Conflict);
        }
        stage := QueuedForResume;
      }
      if ById(tables.decisions, newId).Some? {
        return Err(Unavailable);
      }
      tables.decisions := tables.decisions + [
        Decision(newId, exceptionId, key, request.action, request.rationale, request.reasonCode, role, request.proposalId)];
      if role == Analyst {
        tables.exc := Some(exc.(status := InReview));
      }
      tables.ledger := tables.ledger + [if role == Analyst then DecisionProposed(newId, request.action)
                                        else DecisionAccepted(newId, request.action)];
      r := Ok(DecisionResponse(newId, exceptionId, request.action, role, stage, request.proposalId));
    }
  }

  // ---------------------------------------------------------------- the shape of the decisions table

  predicate UniqueKeys(decisions: seq<Decision>) {
    forall i, j | 0 <= i < j < |decisions| ::
      decisions[i].key != decisions[j].key && decisions[i].id != decisions[j].id
  }

  predicate ProposalShape(p: Decision) {
    p.actor == Analyst && p.supersedes == None
  }

  predicate SignoffShape(p: Decision, m: Decision) {
    && m.actor == Manager && m.supersedes == Some(p.id) && m.id != p.id
    && (m.action == Approve ==> p.action == Approve)
  }

  /** No decision, one analyst proposal, or a proposal and the manager decision superseding it. */
  predicate FourEyes(decisions: seq<Decision>) {
    && |decisions| <= 2
    && (|decisions| >= 1 ==> ProposalShape(decisions[0]))
    && (|decisions| == 2 ==> SignoffShape(decisions[0], decisions[1]))
  }

  lemma ForAppend(decisions: seq<Decision>, d: Decision, exceptionId: nat)
    ensures For(decisions + [d], exceptionId)
         == For(decisions, exceptionId) + if d.exceptionId == exceptionId then [d] else []
  {
    assert (decisions + [d])[..|decisions|] == decisions;
  }

  lemma {:induction false} ForMember(decisions: seq<Decision>, exceptionId: nat, d: Decision)
    ensures d in For(decisions, exceptionId) <==> d in decisions && d.exceptionId == exceptionId
  {
    if decisions != [] {
      var front, last := decisions[..|decisions| - 1], decisions[|decisions| - 1];
      assert decisions == front + [last];
      ForMember(front, exceptionId, d);
    }
  }

  lemma {:induction false} ByIdFinds(decisions: seq<Decision>, id: nat)
    ensures ByIdIs(decisions, id, ById(decisions, id))
  {
    if decisions != [] {
      var front, last := decisions[..|decisions| - 1], decisions[|decisions| - 1];
      assert decisions == front + [last];
      ByIdFinds(front, id);
    }
  }

  predicate ByIdIs(decisions: seq<Decision>, id: nat, found: Option<Decision>) {
    match found
    case None => forall d <- decisions :: d.id != id
    case Some(d) => d in decisions && d.id == id
  }

  lemma {:induction false} ByKeyFinds(decisions: seq<Decision>, key: string)
    ensures match ByKey(decisions, key)
            case None => forall d <- decisions :: d.key != key
            case Some(d) => d in decisions && d.key == key
  {
    if decisions != [] {
      var front, last := decisions[..|decisions| - 1], decisions[|decisions| - 1];
      assert decisions == front + [last];
      ByKeyFinds(front, key);
    }
  }

  /** A replayed key returns the original response when every field agrees and a conflict
  otherwise; either way nothing is written. */
  lemma ReplayedKey(rows: Rows, d: Decision, exceptionId: nat, request: DecisionRequest, role: Actor, newId: nat)
    requires UniqueKeys(rows.decisions) && d in rows.decisions
    ensures var (after, r) := Submit(rows, exceptionId, request, role, d.key, newId);
            && after == rows
            && r == if !ValidReasonCode(request.reasonCode) || !ValidRationale(request.rationale) then Err(Invalid)
                    else if && d.exceptionId == exceptionId && d.actor == role != AuditorRole
                            && DecisionRequest(d.action, d.rationale, d.reasonCode, d.supersedes) == request
                    then Ok(DecisionResponse(d.id, exceptionId, d.action, role,
                                             if role == Analyst then PendingSignoff else QueuedForResume, d.supersedes))
                    else Err(Conflict)
  {
    ByKeyFinds(rows.decisions, d.key);
    var e := ByKey(rows.decisions, d.key).value;
    assert e == d by {
      var i :| 0 <= i < |rows.decisions| && rows.decisions[i] == d;
      var j :| 0 <= j < |rows.decisions| && rows.decisions[j] == e;
      assert i == j;
    }
  }

  lemma SubmitKeepsUnique(rows: Rows, exceptionId: nat, request: DecisionRequest, role: Actor, key: string, newId: nat)
    requires UniqueKeys(rows.decisions)
    ensures UniqueKeys(Submit(rows, exceptionId, request, role, key, newId).0.decisions)
  {
    ByKeyFinds(rows.decisions, key);
    ByIdFinds(rows.decisions, newId);
  }

  /** Every submission keeps the exception's decisions in the four-eyes shape. */
  lemma SubmitKeepsFourEyes(rows: Rows, exceptionId: nat, request: DecisionRequest, role: Actor, key: string, newId: nat)
    requires rows.exc.Some? && FourEyes(For(rows.decisions, rows.exc.value.id))
    ensures FourEyes(For(Submit(rows, exceptionId, request, role, key, newId).0.decisions, rows.exc.value.id))
  {
    var after := Submit(rows, exceptionId, request, role, key, newId).0;
    if after != rows {
      var id := rows.exc.value.id;
      var d := after.decisions[|rows.decisions|];
      ForAppend(rows.decisions, d, id);
      var mine := For(rows.decisions, id);
      if mine != [] {
        ForMember(rows.decisions, id, mine[0]);
        ByIdFinds(rows.decisions, newId);
      }
    }
  }
}
