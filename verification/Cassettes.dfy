/** Recorded gateway conversations (gateway_client/cassettes.py): one invocation records the outcomes
of its HTTP attempts, a later one plays them back. */
module Cassettes {
  import opened Domain

  type Json = int

  /** What a request's fingerprint is taken of. */
  datatype RequestContent = RequestContent(verb: string, path: string, body: Json, schemaHash: Option<string>)

  datatype Identity = Identity(alias: string, scenario: string, promptVersion: string, request: RequestContent)

  /** A request; without an identity its cassette headers are missing or malformed. */
  datatype Request = Request(identity: Option<Identity>)

  datatype Outcome =
    | RecordedResponse(status: int, headers: map<string, string>, response: Json)
    | RecordedTimeout
    | RecordedConnectionError

  /** What the upstream does with one request. */
  datatype Answer =
    | Reply(status: int, headers: map<string, string>, body: Option<Json>)
    | TimedOut
    | Unreachable
    | CallerCancelled

  datatype Cassette = CassetteSequence(identity: Identity, outcomes: seq<Outcome>)
                    | LegacyCassette(identity: Identity, status: int, headers: map<string, string>, response: Json)

  datatype CallError = Mismatch | Interrupted

  datatype Invocation = Invocation(
    identity: Option<Identity>, reserved: bool, recordable: bool, outcomes: seq<Outcome>, replay: seq<Outcome>, index: nat)

  const STARTED := Invocation(None, false, true, [], [], 0)

  function Lower(c: char): char {
    if 'A' <= c <= 'Z' then (c as int + 32) as char else c
  }

  function LowerAll(s: string): (t: string)
    ensures |t| == |s|
  {
    if s == "" then "" else [Lower(s[0])] + LowerAll(s[1..])
  }

  predicate RetainedName(name: string) {
    LowerAll(name) in {"content-type", "retry-after", "x-litellm-response-cost"}
  }

  function Retained(headers: map<string, string>): map<string, string> {
    map name | name in headers && RetainedName(name) :: headers[name]
  }

  /** The outcome one answer is recorded as; none for an answer that cannot be recorded. */
  function OutcomeOf(answer: Answer): Option<Outcome> {
    match answer
    case Reply(status, headers, Some(body)) =>
      if 100 <= status <= 599 then Some(RecordedResponse(status, Retained(headers), body)) else None
    case TimedOut => Some(RecordedTimeout)
    case Unreachable => Some(RecordedConnectionError)
    case _ => None
  }

  /** The first request fixes the identity of the invocation; later ones must repeat it. */
  predicate SameIdentity(inv: Invocation, request: Request) {
    request.identity.Some? && (inv.identity == None || inv.identity == request.identity)
  }

  /** One recorded attempt. `free` is whether the reservation, made once, succeeds. */
  function Record(inv: Invocation, request: Request, free: bool, answer: Answer): (Invocation, Result<Outcome, CallError>) {
    if !SameIdentity(inv, request) then (inv.(recordable := false), Err(Mismatch))
    else if inv.identity == None && !free then
      (inv.(identity := request.identity, recordable := false), Err(Mismatch))
    else
      var begun := if inv.identity == None then inv.(identity := request.identity, reserved := true) else inv;
      match OutcomeOf(answer)
      case Some(o) => (begun.(outcomes := begun.outcomes + [o]), Ok(o))
      case None => (begun.(recordable := false), Err(if answer.CallerCancelled? then Interrupted else Mismatch))
  }

  /** A committed cassette as a sequence; the legacy form holds a single response. */
  function Outcomes(c: Cassette): seq<Outcome> {
    match c
    case CassetteSequence(_, outcomes) => outcomes
    case LegacyCassette(_, status, headers, response) => [RecordedResponse(status, headers, response)]
  }

  predicate ValidCassette(c: Cassette) {
    1 <= |Outcomes(c)| <= 6
  }

  /** One replayed attempt against the stored cassette, if there is a valid one. */
  function Replay(inv: Invocation, request: Request, stored: Option<Cassette>): (Invocation, Result<Outcome, CallError>) {
    if !SameIdentity(inv, request) then (inv.(recordable := false), Err(Mismatch))
    else
      var begun := inv.(identity := request.identity);
      if inv.identity == None && (stored == None || !ValidCassette(stored.value) || Some(stored.value.identity) != request.identity) then
        (begun.(recordable := false), Err(Mismatch))
      else
        var loaded := if inv.identity == None then begun.(replay := Outcomes(stored.value)) else begun;
        if loaded.index >= |loaded.replay| then (loaded.(recordable := false), Err(Mismatch))
        else (loaded.(index := loaded.index + 1), Ok(loaded.replay[loaded.index]))
  }

  datatype Ending = Nothing | Publish(cassette: Cassette) | Refuse

  function FinishRecord(inv: Invocation): Ending {
    if !inv.recordable || inv.identity == None || inv.outcomes == [] then Nothing
    else if |inv.outcomes| > 6 then Refuse
    else Publish(CassetteSequence(inv.identity.value, inv.outcomes))
  }

  function FinishReplay(inv: Invocation): Ending {
    if inv.recordable && inv.identity.Some? && inv.index != |inv.replay| then Refuse else Nothing
  }

  class CassetteInvocation {
    var identity: Option<Identity>
    var reserved: bool
    var recordable: bool
    var outcomes: seq<Outcome>
    var replay: seq<Outcome>
    var index: nat

    ghost function View(): Invocation
      reads this
    {
      Invocation(identity, reserved, recordable, outcomes, replay, index)
    }

    constructor ()
      ensures View() == STARTED
    {
      identity := None;
      reserved := false;
      recordable := true;
      outcomes := [];
      replay := [];
      index := 0;
    }

    method RecordRequest(request: Request, free: bool, answer: Answer) returns (r: Result<Outcome, CallError>)
      modifies this
      ensures (View(), r) == Record(old(View()), request, free, answer)
    {
      if request.identity.None? {
        recordable := false;
        return Err(Mismatch);
      }
      if identity.None? {
        identity := request.identity;
        if !free {
          recordable := false;
          return Err(Mismatch);
        }
        reserved := true;
      } else if identity != request.identity {
        recordable := false;
        return Err(Mismatch);
      }
      var outcome := OutcomeOf(answer);
      if outcome.None? {
        recordable := false;
        return Err(if answer.CallerCancelled? then Interrupted else Mismatch);
      }
      outcomes := outcomes + [outcome.value];
      r := Ok(outcome.value);
    }

    method ReplayRequest(request: Request, stored: Option<Cassette>) returns (r: Result<Outcome, CallError>)
      modifies this
      ensures (View(), r) == Replay(old(View()), request, stored)
    {
      if request.identity.None? || (identity.Some? && identity != request.identity) {
        recordable := false;
        return Err(Mismatch);
      }
      if identity.None? {
        identity := request.identity;
        if stored.None? || !ValidCassette(stored.value) || Some(stored.value.identity) != request.identity {
          recordable := false;
          return Err(Mismatch);
        }
        replay := Outcomes(stored.value);
      }
      if index >= |replay| {
        recordable := false;
        return Err(Mismatch);
      }
      r := Ok(replay[index]);
      index := index + 1;
    }
  }

  // ---------------------------------------------------------------- what one attempt becomes

  /** The same name up to the case of its letters; `lower` has none in upper case. */
  predicate SameName(name: string, lower: string) {
    && |name| == |lower|
    && forall i | 0 <= i < |name| ::
         name[i] == lower[i] || ('A' <= name[i] <= 'Z' && lower[i] as int - 'a' as int == name[i] as int - 'A' as int)
  }

  predicate KeptHeader(name: string) {
    SameName(name, "content-type") || SameName(name, "retry-after") || SameName(name, "x-litellm-response-cost")
  }

  /** The recorded outcome says what the upstream did: which failure it was, or the status, the body and
  the values of exactly the kept headers. */
  predicate Carries(answer: Answer, o: Outcome) {
    match o
    case RecordedTimeout => answer == TimedOut
    case RecordedConnectionError => answer == Unreachable
    case RecordedResponse(status, headers, response) =>
      && answer.Reply? && status == answer.status && Some(response) == answer.body
      && (forall name <- headers :: name in answer.headers && KeptHeader(name) && headers[name] == answer.headers[name])
      && (forall name <- answer.headers :: KeptHeader(name) ==> name in headers)
  }

  predicate Recordable(answer: Answer) {
    answer in {TimedOut, Unreachable} || (answer.Reply? && 100 <= answer.status <= 599 && answer.body.Some?)
  }

  lemma LowerIs(c: char, l: char)
    requires !('A' <= l <= 'Z')
    ensures Lower(c) == l <==> c == l || ('A' <= c <= 'Z' && l as int - 'a' as int == c as int - 'A' as int)
  {
  }

  lemma {:induction false} LowerAllIs(name: string, lower: string)
    requires forall l <- lower :: !('A' <= l <= 'Z')
    ensures LowerAll(name) == lower <==> SameName(name, lower)
  {
    if name != "" && lower != "" {
      hide Lower;
      assert name == [name[0]] + name[1..] && lower == [lower[0]] + lower[1..];
      assert lower[0] in lower && forall l <- lower[1..] :: l in lower;
      LowerIs(name[0], lower[0]);
      LowerAllIs(name[1..], lower[1..]);
      SameNameSplits(name, lower);
    }
  }

  lemma SameNameSplits(name: string, lower: string)
    requires name != "" && lower != ""
    ensures SameName(name, lower) <==>
              && SameName(name[1..], lower[1..])
              && (name[0] == lower[0] || ('A' <= name[0] <= 'Z' && lower[0] as int - 'a' as int == name[0] as int - 'A' as int))
  {
    assert |name| == |lower| ==> forall i | 0 < i < |name| :: name[i] == name[1..][i - 1] && lower[i] == lower[1..][i - 1];
  }

  lemma RetainedIsKept(name: string)
    ensures RetainedName(name) <==> KeptHeader(name)
  {
    hide SameName, LowerAll;
    LowerAllIs(name, "content-type");
    LowerAllIs(name, "retry-after");
    LowerAllIs(name, "x-litellm-response-cost");
  }

  lemma OutcomeCarries(answer: Answer)
    ensures OutcomeOf(answer).Some? <==> Recordable(answer)
    ensures OutcomeOf(answer).Some? ==> Carries(answer, OutcomeOf(answer).value)
  {
    hide RetainedName, KeptHeader;
    if answer.Reply? {
      forall name | name in answer.headers ensures RetainedName(name) <==> KeptHeader(name) {
        RetainedIsKept(name);
      }
    }
  }

  predicate Admits(inv: Invocation, request: Request, free: bool) {
    request.identity.Some? && if inv.identity.Some? then inv.identity == request.identity else free
  }

  /** A recorded attempt returns what the upstream did, and adds exactly that to the recording; an attempt
  that fails takes nothing back and ends the hope of publishing. */
  lemma RecordMeans(inv: Invocation, request: Request, free: bool, answer: Answer)
    ensures var (after, r) := Record(inv, request, free, answer);
            && (r.Ok? <==> Admits(inv, request, free) && Recordable(answer))
            && (r.Ok? ==> Carries(answer, r.value) && after.outcomes == inv.outcomes + [r.value]
                          && after.identity == request.identity && after.recordable == inv.recordable)
            && (r.Err? ==> !after.recordable && after.outcomes == inv.outcomes)
            && (r == Err(Interrupted) <==> Admits(inv, request, free) && answer == CallerCancelled)
            && (after.reserved <==> inv.reserved || (inv.identity == None && Admits(inv, request, free)))
  {
    hide Carries, Recordable, OutcomeOf;
    OutcomeCarries(answer);
    Cancelled();
  }

  lemma Cancelled()
    ensures !Recordable(CallerCancelled)
  {
  }

  /** What a stored file holds, read as a list of outcomes. */
  predicate Holds(c: Cassette, outcomes: seq<Outcome>) {
    match c
    case CassetteSequence(_, recorded) => outcomes == recorded
    case LegacyCassette(_, status, headers, response) => outcomes == [RecordedResponse(status, headers, response)]
  }

  /** A replayed attempt returns the next outcome. The first one needs a stored cassette of this very
  identity with one to six outcomes. */
  lemma ReplayMeans(inv: Invocation, request: Request, stored: Option<Cassette>, held: seq<Outcome>)
    requires if inv.identity.Some? then held == inv.replay else stored.Some? ==> Holds(stored.value, held)
    ensures var (after, r) := Replay(inv, request, stored);
            && (r.Ok? <==>
                  && request.identity.Some? && inv.index < |held|
                  && if inv.identity.Some? then inv.identity == request.identity
                     else stored.Some? && Some(stored.value.identity) == request.identity && |held| <= 6)
            && (r.Ok? ==> r.value == held[inv.index] && after.index == inv.index + 1 && after.replay == held
                          && after.identity == request.identity && after.recordable == inv.recordable)
            && (r.Err? ==> !after.recordable && after.index == inv.index && r.error == Mismatch)
  {
  }

  // ---------------------------------------------------------------- whole conversations

  /** A deterministic caller: what it asks next, if anything, given the outcomes so far. */
  type Caller = seq<Outcome> -> Option<Request>

  datatype End = Finished | Broken(error: CallError)

  /** The caller against an upstream; an upstream that stays silent is cancelled by the caller. */
  function Recording(caller: Caller, free: bool, upstream: seq<Answer>, inv: Invocation, seen: seq<Outcome>)
    : (Invocation, seq<Outcome>, End)
    decreases |upstream|
  {
    match caller(seen)
    case None => (inv, seen, Finished)
    case Some(request) =>
      if upstream == [] then (inv.(recordable := false), seen, Broken(Interrupted))
      else
        match Record(inv, request, free, upstream[0])
        case (next, Ok(o)) => Recording(caller, free, upstream[1..], next, seen + [o])
        case (next, Err(error)) => (next, seen, Broken(error))
  }

  /** How many more outcomes a replay can return. */
  function Left(inv: Invocation, stored: Option<Cassette>): int {
    if inv.identity.Some? then |inv.replay| - inv.index
    else if stored.Some? then 1 + |Outcomes(stored.value)| else 0
  }

  function Replaying(caller: Caller, stored: Option<Cassette>, inv: Invocation, seen: seq<Outcome>)
    : (Invocation, seq<Outcome>, End)
    decreases Left(inv, stored)
  {
    match caller(seen)
    case None => (inv, seen, Finished)
    case Some(request) =>
      match Replay(inv, request, stored)
      case (next, Err(error)) => (next, seen, Broken(error))
      case (next, Ok(o)) => Replaying(caller, stored, next, seen + [o])
  }

  /** The caller, fed these outcomes, asks with this identity for each of them and then stops. */
  predicate Converses(caller: Caller, id: Identity, outcomes: seq<Outcome>, from: nat)
    requires from <= |outcomes|
    decreases |outcomes| - from
  {
    if from == |outcomes| then caller(outcomes) == None
    else caller(outcomes[..from]) == Some(Request(Some(id))) && Converses(caller, id, outcomes, from + 1)
  }

  predicate Recorded(inv: Invocation, seen: seq<Outcome>) {
    && inv.recordable && inv.outcomes == seen && (inv.identity == None <==> seen == [])
  }

  /** A recording that ran to its end holds exactly what the caller saw, and the caller, fed that,
  has the same conversation again. */
  lemma {:induction false} RecordingConverses(
    caller: Caller, free: bool, upstream: seq<Answer>, inv: Invocation, seen: seq<Outcome>)
    requires Recorded(inv, seen)
    ensures var (done, all, end) := Recording(caller, free, upstream, inv, seen);
            end == Finished ==>
              && Recorded(done, all) && seen <= all
              && (inv.identity.Some? ==> done.identity == inv.identity)
              && (done.identity.Some? ==> Converses(caller, done.identity.value, all, |seen|))
              && (done.identity == None ==> caller([]) == None)
    decreases |upstream|
  {
    if caller(seen).Some? && upstream != [] {
      var request := caller(seen).value;
      var (next, r) := Record(inv, request, free, upstream[0]);
      if r.Ok? {
        RecordingConverses(caller, free, upstream[1..], next, seen + [r.value]);
        var (done, all, end) := Recording(caller, free, upstream[1..], next, seen + [r.value]);
        if end == Finished {
          assert all[..|seen|] == seen;
        }
      }
    } else if caller(seen) == None && inv.identity.Some? {
      assert seen[..|seen|] == seen;
    }
  }

  predicate Loaded(inv: Invocation, id: Identity, outcomes: seq<Outcome>, n: nat) {
    inv.recordable && inv.identity == Some(id) && inv.replay == outcomes && inv.index == n <= |outcomes|
  }

  /** A caller that converses with the outcomes of a loaded cassette gets them in order, all of them. */
  lemma {:induction false} ReplayConverses(caller: Caller, stored: Cassette, inv: Invocation, id: Identity, n: nat)
    requires Loaded(inv, id, Outcomes(stored), n) && Converses(caller, id, Outcomes(stored), n)
    ensures var (done, seen, end) := Replaying(caller, Some(stored), inv, Outcomes(stored)[..n]);
            end == Finished && seen == Outcomes(stored) && FinishReplay(done) == Nothing
    decreases |Outcomes(stored)| - n
  {
    var outcomes := Outcomes(stored);
    if n == |outcomes| {
      assert outcomes[..n] == outcomes;
    } else {
      assert outcomes[..n] + [outcomes[n]] == outcomes[..n + 1];
      ReplayConverses(caller, stored, inv.(index := n + 1), id, n + 1);
    }
  }

  /** Playing a valid cassette from the start to a caller that has its conversation. */
  lemma {:induction false} ReplayFromStart(caller: Caller, stored: Cassette)
    requires ValidCassette(stored) && Converses(caller, stored.identity, Outcomes(stored), 0)
    ensures var (done, seen, end) := Replaying(caller, Some(stored), STARTED, []);
            end == Finished && seen == Outcomes(stored) && FinishReplay(done) == Nothing
  {
    var outcomes, id := Outcomes(stored), stored.identity;
    assert outcomes[..0] == [];
    assert [] + [outcomes[0]] == outcomes[..1];
    ReplayConverses(caller, stored, Invocation(Some(id), false, true, [], outcomes, 1), id, 1);
  }

  /** Whatever comes of a recording, the i-th outcome heard is what the upstream did the i-th time. */
  lemma {:induction false} RecordingCarries(
    caller: Caller, free: bool, upstream: seq<Answer>, inv: Invocation, seen: seq<Outcome>)
    ensures var (_, all, _) := Recording(caller, free, upstream, inv, seen);
            && seen <= all && |all| <= |seen| + |upstream|
            && forall i | |seen| <= i < |all| :: Carries(upstream[i - |seen|], all[i])
    decreases |upstream|
  {
    if caller(seen).Some? && upstream != [] {
      hide Record, Carries;
      RecordMeans(inv, caller(seen).value, free, upstream[0]);
      var (next, r) := Record(inv, caller(seen).value, free, upstream[0]);
      if r.Ok? {
        RecordingCarries(caller, free, upstream[1..], next, seen + [r.value]);
        var all := Recording(caller, free, upstream[1..], next, seen + [r.value]).1;
        assert seen <= seen + [r.value] <= all;
        assert all[|seen|] == r.value;
      }
    }
  }

  /** A conversation that broke off publishes nothing. */
  lemma {:induction false} BrokenIsDropped(
    caller: Caller, free: bool, upstream: seq<Answer>, inv: Invocation, seen: seq<Outcome>)
    ensures var (done, _, end) := Recording(caller, free, upstream, inv, seen); end.Broken? ==> FinishRecord(done) == Nothing
    decreases |upstream|
  {
    if caller(seen).Some? && upstream != [] {
      hide Record;
      RecordMeans(inv, caller(seen).value, free, upstream[0]);
      var (next, r) := Record(inv, caller(seen).value, free, upstream[0]);
      if r.Ok? {
        BrokenIsDropped(caller, free, upstream[1..], next, seen + [r.value]);
      }
    }
  }

  /** A replay that broke off raised already, and does not complain about unread outcomes as well. */
  lemma {:induction false} BrokenReplayIsSilent(caller: Caller, stored: Option<Cassette>, inv: Invocation, seen: seq<Outcome>)
    ensures var (done, _, end) := Replaying(caller, stored, inv, seen); end.Broken? ==> FinishReplay(done) == Nothing
    decreases Left(inv, stored)
  {
    if caller(seen).Some? {
      var (next, r) := Replay(inv, caller(seen).value, stored);
      if r.Ok? {
        BrokenReplayIsSilent(caller, stored, next, seen + [r.value]);
      }
    }
  }

  /** Recording then replaying is the identity: whatever was published plays back to the same caller
  as the same outcomes in the same order, consumes all of them and finishes cleanly. */
  lemma {:induction false} RecordReplay(caller: Caller, free: bool, upstream: seq<Answer>)
    ensures var (recorded, seen, end) := Recording(caller, free, upstream, STARTED, []);
            end == Finished && FinishRecord(recorded).Publish? ==>
              var cassette := FinishRecord(recorded).cassette;
              var (played, heard, replayEnd) := Replaying(caller, Some(cassette), STARTED, []);
              && Outcomes(cassette) == seen && caller([]) == Some(Request(Some(cassette.identity)))
              && replayEnd == Finished && heard == seen && FinishReplay(played) == Nothing
              && |heard| <= |upstream| && forall i | 0 <= i < |heard| :: Carries(upstream[i], heard[i])
  {
    hide Carries;
    RecordingCarries(caller, free, upstream, STARTED, []);
    RecordingConverses(caller, free, upstream, STARTED, []);
    var (recorded, seen, end) := Recording(caller, free, upstream, STARTED, []);
    if end == Finished && FinishRecord(recorded).Publish? {
      ReplayFromStart(caller, FinishRecord(recorded).cassette);
    }
  }

  /** A conversation that ran to its end is published exactly when it has one to six outcomes. */
  lemma {:induction false} PublishedWhenShort(caller: Caller, free: bool, upstream: seq<Answer>)
    ensures var (recorded, seen, end) := Recording(caller, free, upstream, STARTED, []);
            end == Finished ==>
              && (FinishRecord(recorded).Publish? <==> 1 <= |seen| <= 6)
              && (FinishRecord(recorded).Refuse? <==> |seen| > 6)
  {
    RecordingConverses(caller, free, upstream, STARTED, []);
  }

  lemma {:induction false} ReplayOnlyConverses(caller: Caller, stored: Cassette, inv: Invocation, id: Identity, n: nat)
    requires Loaded(inv, id, Outcomes(stored), n)
    ensures var (done, seen, end) := Replaying(caller, Some(stored), inv, Outcomes(stored)[..n]);
            end == Finished && FinishReplay(done) == Nothing ==> Converses(caller, id, Outcomes(stored), n)
    decreases |Outcomes(stored)| - n
  {
    var outcomes := Outcomes(stored);
    assert n == |outcomes| ==> outcomes[..n] == outcomes;
    if n < |outcomes| && caller(outcomes[..n]) == Some(Request(Some(id))) {
      assert outcomes[..n] + [outcomes[n]] == outcomes[..n + 1];
      ReplayOnlyConverses(caller, stored, inv.(index := n + 1), id, n + 1);
    }
  }

  /** A caller that asks at all finishes a replay cleanly exactly when it has the recorded
  conversation: same requests, no attempt more, no attempt fewer. */
  lemma {:induction false} ReplayIsExact(caller: Caller, stored: Cassette)
    requires ValidCassette(stored) && caller([]).Some?
    ensures var (done, seen, end) := Replaying(caller, Some(stored), STARTED, []);
            end == Finished && FinishReplay(done) == Nothing <==> Converses(caller, stored.identity, Outcomes(stored), 0)
  {
    var outcomes, id := Outcomes(stored), stored.identity;
    assert outcomes[..0] == [];
    if Converses(caller, id, outcomes, 0) {
      ReplayFromStart(caller, stored);
    } else if caller([]) == Some(Request(Some(id))) {
      assert [] + [outcomes[0]] == outcomes[..1];
      ReplayOnlyConverses(caller, stored, Invocation(Some(id), false, true, [], outcomes, 1), id, 1);
    }
  }

  /** A legacy cassette answers one request and no second one. */
  lemma {:induction false} LegacyIsOneOutcome(caller: Caller, stored: Cassette)
    requires stored.LegacyCassette? && caller([]).Some?
    ensures var o := RecordedResponse(stored.status, stored.headers, stored.response);
            var (done, seen, end) := Replaying(caller, Some(stored), STARTED, []);
            end == Finished && FinishReplay(done) == Nothing <==>
              caller([]) == Some(Request(Some(stored.identity))) && caller([o]) == None
  {
    ReplayIsExact(caller, stored);
    var o := RecordedResponse(stored.status, stored.headers, stored.response);
    assert Outcomes(stored) == [o] && [o][..0] == [];
    assert Converses(caller, stored.identity, [o], 1) <==> caller([o]) == None;
  }
}
