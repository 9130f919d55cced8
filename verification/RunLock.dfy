/** The session lock around one run (graph/checkpoints.py): exclusive while a body executes, and given
back on every exit, by unlocking or by closing the connection that owns it. */
module RunLock {
  import opened Domain

  /** How the lock query comes back. A query that was cut off may still have reached the server. */
  datatype Reply = Answered | Malformed | CutOff(reached: bool)

  datatype Exit = BodyFinished | BodyFailed

  datatype Outcome = Entered | InProgress | Unavailable

  /** Inside: the body runs. Unsure: the answer was not understood. Stuck: unlocking failed. */
  datatype Phase = Idle | Inside | Unsure | Stuck | Closed

  /** The server's holder of this run's key, and where each session is. */
  datatype Server = Server(holder: Option<nat>, at: map<nat, Phase>)

  function PhaseOf(s: Server, id: nat): Phase {
    if id in s.at then s.at[id] else Idle
  }

  /** `pg_try_advisory_lock`: taken exactly when it was free. */
  function TryLock(s: Server, id: nat): Server {
    if s.holder == None then s.(holder := Some(id)) else s
  }

  /** A closed connection gives up every session lock it held. */
  function Close(s: Server, id: nat): Server {
    Server(if s.holder == Some(id) then None else s.holder, s.at[id := Closed])
  }

  datatype Step =
    | Acquire(id: nat, reply: Reply)
    | Leave(id: nat, unlocked: bool)
    | Disconnect(id: nat)

  function Act(s: Server, step: Step): Server {
    match step
    case Acquire(id, reply) =>
      if PhaseOf(s, id) != Idle then s
      else
        (match reply
         case Answered => if s.holder == None then TryLock(s, id).(at := s.at[id := Inside]) else s
         case Malformed => TryLock(s, id).(at := s.at[id := Unsure])
         case CutOff(reached) => (if reached then TryLock(s, id) else s).(at := s.at[id := Unsure]))
    case Leave(id, unlocked) =>
      if PhaseOf(s, id) != Inside then s
      else if unlocked then Server(None, s.at[id := Idle])
      else s.(at := s.at[id := Stuck])
    case Disconnect(id) => if PhaseOf(s, id) in {Unsure, Stuck} then Close(s, id) else s
  }

  function Acts(s: Server, steps: seq<Step>): Server {
    if steps == [] then s else Act(Acts(s, steps[..|steps| - 1]), steps[|steps| - 1])
  }

  const FREE := Server(None, map[])

  predicate ServerInv(s: Server) {
    && (forall id <- s.at :: s.at[id] in {Inside, Stuck} ==> s.holder == Some(id))
    && (s.holder.Some? ==> s.holder.value in s.at && s.at[s.holder.value] in {Inside, Stuck, Unsure})
  }

  lemma ActKeeps(s: Server, step: Step)
    requires ServerInv(s)
    ensures ServerInv(Act(s, step))
  {
  }

  lemma {:induction false} ActsKeep(s: Server, steps: seq<Step>)
    requires ServerInv(s)
    ensures ServerInv(Acts(s, steps))
  {
    if steps != [] {
      hide ServerInv, Act;
      ActsKeep(s, steps[..|steps| - 1]);
      ActKeeps(Acts(s, steps[..|steps| - 1]), steps[|steps| - 1]);
    }
  }

  /** At most one body executes for a run, and once every session has left or closed nobody holds it. */
  lemma ExclusiveAndReleased(steps: seq<Step>, a: nat, b: nat)
    ensures var s := Acts(FREE, steps);
            && (PhaseOf(s, a) == Inside && PhaseOf(s, b) == Inside ==> a == b)
            && ((forall id <- s.at :: s.at[id] in {Idle, Closed}) ==> s.holder == None)
  {
    hide Acts;
    ActsKeep(FREE, steps);
  }

  /** A query takes a free lock whenever it reaches the server, understood or not; the body runs only when it did
  and the answer arrived, and a session that cannot tell, or cannot unlock, gives the lock up by closing. */
  lemma QueryTakesFreeLock(s: Server, id: nat, reply: Reply)
    requires ServerInv(s) && PhaseOf(s, id) == Idle
    ensures var after := Act(s, Acquire(id, reply));
            && (after.holder == Some(id) <==> s.holder == None && reply != CutOff(false))
            && (PhaseOf(after, id) == Inside <==> s.holder == None && reply == Answered)
            && (s.holder.Some? ==> after.holder == s.holder)
            && (reply != Answered ==> PhaseOf(after, id) == Unsure && Act(after, Disconnect(id)).holder == s.holder)
  {
  }

  /** One session's lock object. */
  class PostgresRunLock {
    const id: nat
    var server: Server

    constructor (id: nat, server: Server)
      ensures this.id == id && this.server == server
    {
      this.id := id;
      this.server := server;
    }

    /** One whole `async with`: the body ran exactly when the lock was free and the answer arrived, and
    on every exit this session holds nothing. `during` is the server while the body ran. */
    method AcquireAndRun(reply: Reply, unlocked: bool) returns (outcome: Outcome, during: Option<Server>)
      requires ServerInv(server) && PhaseOf(server, id) == Idle
      modifies this`server
      ensures outcome == (if reply != Answered then Unavailable else if old(server.holder) == None then Entered else InProgress)
      ensures outcome == Entered <==> during.Some?
      ensures during.Some? ==> during.value.holder == Some(id) && during.value == Act(old(server), Acquire(id, reply))
      ensures server == Acts(old(server), [Acquire(id, reply), Leave(id, unlocked), Disconnect(id)])
      ensures server.holder == old(server.holder) && PhaseOf(server, id) in {Idle, Closed}
    {
      ghost var steps := [Acquire(id, reply), Leave(id, unlocked), Disconnect(id)];
      ThreeActs(server, steps[0], steps[1], steps[2]);
      during := None;
      if reply == Answered {
        if server.holder.Some? {
          return InProgress, None;
        }
        server := Server(Some(id), server.at[id := Inside]);
        outcome := Entered;
        during := Some(server);
        if unlocked {
          server := Server(None, server.at[id := Idle]);
        } else {
          server := server.(at := server.at[id := Stuck]);
          server := Close(server, id);
        }
      } else {
        if reply == Malformed || reply.reached {
          server := TryLock(server, id);
        }
        server := server.(at := server.at[id := Unsure]);
        server := Close(server, id);
        outcome := Unavailable;
      }
    }
  }

  lemma ThreeActs(s: Server, a: Step, b: Step, c: Step)
    ensures Acts(s, [a, b, c]) == Act(Act(Act(s, a), b), c)
  {
    var steps := [a, b, c];
    assert steps[..2] == [a, b] && [a, b][..1] == [a] && [a][..0] == [];
    hide Act;
    assert Acts(s, [a]) == Act(s, a);
    assert Acts(s, [a, b]) == Act(Acts(s, [a]), b);
  }
}
