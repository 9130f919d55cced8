/** The file-system protocol that protects one cassette path (gateway_client/cassettes.py,
artifacts.py): a `.recording` file reserves it, a hard link publishes it. Every file-system call is
one step, and any number of recorders interleave. */
module Reservations {
  import opened Domain

  type Content = int

  /** Where a recorder is in its invocation. */
  datatype At =
    | FirstCheck          // does the cassette exist?
    | Reserving           // create the reservation, exclusively
    | SecondCheck         // does the cassette exist after all?
    | Undoing             // remove the reservation again
    | Holding             // call the upstream, then publish or not
    | Releasing(published: bool)
    | Ended(published: bool)

  datatype Author = Recorder(id: nat) | Outsider

  /** The cassette with who created it, the reservation with who created it, and the recorders. */
  datatype Disk = Disk(cassette: Option<(Content, Author)>, recording: Option<nat>, at: map<nat, At>)

  datatype Step =
    | Arrive(id: nat)
    | Go(id: nat)                       // the next file-system call of a recorder
    | Write(id: nat, content: Content)  // publish what was recorded
    | Skip(id: nat)                     // nothing to publish: failed, cancelled or unrecordable
    | Foreign(content: Content)         // somebody else adds the cassette, create-only

  function Move(d: Disk, id: nat, at: At): Disk {
    d.(at := d.at[id := at])
  }

  function Act(d: Disk, step: Step): Disk {
    match step
    case Arrive(id) => if id in d.at then d else Move(d, id, FirstCheck)
    case Go(id) =>
      if id !in d.at then d
      else
        (match d.at[id]
        case FirstCheck => Move(d, id, if d.cassette.Some? then Ended(false) else Reserving)
        case Reserving =>
          if d.recording.Some? then Move(d, id, Ended(false)) else Move(d.(recording := Some(id)), id, SecondCheck)
        case SecondCheck => Move(d, id, if d.cassette.Some? then Undoing else Holding)
        case Undoing => Move(d.(recording := None), id, Ended(false))
        case Releasing(published) => Move(d.(recording := None), id, Ended(published))
        case _ => d)
    case Write(id, content) =>
      if id !in d.at || d.at[id] != Holding then d
      else if d.cassette.Some? then Move(d, id, Releasing(false)) // the link finds the name taken
      else Move(d.(cassette := Some((content, Recorder(id)))), id, Releasing(true))
    case Skip(id) => if id !in d.at || d.at[id] != Holding then d else Move(d, id, Releasing(false))
    case Foreign(content) => if d.cassette.Some? then d else d.(cassette := Some((content, Outsider)))
  }

  function Acts(d: Disk, steps: seq<Step>): Disk {
    if steps == [] then d else Act(Acts(d, steps[..|steps| - 1]), steps[|steps| - 1])
  }

  /** A directory that holds at most a committed cassette. */
  function Fresh(cassette: Option<Content>): Disk {
    Disk(if cassette.Some? then Some((cassette.value, Outsider)) else None, None, map[])
  }

  // ---------------------------------------------------------------- the invariant

  predicate Reserved(at: At) {
    at in {SecondCheck, Undoing, Holding} || at.Releasing?
  }

  ghost predicate DiskInv(d: Disk) {
    && (forall id <- d.at :: Reserved(d.at[id]) <==> d.recording == Some(id))
    && (d.recording.Some? ==> d.recording.value in d.at)
    && (forall id <- d.at :: d.at[id] in {Releasing(true), Ended(true)} ==> d.cassette.Some? && d.cassette.value.1 == Recorder(id))
    && (forall id <- d.at :: d.at[id] == Holding && d.cassette.Some? ==> d.cassette.value.1 == Outsider)
    && (d.cassette.Some? && d.cassette.value.1.Recorder? ==>
          d.cassette.value.1.id in d.at && d.at[d.cassette.value.1.id] in {Releasing(true), Ended(true)})
  }

  lemma ActKeeps(d: Disk, step: Step)
    requires DiskInv(d)
    ensures DiskInv(Act(d, step))
  {
  }

  lemma {:induction false} ActsKeep(d: Disk, steps: seq<Step>)
    requires DiskInv(d)
    ensures DiskInv(Acts(d, steps))
  {
    if steps != [] {
      hide DiskInv, Act;
      ActsKeep(d, steps[..|steps| - 1]);
      ActKeeps(Acts(d, steps[..|steps| - 1]), steps[|steps| - 1]);
    }
  }

  /** At most one recorder holds the reservation, however their file-system calls interleave. */
  lemma OneHolder(cassette: Option<Content>, steps: seq<Step>, a: nat, b: nat)
    requires var d := Acts(Fresh(cassette), steps);
             a in d.at && b in d.at && Reserved(d.at[a]) && Reserved(d.at[b])
    ensures a == b && Acts(Fresh(cassette), steps).recording == Some(a)
  {
    hide Acts;
    ActsKeep(Fresh(cassette), steps);
  }

  /** A recorder past its second check still finds the path free when it publishes, except exactly
  when somebody outside the protocol created the cassette; then it publishes nothing. */
  lemma HolderPublishes(cassette: Option<Content>, steps: seq<Step>, id: nat, content: Content)
    requires var d := Acts(Fresh(cassette), steps); id in d.at && d.at[id] == Holding
    ensures var d := Acts(Fresh(cassette), steps);
            var t := Act(d, Write(id, content));
            && (t.at[id] == Releasing(true) <==> d.cassette == None)
            && (d.cassette == None ==> t.cassette == Some((content, Recorder(id))))
            && (d.cassette.Some? ==> d.cassette.value.1 == Outsider && t.cassette == d.cassette)
  {
    hide Acts;
    ActsKeep(Fresh(cassette), steps);
  }

  /** A published cassette is never replaced or removed. */
  lemma {:induction false} NeverReplaced(d: Disk, steps: seq<Step>)
    requires d.cassette.Some?
    ensures Acts(d, steps).cassette == d.cassette
  {
    if steps != [] {
      NeverReplaced(d, steps[..|steps| - 1]);
    }
  }

  /** The file-system calls a recorder still has ahead of it. */
  function Ahead(at: At): nat {
    match at
    case FirstCheck => 5
    case Reserving => 4
    case SecondCheck => 3
    case Holding => 2
    case Undoing => 1
    case Releasing(_) => 1
    case Ended(_) => 0
  }

  /** No call waits: each one brings its recorder nearer to its end and disturbs no other. */
  lemma EveryCallProgresses(d: Disk, step: Step, id: nat)
    requires id in d.at && !d.at[id].Ended?
    requires if d.at[id] == Holding then step == Skip(id) || (step.Write? && step.id == id) else step == Go(id)
    ensures Ahead(Act(d, step).at[id]) < Ahead(d.at[id])
    ensures forall other | other in d.at && other != id :: other in Act(d, step).at && Act(d, step).at[other] == d.at[other]
  {
  }

  /** No reservation outlives the invocation that made it, whoever else is still running: the
  reservation on disk names a recorder that is inside its invocation between making and removing it, a
  recorder holds one exactly there, and so an ended one's is gone. When no invocation runs there is
  none, and of all that ended at most one published, which is the cassette on disk. */
  lemma {:induction false} NothingLeftBehind(cassette: Option<Content>, steps: seq<Step>)
    ensures var d := Acts(Fresh(cassette), steps);
            && (forall id <- d.at :: d.recording == Some(id) <==> Reserved(d.at[id]))
            && (forall id <- d.at :: d.at[id].Ended? ==> d.recording != Some(id))
            && (d.recording.Some? ==> d.recording.value in d.at && !d.at[d.recording.value].Ended?)
            && ((forall id <- d.at :: d.at[id].Ended?) ==> d.recording == None)
    ensures var d := Acts(Fresh(cassette), steps);
            forall id <- d.at :: d.at[id] == Ended(true) ==> d.cassette.Some? && d.cassette.value.1 == Recorder(id)
    ensures var at := Acts(Fresh(cassette), steps).at;
            forall a, b | a in at && b in at && at[a] == Ended(true) && at[b] == Ended(true) :: a == b
  {
    hide Acts;
    ActsKeep(Fresh(cassette), steps);
  }

  /** A recorder is turned away exactly because the cassette exists or another recorder holds the path. */
  lemma RefusedOnlyForAReason(d: Disk, id: nat)
    requires DiskInv(d) && id in d.at && d.at[id] in {FirstCheck, Reserving, SecondCheck}
    ensures Act(d, Go(id)).at[id] in {Ended(false), Undoing} <==>
              if d.at[id] == Reserving then exists other :: other in d.at && other != id && Reserved(d.at[other])
              else d.cassette.Some?
  {
    if d.at[id] == Reserving && d.recording.Some? {
      assert d.recording.value in d.at && Reserved(d.at[d.recording.value]);
    }
  }

  // ---------------------------------------------------------------- the calls of one recorder, in place

  class CassettePath {
    var cassette: Option<(Content, Author)>
    var recording: Option<nat>

    constructor ()
      ensures cassette == None && recording == None
    {
      cassette := None;
      recording := None;
    }

    /** `_reserve`; `appears` is a cassette that somebody outside the protocol adds right after the
    reservation was created. It holds exactly when both names were free and stayed so. */
    method Reserve(id: nat, appears: Option<Content>) returns (held: bool)
      modifies this
      ensures held <==> old(cassette) == None && old(recording) == None && appears == None
      ensures recording == if held then Some(id) else old(recording)
      ensures cassette == if old(cassette) == None && old(recording) == None && appears.Some?
                          then Some((appears.value, Outsider)) else old(cassette)
    {
      if cassette.Some? || recording.Some? {
        return false;
      }
      recording := Some(id);
      if appears.Some? {
        cassette := Some((appears.value, Outsider));
      }
      if cassette.Some? {
        recording := None;
        return false;
      }
      held := true;
    }

    /** `write_new_artifact`: publish complete bytes or leave the destination alone. */
    method WriteNewArtifact(content: Content, author: Author) returns (published: bool)
      modifies this`cassette
      ensures published <==> old(cassette) == None
      ensures cassette == if published then Some((content, author)) else old(cassette)
    {
      if cassette.Some? {
        return false;
      }
      cassette := Some((content, author));
      published := true;
    }

    /** One whole invocation: whatever it does, no reservation of its own is left. */
    method Invocation(id: nat, appears: Option<Content>, content: Option<Content>) returns (published: bool)
      modifies this
      ensures recording == old(recording)
      ensures published <==> content.Some? && old(cassette) == None && old(recording) == None && appears == None
      ensures published ==> cassette == Some((content.value, Recorder(id)))
      ensures old(cassette).Some? ==> cassette == old(cassette)
    {
      var held := Reserve(id, appears);
      if !held {
        return false;
      }
      published := false;
      if content.Some? {
        published := WriteNewArtifact(content.value, Recorder(id));
      }
      recording := None;
    }
  }
}
