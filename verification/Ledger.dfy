/** The append-only ledger under concurrent transactions (ledger/writer.py), and its keyset reads
(ledger/reader.py). A transaction sees committed rows and its own; a locked run row makes every
other append to that run wait for the end of the transaction. */
module Ledger {
  import opened Domain

  datatype Entry = Entry(id: nat, run: nat, invoice: nat, sequence: nat, supersedes: Option<nat>, createdAt: int)

  datatype RunIdentity = RunIdentity(invoice: nat, graphVersion: string)

  datatype Append = Append(run: nat, invoice: nat, supersedes: Option<nat>, graphVersion: string)

  datatype Transaction = Transaction(locks: set<nat>, staged: seq<Entry>)

  datatype Store = Store(runs: map<nat, RunIdentity>, committed: seq<Entry>, open: map<nat, Transaction>)

  datatype LedgerError = TransactionRequired | RunNotFound | IdentityMismatch | IdConflict

  datatype AppendResult = Waits | Rejected(error: LedgerError) | Staged(entry: Entry)

  /** The entries of one run, in the order they were written. */
  function OfRun(entries: seq<Entry>, run: nat): seq<Entry> {
    if entries == [] then []
    else
      var last := entries[|entries| - 1];
      OfRun(entries[..|entries| - 1], run) + if last.run == run then [last] else []
  }

  function MaxSequence(entries: seq<Entry>, run: nat): nat {
    if entries == [] then 0
    else
      var last, rest := entries[|entries| - 1], MaxSequence(entries[..|entries| - 1], run);
      if last.run == run && last.sequence > rest then last.sequence else rest
  }

  function ById(entries: seq<Entry>, id: nat): Option<Entry> {
    if entries == [] then None
    else if entries[|entries| - 1].id == id then Some(entries[|entries| - 1])
    else ById(entries[..|entries| - 1], id)
  }

  predicate IdTaken(s: Store, id: nat) {
    ById(s.committed, id).Some? || exists t <- s.open :: ById(s.open[t].staged, id).Some?
  }

  predicate LockedByOther(s: Store, t: nat, run: nat) {
    exists u <- s.open :: u != t && run in s.open[u].locks
  }

  function Visible(s: Store, t: nat): seq<Entry>
    requires t in s.open
  {
    s.committed + s.open[t].staged
  }

  predicate Supersedable(previous: Option<Entry>, command: Append) {
    previous.Some? && previous.value.run == command.run && previous.value.invoice == command.invoice
  }

  /** One append: the run row is locked first, so later statements of the transaction keep it. */
  function AppendTx(s: Store, t: nat, command: Append, id: nat, now: int): (Store, AppendResult) {
    if t !in s.open then (s, Rejected(TransactionRequired))
    else if command.run !in s.runs then (s, Rejected(RunNotFound))
    else if LockedByOther(s, t, command.run) then (s, Waits)
    else
      var tx := s.open[t].(locks := s.open[t].locks + {command.run});
      var locked := s.(open := s.open[t := tx]);
      var identity := s.runs[command.run];
      if identity.invoice != command.invoice || identity.graphVersion != command.graphVersion then
        (locked, Rejected(IdentityMismatch))
      else if command.supersedes.Some? && !Supersedable(ById(Visible(s, t), command.supersedes.value), command) then
        (locked, Rejected(IdentityMismatch))
      else if IdTaken(s, id) then (locked, Rejected(IdConflict))
      else
        var e := Entry(id, command.run, command.invoice, MaxSequence(Visible(s, t), command.run) + 1,
                       command.supersedes, now);
        (locked.(open := locked.open[t := tx.(staged := tx.staged + [e])]), Staged(e))
  }

  datatype Op =
    | Open(t: nat)
    | Write(t: nat, command: Append, id: nat, now: int)
    | Commit(t: nat)
    | Rollback(t: nat)

  function Close(open: map<nat, Transaction>, t: nat): map<nat, Transaction> {
    map u | u in open && u != t :: open[u]
  }

  function Perform(s: Store, op: Op): Store {
    match op
    case Open(t) => if t in s.open then s else s.(open := s.open[t := Transaction({}, [])])
    case Write(t, command, id, now) => AppendTx(s, t, command, id, now).0
    case Commit(t) =>
      if t in s.open then s.(committed := s.committed + s.open[t].staged, open := Close(s.open, t)) else s
    case Rollback(t) => s.(open := Close(s.open, t))
  }

  function PerformAll(s: Store, ops: seq<Op>): Store {
    if ops == [] then s else Perform(PerformAll(s, ops[..|ops| - 1]), ops[|ops| - 1])
  }

  /** One session's connection to the shared store. */
  class LedgerWriter {
    var store: Store
    const session: nat

    constructor (store: Store, session: nat)
      ensures this.store == store && this.session == session
    {
      this.store := store;
      this.session := session;
    }

    method AppendEvent(command: Append, id: nat, now: int) returns (r: AppendResult)
      modifies this`store
      ensures (store, r) == AppendTx(old(store), session, command, id, now)
      ensures r == Rejected(TransactionRequired) <==> session !in old(store).open
      ensures r == Rejected(RunNotFound) <==> session in old(store).open && command.run !in old(store).runs
      ensures r == Waits <==>
                && session in old(store).open && command.run in old(store).runs
                && exists u <- old(store).open :: u != session && command.run in old(store).open[u].locks
      ensures r.Staged? ==>
                && session in old(store).open && command.run in old(store).runs
                && old(store).runs[command.run] == RunIdentity(command.invoice, command.graphVersion)
                && r.entry.(sequence := 0) == Entry(id, command.run, command.invoice, 0, command.supersedes, now)
                && store == old(store).(open := old(store).open[session := Transaction(
                                old(store).open[session].locks + {command.run}, old(store).open[session].staged + [r.entry])])
      ensures r in {Waits, Rejected(TransactionRequired), Rejected(RunNotFound)} ==> store == old(store)
      ensures r in {Rejected(IdentityMismatch), Rejected(IdConflict)} ==>
                && session in old(store).open
                && store == old(store).(open := old(store).open[session :=
                     old(store).open[session].(locks := old(store).open[session].locks + {command.run})])
    {
      if session !in store.open {
        return Rejected(TransactionRequired);
      }
      if command.run !in store.runs {
        return Rejected(RunNotFound);
      }
      if LockedByOther(store, session, command.run) {
        return Waits;
      }
      var visible := Visible(store, session);
      var taken := IdTaken(store, id);
      var tx := store.open[session];
      tx := tx.(locks := tx.locks + {command.run});
      store := store.(open := store.open[session := tx]);
      var identity := store.runs[command.run];
      if identity.invoice != command.invoice || identity.graphVersion != command.graphVersion {
        return Rejected(IdentityMismatch);
      }
      if command.supersedes.Some? {
        var previous := ById(visible, command.supersedes.value);
        if !Supersedable(previous, command) {
          return Rejected(IdentityMismatch);
        }
      }
      if taken {
        return Rejected(IdConflict);
      }
      var e := Entry(id, command.run, command.invoice, MaxSequence(visible, command.run) + 1, command.supersedes, now);
      store := store.(open := store.open[session := tx.(staged := tx.staged + [e])]);
      r := Staged(e);
    }
  }

  /** The superseded entry, seen by the transaction, belongs to the same run and invoice. */
  predicate Refers(s: Store, t: nat, command: Append)
    requires t in s.open
  {
    command.supersedes.Some? ==>
      exists e <- s.committed + s.open[t].staged :: e.id == command.supersedes.value && e.run == command.run && e.invoice == command.invoice
  }

  predicate Used(s: Store, id: nat) {
    (exists e <- s.committed :: e.id == id) || exists t <- s.open :: exists e <- s.open[t].staged :: e.id == id
  }

  /** Once the run row is locked, an append is staged exactly when the run is the invoice's and of this graph
  version, the superseded entry is visible in the same run and invoice, and the identifier is free. */
  lemma AppendMeans(s: Store, t: nat, command: Append, id: nat, now: int)
    requires t in s.open && command.run in s.runs && forall u <- s.open :: u != t ==> command.run !in s.open[u].locks
    requires forall d, e | d in Visible(s, t) && e in Visible(s, t) :: d.id == e.id ==> d == e
    ensures var r := AppendTx(s, t, command, id, now).1;
            var matches := s.runs[command.run] == RunIdentity(command.invoice, command.graphVersion) && Refers(s, t, command);
            && (r == Rejected(IdentityMismatch) <==> !matches) && (r == Rejected(IdConflict) <==> matches && Used(s, id))
            && (r.Staged? <==> matches && !Used(s, id))
  {
    if command.supersedes.Some? {
      ByIdFinds(Visible(s, t), command.supersedes.value);
    }
    ByIdFinds(s.committed, id);
    forall u | u in s.open ensures ById(s.open[u].staged, id).Some? <==> exists e <- s.open[u].staged :: e.id == id {
      ByIdFinds(s.open[u].staged, id);
    }
    hide ById, MaxSequence;
  }

  // ---------------------------------------------------------------- dense sequences, backward links

  predicate Dense(entries: seq<Entry>, run: nat) {
    forall i | 0 <= i < |OfRun(entries, run)| :: OfRun(entries, run)[i].sequence == i + 1
  }

  /** Every superseded entry exists before its successor, in the same run and invoice. */
  predicate LinksBack(entries: seq<Entry>) {
    forall i | 0 <= i < |entries| :: entries[i].supersedes.Some? ==>
      exists j :: 0 <= j < i && Links(entries[j], entries[i])
  }

  predicate Links(previous: Entry, e: Entry) {
    Some(previous.id) == e.supersedes && previous.run == e.run && previous.invoice == e.invoice
    && previous.sequence < e.sequence
  }

  lemma OfRunAppend(entries: seq<Entry>, e: Entry, run: nat)
    ensures OfRun(entries + [e], run) == OfRun(entries, run) + if e.run == run then [e] else []
  {
    assert (entries + [e])[..|entries|] == entries;
  }

  lemma {:induction false} OfRunConcat(a: seq<Entry>, b: seq<Entry>, run: nat)
    ensures OfRun(a + b, run) == OfRun(a, run) + OfRun(b, run)
  {
    if b == [] {
      assert a + b == a;
    } else {
      assert (a + b)[..|a + b| - 1] == a + b[..|b| - 1];
      OfRunConcat(a, b[..|b| - 1], run);
    }
  }

  lemma {:induction false} OfRunEmpty(entries: seq<Entry>, run: nat)
    requires forall e <- entries :: e.run != run
    ensures OfRun(entries, run) == []
  {
    if entries != [] {
      OfRunEmpty(entries[..|entries| - 1], run);
    }
  }

  lemma {:induction false} OfRunMember(entries: seq<Entry>, run: nat, e: Entry)
    ensures e in OfRun(entries, run) <==> e in entries && e.run == run
  {
    if entries != [] {
      assert entries == entries[..|entries| - 1] + [entries[|entries| - 1]];
      OfRunMember(entries[..|entries| - 1], run, e);
    }
  }

  /** The next sequence a transaction reads is one more than the number of entries it sees. */
  lemma {:induction false} MaxIsCount(entries: seq<Entry>, run: nat)
    requires Dense(entries, run)
    ensures MaxSequence(entries, run) == |OfRun(entries, run)|
  {
    if entries != [] {
      var front, last := entries[..|entries| - 1], entries[|entries| - 1];
      assert entries == front + [last];
      OfRunAppend(front, last, run);
      assert forall i | 0 <= i < |OfRun(front, run)| :: OfRun(entries, run)[i] == OfRun(front, run)[i];
      MaxIsCount(front, run);
      if last.run == run {
        assert OfRun(entries, run)[|OfRun(front, run)|] == last;
      }
    }
  }

  lemma {:induction false} ByIdFinds(entries: seq<Entry>, id: nat)
    ensures match ById(entries, id)
            case None => forall e <- entries :: e.id != id
            case Some(e) => e in entries && e.id == id
  {
    if entries != [] {
      assert entries == entries[..|entries| - 1] + [entries[|entries| - 1]];
      ByIdFinds(entries[..|entries| - 1], id);
    }
  }

  ghost predicate Sound(entries: seq<Entry>) {
    (forall run :: Dense(entries, run)) && LinksBack(entries)
  }

  predicate StagedLocked(t: Transaction) {
    forall e <- t.staged :: e.run in t.locks
  }

  ghost predicate StoreInv(s: Store) {
    && Sound(s.committed)
    && (forall t <- s.open :: StagedLocked(s.open[t]) && Sound(s.committed + s.open[t].staged))
    && (forall t, u | t in s.open && u in s.open && t != u :: s.open[t].locks !! s.open[u].locks)
  }

  lemma NextIsDense(entries: seq<Entry>, e: Entry, run: nat)
    requires Dense(entries, run) && (e.run == run ==> e.sequence == MaxSequence(entries, run) + 1)
    ensures Dense(entries + [e], run)
  {
    OfRunAppend(entries, e, run);
    MaxIsCount(entries, run);
    hide OfRun, MaxSequence;
  }

  lemma EarlierIsSmaller(entries: seq<Entry>, previous: Entry)
    requires Dense(entries, previous.run) && previous in entries
    ensures previous.sequence <= MaxSequence(entries, previous.run)
  {
    MaxIsCount(entries, previous.run);
    OfRunMember(entries, previous.run, previous);
    hide OfRun, MaxSequence;
  }

  /** The entry an append stages keeps sequences dense and links pointing back. */
  lemma AppendSound(entries: seq<Entry>, e: Entry, command: Append)
    requires Sound(entries) && e.run == command.run && e.invoice == command.invoice && e.supersedes == command.supersedes
    requires e.sequence == MaxSequence(entries, e.run) + 1
    requires command.supersedes.Some? ==> Supersedable(ById(entries, command.supersedes.value), command)
    ensures Sound(entries + [e])
  {
    hide OfRun, MaxSequence, Dense, ById;
    forall run ensures Dense(entries + [e], run) {
      NextIsDense(entries, e, run);
    }
    if command.supersedes.Some? {
      ByIdFinds(entries, command.supersedes.value);
      var previous := ById(entries, command.supersedes.value).value;
      EarlierIsSmaller(entries, previous);
      var j :| 0 <= j < |entries| && entries[j] == previous;
      assert Links(entries[j], e);
      LinksAppend(entries, e, j);
    } else {
      LinksAppend(entries, e, 0);
    }
  }

  lemma LinksAppend(entries: seq<Entry>, e: Entry, j: nat)
    requires LinksBack(entries) && (e.supersedes.Some? ==> j < |entries| && Links(entries[j], e))
    ensures LinksBack(entries + [e])
  {
    hide Links;
    var longer := entries + [e];
    forall i | 0 <= i < |longer| && longer[i].supersedes.Some? ensures exists k :: 0 <= k < i && Links(longer[k], longer[i]) {
      if i == |entries| {
        assert Links(longer[j], longer[i]);
      } else {
        var k :| 0 <= k < i && Links(entries[k], entries[i]);
        assert Links(longer[k], longer[i]);
      }
    }
  }

  /** Another transaction's commit slides between what this one saw and what it staged. */
  lemma CommitSound(a: seq<Entry>, t: Transaction, u: Transaction)
    requires Sound(a + t.staged) && Sound(a + u.staged)
    requires StagedLocked(t) && StagedLocked(u) && t.locks !! u.locks
    ensures Sound(a + t.staged + u.staged)
  {
    forall run ensures Dense(a + t.staged + u.staged, run) {
      CommitDense(a, t, u, run);
    }
    LinksInsert(a, t.staged, u.staged);
    hide Dense, LinksBack;
  }

  lemma CommitDense(a: seq<Entry>, t: Transaction, u: Transaction, run: nat)
    requires Dense(a + t.staged, run) && Dense(a + u.staged, run)
    requires StagedLocked(t) && StagedLocked(u) && t.locks !! u.locks
    ensures Dense(a + t.staged + u.staged, run)
  {
    hide OfRun;
    OfRunConcat(a, t.staged, run);
    OfRunConcat(a, u.staged, run);
    OfRunConcat(a + t.staged, u.staged, run);
    if run in t.locks {
      OfRunEmpty(u.staged, run);
      assert OfRun(a + t.staged + u.staged, run) == OfRun(a + t.staged, run);
    } else {
      OfRunEmpty(t.staged, run);
      assert OfRun(a + t.staged + u.staged, run) == OfRun(a + u.staged, run);
    }
  }

  lemma LinksInsert(a: seq<Entry>, b: seq<Entry>, c: seq<Entry>)
    requires LinksBack(a + b) && LinksBack(a + c)
    ensures LinksBack(a + b + c)
  {
    hide Links;
    var all := a + b + c;
    forall i | 0 <= i < |all| && all[i].supersedes.Some? ensures exists k :: 0 <= k < i && Links(all[k], all[i]) {
      if i < |a + b| {
        var k :| 0 <= k < i && Links((a + b)[k], (a + b)[i]);
        assert Links(all[k], all[i]);
      } else {
        assert (a + c)[i - |b|] == all[i];
        var k :| 0 <= k < i - |b| && Links((a + c)[k], (a + c)[i - |b|]);
        var moved := if k < |a| then k else k + |b|;
        assert all[moved] == (a + c)[k];
        assert Links(all[moved], all[i]);
      }
    }
  }

  lemma WriteKeeps(s: Store, t: nat, command: Append, id: nat, now: int)
    requires StoreInv(s)
    ensures StoreInv(AppendTx(s, t, command, id, now).0)
  {
    hide Sound, ById, MaxSequence, IdTaken;
    var (after, r) := AppendTx(s, t, command, id, now);
    if r.Staged? {
      var seen := s.committed + s.open[t].staged;
      AppendSound(seen, r.entry, command);
      assert seen + [r.entry] == s.committed + after.open[t].staged;
    }
  }

  lemma CommitKeeps(s: Store, t: nat)
    requires StoreInv(s)
    ensures StoreInv(Perform(s, Commit(t)))
  {
    hide Sound;
    if t in s.open {
      forall u | u in s.open && u != t ensures Sound(s.committed + s.open[t].staged + s.open[u].staged) {
        CommitSound(s.committed, s.open[t], s.open[u]);
      }
    }
  }

  lemma PerformKeeps(s: Store, op: Op)
    requires StoreInv(s)
    ensures StoreInv(Perform(s, op))
  {
    hide Sound, AppendTx;
    match op
    case Write(t, command, id, now) => WriteKeeps(s, t, command, id, now);
    case Commit(t) => CommitKeeps(s, t);
    case Open(t) => assert s.committed + [] == s.committed;
    case Rollback(_) =>
  }

  lemma {:induction false} PerformAllKeeps(s: Store, ops: seq<Op>)
    requires StoreInv(s)
    ensures StoreInv(PerformAll(s, ops))
  {
    if ops != [] {
      hide StoreInv, Perform;
      PerformAllKeeps(s, ops[..|ops| - 1]);
      PerformKeeps(PerformAll(s, ops[..|ops| - 1]), ops[|ops| - 1]);
    }
  }

  function Empty(runs: map<nat, RunIdentity>): Store {
    Store(runs, [], map[])
  }

  /** Under any interleaving of committing and rolled-back transactions every run's committed
  sequences are exactly 1..n in commit order, and supersession points strictly backward within the
  run and invoice. */
  lemma LedgerIsSound(runs: map<nat, RunIdentity>, ops: seq<Op>, run: nat)
    ensures var entries := PerformAll(Empty(runs), ops).committed;
            && (forall i | 0 <= i < |OfRun(entries, run)| :: OfRun(entries, run)[i].sequence == i + 1)
            && LinksBack(entries)
  {
    assert forall r :: OfRun([], r) == [];
    assert Sound([]);
    hide PerformAll, LinksBack, OfRun;
    PerformAllKeeps(Empty(runs), ops);
    assert Dense(PerformAll(Empty(runs), ops).committed, run);
  }

  // ---------------------------------------------------------------- identifiers

  predicate DistinctIds(entries: seq<Entry>) {
    forall i, j | 0 <= i < j < |entries| :: entries[i].id != entries[j].id
  }

  predicate IdsApart(a: seq<Entry>, b: seq<Entry>) {
    forall i, j | 0 <= i < |a| && 0 <= j < |b| :: a[i].id != b[j].id
  }

  predicate IdsInv(s: Store) {
    && DistinctIds(s.committed)
    && (forall t <- s.open :: DistinctIds(s.open[t].staged) && IdsApart(s.committed, s.open[t].staged))
    && (forall t, u | t in s.open && u in s.open && t != u :: IdsApart(s.open[t].staged, s.open[u].staged))
  }

  lemma FreeId(s: Store, id: nat, e: Entry)
    requires !IdTaken(s, id) && e.id == id
    ensures IdsApart(s.committed, [e])
    ensures forall t <- s.open :: IdsApart(s.open[t].staged, [e])
  {
    ByIdFinds(s.committed, id);
    forall t | t in s.open ensures IdsApart(s.open[t].staged, [e]) {
      ByIdFinds(s.open[t].staged, id);
    }
    hide ById;
  }

  lemma DistinctConcat(a: seq<Entry>, b: seq<Entry>)
    requires DistinctIds(a) && DistinctIds(b) && IdsApart(a, b)
    ensures DistinctIds(a + b)
  {
  }

  lemma ApartConcat(a: seq<Entry>, b: seq<Entry>, c: seq<Entry>)
    requires IdsApart(a, c) && IdsApart(b, c)
    ensures IdsApart(a + b, c) && IdsApart(c, a + b)
  {
  }

  lemma ApartBothWays(a: seq<Entry>, b: seq<Entry>)
    requires IdsApart(a, b)
    ensures IdsApart(b, a)
  {
  }

  lemma OneIsDistinct(e: Entry)
    ensures DistinctIds([e])
  {
  }

  lemma WriteKeepsIds(s: Store, t: nat, command: Append, id: nat, now: int)
    requires IdsInv(s)
    ensures IdsInv(AppendTx(s, t, command, id, now).0)
  {
    hide ById, MaxSequence, IdTaken, DistinctIds, IdsApart, LockedByOther, Supersedable;
    var (after, r) := AppendTx(s, t, command, id, now);
    if r.Staged? {
      var staged := s.open[t].staged;
      FreeId(s, id, r.entry);
      OneIsDistinct(r.entry);
      DistinctConcat(staged, [r.entry]);
      ApartBothWays(s.committed, staged);
      ApartBothWays(s.committed, [r.entry]);
      ApartConcat(staged, [r.entry], s.committed);
      forall u | u in s.open && u != t
        ensures IdsApart(staged + [r.entry], s.open[u].staged) && IdsApart(s.open[u].staged, staged + [r.entry])
      {
        ApartBothWays(s.open[u].staged, [r.entry]);
        ApartConcat(staged, [r.entry], s.open[u].staged);
      }
    }
  }

  lemma CommitKeepsIds(s: Store, t: nat)
    requires IdsInv(s)
    ensures IdsInv(Perform(s, Commit(t)))
  {
    hide DistinctIds, IdsApart;
    if t in s.open {
      DistinctConcat(s.committed, s.open[t].staged);
      forall u | u in s.open && u != t ensures IdsApart(s.committed + s.open[t].staged, s.open[u].staged) {
        ApartConcat(s.committed, s.open[t].staged, s.open[u].staged);
      }
    }
  }

  lemma NothingStaged(entries: seq<Entry>)
    ensures DistinctIds([]) && IdsApart(entries, []) && IdsApart([], entries)
  {
  }

  lemma {:induction false} PerformKeepsIds(s: Store, op: Op)
    requires IdsInv(s)
    ensures IdsInv(Perform(s, op))
  {
    hide DistinctIds, IdsApart, AppendTx;
    match op
    case Write(t, command, id, now) => WriteKeepsIds(s, t, command, id, now);
    case Commit(t) => CommitKeepsIds(s, t);
    case Open(t) =>
      NothingStaged(s.committed);
      forall u | u in s.open ensures IdsApart(s.open[u].staged, []) && IdsApart([], s.open[u].staged) {
        NothingStaged(s.open[u].staged);
      }
    case Rollback(_) =>
  }

  lemma {:induction false} PerformAllKeepsIds(s: Store, ops: seq<Op>)
    requires IdsInv(s)
    ensures IdsInv(PerformAll(s, ops))
  {
    if ops != [] {
      hide IdsInv, Perform;
      PerformAllKeepsIds(s, ops[..|ops| - 1]);
      PerformKeepsIds(PerformAll(s, ops[..|ops| - 1]), ops[|ops| - 1]);
    }
  }

  /** The primary key: under any interleaving committed identifiers are distinct. */
  lemma IdsAreDistinct(runs: map<nat, RunIdentity>, ops: seq<Op>)
    ensures DistinctIds(PerformAll(Empty(runs), ops).committed)
  {
    hide PerformAll;
    PerformAllKeepsIds(Empty(runs), ops);
  }

  // ---------------------------------------------------------------- append-only

  /** Committed history is append-only. */
  lemma {:induction false} LedgerOnlyGrows(s: Store, ops: seq<Op>)
    ensures s.committed <= PerformAll(s, ops).committed
  {
    if ops != [] {
      LedgerOnlyGrows(s, ops[..|ops| - 1]);
    }
  }
}
