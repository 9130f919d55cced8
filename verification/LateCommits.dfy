/** Following invoice cursors loses an entry: two transactions on one invoice overlap, and the one whose
entry was stamped first commits last. */
module LateCommits {
  import opened Domain
  import opened Ledger
  import opened LedgerReads
  import opened InvoiceFollow

  const RUNS := map[1 := RunIdentity(7, "invoice-v1"), 2 := RunIdentity(7, "invoice-v1")]

  /** Two runs of one invoice: the second one's entry is stamped first and committed last. */
  function Overlapping(now: int, id: nat): seq<Op> {
    [Op.Open(0), Op.Open(1), Write(1, Append(2, 7, None, "invoice-v1"), id, now), Write(0, Append(1, 7, None, "invoice-v1"), 10, 100),
     Write(0, Append(1, 7, None, "invoice-v1"), 11, 200), Commit(0), Commit(1)]
  }

  const FIRST := Entry(10, 1, 7, 1, None, 100)
  const SECOND := Entry(11, 1, 7, 2, None, 200)

  function Late(now: int, id: nat): Entry {
    Entry(id, 2, 7, 1, None, now)
  }

  lemma PerformTake(s: Store, ops: seq<Op>, n: nat)
    requires n < |ops|
    ensures PerformAll(s, ops[..n + 1]) == Perform(PerformAll(s, ops[..n]), ops[n])
  {
    assert ops[..n + 1][..n] == ops[..n];
    hide Perform;
  }

  /** The store while both transactions are open. */
  function Both(a: Transaction, b: Transaction): Store {
    Store(RUNS, [], map[0 := a, 1 := b])
  }

  const IDLE := Transaction({}, [])

  function Wrote(t: Transaction, run: nat, id: nat, now: int): Transaction {
    Transaction(t.locks + {run}, t.staged + [Entry(id, run, 7, MaxSequence([] + t.staged, run) + 1, None, now)])
  }

  lemma FreeEverywhere(a: Transaction, b: Transaction, id: nat)
    requires forall e | e in a.staged || e in b.staged :: e.id != id
    ensures !IdTaken(Both(a, b), id)
  {
    ByIdFinds(a.staged, id);
    ByIdFinds(b.staged, id);
    ByIdFinds([], id);
    hide ById;
  }

  lemma FirstWrites(a: Transaction, b: Transaction, id: nat, now: int)
    requires 1 !in b.locks && forall e | e in a.staged || e in b.staged :: e.id != id
    ensures Perform(Both(a, b), Write(0, Append(1, 7, None, "invoice-v1"), id, now)) == Both(Wrote(a, 1, id, now), b)
  {
    FreeEverywhere(a, b, id);
    hide IdTaken, MaxSequence;
    var s, tx := Both(a, b), a.(locks := a.locks + {1});
    assert s.open[0 := tx][0 := Wrote(a, 1, id, now)] == map[0 := Wrote(a, 1, id, now), 1 := b];
  }

  lemma SecondWrites(a: Transaction, b: Transaction, id: nat, now: int)
    requires 2 !in a.locks && forall e | e in a.staged || e in b.staged :: e.id != id
    ensures Perform(Both(a, b), Write(1, Append(2, 7, None, "invoice-v1"), id, now)) == Both(a, Wrote(b, 2, id, now))
  {
    FreeEverywhere(a, b, id);
    hide IdTaken, MaxSequence;
    var s, tx := Both(a, b), b.(locks := b.locks + {2});
    assert s.open[1 := tx][1 := Wrote(b, 2, id, now)] == map[0 := a, 1 := Wrote(b, 2, id, now)];
  }

  lemma MaxOfFew(e: Entry)
    ensures MaxSequence([], e.run) == 0 && MaxSequence([e], e.run) == e.sequence
  {
    assert [e][..0] == [];
  }

  lemma WroteFirst(run: nat, id: nat, now: int)
    ensures Wrote(IDLE, run, id, now) == Transaction({run}, [Entry(id, run, 7, 1, None, now)])
  {
    MaxOfFew(Entry(id, run, 7, 1, None, now));
    hide MaxSequence;
    assert [] + IDLE.staged == [] && {} + {run} == {run};
  }

  lemma WroteNext()
    ensures Wrote(Transaction({1}, [FIRST]), 1, 11, 200) == Transaction({1}, [FIRST, SECOND])
  {
    MaxOfFew(FIRST);
    hide MaxSequence;
    assert [] + [FIRST] == [FIRST] && [FIRST] + [SECOND] == [FIRST, SECOND] && {1} + {1} == {1};
  }

  lemma BothOpen(now: int, id: nat)
    ensures PerformAll(Empty(RUNS), Overlapping(now, id)[..2]) == Both(IDLE, IDLE)
  {
    var ops := Overlapping(now, id);
    PerformTake(Empty(RUNS), ops, 0);
    PerformTake(Empty(RUNS), ops, 1);
    assert map[][0 := IDLE][1 := IDLE] == map[0 := IDLE, 1 := IDLE];
  }

  lemma LateWritten(now: int, id: nat)
    ensures PerformAll(Empty(RUNS), Overlapping(now, id)[..3]) == Both(IDLE, Transaction({2}, [Late(now, id)]))
  {
    hide PerformAll, Perform, Both, Wrote, Empty;
    var ops := Overlapping(now, id);
    BothOpen(now, id);
    WroteFirst(2, id, now);
    PerformTake(Empty(RUNS), ops, 2);
    SecondWrites(IDLE, IDLE, id, now);
  }

  lemma AllWritten(now: int, id: nat)
    requires id !in {10, 11}
    ensures PerformAll(Empty(RUNS), Overlapping(now, id)[..5])
         == Both(Transaction({1}, [FIRST, SECOND]), Transaction({2}, [Late(now, id)]))
  {
    hide PerformAll, Perform, Both, Wrote, Empty;
    var ops, late := Overlapping(now, id), Transaction({2}, [Late(now, id)]);
    LateWritten(now, id);
    WroteFirst(1, 10, 100);
    WroteNext();
    FirstWrites(IDLE, late, 10, 100);
    FirstWrites(Transaction({1}, [FIRST]), late, 11, 200);
    PerformTake(Empty(RUNS), ops, 3);
    PerformTake(Empty(RUNS), ops, 4);
  }

  lemma CommittedInTurn(a: Transaction, b: Transaction)
    ensures Perform(Both(a, b), Commit(0)).committed == a.staged
    ensures Perform(Perform(Both(a, b), Commit(0)), Commit(1)).committed == a.staged + b.staged
  {
  }

  lemma OverlappingCommits(now: int, id: nat)
    requires id !in {10, 11}
    ensures PerformAll(Empty(RUNS), Overlapping(now, id)[..6]).committed == [FIRST, SECOND]
    ensures PerformAll(Empty(RUNS), Overlapping(now, id)[..7]).committed == [FIRST, SECOND, Late(now, id)]
  {
    hide PerformAll, Perform, Both, Empty;
    var ops := Overlapping(now, id);
    AllWritten(now, id);
    CommittedInTurn(Transaction({1}, [FIRST, SECOND]), Transaction({2}, [Late(now, id)]));
    PerformTake(Empty(RUNS), ops, 5);
    PerformTake(Empty(RUNS), ops, 6);
    assert [FIRST, SECOND] + [Late(now, id)] == [FIRST, SECOND, Late(now, id)];
  }

  lemma OverlappingReads(now: int, id: nat)
    requires id !in {10, 11}
    ensures ReadAlong(RUNS, Overlapping(now, id), [6, 7], [[FIRST, SECOND], [FIRST, SECOND, Late(now, id)]])
  {
    OverlappingCommits(now, id);
    hide PerformAll;
    var cuts := [6, 7];
    assert cuts[0] == 6 && cuts[1] == 7;
  }

  lemma OneRow(e: Entry)
    requires e.invoice == 7
    ensures OfInvoice([e], 7) == [e]
  {
    assert [e][1..] == [];
  }

  lemma FirstPageRead()
    ensures InvoicePage([FIRST, SECOND], 7, 1, None) == Ok(Page([FIRST], Some(Cursor(7, (100, 10)))))
  {
    OneRow(SECOND);
    assert [FIRST, SECOND][1..] == [SECOND];
    assert OfInvoice([FIRST, SECOND], 7) == [FIRST, SECOND];
    PastAll([FIRST, SECOND]);
    hide OfInvoice, Past;
    assert [FIRST, SECOND][..1] == [FIRST] && [FIRST, SECOND][..2] == [FIRST, SECOND];
  }

  /** An entry that is not past the cursor. */
  predicate Behind(e: Entry) {
    e.invoice == 7 && e.id !in {10, 11} && !Before((100, 10), KeyOf(e))
  }

  /** It sorts first, in front of the cursor. */
  lemma LateSortsFirst(late: Entry)
    requires Behind(late)
    ensures OfInvoice([FIRST, SECOND, late], 7) == [late, FIRST, SECOND]
  {
    OneRow(late);
    assert [FIRST, SECOND, late][1..] == [SECOND, late] && [SECOND, late][1..] == [late];
    assert Insert(SECOND, [late]) == [late, SECOND] by { assert [late][1..] == [] && Insert(SECOND, []) == [SECOND]; }
    assert Insert(FIRST, [late, SECOND]) == [late, FIRST, SECOND] by {
      assert [late, SECOND][1..] == [SECOND] && Insert(FIRST, [SECOND]) == [FIRST, SECOND];
    }
    hide Insert;
  }

  lemma LastPageRead(late: Entry)
    requires Behind(late)
    ensures InvoicePage([FIRST, SECOND, late], 7, 1, Some(Cursor(7, (100, 10)))) == Ok(Page([SECOND], None))
  {
    var rows := [late, FIRST, SECOND];
    LateSortsFirst(late);
    hide OfInvoice;
    assert rows[1..] == [FIRST, SECOND] && rows[1..][1..] == [SECOND] && [SECOND][1..] == [];
    assert Past([SECOND], Some((100, 10))) == [SECOND];
    assert Past(rows, Some((100, 10))) == [SECOND];
    hide Past;
    assert [SECOND][..1] == [SECOND];
  }

  lemma TwoReads(early: seq<Entry>, late: seq<Entry>, first: seq<Entry>, key: Key, last: seq<Entry>)
    requires InvoicePage(early, 7, 1, None) == Ok(Page(first, Some(Cursor(7, key))))
    requires InvoicePage(late, 7, 1, Some(Cursor(7, key))) == Ok(Page(last, None))
    ensures Follow([early, late], 7, 1, None) == (first + last, true, [key])
  {
    hide InvoicePage;
    assert [early, late][1..] == [late];
    assert Follow([late], 7, 1, Some(key)) == (last, true, []);
    assert [key] + [] == [key];
  }

  /** Following reads two pages and ends without the late entry, although the query would return it. */
  predicate Lost(early: seq<Entry>, late: seq<Entry>, e: Entry) {
    && Follow([early, late], 7, 1, None) == ([FIRST, SECOND], true, [(100, 10)])
    && e in OfInvoice(late, 7) && !CommittedInKeyOrder(late, 7)
  }

  lemma BehindIsLost(e: Entry)
    requires Behind(e)
    ensures Lost([FIRST, SECOND], [FIRST, SECOND, e], e)
  {
    var early, late := [FIRST, SECOND], [FIRST, SECOND, e];
    FirstPageRead();
    LastPageRead(e);
    LateSortsFirst(e);
    hide InvoicePage, OfInvoice, Follow;
    TwoReads(early, late, [FIRST], (100, 10), [SECOND]);
    assert [FIRST] + [SECOND] == early;
    assert late[0] == FIRST && late[2] == e;
  }

  /** An entry stamped no later than the first page's cursor and committed after that page was read is on
  no page, and reading ends without it: with an earlier clock reading such as 50, although the clock
  never went back, or with the same reading 100 and a smaller identifier such as 5. */
  lemma LateCommitIsLost(now: int, id: nat)
    requires id !in {10, 11} && !Before((100, 10), (now, id))
    ensures var early, late := [FIRST, SECOND], [FIRST, SECOND, Late(now, id)];
            ReadAlong(RUNS, Overlapping(now, id), [6, 7], [early, late]) && Lost(early, late, Late(now, id))
    ensures !Before((100, 10), (50, 12)) && !Before((100, 10), (100, 5))
  {
    OverlappingReads(now, id);
    BehindIsLost(Late(now, id));
    hide ReadAlong, Lost;
  }

  // ---------------------------------------------------------------- within one run

  /** One run, one transaction after the other. */
  function OneAfterTheOther(now: int, id: nat): seq<Op> {
    [Op.Open(0), Write(0, Append(1, 7, None, "invoice-v1"), 10, 100), Write(0, Append(1, 7, None, "invoice-v1"), 11, 200),
     Commit(0), Op.Open(1), Write(1, Append(1, 7, None, "invoice-v1"), id, now), Commit(1)]
  }

  function Third(now: int, id: nat): Entry {
    Entry(id, 1, 7, 3, None, now)
  }

  /** The store with one open transaction. */
  function Alone(committed: seq<Entry>, t: nat, tx: Transaction): Store {
    Store(RUNS, committed, map[t := tx])
  }

  lemma FreeAlone(committed: seq<Entry>, t: nat, tx: Transaction, id: nat)
    requires forall e | e in committed || e in tx.staged :: e.id != id
    ensures !IdTaken(Alone(committed, t, tx), id)
  {
    ByIdFinds(committed, id);
    ByIdFinds(tx.staged, id);
    hide ById;
  }

  lemma WritesAlone(committed: seq<Entry>, t: nat, tx: Transaction, id: nat, now: int)
    requires forall e | e in committed || e in tx.staged :: e.id != id
    ensures var e := Entry(id, 1, 7, MaxSequence(committed + tx.staged, 1) + 1, None, now);
            Perform(Alone(committed, t, tx), Write(t, Append(1, 7, None, "invoice-v1"), id, now))
            == Alone(committed, t, Transaction(tx.locks + {1}, tx.staged + [e]))
  {
    FreeAlone(committed, t, tx, id);
    hide IdTaken, MaxSequence;
    var s, locked := Alone(committed, t, tx), tx.(locks := tx.locks + {1});
    var e := Entry(id, 1, 7, MaxSequence(committed + tx.staged, 1) + 1, None, now);
    var after := Transaction(tx.locks + {1}, tx.staged + [e]);
    assert s.open[t := locked][t := after] == map[t := after];
  }

  lemma OpensAlone(committed: seq<Entry>, t: nat)
    ensures Perform(Store(RUNS, committed, map[]), Op.Open(t)) == Alone(committed, t, IDLE)
  {
    assert map[][t := IDLE] == map[t := IDLE];
  }

  lemma CommitsAlone(committed: seq<Entry>, t: nat, tx: Transaction)
    ensures Perform(Alone(committed, t, tx), Commit(t)) == Store(RUNS, committed + tx.staged, map[])
  {
    assert Close(map[t := tx], t) == map[];
  }

  lemma MaxOfTwo()
    ensures MaxSequence([FIRST, SECOND], 1) == 2
  {
    assert [FIRST, SECOND][..1] == [FIRST];
    MaxOfFew(FIRST);
  }

  const ONE := Transaction({1}, [FIRST])
  const TWO := Transaction({1}, [FIRST, SECOND])

  lemma FirstAlone()
    ensures Perform(Alone([], 0, IDLE), Write(0, Append(1, 7, None, "invoice-v1"), 10, 100)) == Alone([], 0, ONE)
  {
    WritesAlone([], 0, IDLE, 10, 100);
    MaxOfFew(FIRST);
    hide Perform, MaxSequence;
    var none: seq<Entry> := [];
    assert none + none == none && none + [FIRST] == [FIRST] && {} + {1} == {1};
  }

  lemma SecondAlone()
    ensures Perform(Alone([], 0, ONE), Write(0, Append(1, 7, None, "invoice-v1"), 11, 200)) == Alone([], 0, TWO)
  {
    WritesAlone([], 0, ONE, 11, 200);
    MaxOfFew(FIRST);
    hide Perform, MaxSequence;
    assert [] + [FIRST] == [FIRST] && [FIRST] + [SECOND] == [FIRST, SECOND] && {1} + {1} == {1};
  }

  lemma ThirdAlone(now: int, id: nat)
    requires id !in {10, 11}
    ensures Perform(Alone([FIRST, SECOND], 1, IDLE), Write(1, Append(1, 7, None, "invoice-v1"), id, now))
         == Alone([FIRST, SECOND], 1, Transaction({1}, [Third(now, id)]))
  {
    WritesAlone([FIRST, SECOND], 1, IDLE, id, now);
    MaxOfTwo();
    hide Perform, MaxSequence;
    assert [FIRST, SECOND] + [] == [FIRST, SECOND] && [] + [Third(now, id)] == [Third(now, id)] && {} + {1} == {1};
  }

  lemma NothingPerformed(ops: seq<Op>)
    ensures PerformAll(Empty(RUNS), ops[..0]) == Store(RUNS, [], map[])
  {
  }

  lemma FirstTransaction(now: int, id: nat)
    ensures PerformAll(Empty(RUNS), OneAfterTheOther(now, id)[..4]) == Store(RUNS, [FIRST, SECOND], map[])
  {
    hide Perform, PerformAll, Alone, Empty;
    var ops := OneAfterTheOther(now, id);
    NothingPerformed(ops);
    PerformTake(Empty(RUNS), ops, 0);
    OpensAlone([], 0);
    PerformTake(Empty(RUNS), ops, 1);
    FirstAlone();
    PerformTake(Empty(RUNS), ops, 2);
    SecondAlone();
    PerformTake(Empty(RUNS), ops, 3);
    CommitsAlone([], 0, TWO);
    assert [] + TWO.staged == [FIRST, SECOND];
  }

  lemma SecondTransaction(now: int, id: nat)
    requires id !in {10, 11}
    ensures PerformAll(Empty(RUNS), OneAfterTheOther(now, id)[..7]).committed == [FIRST, SECOND, Third(now, id)]
  {
    hide Perform, PerformAll, Alone, Empty;
    var ops, both := OneAfterTheOther(now, id), [FIRST, SECOND];
    FirstTransaction(now, id);
    PerformTake(Empty(RUNS), ops, 4);
    OpensAlone(both, 1);
    PerformTake(Empty(RUNS), ops, 5);
    ThirdAlone(now, id);
    PerformTake(Empty(RUNS), ops, 6);
    CommitsAlone(both, 1, Transaction({1}, [Third(now, id)]));
    assert both + [Third(now, id)] == [FIRST, SECOND, Third(now, id)];
  }

  /** Within one run the row lock keeps the order of commits, so it takes a clock that steps back, or stands
  still while the new identifier is smaller: then the run's own later entry is lost in the same way. */
  lemma LaterEntryIsLost(now: int, id: nat)
    requires id !in {10, 11} && !Before((100, 10), (now, id))
    ensures var early, late := [FIRST, SECOND], [FIRST, SECOND, Third(now, id)];
            ReadAlong(RUNS, OneAfterTheOther(now, id), [4, 7], [early, late]) && Lost(early, late, Third(now, id))
  {
    FirstTransaction(now, id);
    SecondTransaction(now, id);
    BehindIsLost(Third(now, id));
    hide PerformAll, Lost;
    var cuts := [4, 7];
    assert cuts[0] == 4 && cuts[1] == 7;
  }
}
