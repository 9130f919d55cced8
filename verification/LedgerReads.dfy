/** Keyset reads of the committed ledger (ledger/reader.py). */
module LedgerReads {
  import opened Domain
  import opened Ledger

  datatype ReadError = CursorMismatch | InvalidLimit

  datatype Cursor<K> = Cursor(scope: nat, key: K)

  datatype Page<K> = Page(events: seq<Entry>, next: Option<Cursor<K>>)

  function Least(n: nat, s: seq<Entry>): nat {
    if n < |s| then n else |s|
  }

  /** Reading one row more than the limit tells whether there is a next page. */
  lemma PageOfRest(rows: seq<Entry>, n: nat, limit: nat)
    requires n <= |rows|
    ensures var found := rows[n..][..Least(limit + 1, rows[n..])];
            && (|found| > limit <==> n + limit < |rows|)
            && found[..Least(limit, found)] == if n + limit < |rows| then rows[n..n + limit] else rows[n..]
  {
  }

  lemma JoinSlices(rows: seq<Entry>, n: nat, m: nat, k: nat)
    requires n <= m <= k <= |rows|
    ensures rows[n..m] + rows[m..k] == rows[n..k]
  {
  }

  // ---------------------------------------------------------------- one run

  function After(entries: seq<Entry>, sequence: nat): seq<Entry> {
    if entries == [] then []
    else
      var last := entries[|entries| - 1];
      After(entries[..|entries| - 1], sequence) + if last.sequence > sequence then [last] else []
  }

  /** In dense history the rows past a sequence are the entries past that position, in order. */
  lemma {:induction false} AfterIsSuffix(entries: seq<Entry>, sequence: nat)
    requires forall i | 0 <= i < |entries| :: entries[i].sequence == i + 1
    ensures After(entries, sequence) == if sequence <= |entries| then entries[sequence..] else []
  {
    if entries != [] {
      var front, last := entries[..|entries| - 1], entries[|entries| - 1];
      assert entries == front + [last];
      AfterIsSuffix(front, sequence);
      if sequence <= |front| {
        assert front[sequence..] + [last] == entries[sequence..];
      }
    }
  }

  /** Runs of the reader's first query: rows of the run past the cursor, one more than the limit. */
  function RunRows(entries: seq<Entry>, run: nat, sequence: nat, limit: nat): seq<Entry> {
    var rows := After(OfRun(entries, run), sequence);
    rows[..Least(limit + 1, rows)]
  }

  function RunPage(entries: seq<Entry>, run: nat, limit: nat, after: Option<Cursor<nat>>): Result<Page<nat>, ReadError> {
    if !(1 <= limit <= 200) then Err(InvalidLimit)
    else if after.Some? && after.value.scope != run then Err(CursorMismatch)
    else
      var rows := RunRows(entries, run, if after.Some? then after.value.key else 0, limit);
      var events := rows[..Least(limit, rows)];
      Ok(Page(events, if |rows| > limit then Some(Cursor(run, events[|events| - 1].sequence)) else None))
  }

  /** A page is refused exactly for a limit that is not between one and two hundred, or for another run's cursor. */
  lemma RunPageRefused(entries: seq<Entry>, run: nat, limit: nat, after: Option<Cursor<nat>>)
    ensures RunPage(entries, run, limit, after) == Err(InvalidLimit) <==> limit == 0 || limit > 200
    ensures RunPage(entries, run, limit, after) == Err(CursorMismatch) <==> 0 < limit <= 200 && after.Some? && after.value.scope != run
  {
    hide RunRows;
  }

  /** Reading page after page, each from its own, possibly later, state of the ledger. */
  function FollowRun(ledgers: seq<seq<Entry>>, run: nat, limit: nat, after: Option<Cursor<nat>>): (seq<Entry>, bool)
    requires 1 <= limit <= 200 && (after.Some? ==> after.value.scope == run)
  {
    if ledgers == [] then ([], false)
    else
      var page := RunPage(ledgers[0], run, limit, after).value;
      if page.next == None then (page.events, true)
      else
        var (more, done) := FollowRun(ledgers[1..], run, limit, page.next);
        (page.events + more, done)
  }

  predicate Growing(histories: seq<seq<Entry>>) {
    forall i, j | 0 <= i <= j < |histories| :: histories[i] <= histories[j]
  }

  /** The history of the run at each read. */
  function Histories(ledgers: seq<seq<Entry>>, run: nat): (h: seq<seq<Entry>>)
    ensures |h| == |ledgers| && forall i | 0 <= i < |h| :: h[i] == OfRun(ledgers[i], run)
  {
    if ledgers == [] then [] else [OfRun(ledgers[0], run)] + Histories(ledgers[1..], run)
  }

  predicate DenseHistory(h: seq<Entry>) {
    forall i | 0 <= i < |h| :: h[i].sequence == i + 1
  }

  /** One page is the next `limit` entries; its cursor, if any, is their end. */
  lemma PageIsSlice(entries: seq<Entry>, run: nat, limit: nat, after: Option<Cursor<nat>>, n: nat)
    requires 1 <= limit <= 200 && DenseHistory(OfRun(entries, run)) && n <= |OfRun(entries, run)|
    requires after == (if n == 0 then after else Some(Cursor(run, n)))
    requires n == 0 ==> after == None || after == Some(Cursor(run, 0))
    ensures var h, page := OfRun(entries, run), RunPage(entries, run, limit, after).value;
            if n + limit < |h| then page == Page(h[n..n + limit], Some(Cursor(run, n + limit)))
            else page == Page(h[n..], None)
  {
    var h := OfRun(entries, run);
    AfterIsSuffix(h, n);
    hide OfRun, After, DenseHistory;
    assert RunRows(entries, run, n, limit) == h[n..][..Least(limit + 1, h[n..])];
    PageOfRest(h, n, limit);
    if n + limit < |h| {
      DenseAt(h, n + limit - 1);
    }
    hide Least;
  }

  lemma DenseAt(h: seq<Entry>, i: nat)
    requires DenseHistory(h) && i < |h|
    ensures h[i].sequence == i + 1
  {
  }

  /** The same reads as slices of the run's history at each read. */
  function Slices(histories: seq<seq<Entry>>, limit: nat, n: nat): (seq<Entry>, bool) {
    if histories == [] || n > |histories[0]| then ([], false)
    else if n + limit >= |histories[0]| then (histories[0][n..], true)
    else
      var (more, done) := Slices(histories[1..], limit, n + limit);
      (histories[0][n..n + limit] + more, done)
  }

  lemma GrowingTail(hs: seq<seq<Entry>>)
    requires hs != [] && Growing(hs)
    ensures Growing(hs[1..])
    ensures |hs| > 1 ==> hs[0] <= hs[1]
    ensures hs[0] <= hs[|hs| - 1]
  {
    assert forall i | 0 <= i < |hs| - 1 :: hs[1..][i] == hs[i + 1];
  }

  lemma DenseTail(hs: seq<seq<Entry>>)
    requires hs != [] && forall h <- hs :: DenseHistory(h)
    ensures DenseHistory(hs[0]) && forall h <- hs[1..] :: DenseHistory(h)
  {
    hide DenseHistory;
  }

  function PageCursor(run: nat, n: nat): Option<Cursor<nat>> {
    if n == 0 then None else Some(Cursor(run, n))
  }

  lemma FollowStep(ledgers: seq<seq<Entry>>, run: nat, limit: nat, n: nat)
    requires 1 <= limit <= 200 && ledgers != []
    requires DenseHistory(OfRun(ledgers[0], run)) && n <= |OfRun(ledgers[0], run)|
    ensures var h := OfRun(ledgers[0], run);
            var rest := FollowRun(ledgers[1..], run, limit, PageCursor(run, n + limit));
            FollowRun(ledgers, run, limit, PageCursor(run, n))
            == if n + limit < |h| then (h[n..n + limit] + rest.0, rest.1) else (h[n..], true)
  {
    hide RunPage, OfRun, DenseHistory;
    PageIsSlice(ledgers[0], run, limit, PageCursor(run, n), n);
  }

  lemma SlicesStep(histories: seq<seq<Entry>>, limit: nat, n: nat)
    requires histories != [] && n <= |histories[0]|
    ensures var h, rest := histories[0], Slices(histories[1..], limit, n + limit);
            Slices(histories, limit, n) == if n + limit < |h| then (h[n..n + limit] + rest.0, rest.1) else (h[n..], true)
  {
  }

  lemma {:induction false} FollowIsSlices(ledgers: seq<seq<Entry>>, run: nat, limit: nat, n: nat)
    requires 1 <= limit <= 200
    requires forall h <- Histories(ledgers, run) :: DenseHistory(h)
    requires Growing(Histories(ledgers, run))
    requires ledgers != [] ==> n <= |OfRun(ledgers[0], run)|
    ensures FollowRun(ledgers, run, limit, PageCursor(run, n)) == Slices(Histories(ledgers, run), limit, n)
    decreases |ledgers|
  {
    if ledgers != [] {
      hide FollowRun, OfRun, DenseHistory, Growing, Histories, PageCursor, Slices;
      var hs := Histories(ledgers, run);
      SlicesStep(hs, limit, n);
      GrowingTail(hs);
      DenseTail(hs);
      TailHistories(ledgers, run);
      FollowStep(ledgers, run, limit, n);
      if n + limit < |hs[0]| {
        FollowIsSlices(ledgers[1..], run, limit, n + limit);
      }
    }
  }

  lemma TailHistories(ledgers: seq<seq<Entry>>, run: nat)
    requires ledgers != []
    ensures Histories(ledgers[1..], run) == Histories(ledgers, run)[1..]
  {
    hide OfRun;
  }

  /** The number of events in `k` full pages. */
  function FullPages(limit: nat, k: nat): nat {
    if k == 0 then 0 else limit + FullPages(limit, k - 1)
  }

  /** What was read is the part of the last history after `n`, and all of some history when it ended. */
  predicate ReadPart(histories: seq<seq<Entry>>, limit: nat, n: nat, events: seq<Entry>, done: bool) {
    histories != [] &&
    var last := histories[|histories| - 1];
    && n + |events| <= |last| && events == last[n..n + |events|]
    && (!done ==> |events| == FullPages(limit, |histories|))
    && (done ==> exists h <- histories :: n + |events| == |h|)
  }

  lemma ReadOn(histories: seq<seq<Entry>>, limit: nat, n: nat, more: seq<Entry>, done: bool)
    requires |histories| > 1 && histories[0] <= histories[|histories| - 1] && n + limit < |histories[0]|
    requires ReadPart(histories[1..], limit, n + limit, more, done)
    ensures ReadPart(histories, limit, n, histories[0][n..n + limit] + more, done)
  {
    var first, rest, last := histories[0], histories[1..], histories[|histories| - 1];
    assert rest[|rest| - 1] == last;
    assert last[n..n + limit] + last[n + limit..n + limit + |more|] == last[n..n + limit + |more|];
    assert first[n..n + limit] == last[n..n + limit];
  }

  lemma {:induction false} SlicesArePrefix(histories: seq<seq<Entry>>, limit: nat, n: nat)
    requires histories != [] && Growing(histories) && n <= |histories[0]|
    ensures ReadPart(histories, limit, n, Slices(histories, limit, n).0, Slices(histories, limit, n).1)
    decreases |histories|
  {
    hide Growing;
    GrowingTail(histories);
    var first, last := histories[0], histories[|histories| - 1];
    if n + limit >= |first| {
      assert first in histories;
    } else if |histories| == 1 {
      assert Slices(histories[1..], limit, n + limit) == ([], false);
      assert first[n..n + limit] + [] == last[n..n + limit];
      assert FullPages(limit, 1) == limit + FullPages(limit, 0);
    } else {
      SlicesArePrefix(histories[1..], limit, n + limit);
      var (more, done) := Slices(histories[1..], limit, n + limit);
      ReadOn(histories, limit, n, more, done);
      hide ReadPart;
    }
  }

  /** Following run cursors while events are appended returns every event once, in order: what has
  been read is always a prefix of the history at the last read, full pages until no cursor is left,
  and then the whole history at the read that ended. */
  lemma FollowReturnsHistory(ledgers: seq<seq<Entry>>, run: nat, limit: nat)
    requires 1 <= limit <= 200 && ledgers != []
    requires forall h <- Histories(ledgers, run) :: DenseHistory(h)
    requires Growing(Histories(ledgers, run))
    ensures var (events, done) := FollowRun(ledgers, run, limit, None);
            && events <= OfRun(ledgers[|ledgers| - 1], run)
            && (!done ==> |events| == FullPages(limit, |ledgers|))
            && (done ==> exists h <- Histories(ledgers, run) :: events == h)
  {
    hide OfRun, DenseHistory;
    var hs := Histories(ledgers, run);
    FollowIsSlices(ledgers, run, limit, 0);
    SlicesArePrefix(hs, limit, 0);
    var (events, done) := Slices(hs, limit, 0);
    var last := hs[|hs| - 1];
    assert last == OfRun(ledgers[|ledgers| - 1], run);
    assert last[0..|events|] == last[..|events|];
    if done {
      var h :| h in hs && |events| == |h|;
      var i :| 0 <= i < |hs| && hs[i] == h;
      assert h <= last;
    }
  }

  /** The committed ledger at each of the reads, taken along one history of transactions. */
  predicate ReadAlong(runs: map<nat, RunIdentity>, ops: seq<Op>, cuts: seq<nat>, ledgers: seq<seq<Entry>>) {
    && |cuts| == |ledgers|
    && (forall i | 0 <= i < |cuts| :: cuts[i] <= |ops| && ledgers[i] == PerformAll(Empty(runs), ops[..cuts[i]]).committed)
    && (forall i, j | 0 <= i <= j < |cuts| :: cuts[i] <= cuts[j])
  }

  lemma {:induction false} PerformAllConcat(s: Store, first: seq<Op>, more: seq<Op>)
    ensures PerformAll(s, first + more) == PerformAll(PerformAll(s, first), more)
  {
    if more == [] {
      assert first + more == first;
    } else {
      hide Perform;
      assert (first + more)[..|first + more| - 1] == first + more[..|more| - 1];
      PerformAllConcat(s, first, more[..|more| - 1]);
    }
  }

  lemma LaterIsLonger(runs: map<nat, RunIdentity>, ops: seq<Op>, i: nat, j: nat, run: nat)
    requires i <= j <= |ops|
    ensures OfRun(PerformAll(Empty(runs), ops[..i]).committed, run) <= OfRun(PerformAll(Empty(runs), ops[..j]).committed, run)
  {
    hide PerformAll, OfRun;
    assert ops[..j] == ops[..i] + ops[i..j];
    PerformAllConcat(Empty(runs), ops[..i], ops[i..j]);
    var early, late := PerformAll(Empty(runs), ops[..i]), PerformAll(Empty(runs), ops[..j]);
    LedgerOnlyGrows(early, ops[i..j]);
    assert late.committed == early.committed + late.committed[|early.committed|..];
    OfRunConcat(early.committed, late.committed[|early.committed|..], run);
  }

  /** Reading a run page by page while transactions commit and roll back in between loses nothing,
  repeats nothing and keeps the order. */
  lemma FollowWhileAppending(
    runs: map<nat, RunIdentity>, ops: seq<Op>, cuts: seq<nat>, ledgers: seq<seq<Entry>>, run: nat, limit: nat)
    requires 1 <= limit <= 200 && ledgers != [] && ReadAlong(runs, ops, cuts, ledgers)
    ensures var (events, done) := FollowRun(ledgers, run, limit, None);
            && events <= OfRun(ledgers[|ledgers| - 1], run)
            && (!done ==> |events| == FullPages(limit, |ledgers|))
            && (done ==> exists h <- Histories(ledgers, run) :: events == h)
  {
    var hs := Histories(ledgers, run);
    hide OfRun, FollowRun, PerformAll, Histories;
    forall i, j | 0 <= i <= j < |hs| ensures hs[i] <= hs[j] {
      LaterIsLonger(runs, ops, cuts[i], cuts[j], run);
    }
    forall h | h in hs ensures DenseHistory(h) {
      var i :| 0 <= i < |hs| && hs[i] == h;
      LedgerIsSound(runs, ops[..cuts[i]], run);
    }
    FollowReturnsHistory(ledgers, run, limit);
  }

  // ---------------------------------------------------------------- one invoice

  /** (created_at, id) as the database orders it. */
  predicate Before(a: (int, nat), b: (int, nat)) {
    a.0 < b.0 || (a.0 == b.0 && a.1 < b.1)
  }

  function KeyOf(e: Entry): (int, nat) {
    (e.createdAt, e.id)
  }

  function Insert(e: Entry, sorted: seq<Entry>): seq<Entry> {
    if sorted == [] || Before(KeyOf(e), KeyOf(sorted[0])) then [e] + sorted
    else [sorted[0]] + Insert(e, sorted[1..])
  }

  /** The rows of one invoice in key order. */
  function OfInvoice(entries: seq<Entry>, invoice: nat): seq<Entry> {
    if entries == [] then []
    else
      var rest := OfInvoice(entries[1..], invoice);
      if entries[0].invoice == invoice then Insert(entries[0], rest) else rest
  }

  predicate Sorted(rows: seq<Entry>) {
    forall i, j | 0 <= i < j < |rows| :: Before(KeyOf(rows[i]), KeyOf(rows[j]))
  }

  function Past(rows: seq<Entry>, after: Option<(int, nat)>): seq<Entry> {
    if rows == [] then []
    else if after == None || Before(after.value, KeyOf(rows[0])) then [rows[0]] + Past(rows[1..], after)
    else Past(rows[1..], after)
  }

  function InvoicePage(entries: seq<Entry>, invoice: nat, limit: nat, after: Option<Cursor<(int, nat)>>)
    : Result<Page<(int, nat)>, ReadError>
  {
    if !(1 <= limit <= 200) then Err(InvalidLimit)
    else if after.Some? && after.value.scope != invoice then Err(CursorMismatch)
    else
      var found := Past(OfInvoice(entries, invoice), if after.Some? then Some(after.value.key) else None);
      var rows := found[..Least(limit + 1, found)];
      var events := rows[..Least(limit, rows)];
      Ok(Page(events, if |rows| > limit then Some(Cursor(invoice, KeyOf(events[|events| - 1]))) else None))
  }

  lemma InvoicePageRefused(entries: seq<Entry>, invoice: nat, limit: nat, after: Option<Cursor<(int, nat)>>)
    ensures InvoicePage(entries, invoice, limit, after) == Err(InvalidLimit) <==> limit == 0 || limit > 200
    ensures InvoicePage(entries, invoice, limit, after) == Err(CursorMismatch) <==>
              0 < limit <= 200 && after.Some? && after.value.scope != invoice
  {
    hide OfInvoice, Past;
  }

  function FollowInvoice(ledger: seq<Entry>, invoice: nat, limit: nat, after: Option<Cursor<(int, nat)>>, pages: nat)
    : (seq<Entry>, bool)
    requires 1 <= limit <= 200 && (after.Some? ==> after.value.scope == invoice)
    decreases pages
  {
    if pages == 0 then ([], false)
    else
      var page := InvoicePage(ledger, invoice, limit, after).value;
      if page.next == None then (page.events, true)
      else
        var (more, done) := FollowInvoice(ledger, invoice, limit, page.next, pages - 1);
        (page.events + more, done)
  }

  lemma {:induction false} InsertSorted(e: Entry, sorted: seq<Entry>)
    requires Sorted(sorted) && forall x <- sorted :: x.id != e.id
    ensures Sorted(Insert(e, sorted)) && multiset(Insert(e, sorted)) == multiset(sorted) + multiset{e}
  {
    if sorted == [] || Before(KeyOf(e), KeyOf(sorted[0])) {
    } else {
      var rest := Insert(e, sorted[1..]);
      assert sorted == [sorted[0]] + sorted[1..];
      InsertSorted(e, sorted[1..]);
      forall x | x in rest ensures Before(KeyOf(sorted[0]), KeyOf(x)) {
        assert x in multiset(rest);
        if x != e {
          assert x in sorted[1..];
          var i :| 0 <= i < |sorted[1..]| && sorted[1..][i] == x;
          assert sorted[i + 1] == x;
        }
      }
    }
  }

  function Filtered(entries: seq<Entry>, invoice: nat): seq<Entry> {
    if entries == [] then []
    else (if entries[0].invoice == invoice then [entries[0]] else []) + Filtered(entries[1..], invoice)
  }

  /** The query returns exactly the invoice's rows, each once, in strictly ascending key order. */
  lemma {:induction false} OfInvoiceSorted(entries: seq<Entry>, invoice: nat)
    requires DistinctIds(entries)
    ensures Sorted(OfInvoice(entries, invoice))
    ensures multiset(OfInvoice(entries, invoice)) == multiset(Filtered(entries, invoice))
    ensures forall e <- OfInvoice(entries, invoice) :: e in entries
  {
    if entries != [] {
      var first, rest := entries[0], OfInvoice(entries[1..], invoice);
      OfInvoiceSorted(entries[1..], invoice);
      forall x | x in rest ensures x in entries && x.id != first.id {
        var i :| 0 <= i < |entries[1..]| && entries[1..][i] == x;
        assert entries[i + 1] == x;
      }
      if first.invoice == invoice {
        InsertSorted(first, rest);
        forall x | x in Insert(first, rest) ensures x in entries {
          assert x in multiset(Insert(first, rest));
        }
      }
    }
  }

  lemma {:induction false} PastAll(rows: seq<Entry>)
    ensures Past(rows, None) == rows
  {
    if rows != [] {
      PastAll(rows[1..]);
    }
  }

  lemma {:induction false} PastNothing(rows: seq<Entry>, key: (int, nat))
    requires forall e <- rows :: Before(key, KeyOf(e))
    ensures Past(rows, Some(key)) == rows
  {
    if rows != [] {
      PastNothing(rows[1..], key);
    }
  }

  /** A cursor at position n resumes exactly after it. */
  lemma {:induction false} PastCursor(rows: seq<Entry>, n: nat)
    requires Sorted(rows) && 0 < n <= |rows|
    ensures Past(rows, Some(KeyOf(rows[n - 1]))) == rows[n..]
  {
    var key := KeyOf(rows[n - 1]);
    assert !Before(key, KeyOf(rows[0]));
    if n == 1 {
      forall e | e in rows[1..] ensures Before(key, KeyOf(e)) {
        var i :| 0 <= i < |rows[1..]| && rows[1..][i] == e;
        assert rows[i + 1] == e;
      }
      PastNothing(rows[1..], key);
    } else {
      assert rows[n - 1] == rows[1..][n - 2];
      PastCursor(rows[1..], n - 1);
    }
  }

  function At(rows: seq<Entry>, invoice: nat, n: nat): Option<Cursor<(int, nat)>>
    requires n <= |rows|
  {
    if n == 0 then None else Some(Cursor(invoice, KeyOf(rows[n - 1])))
  }

  lemma InvoicePageIsSlice(ledger: seq<Entry>, invoice: nat, limit: nat, n: nat)
    requires 1 <= limit <= 200 && DistinctIds(ledger) && n <= |OfInvoice(ledger, invoice)|
    ensures var rows := OfInvoice(ledger, invoice);
            var page := InvoicePage(ledger, invoice, limit, At(rows, invoice, n)).value;
            if n + limit < |rows| then page == Page(rows[n..n + limit], At(rows, invoice, n + limit))
            else page == Page(rows[n..], None)
  {
    hide OfInvoice, Past, Sorted, DistinctIds, Before, KeyOf;
    var rows := OfInvoice(ledger, invoice);
    OfInvoiceSorted(ledger, invoice);
    PastAll(rows);
    if n > 0 {
      PastCursor(rows, n);
    }
    assert n == 0 ==> rows[n..] == rows;
    PageOfRest(rows, n, limit);
    hide Least;
  }

  lemma FollowInvoiceStep(ledger: seq<Entry>, invoice: nat, limit: nat, pages: nat, n: nat)
    requires 1 <= limit <= 200 && DistinctIds(ledger) && n <= |OfInvoice(ledger, invoice)| && pages > 0
    ensures var rows := OfInvoice(ledger, invoice);
            FollowInvoice(ledger, invoice, limit, At(rows, invoice, n), pages)
            == if n + limit < |rows|
               then var (more, done) := FollowInvoice(ledger, invoice, limit, At(rows, invoice, n + limit), pages - 1);
                    (rows[n..n + limit] + more, done)
               else (rows[n..], true)
  {
    hide OfInvoice, InvoicePage, DistinctIds, KeyOf;
    InvoicePageIsSlice(ledger, invoice, limit, n);
  }

  /** The events of up to `pages` pages from position n: the rest of the rows, or full pages of it. */
  predicate InvoiceRead(rows: seq<Entry>, limit: nat, pages: nat, n: nat, events: seq<Entry>, done: bool) {
    && n + |events| <= |rows| && events == rows[n..n + |events|]
    && (done <==> pages > 0 && |rows| - n <= FullPages(limit, pages))
    && (done ==> n + |events| == |rows|)
    && (!done ==> |events| == FullPages(limit, pages))
  }

  lemma InvoiceReadOn(rows: seq<Entry>, limit: nat, pages: nat, n: nat, more: seq<Entry>, done: bool)
    requires limit >= 1 && pages > 0 && n + limit < |rows| && InvoiceRead(rows, limit, pages - 1, n + limit, more, done)
    ensures InvoiceRead(rows, limit, pages, n, rows[n..n + limit] + more, done)
  {
    JoinSlices(rows, n, n + limit, n + limit + |more|);
  }

  lemma InvoiceReadEnds(rows: seq<Entry>, limit: nat, pages: nat, n: nat)
    requires n <= |rows|
    ensures pages > 0 && n + limit >= |rows| ==> InvoiceRead(rows, limit, pages, n, rows[n..], true)
    ensures InvoiceRead(rows, limit, 0, n, [], false)
  {
  }

  /** On a fixed ledger, following invoice cursors returns the invoice's rows once each in key
  order, all of them once enough pages were read. */
  lemma {:induction false} FollowInvoiceReturnsAll(ledger: seq<Entry>, invoice: nat, limit: nat, pages: nat, n: nat)
    requires 1 <= limit <= 200 && DistinctIds(ledger) && n <= |OfInvoice(ledger, invoice)|
    ensures var rows := OfInvoice(ledger, invoice);
            var (events, done) := FollowInvoice(ledger, invoice, limit, At(rows, invoice, n), pages);
            && n + |events| <= |rows| && events == rows[n..n + |events|]
            && (done <==> pages > 0 && |rows| - n <= FullPages(limit, pages))
            && (done ==> n + |events| == |rows|)
            && (!done ==> |events| == FullPages(limit, pages))
  {
    hide FullPages, OfInvoice, At, DistinctIds, FollowInvoice;
    PagesRead(ledger, invoice, limit, pages, n);
  }

  lemma {:induction false} PagesRead(ledger: seq<Entry>, invoice: nat, limit: nat, pages: nat, n: nat)
    requires 1 <= limit <= 200 && DistinctIds(ledger) && n <= |OfInvoice(ledger, invoice)|
    ensures var rows := OfInvoice(ledger, invoice);
            var (events, done) := FollowInvoice(ledger, invoice, limit, At(rows, invoice, n), pages);
            InvoiceRead(rows, limit, pages, n, events, done)
    decreases pages
  {
    hide InvoiceRead, OfInvoice, KeyOf, DistinctIds;
    var rows := OfInvoice(ledger, invoice);
    InvoiceReadEnds(rows, limit, pages, n);
    if pages > 0 {
      FollowInvoiceStep(ledger, invoice, limit, pages, n);
      hide FollowInvoice;
      if n + limit < |rows| {
        PagesRead(ledger, invoice, limit, pages - 1, n + limit);
        var (more, done) := FollowInvoice(ledger, invoice, limit, At(rows, invoice, n + limit), pages - 1);
        InvoiceReadOn(rows, limit, pages, n, more, done);
      }
    }
  }

  lemma {:induction false} PastMeans(rows: seq<Entry>, key: (int, nat), e: Entry)
    ensures e in Past(rows, Some(key)) <==> e in rows && Before(key, KeyOf(e))
  {
    if rows != [] {
      assert rows == [rows[0]] + rows[1..];
      PastMeans(rows[1..], key, e);
    }
  }

  /** An entry whose key is not past a cursor is not on the page read from that cursor, however late it was
  committed. */
  lemma InvoiceCursorMissesLateEntry(ledger: seq<Entry>, late: Entry, limit: nat, cursor: Cursor<(int, nat)>)
    requires 1 <= limit <= 200 && cursor.scope == late.invoice && !Before(cursor.key, KeyOf(late))
    ensures late !in InvoicePage(ledger + [late], late.invoice, limit, Some(cursor)).value.events
  {
    PastMeans(OfInvoice(ledger + [late], late.invoice), cursor.key, late);
    hide OfInvoice, Past;
  }
}
