/** Following invoice cursors (ledger/reader.py) while transactions commit: what is returned, and
exactly when nothing is missed. */
module InvoiceFollow {
  import opened Domain
  import opened Ledger
  import opened LedgerReads

  type Key = (int, nat)

  function CursorAt(invoice: nat, key: Option<Key>): Option<Cursor<Key>> {
    if key.Some? then Some(Cursor(invoice, key.value)) else None
  }

  /** Reading page after page, each from its own, possibly later, state of the ledger: the events, whether
  the last page came without a cursor, and the keys of the cursors followed. */
  function Follow(ledgers: seq<seq<Entry>>, invoice: nat, limit: nat, after: Option<Key>): (seq<Entry>, bool, seq<Key>)
    requires 1 <= limit <= 200
  {
    if ledgers == [] then ([], false, [])
    else
      var page := InvoicePage(ledgers[0], invoice, limit, CursorAt(invoice, after)).value;
      match page.next
      case None => (page.events, true, [])
      case Some(cursor) =>
        var (more, done, keys) := Follow(ledgers[1..], invoice, limit, Some(cursor.key));
        (page.events + more, done, [cursor.key] + keys)
  }

  // ---------------------------------------------------------------- sorted rows

  predicate PastKey(after: Option<Key>, e: Entry) {
    after.Some? ==> Before(after.value, KeyOf(e))
  }

  lemma SortedTail(rows: seq<Entry>)
    requires Sorted(rows) && rows != []
    ensures Sorted(rows[1..]) && forall e <- rows[1..] :: Before(KeyOf(rows[0]), KeyOf(e))
    ensures forall e :: e in rows[1..] <==> e in rows && e != rows[0]
  {
    assert rows == [rows[0]] + rows[1..];
    forall e | e in rows[1..] ensures Before(KeyOf(rows[0]), KeyOf(e)) {
      var i :| 0 <= i < |rows[1..]| && rows[1..][i] == e;
      assert rows[i + 1] == e;
    }
  }

  /** The rows past a key are the rows from some position on. */
  lemma {:induction false} PastIsSuffix(rows: seq<Entry>, after: Option<Key>) returns (n: nat)
    requires Sorted(rows)
    ensures n <= |rows| && Past(rows, after) == rows[n..]
    ensures forall e <- rows :: PastKey(after, e) <==> e in rows[n..]
  {
    if rows == [] {
      n := 0;
    } else if PastKey(after, rows[0]) {
      n := 0;
      SortedTail(rows);
      PastEverything(rows, after);
    } else {
      SortedTail(rows);
      n := PastIsSuffix(rows[1..], after);
      assert rows[1..][n..] == rows[n + 1..];
      assert rows == [rows[0]] + rows[1..];
      n := n + 1;
    }
  }

  lemma {:induction false} PastEverything(rows: seq<Entry>, after: Option<Key>)
    requires rows != [] && Sorted(rows) && PastKey(after, rows[0])
    ensures Past(rows, after) == rows && forall e <- rows :: PastKey(after, e)
  {
    SortedTail(rows);
    assert rows == [rows[0]] + rows[1..];
    if |rows| > 1 {
      assert rows[1] == rows[1..][0];
      PastEverything(rows[1..], after);
    }
  }

  lemma SortedSlice(rows: seq<Entry>, n: nat, m: nat)
    requires Sorted(rows) && n <= m <= |rows|
    ensures Sorted(rows[n..m])
  {
  }

  lemma SliceMembers(rows: seq<Entry>, n: nat, m: nat, e: Entry)
    requires Sorted(rows) && n < m <= |rows|
    ensures e in rows[n..m] <==> e in rows[n..] && !Before(KeyOf(rows[m - 1]), KeyOf(e))
  {
    var last := KeyOf(rows[m - 1]);
    forall i | n <= i < |rows| ensures Before(last, KeyOf(rows[i])) <==> i >= m {
      assert i < m - 1 ==> Before(KeyOf(rows[i]), last);
    }
    if e in rows[n..m] {
      var j :| 0 <= j < |rows[n..m]| && rows[n..m][j] == e;
      assert rows[n..][j] == e;
    }
    if e in rows[n..] && !Before(last, KeyOf(e)) {
      var i :| 0 <= i < |rows[n..]| && rows[n..][i] == e;
      assert rows[n + i] == e && rows[n..m][i] == e;
    }
  }

  lemma SortedConcat(a: seq<Entry>, b: seq<Entry>)
    requires Sorted(a) && Sorted(b) && forall x, y | x in a && y in b :: Before(KeyOf(x), KeyOf(y))
    ensures Sorted(a + b)
  {
  }

  lemma SomeMember(rows: seq<Entry>)
    requires rows != []
    ensures exists e :: e in rows
  {
    assert rows[0] in rows;
  }

  /** Sorted rows are determined by which entries they hold. */
  lemma {:induction false} SortedUnique(a: seq<Entry>, b: seq<Entry>)
    requires Sorted(a) && Sorted(b) && forall e :: e in a <==> e in b
    ensures a == b
  {
    if a == [] {
      if b != [] {
        SomeMember(b);
      }
    } else {
      assert a[0] in b;
      assert b[0] in a;
      SortedTail(a);
      SortedTail(b);
      assert a == [a[0]] + a[1..] && b == [b[0]] + b[1..];
      SortedUnique(a[1..], b[1..]);
    }
  }

  // ---------------------------------------------------------------- one page

  /** The rows the query can see. */
  predicate Shows(ledger: seq<Entry>, invoice: nat, e: Entry) {
    e in ledger && e.invoice == invoice
  }

  lemma {:induction false} RowsAreShown(ledger: seq<Entry>, invoice: nat, e: Entry)
    requires DistinctIds(ledger)
    ensures e in OfInvoice(ledger, invoice) <==> Shows(ledger, invoice, e)
  {
    OfInvoiceSorted(ledger, invoice);
    FilteredMember(ledger, invoice, e);
    assert e in OfInvoice(ledger, invoice) <==> e in multiset(OfInvoice(ledger, invoice));
    hide OfInvoice, Filtered;
  }

  lemma {:induction false} FilteredMember(entries: seq<Entry>, invoice: nat, e: Entry)
    ensures e in Filtered(entries, invoice) <==> Shows(entries, invoice, e)
  {
    if entries != [] {
      assert entries == [entries[0]] + entries[1..];
      FilteredMember(entries[1..], invoice, e);
    }
  }

  /** One page, by its entries: those past the cursor up to the next cursor, all of them without one. */
  ghost predicate PageHolds(ledger: seq<Entry>, invoice: nat, after: Option<Key>, page: Page<Key>) {
    && Sorted(page.events)
    && (page.next.Some? ==> page.next.value.scope == invoice && (after.Some? ==> Before(after.value, page.next.value.key))
                            && exists e <- page.events :: KeyOf(e) == page.next.value.key)
    && (forall e <- page.events :: Shows(ledger, invoice, e) && PastKey(after, e)
                                   && (page.next.Some? ==> !Before(page.next.value.key, KeyOf(e))))
    && (forall e | Shows(ledger, invoice, e) && PastKey(after, e) && (page.next.Some? ==> !Before(page.next.value.key, KeyOf(e))) ::
          e in page.events)
  }

  lemma {:induction false} PageIsRange(ledger: seq<Entry>, invoice: nat, limit: nat, after: Option<Key>)
    requires 1 <= limit <= 200 && DistinctIds(ledger)
    ensures PageHolds(ledger, invoice, after, InvoicePage(ledger, invoice, limit, CursorAt(invoice, after)).value)
  {
    var rows := OfInvoice(ledger, invoice);
    OfInvoiceSorted(ledger, invoice);
    var n := PastIsSuffix(rows, after);
    var page := InvoicePage(ledger, invoice, limit, CursorAt(invoice, after)).value;
    forall e ensures e in rows <==> Shows(ledger, invoice, e) {
      RowsAreShown(ledger, invoice, e);
    }
    PageOfRows(ledger, invoice, limit, after, n);
    hide OfInvoice, Past, Sorted, DistinctIds, InvoicePage, Shows, Before, PastKey;
    RangeHolds(ledger, invoice, after, rows, n, limit, page);
  }

  lemma PageOfRows(ledger: seq<Entry>, invoice: nat, limit: nat, after: Option<Key>, n: nat)
    requires 1 <= limit <= 200 && n <= |OfInvoice(ledger, invoice)|
    requires Past(OfInvoice(ledger, invoice), after) == OfInvoice(ledger, invoice)[n..]
    ensures var rows := OfInvoice(ledger, invoice);
            InvoicePage(ledger, invoice, limit, CursorAt(invoice, after)).value
            == if n + limit < |rows| then Page(rows[n..n + limit], Some(Cursor(invoice, KeyOf(rows[n + limit - 1]))))
               else Page(rows[n..], None)
  {
    PageOfRest(OfInvoice(ledger, invoice), n, limit);
    hide OfInvoice, Past;
  }

  lemma RangeHolds(
    ledger: seq<Entry>, invoice: nat, after: Option<Key>, rows: seq<Entry>, n: nat, limit: nat, page: Page<Key>)
    requires Sorted(rows) && n <= |rows| && limit >= 1
    requires forall e :: e in rows <==> Shows(ledger, invoice, e)
    requires forall e <- rows :: PastKey(after, e) <==> e in rows[n..]
    requires page == if n + limit < |rows|
                     then Page(rows[n..n + limit], Some(Cursor(invoice, KeyOf(rows[n + limit - 1])))) else Page(rows[n..], None)
    ensures PageHolds(ledger, invoice, after, page)
  {
    hide Shows, Sorted, Before;
    assert rows[n..|rows|] == rows[n..];
    if n + limit < |rows| {
      SortedSlice(rows, n, n + limit);
      var last := rows[n + limit - 1];
      assert page.events[limit - 1] == last;
      forall e ensures e in page.events <==> e in rows[n..] && !Before(KeyOf(last), KeyOf(e)) {
        SliceMembers(rows, n, n + limit, e);
      }
      assert last in page.events && last in rows[n..];
    } else {
      SortedSlice(rows, n, |rows|);
    }
    forall e | e in rows[n..] ensures e in rows {
      assert rows == rows[..n] + rows[n..];
    }
  }

  // ---------------------------------------------------------------- following the cursors

  /** Nobody committed this entry behind a cursor: at every page it was there or is past the page's cursor. */
  predicate OnTime(ledgers: seq<seq<Entry>>, keys: seq<Key>, e: Entry)
    requires |keys| <= |ledgers|
  {
    forall i | 0 <= i < |keys| :: e in ledgers[i] || Before(keys[i], KeyOf(e))
  }

  /** The entries of the invoice that reading has reached: all of them at the read that ended, or those up
  to the last cursor. */
  predicate Reached(ledgers: seq<seq<Entry>>, invoice: nat, keys: seq<Key>, done: bool, e: Entry)
    requires |keys| <= |ledgers| && (done <==> |keys| < |ledgers|)
  {
    if done then Shows(ledgers[|keys|], invoice, e)
    else keys != [] && Shows(ledgers[|keys| - 1], invoice, e) && !Before(keys[|keys| - 1], KeyOf(e))
  }

  predicate Returned(ledgers: seq<seq<Entry>>, invoice: nat, after: Option<Key>, keys: seq<Key>, done: bool, e: Entry)
    requires |keys| <= |ledgers| && (done <==> |keys| < |ledgers|)
  {
    PastKey(after, e) && Reached(ledgers, invoice, keys, done, e) && OnTime(ledgers, keys, e)
  }

  lemma BeforeOrders(a: Key, b: Key, c: Key)
    ensures Before(a, b) && Before(b, c) ==> Before(a, c)
    ensures Before(a, b) && !Before(a, c) ==> !Before(b, c)
  {
  }

  /** Entries up to the first page's cursor are on that page or nowhere. */
  lemma FirstPage(
    ledgers: seq<seq<Entry>>, invoice: nat, after: Option<Key>, key: Key, keys: seq<Key>, done: bool, e: Entry)
    requires ledgers != [] && Growing(ledgers) && |keys| <= |ledgers[1..]| && (done <==> |keys| < |ledgers[1..]|)
    requires forall k <- keys :: Before(key, k)
    requires PastKey(after, e) && !Before(key, KeyOf(e))
    ensures Returned(ledgers, invoice, after, [key] + keys, done, e) <==> Shows(ledgers[0], invoice, e)
  {
    forall k | k in keys ensures !Before(k, KeyOf(e)) {
      BeforeOrders(key, k, KeyOf(e));
    }
    hide Before, KeyOf;
    var all := [key] + keys;
    if Shows(ledgers[0], invoice, e) {
      forall i | 0 <= i < |ledgers| ensures e in ledgers[i] {
        assert ledgers[0] <= ledgers[i];
      }
    }
    assert OnTime(ledgers, all, e) ==> e in ledgers[0] || Before(key, KeyOf(e));
  }

  /** Entries past it are left to the pages that follow. */
  lemma LaterPages(
    ledgers: seq<seq<Entry>>, invoice: nat, after: Option<Key>, key: Key, keys: seq<Key>, done: bool, e: Entry)
    requires ledgers != [] && |keys| <= |ledgers[1..]| && (done <==> |keys| < |ledgers[1..]|)
    requires after.Some? ==> Before(after.value, key)
    requires Before(key, KeyOf(e))
    ensures Returned(ledgers, invoice, after, [key] + keys, done, e)
            <==> Returned(ledgers[1..], invoice, Some(key), keys, done, e)
  {
    if after.Some? {
      BeforeOrders(after.value, key, KeyOf(e));
    }
    OnTimeLater(ledgers, key, keys, e);
    ReachedLater(ledgers, invoice, key, keys, done, e);
    hide Before, KeyOf, OnTime, Reached;
  }

  lemma OnTimeLater(ledgers: seq<seq<Entry>>, key: Key, keys: seq<Key>, e: Entry)
    requires ledgers != [] && |keys| <= |ledgers[1..]| && Before(key, KeyOf(e))
    ensures OnTime(ledgers, [key] + keys, e) <==> OnTime(ledgers[1..], keys, e)
  {
    hide Before, KeyOf;
    var all := [key] + keys;
    if OnTime(ledgers, all, e) {
      forall i | 0 <= i < |keys| ensures e in ledgers[1..][i] || Before(keys[i], KeyOf(e)) {
        assert e in ledgers[i + 1] || Before(all[i + 1], KeyOf(e));
      }
    }
    if OnTime(ledgers[1..], keys, e) {
      forall i | 0 <= i < |all| ensures e in ledgers[i] || Before(all[i], KeyOf(e)) {
        if i > 0 {
          assert e in ledgers[1..][i - 1] || Before(keys[i - 1], KeyOf(e));
        }
      }
    }
  }

  lemma ReachedLater(ledgers: seq<seq<Entry>>, invoice: nat, key: Key, keys: seq<Key>, done: bool, e: Entry)
    requires ledgers != [] && |keys| <= |ledgers[1..]| && (done <==> |keys| < |ledgers[1..]|) && Before(key, KeyOf(e))
    ensures Reached(ledgers, invoice, [key] + keys, done, e) <==> Reached(ledgers[1..], invoice, keys, done, e)
  {
    hide Before, KeyOf, Shows;
    var all := [key] + keys;
    if keys != [] {
      assert all[|all| - 1] == keys[|keys| - 1] && ledgers[|all| - 1] == ledgers[1..][|keys| - 1];
    }
    if done {
      assert ledgers[|all|] == ledgers[1..][|keys|];
    }
  }

  lemma PagesJoin(
    ledgers: seq<seq<Entry>>, invoice: nat, after: Option<Key>, page: Page<Key>, more: seq<Entry>, keys: seq<Key>,
    done: bool)
    requires ledgers != [] && Growing(ledgers) && |keys| <= |ledgers[1..]| && (done <==> |keys| < |ledgers[1..]|)
    requires PageHolds(ledgers[0], invoice, after, page) && page.next.Some? && Sorted(more)
    requires forall k <- keys :: Before(page.next.value.key, k)
    requires forall e :: e in more <==> Returned(ledgers[1..], invoice, Some(page.next.value.key), keys, done, e)
    ensures Sorted(page.events + more)
    ensures forall k <- [page.next.value.key] + keys :: after.Some? ==> Before(after.value, k)
    ensures forall e :: e in page.events + more
              <==> Returned(ledgers, invoice, after, [page.next.value.key] + keys, done, e)
  {
    var key := page.next.value.key;
    hide Growing, Sorted, OnTime, Reached, Shows;
    forall x, y | x in page.events && y in more ensures Before(KeyOf(x), KeyOf(y)) {
      SplitByKey(key, x, y);
    }
    SortedConcat(page.events, more);
    forall k | k in [key] + keys && after.Some? ensures Before(after.value, k) {
      BeforeOrders(after.value, key, k);
    }
    forall e ensures e in page.events + more <==> Returned(ledgers, invoice, after, [key] + keys, done, e) {
      if Before(key, KeyOf(e)) {
        LaterPages(ledgers, invoice, after, key, keys, done, e);
      } else if PastKey(after, e) {
        FirstPage(ledgers, invoice, after, key, keys, done, e);
      }
    }
  }

  lemma SplitByKey(key: Key, x: Entry, y: Entry)
    requires !Before(key, KeyOf(x)) && Before(key, KeyOf(y))
    ensures Before(KeyOf(x), KeyOf(y))
  {
  }

  lemma {:induction false} FollowReturns(ledgers: seq<seq<Entry>>, invoice: nat, limit: nat, after: Option<Key>)
    requires 1 <= limit <= 200 && Growing(ledgers) && forall l <- ledgers :: DistinctIds(l)
    ensures var (events, done, keys) := Follow(ledgers, invoice, limit, after);
            && |keys| <= |ledgers| && (done <==> |keys| < |ledgers|)
            && Sorted(events)
            && (forall k <- keys :: after.Some? ==> Before(after.value, k))
            && forall e :: e in events <==> Returned(ledgers, invoice, after, keys, done, e)
  {
    if ledgers != [] {
      hide Growing, DistinctIds, Sorted, Before, InvoicePage, Returned;
      var page := InvoicePage(ledgers[0], invoice, limit, CursorAt(invoice, after)).value;
      PageIsRange(ledgers[0], invoice, limit, after);
      if page.next.Some? {
        GrowingRest(ledgers);
        FollowReturns(ledgers[1..], invoice, limit, Some(page.next.value.key));
        var (more, done, keys) := Follow(ledgers[1..], invoice, limit, Some(page.next.value.key));
        PagesJoin(ledgers, invoice, after, page, more, keys, done);
      } else {
        OnlyPage(ledgers, invoice, after, page);
      }
    }
  }

  lemma GrowingRest(ledgers: seq<seq<Entry>>)
    requires ledgers != [] && Growing(ledgers)
    ensures Growing(ledgers[1..]) && forall l <- ledgers[1..] :: l in ledgers
  {
    GrowingTail(ledgers);
    assert ledgers == [ledgers[0]] + ledgers[1..];
  }

  lemma OnlyPage(ledgers: seq<seq<Entry>>, invoice: nat, after: Option<Key>, page: Page<Key>)
    requires ledgers != [] && PageHolds(ledgers[0], invoice, after, page) && page.next == None
    ensures Sorted(page.events) && forall e :: e in page.events <==> Returned(ledgers, invoice, after, [], true, e)
  {
    hide Sorted, Shows, Before;
  }

  // ---------------------------------------------------------------- when nothing is missed

  /** Every entry of the invoice at the read that ended was there at each earlier page, or is past its cursor. */
  ghost predicate NoLateEntries(ledgers: seq<seq<Entry>>, invoice: nat, keys: seq<Key>)
    requires |keys| < |ledgers|
  {
    forall i, e | 0 <= i < |keys| && Shows(ledgers[|keys|], invoice, e) && e !in ledgers[i] :: Before(keys[i], KeyOf(e))
  }

  /** What following invoice cursors returns over a growing ledger: sorted, each entry once, only entries
  of the invoice, and of those reached exactly the ones nobody committed behind a cursor; once no
  cursor is left, all rows exactly when no entry came late. */
  lemma FollowMeans(ledgers: seq<seq<Entry>>, invoice: nat, limit: nat)
    requires 1 <= limit <= 200 && Growing(ledgers) && forall l <- ledgers :: DistinctIds(l)
    ensures var (events, done, keys) := Follow(ledgers, invoice, limit, None);
            && |keys| <= |ledgers| && (done <==> |keys| < |ledgers|)
            && Sorted(events)
            && (forall e :: e in events <==> Reached(ledgers, invoice, keys, done, e) && OnTime(ledgers, keys, e))
            && (done ==> (events == OfInvoice(ledgers[|keys|], invoice) <==> NoLateEntries(ledgers, invoice, keys)))
  {
    hide Follow, Growing, Sorted, DistinctIds, OfInvoice, Shows, Before, KeyOf;
    FollowReturns(ledgers, invoice, limit, None);
    var (events, done, keys) := Follow(ledgers, invoice, limit, None);
    forall e ensures e in events <==> Reached(ledgers, invoice, keys, done, e) && OnTime(ledgers, keys, e) {
      assert e in events <==> Returned(ledgers, invoice, None, keys, done, e);
    }
    if done {
      AllReturned(ledgers, invoice, keys, events);
    }
  }

  lemma AllReturned(ledgers: seq<seq<Entry>>, invoice: nat, keys: seq<Key>, events: seq<Entry>)
    requires |keys| < |ledgers| && Sorted(events) && DistinctIds(ledgers[|keys|])
    requires forall e :: e in events <==> Shows(ledgers[|keys|], invoice, e) && OnTime(ledgers, keys, e)
    ensures events == OfInvoice(ledgers[|keys|], invoice) <==> NoLateEntries(ledgers, invoice, keys)
  {
    hide Sorted, DistinctIds, OfInvoice, Shows, Before, KeyOf;
    var rows := OfInvoice(ledgers[|keys|], invoice);
    OfInvoiceSorted(ledgers[|keys|], invoice);
    forall e ensures e in rows <==> Shows(ledgers[|keys|], invoice, e) {
      RowsAreShown(ledgers[|keys|], invoice, e);
    }
    if NoLateEntries(ledgers, invoice, keys) {
      forall e ensures e in events <==> e in rows {
        if e in rows {
          assert Shows(ledgers[|keys|], invoice, e);
          assert OnTime(ledgers, keys, e);
        }
      }
      SortedUnique(events, rows);
    } else {
      var i, e :| 0 <= i < |keys| && Shows(ledgers[|keys|], invoice, e) && e !in ledgers[i] && !Before(keys[i], KeyOf(e));
      assert !OnTime(ledgers, keys, e);
      assert e in rows && e !in events;
    }
  }

  /** The invoice's entries were committed in key order. */
  predicate CommittedInKeyOrder(ledger: seq<Entry>, invoice: nat) {
    forall i, j | 0 <= i < j < |ledger| && ledger[i].invoice == invoice && ledger[j].invoice == invoice ::
      Before(KeyOf(ledger[i]), KeyOf(ledger[j]))
  }

  /** An entry committed after the rows of an earlier read is past all of them. */
  lemma LaterIsPast(early: seq<Entry>, late: seq<Entry>, invoice: nat, seen: Entry, e: Entry)
    requires early <= late && CommittedInKeyOrder(late, invoice)
    requires Shows(early, invoice, seen) && Shows(late, invoice, e) && e !in early
    ensures Before(KeyOf(seen), KeyOf(e))
  {
    var i :| 0 <= i < |early| && early[i] == seen;
    var j :| 0 <= j < |late| && late[j] == e;
    assert late[i] == seen;
    assert forall k | 0 <= k < |early| :: early[k] == late[k];
    hide Before, KeyOf;
  }

  /** A cursor is the key of an entry on its page. */
  lemma {:induction false} CursorsAreRows(ledgers: seq<seq<Entry>>, invoice: nat, limit: nat, after: Option<Key>, i: nat)
    requires 1 <= limit <= 200 && |Follow(ledgers, invoice, limit, after).2| <= |ledgers|
    requires (forall l <- ledgers :: DistinctIds(l)) && i < |Follow(ledgers, invoice, limit, after).2|
    ensures exists seen :: Shows(ledgers[i], invoice, seen) && KeyOf(seen) == Follow(ledgers, invoice, limit, after).2[i]
  {
    hide DistinctIds, KeyOf, Shows, Before, PastKey, Sorted, OfInvoice, Past;
    PageIsRange(ledgers[0], invoice, limit, after);
    var page := InvoicePage(ledgers[0], invoice, limit, CursorAt(invoice, after)).value;
    var key := page.next.value.key;
    if i == 0 {
      var seen :| seen in page.events && KeyOf(seen) == key;
      assert Shows(ledgers[0], invoice, seen);
    } else {
      assert forall l <- ledgers[1..] :: l in ledgers;
      CursorsAreRows(ledgers[1..], invoice, limit, Some(key), i - 1);
    }
  }

  /** When the invoice's entries are committed in key order, following its cursors misses nothing. */
  lemma InOrderMissesNothing(ledgers: seq<seq<Entry>>, invoice: nat, limit: nat)
    requires 1 <= limit <= 200 && Growing(ledgers) && forall l <- ledgers :: DistinctIds(l)
    requires forall l <- ledgers :: CommittedInKeyOrder(l, invoice)
    ensures var (events, done, keys) := Follow(ledgers, invoice, limit, None);
            done ==> |keys| < |ledgers| && events == OfInvoice(ledgers[|keys|], invoice)
  {
    hide Follow, Sorted, DistinctIds, OfInvoice, Before, KeyOf, CommittedInKeyOrder, Shows, Reached, OnTime;
    FollowMeans(ledgers, invoice, limit);
    var (events, done, keys) := Follow(ledgers, invoice, limit, None);
    if done {
      forall i, e | 0 <= i < |keys| && Shows(ledgers[|keys|], invoice, e) && e !in ledgers[i]
        ensures Before(keys[i], KeyOf(e))
      {
        CursorsAreRows(ledgers, invoice, limit, None, i);
        var seen :| Shows(ledgers[i], invoice, seen) && KeyOf(seen) == keys[i];
        assert ledgers[i] <= ledgers[|keys|] && ledgers[|keys|] in ledgers;
        LaterIsPast(ledgers[i], ledgers[|keys|], invoice, seen, e);
      }
    }
  }

  // ---------------------------------------------------------------- while transactions commit

  lemma ReadsGrow(runs: map<nat, RunIdentity>, ops: seq<Op>, cuts: seq<nat>, ledgers: seq<seq<Entry>>)
    requires ReadAlong(runs, ops, cuts, ledgers)
    ensures Growing(ledgers) && forall l <- ledgers :: DistinctIds(l)
  {
    hide PerformAll, DistinctIds;
    forall i, j | 0 <= i <= j < |ledgers| ensures ledgers[i] <= ledgers[j] {
      assert ops[..cuts[j]] == ops[..cuts[i]] + ops[cuts[i]..cuts[j]];
      PerformAllConcat(Empty(runs), ops[..cuts[i]], ops[cuts[i]..cuts[j]]);
      LedgerOnlyGrows(PerformAll(Empty(runs), ops[..cuts[i]]), ops[cuts[i]..cuts[j]]);
    }
    forall l | l in ledgers ensures DistinctIds(l) {
      var i :| 0 <= i < |ledgers| && ledgers[i] == l;
      IdsAreDistinct(runs, ops[..cuts[i]]);
    }
  }

  /** Following invoice cursors while transactions commit and roll back in between repeats nothing,
  returns nothing foreign and keeps the key order; an entry is missed exactly when it was committed
  after a page was read and its key is not past that page's cursor, and everything is returned
  exactly when there is no such entry. */
  lemma {:induction false} FollowInvoiceWhileAppending(
    runs: map<nat, RunIdentity>, ops: seq<Op>, cuts: seq<nat>, ledgers: seq<seq<Entry>>, invoice: nat, limit: nat)
    requires 1 <= limit <= 200 && ReadAlong(runs, ops, cuts, ledgers)
    ensures var (events, done, keys) := Follow(ledgers, invoice, limit, None);
            && |keys| <= |ledgers| && (done <==> |keys| < |ledgers|)
            && Sorted(events)
            && (forall e :: e in events <==> Reached(ledgers, invoice, keys, done, e) && OnTime(ledgers, keys, e))
            && (done ==> (events == OfInvoice(ledgers[|keys|], invoice) <==> NoLateEntries(ledgers, invoice, keys)))
            && (done && CommittedInKeyOrder(ledgers[|ledgers| - 1], invoice) ==>
                  events == OfInvoice(ledgers[|keys|], invoice))
  {
    hide Follow, Sorted, OfInvoice, Reached, OnTime, NoLateEntries, DistinctIds, ReadAlong;
    ReadsGrow(runs, ops, cuts, ledgers);
    FollowMeans(ledgers, invoice, limit);
    if ledgers != [] && CommittedInKeyOrder(ledgers[|ledgers| - 1], invoice) {
      forall l | l in ledgers ensures CommittedInKeyOrder(l, invoice) {
        var i :| 0 <= i < |ledgers| && ledgers[i] == l;
        OrderOfPrefix(l, ledgers[|ledgers| - 1], invoice);
      }
      InOrderMissesNothing(ledgers, invoice, limit);
    }
  }

  lemma OrderOfPrefix(early: seq<Entry>, late: seq<Entry>, invoice: nat)
    requires early <= late && CommittedInKeyOrder(late, invoice)
    ensures CommittedInKeyOrder(early, invoice)
  {
    hide Before, KeyOf;
    forall i, j | 0 <= i < j < |early| && early[i].invoice == invoice && early[j].invoice == invoice
      ensures Before(KeyOf(early[i]), KeyOf(early[j]))
    {
      assert late[i] == early[i] && late[j] == early[j];
    }
  }

  // ---------------------------------------------------------------- a guard that is enough

  predicate Touches(entries: seq<Entry>, invoice: nat) {
    exists e <- entries :: e.invoice == invoice
  }

  predicate StampedBefore(entries: seq<Entry>, invoice: nat, now: int) {
    forall e <- entries :: e.invoice == invoice ==> e.createdAt < now
  }

  /** What a writer can check before it appends: no other open transaction staged an entry of the invoice, and
  its clock is past every entry of the invoice it sees. */
  predicate InTurn(s: Store, op: Op, invoice: nat) {
    op.Write? && op.command.invoice == invoice && op.t in s.open ==>
      && StampedBefore(s.committed + s.open[op.t].staged, invoice, op.now)
      && forall u <- s.open :: u != op.t ==> !Touches(s.open[u].staged, invoice)
  }

  predicate TurnInv(s: Store, invoice: nat) {
    && CommittedInKeyOrder(s.committed, invoice)
    && (forall t <- s.open :: CommittedInKeyOrder(s.committed + s.open[t].staged, invoice))
    && (forall t, u | t in s.open && u in s.open && t != u ::
          !Touches(s.open[t].staged, invoice) || !Touches(s.open[u].staged, invoice))
  }

  lemma OrderAppend(entries: seq<Entry>, e: Entry, invoice: nat)
    requires CommittedInKeyOrder(entries, invoice)
    requires e.invoice == invoice ==> StampedBefore(entries, invoice, e.createdAt)
    ensures CommittedInKeyOrder(entries + [e], invoice)
  {
    assert forall i | 0 <= i < |entries| :: (entries + [e])[i] in entries;
  }

  lemma OrderInsert(a: seq<Entry>, b: seq<Entry>, c: seq<Entry>, invoice: nat)
    requires CommittedInKeyOrder(a + b, invoice) && CommittedInKeyOrder(a + c, invoice)
    requires !Touches(b, invoice) || !Touches(c, invoice)
    ensures CommittedInKeyOrder(a + b + c, invoice)
  {
    hide Before, KeyOf;
    var all := a + b + c;
    forall i, j | 0 <= i < j < |all| && all[i].invoice == invoice && all[j].invoice == invoice
      ensures Before(KeyOf(all[i]), KeyOf(all[j]))
    {
      assert |a| <= i < |a + b| ==> all[i] == b[i - |a|] && b[i - |a|] in b;
      assert |a + b| <= j ==> all[j] == c[j - |a + b|] && c[j - |a + b|] in c;
      if j < |a + b| {
        assert all[i] == (a + b)[i] && all[j] == (a + b)[j];
      } else {
        var k, m := if i < |a| then i else i - |b|, j - |b|;
        assert all[i] == (a + c)[k] && all[j] == (a + c)[m];
      }
    }
  }

  lemma TouchesAppend(entries: seq<Entry>, e: Entry, invoice: nat)
    ensures Touches(entries + [e], invoice) <==> Touches(entries, invoice) || e.invoice == invoice
  {
    if Touches(entries, invoice) {
      var x :| x in entries && x.invoice == invoice;
      assert x in entries + [e];
    }
    assert e in entries + [e];
  }

  lemma WriteKeepsTurns(s: Store, op: Op, invoice: nat)
    requires TurnInv(s, invoice) && InTurn(s, op, invoice) && op.Write?
    ensures TurnInv(Perform(s, op), invoice)
  {
    hide ById, MaxSequence, IdTaken, LockedByOther, Supersedable, CommittedInKeyOrder, Touches, StampedBefore;
    var (after, r) := AppendTx(s, op.t, op.command, op.id, op.now);
    if r.Staged? {
      OrderAppend(s.committed + s.open[op.t].staged, r.entry, invoice);
      assert s.committed + s.open[op.t].staged + [r.entry] == s.committed + after.open[op.t].staged;
      TouchesAppend(s.open[op.t].staged, r.entry, invoice);
    }
  }

  lemma CommitKeepsTurns(s: Store, t: nat, invoice: nat)
    requires TurnInv(s, invoice) && t in s.open
    ensures TurnInv(Perform(s, Commit(t)), invoice)
  {
    hide CommittedInKeyOrder, Touches;
    forall u | u in s.open && u != t
      ensures CommittedInKeyOrder(s.committed + s.open[t].staged + s.open[u].staged, invoice)
    {
      OrderInsert(s.committed, s.open[t].staged, s.open[u].staged, invoice);
    }
  }

  lemma StepKeepsTurns(s: Store, op: Op, invoice: nat)
    requires TurnInv(s, invoice) && InTurn(s, op, invoice)
    ensures TurnInv(Perform(s, op), invoice)
  {
    hide CommittedInKeyOrder, AppendTx, InTurn;
    match op
    case Write(_, _, _, _) => WriteKeepsTurns(s, op, invoice);
    case Commit(t) => if t in s.open { CommitKeepsTurns(s, t, invoice); }
    case Open(_) => assert s.committed + [] == s.committed;
    case Rollback(_) =>
  }

  /** When every append to the invoice passes the guard, its entries are committed in key order, so following
  its cursors misses nothing. */
  lemma {:induction false} GuardKeepsKeyOrder(runs: map<nat, RunIdentity>, ops: seq<Op>, invoice: nat)
    requires forall n | 0 <= n < |ops| :: InTurn(PerformAll(Empty(runs), ops[..n]), ops[n], invoice)
    ensures CommittedInKeyOrder(PerformAll(Empty(runs), ops).committed, invoice)
  {
    hide PerformAll, InTurn;
    TurnsKept(runs, ops, |ops|, invoice);
    assert ops[..|ops|] == ops;
  }

  lemma {:induction false} TurnsKept(runs: map<nat, RunIdentity>, ops: seq<Op>, n: nat, invoice: nat)
    requires n <= |ops|
    requires forall i | 0 <= i < n :: InTurn(PerformAll(Empty(runs), ops[..i]), ops[i], invoice)
    ensures TurnInv(PerformAll(Empty(runs), ops[..n]), invoice)
  {
    if n > 0 {
      TurnsKept(runs, ops, n - 1, invoice);
      hide TurnInv, InTurn, Perform;
      assert ops[..n][..n - 1] == ops[..n - 1];
      StepKeepsTurns(PerformAll(Empty(runs), ops[..n - 1]), ops[n - 1], invoice);
    }
  }
}
