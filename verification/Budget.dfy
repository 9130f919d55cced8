/** Advisory cost alerts over the most recently charged runs (gateway_client/budgets.py). */
module Budget {
  import opened Domain

  type RunId = nat

  /** The tracker's ordered totals, oldest charge first, and the runs already alerted. */
  datatype Tracker = Tracker(order: seq<RunId>, totals: map<RunId, real>, alerted: set<RunId>)

  const EMPTY := Tracker([], map[], {})

  function Remove(runs: seq<RunId>, run: RunId): seq<RunId> {
    if runs == [] then []
    else Remove(runs[..|runs| - 1], run) + if runs[|runs| - 1] == run then [] else [runs[|runs| - 1]]
  }

  /** Charging a run: its total, whether it alerts, and the tracker afterwards. */
  function Charge(t: Tracker, threshold: real, maxRuns: nat, run: RunId, cost: real): (Tracker, real, bool) {
    var total := (if run in t.totals then t.totals[run] else 0.0) + cost;
    var order := Remove(t.order, run) + [run];
    var totals := t.totals[run := total];
    var full := |order| > maxRuns;
    var kept := if full then t.alerted - {order[0]} else t.alerted;
    var alert := total >= threshold && run !in kept;
    (Tracker(if full then order[1..] else order, if full then totals - {order[0]} else totals,
             if alert then kept + {run} else kept), total, alert)
  }

  class BudgetAlertTracker {
    const threshold: real
    const maxRuns: nat
    var order: seq<RunId>
    var totals: map<RunId, real>
    var alerted: set<RunId>

    ghost function View(): Tracker
      reads this
    {
      Tracker(order, totals, alerted)
    }

    constructor (threshold: real, maxRuns: nat)
      ensures this.threshold == threshold && this.maxRuns == maxRuns && View() == EMPTY
    {
      this.threshold := threshold;
      this.maxRuns := maxRuns;
      order := [];
      totals := map[];
      alerted := {};
    }

    method Observe(run: RunId, cost: Option<real>) returns (total: Option<real>, alert: bool)
      modifies this
      ensures cost == None ==> View() == old(View()) && !alert
                               && total == if run in old(totals) then Some(old(totals)[run]) else None
      ensures cost.Some? ==>
                (View(), total, alert)
                == (var (t, n, a) := Charge(old(View()), threshold, maxRuns, run, cost.value); (t, Some(n), a))
    {
      if cost.None? {
        return if run in totals then Some(totals[run]) else None, false;
      }
      var sum := (if run in totals then totals[run] else 0.0) + cost.value;
      totals := totals[run := sum];
      order := Remove(order, run) + [run];
      if |order| > maxRuns {
        var expired := order[0];
        order := order[1..];
        totals := totals - {expired};
        alerted := alerted - {expired};
      }
      alert := sum >= threshold && run !in alerted;
      if alert {
        alerted := alerted + {run};
      }
      total := Some(sum);
    }
  }

  // ---------------------------------------------------------------- what it should hold

  datatype Cost = Cost(run: RunId, usd: real)

  function Track(costs: seq<Cost>, threshold: real, maxRuns: nat): Tracker {
    if costs == [] then EMPTY
    else
      var last := costs[|costs| - 1];
      Charge(Track(costs[..|costs| - 1], threshold, maxRuns), threshold, maxRuns, last.run, last.usd).0
  }

  /** All runs ever charged, in the order of their latest charge. */
  function ByLatestCharge(costs: seq<Cost>): seq<RunId> {
    if costs == [] then []
    else Remove(ByLatestCharge(costs[..|costs| - 1]), costs[|costs| - 1].run) + [costs[|costs| - 1].run]
  }

  function LastOnes(runs: seq<RunId>, n: nat): seq<RunId> {
    if |runs| <= n then runs else runs[|runs| - n..]
  }

  /** The most recently charged runs. */
  function Held(costs: seq<Cost>, maxRuns: nat): seq<RunId> {
    LastOnes(ByLatestCharge(costs), maxRuns)
  }

  /** What a run was charged since it last entered the held runs. */
  function SinceEntry(costs: seq<Cost>, maxRuns: nat, run: RunId): real {
    if costs == [] then 0.0
    else
      var front, last := costs[..|costs| - 1], costs[|costs| - 1];
      if last.run != run then SinceEntry(front, maxRuns, run)
      else (if run in Held(front, maxRuns) then SinceEntry(front, maxRuns, run) else 0.0) + last.usd
  }

  predicate NoRepeats(runs: seq<RunId>) {
    forall i, j | 0 <= i < j < |runs| :: runs[i] != runs[j]
  }

  lemma {:induction false} RemoveFacts(runs: seq<RunId>, run: RunId)
    requires NoRepeats(runs)
    ensures NoRepeats(Remove(runs, run))
    ensures forall r :: r in Remove(runs, run) <==> r in runs && r != run
    ensures |Remove(runs, run)| == |runs| - if run in runs then 1 else 0
    ensures run !in runs ==> Remove(runs, run) == runs
  {
    if runs != [] {
      var front, last := runs[..|runs| - 1], runs[|runs| - 1];
      assert runs == front + [last];
      assert NoRepeats(front) && last !in front;
      RemoveFacts(front, run);
      NoRepeatsAppend(Remove(front, run), last);
      hide NoRepeats;
    }
  }

  lemma NoRepeatsAppend(runs: seq<RunId>, run: RunId)
    ensures NoRepeats(runs) && run !in runs ==> NoRepeats(runs + [run])
  {
  }

  lemma LastOfConcat(a: seq<RunId>, b: seq<RunId>)
    ensures LastOnes(a + b, |b|) == b
  {
  }

  lemma {:induction false} RemoveConcat(a: seq<RunId>, b: seq<RunId>, run: RunId)
    ensures Remove(a + b, run) == Remove(a, run) + Remove(b, run)
  {
    if b == [] {
      assert a + b == a;
    } else {
      assert (a + b)[..|a + b| - 1] == a + b[..|b| - 1];
      RemoveConcat(a, b[..|b| - 1], run);
    }
  }

  lemma {:induction false} LatestNoRepeats(costs: seq<Cost>)
    ensures NoRepeats(ByLatestCharge(costs))
  {
    if costs != [] {
      LatestNoRepeats(costs[..|costs| - 1]);
      RemoveFacts(ByLatestCharge(costs[..|costs| - 1]), costs[|costs| - 1].run);
    }
  }

  lemma SuffixNoRepeats(runs: seq<RunId>, i: nat)
    requires NoRepeats(runs) && i <= |runs|
    ensures NoRepeats(runs[i..]) && NoRepeats(runs[..i])
    ensures forall r :: r in runs[i..] ==> r !in runs[..i]
  {
  }

  /** Moving a run to the end and cutting to the newest is the same before and after cutting. */
  lemma EvictionIsRecency(runs: seq<RunId>, run: RunId, n: nat)
    requires NoRepeats(runs) && n >= 1
    ensures var order := Remove(LastOnes(runs, n), run) + [run];
            LastOnes(Remove(runs, run) + [run], n) == if |order| > n then order[1..] else order
  {
    hide NoRepeats, Remove;
    if |runs| <= n {
      RemoveFacts(runs, run);
    } else {
      var cut := |runs| - n;
      var early, recent := runs[..cut], runs[cut..];
      assert runs == early + recent;
      SuffixNoRepeats(runs, cut);
      RemoveConcat(early, recent, run);
      RemoveFacts(early, run);
      RemoveFacts(recent, run);
      var order := Remove(recent, run) + [run];
      if run in recent {
        assert Remove(runs, run) + [run] == early + order;
        LastOfConcat(early, order);
      } else {
        OldestDropped(Remove(early, run), recent, run);
        assert Remove(runs, run) + [run] == Remove(early, run) + (recent + [run]);
      }
    }
  }

  lemma OldestDropped(early: seq<RunId>, recent: seq<RunId>, run: RunId)
    requires recent != []
    ensures LastOnes(early + (recent + [run]), |recent|) == (recent + [run])[1..]
  {
    var order := recent + [run];
    assert early + order == (early + [recent[0]]) + order[1..];
    LastOfConcat(early + [recent[0]], order[1..]);
  }

  predicate Alerted(threshold: real, total: real) {
    total >= threshold
  }

  /** The tracker is exactly its specification. */
  ghost predicate Exact(t: Tracker, costs: seq<Cost>, threshold: real, maxRuns: nat) {
    t.order == Held(costs, maxRuns) && forall r :: ExactFor(t, costs, threshold, maxRuns, r)
  }

  lemma ChargeOrder(costs: seq<Cost>, c: Cost, maxRuns: nat)
    requires maxRuns >= 1
    ensures var order := Remove(Held(costs, maxRuns), c.run) + [c.run];
            && Held(costs + [c], maxRuns) == (if |order| > maxRuns then order[1..] else order)
            && NoRepeats(order) && NoRepeats(Held(costs, maxRuns))
            && (forall r :: r in order <==> r in Held(costs, maxRuns) || r == c.run)
  {
    LatestNoRepeats(costs);
    assert (costs + [c])[..|costs|] == costs;
    EvictionIsRecency(ByLatestCharge(costs), c.run, maxRuns);
    SuffixNoRepeats(ByLatestCharge(costs), |ByLatestCharge(costs)| - |Held(costs, maxRuns)|);
    RemoveFacts(Held(costs, maxRuns), c.run);
    NoRepeatsAppend(Remove(Held(costs, maxRuns), c.run), c.run);
    hide ByLatestCharge, Remove, NoRepeats;
  }

  lemma ChargeSums(costs: seq<Cost>, c: Cost, maxRuns: nat, r: RunId)
    ensures SinceEntry(costs + [c], maxRuns, r)
         == if c.run != r then SinceEntry(costs, maxRuns, r)
            else (if r in Held(costs, maxRuns) then SinceEntry(costs, maxRuns, r) else 0.0) + c.usd
  {
    assert (costs + [c])[..|costs|] == costs;
  }

  /** What the tracker knows about one run, and what it should. */
  ghost predicate ExactFor(t: Tracker, costs: seq<Cost>, threshold: real, maxRuns: nat, r: RunId) {
    && (r in t.totals <==> r in Held(costs, maxRuns))
    && (r in t.totals ==> t.totals[r] == SinceEntry(costs, maxRuns, r))
    && (r in t.alerted <==> r in Held(costs, maxRuns) && Alerted(threshold, SinceEntry(costs, maxRuns, r)))
  }

  /** The charged run is never the one evicted. */
  lemma ChargedStays(t: Tracker, threshold: real, maxRuns: nat, run: RunId, cost: real)
    requires maxRuns >= 1 && NoRepeats(Remove(t.order, run) + [run])
    ensures var (after, total, alert) := Charge(t, threshold, maxRuns, run, cost);
            && run in after.totals && after.totals[run] == total
            && (run in after.alerted <==> run in t.alerted || total >= threshold)
            && total == (if run in t.totals then t.totals[run] else 0.0) + cost
  {
    var order := Remove(t.order, run) + [run];
    assert |order| > maxRuns ==> order[0] != order[|order| - 1];
    hide Remove, NoRepeats;
  }

  lemma ChargedIsHeld(costs: seq<Cost>, c: Cost, maxRuns: nat)
    requires maxRuns >= 1
    ensures NoRepeats(Remove(Held(costs, maxRuns), c.run) + [c.run]) && c.run in Held(costs + [c], maxRuns)
  {
    ChargeOrder(costs, c, maxRuns);
    FirstAndRest(Remove(Held(costs, maxRuns), c.run) + [c.run]);
    hide Held, Remove, NoRepeats;
  }

  /** The charged run itself. */
  lemma ChargedExact(t: Tracker, costs: seq<Cost>, c: Cost, threshold: real, maxRuns: nat)
    requires t.order == Held(costs, maxRuns) && maxRuns >= 1 && c.usd >= 0.0
    requires ExactFor(t, costs, threshold, maxRuns, c.run)
    ensures ExactFor(Charge(t, threshold, maxRuns, c.run, c.usd).0, costs + [c], threshold, maxRuns, c.run)
  {
    ChargedIsHeld(costs, c, maxRuns);
    ChargeSums(costs, c, maxRuns, c.run);
    ChargedStays(t, threshold, maxRuns, c.run, c.usd);
    hide Charge, Held, SinceEntry, Remove, NoRepeats;
  }

  /** Any other run stays as it was or is evicted. */
  lemma OtherExact(t: Tracker, costs: seq<Cost>, c: Cost, threshold: real, maxRuns: nat, r: RunId)
    requires t.order == Held(costs, maxRuns) && maxRuns >= 1 && r != c.run
    requires ExactFor(t, costs, threshold, maxRuns, r)
    ensures ExactFor(Charge(t, threshold, maxRuns, c.run, c.usd).0, costs + [c], threshold, maxRuns, r)
  {
    ChargeOrder(costs, c, maxRuns);
    ChargeSums(costs, c, maxRuns, r);
    var order := Remove(t.order, c.run) + [c.run];
    FirstAndRest(order);
    hide Held, SinceEntry, Remove, NoRepeats, Alerted;
  }

  lemma {:induction false} ChargeExact(t: Tracker, costs: seq<Cost>, c: Cost, threshold: real, maxRuns: nat)
    requires Exact(t, costs, threshold, maxRuns) && maxRuns >= 1 && c.usd >= 0.0
    ensures Exact(Charge(t, threshold, maxRuns, c.run, c.usd).0, costs + [c], threshold, maxRuns)
  {
    hide ExactFor, Held, SinceEntry, Remove;
    ChargeOrder(costs, c, maxRuns);
    var after := Charge(t, threshold, maxRuns, c.run, c.usd).0;
    forall r ensures ExactFor(after, costs + [c], threshold, maxRuns, r) {
      if r == c.run {
        ChargedExact(t, costs, c, threshold, maxRuns);
      } else {
        OtherExact(t, costs, c, threshold, maxRuns, r);
      }
    }
  }

  lemma FirstAndRest(order: seq<RunId>)
    requires NoRepeats(order) && order != []
    ensures forall r :: r in order[1..] <==> r in order && r != order[0]
    ensures |order| > 1 ==> order[|order| - 1] in order[1..]
  {
    assert order == [order[0]] + order[1..];
  }

  predicate NonNegative(costs: seq<Cost>) {
    forall c <- costs :: c.usd >= 0.0
  }

  /** After any costs the tracker holds exactly the most recently charged runs with their sums since
  entry, and its alerted set is exactly the held runs at or above the threshold. */
  lemma {:induction false} TrackerIsExact(costs: seq<Cost>, threshold: real, maxRuns: nat)
    requires NonNegative(costs) && maxRuns >= 1
    ensures Exact(Track(costs, threshold, maxRuns), costs, threshold, maxRuns)
  {
    if costs != [] {
      hide Charge, Exact;
      var front, last := costs[..|costs| - 1], costs[|costs| - 1];
      assert costs == front + [last];
      TrackerIsExact(front, threshold, maxRuns);
      ChargeExact(Track(front, threshold, maxRuns), front, last, threshold, maxRuns);
    }
  }

  lemma {:induction false} SumsNonNegative(costs: seq<Cost>, maxRuns: nat, run: RunId)
    requires NonNegative(costs)
    ensures SinceEntry(costs, maxRuns, run) >= 0.0
  {
    if costs != [] {
      hide Held;
      SumsNonNegative(costs[..|costs| - 1], maxRuns, run);
    }
  }

  /** A stay alerts once: exactly on the charge that takes its sum to the threshold. The settings admit
  positive thresholds only; any other one alerts with the first charge of a stay and never again in it. */
  lemma {:induction false} AlertsAtTheCrossing(costs: seq<Cost>, c: Cost, threshold: real, maxRuns: nat)
    requires NonNegative(costs) && c.usd >= 0.0 && maxRuns >= 1
    ensures var (_, total, alert) := Charge(Track(costs, threshold, maxRuns), threshold, maxRuns, c.run, c.usd);
            var before := if c.run in Held(costs, maxRuns) then SinceEntry(costs, maxRuns, c.run) else 0.0;
            && total == before + c.usd
            && (threshold > 0.0 ==> (alert <==> before < threshold <= total))
            && (threshold <= 0.0 ==> (alert <==> c.run !in Held(costs, maxRuns)))
  {
    TrackerIsExact(costs, threshold, maxRuns);
    ChargeOrder(costs, c, maxRuns);
    var order := Remove(Held(costs, maxRuns), c.run) + [c.run];
    FirstAndRest(order);
    assert ExactFor(Track(costs, threshold, maxRuns), costs, threshold, maxRuns, c.run);
    SumsNonNegative(costs, maxRuns, c.run);
    hide Exact, Held, SinceEntry, Remove, Track, NoRepeats, NonNegative;
  }

  /** A run's latest charge. */
  function LatestCharge(costs: seq<Cost>, run: RunId): Option<real> {
    if costs == [] then None
    else
      var last := costs[|costs| - 1];
      if last.run == run then Some(last.usd) else LatestCharge(costs[..|costs| - 1], run)
  }

  /** With room for no run nothing is held or summed: a run counts as alerted exactly when its latest charge
  alone reached the threshold, and each such charge alerts again, however often. */
  lemma {:induction false} NoRoomLeaksAlerts(costs: seq<Cost>, c: Cost, threshold: real)
    ensures var t := Track(costs, threshold, 0);
            && t.order == [] && t.totals == map[]
            && forall r :: r in t.alerted <==> LatestCharge(costs, r).Some? && LatestCharge(costs, r).value >= threshold
    ensures var (_, total, alert) := Charge(Track(costs, threshold, 0), threshold, 0, c.run, c.usd);
            total == c.usd && (alert <==> c.usd >= threshold)
  {
    assert Remove([], c.run) == [] && [] + [c.run] == [c.run];
    if costs != [] {
      var front, last := costs[..|costs| - 1], costs[|costs| - 1];
      NoRoomLeaksAlerts(front, last, threshold);
      var t := Track(front, threshold, 0);
      assert Remove([], last.run) == [] && [] + [last.run] == [last.run];
      assert map[][last.run := 0.0 + last.usd] - {last.run} == map[];
    }
  }
}
