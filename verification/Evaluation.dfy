/** Counting in the golden-set evaluation (eval/metrics.py, eval/diagnostics.py).

A cell is a value with its normal form; a value may have none, for instance a number that does not
parse. A document has numbered header fields and lines of numbered columns. */
module Evaluation {
  import opened Domain

  datatype Cell = Absent | Present(normal: Option<int>)

  datatype Document = Document(header: seq<Cell>, lines: seq<seq<Cell>>)

  datatype FieldCounts = FieldCounts(tp: nat, fp: nat, fn: nat)

  const ZERO := FieldCounts(0, 0, 0)

  function Plus(a: FieldCounts, b: FieldCounts): FieldCounts {
    FieldCounts(a.tp + b.tp, a.fp + b.fp, a.fn + b.fn)
  }

  lemma PlusZero(a: FieldCounts)
    ensures Plus(a, ZERO) == a && Plus(ZERO, a) == a
  {
  }

  lemma PlusAssociates(a: FieldCounts, b: FieldCounts, c: FieldCounts)
    ensures Plus(Plus(a, b), c) == Plus(a, Plus(b, c))
  {
  }

  lemma PlusExchanges(a: FieldCounts, b: FieldCounts, c: FieldCounts, d: FieldCounts)
    ensures Plus(Plus(a, b), Plus(c, d)) == Plus(Plus(a, c), Plus(b, d))
  {
  }

  /** The labels a count answers for: found or missed. */
  function Labels(c: FieldCounts): nat {
    c.tp + c.fn
  }

  lemma LabelsAdd(a: FieldCounts, b: FieldCounts)
    ensures Labels(Plus(a, b)) == Labels(a) + Labels(b)
  {
  }

  lemma CompareLabels(expected: Cell, observed: Cell)
    ensures Labels(Compare(expected, observed)) == if expected.Present? then 1 else 0
    ensures Labels(Extra(observed)) == 0 && Labels(ZERO) == 0
  {
  }

  function CellAt(cells: seq<Cell>, f: nat): Cell {
    if f < |cells| then cells[f] else Absent
  }

  function LineAt(lines: seq<seq<Cell>>, i: nat): seq<Cell> {
    if i < |lines| then lines[i] else []
  }

  function Normal(c: Cell): Option<int> {
    match c
    case Absent => None
    case Present(n) => n
  }

  /** One field against its golden label; an unknown label counts nothing. */
  function Compare(expected: Cell, observed: Cell): FieldCounts {
    if expected.Absent? then ZERO
    else if Normal(observed) == expected.normal then FieldCounts(1, 0, 0)
    else FieldCounts(0, if Normal(observed).Some? then 1 else 0, 1)
  }

  /** A value nothing on the label answers. */
  function Extra(observed: Cell): FieldCounts {
    FieldCounts(0, if observed.Present? then 1 else 0, 0)
  }

  function Header(e: Option<Document>): seq<Cell> {
    if e.Some? then e.value.header else []
  }

  function Lines(e: Option<Document>): seq<seq<Cell>> {
    if e.Some? then e.value.lines else []
  }

  /** Column `f` of the first `n` golden lines against the observed lines at the same index. */
  function ColumnScore(golden: seq<seq<Cell>>, observed: seq<seq<Cell>>, f: nat, n: nat): FieldCounts {
    if n == 0 then ZERO
    else Plus(ColumnScore(golden, observed, f, n - 1),
              Compare(CellAt(LineAt(golden, n - 1), f), CellAt(LineAt(observed, n - 1), f)))
  }

  /** Values of column `f` on observed lines from `from` up to `n`. */
  function Surplus(observed: seq<seq<Cell>>, f: nat, from: nat, n: nat): FieldCounts {
    if n <= from then ZERO else Plus(Surplus(observed, f, from, n - 1), Extra(CellAt(LineAt(observed, n - 1), f)))
  }

  datatype Field = HeaderField(name: nat) | LineField(name: nat)

  /** The counts of one field of one document. */
  function Score(golden: Document, e: Option<Document>, field: Field): FieldCounts {
    match field
    case HeaderField(f) => Compare(CellAt(golden.header, f), CellAt(Header(e), f))
    case LineField(f) =>
      Plus(ColumnScore(golden.lines, Lines(e), f, |golden.lines|),
           if golden.lines == [] then ZERO else Surplus(Lines(e), f, |golden.lines|, |Lines(e)|))
  }

  method AddLine(before: seq<FieldCounts>, golden: seq<Cell>, observed: seq<Cell>) returns (after: seq<FieldCounts>)
    ensures |after| == |before|
    ensures forall f | 0 <= f < |after| :: after[f] == Plus(before[f], Compare(CellAt(golden, f), CellAt(observed, f)))
  {
    hide Plus, Compare, Extra;
    after := before;
    for f := 0 to |before|
      invariant |after| == |before|
      invariant forall g | f <= g < |after| :: after[g] == before[g]
      invariant forall g | 0 <= g < f :: after[g] == Plus(before[g], Compare(CellAt(golden, g), CellAt(observed, g)))
    {
      after := after[f := Plus(after[f], Compare(CellAt(golden, f), CellAt(observed, f)))];
    }
  }

  lemma ExtraAdds(c: FieldCounts, observed: Cell)
    ensures Plus(c, Extra(observed)) == if observed.Present? then Plus(c, FieldCounts(0, 1, 0)) else c
  {
  }

  method AddExtraLine(before: seq<FieldCounts>, observed: seq<Cell>) returns (after: seq<FieldCounts>)
    ensures |after| == |before|
    ensures forall f | 0 <= f < |after| :: after[f] == Plus(before[f], Extra(CellAt(observed, f)))
  {
    hide Plus, Compare, Extra;
    after := before;
    for f := 0 to |before|
      invariant |after| == |before|
      invariant forall g | f <= g < |after| :: after[g] == before[g]
      invariant forall g | 0 <= g < f :: after[g] == Plus(before[g], Extra(CellAt(observed, g)))
    {
      ExtraAdds(after[f], CellAt(observed, f));
      if CellAt(observed, f).Present? {
        after := after[f := Plus(after[f], FieldCounts(0, 1, 0))];
      }
    }
  }

  /** Counts per header field and per line field. */
  method ScoreFields(golden: Document, e: Option<Document>, headers: nat, columns: nat)
    returns (header: seq<FieldCounts>, line: seq<FieldCounts>)
    ensures |header| == headers && |line| == columns
    ensures forall f | 0 <= f < headers :: header[f] == Score(golden, e, HeaderField(f))
    ensures forall f | 0 <= f < columns :: line[f] == Score(golden, e, LineField(f))
  {
    hide Plus, Compare, Extra, CellAt;
    header := AddLine(seq(headers, _ => ZERO), golden.header, Header(e));
    forall f | 0 <= f < headers ensures header[f] == Score(golden, e, HeaderField(f)) {
      PlusZero(Compare(CellAt(golden.header, f), CellAt(Header(e), f)));
    }
    line := seq(columns, _ => ZERO);
    var observed := Lines(e);
    for i := 0 to |golden.lines|
      invariant |line| == columns
      invariant forall f | 0 <= f < columns :: line[f] == ColumnScore(golden.lines, observed, f, i)
    {
      line := AddLine(line, golden.lines[i], LineAt(observed, i));
    }
    if golden.lines != [] {
      line := AddSurplus(line, observed, |golden.lines|);
    } else {
      forall f | 0 <= f < columns ensures line[f] == Plus(line[f], ZERO) {
        PlusZero(line[f]);
      }
    }
  }

  method AddSurplus(before: seq<FieldCounts>, observed: seq<seq<Cell>>, from: nat) returns (after: seq<FieldCounts>)
    ensures |after| == |before|
    ensures forall f | 0 <= f < |after| :: after[f] == Plus(before[f], Surplus(observed, f, from, |observed|))
  {
    hide Plus, Extra, CellAt;
    after := before;
    forall f | 0 <= f < |before| ensures before[f] == Plus(before[f], ZERO) {
      PlusZero(before[f]);
    }
    var i := from;
    while i < |observed|
      invariant |after| == |before| && (i == from || from <= i <= |observed|)
      invariant forall f | 0 <= f < |after| :: after[f] == Plus(before[f], Surplus(observed, f, from, i))
    {
      ghost var earlier := after;
      after := AddExtraLine(after, observed[i]);
      i := i + 1;
      forall f | 0 <= f < |after| ensures after[f] == Plus(before[f], Surplus(observed, f, from, i)) {
        PlusAssociates(before[f], Surplus(observed, f, from, i - 1), Extra(CellAt(observed[i - 1], f)));
      }
    }
    SurplusEnds(observed, from, i);
  }

  lemma SurplusEnds(observed: seq<seq<Cell>>, from: nat, i: nat)
    requires |observed| <= i && (i == from || from <= i <= |observed|)
    ensures forall f: nat :: Surplus(observed, f, from, i) == Surplus(observed, f, from, |observed|)
  {
    hide Plus, Extra;
  }

  // ---------------------------------------------------------------- known labels

  function KnownInColumn(golden: seq<seq<Cell>>, f: nat, n: nat): nat {
    if n == 0 then 0 else KnownInColumn(golden, f, n - 1) + if CellAt(LineAt(golden, n - 1), f).Present? then 1 else 0
  }

  /** How often the golden label knows the field. */
  function Known(golden: Document, field: Field): nat {
    match field
    case HeaderField(f) => if CellAt(golden.header, f).Present? then 1 else 0
    case LineField(f) => KnownInColumn(golden.lines, f, |golden.lines|)
  }

  lemma {:induction false} ColumnKnown(golden: seq<seq<Cell>>, observed: seq<seq<Cell>>, f: nat, n: nat)
    ensures Labels(ColumnScore(golden, observed, f, n)) == KnownInColumn(golden, f, n)
  {
    hide Plus, Compare, Labels;
    if n == 0 {
      CompareLabels(Absent, Absent);
    } else {
      var expected, found := CellAt(LineAt(golden, n - 1), f), CellAt(LineAt(observed, n - 1), f);
      ColumnKnown(golden, observed, f, n - 1);
      CompareLabels(expected, found);
      LabelsAdd(ColumnScore(golden, observed, f, n - 1), Compare(expected, found));
    }
  }

  lemma {:induction false} SurplusIsFalse(observed: seq<seq<Cell>>, f: nat, from: nat, n: nat)
    ensures Labels(Surplus(observed, f, from, n)) == 0
    decreases n
  {
    hide Plus, Extra, Labels;
    CompareLabels(Absent, Absent);
    if n > from {
      var found := CellAt(LineAt(observed, n - 1), f);
      SurplusIsFalse(observed, f, from, n - 1);
      CompareLabels(Absent, found);
      LabelsAdd(Surplus(observed, f, from, n - 1), Extra(found));
    }
  }

  /** True positives and misses of a field are its known labels, whatever was extracted. */
  lemma RecallBaseIsLabels(golden: Document, e: Option<Document>, field: Field)
    ensures Labels(Score(golden, e, field)) == Known(golden, field)
  {
    hide Plus, Compare, Labels, CellAt;
    CompareLabels(CellAt(golden.header, field.name), CellAt(Header(e), field.name));
    if field.LineField? {
      var n := |golden.lines|;
      ColumnKnown(golden.lines, Lines(e), field.name, n);
      SurplusIsFalse(Lines(e), field.name, n, |Lines(e)|);
      LabelsAdd(ColumnScore(golden.lines, Lines(e), field.name, n),
                if golden.lines == [] then ZERO else Surplus(Lines(e), field.name, n, |Lines(e)|));
    }
  }

  // ---------------------------------------------------------------- what the counts count

  /** The label knows the value of column `f` on line `i`. */
  predicate KnownAt(lines: seq<seq<Cell>>, f: nat, i: nat) {
    i < |lines| && f < |lines[i]| && lines[i][f] != Absent
  }

  /** What column `f` of line `i` reads as; a missing line, a missing value and an unreadable one read as nothing. */
  function ReadAt(lines: seq<seq<Cell>>, f: nat, i: nat): Option<int> {
    if KnownAt(lines, f, i) then lines[i][f].normal else None
  }

  predicate HitAt(golden: seq<seq<Cell>>, observed: seq<seq<Cell>>, f: nat, i: nat) {
    KnownAt(golden, f, i) && ReadAt(golden, f, i) == ReadAt(observed, f, i)
  }

  /** The known labels that were extracted, among the first `n` lines. */
  function Hits(golden: seq<seq<Cell>>, observed: seq<seq<Cell>>, f: nat, n: nat): set<nat> {
    set i | 0 <= i < n && HitAt(golden, observed, f, i)
  }

  function Misses(golden: seq<seq<Cell>>, observed: seq<seq<Cell>>, f: nat, n: nat): set<nat> {
    set i | 0 <= i < n && KnownAt(golden, f, i) && !HitAt(golden, observed, f, i)
  }

  /** The misses for which something else was extracted. */
  function Wrong(golden: seq<seq<Cell>>, observed: seq<seq<Cell>>, f: nat, n: nat): set<nat> {
    set i | i in Misses(golden, observed, f, n) && ReadAt(observed, f, i) != None
  }

  function Beyond(observed: seq<seq<Cell>>, f: nat, from: nat, n: nat): set<nat> {
    set i | from <= i < n && KnownAt(observed, f, i)
  }

  lemma PlusParts(a: FieldCounts, b: FieldCounts)
    ensures Plus(a, b) == FieldCounts(a.tp + b.tp, a.fp + b.fp, a.fn + b.fn)
  {
  }

  lemma OneMore(before: set<nat>, after: set<nat>, n: nat, more: bool)
    requires n !in before && after == if more then before + {n} else before
    ensures |after| == |before| + if more then 1 else 0
  {
  }

  /** One label against what was read for it. */
  lemma CompareMeans(golden: seq<seq<Cell>>, observed: seq<seq<Cell>>, f: nat, i: nat)
    ensures var c := Compare(CellAt(LineAt(golden, i), f), CellAt(LineAt(observed, i), f));
            && c.tp == (if HitAt(golden, observed, f, i) then 1 else 0)
            && c.fn == (if KnownAt(golden, f, i) && !HitAt(golden, observed, f, i) then 1 else 0)
            && c.fp == (if c.fn == 1 && ReadAt(observed, f, i) != None then 1 else 0)
    ensures Extra(CellAt(LineAt(observed, i), f)) == FieldCounts(0, if KnownAt(observed, f, i) then 1 else 0, 0)
  {
  }

  lemma HitsGrow(golden: seq<seq<Cell>>, observed: seq<seq<Cell>>, f: nat, n: nat)
    ensures |Hits(golden, observed, f, n + 1)| == |Hits(golden, observed, f, n)| + if HitAt(golden, observed, f, n) then 1 else 0
  {
    hide HitAt;
    OneMore(Hits(golden, observed, f, n), Hits(golden, observed, f, n + 1), n, HitAt(golden, observed, f, n));
  }

  lemma MissesGrow(golden: seq<seq<Cell>>, observed: seq<seq<Cell>>, f: nat, n: nat)
    ensures var missed := KnownAt(golden, f, n) && !HitAt(golden, observed, f, n);
            && |Misses(golden, observed, f, n + 1)| == |Misses(golden, observed, f, n)| + (if missed then 1 else 0)
            && |Wrong(golden, observed, f, n + 1)|
               == |Wrong(golden, observed, f, n)| + if missed && ReadAt(observed, f, n) != None then 1 else 0
  {
    hide HitAt, KnownAt, ReadAt;
    var missed := KnownAt(golden, f, n) && !HitAt(golden, observed, f, n);
    OneMore(Misses(golden, observed, f, n), Misses(golden, observed, f, n + 1), n, missed);
    OneMore(Wrong(golden, observed, f, n), Wrong(golden, observed, f, n + 1), n, missed && ReadAt(observed, f, n) != None);
  }

  lemma {:induction false} ColumnMeans(golden: seq<seq<Cell>>, observed: seq<seq<Cell>>, f: nat, n: nat)
    ensures ColumnScore(golden, observed, f, n)
         == FieldCounts(|Hits(golden, observed, f, n)|, |Wrong(golden, observed, f, n)|, |Misses(golden, observed, f, n)|)
  {
    hide Plus, Compare, CellAt, LineAt, KnownAt, HitAt, ReadAt;
    if n > 0 {
      ColumnMeans(golden, observed, f, n - 1);
      CompareMeans(golden, observed, f, n - 1);
      PlusParts(ColumnScore(golden, observed, f, n - 1),
                Compare(CellAt(LineAt(golden, n - 1), f), CellAt(LineAt(observed, n - 1), f)));
      hide Hits, Misses, Wrong;
      HitsGrow(golden, observed, f, n - 1);
      MissesGrow(golden, observed, f, n - 1);
    }
  }

  lemma {:induction false} SurplusMeans(observed: seq<seq<Cell>>, f: nat, from: nat, n: nat)
    ensures Surplus(observed, f, from, n) == FieldCounts(0, |Beyond(observed, f, from, n)|, 0)
    decreases n
  {
    hide Plus, Extra, CellAt, LineAt, KnownAt;
    if n > from {
      SurplusMeans(observed, f, from, n - 1);
      PlusParts(Surplus(observed, f, from, n - 1), Extra(CellAt(LineAt(observed, n - 1), f)));
      CompareMeans([], observed, f, n - 1);
      OneMore(Beyond(observed, f, from, n - 1), Beyond(observed, f, from, n), n - 1, KnownAt(observed, f, n - 1));
    } else {
      assert Beyond(observed, f, from, n) == {};
    }
  }

  /** True positives of a field are the known labels that were read as labelled, misses the other known
  labels, false positives the misses read as something else and, when the label has lines at all, the values
  on lines the label does not have. The header is a single line. */
  lemma {:induction false} ScoreMeans(golden: Document, e: Option<Document>, field: Field)
    ensures var lines, observed := if field.LineField? then golden.lines else [golden.header],
                                   if e == None then [] else if field.LineField? then e.value.lines else [e.value.header];
            var (f, n) := (field.name, |lines|);
            var c := Score(golden, e, field);
            && c.tp == |Hits(lines, observed, f, n)| && c.fn == |Misses(lines, observed, f, n)|
            && c.fp == |Wrong(lines, observed, f, n)| + if n == 0 then 0 else |Beyond(observed, f, n, |observed|)|
  {
    hide Plus, Compare, Extra, CellAt, Hits, Misses, Wrong, Beyond;
    if field.LineField? {
      var column := ColumnScore(golden.lines, Lines(e), field.name, |golden.lines|);
      ColumnMeans(golden.lines, Lines(e), field.name, |golden.lines|);
      SurplusMeans(Lines(e), field.name, |golden.lines|, |Lines(e)|);
      PlusParts(column, ZERO);
      PlusParts(column, Surplus(Lines(e), field.name, |golden.lines|, |Lines(e)|));
    } else {
      var lines, observed, c := [golden.header], if e == None then [] else [e.value.header], Score(golden, e, field);
      ColumnMeans(lines, observed, field.name, 1);
      SurplusMeans(observed, field.name, 1, |observed|);
      assert ColumnScore(lines, observed, field.name, 0) == ZERO;
      PlusZero(c);
    }
  }

  // ---------------------------------------------------------------- diagnostics against primary metrics

  const TIERS := 3

  const DUP_EXACT := 0

  datatype Case = Case(
    golden: Document, tier: nat, expected: set<nat>, eligible: bool,
    duplicate: bool, extraction: Option<Document>, classified: set<nat>, gate: Option<(real, bool)>)

  /** Duplicates are not extracted and not scored. */
  function CaseScore(c: Case, field: Field): FieldCounts {
    if c.duplicate then ZERO else Score(c.golden, c.extraction, field)
  }

  /** A case's counts over a list of fields. */
  function CaseSum(c: Case, fields: seq<Field>): FieldCounts {
    if fields == [] then ZERO
    else Plus(CaseSum(c, fields[..|fields| - 1]), CaseScore(c, fields[|fields| - 1]))
  }

  function PrimaryTotal(cases: seq<Case>, fields: seq<Field>): FieldCounts {
    if cases == [] then ZERO
    else Plus(PrimaryTotal(cases[..|cases| - 1], fields), CaseSum(cases[|cases| - 1], fields))
  }

  function InTier(c: Case, tier: nat, field: Field): FieldCounts {
    if c.tier == tier then CaseScore(c, field) else ZERO
  }

  function TierTotal(cases: seq<Case>, tier: nat, field: Field): FieldCounts {
    if cases == [] then ZERO
    else Plus(TierTotal(cases[..|cases| - 1], tier, field), InTier(cases[|cases| - 1], tier, field))
  }

  /** The diagnostic rows of one tier, added up. */
  function TierSum(cases: seq<Case>, tier: nat, fields: seq<Field>): FieldCounts {
    if fields == [] then ZERO
    else Plus(TierSum(cases, tier, fields[..|fields| - 1]), TierTotal(cases, tier, fields[|fields| - 1]))
  }

  /** All diagnostic rows of the first `tiers` tiers, added up. */
  function DiagnosticSum(cases: seq<Case>, tiers: nat, fields: seq<Field>): FieldCounts {
    if tiers == 0 then ZERO else Plus(DiagnosticSum(cases, tiers - 1, fields), TierSum(cases, tiers - 1, fields))
  }

  lemma {:induction false} TierSumAppend(cases: seq<Case>, c: Case, tier: nat, fields: seq<Field>)
    ensures TierSum(cases + [c], tier, fields)
         == Plus(TierSum(cases, tier, fields), if c.tier == tier then CaseSum(c, fields) else ZERO)
  {
    hide Plus, CaseScore;
    PlusZero(ZERO);
    if fields != [] {
      var front, last := fields[..|fields| - 1], fields[|fields| - 1];
      TierSumAppend(cases, c, tier, front);
      TierTotalAppend(cases, c, tier, last);
      PlusExchanges(TierSum(cases, tier, front), if c.tier == tier then CaseSum(c, front) else ZERO,
                    TierTotal(cases, tier, last), InTier(c, tier, last));
    }
  }

  lemma TierTotalAppend(cases: seq<Case>, c: Case, tier: nat, field: Field)
    ensures TierTotal(cases + [c], tier, field) == Plus(TierTotal(cases, tier, field), InTier(c, tier, field))
  {
    hide Plus, InTier;
    assert (cases + [c])[..|cases|] == cases;
  }

  lemma {:induction false} DiagnosticSumAppend(cases: seq<Case>, c: Case, tiers: nat, fields: seq<Field>)
    ensures DiagnosticSum(cases + [c], tiers, fields)
         == Plus(DiagnosticSum(cases, tiers, fields), if c.tier < tiers then CaseSum(c, fields) else ZERO)
  {
    hide Plus, TierSum, CaseSum;
    PlusZero(ZERO);
    if tiers > 0 {
      DiagnosticSumAppend(cases, c, tiers - 1, fields);
      TierSumAppend(cases, c, tiers - 1, fields);
      PlusExchanges(DiagnosticSum(cases, tiers - 1, fields), if c.tier < tiers - 1 then CaseSum(c, fields) else ZERO,
                    TierSum(cases, tiers - 1, fields), if c.tier == tiers - 1 then CaseSum(c, fields) else ZERO);
      PlusZero(CaseSum(c, fields));
    }
  }

  lemma {:induction false} NothingToSum(tier: nat, fields: seq<Field>)
    ensures TierSum([], tier, fields) == ZERO
  {
    hide Plus;
    PlusZero(ZERO);
    if fields != [] {
      NothingToSum(tier, fields[..|fields| - 1]);
    }
  }

  lemma {:induction false} NothingToDiagnose(tiers: nat, fields: seq<Field>)
    ensures DiagnosticSum([], tiers, fields) == ZERO
  {
    hide Plus, TierSum;
    PlusZero(ZERO);
    if tiers > 0 {
      NothingToDiagnose(tiers - 1, fields);
      NothingToSum(tiers - 1, fields);
    }
  }

  /** Numerator and denominator of the primary field F1. */
  function F1Numerator(c: FieldCounts): nat {
    2 * c.tp
  }

  function F1Denominator(c: FieldCounts): nat {
    2 * c.tp + c.fp + c.fn
  }

  /** The per-tier, per-field diagnostics add up to the counts behind the primary field F1. */
  lemma {:induction false} DiagnosticsSumToPrimary(cases: seq<Case>, fields: seq<Field>)
    requires forall c <- cases :: c.tier < TIERS
    ensures DiagnosticSum(cases, TIERS, fields) == PrimaryTotal(cases, fields)
    ensures F1Numerator(DiagnosticSum(cases, TIERS, fields)) == F1Numerator(PrimaryTotal(cases, fields))
    ensures F1Denominator(DiagnosticSum(cases, TIERS, fields)) == F1Denominator(PrimaryTotal(cases, fields))
  {
    if cases == [] {
      NothingToDiagnose(TIERS, fields);
    } else {
      hide DiagnosticSum, CaseSum, Plus;
      var front, last := cases[..|cases| - 1], cases[|cases| - 1];
      assert cases == front + [last];
      DiagnosticsSumToPrimary(front, fields);
      DiagnosticSumAppend(front, last, TIERS, fields);
    }
  }

  /** A case adds its counts to the row of its tier, and a duplicate to none. */
  lemma InTierIs(c: Case, tier: nat, field: Field)
    ensures InTier(c, tier, field) == if c.tier == tier && !c.duplicate then Score(c.golden, c.extraction, field) else ZERO
  {
    hide Score;
  }

  lemma {:induction false} CaseAdds(cases: seq<Case>, c: Case, tier: nat, field: Field)
    ensures TierTotal([], tier, field) == FieldCounts(0, 0, 0)
    ensures var before, own := TierTotal(cases, tier, field), Score(c.golden, c.extraction, field);
            var sum := FieldCounts(before.tp + own.tp, before.fp + own.fp, before.fn + own.fn);
            TierTotal(cases + [c], tier, field) == if c.tier == tier && !c.duplicate then sum else before
  {
    hide Plus, Score, InTier;
    InTierIs(c, tier, field);
    PlusZero(TierTotal(cases, tier, field));
    TierTotalAppend(cases, c, tier, field);
    PlusParts(TierTotal(cases, tier, field), InTier(c, tier, field));
  }

  /** The fraction behind F1 is the harmonic mean of precision and recall. */
  lemma F1IsHarmonicMean(c: FieldCounts)
    requires c.tp > 0
    ensures var precision, recall := c.tp as real / (c.tp + c.fp) as real, c.tp as real / (c.tp + c.fn) as real;
            F1Numerator(c) as real * (precision + recall) == 2.0 * precision * recall * F1Denominator(c) as real
    ensures F1Numerator(c) > 0
  {
    var t, p, r := c.tp as real, (c.tp + c.fp) as real, (c.tp + c.fn) as real;
    var precision, recall := t / p, t / r;
    assert precision * p == t && recall * r == t;
    calc {
      2.0 * t * (precision + recall);
      2.0 * (recall * r) * precision + 2.0 * (precision * p) * recall;
      2.0 * precision * recall * (p + r);
    }
  }

  function Totalled(totals: map<(nat, Field), FieldCounts>, tier: nat, field: Field): FieldCounts {
    if (tier, field) in totals then totals[(tier, field)] else ZERO
  }

  /** The defaultdict of the diagnostics, filled case by case and field by field. */
  method FieldByTier(cases: seq<Case>, fields: seq<Field>) returns (totals: map<(nat, Field), FieldCounts>)
    requires forall i, j | 0 <= i < j < |fields| :: fields[i] != fields[j]
    ensures forall tier: nat, field | field in fields :: Totalled(totals, tier, field) == TierTotal(cases, tier, field)
  {
    hide Plus, InTier, TierTotal;
    totals := map[];
    NothingTotalled(cases);
    for i := 0 to |cases|
      invariant forall tier: nat, field | field in fields :: Totalled(totals, tier, field) == TierTotal(cases[..i], tier, field)
    {
      assert cases[..i + 1] == cases[..i] + [cases[i]];
      ghost var before := totals;
      if !cases[i].duplicate {
        totals := AddCase(totals, cases[i], fields);
      }
      forall tier: nat, field | field in fields
        ensures Totalled(totals, tier, field) == TierTotal(cases[..i + 1], tier, field)
      {
        DuplicateTier(cases[i], tier, field, Totalled(before, tier, field));
        TierTotalAppend(cases[..i], cases[i], tier, field);
      }
    }
    assert cases[..|cases|] == cases;
  }

  lemma NothingTotalled(cases: seq<Case>)
    ensures forall tier: nat, field: Field :: TierTotal(cases[..0], tier, field) == ZERO
  {
  }

  lemma DuplicateTier(c: Case, tier: nat, field: Field, before: FieldCounts)
    ensures c.duplicate ==> Plus(before, InTier(c, tier, field)) == before
  {
    hide Score;
  }

  method AddCase(before: map<(nat, Field), FieldCounts>, c: Case, fields: seq<Field>)
    returns (totals: map<(nat, Field), FieldCounts>)
    requires !c.duplicate
    requires forall i, j | 0 <= i < j < |fields| :: fields[i] != fields[j]
    ensures forall tier: nat, field | field in fields ::
              Totalled(totals, tier, field) == Plus(Totalled(before, tier, field), InTier(c, tier, field))
  {
    hide Plus, Score;
    totals := before;
    for f := 0 to |fields|
      invariant forall tier: nat, g | 0 <= g < f ::
          Totalled(totals, tier, fields[g]) == Plus(Totalled(before, tier, fields[g]), InTier(c, tier, fields[g]))
      invariant forall tier: nat, g | f <= g < |fields| ::
          Totalled(totals, tier, fields[g]) == Totalled(before, tier, fields[g])
    {
      forall tier: nat ensures Plus(Totalled(before, tier, fields[f]), ZERO) == Totalled(before, tier, fields[f]) {
        PlusZero(Totalled(before, tier, fields[f]));
      }
      totals := totals[(c.tier, fields[f]) := Plus(Totalled(totals, c.tier, fields[f]), Score(c.golden, c.extraction, fields[f]))];
    }
  }

  method PrimaryCounts(cases: seq<Case>, fields: seq<Field>) returns (counts: FieldCounts)
    ensures counts == PrimaryTotal(cases, fields)
  {
    hide Plus, Score, CaseSum;
    counts := ZERO;
    for i := 0 to |cases|
      invariant counts == PrimaryTotal(cases[..i], fields)
    {
      assert cases[..i + 1][..i] == cases[..i];
      counts := AddCounts(counts, cases[i], fields);
    }
    assert cases[..|cases|] == cases;
  }

  method AddCounts(before: FieldCounts, c: Case, fields: seq<Field>) returns (counts: FieldCounts)
    ensures counts == Plus(before, CaseSum(c, fields))
  {
    hide Plus, Score;
    counts := before;
    PlusZero(before);
    if c.duplicate {
      DuplicateSum(c, fields);
    } else {
      for f := 0 to |fields|
        invariant counts == Plus(before, CaseSum(c, fields[..f]))
      {
        assert fields[..f + 1][..f] == fields[..f];
        PlusAssociates(before, CaseSum(c, fields[..f]), Score(c.golden, c.extraction, fields[f]));
        counts := Plus(counts, Score(c.golden, c.extraction, fields[f]));
      }
      assert fields[..|fields|] == fields;
    }
  }

  lemma {:induction false} DuplicateSum(c: Case, fields: seq<Field>)
    requires c.duplicate
    ensures CaseSum(c, fields) == ZERO
  {
    hide Plus, Score;
    PlusZero(ZERO);
    if fields != [] {
      DuplicateSum(c, fields[..|fields| - 1]);
    }
  }

  // ---------------------------------------------------------------- confusion per anomaly code

  function Detected(c: Case): set<nat> {
    c.classified + if c.duplicate then {DUP_EXACT} else {}
  }

  datatype Confusion = Confusion(tp: nat, fp: nat, fn: nat, tn: nat)

  /** The routing set. */
  function Routed(cases: seq<Case>): set<nat> {
    set i | 0 <= i < |cases| && cases[i].eligible
  }

  /** Those labelled with the code. */
  function Expecting(cases: seq<Case>, code: nat): set<nat> {
    set i | 0 <= i < |cases| && cases[i].eligible && code in cases[i].expected
  }

  /** Those classified with the code; an upload refused as a duplicate has the code of exact duplicates too. */
  function Detecting(cases: seq<Case>, code: nat): set<nat> {
    set i | 0 <= i < |cases| && cases[i].eligible && (code in cases[i].classified || (code == DUP_EXACT && cases[i].duplicate))
  }

  predicate Counts(m: Confusion, all: set<nat>, expected: set<nat>, detected: set<nat>) {
    && m.tp == |expected * detected| && m.fn == |expected - detected|
    && m.fp == |detected - expected| && m.tn == |all - expected - detected|
  }

  function With(s: set<nat>, n: nat, more: bool): set<nat> {
    if more then s + {n} else s
  }

  lemma CountsGrow(m: Confusion, all: set<nat>, e: set<nat>, d: set<nat>, n: nat, expected: bool, detected: bool)
    requires Counts(m, all, e, d) && n !in all && n !in e && n !in d
    ensures Counts(if expected && detected then m.(tp := m.tp + 1) else if expected then m.(fn := m.fn + 1)
                   else if detected then m.(fp := m.fp + 1) else m.(tn := m.tn + 1),
                   With(all, n, true), With(e, n, expected), With(d, n, detected))
  {
    hide With;
    WithBoth(e, d, n, expected, detected);
    WithMinus(e, d, n, expected, detected);
    WithMinus(d, e, n, detected, expected);
    WithMinus(all, e, n, true, expected);
    WithMinus(all - e, d, n, !expected, detected);
  }

  lemma WithBoth(a: set<nat>, b: set<nat>, n: nat, x: bool, y: bool)
    requires n !in a && n !in b
    ensures With(a, n, x) * With(b, n, y) == With(a * b, n, x && y)
    ensures |With(a * b, n, x && y)| == |a * b| + if x && y then 1 else 0
  {
  }

  lemma WithMinus(a: set<nat>, b: set<nat>, n: nat, x: bool, y: bool)
    requires n !in a && n !in b
    ensures With(a, n, x) - With(b, n, y) == With(a - b, n, x && !y)
    ensures |With(a - b, n, x && !y)| == |a - b| + if x && !y then 1 else 0
  {
  }

  lemma Disjoint(a: set<nat>, b: set<nat>, all: set<nat>)
    requires all == a + b && a * b == {}
    ensures |all| == |a| + |b|
  {
  }

  lemma CountsSum(m: Confusion, all: set<nat>, e: set<nat>, d: set<nat>)
    requires Counts(m, all, e, d) && e <= all && d <= all
    ensures m.tp + m.fn == |e| && m.tp + m.fp == |d| && m.tp + m.fp + m.fn + m.tn == |all|
  {
    Split(e, d);
    Split(d, e);
    Split(all, e);
    Split(all - e, d);
    Within(all, e, d);
  }

  lemma Split(a: set<nat>, b: set<nat>)
    ensures |a| == |a * b| + |a - b|
  {
    Disjoint(a * b, a - b, a);
  }

  lemma Within(all: set<nat>, e: set<nat>, d: set<nat>)
    requires e <= all && d <= all
    ensures all * e == e && (all - e) * d == d - e && e * d == d * e
  {
  }

  lemma CaseCounted(cases: seq<Case>, n: nat, code: nat)
    requires n < |cases|
    ensures var c := cases[n];
            && Routed(cases[..n + 1]) == With(Routed(cases[..n]), n, c.eligible)
            && Expecting(cases[..n + 1], code) == With(Expecting(cases[..n], code), n, c.eligible && code in c.expected)
            && Detecting(cases[..n + 1], code) == With(Detecting(cases[..n], code), n, c.eligible && code in Detected(c))
    ensures n !in Routed(cases[..n]) && n !in Expecting(cases[..n], code) && n !in Detecting(cases[..n], code)
  {
  }

  /** Each cell counts its cases, so the cells sum to the routing set and its rows and columns to the
  expected and detected cases. */
  method ConfusionFor(cases: seq<Case>, code: nat) returns (m: Confusion)
    ensures Counts(m, Routed(cases), Expecting(cases, code), Detecting(cases, code))
    ensures m.tp + m.fp + m.fn + m.tn == |Routed(cases)|
    ensures m.tp + m.fn == |Expecting(cases, code)| && m.tp + m.fp == |Detecting(cases, code)|
  {
    m := Confusion(0, 0, 0, 0);
    for i := 0 to |cases|
      invariant Counts(m, Routed(cases[..i]), Expecting(cases[..i], code), Detecting(cases[..i], code))
    {
      hide Counts, Routed, Expecting, Detecting;
      var c := cases[i];
      CaseCounted(cases, i, code);
      if c.eligible {
        var expected, observed := code in c.expected, code in Detected(c);
        CountsGrow(m, Routed(cases[..i]), Expecting(cases[..i], code), Detecting(cases[..i], code), i, expected, observed);
        if expected && observed {
          m := m.(tp := m.tp + 1);
        } else if expected {
          m := m.(fn := m.fn + 1);
        } else if observed {
          m := m.(fp := m.fp + 1);
        } else {
          m := m.(tn := m.tn + 1);
        }
      }
    }
    assert cases[..|cases|] == cases;
    hide Counts;
    CountsSum(m, Routed(cases), Expecting(cases, code), Detecting(cases, code));
  }

  // ---------------------------------------------------------------- the threshold sweep

  predicate WouldAuto(c: Case, threshold: real) {
    c.gate.Some? && c.gate.value.1 && c.gate.value.0 >= threshold
  }

  /** Eligible clean, or eligible anomalous, cases. */
  function Group(cases: seq<Case>, clean: bool): set<nat> {
    set i | 0 <= i < |cases| && cases[i].eligible && (cases[i].expected == {}) == clean
  }

  /** Those of the group that the gate would not approve by itself. */
  function Escalated(cases: seq<Case>, clean: bool, threshold: real): set<nat> {
    set i | i in Group(cases, clean) && !WouldAuto(cases[i], threshold)
  }

  function Rate(n: int, d: nat): Option<real> {
    if d == 0 then None else Some((n as real) / (d as real))
  }

  datatype TauPoint = TauPoint(threshold: real, recall: Option<real>, falseEscalation: Option<real>, stp: Option<real>)

  function PointAt(cases: seq<Case>, threshold: real): TauPoint {
    var clean, falseEscalation := |Group(cases, true)|, |Escalated(cases, true, threshold)|;
    TauPoint(threshold, Rate(|Escalated(cases, false, threshold)|, |Group(cases, false)|),
             Rate(falseEscalation, clean), Rate(clean - falseEscalation, clean))
  }

  lemma {:induction false} SubsetSize(a: set<nat>, b: set<nat>)
    requires a <= b
    ensures |a| <= |b|
  {
    Disjoint(a, b - a, b);
  }

  lemma EscalatedBounds(cases: seq<Case>, clean: bool, s: real, t: real)
    requires s <= t
    ensures |Escalated(cases, clean, s)| <= |Escalated(cases, clean, t)| <= |Group(cases, clean)|
  {
    SubsetSize(Escalated(cases, clean, s), Escalated(cases, clean, t));
    SubsetSize(Escalated(cases, clean, t), Group(cases, clean));
  }

  predicate AtMost(a: Option<real>, b: Option<real>) {
    a.Some? == b.Some? && (a.Some? ==> a.value <= b.value)
  }

  lemma RateMonotone(m: int, n: int, d: nat)
    requires m <= n
    ensures AtMost(Rate(m, d), Rate(n, d))
  {
    if d > 0 {
      DivideMonotone(m as real, n as real, d as real);
    }
  }

  lemma DivideMonotone(a: real, b: real, d: real)
    requires a <= b && d > 0.0
    ensures a / d <= b / d
  {
  }

  /** Raising the threshold never lowers recall or false escalation and never raises the
  straight-through rate; a rate is missing for every threshold or for none. */
  lemma {:induction false} SweepIsMonotone(cases: seq<Case>, s: real, t: real)
    requires s <= t
    ensures AtMost(PointAt(cases, s).recall, PointAt(cases, t).recall)
    ensures AtMost(PointAt(cases, s).falseEscalation, PointAt(cases, t).falseEscalation)
    ensures AtMost(PointAt(cases, t).stp, PointAt(cases, s).stp)
  {
    EscalatedBounds(cases, true, s, t);
    EscalatedBounds(cases, false, s, t);
    hide Escalated, Group, Rate, AtMost;
    RateMonotone(|Escalated(cases, false, s)|, |Escalated(cases, false, t)|, |Group(cases, false)|);
    RateMonotone(|Escalated(cases, true, s)|, |Escalated(cases, true, t)|, |Group(cases, true)|);
    RateMonotone(|Group(cases, true)| - |Escalated(cases, true, t)|, |Group(cases, true)| - |Escalated(cases, true, s)|,
                 |Group(cases, true)|);
  }

  /** The fraction `part` of `all`; nothing when there is none to take it of. */
  predicate FractionOf(rate: Option<real>, part: set<nat>, all: set<nat>) {
    if all == {} then rate == None else rate.Some? && rate.value * |all| as real == |part| as real
  }

  lemma RateIsFraction(part: set<nat>, all: set<nat>)
    ensures FractionOf(Rate(|part|, |all|), part, all)
  {
  }

  /** The cases whose gate lets them through at the threshold: a committed gate with an eligible policy and a
  score that is not below it. */
  function Passed(cases: seq<Case>, t: real): set<nat> {
    set i | 0 <= i < |cases| && cases[i].gate != None && !(cases[i].gate.value.0 < t) && cases[i].gate.value.1
  }

  function Clean(cases: seq<Case>): set<nat> {
    set i | 0 <= i < |cases| && cases[i].eligible && |cases[i].expected| == 0
  }

  lemma EscalatedIs(cases: seq<Case>, clean: bool, t: real)
    ensures Escalated(cases, clean, t) == Group(cases, clean) - Passed(cases, t)
    ensures Group(cases, clean) == if clean then Clean(cases) else Routed(cases) - Clean(cases)
  {
  }

  /** Recall is the fraction of anomalous cases that are not let through, false escalation that of clean ones,
  and the straight-through rate the fraction of clean cases that are. */
  lemma PointMeans(cases: seq<Case>, t: real)
    ensures var point, clean, passed := PointAt(cases, t), Clean(cases), Passed(cases, t);
            && point.threshold == t
            && FractionOf(point.recall, Routed(cases) - clean - passed, Routed(cases) - clean)
            && FractionOf(point.falseEscalation, clean - passed, clean)
            && FractionOf(point.stp, clean * passed, clean)
  {
    hide Group, Escalated, Clean, Routed, Passed, FractionOf, Rate;
    var clean, passed := Clean(cases), Passed(cases, t);
    EscalatedIs(cases, true, t);
    EscalatedIs(cases, false, t);
    Disjoint(clean - passed, clean * passed, clean);
    RateIsFraction(Routed(cases) - clean - passed, Routed(cases) - clean);
    RateIsFraction(clean - passed, clean);
    RateIsFraction(clean * passed, clean);
  }

  /** The n-th of the hundred and one thresholds. */
  function Tau(n: nat): real {
    (n as real) / 100.0
  }

  method TauSweep(cases: seq<Case>) returns (points: seq<TauPoint>)
    ensures |points| == 101
    ensures forall i | 0 <= i < 101 :: points[i] == PointAt(cases, i as real / 100.0)
    ensures forall i, j | 0 <= i <= j < 101 ::
              AtMost(points[i].recall, points[j].recall)
              && AtMost(points[i].falseEscalation, points[j].falseEscalation)
              && AtMost(points[j].stp, points[i].stp)
  {
    hide PointAt, AtMost;
    points := [];
    for n := 0 to 101
      invariant |points| == n
      invariant forall i | 0 <= i < n :: points[i] == PointAt(cases, Tau(i))
    {
      points := points + [PointAt(cases, Tau(n))];
    }
    forall i, j | 0 <= i <= j < 101
      ensures AtMost(points[i].recall, points[j].recall) && AtMost(points[i].falseEscalation, points[j].falseEscalation)
              && AtMost(points[j].stp, points[i].stp)
    {
      SweepIsMonotone(cases, Tau(i), Tau(j));
    }
  }
}
