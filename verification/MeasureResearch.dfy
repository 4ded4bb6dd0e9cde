/** Selecting and comparing research snapshots (scripts/ad-hoc/measure-website-first-research.ts): the
    newest row per company, the fields that got lost, and the ranked comparison report. */
module MeasureResearch {
  import opened Collections
  import opened Strings
  import opened TextDelta

  /** A value of unknown shape: an array with its size, or anything else; `text` is its JSON text. */
  datatype Json = JsonArray(size: nat, text: string) | JsonOther(text: string)

  datatype Row = Row(
    companyId: string, name: string, researchedAt: Option<int>, confidence: Option<string>, sourceCount: int,
    inputTokens: Option<int>, outputTokens: Option<int>, webSearches: Option<int>,
    companySummary: Option<string>, whatTheySell: Option<string>, businessModel: Option<string>,
    companySizeContext: Option<string>, customerTypes: Json, primaryMarkets: Json)

  // ----- the newest row per company -----

  predicate HasCompany(rows: seq<Row>, companyId: string) {
    exists r :: r in rows && r.companyId == companyId
  }

  function KeepFirst(rows: seq<Row>): seq<Row> {
    if rows == [] then []
    else
      var kept, row := KeepFirst(rows[..|rows| - 1]), rows[|rows| - 1];
      if HasCompany(kept, row.companyId) then kept else kept + [row]
  }

  /** The Map, filled in insertion order by the first row of each company. */
  method LatestRows(rows: seq<Row>) returns (latest: seq<Row>)
    ensures latest == KeepFirst(rows)
  {
    latest := [];
    var seen: set<string> := {};
    for i := 0 to |rows|
      invariant latest == KeepFirst(rows[..i])
      invariant forall id :: id in seen <==> HasCompany(latest, id)
    {
      assert rows[..i + 1][..i] == rows[..i];
      if rows[i].companyId !in seen {
        ghost var before := latest;
        latest := latest + [rows[i]];
        seen := seen + {rows[i].companyId};
        assert forall r :: r in latest <==> r in before || r == rows[i];
      }
    }
    assert rows[..|rows|] == rows;
  }

  /** `a` may stand before `b` when the database sorts dates in descending order: no date comes first. */
  predicate NotOlder(a: Row, b: Row) {
    a.researchedAt.None? || (b.researchedAt.Some? && a.researchedAt.value >= b.researchedAt.value)
  }

  ghost predicate NewestFirst(rows: seq<Row>) {
    forall i, j :: 0 <= i < j < |rows| ==> NotOlder(rows[i], rows[j])
  }

  function CompanyOf(r: Row): string { r.companyId }

  lemma KeepFirstAppends(before: seq<Row>, row: Row)
    ensures KeepFirst(before + [row])
            == KeepFirst(before) + if HasCompany(KeepFirst(before), row.companyId) then [] else [row]
  {
    assert (before + [row])[..|before|] == before;
  }

  lemma {:induction false} KeepFirstRows(rows: seq<Row>)
    ensures DistinctBy(KeepFirst(rows), CompanyOf)
    ensures Subsequence(KeepFirst(rows), rows)
    ensures forall r :: r in KeepFirst(rows) ==> r in rows
    ensures forall r :: r in rows ==> HasCompany(KeepFirst(rows), r.companyId)
  {
    if rows != [] {
      var before, row := rows[..|rows| - 1], rows[|rows| - 1];
      var kept, now := KeepFirst(before), KeepFirst(rows);
      KeepFirstRows(before);
      assert rows == before + [row];
      KeepFirstAppends(before, row);
      if !HasCompany(kept, row.companyId) {
        DistinctAppend(kept, row, CompanyOf);
        assert now[..|now| - 1] == kept;
        assert row in now && forall r :: r in kept ==> r in now;
      }
    }
  }

  lemma {:induction false} KeepFirstNewest(rows: seq<Row>, kept: Row, other: Row)
    requires NewestFirst(rows) && kept in KeepFirst(rows) && other in rows && other.companyId == kept.companyId
    ensures NotOlder(kept, other)
  {
    var n := |rows| - 1;
    var before, row := rows[..n], rows[n];
    assert rows == before + [row];
    KeepFirstRows(before);
    if kept in KeepFirst(before) {
      if other in before {
        KeepFirstNewest(before, kept, other);
      } else {
        assert kept in before;
        var i :| 0 <= i < n && rows[i] == kept;
        assert NotOlder(rows[i], rows[n]);
      }
    } else {
      assert kept == row && other !in before;
    }
  }

  /** From rows in the database's order the loop returns exactly one row of every company; it is dated
      no earlier than any other of that company, unless some row of the company has no date, and then
      the undated row is the one returned. */
  lemma LatestIsNewest(rows: seq<Row>, kept: Row)
    requires NewestFirst(rows) && kept in KeepFirst(rows)
    ensures kept in rows
    ensures forall other :: other in KeepFirst(rows) && other.companyId == kept.companyId ==> other == kept
    ensures kept.researchedAt.Some? ==>
              forall r :: r in rows && r.companyId == kept.companyId ==>
                r.researchedAt.Some? && r.researchedAt.value <= kept.researchedAt.value
    ensures kept.researchedAt.None? <==> exists r :: r in rows && r.companyId == kept.companyId && r.researchedAt.None?
  {
    KeepFirstRows(rows);
    forall other | other in KeepFirst(rows) && other.companyId == kept.companyId ensures other == kept {
      OnePerTag(KeepFirst(rows), CompanyOf, other, kept);
    }
    forall r | r in rows && r.companyId == kept.companyId ensures NotOlder(kept, r) {
      KeepFirstNewest(rows, kept, r);
    }
  }

  /** An undated row in front of a dated one of its company, as the database puts it, is the one kept. */
  lemma UndatedRowIsKept(undated: Row, dated: Row)
    requires undated.companyId == dated.companyId && undated.researchedAt.None? && dated.researchedAt.Some?
    ensures NewestFirst([undated] + [dated]) && KeepFirst([undated] + [dated]) == [undated]
  {
    KeepFirstAppends([], undated);
    assert [] + [undated] == [undated];
    KeepFirstAppends([undated], dated);
    assert undated in [undated];
  }

  // ----- fields that got lost -----

  datatype Field = CompanySummary | WhatTheySell | BusinessModel | CompanySizeContext | CustomerTypes

  const PRIMARY_FIELDS: seq<Field> := [CompanySummary, WhatTheySell, BusinessModel, CompanySizeContext, CustomerTypes]

  predicate HasText(text: Option<string>) {
    text.Some? && Trim(text.value) != ""
  }

  predicate IsPopulated(r: Row, f: Field) {
    match f
    case CompanySummary => HasText(r.companySummary)
    case WhatTheySell => HasText(r.whatTheySell)
    case BusinessModel => HasText(r.businessModel)
    case CompanySizeContext => HasText(r.companySizeContext)
    case CustomerTypes => r.customerTypes.JsonArray? && r.customerTypes.size > 0
  }

  function Lost(before: Row, after: Row): Field -> bool {
    (f: Field) => IsPopulated(before, f) && !IsPopulated(after, f)
  }

  function Populated(r: Row): Field -> bool {
    (f: Field) => IsPopulated(r, f)
  }

  function PrimaryRegressions(before: Row, after: Row): seq<Field> {
    Select(PRIMARY_FIELDS, Lost(before, after))
  }

  function PopulatedFields(r: Row): seq<Field> {
    Select(PRIMARY_FIELDS, Populated(r))
  }

  /** A text that was there and is blank or missing now. */
  predicate TextLost(before: Option<string>, after: Option<string>) {
    before.Some? && Trim(before.value) != "" && (after.None? || Trim(after.value) == "")
  }

  lemma LostIs(before: Row, after: Row)
    ensures Lost(before, after)(CompanySummary) <==> TextLost(before.companySummary, after.companySummary)
    ensures Lost(before, after)(WhatTheySell) <==> TextLost(before.whatTheySell, after.whatTheySell)
    ensures Lost(before, after)(BusinessModel) <==> TextLost(before.businessModel, after.businessModel)
    ensures Lost(before, after)(CompanySizeContext) <==> TextLost(before.companySizeContext, after.companySizeContext)
    ensures Lost(before, after)(CustomerTypes)
            <==> && before.customerTypes.JsonArray? && before.customerTypes.size > 0
                 && (after.customerTypes.JsonOther? || after.customerTypes.size == 0)
  {}

  /** The five fields are looked at in turn: the four texts, and the list of customer types. */
  lemma RegressionsAre(before: Row, after: Row)
    ensures
      PrimaryRegressions(before, after)
      == (if TextLost(before.companySummary, after.companySummary) then [CompanySummary] else [])
         + (if TextLost(before.whatTheySell, after.whatTheySell) then [WhatTheySell] else [])
         + (if TextLost(before.businessModel, after.businessModel) then [BusinessModel] else [])
         + (if TextLost(before.companySizeContext, after.companySizeContext) then [CompanySizeContext] else [])
         + (if && before.customerTypes.JsonArray? && before.customerTypes.size > 0
               && (after.customerTypes.JsonOther? || after.customerTypes.size == 0) then [CustomerTypes] else [])
  {
    var lost := Lost(before, after);
    LostIs(before, after);
    var none: seq<Field> := [];
    SelectStep(none, CompanySummary, lost);
    SelectStep(none + [CompanySummary], WhatTheySell, lost);
    SelectStep(none + [CompanySummary] + [WhatTheySell], BusinessModel, lost);
    SelectStep(none + [CompanySummary] + [WhatTheySell] + [BusinessModel], CompanySizeContext, lost);
    SelectStep(none + [CompanySummary] + [WhatTheySell] + [BusinessModel] + [CompanySizeContext], CustomerTypes, lost);
    assert PRIMARY_FIELDS
        == none + [CompanySummary] + [WhatTheySell] + [BusinessModel] + [CompanySizeContext] + [CustomerTypes];
  }

  lemma {:induction false} LostAlongTheWay(fields: seq<Field>, a: Row, b: Row, c: Row)
    ensures |Select(fields, Lost(a, c))| <= |Select(fields, Lost(a, b))| + |Select(fields, Lost(b, c))|
  {
    if fields != [] { LostAlongTheWay(fields[..|fields| - 1], a, b, c); }
  }

  /** A field lost between two snapshots was lost on one side of any snapshot in between, and not on
      both; so there are no more of them than losses along the way. */
  lemma RegressionsChain(a: Row, b: Row, c: Row)
    ensures forall f :: f in PrimaryRegressions(a, c) ==> (f in PrimaryRegressions(a, b)) != (f in PrimaryRegressions(b, c))
    ensures |PrimaryRegressions(a, c)| <= |PrimaryRegressions(a, b)| + |PrimaryRegressions(b, c)|
  {
    SelectMembers(PRIMARY_FIELDS, Lost(a, b));
    SelectMembers(PRIMARY_FIELDS, Lost(b, c));
    SelectMembers(PRIMARY_FIELDS, Lost(a, c));
    LostAlongTheWay(PRIMARY_FIELDS, a, b, c);
  }

  lemma {:induction false} FieldsBalanceIn(fields: seq<Field>, before: Row, after: Row)
    ensures |Select(fields, Populated(after))| + |Select(fields, Lost(before, after))|
            == |Select(fields, Populated(before))| + |Select(fields, Lost(after, before))|
  {
    if fields != [] { FieldsBalanceIn(fields[..|fields| - 1], before, after); }
  }

  /** Fields populated afterwards are those populated before, less the losses, plus the gains. */
  lemma FieldsBalance(before: Row, after: Row)
    ensures |PopulatedFields(after)| + |PrimaryRegressions(before, after)|
            == |PopulatedFields(before)| + |PrimaryRegressions(after, before)|
  {
    FieldsBalanceIn(PRIMARY_FIELDS, before, after);
  }

  // ----- the change score -----

  function TextOr(text: Option<string>): string {
    if text.Some? then Trim(text.value) else ""
  }

  function FieldText(r: Row): string {
    Join([TextOr(r.companySummary), TextOr(r.whatTheySell), TextOr(r.businessModel), TextOr(r.companySizeContext),
          Trim(r.customerTypes.text), Trim(r.primaryMarkets.text)], "\n")
  }

  function OrZero(n: Option<int>): int {
    if n.Some? then n.value else 0
  }

  function Abs(x: real): real {
    if x < 0.0 then -x else x
  }

  function Distance(x: int, y: int): real {
    Abs((y - x) as real)
  }

  function ChangeScore(before: Row, after: Row): real {
    Distance(OrZero(before.inputTokens), OrZero(after.inputTokens)) / 1000.0
    + Delta(FieldText(before), FieldText(after)) * 10.0
    + (if before.confidence != after.confidence then 2.0 else 0.0)
    + Distance(before.sourceCount, after.sourceCount)
    + |PrimaryRegressions(before, after)| as real * 3.0
  }

  function Given(text: Option<string>): string {
    match text
    case None => ""
    case Some(given) => given
  }

  /** The text that is compared: six fields, each trimmed, on lines of their own. */
  lemma FieldTextIs(r: Row)
    ensures FieldText(r)
            == Trim(Given(r.companySummary)) + "\n" + Trim(Given(r.whatTheySell)) + "\n" + Trim(Given(r.businessModel))
               + "\n" + Trim(Given(r.companySizeContext)) + "\n" + Trim(r.customerTypes.text)
               + "\n" + Trim(r.primaryMarkets.text)
  {
    var a, b, c := Trim(Given(r.companySummary)), Trim(Given(r.whatTheySell)), Trim(Given(r.businessModel));
    var d, e, f := Trim(Given(r.companySizeContext)), Trim(r.customerTypes.text), Trim(r.primaryMarkets.text);
    assert FieldText(r) == Join([a, b, c, d, e, f], "\n");
    JoinSix(a, b, c, d, e, f);
  }

  lemma JoinSix(a: string, b: string, c: string, d: string, e: string, f: string)
    ensures Join([a, b, c, d, e, f], "\n") == a + "\n" + b + "\n" + c + "\n" + d + "\n" + e + "\n" + f
  {
    assert [a, b, c, d, e, f][1..] == [b, c, d, e, f] && [b, c, d, e, f][1..] == [c, d, e, f];
    assert [c, d, e, f][1..] == [d, e, f] && [d, e, f][1..] == [e, f] && [e, f][1..] == [f];
    assert Join([e, f], "\n") == e + "\n" + f;
    assert Join([d, e, f], "\n") == d + "\n" + Join([e, f], "\n");
    assert Join([c, d, e, f], "\n") == c + "\n" + Join([d, e, f], "\n");
    assert Join([b, c, d, e, f], "\n") == b + "\n" + Join([c, d, e, f], "\n");
  }

  function Plain(n: Option<int>): int {
    match n
    case None => 0
    case Some(value) => value
  }

  function Apart(x: int, y: int): int {
    if x <= y then y - x else x - y
  }

  /** The weights: a thousand input tokens count as one, a text with nothing in common as ten, another confidence as two,
      a source more or less as one, a lost field as three. */
  lemma ScoreWeighs(before: Row, after: Row)
    ensures
      ChangeScore(before, after)
      == Apart(Plain(before.inputTokens), Plain(after.inputTokens)) as real / 1000.0
         + 10.0 * Delta(FieldText(before), FieldText(after))
         + (if before.confidence == after.confidence then 0.0 else 2.0)
         + Apart(before.sourceCount, after.sourceCount) as real
         + 3.0 * |PrimaryRegressions(before, after)| as real
  {}

  /** The score is never negative, and zero means that nothing the score looks at has changed. */
  lemma ZeroScore(a: Row, b: Row)
    ensures ChangeScore(a, b) >= 0.0
    ensures ChangeScore(a, b) == 0.0
            <==> && OrZero(a.inputTokens) == OrZero(b.inputTokens) && FieldText(a) == FieldText(b)
                 && a.confidence == b.confidence && a.sourceCount == b.sourceCount
                 && forall f :: f in PRIMARY_FIELDS && IsPopulated(a, f) ==> IsPopulated(b, f)
  {
    DeltaRange(FieldText(a), FieldText(b));
    DeltaZero(FieldText(a), FieldText(b));
    SelectMembers(PRIMARY_FIELDS, Lost(a, b));
    if PrimaryRegressions(a, b) != [] { assert PrimaryRegressions(a, b)[0] in PrimaryRegressions(a, b); }
    assert |PrimaryRegressions(a, b)| == 0 <==> forall f :: f in PRIMARY_FIELDS && IsPopulated(a, f) ==> IsPopulated(b, f);
  }

  lemma DistanceTriangle(x: int, y: int, z: int)
    ensures Distance(x, z) <= Distance(x, y) + Distance(y, z)
  {}

  lemma WeightedSums(t: real, u: real, v: real, x: real, y: real, z: real, p: real, q: real, r: real)
    requires t <= u + v && x <= y + z && p <= q + r
    ensures t / 1000.0 + x * 10.0 + p * 3.0 <= u / 1000.0 + y * 10.0 + q * 3.0 + (v / 1000.0 + z * 10.0 + r * 3.0)
  {}

  /** The score of a change is at most the sum of the scores of its two halves. */
  lemma ScoreTriangle(a: Row, b: Row, c: Row)
    ensures ChangeScore(a, c) <= ChangeScore(a, b) + ChangeScore(b, c)
  {
    var x, y, z := FieldText(a), FieldText(b), FieldText(c);
    var k, m, n := OrZero(a.inputTokens), OrZero(b.inputTokens), OrZero(c.inputTokens);
    var p := |PrimaryRegressions(a, c)| as real;
    var q, r := |PrimaryRegressions(a, b)| as real, |PrimaryRegressions(b, c)| as real;
    DeltaTriangle(x, y, z);
    RegressionsChain(a, b, c);
    DistanceTriangle(k, m, n);
    DistanceTriangle(a.sourceCount, b.sourceCount, c.sourceCount);
    WeightedSums(Distance(k, n), Distance(k, m), Distance(m, n), Delta(x, z), Delta(x, y), Delta(y, z), p, q, r);
  }

  // ----- the report -----

  datatype Entry = Entry(before: Row, after: Row, regressions: seq<Field>, changeScore: real)

  datatype Report = Report(comparison: seq<Entry>, topChangedForReview: seq<Entry>, regressed: seq<Entry>)

  /** `round` stands for the rounding of a score to three decimals. */
  function Compare(before: Row, after: Row, round: real -> real): Entry {
    Entry(before, after, PrimaryRegressions(before, after), round(ChangeScore(before, after)))
  }

  /** One entry per before-row, or None where a company has no after-row and the script throws. */
  function CompareAll(before: seq<Row>, afterRows: seq<Row>, round: real -> real): Option<seq<Entry>> {
    if before == [] then Some([])
    else
      var done, b := CompareAll(before[..|before| - 1], afterRows, round), before[|before| - 1];
      var a := FindBy(afterRows, CompanyOf, b.companyId);
      if done.None? || a.None? then None else Some(done.value + [Compare(b, a.value, round)])
  }

  function HighestFirst(e: Entry): real { -e.changeScore }

  predicate Regressed(e: Entry) { e.regressions != [] }

  /** What the report is made of: the script throws if and only if a company has no after-row. */
  method BuildComparisonReport(before: seq<Row>, afterRows: seq<Row>, round: real -> real)
    returns (report: Option<Report>)
    ensures report.None? <==> exists b :: b in before && !HasCompany(afterRows, b.companyId)
    ensures report.Some? ==>
              && CompareAll(before, afterRows, round).Some?
              && var r := report.value;
                 && r.comparison == StableSort(CompareAll(before, afterRows, round).value, HighestFirst)
                 && r.topChangedForReview == r.comparison[..Min(3, |r.comparison|)]
                 && r.regressed == Select(r.comparison, Regressed)
                 && forall e :: e in r.regressed <==> e in r.comparison && e.regressions != []
  {
    var entries: seq<Entry> := [];
    for i := 0 to |before|
      invariant CompareAll(before[..i], afterRows, round) == Some(entries)
      invariant forall b :: b in before[..i] ==> HasCompany(afterRows, b.companyId)
    {
      assert before[..i + 1][..i] == before[..i];
      assert forall b :: b in before[..i + 1] <==> b in before[..i] || b == before[i];
      var a := FindBy(afterRows, CompanyOf, before[i].companyId);
      FindByFacts(afterRows, CompanyOf, before[i].companyId);
      if a.None? {
        assert before[i] in before;
        return None;
      }
      entries := entries + [Compare(before[i], a.value, round)];
    }
    assert before[..|before|] == before;
    var comparison := StableSort(entries, HighestFirst);
    SelectMembers(comparison, Regressed);
    return Some(Report(comparison, comparison[..Min(3, |comparison|)], Select(comparison, Regressed)));
  }

  function IsOf(companyId: string): Row -> bool {
    (r: Row) => r.companyId == companyId
  }

  /** The entry compares this before-row with the first after-row of its company: the fields lost, and the
      rounded score. */
  ghost predicate Pairs(e: Entry, b: Row, afterRows: seq<Row>, round: real -> real) {
    && e.before == b && FirstWith(afterRows, IsOf(b.companyId), e.after)
    && e.regressions == PrimaryRegressions(b, e.after) && e.changeScore == round(ChangeScore(b, e.after))
  }

  lemma {:induction false} CompareAllFacts(before: seq<Row>, afterRows: seq<Row>, round: real -> real)
    requires CompareAll(before, afterRows, round).Some?
    ensures
      var es := CompareAll(before, afterRows, round).value;
      |es| == |before| && forall i :: 0 <= i < |es| ==> Pairs(es[i], before[i], afterRows, round)
  {
    if before != [] {
      var n := |before| - 1;
      CompareAllFacts(before[..n], afterRows, round);
      FindByFacts(afterRows, CompanyOf, before[n].companyId);
      FindByFirst(afterRows, CompanyOf, before[n].companyId, IsOf(before[n].companyId));
      var done := CompareAll(before[..n], afterRows, round).value;
      var a := FindBy(afterRows, CompanyOf, before[n].companyId).value;
      var e := Compare(before[n], a, round);
      assert Pairs(e, before[n], afterRows, round);
      assert CompareAll(before, afterRows, round).value == done + [e];
    }
  }

  ghost predicate Outranks(x: Entry, y: Entry) { x.changeScore > y.changeScore }

  /** The report holds one entry per before-row, each pairing it with an after-row of its company and
      ranked by descending score, ties in the order of the before-rows; nothing outside the top three
      outranks anything in it. */
  lemma ReportIsRanked(before: seq<Row>, afterRows: seq<Row>, round: real -> real)
    requires CompareAll(before, afterRows, round).Some?
    ensures
      var es := CompareAll(before, afterRows, round).value;
      var comparison := StableSort(es, HighestFirst);
      && multiset(comparison) == multiset(es) && |comparison| == |es| == |before|
      && (forall k :: 0 <= k < |before| ==> Pairs(es[k], before[k], afterRows, round))
      && Ascending(comparison, HighestFirst) && SameByKey(comparison, es, HighestFirst)
      && forall i, j :: 0 <= i < 3 <= j < |before| ==> !Outranks(comparison[j], comparison[i])
  {
    var es := CompareAll(before, afterRows, round).value;
    CompareAllFacts(before, afterRows, round);
    SortFacts(es, HighestFirst);
    forall k: real ensures WithKey(StableSort(es, HighestFirst), HighestFirst, k) == WithKey(es, HighestFirst, k) {
      SortStable(es, HighestFirst, k);
    }
    var comparison := StableSort(es, HighestFirst);
    forall i, j | 0 <= i < 3 <= j < |before| ensures !Outranks(comparison[j], comparison[i]) {
      assert HighestFirst(comparison[i]) <= HighestFirst(comparison[j]);
    }
  }

  /** With a rounding that keeps order, a change outside the top three is larger than one inside only
      when rounding made the two scores equal. */
  lemma TopThreeIsTop(before: seq<Row>, afterRows: seq<Row>, round: real -> real, i: nat, j: nat)
    requires forall x: real, y: real :: x <= y ==> round(x) <= round(y)
    requires CompareAll(before, afterRows, round).Some?
    requires i < 3 <= j < |before|
    ensures
      var comparison := StableSort(CompareAll(before, afterRows, round).value, HighestFirst);
      && |comparison| == |before|
      && var x, y := comparison[i], comparison[j];
         ChangeScore(y.before, y.after) > ChangeScore(x.before, x.after) ==> x.changeScore == y.changeScore
  {
    ReportIsRanked(before, afterRows, round);
    var es := CompareAll(before, afterRows, round).value;
    var comparison := StableSort(es, HighestFirst);
    RankedEntry(before, afterRows, round, comparison[i]);
    RankedEntry(before, afterRows, round, comparison[j]);
    assert !Outranks(comparison[j], comparison[i]);
  }

  lemma RankedEntry(before: seq<Row>, afterRows: seq<Row>, round: real -> real, e: Entry)
    requires CompareAll(before, afterRows, round).Some?
    requires e in StableSort(CompareAll(before, afterRows, round).value, HighestFirst)
    ensures e.changeScore == round(ChangeScore(e.before, e.after))
  {
    var es := CompareAll(before, afterRows, round).value;
    SortFacts(es, HighestFirst);
    assert e in multiset(StableSort(es, HighestFirst));
    var k :| 0 <= k < |es| && es[k] == e;
    CompareAllFacts(before, afterRows, round);
    assert Pairs(e, before[k], afterRows, round);
  }
}
