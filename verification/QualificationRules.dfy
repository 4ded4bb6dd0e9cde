/** What the qualification screen shows and sends (src/components/QualificationBuckets.tsx): the groups of
    excluded rows that share a criterion, and the batches of a bulk restore. */
module QualificationRules {
  import opened Collections

  datatype Target = Company | Contact
  datatype Bucket = Good | NeedsReview | PoorFit | Excluded
  datatype DetailKind = Icp | Persona
  datatype Detail = Detail(kind: DetailKind, criterionId: Option<string>, criterionName: string)

  datatype Row = Row(
    id: string, targetType: Target, scoringRunId: Option<string>, name: string, bucket: Bucket, details: seq<Detail>)

  function RowKey(r: Row): string {
    (match r.targetType case Company => "COMPANY:" case Contact => "CONTACT:") + r.id
  }

  /** A row key tells rows apart by type and id. */
  lemma RowKeyIsExact(a: Row, b: Row)
    ensures RowKey(a) == RowKey(b) <==> a.targetType == b.targetType && a.id == b.id
  {
    assert RowKey(a)[2] == if a.targetType == Company then 'M' else 'N';
    assert RowKey(b)[2] == if b.targetType == Company then 'M' else 'N';
    assert RowKey(a)[8..] == a.id && RowKey(b)[8..] == b.id;
  }

  // ----- excluded rows that share a criterion -----

  function DetailKey(d: Detail): string {
    (match d.kind case Icp => "ICP:" case Persona => "PERSONA:")
    + if d.criterionId.Some? then d.criterionId.value else d.criterionName
  }

  function CriterionKey(r: Row): string {
    if r.details == [] then "" else DetailKey(r.details[0])
  }

  /** The criterion's id, or its name where it has none. */
  function NamedBy(d: Detail): string {
    if d.criterionId.Some? then d.criterionId.value else d.criterionName
  }

  /** Two rows share a criterion if and only if their first details are of one kind and have the same id, or the name in
      place of a missing one. */
  lemma CriterionKeyIsExact(a: Row, b: Row)
    requires a.details != [] && b.details != []
    ensures CriterionKey(a) == CriterionKey(b)
            <==> a.details[0].kind == b.details[0].kind && NamedBy(a.details[0]) == NamedBy(b.details[0])
  {
    var x, y := a.details[0], b.details[0];
    assert DetailKey(x)[0] == if x.kind == Icp then 'I' else 'P';
    assert DetailKey(y)[0] == if y.kind == Icp then 'I' else 'P';
    assert DetailKey(x)[if x.kind == Icp then 4 else 8..] == NamedBy(x);
    assert DetailKey(y)[if y.kind == Icp then 4 else 8..] == NamedBy(y);
  }

  function Eligible(kept: set<string>): Row -> bool {
    (r: Row) => r.bucket == Excluded && r.details != [] && RowKey(r) !in kept
  }

  function EligibleRows(rows: seq<Row>, kept: set<string>): seq<Row> {
    Select(rows, Eligible(kept))
  }

  predicate Plural(g: Group<string, Row>) { |g.items| > 1 }

  function ExcludedGroups(rows: seq<Row>, kept: set<string>): seq<Group<string, Row>> {
    Select(GroupBy(EligibleRows(rows, kept), CriterionKey), Plural)
  }

  /** The rows on the review panel. */
  function Listed(rows: seq<Row>, kept: set<string>): seq<Row> {
    Flatten(ExcludedGroups(rows, kept))
  }

  /** The eligible rows with this row's criterion, itself included. */
  function Peers(rows: seq<Row>, kept: set<string>, r: Row): seq<Row> {
    Having(EligibleRows(rows, kept), CriterionKey, CriterionKey(r))
  }

  /** The peers of an eligible row are the excluded rows, none of them kept, whose first detail names the same
      criterion. */
  lemma PeersShareCriterion(rows: seq<Row>, kept: set<string>, r: Row, q: Row)
    requires r in EligibleRows(rows, kept)
    ensures q in Peers(rows, kept, r)
            <==> && q in rows && q.bucket == Excluded && RowKey(q) !in kept && q.details != [] && r.details != []
                 && q.details[0].kind == r.details[0].kind && NamedBy(q.details[0]) == NamedBy(r.details[0])
  {
    SelectMembers(rows, Eligible(kept));
    HavingMembers(EligibleRows(rows, kept), CriterionKey, CriterionKey(r));
    if q.details != [] { CriterionKeyIsExact(q, r); }
  }

  lemma {:induction false} SelectedGroups(groups: seq<Group<string, Row>>, keep: Group<string, Row> -> bool)
    requires DistinctKeys(groups)
    ensures DistinctKeys(Select(groups, keep))
    ensures forall g :: g in Select(groups, keep) <==> g in groups && keep(g)
  {
    SelectMembers(groups, keep);
    if groups != [] {
      var n := |groups| - 1;
      SelectedGroups(groups[..n], keep);
      SelectMembers(groups[..n], keep);
      var some := Select(groups[..n], keep);
      assert forall i :: 0 <= i < |some| ==> some[i] in groups[..n];
    }
  }

  /** The groups shown have different criteria; each holds, in order, all eligible rows with its criterion,
      and there are at least two of them. */
  lemma GroupsAreWhole(rows: seq<Row>, kept: set<string>)
    ensures
      var groups := ExcludedGroups(rows, kept);
      && DistinctKeys(groups) && Holds(groups, EligibleRows(rows, kept), CriterionKey)
      && forall i :: 0 <= i < |groups| ==> |groups[i].items| >= 2
  {
    var xs := EligibleRows(rows, kept);
    var all, groups := GroupBy(xs, CriterionKey), ExcludedGroups(rows, kept);
    GroupByIsGrouping(xs, CriterionKey);
    SelectedGroups(all, Plural);
    forall i | 0 <= i < |groups|
      ensures groups[i].items == Having(xs, CriterionKey, groups[i].key) && |groups[i].items| >= 2
    {
      assert groups[i] in groups;
      var j :| 0 <= j < |all| && all[j] == groups[i];
    }
  }

  lemma GroupShown(rows: seq<Row>, kept: set<string>, r: Row)
    requires r in EligibleRows(rows, kept)
    ensures HasKey(ExcludedGroups(rows, kept), CriterionKey(r)) <==> |Peers(rows, kept, r)| > 1
  {
    var xs := EligibleRows(rows, kept);
    var all, groups := GroupBy(xs, CriterionKey), ExcludedGroups(rows, kept);
    GroupByIsGrouping(xs, CriterionKey);
    SelectedGroups(all, Plural);
    GroupsAreWhole(rows, kept);
    var j :| 0 <= j < |all| && all[j].key == CriterionKey(r);
    if |Peers(rows, kept, r)| > 1 {
      assert all[j] in groups;
      var i :| 0 <= i < |groups| && groups[i] == all[j];
    }
  }

  /** The groups are an exact partition: a row is listed, as often as it occurs, if and only if it is
      eligible and shares its criterion with another eligible row. */
  lemma GroupsPartitionSharedRows(rows: seq<Row>, kept: set<string>, r: Row)
    ensures
      multiset(Listed(rows, kept))[r]
      == if r in EligibleRows(rows, kept) && |Peers(rows, kept, r)| > 1 then multiset(EligibleRows(rows, kept))[r] else 0
  {
    var xs, groups := EligibleRows(rows, kept), ExcludedGroups(rows, kept);
    GroupsAreWhole(rows, kept);
    FlattenCounts(groups, xs, CriterionKey, r);
    if r in xs { GroupShown(rows, kept, r); } else { assert multiset(xs)[r] == 0; }
  }

  lemma ListedExactly(rows: seq<Row>, kept: set<string>, r: Row)
    ensures r in Listed(rows, kept)
            <==> && r in rows && r.bucket == Excluded && r.details != [] && RowKey(r) !in kept
                 && |Peers(rows, kept, r)| > 1
  {
    GroupsPartitionSharedRows(rows, kept, r);
    SelectMembers(rows, Eligible(kept));
    assert r in Listed(rows, kept) <==> multiset(Listed(rows, kept))[r] > 0;
    assert r in EligibleRows(rows, kept) <==> multiset(EligibleRows(rows, kept))[r] > 0;
  }

  // ----- the number in the heading -----

  function KeysOf(rows: seq<Row>): (keys: set<string>)
    ensures forall r :: r in rows ==> RowKey(r) in keys
  {
    set r | r in rows :: RowKey(r)
  }

  function TotalSize(groups: seq<Group<string, Row>>): nat {
    if groups == [] then 0 else TotalSize(groups[..|groups| - 1]) + |groups[|groups| - 1].items|
  }

  lemma {:induction false} FlattenSize(groups: seq<Group<string, Row>>)
    ensures |Flatten(groups)| == TotalSize(groups)
  {
    if groups != [] { FlattenSize(groups[..|groups| - 1]); }
  }

  lemma {:induction false} KeysCount(rows: seq<Row>)
    ensures |KeysOf(rows)| <= |rows|
    ensures |KeysOf(rows)| == |rows| <==> DistinctBy(rows, RowKey)
  {
    if rows != [] {
      var before, r := rows[..|rows| - 1], rows[|rows| - 1];
      KeysCount(before);
      assert rows == before + [r];
      DistinctAppend(before, r, RowKey);
      assert KeysOf(rows) == KeysOf(before) + {RowKey(r)};
    }
  }

  function ExclusionContactCount(rows: seq<Row>, kept: set<string>): nat {
    |KeysOf(Listed(rows, kept))|
  }

  /** The heading's number is the number of listed rows if and only if no row key is listed twice. */
  lemma CountIsTotalSize(rows: seq<Row>, kept: set<string>)
    ensures ExclusionContactCount(rows, kept) <= TotalSize(ExcludedGroups(rows, kept))
    ensures ExclusionContactCount(rows, kept) == TotalSize(ExcludedGroups(rows, kept))
            <==> DistinctBy(Listed(rows, kept), RowKey)
  {
    FlattenSize(ExcludedGroups(rows, kept));
    KeysCount(Listed(rows, kept));
  }

  // ----- keeping rows excluded -----

  lemma {:induction false} PeersShrink(rows: seq<Row>, kept: set<string>, more: set<string>, k: string)
    requires kept <= more
    ensures |Having(EligibleRows(rows, more), CriterionKey, k)| <= |Having(EligibleRows(rows, kept), CriterionKey, k)|
  {
    if rows != [] {
      var n := |rows| - 1;
      PeersShrink(rows[..n], kept, more, k);
      HavingStep(EligibleRows(rows[..n], kept), rows[n], CriterionKey, k);
      HavingStep(EligibleRows(rows[..n], more), rows[n], CriterionKey, k);
    }
  }

  /** Keeping rows excluded takes them off the panel and never makes another row appear. */
  lemma KeepingNeverReveals(rows: seq<Row>, kept: set<string>, more: set<string>, r: Row)
    requires kept <= more && r in Listed(rows, more)
    ensures r in Listed(rows, kept) && RowKey(r) !in more
  {
    ListedExactly(rows, more, r);
    ListedExactly(rows, kept, r);
    PeersShrink(rows, kept, more, CriterionKey(r));
  }

  function OtherThan(k: string): Row -> bool {
    (r: Row) => CriterionKey(r) != k
  }

  function GroupOtherThan(k: string): Group<string, Row> -> bool {
    (g: Group<string, Row>) => g.key != k
  }

  lemma AddToOthers(groups: seq<Group<string, Row>>, k: string, r: Row)
    requires DistinctKeys(groups)
    ensures Select(AddTo(groups, CriterionKey(r), r), GroupOtherThan(k))
            == if CriterionKey(r) == k then Select(groups, GroupOtherThan(k))
               else AddTo(Select(groups, GroupOtherThan(k)), CriterionKey(r), r)
  {
    var key, others := CriterionKey(r), GroupOtherThan(k);
    if HasKey(groups, key) {
      SelectPushed(groups, key, r, k);
    } else {
      SelectStep(groups, Group(key, [r]), others);
    }
    SelectMembers(groups, others);
    if key != k {
      var some := Select(groups, others);
      if HasKey(groups, key) {
        var i :| 0 <= i < |groups| && groups[i].key == key;
        assert groups[i] in some;
        var j :| 0 <= j < |some| && some[j] == groups[i];
      } else {
        assert forall j :: 0 <= j < |some| ==> some[j] in groups;
      }
    }
  }

  /** Pushing into a group and leaving criterion `k` out commute. */
  ghost predicate PushCommutes(groups: seq<Group<string, Row>>, key: string, r: Row, k: string) {
    Select(MapSeq(Pushed(key, r), groups), GroupOtherThan(k))
    == if key == k then Select(groups, GroupOtherThan(k))
       else MapSeq(Pushed(key, r), Select(groups, GroupOtherThan(k)))
  }

  lemma PushCommutesStep(groups: seq<Group<string, Row>>, last: Group<string, Row>, key: string, r: Row, k: string)
    requires PushCommutes(groups, key, r, k)
    ensures PushCommutes(groups + [last], key, r, k)
  {
    var push, others := Pushed(key, r), GroupOtherThan(k);
    assert MapSeq(push, groups + [last]) == MapSeq(push, groups) + [push(last)];
    SelectStep(MapSeq(push, groups), push(last), others);
    SelectStep(groups, last, others);
  }

  lemma {:induction false} SelectPushed(groups: seq<Group<string, Row>>, key: string, r: Row, k: string)
    ensures PushCommutes(groups, key, r, k)
  {
    if groups == [] {
      assert MapSeq(Pushed(key, r), groups) == groups;
    } else {
      var before, last := groups[..|groups| - 1], groups[|groups| - 1];
      assert groups == before + [last];
      SelectPushed(before, key, r, k);
      PushCommutesStep(before, last, key, r, k);
    }
  }

  /** Leaving criterion `k` out before grouping is leaving its group out afterwards. */
  ghost predicate GroupsWithout(rows: seq<Row>, k: string) {
    GroupBy(Select(rows, OtherThan(k)), CriterionKey) == Select(GroupBy(rows, CriterionKey), GroupOtherThan(k))
  }

  lemma GroupsWithoutStep(rows: seq<Row>, r: Row, k: string)
    requires GroupsWithout(rows, k)
    ensures GroupsWithout(rows + [r], k)
  {
    var groups, rest := GroupBy(rows, CriterionKey), Select(rows, OtherThan(k));
    GroupByKeysDiffer(rows, CriterionKey);
    GroupByStep(rows, r, CriterionKey);
    AddToOthers(groups, k, r);
    SelectStep(rows, r, OtherThan(k));
    if CriterionKey(r) != k {
      GroupByStep(rest, r, CriterionKey);
    } else {
      assert Select(rows + [r], OtherThan(k)) == rest;
    }
  }

  lemma {:induction false} GroupByWithout(rows: seq<Row>, k: string)
    ensures GroupsWithout(rows, k)
  {
    if rows != [] {
      GroupByWithout(rows[..|rows| - 1], k);
      GroupsWithoutStep(rows[..|rows| - 1], rows[|rows| - 1], k);
      assert rows == rows[..|rows| - 1] + [rows[|rows| - 1]];
    }
  }

  function PluralOtherThan(k: string): Group<string, Row> -> bool {
    (g: Group<string, Row>) => |g.items| > 1 && g.key != k
  }

  /** With no row key twice, keeping a whole group excluded removes that group and changes no other. */
  lemma KeepingAGroupRemovesIt(rows: seq<Row>, kept: set<string>, i: nat)
    requires DistinctBy(rows, RowKey) && i < |ExcludedGroups(rows, kept)|
    ensures
      var g := ExcludedGroups(rows, kept)[i];
      ExcludedGroups(rows, kept + KeysOf(g.items)) == Select(ExcludedGroups(rows, kept), GroupOtherThan(g.key))
  {
    var xs := EligibleRows(rows, kept);
    var all, g := GroupBy(xs, CriterionKey), ExcludedGroups(rows, kept)[i];
    GroupsAreWhole(rows, kept);
    KeptLeavesOthers(rows, kept, g.key);
    GroupByWithout(xs, g.key);
    SelectTwice(all, Plural, GroupOtherThan(g.key), PluralOtherThan(g.key));
    SelectTwice(all, GroupOtherThan(g.key), Plural, PluralOtherThan(g.key));
  }

  /** Keeping all eligible rows of a criterion leaves the eligible rows of the others. */
  lemma KeptLeavesOthers(rows: seq<Row>, kept: set<string>, k: string)
    requires DistinctBy(rows, RowKey)
    ensures
      var xs := EligibleRows(rows, kept);
      EligibleRows(rows, kept + KeysOf(Having(xs, CriterionKey, k))) == Select(xs, OtherThan(k))
  {
    var xs := EligibleRows(rows, kept);
    var more := kept + KeysOf(Having(xs, CriterionKey, k));
    HavingMembers(xs, CriterionKey, k);
    SelectMembers(rows, Eligible(kept));
    forall r | r in rows ensures Eligible(more)(r) <==> Eligible(kept)(r) && OtherThan(k)(r) {
      if RowKey(r) in KeysOf(Having(xs, CriterionKey, k)) {
        var q :| q in Having(xs, CriterionKey, k) && RowKey(q) == RowKey(r);
        OnePerTag(rows, RowKey, q, r);
      }
    }
    SelectTwice(rows, Eligible(kept), OtherThan(k), Eligible(more));
  }
}
