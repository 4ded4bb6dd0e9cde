/** Restoring many rows at once (src/components/QualificationBuckets.tsx): one request per scoring run, and
    what the screen shows after the answers. */
module BulkRestore {
  import opened Collections
  import opened QualificationRules

  datatype Request = Request(scoringRunId: string, targetType: Target, targetIds: seq<string>, bucket: Bucket)

  datatype Reply = Answer(ok: bool, message: string, bucket: Option<Bucket>) | Throws

  /** The screen's own run serves the rows that name none. */
  function RunIdOf(r: Row, screenRun: Option<string>): Option<string> {
    if r.scoringRunId.Some? then r.scoringRunId else screenRun
  }

  function HasRun(screenRun: Option<string>): Row -> bool {
    (r: Row) => RunIdOf(r, screenRun).Some? && RunIdOf(r, screenRun).value != ""
  }

  function RunKey(screenRun: Option<string>): Row -> string {
    (r: Row) => if RunIdOf(r, screenRun).Some? then RunIdOf(r, screenRun).value else ""
  }

  function Batches(targets: seq<Row>, screenRun: Option<string>): seq<Group<string, Row>> {
    GroupBy(Select(targets, HasRun(screenRun)), RunKey(screenRun))
  }

  function IdOf(r: Row): string { r.id }

  /** The request for a batch speaks of the type of its first row. */
  function RequestFor(batch: Group<string, Row>, bucket: Bucket): Request
    requires batch.items != []
  {
    Request(batch.key, batch.items[0].targetType, MapSeq(IdOf, batch.items), bucket)
  }

  /** What the requests sent so far have led to. */
  datatype Progress = Progress(sent: seq<Request>, message: Option<string>, restored: Option<Bucket>, threw: bool)

  const NOTHING_SENT := Progress([], None, None, false)

  /** One turn of the loop over the batches; a throw ends it. */
  function SendOne(p: Progress, batch: Group<string, Row>, bucket: Bucket, reply: Reply): Progress
    requires batch.items != []
  {
    if p.threw then p
    else
      var q := p.(sent := p.sent + [RequestFor(batch, bucket)]);
      match reply
      case Throws => q.(threw := true)
      case Answer(ok, message, b) => q.(message := Some(message), restored := if ok && b.Some? then b else p.restored)
  }

  ghost predicate Filled(batches: seq<Group<string, Row>>) {
    forall i :: 0 <= i < |batches| ==> batches[i].items != []
  }

  /** `replies(i)` is the answer to the request for batch `i`. */
  ghost function SendAll(batches: seq<Group<string, Row>>, bucket: Bucket, replies: nat -> Reply): Progress
    requires Filled(batches)
  {
    if batches == [] then NOTHING_SENT
    else
      var n := |batches| - 1;
      SendOne(SendAll(batches[..n], bucket, replies), batches[n], bucket, replies(n))
  }

  function Relabelled(keys: set<string>, bucket: Bucket): Row -> Row {
    (r: Row) => if RowKey(r) in keys then r.(bucket := bucket) else r
  }

  /** The rows on screen afterwards: every target is relabelled once any answer was positive. */
  function RowsAfter(rows: seq<Row>, targets: seq<Row>, p: Progress): seq<Row> {
    if p.threw || p.restored.None? then rows else MapSeq(Relabelled(KeysOf(targets), p.restored.value), rows)
  }

  // ----- the batches -----

  /** The batches are a permutation of the targets that have a run; there is one per run, and each holds
      all targets of its run in their order. */
  lemma BatchesPartitionTargets(targets: seq<Row>, screenRun: Option<string>)
    ensures
      var batches, withRun := Batches(targets, screenRun), Select(targets, HasRun(screenRun));
      && multiset(Flatten(batches)) == multiset(withRun)
      && DistinctKeys(batches) && Holds(batches, withRun, RunKey(screenRun)) && Filled(batches)
      && (forall r :: r in withRun <==> r in targets && HasRun(screenRun)(r))
      && forall r :: r in targets && HasRun(screenRun)(r) ==> HasKey(batches, RunKey(screenRun)(r))
  {
    var withRun := Select(targets, HasRun(screenRun));
    GroupByIsGrouping(withRun, RunKey(screenRun));
    GroupByPartitions(withRun, RunKey(screenRun));
    SelectMembers(targets, HasRun(screenRun));
  }

  /** The request names the batch's run, the bucket asked for, the type of the first row, and the ids of all its rows
      in order. */
  ghost predicate ForBatch(q: Request, batch: Group<string, Row>, bucket: Bucket) {
    && q.scoringRunId == batch.key && q.bucket == bucket
    && batch.items != [] && q.targetType == batch.items[0].targetType
    && |q.targetIds| == |batch.items| && forall k :: 0 <= k < |batch.items| ==> q.targetIds[k] == batch.items[k].id
  }

  /** Without a throw exactly one request goes out per batch, in order; a throw is the last answer there is. */
  lemma {:induction false} OneRequestPerBatch(batches: seq<Group<string, Row>>, bucket: Bucket, replies: nat -> Reply)
    requires Filled(batches)
    ensures
      var p := SendAll(batches, bucket, replies);
      && |p.sent| <= |batches| && (!p.threw ==> |p.sent| == |batches|)
      && (forall i :: 0 <= i < |p.sent| ==> ForBatch(p.sent[i], batches[i], bucket))
      && (forall i :: 0 <= i < |p.sent| ==> (replies(i).Throws? <==> p.threw && i == |p.sent| - 1))
      && (p.threw ==> p.sent != [])
  {
    if batches != [] { OneRequestPerBatch(batches[..|batches| - 1], bucket, replies); }
  }

  /** The request names this row: by its type and its id. */
  predicate Names(q: Request, r: Row) {
    q.targetType == r.targetType && r.id in q.targetIds
  }

  /** A request names all the rows of its batch if and only if they are all of one type. */
  lemma RequestNamesItsBatch(batch: Group<string, Row>, bucket: Bucket)
    requires batch.items != []
    ensures (forall r :: r in batch.items ==> Names(RequestFor(batch, bucket), r))
            <==> forall r, q :: r in batch.items && q in batch.items ==> r.targetType == q.targetType
  {
    var request := RequestFor(batch, bucket);
    forall r | r in batch.items ensures r.id in request.targetIds {
      var i :| 0 <= i < |batch.items| && batch.items[i] == r;
      assert request.targetIds[i] == r.id;
    }
    assert batch.items[0] in batch.items;
    if forall r :: r in batch.items ==> Names(request, r) {
      forall r, q | r in batch.items && q in batch.items ensures r.targetType == q.targetType {
        assert Names(request, r) && Names(request, q);
      }
    }
  }

  // ----- the rows on screen -----

  /** A request that names this row was answered with this bucket. */
  ghost predicate Confirmed(
      r: Row, batches: seq<Group<string, Row>>, bucket: Bucket, replies: nat -> Reply, shown: Bucket)
    requires Filled(batches)
  {
    exists i: nat :: i < |batches| && r in batches[i].items && Names(RequestFor(batches[i], bucket), r)
      && replies(i).Answer? && replies(i).ok && replies(i).bucket == Some(shown)
  }

  /** Nothing is relabelled, or every target was confirmed. */
  ghost predicate Truthful(targets: seq<Row>, batches: seq<Group<string, Row>>, bucket: Bucket, replies: nat -> Reply)
    requires Filled(batches)
  {
    var p := SendAll(batches, bucket, replies);
    !p.threw && p.restored.Some? ==>
      forall r :: r in targets ==> Confirmed(r, batches, bucket, replies, p.restored.value)
  }

  /** No target has a run, or all have the same one and are of one type. */
  ghost predicate OneKind(targets: seq<Row>, screenRun: Option<string>) {
    || (forall r :: r in targets ==> !HasRun(screenRun)(r))
    || (forall r, q :: r in targets && q in targets ==>
          HasRun(screenRun)(r) && RunKey(screenRun)(r) == RunKey(screenRun)(q) && r.targetType == q.targetType)
  }

  /** A positive answer to the first request and refusals to the rest. */
  function FirstOnly(): nat -> Reply {
    (i: nat) => if i == 0 then Answer(true, "", Some(Good)) else Answer(false, "", None)
  }

  lemma {:induction false} FirstOnlyRestores(batches: seq<Group<string, Row>>, bucket: Bucket)
    requires Filled(batches) && batches != []
    ensures SendAll(batches, bucket, FirstOnly()).restored == Some(Good) && !SendAll(batches, bucket, FirstOnly()).threw
  {
    var n := |batches| - 1;
    if n > 0 {
      FirstOnlyRestores(batches[..n], bucket);
    } else {
      assert SendAll(batches[..0], bucket, FirstOnly()) == NOTHING_SENT;
    }
  }

  lemma InFirstBatch(targets: seq<Row>, screenRun: Option<string>, bucket: Bucket, r: Row)
    requires Filled(Batches(targets, screenRun))
    requires Confirmed(r, Batches(targets, screenRun), bucket, FirstOnly(), Good)
    ensures Batches(targets, screenRun) != [] && r in Batches(targets, screenRun)[0].items
    ensures HasRun(screenRun)(r) && RunKey(screenRun)(r) == Batches(targets, screenRun)[0].key
    ensures r.targetType == Batches(targets, screenRun)[0].items[0].targetType
  {
    var batches := Batches(targets, screenRun);
    BatchesPartitionTargets(targets, screenRun);
    HavingMembers(Select(targets, HasRun(screenRun)), RunKey(screenRun), batches[0].key);
  }

  /** Every batch is about some target that has the batch's run. */
  lemma BatchHasTarget(targets: seq<Row>, screenRun: Option<string>, i: nat) returns (r: Row)
    requires i < |Batches(targets, screenRun)|
    ensures r in targets && HasRun(screenRun)(r) && RunKey(screenRun)(r) == Batches(targets, screenRun)[i].key
  {
    var batches, withRun := Batches(targets, screenRun), Select(targets, HasRun(screenRun));
    BatchesPartitionTargets(targets, screenRun);
    HavingMembers(withRun, RunKey(screenRun), batches[i].key);
    r := batches[i].items[0];
    assert r in batches[i].items;
  }

  lemma TargetHasBatch(targets: seq<Row>, screenRun: Option<string>, r: Row) returns (i: nat)
    requires r in targets && HasRun(screenRun)(r)
    ensures i < |Batches(targets, screenRun)| && Batches(targets, screenRun)[i].key == RunKey(screenRun)(r)
    ensures r in Batches(targets, screenRun)[i].items
  {
    var batches := Batches(targets, screenRun);
    BatchesPartitionTargets(targets, screenRun);
    i :| 0 <= i < |batches| && batches[i].key == RunKey(screenRun)(r);
    HavingMembers(Select(targets, HasRun(screenRun)), RunKey(screenRun), batches[i].key);
  }

  lemma NoBatches(targets: seq<Row>, screenRun: Option<string>)
    ensures Batches(targets, screenRun) == [] <==> forall r :: r in targets ==> !HasRun(screenRun)(r)
  {
    if Batches(targets, screenRun) != [] {
      var r := BatchHasTarget(targets, screenRun, 0);
    }
    forall r | r in targets && HasRun(screenRun)(r) ensures Batches(targets, screenRun) != [] {
      var i := TargetHasBatch(targets, screenRun, r);
    }
  }

  lemma OneKindOneBatch(targets: seq<Row>, screenRun: Option<string>, bucket: Bucket, r: Row)
    requires OneKind(targets, screenRun) && Batches(targets, screenRun) != [] && r in targets
    requires Filled(Batches(targets, screenRun))
    ensures |Batches(targets, screenRun)| == 1 && r in Batches(targets, screenRun)[0].items
    ensures Names(RequestFor(Batches(targets, screenRun)[0], bucket), r)
  {
    var batches := Batches(targets, screenRun);
    NoBatches(targets, screenRun);
    if |batches| > 1 {
      var p := BatchHasTarget(targets, screenRun, 0);
      var q := BatchHasTarget(targets, screenRun, 1);
      GroupByKeysDiffer(Select(targets, HasRun(screenRun)), RunKey(screenRun));
      assert false;
    }
    var i := TargetHasBatch(targets, screenRun, r);
    forall p | p in batches[0].items ensures p in targets {
      HavingMembers(Select(targets, HasRun(screenRun)), RunKey(screenRun), batches[0].key);
      BatchesPartitionTargets(targets, screenRun);
    }
    RequestNamesItsBatch(batches[0], bucket);
  }

  /** Whatever the server answers, the screen relabels only rows that a granted request named: this holds if
      and only if the targets have one run and one type between them, or no run. With two runs or types, or a
      target without a run, one positive answer is enough for a row to be shown in a bucket it is not in. */
  lemma RelabellingIsTruthful(targets: seq<Row>, screenRun: Option<string>, bucket: Bucket)
    ensures Filled(Batches(targets, screenRun))
    ensures (forall replies: nat -> Reply :: Truthful(targets, Batches(targets, screenRun), bucket, replies))
            <==> OneKind(targets, screenRun)
  {
    var batches := Batches(targets, screenRun);
    BatchesPartitionTargets(targets, screenRun);
    NoBatches(targets, screenRun);
    if OneKind(targets, screenRun) {
      forall replies: nat -> Reply ensures Truthful(targets, batches, bucket, replies) {
        OneKindIsTruthful(targets, screenRun, bucket, replies);
      }
    } else {
      FirstOnlyRestores(batches, bucket);
      if Truthful(targets, batches, bucket, FirstOnly()) {
        FirstOnlyTellsOneKind(targets, screenRun, bucket);
      }
    }
  }

  lemma FirstOnlyTellsOneKind(targets: seq<Row>, screenRun: Option<string>, bucket: Bucket)
    requires Filled(Batches(targets, screenRun)) && Batches(targets, screenRun) != []
    requires forall r :: r in targets ==> Confirmed(r, Batches(targets, screenRun), bucket, FirstOnly(), Good)
    ensures OneKind(targets, screenRun)
  {
    var first := Batches(targets, screenRun)[0];
    forall r | r in targets
      ensures HasRun(screenRun)(r) && RunKey(screenRun)(r) == first.key && r.targetType == first.items[0].targetType
    {
      InFirstBatch(targets, screenRun, bucket, r);
    }
  }

  lemma SingleAnswer(batches: seq<Group<string, Row>>, bucket: Bucket, replies: nat -> Reply, r: Row)
    requires Filled(batches) && |batches| == 1 && r in batches[0].items && Names(RequestFor(batches[0], bucket), r)
    ensures
      var p := SendAll(batches, bucket, replies);
      !p.threw && p.restored.Some? ==> Confirmed(r, batches, bucket, replies, p.restored.value)
  {
    assert SendAll(batches[..0], bucket, replies) == NOTHING_SENT;
    assert SendAll(batches, bucket, replies) == SendOne(NOTHING_SENT, batches[0], bucket, replies(0));
  }

  lemma OneKindIsTruthful(targets: seq<Row>, screenRun: Option<string>, bucket: Bucket, replies: nat -> Reply)
    requires OneKind(targets, screenRun) && Filled(Batches(targets, screenRun))
    ensures Truthful(targets, Batches(targets, screenRun), bucket, replies)
  {
    var batches := Batches(targets, screenRun);
    var p := SendAll(batches, bucket, replies);
    if batches == [] {
      assert p == NOTHING_SENT;
    } else {
      forall r | r in targets
        ensures !p.threw && p.restored.Some? ==> Confirmed(r, batches, bucket, replies, p.restored.value)
      {
        OneKindOneBatch(targets, screenRun, bucket, r);
        SingleAnswer(batches, bucket, replies, r);
      }
    }
  }

  // ----- the inputs that show it -----

  lemma RelabelsSecond(a: Row, b: Row, p: Progress)
    requires !p.threw && p.restored == Some(Good)
    ensures RowsAfter([a] + [b], [a] + [b], p)[1] == b.(bucket := Good)
  {
    var rows := [a] + [b];
    assert rows[1] == b;
    assert b in rows;
    assert RowKey(b) in KeysOf(rows);
  }

  lemma SecondIsUnconfirmed(a: Row, b: Row, screenRun: Option<string>)
    requires HasRun(screenRun)(a) && HasRun(screenRun)(b) && Filled(Batches([a] + [b], screenRun))
    requires RunKey(screenRun)(a) != RunKey(screenRun)(b) || a.targetType != b.targetType
    ensures !Confirmed(b, Batches([a] + [b], screenRun), Good, FirstOnly(), Good)
  {
    FirstRowOpensTheFirstBatch(a, b, screenRun);
    if Confirmed(b, Batches([a] + [b], screenRun), Good, FirstOnly(), Good) {
      InFirstBatch([a] + [b], screenRun, Good, b);
    }
  }

  /** Two rows of different runs, of which the second is refused; or of one run and different types, so that
      the request names the first alone: the second is shown as restored, which nobody confirmed. */
  lemma UnconfirmedRowIsShownRestored(a: Row, b: Row, screenRun: Option<string>)
    requires HasRun(screenRun)(a) && HasRun(screenRun)(b)
    requires RunKey(screenRun)(a) != RunKey(screenRun)(b) || a.targetType != b.targetType
    ensures
      var rows := [a] + [b];
      var batches := Batches(rows, screenRun);
      Filled(batches)
      && var p := SendAll(batches, Good, FirstOnly());
         !Confirmed(b, batches, Good, FirstOnly(), Good) && RowsAfter(rows, rows, p)[1] == b.(bucket := Good)
  {
    var rows := [a] + [b];
    BatchesPartitionTargets(rows, screenRun);
    SecondIsUnconfirmed(a, b, screenRun);
    FirstRowOpensTheFirstBatch(a, b, screenRun);
    FirstOnlyRestores(Batches(rows, screenRun), Good);
    RelabelsSecond(a, b, SendAll(Batches(rows, screenRun), Good, FirstOnly()));
  }

  lemma FirstRowOpensTheFirstBatch(a: Row, b: Row, screenRun: Option<string>)
    requires HasRun(screenRun)(a) && HasRun(screenRun)(b)
    ensures Batches([a] + [b], screenRun) != [] && Batches([a] + [b], screenRun)[0].key == RunKey(screenRun)(a)
    ensures Batches([a] + [b], screenRun)[0].items != [] && Batches([a] + [b], screenRun)[0].items[0] == a
  {
    var none: seq<Row> := [];
    SelectStep(none, a, HasRun(screenRun));
    SelectStep([a], b, HasRun(screenRun));
    assert none + [a] == [a];
    GroupByStep(none, a, RunKey(screenRun));
    GroupByStep([a], b, RunKey(screenRun));
  }
}
