/** The requests of a bulk restore (src/components/QualificationBuckets.tsx), said of the targets alone: which runs
    are asked, in which order, for which rows, and what the answers leave on screen. */
module BulkRequests {
  import opened Collections
  import opened QualificationRules
  import opened BulkRestore

  /** The row is restored in this run: its own, or the screen's if it names none; no run has the empty id. */
  function OfRun(screenRun: Option<string>, id: string): Row -> bool {
    (r: Row) => id != "" && if r.scoringRunId.Some? then r.scoringRunId == Some(id) else screenRun == Some(id)
  }

  /** A target of run `x` comes before all targets of run `y`. */
  ghost predicate Earlier(targets: seq<Row>, screenRun: Option<string>, x: string, y: string) {
    exists a :: 0 <= a < |targets| && OfRun(screenRun, x)(targets[a])
      && forall b :: 0 <= b <= a ==> !OfRun(screenRun, y)(targets[b])
  }

  /** The request names its run, the bucket asked for, the type of the run's first target, and the ids of exactly the
      targets of that run, in order. */
  ghost predicate AsksFor(q: Request, targets: seq<Row>, screenRun: Option<string>, bucket: Bucket) {
    var mine := Select(targets, OfRun(screenRun, q.scoringRunId));
    && mine != [] && q.bucket == bucket && q.targetType == mine[0].targetType
    && |q.targetIds| == |mine| && forall k :: 0 <= k < |mine| ==> q.targetIds[k] == mine[k].id
  }

  /** Every target with a run has that run asked. */
  ghost predicate AllAsked(sent: seq<Request>, targets: seq<Row>, screenRun: Option<string>) {
    forall r, id :: r in targets && OfRun(screenRun, id)(r) ==> exists i :: 0 <= i < |sent| && sent[i].scoringRunId == id
  }

  /** One request per run, in the order in which the runs first occur among the targets. */
  ghost predicate SentFor(sent: seq<Request>, targets: seq<Row>, screenRun: Option<string>, bucket: Bucket) {
    && (forall i :: 0 <= i < |sent| ==> AsksFor(sent[i], targets, screenRun, bucket))
    && (forall i, j :: 0 <= i < j < |sent| ==>
          sent[i].scoringRunId != sent[j].scoringRunId
          && Earlier(targets, screenRun, sent[i].scoringRunId, sent[j].scoringRunId))
  }

  // ----- the batches, said of the targets -----

  lemma RunOfRow(r: Row, screenRun: Option<string>, id: string)
    ensures OfRun(screenRun, id)(r) <==> HasRun(screenRun)(r) && RunKey(screenRun)(r) == id
  {}

  lemma {:induction false} BatchIsSelected(targets: seq<Row>, screenRun: Option<string>, id: string)
    requires id != ""
    ensures Having(Select(targets, HasRun(screenRun)), RunKey(screenRun), id) == Select(targets, OfRun(screenRun, id))
  {
    if targets != [] {
      var n := |targets| - 1;
      BatchIsSelected(targets[..n], screenRun, id);
      RunOfRow(targets[n], screenRun, id);
      HavingStep(Select(targets[..n], HasRun(screenRun)), targets[n], RunKey(screenRun), id);
    }
  }

  /** The batches stand in the order in which their runs first occur. */
  ghost predicate InOrder(batches: seq<Group<string, Row>>, targets: seq<Row>, screenRun: Option<string>) {
    forall i, j :: 0 <= i < j < |batches| ==> Earlier(targets, screenRun, batches[i].key, batches[j].key)
  }

  lemma EarlierExtends(targets: seq<Row>, r: Row, screenRun: Option<string>, x: string, y: string)
    requires Earlier(targets, screenRun, x, y)
    ensures Earlier(targets + [r], screenRun, x, y)
  {
    var a :| 0 <= a < |targets| && OfRun(screenRun, x)(targets[a])
      && forall b :: 0 <= b <= a ==> !OfRun(screenRun, y)(targets[b]);
    var more := targets + [r];
    assert more[a] == targets[a] && forall b :: 0 <= b <= a ==> more[b] == targets[b];
  }

  /** A run that no target has had so far comes after every run that occurred. */
  lemma NewRunIsLast(targets: seq<Row>, r: Row, screenRun: Option<string>, i: nat)
    requires i < |Batches(targets, screenRun)| && !HasKey(Batches(targets, screenRun), RunKey(screenRun)(r))
    ensures Earlier(targets, screenRun, Batches(targets, screenRun)[i].key, RunKey(screenRun)(r))
  {
    var q := BatchHasTarget(targets, screenRun, i);
    var a :| 0 <= a < |targets| && targets[a] == q;
    RunOfRow(q, screenRun, Batches(targets, screenRun)[i].key);
    forall b | 0 <= b <= a ensures !OfRun(screenRun, RunKey(screenRun)(r))(targets[b]) {
      RunOfRow(targets[b], screenRun, RunKey(screenRun)(r));
      if HasRun(screenRun)(targets[b]) { var j := TargetHasBatch(targets, screenRun, targets[b]); }
    }
  }

  lemma BatchesNext(targets: seq<Row>, r: Row, screenRun: Option<string>)
    ensures Batches(targets + [r], screenRun)
            == if HasRun(screenRun)(r) then AddTo(Batches(targets, screenRun), RunKey(screenRun)(r), r)
               else Batches(targets, screenRun)
  {
    SelectStep(targets, r, HasRun(screenRun));
    if HasRun(screenRun)(r) {
      GroupByStep(Select(targets, HasRun(screenRun)), r, RunKey(screenRun));
    } else {
      assert Select(targets + [r], HasRun(screenRun)) == Select(targets, HasRun(screenRun));
    }
  }

  lemma OrderExtends(before: seq<Row>, r: Row, screenRun: Option<string>, i: nat, j: nat)
    requires InOrder(Batches(before, screenRun), before, screenRun) && i < j < |Batches(before + [r], screenRun)|
    ensures
      var now := Batches(before + [r], screenRun);
      Earlier(before + [r], screenRun, now[i].key, now[j].key)
  {
    var was, now := Batches(before, screenRun), Batches(before + [r], screenRun);
    BatchesNext(before, r, screenRun);
    assert now[i].key == was[i].key;
    if j < |was| { assert now[j].key == was[j].key; } else { NewRunIsLast(before, r, screenRun, i); }
    EarlierExtends(before, r, screenRun, now[i].key, now[j].key);
  }

  lemma {:induction false} BatchesInOrder(targets: seq<Row>, screenRun: Option<string>)
    ensures InOrder(Batches(targets, screenRun), targets, screenRun)
  {
    if targets != [] {
      var before, r := targets[..|targets| - 1], targets[|targets| - 1];
      assert targets == before + [r];
      BatchesInOrder(before, screenRun);
      var now := Batches(targets, screenRun);
      forall i, j | 0 <= i < j < |now| ensures Earlier(targets, screenRun, now[i].key, now[j].key) {
        OrderExtends(before, r, screenRun, i, j);
      }
    }
  }

  lemma BatchKeyIsRun(targets: seq<Row>, screenRun: Option<string>, i: nat)
    requires i < |Batches(targets, screenRun)|
    ensures Batches(targets, screenRun)[i].key != ""
    ensures Batches(targets, screenRun)[i].items == Select(targets, OfRun(screenRun, Batches(targets, screenRun)[i].key))
    ensures Batches(targets, screenRun)[i].items != []
  {
    var r := BatchHasTarget(targets, screenRun, i);
    BatchesPartitionTargets(targets, screenRun);
    BatchIsSelected(targets, screenRun, Batches(targets, screenRun)[i].key);
  }

  lemma RequestAsks(targets: seq<Row>, screenRun: Option<string>, bucket: Bucket, i: nat, q: Request)
    requires i < |Batches(targets, screenRun)| && ForBatch(q, Batches(targets, screenRun)[i], bucket)
    ensures AsksFor(q, targets, screenRun, bucket)
  {
    BatchKeyIsRun(targets, screenRun, i);
  }

  // ----- what is sent -----

  /** One request goes out per run that a target has, in the order of first occurrence, each with its run, the bucket
      asked for, and its run's targets; if a call throws, the ones behind it stay out, and they alone. */
  lemma OneRequestPerRun(targets: seq<Row>, screenRun: Option<string>, bucket: Bucket, replies: nat -> Reply)
    ensures Filled(Batches(targets, screenRun))
    ensures
      var p := SendAll(Batches(targets, screenRun), bucket, replies);
      && SentFor(p.sent, targets, screenRun, bucket)
      && (forall i :: 0 <= i < |p.sent| ==> (replies(i).Throws? <==> p.threw && i == |p.sent| - 1))
      && (p.threw ==> p.sent != [])
      && (!p.threw ==> AllAsked(p.sent, targets, screenRun))
  {
    var batches := Batches(targets, screenRun);
    BatchesPartitionTargets(targets, screenRun);
    OneRequestPerBatch(batches, bucket, replies);
    BatchesInOrder(targets, screenRun);
    var p := SendAll(batches, bucket, replies);
    forall i | 0 <= i < |p.sent|
      ensures AsksFor(p.sent[i], targets, screenRun, bucket) && p.sent[i].scoringRunId == batches[i].key
    {
      RequestAsks(targets, screenRun, bucket, i, p.sent[i]);
    }
    if !p.threw {
      forall r, id | r in targets && OfRun(screenRun, id)(r)
        ensures exists i :: 0 <= i < |p.sent| && p.sent[i].scoringRunId == id
      {
        RunOfRow(r, screenRun, id);
        var i := TargetHasBatch(targets, screenRun, r);
        assert p.sent[i].scoringRunId == id;
      }
    }
  }

  /** A run that was not asked, because a call threw, first occurs after every run that was. */
  lemma UnaskedComeLater(targets: seq<Row>, screenRun: Option<string>, bucket: Bucket, replies: nat -> Reply,
                         i: nat, r: Row, id: string)
    requires Filled(Batches(targets, screenRun)) && r in targets && OfRun(screenRun, id)(r)
    requires i < |SendAll(Batches(targets, screenRun), bucket, replies).sent|
    requires
      var sent := SendAll(Batches(targets, screenRun), bucket, replies).sent;
      forall k :: 0 <= k < |sent| ==> sent[k].scoringRunId != id
    ensures Earlier(targets, screenRun, SendAll(Batches(targets, screenRun), bucket, replies).sent[i].scoringRunId, id)
  {
    OneRequestPerBatch(Batches(targets, screenRun), bucket, replies);
    BatchesInOrder(targets, screenRun);
    RunOfRow(r, screenRun, id);
    var j := TargetHasBatch(targets, screenRun, r);
  }

  // ----- what the answers come to -----

  predicate Grants(reply: Reply) {
    reply.Answer? && reply.ok && reply.bucket.Some?
  }

  /** The answer that counts: the last one that grants a bucket. */
  ghost predicate LastGrant(n: nat, replies: nat -> Reply, granted: Option<Bucket>) {
    if granted == None then forall i: nat :: i < n ==> !Grants(replies(i))
    else exists i: nat :: i < n && Grants(replies(i)) && granted == replies(i).bucket
                          && forall j :: i < j < n ==> !Grants(replies(j))
  }

  lemma NextGrant(n: nat, replies: nat -> Reply, granted: Option<Bucket>)
    requires LastGrant(n, replies, granted)
    ensures LastGrant(n + 1, replies, if Grants(replies(n)) then replies(n).bucket else granted)
  {
    if !Grants(replies(n)) && granted.Some? {
      var i: nat :| i < n && Grants(replies(i)) && granted == replies(i).bucket
        && forall j :: i < j < n ==> !Grants(replies(j));
      assert i < n + 1;
    }
  }

  /** Without a throw the last message is shown, and the bucket of the last answer that grants one. */
  lemma {:induction false} LastAnswerCounts(batches: seq<Group<string, Row>>, bucket: Bucket, replies: nat -> Reply)
    requires Filled(batches) && !SendAll(batches, bucket, replies).threw
    ensures
      var p := SendAll(batches, bucket, replies);
      && (batches == [] ==> p.message == None)
      && (batches != [] ==> replies(|batches| - 1).Answer? && p.message == Some(replies(|batches| - 1).message))
      && LastGrant(|batches|, replies, p.restored)
  {
    if batches != [] {
      var n := |batches| - 1;
      LastAnswerCounts(batches[..n], bucket, replies);
      NextGrant(n, replies, SendAll(batches[..n], bucket, replies).restored);
    }
  }

  /** After the answers: unless a call threw, the rows with the type and id of some target show the bucket of the last
      granting answer, if there was one; all other rows are as before. */
  lemma RowsShown(rows: seq<Row>, targets: seq<Row>, p: Progress, i: nat)
    requires i < |rows|
    ensures |RowsAfter(rows, targets, p)| == |rows|
    ensures
      RowsAfter(rows, targets, p)[i]
      == if && !p.threw && p.restored.Some?
            && exists r :: r in targets && r.targetType == rows[i].targetType && r.id == rows[i].id
         then rows[i].(bucket := p.restored.value) else rows[i]
  {
    assert forall r :: RowKey(r) == RowKey(rows[i]) <==> r.targetType == rows[i].targetType && r.id == rows[i].id by {
      forall r ensures RowKey(r) == RowKey(rows[i]) <==> r.targetType == rows[i].targetType && r.id == rows[i].id {
        RowKeyIsExact(r, rows[i]);
      }
    }
    assert RowKey(rows[i]) in KeysOf(targets) <==> exists r :: r in targets && RowKey(r) == RowKey(rows[i]);
  }
}
