/** The qualification screen as the object it is (src/components/QualificationBuckets.tsx). */
module QualificationBuckets {
  import opened Collections
  import opened QualificationRules
  import opened BulkRestore
  import opened BulkRequests

  class Buckets {
    const scoringRunId: Option<string>
    const readOnly: bool

    var rows: seq<Row>
    var message: Option<string>
    var keptExcludedIds: set<string>

    /** Every bulk request sent so far. */
    var requests: seq<Request>

    constructor (rows: seq<Row>, scoringRunId: Option<string>, readOnly: bool)
      ensures this.rows == rows && this.scoringRunId == scoringRunId && this.readOnly == readOnly
      ensures message == None && keptExcludedIds == {} && requests == []
    {
      this.rows, this.scoringRunId, this.readOnly := rows, scoringRunId, readOnly;
      message, keptExcludedIds, requests := None, {}, [];
    }

    // ----- reading the screen -----

    /** The Map of groups, filled row by row, then those with more than one row. */
    method ComputeExcludedGroups() returns (groups: seq<Group<string, Row>>)
      ensures groups == ExcludedGroups(rows, keptExcludedIds)
    {
      var eligible := EligibleRows(rows, keptExcludedIds);
      var all: seq<Group<string, Row>> := [];
      for i := 0 to |eligible|
        invariant all == GroupBy(eligible[..i], CriterionKey)
      {
        assert eligible[..i + 1] == eligible[..i] + [eligible[i]];
        GroupByStep(eligible[..i], eligible[i], CriterionKey);
        all := AddTo(all, CriterionKey(eligible[i]), eligible[i]);
      }
      assert eligible[..|eligible|] == eligible;
      groups := Select(all, Plural);
    }

    method AddKeys(ids: set<string>, group: seq<Row>) returns (more: set<string>)
      ensures more == ids + KeysOf(group)
    {
      more := ids;
      for j := 0 to |group|
        invariant more == ids + KeysOf(group[..j])
      {
        assert group[..j + 1] == group[..j] + [group[j]];
        more := more + {RowKey(group[j])};
      }
      assert group[..|group|] == group;
    }

    method ComputeExclusionContactCount() returns (count: nat)
      ensures count == ExclusionContactCount(rows, keptExcludedIds)
    {
      var groups := ComputeExcludedGroups();
      var ids: set<string> := {};
      for i := 0 to |groups|
        invariant ids == KeysOf(Flatten(groups[..i]))
      {
        assert groups[..i + 1] == groups[..i] + [groups[i]];
        FlattenNext(groups[..i], groups[i]);
        ids := AddKeys(ids, groups[i].items);
      }
      assert groups[..|groups|] == groups;
      count := |ids|;
    }

    // ----- keeping rows excluded -----

    method KeepExcluded(rowKey: string)
      modifies this`keptExcludedIds
      ensures keptExcludedIds == old(keptExcludedIds) + {rowKey}
    {
      keptExcludedIds := keptExcludedIds + {rowKey};
    }

    method KeepExcludedMany(rowKeys: seq<string>)
      modifies this`keptExcludedIds
      ensures keptExcludedIds == old(keptExcludedIds) + set k | k in rowKeys
    {
      var next := keptExcludedIds;
      for i := 0 to |rowKeys|
        invariant next == keptExcludedIds + set k | k in rowKeys[..i]
      {
        assert rowKeys[..i + 1] == rowKeys[..i] + [rowKeys[i]];
        next := next + {rowKeys[i]};
      }
      assert rowKeys[..|rowKeys|] == rowKeys;
      keptExcludedIds := next;
    }

    // ----- restoring -----

    /** One row at a time: only the row that was answered for changes. */
    method Restored(row: Row, reply: Reply)
      requires reply.Answer?
      modifies this`rows, this`message
      ensures message == Some(reply.message)
      ensures |rows| == |old(rows)|
      ensures forall i :: 0 <= i < |rows| ==>
                rows[i] == if reply.ok && reply.bucket.Some? && old(rows)[i].id == row.id
                              && old(rows)[i].targetType == row.targetType
                           then old(rows)[i].(bucket := reply.bucket.value) else old(rows)[i]
    {
      message := Some(reply.message);
      if reply.ok && reply.bucket.Some? {
        rows := MapSeq((r: Row) => if r.id == row.id && r.targetType == row.targetType
                                   then r.(bucket := reply.bucket.value) else r, rows);
      }
    }

    method BatchByRun(targets: seq<Row>) returns (byRun: seq<Group<string, Row>>)
      ensures byRun == Batches(targets, scoringRunId)
    {
      byRun := [];
      for i := 0 to |targets|
        invariant byRun == Batches(targets[..i], scoringRunId)
      {
        var row := targets[i];
        assert targets[..i + 1] == targets[..i] + [row];
        SelectStep(targets[..i], row, HasRun(scoringRunId));
        GroupByStep(Select(targets[..i], HasRun(scoringRunId)), row, RunKey(scoringRunId));
        if HasRun(scoringRunId)(row) {
          byRun := AddTo(byRun, RunKey(scoringRunId)(row), row);
        } else {
          assert Select(targets[..i + 1], HasRun(scoringRunId)) == Select(targets[..i], HasRun(scoringRunId));
        }
      }
      assert targets[..|targets|] == targets;
    }

    /** `replies(i)` is the server's answer to the i-th request. */
    method SendBatches(byRun: seq<Group<string, Row>>, bucket: Bucket, replies: nat -> Reply) returns (p: Progress)
      requires Filled(byRun)
      modifies this`requests
      ensures p == SendAll(byRun, bucket, replies)
      ensures requests == old(requests) + p.sent
    {
      p := NOTHING_SENT;
      var i := 0;
      while i < |byRun| && !p.threw
        invariant 0 <= i <= |byRun|
        invariant p == SendAll(byRun[..i], bucket, replies)
        invariant requests == old(requests) + p.sent
      {
        assert byRun[..i + 1][..i] == byRun[..i];
        requests := requests + [RequestFor(byRun[i], bucket)];
        p := SendOne(p, byRun[i], bucket, replies(i));
        i := i + 1;
      }
      if i == |byRun| {
        assert byRun[..i] == byRun;
      } else {
        ThrowEnds(byRun, i, bucket, replies);
      }
    }

    /** After the loop: a throw has ended the transition, otherwise the last message and bucket are shown. */
    method ShowAnswers(targets: seq<Row>, p: Progress)
      modifies this`rows, this`message
      ensures rows == RowsAfter(old(rows), targets, p)
      ensures message == if p.threw || p.sent == [] then old(message) else p.message
    {
      if p.threw { return; }
      if p.sent != [] { message := p.message; }
      if p.restored.Some? {
        rows := MapSeq(Relabelled(KeysOf(targets), p.restored.value), rows);
      }
    }

    /** The requests of the batches go out in order; only buckets change, and only of rows asked for. */
    method RestoreMany(targets: seq<Row>, bucket: Bucket, replies: nat -> Reply)
      modifies this`rows, this`message, this`requests
      ensures Filled(Batches(targets, scoringRunId))
      ensures
        var p := SendAll(Batches(targets, scoringRunId), bucket, replies);
        && requests == old(requests) + p.sent && SentFor(p.sent, targets, scoringRunId, bucket)
        && (!p.threw ==> AllAsked(p.sent, targets, scoringRunId))
        && rows == RowsAfter(old(rows), targets, p)
        && message == if p.threw || p.sent == [] then old(message) else p.message
      ensures |rows| == |old(rows)|
      ensures forall i :: 0 <= i < |rows| ==>
                && rows[i] == old(rows)[i].(bucket := rows[i].bucket)
                && (RowKey(old(rows)[i]) !in KeysOf(targets) ==> rows[i] == old(rows)[i])
    {
      BatchesPartitionTargets(targets, scoringRunId);
      var byRun := BatchByRun(targets);
      var p := SendBatches(byRun, bucket, replies);
      ShowAnswers(targets, p);
      OneRequestPerRun(targets, scoringRunId, bucket, replies);
    }
  }

  lemma FlattenNext(groups: seq<Group<string, Row>>, last: Group<string, Row>)
    ensures Flatten(groups + [last]) == Flatten(groups) + last.items
    ensures KeysOf(Flatten(groups + [last])) == KeysOf(Flatten(groups)) + KeysOf(last.items)
  {
    assert (groups + [last])[..|groups|] == groups;
  }

  /** Nothing is sent after a throw. */
  lemma {:induction false} ThrowEnds(batches: seq<Group<string, Row>>, n: nat, bucket: Bucket, replies: nat -> Reply)
    requires Filled(batches) && n <= |batches| && SendAll(batches[..n], bucket, replies).threw
    ensures SendAll(batches, bucket, replies) == SendAll(batches[..n], bucket, replies)
  {
    if n < |batches| {
      assert batches[..|batches| - 1][..n] == batches[..n];
      ThrowEnds(batches[..|batches| - 1], n, bucket, replies);
    } else {
      assert batches[..n] == batches;
    }
  }
}
