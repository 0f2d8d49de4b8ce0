/** Manual offset bookkeeping shared by the analyzer's consumer loops: a
    table from topic-partition to the next offset to commit, and the trace of
    commit calls a Kafka consumer receives. */
module Offsets {

  datatype TopicPartition = TopicPartition(topic: string, partition: int)

  /** A consumed record: where it came from, and its value. */
  datatype Record<V> = Record(topic: string, partition: int, offset: int, value: V)

  /** `Map<TopicPartition, OffsetAndMetadata>`, the metadata being the offset. */
  type OffsetTable = map<TopicPartition, int>

  /** The consumer calls the loops make, as they appear in the trace. */
  datatype CommitCall =
    | CommitSync
    | CommitSyncOffsets(offsets: OffsetTable)
    | CommitAsync
    | CommitAsyncOffsets(offsets: OffsetTable)
    | Close

  /** A Kafka consumer seen only through the commit and close calls it
      receives; the broker's answers are not modelled. */
  class Consumer {
    var calls: seq<CommitCall>

    constructor()
      ensures calls == []
    {
      calls := [];
    }

    method CommitSync()
      modifies this
      ensures calls == old(calls) + [CommitCall.CommitSync]
    {
      calls := calls + [CommitCall.CommitSync];
    }

    method CommitSyncOffsets(offsets: OffsetTable)
      modifies this
      ensures calls == old(calls) + [CommitCall.CommitSyncOffsets(offsets)]
    {
      calls := calls + [CommitCall.CommitSyncOffsets(offsets)];
    }

    method CommitAsync()
      modifies this
      ensures calls == old(calls) + [CommitCall.CommitAsync]
    {
      calls := calls + [CommitCall.CommitAsync];
    }

    method CommitAsyncOffsets(offsets: OffsetTable)
      modifies this
      ensures calls == old(calls) + [CommitCall.CommitAsyncOffsets(offsets)]
    {
      calls := calls + [CommitCall.CommitAsyncOffsets(offsets)];
    }

    method Close()
      modifies this
      ensures calls == old(calls) + [CommitCall.Close]
    {
      calls := calls + [CommitCall.Close];
    }
  }

  function PartitionOf<V>(r: Record<V>): TopicPartition
  {
    TopicPartition(r.topic, r.partition)
  }

  /** The `offsets.put` of one record: its partition's next offset is the
      record's offset plus one. */
  function Advance<V>(o: OffsetTable, r: Record<V>): (o': OffsetTable)
    ensures o'.Keys == o.Keys + {PartitionOf(r)}
    ensures o'[PartitionOf(r)] == r.offset + 1
    ensures forall tp :: tp in o && tp != PartitionOf(r) ==> o'[tp] == o[tp]
  {
    o[PartitionOf(r) := r.offset + 1]
  }

  /** The table after the records of a batch, in order. */
  function OffsetsAfter<V>(o: OffsetTable, rs: seq<Record<V>>): OffsetTable
  {
    if |rs| == 0 then o else Advance(OffsetsAfter(o, rs[..|rs| - 1]), rs[|rs| - 1])
  }

  /** The async table commits of one batch: the counter starts at 0, so the
      records at indices 0, 100, 200, ... each commit the table as it is
      right after them. */
  function BatchCommits<V>(o: OffsetTable, rs: seq<Record<V>>): seq<CommitCall>
  {
    if |rs| == 0 then []
    else BatchCommits(o, rs[..|rs| - 1])
         + (if (|rs| - 1) % 100 == 0 then [CommitAsyncOffsets(OffsetsAfter(o, rs))] else [])
  }

  /** The partitions a batch touches get the last offset seen plus one. */
  lemma {:induction false} OffsetsAfterLast<V>(o: OffsetTable, rs: seq<Record<V>>, i: nat)
    requires i < |rs|
    requires forall j :: i < j < |rs| ==> PartitionOf(rs[j]) != PartitionOf(rs[i])
    ensures PartitionOf(rs[i]) in OffsetsAfter(o, rs)
    ensures OffsetsAfter(o, rs)[PartitionOf(rs[i])] == rs[i].offset + 1
  {
    if i < |rs| - 1 {
      var front := rs[..|rs| - 1];
      assert front[i] == rs[i];
      OffsetsAfterLast(o, front, i);
    }
  }

  /** Partitions the batch does not touch keep their entry, or their absence. */
  lemma {:induction false} OffsetsAfterUntouched<V>(o: OffsetTable, rs: seq<Record<V>>, tp: TopicPartition)
    requires forall j :: 0 <= j < |rs| ==> PartitionOf(rs[j]) != tp
    ensures tp in OffsetsAfter(o, rs) <==> tp in o
    ensures tp in o ==> OffsetsAfter(o, rs)[tp] == o[tp]
  {
    if |rs| > 0 {
      var front := rs[..|rs| - 1];
      assert forall j :: 0 <= j < |front| ==> front[j] == rs[j];
      OffsetsAfterUntouched(o, front, tp);
    }
  }

  /** A batch of n records makes ceil(n / 100) async table commits, the j-th
      right after record 100 * j. */
  lemma {:induction false} BatchCommitCount<V>(o: OffsetTable, rs: seq<Record<V>>)
    ensures |BatchCommits(o, rs)| == (|rs| + 99) / 100
    ensures forall j :: 0 <= j < |BatchCommits(o, rs)| ==>
              100 * j < |rs| && BatchCommits(o, rs)[j] == CommitAsyncOffsets(OffsetsAfter(o, rs[..100 * j + 1]))
  {
    if |rs| > 0 {
      var n := |rs|;
      var front := rs[..n - 1];
      BatchCommitCount(o, front);
      assert rs[..n] == rs;
      forall j | 0 <= j < |BatchCommits(o, front)|
        ensures front[..100 * j + 1] == rs[..100 * j + 1]
      {
      }
      if (n - 1) % 100 == 0 {
        assert (n + 99) / 100 == (n + 98) / 100 + 1;
        assert 100 * |BatchCommits(o, front)| + 1 == n;
      } else {
        assert (n + 99) / 100 == (n + 98) / 100;
      }
    }
  }

  /** A batch of 250 records: three async table commits, after records 0,
      100 and 200. */
  lemma Cadence250<V>(o: OffsetTable, rs: seq<Record<V>>)
    requires |rs| == 250
    ensures |BatchCommits(o, rs)| == 3
    ensures BatchCommits(o, rs) == [CommitAsyncOffsets(OffsetsAfter(o, rs[..1])),
                                    CommitAsyncOffsets(OffsetsAfter(o, rs[..101])),
                                    CommitAsyncOffsets(OffsetsAfter(o, rs[..201]))]
  {
    BatchCommitCount(o, rs);
  }

  /** The records of successive polls, in order. */
  function Flatten<V>(batches: seq<seq<Record<V>>>): seq<Record<V>>
  {
    if |batches| == 0 then [] else Flatten(batches[..|batches| - 1]) + batches[|batches| - 1]
  }

  /** Recording two runs of records one after the other is recording their
      concatenation. */
  lemma {:induction false} OffsetsAfterConcat<V>(o: OffsetTable, a: seq<Record<V>>, b: seq<Record<V>>)
    ensures OffsetsAfter(o, a + b) == OffsetsAfter(OffsetsAfter(o, a), b)
  {
    if |b| == 0 {
      assert a + b == a;
    } else {
      var front := b[..|b| - 1];
      assert (a + b)[..|a + b| - 1] == a + front;
      OffsetsAfterConcat(o, a, front);
    }
  }

  /** The commit calls of a sequence of polls: each batch makes its own
      table commits, counting from 0 again, then `batchEnd`. */
  function RunCommits<V>(o: OffsetTable, batches: seq<seq<Record<V>>>, batchEnd: CommitCall): seq<CommitCall>
  {
    if |batches| == 0 then []
    else
      var front := batches[..|batches| - 1];
      RunCommits(o, front, batchEnd) + (BatchCommits(OffsetsAfter(o, Flatten(front)), batches[|batches| - 1]) + [batchEnd])
  }

  /** One more poll: what `Flatten`, `OffsetsAfter` and `RunCommits` add for
      the batch at index `i`. */
  lemma RunStep<V>(o: OffsetTable, batches: seq<seq<Record<V>>>, i: nat, batchEnd: CommitCall)
    requires i < |batches|
    ensures Flatten(batches[..i + 1]) == Flatten(batches[..i]) + batches[i]
    ensures OffsetsAfter(o, Flatten(batches[..i + 1])) == OffsetsAfter(OffsetsAfter(o, Flatten(batches[..i])), batches[i])
    ensures RunCommits(o, batches[..i + 1], batchEnd)
            == RunCommits(o, batches[..i], batchEnd) + (BatchCommits(OffsetsAfter(o, Flatten(batches[..i])), batches[i])
                                                        + [batchEnd])
  {
    assert batches[..i + 1][..i] == batches[..i];
    OffsetsAfterConcat(o, Flatten(batches[..i]), batches[i]);
  }

  /** The number of commit calls the per-batch counter yields. */
  function CommitsPerRun<V>(batches: seq<seq<Record<V>>>): nat
  {
    if |batches| == 0 then 0
    else CommitsPerRun(batches[..|batches| - 1]) + (|batches[|batches| - 1]| + 99) / 100 + 1
  }

  /** Each batch contributes ceil(n / 100) table commits and one batch-end
      call: the counter restarts with every poll. */
  lemma {:induction false} RunCommitCount<V>(o: OffsetTable, batches: seq<seq<Record<V>>>, batchEnd: CommitCall)
    ensures |RunCommits(o, batches, batchEnd)| == CommitsPerRun(batches)
  {
    if |batches| > 0 {
      var front := batches[..|batches| - 1];
      RunCommitCount(o, front, batchEnd);
      BatchCommitCount(OffsetsAfter(o, Flatten(front)), batches[|batches| - 1]);
    }
  }

  /** Two polls of one record each make two table commits, where one poll of
      two records makes one. */
  lemma CounterRestartsEachPoll<V>(o: OffsetTable, r1: Record<V>, r2: Record<V>, batchEnd: CommitCall)
    ensures |RunCommits(o, [[r1], [r2]], batchEnd)| == 4
    ensures |RunCommits(o, [[r1, r2]], batchEnd)| == 2
  {
    RunCommitCount(o, [[r1], [r2]], batchEnd);
    RunCommitCount(o, [[r1, r2]], batchEnd);
    assert [[r1], [r2]][..1] == [[r1]];
    assert [[r1], [r2]][..1][..0] == [];
    assert [[r1, r2]][..0] == [];
  }
}
