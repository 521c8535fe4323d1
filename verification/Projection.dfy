/** The conversation projection (history/conversation_projection.go): immutable deltas, one per
    segment, folded over checksummed snapshots. */
module Projection {
  import opened Basics
  import opened Sorting
  import opened Records
  import opened Aggregates
  import opened ObjectStore

  type SegmentStore = map<SegmentKey, Sealed<Segment>>

  datatype Delta = Delta(
    source: SegmentKey,
    sourceDigestOf: Segment,
    conversationID: string,
    recordCount: int,
    firstSeenAt: Time,
    lastSeenAt: Time,
    agents: seq<string>,
    kinds: seq<string>)

  /** The delta of a source sits under a hash of the source's key. */
  datatype DeltaKey = DeltaKey(source: SegmentKey)

  /** The applied keys of a snapshot are written as a sorted list; the list is the set. */
  datatype Snapshot = Snapshot(
    createdAt: Time,
    conversations: seq<Conversation>,
    applied: set<DeltaKey>)

  /** Snapshot names order by applied count, then by creation time. */
  datatype SnapshotKey = SnapshotKey(count: nat, createdAt: Time, digestOf: Snapshot)

  /** A projection object either decodes or does not. */
  datatype Stored<+T> = Garbled | Plain(sealed: Sealed<T>)

  datatype Failure = ReadFailed | WriteFailed | NoValidSnapshot | DuplicateRecord | NoRecords | MultipleConversations

  // ----- Deltas -----

  ghost predicate OneConversation(records: seq<Record>) {
    records != [] && forall r | r in records :: r.conversationID == records[0].conversationID
  }

  function Absorb(d: Delta): Aggregate {
    Aggregate(d.recordCount, d.firstSeenAt, d.lastSeenAt, Elements(d.agents), Elements(d.kinds))
  }

  lemma OneConversationSummary(records: seq<Record>)
    requires OneConversation(records)
    ensures Summarize(records).Keys == {records[0].conversationID}
  {
    SummarizeDescribes(records);
    assert records[0] in records;
  }

  /** The delta a segment deserves: its records' summary, spelled out. */
  ghost function DeltaOf(source: SegmentKey, segment: Segment): Delta
    requires OneConversation(RecordsOf(segment))
  {
    var records := RecordsOf(segment);
    OneConversationSummary(records);
    var id := records[0].conversationID;
    var a := Summarize(records)[id];
    Delta(source, segment, id, a.count, a.first, a.last, SortedKeys(a.agents), SortedKeys(a.kinds))
  }

  /** One more record of the same conversation. */
  lemma SummaryGrows(front: seq<Record>, record: Record, id: string, a: Aggregate)
    requires record.conversationID == id
    requires front == [] || Summarize(front) == map[id := a]
    ensures Summarize(front + [record]) == map[id := if front == [] then OfRecord(record) else Merge(a, OfRecord(record))]
  {
    assert (front + [record])[..|front|] == front;
  }

  method BuildConversationDelta(source: SegmentKey, segment: Segment) returns (r: Result<Delta, Failure>)
    ensures r == Err(NoRecords) <==> segment.entries == []
    ensures r.Ok? <==> OneConversation(RecordsOf(segment))
    ensures r.Ok? ==> r.value == DeltaOf(source, segment)
  {
    hide Summarize, Insert;
    var records := RecordsOf(segment);
    if records == [] { return Err(NoRecords); }
    var id := records[0].conversationID;
    var agents, kinds: set<string>, first, last := {}, {}, records[0].occurredAt, records[0].occurredAt;
    for i := 0 to |records|
      invariant forall j | 0 <= j < i :: records[j].conversationID == id
      invariant i == 0 ==> agents == {} && kinds == {} && first == last == records[0].occurredAt
      invariant i > 0 ==> Summarize(records[..i]) == map[id := Aggregate(i, first, last, agents, kinds)]
    {
      var record := records[i];
      if record.conversationID != id {
        assert record in records;
        return Err(MultipleConversations);
      }
      assert records[..i + 1] == records[..i] + [record];
      SummaryGrows(records[..i], record, id, Aggregate(i, first, last, agents, kinds));
      assert AgentsOf(record) + {} == {} + AgentsOf(record) == AgentsOf(record) && agents + {} == agents;
      assert {} + {record.kind} == {record.kind};
      if record.occurredAt < first { first := record.occurredAt; }
      if record.occurredAt > last { last := record.occurredAt; }
      if record.agent.Some? && record.agent.value != "" { agents := agents + {record.agent.value}; }
      kinds := kinds + {record.kind};
    }
    assert records[..|records|] == records;
    var agentList := CollectSortedKeys(agents);
    var kindList := CollectSortedKeys(kinds);
    r := Ok(Delta(source, segment, id, |records|, first, last, agentList, kindList));
  }

  /** Folding in a segment's delta is combining with the summary of its records. */
  lemma AbsorbDelta(m: Summary, source: SegmentKey, segment: Segment)
    requires OneConversation(RecordsOf(segment))
    ensures var d := DeltaOf(source, segment);
            MergeInto(m, d.conversationID, Absorb(d)) == Combine(m, Summarize(RecordsOf(segment)))
  {
    var records := RecordsOf(segment);
    OneConversationSummary(records);
    var d := DeltaOf(source, segment);
    assert Summarize(records) == map[d.conversationID := Absorb(d)];
    CombineSingle(m, d.conversationID, Absorb(d));
  }

  // ----- What a view must equal -----

  ghost predicate Covers(segments: SegmentStore, applied: set<DeltaKey>) {
    forall d | d in applied :: d.source in segments
  }

  /** The summary of exactly the segments named by a set of applied keys, each once. */
  ghost function SumApplied(segments: SegmentStore, applied: set<DeltaKey>): Summary
    requires Covers(segments, applied)
  {
    if applied == {} then map[]
    else
      var d :| d in applied;
      Combine(SumApplied(segments, applied - {d}), Summarize(RecordsOf(segments[d.source].value)))
  }

  /** Which key is taken out first does not matter. */
  lemma {:induction false} SumAppliedRemove(segments: SegmentStore, applied: set<DeltaKey>, d: DeltaKey)
    requires Covers(segments, applied) && d in applied
    ensures SumApplied(segments, applied)
         == Combine(SumApplied(segments, applied - {d}), Summarize(RecordsOf(segments[d.source].value)))
    decreases |applied|
  {
    var e :| e in applied && SumApplied(segments, applied)
          == Combine(SumApplied(segments, applied - {e}), Summarize(RecordsOf(segments[e.source].value)));
    if e != d {
      SumAppliedRemove(segments, applied - {e}, d);
      SumAppliedRemove(segments, applied - {d}, e);
      assert applied - {e} - {d} == applied - {d} - {e};
      CombineExchange(SumApplied(segments, applied - {d} - {e}),
                      Summarize(RecordsOf(segments[d.source].value)),
                      Summarize(RecordsOf(segments[e.source].value)));
    }
  }

  /** Segments are immutable: a growing store leaves every sum alone. */
  lemma {:induction false} SumAppliedGrows(before: SegmentStore, after: SegmentStore, applied: set<DeltaKey>)
    requires Covers(before, applied) && Grows(before, after)
    ensures Covers(after, applied) && SumApplied(after, applied) == SumApplied(before, applied)
    decreases |applied|
  {
    if applied != {} {
      var d :| d in applied;
      SumAppliedGrows(before, after, applied - {d});
      SumAppliedRemove(before, applied, d);
      SumAppliedRemove(after, applied, d);
    }
  }

  ghost predicate Faithful(values: Summary, applied: set<DeltaKey>, segments: SegmentStore) {
    Covers(segments, applied) && values == SumApplied(segments, applied)
  }

  lemma NothingIsFaithful(segments: SegmentStore)
    ensures Faithful(map[], {}, segments)
  {
  }

  /** Every accepted delta object is the delta of the stored segment it names. */
  ghost predicate GenuineDeltas(deltas: map<DeltaKey, Stored<Delta>>, segments: SegmentStore) {
    forall k | k in deltas && AcceptsDelta(k, deltas[k]) ::
      && k.source in segments
      && OneConversation(RecordsOf(segments[k.source].value))
      && deltas[k].sealed.value == DeltaOf(k.source, segments[k.source].value)
  }

  ghost predicate GenuineSnapshots(snapshots: map<SnapshotKey, Stored<Snapshot>>, segments: SegmentStore) {
    forall k | k in snapshots && AcceptsSnapshot(snapshots[k]) ::
      Faithful(Restore(snapshots[k].sealed.value.conversations), snapshots[k].sealed.value.applied, segments)
  }

  /** The checks of readDelta. */
  predicate AcceptsDelta(key: DeltaKey, stored: Stored<Delta>) {
    && stored.Plain?
    && var d := stored.sealed.value;
    && key == DeltaKey(d.source) && d.recordCount >= 1 && d.conversationID != ""
    && d.firstSeenAt != ZERO_TIME && d.firstSeenAt <= d.lastSeenAt
    && Intact(stored.sealed)
  }

  /** The checks of readSnapshot. */
  predicate AcceptsSnapshot(stored: Stored<Snapshot>) {
    stored.Plain? && stored.sealed.value.createdAt != ZERO_TIME && Intact(stored.sealed)
  }

  /** A delta is read only as it was sealed, under its own source's key, with a record and a possible span of
      time; a snapshot only as it was sealed. */
  lemma TamperedProjectionRefused(key: DeltaKey, genuine: Delta, other: Delta, snapshot: Snapshot, changed: Snapshot)
    ensures other != genuine ==> !AcceptsDelta(key, Plain(Sealed(other, genuine)))
    ensures key.source != genuine.source ==> !AcceptsDelta(key, Plain(Seal(genuine)))
    ensures genuine.recordCount < 1 || genuine.lastSeenAt < genuine.firstSeenAt ==> !AcceptsDelta(key, Plain(Seal(genuine)))
    ensures changed != snapshot ==> !AcceptsSnapshot(Plain(Sealed(changed, snapshot)))
    ensures !AcceptsDelta(key, Garbled) && !AcceptsSnapshot(Garbled)
  {
  }

  lemma FaithfulApply(values: Summary, applied: set<DeltaKey>, segments: SegmentStore, key: DeltaKey)
    requires Faithful(values, applied, segments) && key !in applied
    requires key.source in segments && OneConversation(RecordsOf(segments[key.source].value))
    ensures var d := DeltaOf(key.source, segments[key.source].value);
            Faithful(MergeInto(values, d.conversationID, Absorb(d)), applied + {key}, segments)
  {
    AbsorbDelta(values, key.source, segments[key.source].value);
    SumAppliedRemove(segments, applied + {key}, key);
    assert applied + {key} - {key} == applied;
  }

  // ----- Summing a listing of whole segments -----

  ghost function Concat(segments: SegmentStore, keys: seq<SegmentKey>): seq<Record>
    requires forall k | k in keys :: k in segments
  {
    if keys == [] then []
    else Concat(segments, keys[..|keys| - 1]) + RecordsOf(segments[keys[|keys| - 1]].value)
  }

  function DeltaKeys(keys: set<SegmentKey>): set<DeltaKey> {
    set k | k in keys :: DeltaKey(k)
  }

  /** Scanning whole segments gives the sum over their delta keys. */
  lemma {:induction false} SumOfListing(segments: SegmentStore, keys: seq<SegmentKey>)
    requires NoDuplicates(keys) && forall k | k in keys :: k in segments
    ensures Covers(segments, DeltaKeys(Elements(keys)))
    ensures Summarize(Concat(segments, keys)) == SumApplied(segments, DeltaKeys(Elements(keys)))
  {
    if keys != [] {
      var front, k := keys[..|keys| - 1], keys[|keys| - 1];
      assert keys == front + [k];
      SumOfListing(segments, front);
      SummarizeAppend(Concat(segments, front), RecordsOf(segments[k].value));
      var all := DeltaKeys(Elements(keys));
      assert k in Elements(keys) && DeltaKey(k) in all;
      assert k !in Elements(front);
      assert all - {DeltaKey(k)} == DeltaKeys(Elements(front)) by {
        assert Elements(keys) == Elements(front) + {k};
      }
      SumAppliedRemove(segments, all, DeltaKey(k));
    }
  }
}
