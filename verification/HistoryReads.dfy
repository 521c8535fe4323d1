/** Reading records back and checking a whole store (history/history.go, history/query.go). */
module HistoryReads {
  import opened Basics
  import opened Sorting
  import opened Records
  import opened RecordOrder
  import opened ObjectStore
  import opened Projection
  import opened ConversationView
  import opened AppendBatch

  datatype ReadError = RecordCorrupt | SegmentUnreadable | BlobMissing | BlobUnreadable | BlobCorrupt
                     | ConversationNotFound | RepeatedRecord | ListingFailed

  /** The reference resolves: the named blob is there and is what the record says it is. */
  predicate Resolves(r: Record, blobs: BlobStore) {
    r.content.External? ==>
      && r.content.sha in blobs
      && ContentSha(blobs[r.content.sha]) == r.content.sha
      && |blobs[r.content.sha]| == r.content.size
  }

  predicate SegmentResolves(segment: Segment, blobs: BlobStore) {
    forall i | 0 <= i < |segment.entries| :: Resolves(segment.entries[i].record.value, blobs)
  }

  /** Every stored segment reads, and every blob it names resolves. */
  ghost predicate Integrity(segments: SegmentStore, blobs: BlobStore, normalize: Bytes -> Option<Bytes>) {
    forall k | k in segments :: Readable(k, segments[k], normalize) && SegmentResolves(segments[k].value, blobs)
  }

  ghost predicate DistinctIDs(records: seq<Record>) {
    forall i, j | 0 <= i < j < |records| :: records[i].id != records[j].id
  }

  function IDs(records: seq<Record>): set<string> {
    set r | r in records :: r.id
  }

  function References(records: seq<Record>): set<ContentSha> {
    set r | r in records && r.content.External? :: r.content.sha
  }

  lemma SnocIDs(records: seq<Record>, r: Record)
    ensures IDs(records + [r]) == IDs(records) + {r.id}
    ensures References(records + [r]) == References(records) + (if r.content.External? then {r.content.sha} else {})
    ensures DistinctIDs(records + [r]) <==> DistinctIDs(records) && r.id !in IDs(records)
  {
    var more := records + [r];
    assert more[|records|] == r;
    forall x | x in records ensures x in more {}
    if DistinctIDs(more) {
      forall x | x in records ensures x.id != r.id {
        var i :| 0 <= i < |records| && records[i] == x;
        assert more[i].id != more[|records|].id;
      }
      forall i, j | 0 <= i < j < |records| ensures records[i].id != records[j].id {
        assert more[i].id != more[j].id;
      }
    } else {
      var i, j :| 0 <= i < j < |more| && more[i].id == more[j].id;
      assert more[i] in records;
      if j < |records| { assert records[i].id == records[j].id; }
    }
  }

  /** The first n records of a segment repeat no id, and their blobs resolve. */
  ghost predicate CleanUpTo(before: seq<Record>, segment: Segment, n: nat, blobs: BlobStore)
    requires n <= |segment.entries|
  {
    && DistinctIDs(before + RecordsOf(segment)[..n])
    && forall i | 0 <= i < n :: Resolves(segment.entries[i].record.value, blobs)
  }

  lemma CleanStart(before: seq<Record>, segment: Segment, blobs: BlobStore)
    ensures CleanUpTo(before, segment, 0, blobs) <==> DistinctIDs(before)
    ensures IDs(before + RecordsOf(segment)[..0]) == IDs(before) && References(RecordsOf(segment)[..0]) == {}
  {
    assert before + RecordsOf(segment)[..0] == before;
  }

  lemma CleanNext(before: seq<Record>, segment: Segment, i: nat, blobs: BlobStore)
    requires i < |segment.entries|
    ensures var records, r := RecordsOf(segment), segment.entries[i].record.value;
            && (CleanUpTo(before, segment, i + 1, blobs) <==>
                  CleanUpTo(before, segment, i, blobs) && r.id !in IDs(before + records[..i]) && Resolves(r, blobs))
            && IDs(before + records[..i + 1]) == IDs(before + records[..i]) + {r.id}
            && References(records[..i + 1]) == References(records[..i]) + (if r.content.External? then {r.content.sha} else {})
  {
    var records, r := RecordsOf(segment), segment.entries[i].record.value;
    assert before + records[..i + 1] == before + records[..i] + [r];
    assert records[..i + 1] == records[..i] + [r];
    hide DistinctIDs, IDs, References, Resolves;
    SnocIDs(before + records[..i], r);
    SnocIDs(records[..i], r);
  }

  lemma CleanEnd(before: seq<Record>, segment: Segment, blobs: BlobStore)
    ensures CleanUpTo(before, segment, |segment.entries|, blobs) <==>
              DistinctIDs(before + RecordsOf(segment)) && SegmentResolves(segment, blobs)
    ensures RecordsOf(segment)[..|segment.entries|] == RecordsOf(segment)
  {
    assert RecordsOf(segment)[..|segment.entries|] == RecordsOf(segment);
  }

  datatype Issue = SegmentIssue(key: SegmentKey) | DuplicateIssue(key: SegmentKey, id: string) | BlobIssue(sha: ContentSha)

  datatype Verification = Verification(issues: seq<Issue>, orphanBlobs: seq<ContentSha>, records: nat)

  function InConversation(conversationID: string): SegmentKey -> bool {
    (k: SegmentKey) => k.conversationID == conversationID
  }

  function RecordsIn(timeline: seq<(Record, Bytes)>): seq<Record> {
    seq(|timeline|, i requires 0 <= i < |timeline| => timeline[i].0)
  }

  /** A listed record is an entry of a listed segment. */
  lemma EntryOf(store: SegmentStore, keys: seq<SegmentKey>, records: seq<Record>, i: nat, normalize: Bytes -> Option<Bytes>)
    returns (k: SegmentKey, n: nat)
    requires (forall k | k in keys :: k in store) && multiset(records) == multiset(Concat(store, keys)) && i < |records|
    ensures k in keys && n < |store[k].value.entries| && store[k].value.entries[n].record.value == records[i]
  {
    MultisetElements(records, Concat(store, keys));
    assert records[i] in Elements(Concat(store, keys));
    var p :| 0 <= p < |Concat(store, keys)| && Concat(store, keys)[p] == records[i];
    var m;
    m, n := ConcatFrom(store, keys, p);
    k := keys[m];
  }

  /** What the content checks find of an entry of a readable segment. */
  lemma SoundEntry(store: SegmentStore, blobs: BlobStore, k: SegmentKey, n: nat, normalize: Bytes -> Option<Bytes>)
    requires k in store && Readable(k, store[k], normalize) && n < |store[k].value.entries|
    ensures var entry := store[k].value.entries[n];
            && entry.record == Seal(entry.record.value) && ValidRecord(entry.record.value)
            && entry.record.value.conversationID == k.conversationID
            && (entry.record.value.content.Inline? ==> entry.record.value.content.key == k && entry.record.value.content.index == n)
            && (SegmentResolves(store[k].value, blobs) ==> Resolves(entry.record.value, blobs))
  {
    assert ValidEntry(store[k].value, n, normalize);
  }

  /** A listing is empty only if there is nothing to list: readable segments have records. */
  lemma NothingListed(store: SegmentStore, keys: seq<SegmentKey>, conversationID: string, normalize: Bytes -> Option<Bytes>)
    requires forall k | k in keys :: k in store && Readable(k, store[k], normalize)
    requires Elements(keys) == set k | k in store && k.conversationID == conversationID
    ensures Concat(store, keys) == [] <==> forall k | k in store :: k.conversationID != conversationID
  {
    if keys != [] {
      var last := keys[|keys| - 1];
      assert last in Elements(keys) && last in keys;
      assert |RecordsOf(store[last].value)| == |store[last].value.entries|;
    } else {
      assert forall k | k in store && k.conversationID == conversationID :: k in Elements(keys);
    }
  }

  class HistoryReader {
    const blobs: Bucket<ContentSha, Bytes>
    const segments: Bucket<SegmentKey, Sealed<Segment>>
    const normalize: Bytes -> Option<Bytes>

    constructor (blobs: Bucket<ContentSha, Bytes>, segments: Bucket<SegmentKey, Sealed<Segment>>, normalize: Bytes -> Option<Bytes>)
      ensures this.blobs == blobs && this.segments == segments && this.normalize == normalize
    {
      this.blobs, this.segments, this.normalize := blobs, segments, normalize;
    }

    /** The chain of checks between a record and the bytes handed out for it: what comes back is
        the content whose digest and size the record carries. */
    method ReadContent(record: Sealed<Record>) returns (r: Result<Bytes, ReadError>)
      ensures r.Ok? ==> ContentSha(r.value) == record.value.content.sha && |r.value| == record.value.content.size
      ensures r.Err? ==> r.error in {RecordCorrupt, SegmentUnreadable, BlobMissing, BlobUnreadable, BlobCorrupt}
      ensures r == Err(BlobMissing) ==> record.value.content.External? && record.value.content.sha !in blobs.objects
      ensures !Intact(record) || !ValidRecord(record.value) ==> r == Err(RecordCorrupt)
      ensures blobs.reliable && Intact(record) && ValidRecord(record.value) && record.value.content.External? ==>
                (r.Ok? <==> Resolves(record.value, blobs.objects))
      ensures segments.reliable && Intact(record) && ValidRecord(record.value) && record.value.content.Inline?
              && record.value.content.key in segments.objects
              && Readable(record.value.content.key, segments.objects[record.value.content.key], normalize)
              && record.value.content.index < |segments.objects[record.value.content.key].value.entries|
              && segments.objects[record.value.content.key].value.entries[record.value.content.index].record == record
              ==> r.Ok?
    {
      if !Intact(record) || !ValidRecord(record.value) { return Err(RecordCorrupt); }
      match record.value.content {
        case Inline(sha, size, key, index) =>
          var stored := segments.Get(key);
          if stored.Err? || !Readable(key, stored.value, normalize) { return Err(SegmentUnreadable); }
          var segment := stored.value.value;
          if index >= |segment.entries| { return Err(RecordCorrupt); }
          var entry := segment.entries[index];
          if entry.record.value.id != record.value.id || entry.record.digestOf != record.digestOf { return Err(RecordCorrupt); }
          assert ValidEntry(segment, index, normalize);
          r := Ok(entry.content.value);
        case External(sha, size) =>
          var stored := blobs.Get(sha);
          if stored.Err? { return Err(if stored.error.NotFound? then BlobMissing else BlobUnreadable); }
          if ContentSha(stored.value) != sha || |stored.value| != size { return Err(BlobCorrupt); }
          r := Ok(stored.value);
      }
    }

    /** The segments of a conversation read, their blobs resolve, and no record id occurs twice. */
    ghost predicate Sound(conversationID: string)
      reads blobs, segments
    {
      && AllReadable(segments.objects, InConversation(conversationID), normalize)
      && !RepeatsID(segments.objects, InConversation(conversationID))
      && forall k | k in segments.objects && k.conversationID == conversationID :: SegmentResolves(segments.objects[k].value, blobs.objects)
    }

    /** The records of one conversation in listing order, each with its content. On reliable stores a sound
        conversation is refused only if there is none. */
    method Timeline(conversationID: string) returns (r: Result<seq<(Record, Bytes)>, ReadError>)
      ensures r.Ok? ==>
        && r.value != []
        && (forall i | 0 <= i < |r.value| ::
              && r.value[i].0.conversationID == conversationID
              && ContentSha(r.value[i].1) == r.value[i].0.content.sha)
        && (forall i, j | 0 <= i < j < |r.value| :: r.value[i].0.id != r.value[j].0.id)
        && (exists keys ::
              && NoDuplicates(keys) && Elements(keys) == (set k | k in segments.objects && k.conversationID == conversationID)
              && (forall k | k in keys :: k in segments.objects)
              && multiset(RecordsIn(r.value)) == multiset(Concat(segments.objects, keys)))
        && (NoStraddling(Elements(RecordsIn(r.value))) ==> InListingOrder(RecordsIn(r.value)))
      ensures r.Ok? ==> !RepeatsID(segments.objects, InConversation(conversationID))
      ensures r == Err(RepeatedRecord) ==> RepeatsID(segments.objects, InConversation(conversationID))
      ensures r == Err(ConversationNotFound) ==> forall k | k in segments.objects :: k.conversationID != conversationID
      ensures segments.reliable && blobs.reliable && Sound(conversationID) ==>
                (r.Ok? <==> exists k :: k in segments.objects && k.conversationID == conversationID)
                && (r.Err? ==> r == Err(ConversationNotFound))
    {
      hide RepeatsID, Readable, NoStraddling, InListingOrder, RecordLess, SegmentResolves, RecordsOf, Concat;
      var listing := ListRecords(segments, InConversation(conversationID), normalize);
      if listing.Err? { return Err(if listing.error == DuplicateRecord then RepeatedRecord else ListingFailed); }
      var (records, keys) := listing.value;
      assert Elements(keys) == (set k | k in segments.objects && k.conversationID == conversationID);
      assert Sound(conversationID) ==> ListedSound(conversationID, keys) by {
        assert forall k | k in keys :: k in Elements(keys);
      }
      var entries: seq<(Record, Bytes)> := [];
      for i := 0 to |records|
        invariant |entries| == i
        invariant forall j | 0 <= j < i ::
          && entries[j].0 == records[j] && records[j].conversationID == conversationID
          && ContentSha(entries[j].1) == records[j].content.sha
      {
        var content := EntryContent(conversationID, records, i, keys);
        if content.Err? { return Err(content.error); }
        entries := entries + [(records[i], content.value)];
      }
      NothingListed(segments.objects, keys, conversationID, normalize);
      if entries == [] { return Err(ConversationNotFound); }
      assert RecordsIn(entries) == records;
      r := Ok(entries);
    }

    ghost predicate ListedSound(conversationID: string, keys: seq<SegmentKey>)
      reads blobs, segments
    {
      forall k | k in keys :: k in segments.objects && k.conversationID == conversationID && SegmentResolves(segments.objects[k].value, blobs.objects)
    }

    /** The content of a listed record. */
    method EntryContent(conversationID: string, records: seq<Record>, i: nat, ghost keys: seq<SegmentKey>) returns (r: Result<Bytes, ReadError>)
      requires (forall k | k in keys :: k in segments.objects && Readable(k, segments.objects[k], normalize))
      requires multiset(records) == multiset(Concat(segments.objects, keys)) && i < |records|
      ensures r.Ok? ==> records[i].conversationID == conversationID && ContentSha(r.value) == records[i].content.sha
      ensures r.Err? ==> r.error in {RecordCorrupt, SegmentUnreadable, BlobMissing, BlobUnreadable, BlobCorrupt}
      ensures segments.reliable && blobs.reliable && ListedSound(conversationID, keys) ==> r.Ok?
    {
      hide Readable, SegmentResolves, Concat;
      ghost var k, n := EntryOf(segments.objects, keys, records, i, normalize);
      SoundEntry(segments.objects, blobs.objects, k, n, normalize);
      if records[i].conversationID != conversationID { return Err(SegmentUnreadable); }
      r := ReadContent(Seal(records[i]));
    }

    /** Check one entry: its id against those seen, its blob, if it has one, against the store. */
    method VerifyEntry(key: SegmentKey, entry: SegmentEntry, seen: set<string>) returns (issues: seq<Issue>, named: set<ContentSha>)
      requires Intact(entry.record) && ValidRecord(entry.record.value)
      ensures blobs.reliable ==>
                (issues == [] <==> entry.record.value.id !in seen && Resolves(entry.record.value, blobs.objects))
      ensures named == if entry.record.value.content.External? then {entry.record.value.content.sha} else {}
    {
      var r := entry.record.value;
      issues, named := if r.id in seen then [DuplicateIssue(key, r.id)] else [], {};
      if r.content.External? {
        named := {r.content.sha};
        var content := ReadContent(entry.record);
        if content.Err? { issues := issues + [BlobIssue(r.content.sha)]; }
      }
    }

    /** Check one segment's entries against the ids seen so far and against the blobs. */
    method VerifySegment(key: SegmentKey, segment: Segment, seen: set<string>, ghost before: seq<Record>)
      returns (issues: seq<Issue>, seen': set<string>, referenced: set<ContentSha>)
      requires seen == IDs(before) && ValidSegment(segment, normalize)
      ensures blobs.reliable && DistinctIDs(before) ==>
                (issues == [] <==> DistinctIDs(before + RecordsOf(segment)) && SegmentResolves(segment, blobs.objects))
      ensures seen' == IDs(before + RecordsOf(segment))
      ensures referenced == References(RecordsOf(segment))
    {
      var records := RecordsOf(segment);
      assert forall i | 0 <= i < |records| :: ValidEntry(segment, i, normalize);
      issues, seen', referenced := [], seen, {};
      CleanStart(before, segment, blobs.objects);
      for i := 0 to |records|
        invariant seen' == IDs(before + records[..i]) && referenced == References(records[..i])
        invariant blobs.reliable && DistinctIDs(before) ==> (issues == [] <==> CleanUpTo(before, segment, i, blobs.objects))
      {
        assert ValidEntry(segment, i, normalize);
        assert Intact(segment.entries[i].record) && ValidRecord(segment.entries[i].record.value);
        hide *;
        CleanNext(before, segment, i, blobs.objects);
        var found, named := VerifyEntry(key, segment.entries[i], seen');
        issues, seen', referenced := issues + found, seen' + {segment.entries[i].record.value.id}, referenced + named;
      }
      CleanEnd(before, segment, blobs.objects);
    }

    /** Check everything: on a reliable store there are no issues exactly when every segment reads,
        every blob reference resolves and no record id occurs twice; then the orphans are exactly
        the blobs no record refers to. */
    method Verify() returns (r: Result<Verification, ReadError>)
      ensures r.Ok? && blobs.reliable && segments.reliable ==>
        exists keys ::
          && NoDuplicates(keys) && Elements(keys) == segments.objects.Keys
          && (r.value.issues == [] <==> Clean(segments.objects, blobs.objects, keys, normalize))
          && (r.value.issues == [] ==>
                && NoDuplicates(r.value.orphanBlobs)
                && Elements(r.value.orphanBlobs) == blobs.objects.Keys - References(Concat(segments.objects, keys))
                && r.value.records == |Concat(segments.objects, keys)|)
      ensures blobs.reliable && segments.reliable ==> r.Ok?
    {
      hide ValidSegment, Verifies, Decodable, SegmentResolves, DistinctIDs, IDs, References, RecordsOf, Intact, ValidRecord, ValidEntry;
      var blobKeys := blobs.List(_ => true);
      if blobKeys.Err? { return Err(ListingFailed); }
      var segmentKeys := segments.List(_ => true);
      if segmentKeys.Err? { return Err(ListingFailed); }
      var keys := segmentKeys.value;
      assert Elements(keys) == segments.objects.Keys && Elements(blobKeys.value) == blobs.objects.Keys;
      var issues: seq<Issue>, seen: set<string>, referenced: set<ContentSha>, count := [], {}, {}, 0;
      ghost var records: seq<Record> := [];
      CleanNone(segments.objects, blobs.objects, normalize);
      assert keys[..0] == [];
      for i := 0 to |keys|
        invariant seen == IDs(records) && count == |records| && referenced == References(records)
        invariant blobs.reliable && segments.reliable ==> (issues == [] <==> Clean(segments.objects, blobs.objects, keys[..i], normalize))
        invariant segments.reliable && Clean(segments.objects, blobs.objects, keys[..i], normalize) ==> records == Concat(segments.objects, keys[..i])
      {
        assert keys[i] in Elements(keys);
        CleanSnoc(segments.objects, blobs.objects, keys[..i], keys[i], normalize);
        assert keys[..i + 1] == keys[..i] + [keys[i]];
        assert keys[..i + 1][..i] == keys[..i];
        var stored := segments.Get(keys[i]);
        if stored.Err? || !Readable(keys[i], stored.value, normalize) {
          issues := issues + [SegmentIssue(keys[i])];
        } else {
          var segment := stored.value.value;
          count := count + |segment.entries|;
          ReadableIsValid(keys[i], stored.value, normalize);
          var found, seen', named := VerifySegment(keys[i], segment, seen, records);
          ReferencesAppend(records, RecordsOf(segment));
          issues, seen, referenced := issues + found, seen', referenced + named;
          records := records + RecordsOf(segment);
        }
      }
      assert keys[..|keys|] == keys;
      var orphans: seq<ContentSha> := [];
      for i := 0 to |blobKeys.value|
        invariant NoDuplicates(orphans) && Elements(orphans) == Elements(blobKeys.value[..i]) - referenced
      {
        var key := blobKeys.value[i];
        assert blobKeys.value[..i + 1] == blobKeys.value[..i] + [key];
        assert Elements(blobKeys.value[..i + 1]) == Elements(blobKeys.value[..i]) + {key};
        if key !in referenced {
          assert key !in blobKeys.value[..i] && key !in Elements(orphans);
          assert Elements(orphans + [key]) == Elements(orphans) + {key};
          orphans := orphans + [key];
        }
      }
      assert blobKeys.value[..|blobKeys.value|] == blobKeys.value;
      r := Ok(Verification(issues, orphans, count));
    }
  }

  ghost predicate Clean(segments: SegmentStore, blobs: BlobStore, keys: seq<SegmentKey>, normalize: Bytes -> Option<Bytes>) {
    && (forall k | k in keys :: k in segments && Readable(k, segments[k], normalize) && SegmentResolves(segments[k].value, blobs))
    && DistinctIDs(Concat(segments, keys))
  }

  lemma CleanNone(segments: SegmentStore, blobs: BlobStore, normalize: Bytes -> Option<Bytes>)
    ensures Clean(segments, blobs, [], normalize) && Concat(segments, []) == []
    ensures IDs([]) == {} && References([]) == {}
  {
  }

  lemma ReadableIsValid(key: SegmentKey, stored: Sealed<Segment>, normalize: Bytes -> Option<Bytes>)
    requires Readable(key, stored, normalize)
    ensures ValidSegment(stored.value, normalize)
  {
  }

  lemma CleanSnoc(segments: SegmentStore, blobs: BlobStore, keys: seq<SegmentKey>, k: SegmentKey, normalize: Bytes -> Option<Bytes>)
    requires k in segments
    ensures Clean(segments, blobs, keys + [k], normalize) <==>
              && Clean(segments, blobs, keys, normalize)
              && Readable(k, segments[k], normalize) && SegmentResolves(segments[k].value, blobs)
              && DistinctIDs(Concat(segments, keys) + RecordsOf(segments[k].value))
  {
    hide Decodable, Verifies, ValidSegment, SegmentResolves, RecordsOf;
    var more := keys + [k];
    assert more[..|more| - 1] == keys && more[|more| - 1] == k;
    if Clean(segments, blobs, more, normalize) {
      forall j | j in keys ensures j in more {}
      assert k in more;
      var front, all := Concat(segments, keys), Concat(segments, more);
      forall i, j | 0 <= i < j < |front| ensures front[i].id != front[j].id {
        assert all[i] == front[i] && all[j] == front[j];
      }
    }
  }

  lemma ReferencesAppend(a: seq<Record>, b: seq<Record>)
    ensures References(a + b) == References(a) + References(b)
  {
  }
}
