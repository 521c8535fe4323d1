/** Record envelopes and segments: the immutable evidence (history/record.go, history/segment.go). */
module Records {
  import opened Basics
  import opened Sorting
  import opened JsonNesting

  /** The object key of a segment is a hash of its conversation and its own id, so it is
      determined by that pair and determines it. */
  datatype SegmentKey = SegmentKey(conversationID: string, segmentID: string)

  /** Where a record's content lives: inline in the segment, or in a blob named by its digest. */
  datatype ContentRef =
    | Inline(sha: ContentSha, size: nat, key: SegmentKey, index: nat)
    | External(sha: ContentSha, size: nat)

  /** sequence is the number as it stands where the record is: the caller's own in what a call returns,
      the literal that was written, which need not fit in 64 bits, in the stored object. */
  datatype Record = Record(
    id: string,
    conversationID: string,
    kind: string,
    occurredAt: Time,
    recordedAt: Time,
    sequence: Option<nat>,
    traceID: Option<string>,
    spanID: Option<string>,
    parentID: Option<string>,
    agent: Option<string>,
    tool: Option<string>,
    status: Option<string>,
    tags: map<string, string>,
    content: ContentRef)

  datatype SegmentEntry = SegmentEntry(record: Sealed<Record>, content: Option<Bytes>)

  datatype Segment = Segment(
    id: string,
    conversationID: string,
    createdAt: Time,
    entries: seq<SegmentEntry>)

  // ----- Identifier syntax and record validity -----

  predicate Alphanumeric(c: char) {
    'A' <= c <= 'Z' || 'a' <= c <= 'z' || '0' <= c <= '9'
  }

  /** ^[A-Za-z0-9][A-Za-z0-9._:@/-]{0,254}$ */
  predicate ValidID(id: string) {
    && 1 <= |id| <= 255
    && Alphanumeric(id[0])
    && forall i | 1 <= i < |id| :: Alphanumeric(id[i]) || id[i] in "._:@/-"
  }

  predicate ValidOptionalID(id: Option<string>) {
    id.Some? ==> ValidID(id.value)
  }

  predicate ValidRecord(r: Record) {
    && ValidID(r.id) && ValidID(r.conversationID)
    && ValidOptionalID(r.traceID) && ValidOptionalID(r.spanID) && ValidOptionalID(r.parentID)
    && 1 <= Utf8Length(r.kind) <= 128
    && r.occurredAt != ZERO_TIME && r.recordedAt != ZERO_TIME
    && forall k | k in r.tags :: 1 <= Utf8Length(k) <= 128 && Utf8Length(r.tags[k]) <= 1024
  }

  function KeyOf(segment: Segment): SegmentKey {
    SegmentKey(segment.conversationID, segment.id)
  }

  /** Entry i carries a sealed record of this conversation whose content reference is honest. */
  predicate ValidEntry(segment: Segment, i: nat, normalize: Bytes -> Option<Bytes>)
    requires i < |segment.entries|
  {
    var entry := segment.entries[i];
    var r := entry.record.value;
    && Intact(entry.record) && ValidRecord(r)
    && r.conversationID == segment.conversationID
    && match r.content
       case Inline(sha, size, key, index) =>
         && key == KeyOf(segment) && index == i
         && entry.content.Some? && normalize(entry.content.value) == entry.content
         && sha == ContentSha(entry.content.value) && size == |entry.content.value|
       case External(_, _) => entry.content.None?
  }

  predicate DistinctRecordIDs(segment: Segment) {
    forall i, j | 0 <= i < j < |segment.entries| ::
      segment.entries[i].record.value.id != segment.entries[j].record.value.id
  }

  predicate ValidSegment(segment: Segment, normalize: Bytes -> Option<Bytes>) {
    && ValidID(segment.id) && ValidID(segment.conversationID)
    && segment.createdAt != ZERO_TIME && segment.entries != []
    && (forall i | 0 <= i < |segment.entries| :: ValidEntry(segment, i, normalize))
    && DistinctRecordIDs(segment)
  }

  /** The segment verifies and sits under its own key. */
  predicate Verifies(key: SegmentKey, stored: Sealed<Segment>, normalize: Bytes -> Option<Bytes>) {
    Intact(stored) && ValidSegment(stored.value, normalize) && key == KeyOf(stored.value)
  }

  /** A segment wraps inline content in its own object, its list of entries and the entry. */
  const ENVELOPE: nat := 3

  predicate Shallow(content: Bytes) {
    ENVELOPE + Nesting(content) <= MAX_NESTING
  }

  /** The sequence number fits the 64-bit field it is decoded into, and inline content does not take the
      stored object beyond what the decoder follows. */
  predicate DecodableEntry(entry: SegmentEntry) {
    && (entry.record.value.sequence.Some? ==> entry.record.value.sequence.value < UINT64_LIMIT)
    && (entry.content.Some? ==> Shallow(entry.content.value))
  }

  predicate Decodable(segment: Segment) {
    forall i | 0 <= i < |segment.entries| :: DecodableEntry(segment.entries[i])
  }

  /** The read path accepts a stored segment only when it decodes and verifies. */
  predicate Readable(key: SegmentKey, stored: Sealed<Segment>, normalize: Bytes -> Option<Bytes>) {
    Decodable(stored.value) && Verifies(key, stored, normalize)
  }

  /** A stored segment is read only as it was sealed and where it belongs: a change in anything the digest is
      taken of, in a record's own digest, or in inline content is noticed. */
  lemma TamperedSegmentRefused(key: SegmentKey, genuine: Segment, other: Segment, normalize: Bytes -> Option<Bytes>)
    ensures other != genuine ==> !Verifies(key, Sealed(other, genuine), normalize)
    ensures key != SegmentKey(genuine.conversationID, genuine.id) ==> !Verifies(key, Seal(genuine), normalize)
    ensures Verifies(key, Seal(genuine), normalize) ==>
              forall i | 0 <= i < |genuine.entries| ::
                && genuine.entries[i].record.digestOf == genuine.entries[i].record.value
                && genuine.entries[i].record.value.conversationID == key.conversationID
                && (genuine.entries[i].content.Some? ==>
                      && ContentSha(genuine.entries[i].content.value) == genuine.entries[i].record.value.content.sha
                      && |genuine.entries[i].content.value| == genuine.entries[i].record.value.content.size)
                && (forall j | 0 <= j < i :: genuine.entries[j].record.value.id != genuine.entries[i].record.value.id)
  {
    if Verifies(key, Seal(genuine), normalize) {
      forall i | 0 <= i < |genuine.entries|
        ensures ValidEntry(genuine, i, normalize)
        ensures forall j | 0 <= j < i :: genuine.entries[j].record.value.id != genuine.entries[i].record.value.id
      {
      }
    }
  }

  function RecordsOf(segment: Segment): (r: seq<Record>)
    ensures |r| == |segment.entries|
    ensures forall i | 0 <= i < |r| :: r[i] == segment.entries[i].record.value
  {
    seq(|segment.entries|, i requires 0 <= i < |segment.entries| => segment.entries[i].record.value)
  }
}
