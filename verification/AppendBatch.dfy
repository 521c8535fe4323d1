/** Building, comparing and committing segments (history/segment.go). */
module AppendBatch {
  import opened Basics
  import opened Sorting
  import opened Records
  import opened JsonNesting
  import opened Aggregates
  import opened ObjectStore
  import opened Projection

  /** 2^53 */
  const EXACT: nat := 0x20_0000_0000_0000

  /** The service's limits, with the library functions it calls. sequenceAsWritten is the integer the
      canonical encoding writes for a sequence number: the shortest decimal form of the nearest IEEE
      double (RFC 8785, section 3.2.2.3). */
  datatype Config = Config(
    maxContentBytes: nat,
    maxInlineContentBytes: nat,
    maxSegmentBytes: nat,
    maxSegmentRecords: nat,
    normalize: Bytes -> Option<Bytes>,
    encodedSize: Segment -> nat,
    sequenceAsWritten: UInt64 -> nat)
  {
    /** Doubles are exact up to 2^53; 2^53 + 1 is half way between two and rounds to the even one. The
        greatest below 2^64 is 2^64 - 2048, written with a smaller number than 2^64; from half way on
        numbers round to 2^64 itself, written 18446744073709552000. What is written is read as the same
        double, so writing it again changes nothing. Normalizing decodes the content by itself, and
        does not nest it deeper. */
    ghost predicate Lawful() {
      && (forall b :: normalize(b).Some? ==> normalize(normalize(b).value) == normalize(b))
      && (forall b :: normalize(b).Some? ==> Nesting(normalize(b).value) <= Nesting(b) <= MAX_NESTING)
      && (forall n: UInt64 :: n <= EXACT ==> sequenceAsWritten(n) == n)
      && sequenceAsWritten(EXACT + 1) == EXACT
      && (forall n: UInt64 :: sequenceAsWritten(n) < UINT64_LIMIT <==> n < UINT64_LIMIT - 1024)
      && (forall n: UInt64 :: sequenceAsWritten(n) < UINT64_LIMIT ==> sequenceAsWritten(sequenceAsWritten(n)) == sequenceAsWritten(n))
    }

    /** What a reader decodes for a sequence number; None when what was written does not decode. */
    function SequenceAsStored(n: UInt64): Option<UInt64> {
      if sequenceAsWritten(n) < UINT64_LIMIT then Some(sequenceAsWritten(n)) else None
    }
  }

  /** One record of a batch. An empty record id or a missing instant is filled in by the service. */
  datatype AppendInput = AppendInput(
    recordID: string,
    conversationID: string,
    kind: string,
    content: Bytes,
    occurredAt: Option<Time>,
    sequence: Option<UInt64>,
    traceID: Option<string>,
    spanID: Option<string>,
    parentID: Option<string>,
    agent: Option<string>,
    tool: Option<string>,
    status: Option<string>,
    tags: map<string, string>)

  datatype AppendError =
    | InvalidBatch | SegmentTooLarge | InvalidJson | ContentTooLarge | InvalidRecord | InvalidSegment
    | BlobWriteFailed | SegmentWriteFailed | SegmentReadFailed | SegmentCorrupt
    | IdempotencyConflict | ProjectionWriteFailed

  /** What is fixed before any record is looked at: the key, the clock, and the fresh ids that
      records without one would get. */
  datatype Plan = Plan(key: SegmentKey, now: Time, freshIDs: seq<string>)

  // ----- Building a segment -----

  function WrittenSequence(cfg: Config, sequence: Option<UInt64>): Option<nat> {
    if sequence.Some? then Some(cfg.sequenceAsWritten(sequence.value)) else None
  }

  /** The record built for input i, with its number as it is written. */
  function BuildRecord(cfg: Config, plan: Plan, i: nat, input: AppendInput, content: Bytes): Record
    requires i < |plan.freshIDs|
  {
    var sha := ContentSha(content);
    Record(
      if input.recordID == "" then plan.freshIDs[i] else input.recordID,
      plan.key.conversationID, input.kind,
      if input.occurredAt.Some? then input.occurredAt.value else plan.now, plan.now,
      WrittenSequence(cfg, input.sequence),
      input.traceID, input.spanID, input.parentID, input.agent, input.tool, input.status, input.tags,
      if |content| <= cfg.maxInlineContentBytes then Inline(sha, |content|, plan.key, i) else External(sha, |content|))
  }

  function BuildEntry(cfg: Config, plan: Plan, i: nat, input: AppendInput, content: Bytes): SegmentEntry
    requires i < |plan.freshIDs|
  {
    SegmentEntry(Seal(BuildRecord(cfg, plan, i, input, content)),
                 if |content| <= cfg.maxInlineContentBytes then Some(content) else None)
  }

  function InlineSize(entry: SegmentEntry): nat {
    if entry.content.Some? then |entry.content.value| else 0
  }

  function InlineTotal(entries: seq<SegmentEntry>): nat {
    if entries == [] then 0 else InlineTotal(entries[..|entries| - 1]) + InlineSize(entries[|entries| - 1])
  }

  /** Input i is acceptable after the entries already built. */
  predicate Acceptable(cfg: Config, plan: Plan, i: nat, input: AppendInput, built: seq<SegmentEntry>)
    requires i < |plan.freshIDs|
  {
    var content := cfg.normalize(input.content);
    && content.Some? && |content.value| <= cfg.maxContentBytes
    && InlineTotal(built) + InlineSize(BuildEntry(cfg, plan, i, input, content.value)) <= cfg.maxSegmentBytes
    && ValidRecord(BuildRecord(cfg, plan, i, input, content.value))
  }

  /** The entries of a batch of acceptable inputs. */
  function BuildEntries(cfg: Config, plan: Plan, inputs: seq<AppendInput>): (r: Option<seq<SegmentEntry>>)
    requires |inputs| <= |plan.freshIDs|
    ensures r.Some? ==> |r.value| == |inputs|
  {
    if inputs == [] then Some([])
    else
      var i := |inputs| - 1;
      var front := BuildEntries(cfg, plan, inputs[..i]);
      if front.None? || !Acceptable(cfg, plan, i, inputs[i], front.value) then None
      else Some(front.value + [BuildEntry(cfg, plan, i, inputs[i], cfg.normalize(inputs[i].content).value)])
  }

  predicate UniformBatch(inputs: seq<AppendInput>) {
    inputs != [] && forall i | 0 <= i < |inputs| :: inputs[i].conversationID == inputs[0].conversationID
  }

  /** The segment a batch commits, when every check passes. */
  function BuildSegment(cfg: Config, plan: Plan, inputs: seq<AppendInput>): (r: Option<Segment>)
    requires |inputs| <= |plan.freshIDs|
  {
    if !UniformBatch(inputs) || |inputs| > cfg.maxSegmentRecords then None
    else if inputs[0].conversationID != plan.key.conversationID || !ValidID(plan.key.conversationID) || !ValidID(plan.key.segmentID) then None
    else
      var entries := BuildEntries(cfg, plan, inputs);
      if entries.None? then None
      else
        var segment := Segment(plan.key.segmentID, plan.key.conversationID, plan.now, entries.value);
        if ValidSegment(segment, cfg.normalize) && cfg.encodedSize(segment) <= cfg.maxSegmentBytes then Some(segment) else None
  }

  /** The content of an input that goes inline is shallow enough to be read again. */
  predicate ShallowInput(cfg: Config, input: AppendInput) {
    var content := cfg.normalize(input.content);
    content.Some? && |content.value| <= cfg.maxInlineContentBytes ==> Shallow(content.value)
  }

  predicate AllShallow(cfg: Config, inputs: seq<AppendInput>) {
    forall i | 0 <= i < |inputs| :: ShallowInput(cfg, inputs[i])
  }

  /** Every record of a batch decodes again once it has been stored. */
  predicate DecodableInput(cfg: Config, input: AppendInput) {
    (input.sequence.Some? ==> cfg.SequenceAsStored(input.sequence.value).Some?) && ShallowInput(cfg, input)
  }

  predicate AllDecode(cfg: Config, inputs: seq<AppendInput>) {
    forall i | 0 <= i < |inputs| :: DecodableInput(cfg, inputs[i])
  }

  /** Which a caller can tell beforehand, in part from the content as it is sent. */
  lemma AllDecodeIff(cfg: Config, inputs: seq<AppendInput>)
    requires cfg.Lawful()
    ensures AllDecode(cfg, inputs) <==>
              && AllShallow(cfg, inputs)
              && forall i | 0 <= i < |inputs| :: inputs[i].sequence.Some? ==> inputs[i].sequence.value < UINT64_LIMIT - 1024
    ensures (forall i | 0 <= i < |inputs| :: Shallow(inputs[i].content)) ==> AllShallow(cfg, inputs)
  {
    hide Nesting;
    forall i | 0 <= i < |inputs| && inputs[i].sequence.Some?
      ensures cfg.SequenceAsStored(inputs[i].sequence.value).Some? <==> inputs[i].sequence.value < UINT64_LIMIT - 1024
    {
      var n: UInt64 := inputs[i].sequence.value;
      assert cfg.sequenceAsWritten(n) < UINT64_LIMIT <==> n < UINT64_LIMIT - 1024;
    }
  }

  /** A committed batch reads back exactly when its records decode. */
  lemma BuiltReadableIff(cfg: Config, plan: Plan, inputs: seq<AppendInput>)
    requires |inputs| <= |plan.freshIDs| && BuildSegment(cfg, plan, inputs).Some?
    ensures var segment := BuildSegment(cfg, plan, inputs).value;
            && Verifies(plan.key, Seal(segment), cfg.normalize)
            && (Decodable(segment) <==> AllDecode(cfg, inputs))
            && (Readable(plan.key, Seal(segment), cfg.normalize) <==> AllDecode(cfg, inputs))
  {
    hide ValidSegment, Acceptable, Shallow;
    var segment := BuildSegment(cfg, plan, inputs).value;
    forall i | 0 <= i < |inputs| ensures DecodableEntry(segment.entries[i]) <==> DecodableInput(cfg, inputs[i]) {
      BuildEntriesAt(cfg, plan, inputs, i);
    }
  }

  /** The blobs a segment refers to, which must be written before it. */
  function BlobsOf(entries: seq<SegmentEntry>): seq<Bytes> {
    if entries == [] then []
    else
      BlobsOf(entries[..|entries| - 1]) +
      match entries[|entries| - 1].record.value.content
      case External(sha, _) => [sha.preimage]
      case Inline(_, _, _, _) => []
  }

  lemma {:induction false} BlobsOfMember(entries: seq<SegmentEntry>, i: nat)
    requires i < |entries| && entries[i].record.value.content.External?
    ensures entries[i].record.value.content.sha.preimage in BlobsOf(entries)
  {
    if i < |entries| - 1 { BlobsOfMember(entries[..|entries| - 1], i); }
  }

  lemma {:induction false} BuildEntriesAt(cfg: Config, plan: Plan, inputs: seq<AppendInput>, i: nat)
    requires |inputs| <= |plan.freshIDs| && BuildEntries(cfg, plan, inputs).Some? && i < |inputs|
    ensures cfg.normalize(inputs[i].content).Some?
    ensures BuildEntries(cfg, plan, inputs).value[i] == BuildEntry(cfg, plan, i, inputs[i], cfg.normalize(inputs[i].content).value)
    ensures ValidRecord(BuildEntries(cfg, plan, inputs).value[i].record.value)
  {
    if i < |inputs| - 1 { BuildEntriesAt(cfg, plan, inputs[..|inputs| - 1], i); }
  }

  /** With an idempotent normaliser the service's self-check can only fail for repeated ids: every
      other rule of segment validity holds by construction. */
  lemma BuiltSegmentValid(cfg: Config, plan: Plan, inputs: seq<AppendInput>)
    requires cfg.Lawful() && plan.now != ZERO_TIME
    requires |inputs| <= |plan.freshIDs| && inputs != [] && BuildEntries(cfg, plan, inputs).Some?
    requires ValidID(plan.key.conversationID) && ValidID(plan.key.segmentID)
    ensures var segment := Segment(plan.key.segmentID, plan.key.conversationID, plan.now, BuildEntries(cfg, plan, inputs).value);
            ValidSegment(segment, cfg.normalize) <==> DistinctRecordIDs(segment)
  {
    var segment := Segment(plan.key.segmentID, plan.key.conversationID, plan.now, BuildEntries(cfg, plan, inputs).value);
    forall i | 0 <= i < |segment.entries| ensures ValidEntry(segment, i, cfg.normalize) {
      BuildEntriesAt(cfg, plan, inputs, i);
    }
  }

  /** The contents of a batch that are too large to inline: the same whenever it is built. */
  function LargeContents(cfg: Config, inputs: seq<AppendInput>): seq<Bytes> {
    if inputs == [] then []
    else
      var content := cfg.normalize(inputs[|inputs| - 1].content);
      LargeContents(cfg, inputs[..|inputs| - 1])
      + if content.Some? && |content.value| > cfg.maxInlineContentBytes then [content.value] else []
  }

  lemma {:induction false} BlobsAreLargeContents(cfg: Config, plan: Plan, inputs: seq<AppendInput>)
    requires |inputs| <= |plan.freshIDs| && BuildEntries(cfg, plan, inputs).Some?
    ensures BlobsOf(BuildEntries(cfg, plan, inputs).value) == LargeContents(cfg, inputs)
  {
    if inputs != [] {
      var i := |inputs| - 1;
      BlobsAreLargeContents(cfg, plan, inputs[..i]);
      var entries := BuildEntries(cfg, plan, inputs).value;
      assert entries[..i] == BuildEntries(cfg, plan, inputs[..i]).value;
    }
  }

  // ----- Comparing a retry with what is stored -----

  /** The comparison of sameBatch at one position: supplied fields must agree. */
  predicate SameEntry(entry: SegmentEntry, candidate: AppendInput, normalize: Bytes -> Option<Bytes>) {
    var content := normalize(candidate.content);
    var r := entry.record.value;
    && content.Some?
    && (r.content.Inline? ==> entry.content == content)
    && r.content.sha == ContentSha(content.value) && r.content.size == |content.value|
    && (candidate.recordID == "" || candidate.recordID == r.id)
    && (candidate.occurredAt.None? || candidate.occurredAt.value == r.occurredAt)
    && candidate.conversationID == r.conversationID && candidate.kind == r.kind && candidate.sequence == r.sequence
    && candidate.traceID == r.traceID && candidate.spanID == r.spanID && candidate.parentID == r.parentID
    && candidate.agent == r.agent && candidate.tool == r.tool && candidate.status == r.status
    && candidate.tags == r.tags
  }

  predicate SameBatch(existing: Segment, inputs: seq<AppendInput>, normalize: Bytes -> Option<Bytes>) {
    && |existing.entries| == |inputs|
    && forall i | 0 <= i < |inputs| :: SameEntry(existing.entries[i], inputs[i], normalize)
  }

  method CompareBatch(existing: Segment, inputs: seq<AppendInput>, normalize: Bytes -> Option<Bytes>) returns (same: bool)
    ensures same == SameBatch(existing, inputs, normalize)
  {
    if |existing.entries| != |inputs| { return false; }
    for i := 0 to |inputs|
      invariant forall j | 0 <= j < i :: SameEntry(existing.entries[j], inputs[j], normalize)
    {
      if !SameEntry(existing.entries[i], inputs[i], normalize) { return false; }
    }
    same := true;
  }

  /** Two requests ask for the same record: same canonical content and same fields, where the
      later one may leave the id and the instant to the service. first is what was committed. */
  ghost predicate SameRequest(cfg: Config, plan: Plan, i: nat, first: AppendInput, later: AppendInput)
    requires i < |plan.freshIDs|
  {
    && cfg.normalize(first.content) == cfg.normalize(later.content)
    && (later.recordID == "" || later.recordID == (if first.recordID == "" then plan.freshIDs[i] else first.recordID))
    && (later.occurredAt.None? || later.occurredAt == Some(if first.occurredAt.Some? then first.occurredAt.value else plan.now))
    && later.conversationID == first.conversationID && later.kind == first.kind
    && later.sequence == WrittenSequence(cfg, first.sequence)
    && later.traceID == first.traceID && later.spanID == first.spanID && later.parentID == first.parentID
    && later.agent == first.agent && later.tool == first.tool && later.status == first.status
    && later.tags == first.tags
  }

  ghost predicate Equivalent(cfg: Config, plan: Plan, first: seq<AppendInput>, later: seq<AppendInput>)
    requires |first| <= |plan.freshIDs|
  {
    && |first| == |later|
    && forall i | 0 <= i < |first| :: SameRequest(cfg, plan, i, first[i], later[i])
  }

  /** A later batch is accepted as a retry of a committed one exactly when it is equivalent: any other
      canonical content or supplied field conflicts, where a sequence number is compared with the
      committed one as it was written (RoundedRetryIff). */
  lemma SameBatchIffEquivalent(cfg: Config, plan: Plan, first: seq<AppendInput>, later: seq<AppendInput>)
    requires |first| <= |plan.freshIDs| && BuildSegment(cfg, plan, first).Some?
    ensures SameBatch(BuildSegment(cfg, plan, first).value, later, cfg.normalize) <==> Equivalent(cfg, plan, first, later)
  {
    var segment := BuildSegment(cfg, plan, first).value;
    if |first| == |later| {
      forall i | 0 <= i < |first|
        ensures SameEntry(segment.entries[i], later[i], cfg.normalize) <==> SameRequest(cfg, plan, i, first[i], later[i])
      {
        BuildEntriesAt(cfg, plan, first, i);
        assert first[i].conversationID == plan.key.conversationID;
      }
    }
  }

  /** The same batch sent again reads its segment back and finds it the same exactly when its inline
      content is shallow and its sequence numbers survive the canonical number encoding; up to 2^53 they
      always do. */
  lemma OwnRetryIff(cfg: Config, plan: Plan, inputs: seq<AppendInput>)
    requires |inputs| <= |plan.freshIDs| && BuildSegment(cfg, plan, inputs).Some?
    ensures Readable(plan.key, Seal(BuildSegment(cfg, plan, inputs).value), cfg.normalize)
            && SameBatch(BuildSegment(cfg, plan, inputs).value, inputs, cfg.normalize)
       <==> Survives(cfg, inputs) && AllShallow(cfg, inputs)
    ensures SameBatch(BuildSegment(cfg, plan, inputs).value, inputs, cfg.normalize) <==> Survives(cfg, inputs)
    ensures cfg.Lawful() && (forall i | 0 <= i < |inputs| :: inputs[i].sequence.Some? ==> inputs[i].sequence.value <= EXACT)
       ==> Survives(cfg, inputs)
  {
    hide BuildSegment, Readable, SameBatch, ShallowInput;
    BuiltReadableIff(cfg, plan, inputs);
    SameBatchIffEquivalent(cfg, plan, inputs, inputs);
    forall i | 0 <= i < |inputs|
      ensures SameRequest(cfg, plan, i, inputs[i], inputs[i]) <==>
              (inputs[i].sequence.Some? ==> cfg.sequenceAsWritten(inputs[i].sequence.value) == inputs[i].sequence.value)
    {
      BuiltNormalized(cfg, plan, inputs, i);
    }
  }

  predicate Survives(cfg: Config, inputs: seq<AppendInput>) {
    forall i | 0 <= i < |inputs| :: inputs[i].sequence.Some? ==>
      cfg.SequenceAsStored(inputs[i].sequence.value) == Some(inputs[i].sequence.value)
  }

  // ----- What a call returns -----

  function WithNumber(entry: SegmentEntry, sequence: Option<UInt64>): SegmentEntry {
    entry.(record := entry.record.(value := entry.record.value.(sequence := sequence)))
  }

  /** A segment as the call that built it holds it: with the numbers it was given. The digests in it are
      of what is written. */
  function WithNumbers(segment: Segment, inputs: seq<AppendInput>): Segment {
    segment.(entries := seq(|segment.entries|, i requires 0 <= i < |segment.entries| =>
      if i < |inputs| then WithNumber(segment.entries[i], inputs[i].sequence) else segment.entries[i]))
  }

  /** The numbers of a segment in memory, as they are written. */
  function AsWritten(cfg: Config, segment: Segment): Segment {
    segment.(entries := seq(|segment.entries|, i requires 0 <= i < |segment.entries| => EntryAsWritten(cfg, segment.entries[i])))
  }

  function EntryAsWritten(cfg: Config, entry: SegmentEntry): SegmentEntry {
    entry.(record := entry.record.(value := entry.record.value.(sequence := NumberAsWritten(cfg, entry.record.value.sequence))))
  }

  function NumberAsWritten(cfg: Config, n: Option<nat>): Option<nat> {
    if n.Some? && n.value < UINT64_LIMIT then Some(cfg.sequenceAsWritten(n.value)) else n
  }

  /** Writing a number that was read changes nothing, so stored records are written as they are. */
  lemma WritingIsStable(cfg: Config, plan: Plan, inputs: seq<AppendInput>, i: nat)
    requires cfg.Lawful() && |inputs| <= |plan.freshIDs| && BuildSegment(cfg, plan, inputs).Some? && i < |inputs|
    ensures forall n: Option<nat> :: NumberAsWritten(cfg, NumberAsWritten(cfg, n)) == NumberAsWritten(cfg, n)
    ensures var stored := BuildSegment(cfg, plan, inputs).value;
            |stored.entries| == |inputs| && EntryAsWritten(cfg, stored.entries[i]) == stored.entries[i]
  {
    BuildEntriesAt(cfg, plan, inputs, i);
    forall n: Option<nat> ensures NumberAsWritten(cfg, NumberAsWritten(cfg, n)) == NumberAsWritten(cfg, n) {
      if n.Some? && n.value < UINT64_LIMIT {
        var m: UInt64 := n.value;
        assert cfg.sequenceAsWritten(m) < UINT64_LIMIT ==> cfg.sequenceAsWritten(cfg.sequenceAsWritten(m)) == cfg.sequenceAsWritten(m);
      }
    }
  }

  /** What is stored for a batch is what the call holds, as written; it holds what is stored exactly when
      the numbers survive. */
  lemma StoredIsWritten(cfg: Config, plan: Plan, inputs: seq<AppendInput>)
    requires |inputs| <= |plan.freshIDs| && BuildSegment(cfg, plan, inputs).Some?
    ensures var stored := BuildSegment(cfg, plan, inputs).value;
            && |stored.entries| == |inputs|
            && AsWritten(cfg, WithNumbers(stored, inputs)) == stored
            && (WithNumbers(stored, inputs) == stored <==> Survives(cfg, inputs))
  {
    hide ValidSegment, Acceptable, ValidRecord;
    var stored := BuildSegment(cfg, plan, inputs).value;
    var held := WithNumbers(stored, inputs);
    forall i | 0 <= i < |inputs|
      ensures stored.entries[i].record.value.sequence == WrittenSequence(cfg, inputs[i].sequence)
      ensures EntryAsWritten(cfg, held.entries[i]) == stored.entries[i]
    {
      BuildEntriesAt(cfg, plan, inputs, i);
    }
    assert AsWritten(cfg, held).entries == stored.entries;
    if Survives(cfg, inputs) {
      assert held.entries == stored.entries;
    } else {
      var i :| 0 <= i < |inputs| && inputs[i].sequence.Some? && cfg.SequenceAsStored(inputs[i].sequence.value) != Some(inputs[i].sequence.value);
      assert held.entries[i].record.value.sequence == inputs[i].sequence;
    }
  }

  /** A batch that matches a stored segment has its numbers. */
  lemma MatchingNumbers(segment: Segment, inputs: seq<AppendInput>, normalize: Bytes -> Option<Bytes>)
    requires SameBatch(segment, inputs, normalize)
    ensures WithNumbers(segment, inputs) == segment
  {
    forall i | 0 <= i < |inputs| ensures WithNumber(segment.entries[i], inputs[i].sequence) == segment.entries[i] {
      assert SameEntry(segment.entries[i], inputs[i], normalize);
    }
    assert WithNumbers(segment, inputs).entries == segment.entries;
  }

  /** Under lawful number encoding its numbers survive, since what is stored was written. */
  lemma MatchingSurvives(cfg: Config, plan: Plan, first: seq<AppendInput>, inputs: seq<AppendInput>)
    requires cfg.Lawful() && |first| <= |plan.freshIDs| && BuildSegment(cfg, plan, first).Some?
    requires SameBatch(BuildSegment(cfg, plan, first).value, inputs, cfg.normalize)
    ensures Survives(cfg, inputs)
    ensures AllShallow(cfg, inputs) <==> AllShallow(cfg, first)
  {
    SameBatchIffEquivalent(cfg, plan, first, inputs);
    hide BuildSegment, SameBatch, Shallow;
    forall i | 0 <= i < |inputs|
      ensures inputs[i].sequence.Some? ==> cfg.SequenceAsStored(inputs[i].sequence.value) == Some(inputs[i].sequence.value)
      ensures ShallowInput(cfg, inputs[i]) <==> ShallowInput(cfg, first[i])
    {
      assert SameRequest(cfg, plan, i, first[i], inputs[i]);
    }
  }

  lemma {:induction false} BlobsUnnumberedUpTo(segment: Segment, inputs: seq<AppendInput>, n: nat)
    requires n <= |segment.entries|
    ensures BlobsOf(WithNumbers(segment, inputs).entries[..n]) == BlobsOf(segment.entries[..n])
  {
    var held := WithNumbers(segment, inputs).entries;
    if n > 0 {
      BlobsUnnumberedUpTo(segment, inputs, n - 1);
      assert held[..n][..n - 1] == held[..n - 1] && segment.entries[..n][..n - 1] == segment.entries[..n - 1];
    }
  }

  lemma BlobsUnnumbered(segment: Segment, inputs: seq<AppendInput>)
    ensures BlobsOf(WithNumbers(segment, inputs).entries) == BlobsOf(segment.entries)
  {
    var held := WithNumbers(segment, inputs).entries;
    BlobsUnnumberedUpTo(segment, inputs, |held|);
    assert held[..|held|] == held && segment.entries[..|held|] == segment.entries;
  }

  /** The numbers of an aggregate's records do not show in it. */
  lemma {:induction false} NumbersUnseen(a: seq<Record>, b: seq<Record>)
    requires |a| == |b| && forall i | 0 <= i < |a| :: a[i].(sequence := None) == b[i].(sequence := None)
    ensures Summarize(a) == Summarize(b)
  {
    if a != [] {
      var n := |a| - 1;
      NumbersUnseen(a[..n], b[..n]);
      assert a[n].(sequence := None) == b[n].(sequence := None);
    }
  }

  /** So the delta a call derives from what it holds is that of what it stored. */
  lemma DeltaUnseen(key: SegmentKey, segment: Segment, inputs: seq<AppendInput>)
    requires OneConversation(RecordsOf(segment))
    ensures OneConversation(RecordsOf(WithNumbers(segment, inputs)))
    ensures DeltaOf(key, WithNumbers(segment, inputs)).(sourceDigestOf := segment) == DeltaOf(key, segment)
  {
    var held := WithNumbers(segment, inputs);
    var a, b := RecordsOf(held), RecordsOf(segment);
    assert forall i | 0 <= i < |a| :: a[i].(sequence := None) == b[i].(sequence := None);
    forall r | r in a ensures r.conversationID == a[0].conversationID {
      var i :| 0 <= i < |a| && a[i] == r;
      assert b[i] in b && b[0] in b;
    }
    NumbersUnseen(a, b);
    OneConversationSummary(a);
    OneConversationSummary(b);
  }

  /** Some other batch, with other sequence numbers, passes for a retry of a readable one if and only if
      not all numbers of the first survive. */
  lemma RoundedRetryIff(cfg: Config, plan: Plan, first: seq<AppendInput>)
    requires |first| <= |plan.freshIDs| && BuildSegment(cfg, plan, first).Some?
    ensures AllDecode(cfg, first) && !Survives(cfg, first) <==>
              && Readable(plan.key, Seal(BuildSegment(cfg, plan, first).value), cfg.normalize)
              && exists later: seq<AppendInput> :: SameBatch(BuildSegment(cfg, plan, first).value, later, cfg.normalize) && OtherNumbers(first, later)
  {
    hide BuildSegment, SameBatch, Readable, ShallowInput;
    BuiltReadableIff(cfg, plan, first);
    var stored := BuildSegment(cfg, plan, first).value;
    if AllDecode(cfg, first) && !Survives(cfg, first) {
      var later := seq(|first|, i requires 0 <= i < |first| => first[i].(sequence := ReadNumber(cfg, first[i].sequence)));
      var n :| 0 <= n < |first| && first[n].sequence.Some? && cfg.SequenceAsStored(first[n].sequence.value) != Some(first[n].sequence.value);
      assert DecodableInput(cfg, first[n]);
      assert later[n].sequence != first[n].sequence;
      forall i | 0 <= i < |first| ensures SameRequest(cfg, plan, i, first[i], later[i]) {
        assert DecodableInput(cfg, first[i]);
      }
      SameBatchIffEquivalent(cfg, plan, first, later);
    }
    if later: seq<AppendInput> :| SameBatch(stored, later, cfg.normalize) && OtherNumbers(first, later) {
      SameBatchIffEquivalent(cfg, plan, first, later);
      var n :| 0 <= n < |first| && n < |later| && later[n].sequence != first[n].sequence;
      assert SameRequest(cfg, plan, n, first[n], later[n]);
    }
  }

  predicate OtherNumbers(first: seq<AppendInput>, later: seq<AppendInput>) {
    |later| == |first| && exists i | 0 <= i < |first| :: later[i].sequence != first[i].sequence
  }

  /** The number a reader sees for one that decodes. */
  function ReadNumber(cfg: Config, sequence: Option<UInt64>): Option<UInt64> {
    if sequence.Some? then cfg.SequenceAsStored(sequence.value) else None
  }

  lemma BuiltNormalized(cfg: Config, plan: Plan, inputs: seq<AppendInput>, i: nat)
    requires |inputs| <= |plan.freshIDs| && BuildSegment(cfg, plan, inputs).Some? && i < |inputs|
    ensures cfg.normalize(inputs[i].content).Some?
  {
    BuildEntriesAt(cfg, plan, inputs, i);
  }

  // ----- Blobs -----

  /** The object keys of a segment's blobs are digests of their bytes. */
  type BlobStore = map<ContentSha, Bytes>

  ghost predicate BlobsPresent(blobs: BlobStore, needed: seq<Bytes>) {
    forall b | b in needed :: ContentSha(b) in blobs && blobs[ContentSha(b)] == b
  }

  /** Blobs sit under their own digests. */
  ghost predicate HonestBlobs(blobs: BlobStore) {
    forall k | k in blobs :: blobs[k] == k.preimage
  }

  lemma ValidSegmentHasOneConversation(segment: Segment, normalize: Bytes -> Option<Bytes>)
    requires ValidSegment(segment, normalize)
    ensures OneConversation(RecordsOf(segment))
  {
    assert ValidEntry(segment, 0, normalize);
    var records := RecordsOf(segment);
    forall r | r in records ensures r.conversationID == segment.conversationID {
      var i :| 0 <= i < |records| && records[i] == r;
      assert ValidEntry(segment, i, normalize);
    }
  }

  /** A refused prefix refuses the batch. */
  lemma {:induction false} PrefixRefused(cfg: Config, plan: Plan, inputs: seq<AppendInput>, n: nat)
    requires n <= |inputs| <= |plan.freshIDs| && BuildEntries(cfg, plan, inputs[..n]).None?
    ensures BuildEntries(cfg, plan, inputs).None?
    decreases |inputs| - n
  {
    if n < |inputs| {
      assert inputs[..n + 1][..n] == inputs[..n];
      PrefixRefused(cfg, plan, inputs, n + 1);
    } else {
      assert inputs[..n] == inputs;
    }
  }
}
