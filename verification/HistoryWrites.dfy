/** The append operation as the service carries it out, step by step of the commit protocol
    (history/segment.go, history/conversation_projection.go). */
module HistoryWrites {
  import opened Basics
  import opened Sorting
  import opened Records
  import opened Aggregates
  import opened ObjectStore
  import opened Projection
  import opened ConversationView
  import opened AppendBatch
  import opened CommitProtocol
  import opened CommitTheorems

  // ----- Traces -----

  /** The protocol steps one operation takes, from the state it starts in. */
  datatype Trace = Trace(start: System, states: seq<System>, steps: seq<Step>)

  ghost predicate Leads(cfg: Config, t: Trace, s: System) {
    RunFrom(cfg, t.start, t.states, t.steps) && t.states[|t.steps|] == s
  }

  function Begun(s: System): Trace {
    Trace(s, [s], [])
  }

  lemma BegunLeads(cfg: Config, s: System)
    ensures Leads(cfg, Begun(s), s)
  {
  }

  /** One more step, to the state it is said to lead to. */
  lemma Extend(cfg: Config, t: Trace, s: System, step: Step, next: System) returns (t': Trace)
    requires Leads(cfg, t, s) && Enabled(cfg, s, step) && next == After(cfg, s, step)
    ensures Leads(cfg, t', next) && t'.start == t.start && t'.steps == t.steps + [step]
  {
    hide Enabled, After;
    FromSnoc(cfg, t.start, t.states, t.steps, step);
    t' := Trace(t.start, t.states + [next], t.steps + [step]);
  }

  /** A state in which this call is the only one. */
  function At(s: System, plan: Plan, inputs: seq<AppendInput>, phase: Phase): System {
    s.(calls := map[0 := Call(0, plan, inputs, phase)])
  }

  lemma ExtendBegin(cfg: Config, s: System, plan: Plan, inputs: seq<AppendInput>) returns (t: Trace)
    requires s.calls == map[] && |inputs| <= |plan.freshIDs| && BuildSegment(cfg, plan, inputs).Some?
    ensures t.start == s && Leads(cfg, t, At(s, plan, inputs, WritingBlobs(BuildSegment(cfg, plan, inputs).value, 0)))
  {
    hide BuildSegment, Leads;
    var call := Call(0, plan, inputs, WritingBlobs(BuildSegment(cfg, plan, inputs).value, 0));
    BegunLeads(cfg, s);
    t := Extend(cfg, Begun(s), s, Begin(0, call), s.(calls := map[0 := call]));
  }

  lemma ExtendBlob(cfg: Config, t: Trace, s: System, plan: Plan, inputs: seq<AppendInput>, segment: Segment, i: nat, outcome: Outcome, blobs: BlobStore)
    returns (t': Trace)
    requires Leads(cfg, t, At(s, plan, inputs, WritingBlobs(segment, i))) && i < |BlobsOf(segment.entries)|
    requires Put(s.blobs, ContentSha(BlobsOf(segment.entries)[i]), BlobsOf(segment.entries)[i], outcome, blobs)
    ensures t'.start == t.start
    ensures Leads(cfg, t', At(s.(blobs := blobs), plan, inputs, if Landed(outcome) then WritingBlobs(segment, i + 1) else Dead))
  {
    hide Leads, BlobsOf;
    t' := Extend(cfg, t, At(s, plan, inputs, WritingBlobs(segment, i)), WriteBlob(0, outcome, blobs),
                 At(s.(blobs := blobs), plan, inputs, if Landed(outcome) then WritingBlobs(segment, i + 1) else Dead));
  }

  lemma ExtendSegment(cfg: Config, t: Trace, s: System, plan: Plan, inputs: seq<AppendInput>, segment: Segment, outcome: Outcome, segments: SegmentStore)
    returns (t': Trace)
    requires Leads(cfg, t, At(s, plan, inputs, WritingBlobs(segment, |BlobsOf(segment.entries)|)))
    requires Put(s.segments, plan.key, Seal(segment), outcome, segments)
    ensures t'.start == t.start
    ensures Leads(cfg, t', At(s.(segments := segments), plan, inputs,
      if Landed(outcome) then Projecting(segment, WithNumbers(segment, inputs)) else if outcome.Conflict? then Resolving else Dead))
  {
    hide Leads, BlobsOf, WithNumbers;
    t' := Extend(cfg, t, At(s, plan, inputs, WritingBlobs(segment, |BlobsOf(segment.entries)|)), WriteSegment(0, outcome, segments),
                 At(s.(segments := segments), plan, inputs,
                    if Landed(outcome) then Projecting(segment, WithNumbers(segment, inputs)) else if outcome.Conflict? then Resolving else Dead));
  }

  lemma ExtendResolved(cfg: Config, t: Trace, s: System, plan: Plan, inputs: seq<AppendInput>, lost: bool) returns (t': Trace)
    requires Leads(cfg, t, At(s, plan, inputs, Resolving)) && plan.key in s.segments
    ensures t'.start == t.start
    ensures Leads(cfg, t', At(s, plan, inputs,
      if lost || !Readable(plan.key, s.segments[plan.key], cfg.normalize) then Dead
      else if SameBatch(s.segments[plan.key].value, inputs, cfg.normalize) then Projecting(s.segments[plan.key].value, s.segments[plan.key].value)
      else Refused))
  {
    hide Leads, Readable, SameBatch;
    t' := Extend(cfg, t, At(s, plan, inputs, Resolving), if lost then Crash(0) else ReadBack(0), At(s, plan, inputs,
      if lost || !Readable(plan.key, s.segments[plan.key], cfg.normalize) then Dead
      else if SameBatch(s.segments[plan.key].value, inputs, cfg.normalize) then Projecting(s.segments[plan.key].value, s.segments[plan.key].value)
      else Refused));
  }

  lemma ExtendDelta(cfg: Config, t: Trace, s: System, plan: Plan, inputs: seq<AppendInput>, segment: Segment, held: Segment,
                    outcome: Outcome, deltas: map<DeltaKey, Stored<Delta>>) returns (t': Trace)
    requires Leads(cfg, t, At(s, plan, inputs, Projecting(segment, held))) && OneConversation(RecordsOf(segment))
    requires Put(s.deltas, DeltaKey(plan.key), Plain(Seal(DeltaOf(plan.key, segment))), outcome, deltas)
    ensures t'.start == t.start
    ensures Leads(cfg, t', At(s.(deltas := deltas), plan, inputs, if Landed(outcome) then Observing(segment, held) else Dead))
  {
    hide Leads, OneConversation, RecordsOf, DeltaOf;
    t' := Extend(cfg, t, At(s, plan, inputs, Projecting(segment, held)), WriteDelta(0, outcome, deltas),
                 At(s.(deltas := deltas), plan, inputs, if Landed(outcome) then Observing(segment, held) else Dead));
  }

  lemma ExtendFold(cfg: Config, t: Trace, s: System, plan: Plan, inputs: seq<AppendInput>, segment: Segment, held: Segment, view: View) returns (t': Trace)
    requires Leads(cfg, t, At(s, plan, inputs, Observing(segment, held))) && OneConversation(RecordsOf(segment))
    requires s.views.Keys == {0} && s.views[0].listing.None?
    requires view == if s.views[0].loaded then Folded(s.views[0], DeltaKey(plan.key), DeltaOf(plan.key, segment)) else s.views[0]
    ensures t'.start == t.start
    ensures Leads(cfg, t', At(s.(views := map[0 := view]), plan, inputs, Acknowledged(segment, held)))
  {
    hide Leads, OneConversation, RecordsOf, DeltaOf, Folded;
    assert s.views[0 := view] == map[0 := view];
    t' := Extend(cfg, t, At(s, plan, inputs, Observing(segment, held)), FoldOwn(0), At(s.(views := map[0 := view]), plan, inputs, Acknowledged(segment, held)));
  }

  /** Where a call stands in the protocol after its segment write, and when it returns. */
  function CommitPhase(r: Result<(Segment, Segment), AppendError>): Phase {
    match r
    case Ok(found) => Projecting(found.0, found.1)
    case Err(error) => if error == IdempotencyConflict then Refused else Dead
  }

  function AppendPhase(committed: Segment, r: Result<Segment, AppendError>): Phase {
    match r
    case Ok(held) => Acknowledged(committed, held)
    case Err(error) => if error == IdempotencyConflict then Refused else Dead
  }

  // ----- Refusals before anything is written -----

  /** Why an input is refused after others have used that many bytes. No two of these hold of one input. */
  ghost predicate Reason(cfg: Config, plan: Plan, i: nat, input: AppendInput, used: nat, error: AppendError)
    requires i < |plan.freshIDs|
  {
    var content := cfg.normalize(input.content);
    match error
    case InvalidJson => content.None?
    case ContentTooLarge => content.Some? && |content.value| > cfg.maxContentBytes
    case SegmentTooLarge =>
      && content.Some? && |content.value| <= cfg.maxContentBytes && |content.value| <= cfg.maxInlineContentBytes
      && used + |content.value| > cfg.maxSegmentBytes
    case InvalidRecord =>
      && content.Some? && |content.value| <= cfg.maxContentBytes
      && (|content.value| <= cfg.maxInlineContentBytes ==> used + |content.value| <= cfg.maxSegmentBytes)
      && !ValidRecord(BuildRecord(cfg, plan, i, input, content.value))
    case _ => false
  }

  /** Input i is the first that is refused, for this reason. */
  ghost predicate RefusedAt(cfg: Config, plan: Plan, inputs: seq<AppendInput>, i: nat, error: AppendError)
    requires |inputs| <= |plan.freshIDs|
  {
    && i < |inputs| && BuildEntries(cfg, plan, inputs[..i]).Some?
    && Reason(cfg, plan, i, inputs[i], InlineTotal(BuildEntries(cfg, plan, inputs[..i]).value), error)
  }

  lemma Refuses(cfg: Config, plan: Plan, inputs: seq<AppendInput>, i: nat, built: seq<SegmentEntry>, error: AppendError)
    requires |inputs| <= |plan.freshIDs| && i < |inputs| && BuildEntries(cfg, plan, inputs[..i]) == Some(built)
    requires Reason(cfg, plan, i, inputs[i], InlineTotal(built), error)
    ensures RefusedAt(cfg, plan, inputs, i, error) && BuildEntries(cfg, plan, inputs).None?
  {
    assert inputs[..i + 1][..i] == inputs[..i] && inputs[..i + 1][i] == inputs[i];
    assert !Acceptable(cfg, plan, i, inputs[i], built);
    PrefixRefused(cfg, plan, inputs, i + 1);
  }

  /** The batch is not empty, not too long, of one conversation, and its ids are valid. */
  predicate Proper(cfg: Config, plan: Plan, inputs: seq<AppendInput>) {
    UniformBatch(inputs) && |inputs| <= cfg.maxSegmentRecords && ValidID(plan.key.conversationID) && ValidID(plan.key.segmentID)
  }

  /** Why a batch is refused. No two of these hold of one batch. */
  ghost predicate Refusal(cfg: Config, plan: Plan, inputs: seq<AppendInput>, error: AppendError)
    requires |inputs| <= |plan.freshIDs|
  {
    match error
    case InvalidBatch =>
      inputs == [] || (|inputs| <= cfg.maxSegmentRecords && !Proper(cfg, plan, inputs))
    case SegmentTooLarge =>
      || (inputs != [] && |inputs| > cfg.maxSegmentRecords)
      || (Proper(cfg, plan, inputs)
          && (|| (exists i :: RefusedAt(cfg, plan, inputs, i, error))
              || Oversized(cfg, plan, inputs)))
    case InvalidSegment =>
      && Proper(cfg, plan, inputs) && BuildEntries(cfg, plan, inputs).Some?
      && !ValidSegment(Entire(cfg, plan, inputs), cfg.normalize)
      && (cfg.Lawful() && plan.now != ZERO_TIME ==> !DistinctRecordIDs(Entire(cfg, plan, inputs)))
    case _ => Proper(cfg, plan, inputs) && exists i :: RefusedAt(cfg, plan, inputs, i, error)
  }

  /** The segment of a batch all of whose inputs are acceptable. */
  ghost function Entire(cfg: Config, plan: Plan, inputs: seq<AppendInput>): Segment
    requires |inputs| <= |plan.freshIDs| && BuildEntries(cfg, plan, inputs).Some?
  {
    Segment(plan.key.segmentID, plan.key.conversationID, plan.now, BuildEntries(cfg, plan, inputs).value)
  }

  /** All entries are acceptable, but together they are too large. */
  ghost predicate Oversized(cfg: Config, plan: Plan, inputs: seq<AppendInput>)
    requires |inputs| <= |plan.freshIDs|
  {
    && BuildEntries(cfg, plan, inputs).Some? && ValidSegment(Entire(cfg, plan, inputs), cfg.normalize)
    && cfg.encodedSize(Entire(cfg, plan, inputs)) > cfg.maxSegmentBytes
  }

  // ----- What an append leaves in the stores, and what it says of it -----

  /** The three kinds of object an append writes. */
  datatype StoreView = StoreView(blobs: BlobStore, segments: SegmentStore, deltas: map<DeltaKey, Stored<Delta>>)

  /** Objects are only ever added, and blobs stay honest. */
  ghost predicate Extends(before: StoreView, after: StoreView) {
    && Grows(before.blobs, after.blobs) && Grows(before.segments, after.segments) && Grows(before.deltas, after.deltas)
    && (HonestBlobs(before.blobs) ==> HonestBlobs(after.blobs))
  }

  lemma ExtendsBoth(a: StoreView, b: StoreView, c: StoreView)
    requires Extends(a, b) && Extends(b, c)
    ensures Extends(a, c)
  {
  }

  lemma ExtendsSame(a: StoreView)
    ensures Extends(a, a)
  {
  }

  /** Whether or not it succeeds: nothing is lost, at most one segment and one delta are added, a segment
      never without its blobs, a delta never without its segment. */
  ghost predicate OnlyAdds(cfg: Config, plan: Plan, inputs: seq<AppendInput>, before: StoreView, after: StoreView)
    requires |inputs| <= |plan.freshIDs|
  {
    && Extends(before, after)
    && after.segments.Keys <= before.segments.Keys + {plan.key} && after.deltas.Keys <= before.deltas.Keys + {DeltaKey(plan.key)}
    && (forall k | k in after.blobs :: k in before.blobs || k.preimage in LargeContents(cfg, inputs))
    && (plan.key in after.segments && plan.key !in before.segments ==>
          && BuildSegment(cfg, plan, inputs).Some? && after.segments[plan.key] == Seal(BuildSegment(cfg, plan, inputs).value)
          && (HonestBlobs(before.blobs) ==> BlobsPresent(after.blobs, LargeContents(cfg, inputs))))
    && (DeltaKey(plan.key) in after.deltas && DeltaKey(plan.key) !in before.deltas ==> plan.key in after.segments)
  }

  /** The object under the call's key: the call's own segment, or one that its batch matches. */
  ghost predicate Holds(cfg: Config, plan: Plan, inputs: seq<AppendInput>, segment: Segment, segments: SegmentStore, committed: Segment, held: Segment) {
    && plan.key in segments && segments[plan.key] == Seal(committed) && Verifies(plan.key, segments[plan.key], cfg.normalize)
    && held == WithNumbers(committed, inputs)
    && (committed == segment || (SameBatch(committed, inputs, cfg.normalize) && Decodable(committed) && held == committed))
  }

  /** What success means: the segment, its blobs and its delta are stored, and it is returned with the
      caller's numbers. A new one reads back exactly when its records decode, and is what is stored
      exactly when its numbers survive; an old one is the batch's own or one that it matches. */
  ghost predicate Acknowledges(cfg: Config, plan: Plan, inputs: seq<AppendInput>, before: StoreView, after: StoreView, held: Segment)
    requires |inputs| <= |plan.freshIDs|
  {
    && BuildSegment(cfg, plan, inputs).Some?
    && plan.key in after.segments && Verifies(plan.key, after.segments[plan.key], cfg.normalize)
    && held == WithNumbers(after.segments[plan.key].value, inputs)
    && (Readable(plan.key, after.segments[plan.key], cfg.normalize) <==> Decodable(after.segments[plan.key].value))
    && (HonestBlobs(before.blobs) ==> BlobsPresent(after.blobs, LargeContents(cfg, inputs)))
    && OneConversation(RecordsOf(after.segments[plan.key].value))
    && DeltaKey(plan.key) in after.deltas
    && after.deltas[DeltaKey(plan.key)] == Plain(Seal(DeltaOf(plan.key, after.segments[plan.key].value)))
    && (plan.key !in before.segments ==>
          && (held == after.segments[plan.key].value <==> Survives(cfg, inputs))
          && AsWritten(cfg, held) == after.segments[plan.key].value
          && (Readable(plan.key, after.segments[plan.key], cfg.normalize) <==> AllDecode(cfg, inputs))
          && (HonestBlobs(before.blobs) ==> BlobsPresent(after.blobs, BlobsOf(held.entries))))
    && (plan.key in before.segments ==>
          || before.segments[plan.key] == Seal(BuildSegment(cfg, plan, inputs).value)
          || (SameBatch(before.segments[plan.key].value, inputs, cfg.normalize)
              && held == before.segments[plan.key].value && Decodable(held)))
  }

  /** What failures mean: a failed blob write leaves segments and deltas alone; a conflict is with an object
      that was there, is readable, and holds another batch. */
  ghost predicate Declines(cfg: Config, plan: Plan, inputs: seq<AppendInput>, before: StoreView, after: StoreView, error: AppendError) {
    && (error == BlobWriteFailed ==> after.segments == before.segments && after.deltas == before.deltas)
    && (error == IdempotencyConflict ==>
          && after.segments == before.segments && after.deltas == before.deltas
          && plan.key in before.segments && Readable(plan.key, before.segments[plan.key], cfg.normalize)
          && !SameBatch(before.segments[plan.key].value, inputs, cfg.normalize))
    && (error == SegmentCorrupt ==>
          && after.segments == before.segments && after.deltas == before.deltas
          && plan.key in before.segments && !Readable(plan.key, before.segments[plan.key], cfg.normalize))
  }

  /** Stored objects are what the protocol writes, and the key is either free or holds a batch this one
      repeats. */
  ghost predicate WillAccept(cfg: Config, key: SegmentKey, inputs: seq<AppendInput>, store: StoreView) {
    && HonestBlobs(store.blobs)
    && (key in store.segments ==>
          && Readable(key, store.segments[key], cfg.normalize) && SameBatch(store.segments[key].value, inputs, cfg.normalize))
    && (DeltaKey(key) in store.deltas ==>
          && key in store.segments && OneConversation(RecordsOf(store.segments[key].value))
          && store.deltas[DeltaKey(key)] == Plain(Seal(DeltaOf(key, store.segments[key].value))))
  }

  /** The key is taken by something else. */
  ghost predicate WillRefuse(cfg: Config, key: SegmentKey, inputs: seq<AppendInput>, segment: Segment, store: StoreView) {
    && HonestBlobs(store.blobs) && key in store.segments && store.segments[key] != Seal(segment)
    && !(Readable(key, store.segments[key], cfg.normalize) && SameBatch(store.segments[key].value, inputs, cfg.normalize))
  }

  /** What writing the blobs and the segment comes to. */
  ghost predicate StoreAnswer(cfg: Config, plan: Plan, inputs: seq<AppendInput>, segment: Segment, before: StoreView, after: StoreView,
                              r: Result<(Segment, Segment), AppendError>)
  {
    match r
    case Ok(found) =>
      && Holds(cfg, plan, inputs, segment, after.segments, found.0, found.1)
      && (plan.key !in before.segments ==> found.0 == segment) && (plan.key in before.segments ==> after.segments == before.segments)
      && (HonestBlobs(before.blobs) ==> BlobsPresent(after.blobs, LargeContents(cfg, inputs)))
    case Err(error) =>
      && error in {BlobWriteFailed, SegmentWriteFailed, SegmentReadFailed, SegmentCorrupt, IdempotencyConflict}
      && Declines(cfg, plan, inputs, before, after, error)
  }

  /** What writing the segment alone comes to. */
  ghost predicate CommitAnswer(cfg: Config, plan: Plan, inputs: seq<AppendInput>, segment: Segment, before: SegmentStore, after: SegmentStore,
                               reliable: bool, r: Result<(Segment, Segment), AppendError>)
  {
    && Grows(before, after) && after.Keys <= before.Keys + {plan.key}
    && (plan.key in after && plan.key !in before ==> after[plan.key] == Seal(segment))
    && (r.Ok? ==> Holds(cfg, plan, inputs, segment, after, r.value.0, r.value.1) && (plan.key !in before ==> r.value.0 == segment))
    && (reliable && plan.key !in before ==> r.Ok?)
    && (plan.key in before && reliable ==>
          var stored := before[plan.key];
          && (r.Ok? <==> stored == Seal(segment) || (Readable(plan.key, stored, cfg.normalize) && SameBatch(stored.value, inputs, cfg.normalize)))
          && (r == Err(SegmentCorrupt) <==> stored != Seal(segment) && !Readable(plan.key, stored, cfg.normalize)))
    && (r.Err? ==> r.error in {SegmentWriteFailed, SegmentReadFailed, SegmentCorrupt, IdempotencyConflict})
    && (reliable && r.Err? ==> r.error == SegmentCorrupt || r.error == IdempotencyConflict)
    && (r == Err(IdempotencyConflict) ==>
          plan.key in before && Readable(plan.key, before[plan.key], cfg.normalize) && !SameBatch(before[plan.key].value, inputs, cfg.normalize))
    && (r == Err(SegmentCorrupt) ==> plan.key in before && !Readable(plan.key, before[plan.key], cfg.normalize))
  }

  lemma BlobsOnly(cfg: Config, plan: Plan, inputs: seq<AppendInput>, before: StoreView, after: StoreView)
    requires |inputs| <= |plan.freshIDs| && after == before.(blobs := after.blobs) && Extends(before, after)
    requires forall k | k in after.blobs :: k in before.blobs || k.preimage in LargeContents(cfg, inputs)
    ensures OnlyAdds(cfg, plan, inputs, before, after) && Declines(cfg, plan, inputs, before, after, BlobWriteFailed)
  {
    hide LargeContents, BuildSegment;
  }

  /** Blobs first, then the segment. */
  lemma SegmentStored(cfg: Config, plan: Plan, inputs: seq<AppendInput>, segment: Segment, before: StoreView, middle: StoreView, after: StoreView,
                      reliable: bool, r: Result<(Segment, Segment), AppendError>)
    requires |inputs| <= |plan.freshIDs| && BuildSegment(cfg, plan, inputs) == Some(segment)
    requires middle == before.(blobs := middle.blobs) && OnlyAdds(cfg, plan, inputs, before, middle)
    requires HonestBlobs(before.blobs) ==> BlobsPresent(middle.blobs, LargeContents(cfg, inputs))
    requires after == middle.(segments := after.segments) && CommitAnswer(cfg, plan, inputs, segment, middle.segments, after.segments, reliable, r)
    ensures OnlyAdds(cfg, plan, inputs, before, after) && StoreAnswer(cfg, plan, inputs, segment, before, after, r)
    ensures reliable && WillAccept(cfg, plan.key, inputs, before) ==> r.Ok?
    ensures reliable && WillRefuse(cfg, plan.key, inputs, segment, before) ==>
              r == Err(if Readable(plan.key, before.segments[plan.key], cfg.normalize) then IdempotencyConflict else SegmentCorrupt)
  {
    hide LargeContents, BuildSegment, BlobsPresent, HonestBlobs, Readable, SameBatch, Holds, OneConversation, RecordsOf, DeltaOf;
    if plan.key in before.segments { assert after.segments.Keys == before.segments.Keys; }
  }

  lemma StoredAcknowledges(cfg: Config, plan: Plan, inputs: seq<AppendInput>, segment: Segment, before: StoreView, middle: StoreView, after: StoreView,
                           committed: Segment, held: Segment)
    requires |inputs| <= |plan.freshIDs| && BuildSegment(cfg, plan, inputs) == Some(segment)
    requires StoreAnswer(cfg, plan, inputs, segment, before, middle, Ok((committed, held)))
    requires after == middle.(deltas := after.deltas) && OneConversation(RecordsOf(committed)) && DeltaKey(plan.key) in after.deltas
    requires after.deltas[DeltaKey(plan.key)] == Plain(Seal(DeltaOf(plan.key, committed)))
    ensures Acknowledges(cfg, plan, inputs, before, after, held)
  {
    BuiltReadableIff(cfg, plan, inputs);
    StoredIsWritten(cfg, plan, inputs);
    BlobsAreBuilt(cfg, plan, inputs);
    BlobsUnnumbered(segment, inputs);
    hide BuildSegment, OneConversation, DeltaOf, SameBatch, LargeContents, BlobsOf, BlobsPresent, HonestBlobs, RecordsOf, WithNumbers, AsWritten, AllDecode, Survives, Decodable;
    VerifiesIsValid(plan.key, after.segments[plan.key], cfg.normalize);
  }

  lemma StoredOnlyAdds(cfg: Config, plan: Plan, inputs: seq<AppendInput>, before: StoreView, middle: StoreView, after: StoreView)
    requires |inputs| <= |plan.freshIDs| && OnlyAdds(cfg, plan, inputs, before, middle) && middle.deltas == before.deltas
    requires after == middle.(deltas := after.deltas) && Grows(middle.deltas, after.deltas)
    requires after.deltas.Keys <= middle.deltas.Keys + {DeltaKey(plan.key)} && plan.key in after.segments
    ensures OnlyAdds(cfg, plan, inputs, before, after)
  {
    hide BuildSegment, LargeContents, BlobsPresent, HonestBlobs;
  }

  /** A sound world is answered as foretold. */
  lemma AcceptedDelta(cfg: Config, plan: Plan, inputs: seq<AppendInput>, segment: Segment, before: StoreView, middle: StoreView, committed: Segment, held: Segment)
    requires WillAccept(cfg, plan.key, inputs, before) && middle.deltas == before.deltas
    requires StoreAnswer(cfg, plan, inputs, segment, before, middle, Ok((committed, held)))
    ensures OneConversation(RecordsOf(committed))
    ensures DeltaKey(plan.key) in middle.deltas ==> middle.deltas[DeltaKey(plan.key)] == Plain(Seal(DeltaOf(plan.key, committed)))
  {
    VerifiesIsValid(plan.key, middle.segments[plan.key], cfg.normalize);
    hide OneConversation, RecordsOf, DeltaOf, SameBatch, Readable, Verifies, WithNumbers, BlobsPresent, LargeContents, HonestBlobs;
  }

  class HistoryService {
    const cfg: Config
    const blobs: Bucket<ContentSha, Bytes>
    const segments: Bucket<SegmentKey, Sealed<Segment>>
    const projection: ConversationProjection

    constructor (cfg: Config, blobs: Bucket<ContentSha, Bytes>, segments: Bucket<SegmentKey, Sealed<Segment>>,
                 projection: ConversationProjection)
      ensures this.cfg == cfg && this.blobs == blobs && this.segments == segments && this.projection == projection
    {
      this.cfg, this.blobs, this.segments, this.projection := cfg, blobs, segments, projection;
    }

    ghost predicate Separate() {
      && blobs as object != segments as object && blobs as object != projection.deltas as object
      && blobs as object != projection.snapshots as object && segments as object != projection.deltas as object
      && segments as object != projection.snapshots as object
      && projection.deltas as object != projection.snapshots as object
    }

    /** The loop that builds one entry per input and stops at the first refusal. */
    method PrepareEntries(plan: Plan, inputs: seq<AppendInput>) returns (r: Result<seq<SegmentEntry>, AppendError>)
      requires |inputs| <= |plan.freshIDs|
      ensures r.Ok? ==> BuildEntries(cfg, plan, inputs) == Some(r.value)
      ensures r.Err? ==> BuildEntries(cfg, plan, inputs).None?
      ensures r.Err? ==> exists i :: RefusedAt(cfg, plan, inputs, i, r.error)
      ensures r.Err? ==> r.error in {SegmentTooLarge, InvalidJson, ContentTooLarge, InvalidRecord}
    {
      hide ValidRecord, BuildRecord, RefusedAt;
      var entries: seq<SegmentEntry> := [];
      var contentBytes := 0;
      for i := 0 to |inputs|
        invariant BuildEntries(cfg, plan, inputs[..i]) == Some(entries)
        invariant contentBytes == InlineTotal(entries) <= cfg.maxSegmentBytes
      {
        assert inputs[..i + 1][..i] == inputs[..i] && inputs[..i + 1][i] == inputs[i];
        var content := cfg.normalize(inputs[i].content);
        if content.None? {
          Refuses(cfg, plan, inputs, i, entries, InvalidJson);
          return Err(InvalidJson);
        }
        if |content.value| > cfg.maxContentBytes {
          Refuses(cfg, plan, inputs, i, entries, ContentTooLarge);
          return Err(ContentTooLarge);
        }
        var entry := BuildEntry(cfg, plan, i, inputs[i], content.value);
        if entry.content.Some? && contentBytes + |content.value| > cfg.maxSegmentBytes {
          Refuses(cfg, plan, inputs, i, entries, SegmentTooLarge);
          return Err(SegmentTooLarge);
        }
        if !ValidRecord(entry.record.value) {
          Refuses(cfg, plan, inputs, i, entries, InvalidRecord);
          return Err(InvalidRecord);
        }
        contentBytes := contentBytes + InlineSize(entry);
        assert (entries + [entry])[..i] == entries;
        entries := entries + [entry];
      }
      assert inputs[..|inputs|] == inputs;
      r := Ok(entries);
    }

    /** The checks and the loop that turn a request into a segment. */
    method Prepare(plan: Plan, inputs: seq<AppendInput>) returns (r: Result<Segment, AppendError>)
      requires |inputs| <= |plan.freshIDs|
      requires inputs != [] ==> plan.key.conversationID == inputs[0].conversationID
      ensures r.Ok? <==> BuildSegment(cfg, plan, inputs).Some?
      ensures r.Ok? ==> r.value == BuildSegment(cfg, plan, inputs).value
      ensures r.Err? ==> r.error in {InvalidBatch, SegmentTooLarge, InvalidJson, ContentTooLarge, InvalidRecord, InvalidSegment}
      ensures r.Err? ==> Refusal(cfg, plan, inputs, r.error)
    {
      if inputs == [] { return Err(InvalidBatch); }
      if |inputs| > cfg.maxSegmentRecords { return Err(SegmentTooLarge); }
      if !ValidID(plan.key.conversationID) { return Err(InvalidBatch); }
      for i := 1 to |inputs|
        invariant forall j | 0 <= j < i :: inputs[j].conversationID == inputs[0].conversationID
      {
        if inputs[i].conversationID != plan.key.conversationID { return Err(InvalidBatch); }
      }
      if !ValidID(plan.key.segmentID) { return Err(InvalidBatch); }
      var entries := PrepareEntries(plan, inputs);
      if entries.Err? { return Err(entries.error); }
      if cfg.Lawful() && plan.now != ZERO_TIME { BuiltSegmentValid(cfg, plan, inputs); }
      var segment := Segment(plan.key.segmentID, plan.key.conversationID, plan.now, entries.value);
      if !ValidSegment(segment, cfg.normalize) { return Err(InvalidSegment); }
      if cfg.encodedSize(segment) > cfg.maxSegmentBytes { return Err(SegmentTooLarge); }
      r := Ok(segment);
    }

    ghost function Stores(): StoreView
      reads blobs, segments, projection.deltas
    {
      StoreView(blobs.objects, segments.objects, projection.deltas.objects)
    }

    /** Nothing fails for transport reasons. */
    ghost predicate Reliable() {
      blobs.reliable && segments.reliable && projection.deltas.reliable
    }

    /** The world as the protocol sees it: the stores, the live view, and this one call. */
    ghost function World(): System
      reads blobs, segments, projection, projection.deltas, projection.snapshots
    {
      System(blobs.objects, segments.objects, projection.deltas.objects, projection.snapshots.objects,
             map[0 := View(projection.loaded, projection.values, projection.applied, None)], map[])
    }

    ghost function InCall(plan: Plan, inputs: seq<AppendInput>, phase: Phase): System
      reads blobs, segments, projection, projection.deltas, projection.snapshots
    {
      At(World(), plan, inputs, phase)
    }

    /** Write the blobs a segment needs, one after the other. */
    method WriteBlobs(plan: Plan, inputs: seq<AppendInput>, segment: Segment, ghost t: Trace) returns (ok: bool, ghost t': Trace)
      requires Separate() && Leads(cfg, t, InCall(plan, inputs, WritingBlobs(segment, 0)))
      modifies blobs
      ensures Grows(old(blobs.objects), blobs.objects)
      ensures HonestBlobs(old(blobs.objects)) ==> HonestBlobs(blobs.objects)
      ensures forall k | k in blobs.objects :: k in old(blobs.objects) || k.preimage in BlobsOf(segment.entries)
      ensures ok && HonestBlobs(old(blobs.objects)) ==> BlobsPresent(blobs.objects, BlobsOf(segment.entries))
      ensures blobs.reliable && HonestBlobs(old(blobs.objects)) ==> ok
      ensures t'.start == t.start
      ensures Leads(cfg, t', InCall(plan, inputs, if ok then WritingBlobs(segment, |BlobsOf(segment.entries)|) else Dead))
    {
      hide Leads, BlobsOf;
      var needed := BlobsOf(segment.entries);
      t' := t;
      for i := 0 to |needed|
        invariant Grows(old(blobs.objects), blobs.objects)
        invariant HonestBlobs(old(blobs.objects)) ==> HonestBlobs(blobs.objects)
        invariant forall j | 0 <= j < i :: ContentSha(needed[j]) in blobs.objects
        invariant forall k | k in blobs.objects :: k in old(blobs.objects) || k.preimage in needed
        invariant t'.start == t.start && Leads(cfg, t', InCall(plan, inputs, WritingBlobs(segment, i)))
      {
        ghost var before := World();
        var written := blobs.PutIfAbsent(ContentSha(needed[i]), needed[i]);
        t' := ExtendBlob(cfg, t', before, plan, inputs, segment, i, written, blobs.objects);
        assert World() == before.(blobs := blobs.objects);
        if written.Conflict? || written.Failed? { return false, t'; }
      }
      ok := true;
    }

    /** Write the segment, or find out what is there. */
    method CommitSegment(plan: Plan, inputs: seq<AppendInput>, segment: Segment, ghost t: Trace)
      returns (r: Result<(Segment, Segment), AppendError>, ghost t': Trace)
      requires Separate() && |inputs| <= |plan.freshIDs| && BuildSegment(cfg, plan, inputs) == Some(segment)
      requires Leads(cfg, t, InCall(plan, inputs, WritingBlobs(segment, |BlobsOf(segment.entries)|)))
      modifies segments
      ensures CommitAnswer(cfg, plan, inputs, segment, old(segments.objects), segments.objects, segments.reliable, r)
      ensures t'.start == t.start && Leads(cfg, t', InCall(plan, inputs, CommitPhase(r)))
    {
      hide Leads, BuildSegment, SameBatch, WithNumbers, Decodable, ValidSegment, BlobsOf, Readable, Verifies;
      BuiltReadableIff(cfg, plan, inputs);
      ghost var before := World();
      var outcome := segments.PutIfAbsent(plan.key, Seal(segment));
      t' := ExtendSegment(cfg, t, before, plan, inputs, segment, outcome, segments.objects);
      assert World() == before.(segments := segments.objects);
      if outcome.Failed? { return Err(SegmentWriteFailed), t'; }
      if !outcome.Conflict? { return Ok((segment, WithNumbers(segment, inputs))), t'; }
      var existing := segments.Get(plan.key);
      t' := ExtendResolved(cfg, t', World(), plan, inputs, existing.Err?);
      if existing.Err? { return Err(SegmentReadFailed), t'; }
      var stored := existing.value;
      if !Readable(plan.key, stored, cfg.normalize) { return Err(SegmentCorrupt), t'; }
      ReadableVerifies(plan.key, stored, cfg.normalize);
      var same := CompareBatch(stored.value, inputs, cfg.normalize);
      if !same { return Err(IdempotencyConflict), t'; }
      MatchingNumbers(stored.value, inputs, cfg.normalize);
      r := Ok((stored.value, stored.value));
    }

    /** Write the delta of a committed segment and fold it into the live view. */
    method Project(plan: Plan, inputs: seq<AppendInput>, segment: Segment, held: Segment, ghost t: Trace) returns (ok: bool, ghost t': Trace)
      requires Separate() && OneConversation(RecordsOf(segment))
      requires Leads(cfg, t, InCall(plan, inputs, Projecting(segment, held)))
      modifies projection.deltas, projection
      ensures Grows(old(projection.deltas.objects), projection.deltas.objects)
      ensures projection.deltas.objects.Keys <= old(projection.deltas.objects).Keys + {DeltaKey(plan.key)}
      ensures projection.deltas.reliable
              && (DeltaKey(plan.key) in old(projection.deltas.objects) ==>
                    old(projection.deltas.objects)[DeltaKey(plan.key)] == Plain(Seal(DeltaOf(plan.key, segment))))
              ==> ok
      ensures ok ==>
                && DeltaKey(plan.key) in projection.deltas.objects
                && projection.deltas.objects[DeltaKey(plan.key)] == Plain(Seal(DeltaOf(plan.key, segment)))
                && (projection.loaded ==> DeltaKey(plan.key) in projection.applied)
      ensures projection.loaded == old(projection.loaded)
      ensures t'.start == t.start && Leads(cfg, t', InCall(plan, inputs, if ok then Acknowledged(segment, held) else Dead))
    {
      hide Leads, OneConversation, DeltaOf, RecordsOf, MergeInto, Absorb;
      var delta := BuildConversationDelta(plan.key, segment);
      ghost var before := World();
      var outcome := projection.deltas.PutIfAbsent(DeltaKey(plan.key), Plain(Seal(delta.value)));
      t' := ExtendDelta(cfg, t, before, plan, inputs, segment, held, outcome, projection.deltas.objects);
      assert World() == before.(deltas := projection.deltas.objects);
      if outcome.Conflict? || outcome.Failed? { return false, t'; }
      before := World();
      if projection.loaded { projection.Apply(DeltaKey(plan.key), delta.value); }
      t' := ExtendFold(cfg, t', before, plan, inputs, segment, held, World().views[0]);
      assert World() == before.(views := map[0 := World().views[0]]);
      ok := true;
    }

    /** Commit blobs, then the segment, then its delta. The call returns what it holds: the segment with
        its own numbers if it wrote the object, what it read back if not. All it does is steps of the
        commit protocol, which acknowledge the call exactly when it succeeds. */
    method Append(plan: Plan, inputs: seq<AppendInput>) returns (r: Result<Segment, AppendError>, ghost t: Trace)
      requires Separate() && |inputs| <= |plan.freshIDs|
      requires inputs != [] ==> plan.key.conversationID == inputs[0].conversationID
      modifies blobs, segments, projection.deltas, projection
      ensures OnlyAdds(cfg, plan, inputs, old(Stores()), Stores())
      ensures r.Ok? ==> Acknowledges(cfg, plan, inputs, old(Stores()), Stores(), r.value) && (projection.loaded ==> DeltaKey(plan.key) in projection.applied)
      ensures r.Err? ==> Declines(cfg, plan, inputs, old(Stores()), Stores(), r.error)
      ensures BuildSegment(cfg, plan, inputs).None? ==>
                r.Err? && Refusal(cfg, plan, inputs, r.error) && t == Begun(old(World())) && World() == old(World())
      ensures BuildSegment(cfg, plan, inputs).Some? && Reliable() ==>
                && (WillAccept(cfg, plan.key, inputs, old(Stores())) ==> r.Ok?)
                && (WillRefuse(cfg, plan.key, inputs, BuildSegment(cfg, plan, inputs).value, old(Stores())) ==>
                      r == Err(if Readable(plan.key, old(segments.objects)[plan.key], cfg.normalize) then IdempotencyConflict else SegmentCorrupt))
      ensures BuildSegment(cfg, plan, inputs).Some? ==>
                && t.start == old(World()) && (r.Ok? ==> plan.key in segments.objects)
                && Leads(cfg, t, InCall(plan, inputs, AppendPhase(if r.Ok? then segments.objects[plan.key].value else BuildSegment(cfg, plan, inputs).value, r)))
    {
      hide BuildEntries, BuildSegment, Refusal, LargeContents, Leads, Acknowledges, WillAccept, WillRefuse, Readable;
      t := Begun(World());
      var prepared := Prepare(plan, inputs);
      if prepared.Err? { return Err(prepared.error), t; }
      r, t := Write(plan, inputs, prepared.value);
    }

    /** All of it but the preparation. */
    method Write(plan: Plan, inputs: seq<AppendInput>, segment: Segment) returns (r: Result<Segment, AppendError>, ghost t: Trace)
      requires Separate() && |inputs| <= |plan.freshIDs| && BuildSegment(cfg, plan, inputs) == Some(segment)
      modifies blobs, segments, projection.deltas, projection
      ensures OnlyAdds(cfg, plan, inputs, old(Stores()), Stores())
      ensures r.Ok? ==> Acknowledges(cfg, plan, inputs, old(Stores()), Stores(), r.value) && (projection.loaded ==> DeltaKey(plan.key) in projection.applied)
      ensures r.Err? ==> Declines(cfg, plan, inputs, old(Stores()), Stores(), r.error)
      ensures Reliable() && WillAccept(cfg, plan.key, inputs, old(Stores())) ==> r.Ok?
      ensures Reliable() && WillRefuse(cfg, plan.key, inputs, segment, old(Stores())) ==>
                r == Err(if Readable(plan.key, old(segments.objects)[plan.key], cfg.normalize) then IdempotencyConflict else SegmentCorrupt)
      ensures t.start == old(World()) && (r.Ok? ==> plan.key in segments.objects)
      ensures Leads(cfg, t, InCall(plan, inputs, AppendPhase(if r.Ok? then segments.objects[plan.key].value else segment, r)))
    {
      hide Leads, World, InCall, BuildSegment, OnlyAdds, Acknowledges, Declines, WillAccept, WillRefuse, Holds, Readable, OneConversation, RecordsOf, DeltaOf;
      ghost var before := Stores();
      var committed;
      committed, t := Store(plan, inputs, segment);
      if committed.Err? { return Err(committed.error), t; }
      var (existing, held) := committed.value;
      ghost var middle := Stores();
      HeldOneConversation(cfg, plan, inputs, segment, middle.segments, existing, held);
      if WillAccept(cfg, plan.key, inputs, before) { AcceptedDelta(cfg, plan, inputs, segment, before, middle, existing, held); }
      var projected;
      projected, t := Project(plan, inputs, existing, held, t);
      StoredOnlyAdds(cfg, plan, inputs, before, middle, Stores());
      if !projected {
        OtherError(cfg, plan, inputs, before, Stores());
        return Err(ProjectionWriteFailed), t;
      }
      StoredAcknowledges(cfg, plan, inputs, segment, before, middle, Stores(), existing, held);
      r := Ok(held);
    }

    /** The blobs, and only then the segment. */
    method Store(plan: Plan, inputs: seq<AppendInput>, segment: Segment) returns (r: Result<(Segment, Segment), AppendError>, ghost t: Trace)
      requires Separate() && |inputs| <= |plan.freshIDs| && BuildSegment(cfg, plan, inputs) == Some(segment)
      modifies blobs, segments
      ensures OnlyAdds(cfg, plan, inputs, old(Stores()), Stores())
      ensures StoreAnswer(cfg, plan, inputs, segment, old(Stores()), Stores(), r)
      ensures Reliable() && WillAccept(cfg, plan.key, inputs, old(Stores())) ==> r.Ok?
      ensures Reliable() && WillRefuse(cfg, plan.key, inputs, segment, old(Stores())) ==>
                r == Err(if Readable(plan.key, old(segments.objects)[plan.key], cfg.normalize) then IdempotencyConflict else SegmentCorrupt)
      ensures t.start == old(World()) && Leads(cfg, t, InCall(plan, inputs, CommitPhase(r)))
    {
      BlobsAreBuilt(cfg, plan, inputs);
      t := ExtendBegin(cfg, World(), plan, inputs);
      assert Leads(cfg, t, InCall(plan, inputs, WritingBlobs(segment, 0)));
      hide World, InCall, At, Leads, BuildSegment, LargeContents, BlobsOf, BlobsPresent, HonestBlobs, OnlyAdds, Declines, CommitAnswer, WillAccept, WillRefuse, Readable;
      ghost var before := Stores();
      var stored;
      stored, t := WriteBlobs(plan, inputs, segment, t);
      ghost var middle := Stores();
      BlobsOnly(cfg, plan, inputs, before, middle);
      if !stored { return Err(BlobWriteFailed), t; }
      r, t := CommitSegment(plan, inputs, segment, t);
      SegmentStored(cfg, plan, inputs, segment, before, middle, Stores(), segments.reliable, r);
    }
  }

  lemma HeldOneConversation(cfg: Config, plan: Plan, inputs: seq<AppendInput>, segment: Segment, segments: SegmentStore, committed: Segment, held: Segment)
    requires Holds(cfg, plan, inputs, segment, segments, committed, held)
    ensures OneConversation(RecordsOf(committed)) && plan.key in segments && segments[plan.key].value == committed
  {
    VerifiesIsValid(plan.key, segments[plan.key], cfg.normalize);
  }

  lemma OtherError(cfg: Config, plan: Plan, inputs: seq<AppendInput>, before: StoreView, after: StoreView)
    ensures Declines(cfg, plan, inputs, before, after, ProjectionWriteFailed)
  {
  }

  lemma BlobsAreBuilt(cfg: Config, plan: Plan, inputs: seq<AppendInput>)
    requires |inputs| <= |plan.freshIDs| && BuildSegment(cfg, plan, inputs).Some?
    ensures BlobsOf(BuildSegment(cfg, plan, inputs).value.entries) == LargeContents(cfg, inputs)
  {
    BlobsAreLargeContents(cfg, plan, inputs);
  }

  lemma ReadableVerifies(key: SegmentKey, stored: Sealed<Segment>, normalize: Bytes -> Option<Bytes>)
    requires Readable(key, stored, normalize)
    ensures Verifies(key, stored, normalize) && Decodable(stored.value) && stored == Seal(stored.value)
  {
  }

  lemma VerifiesIsValid(key: SegmentKey, stored: Sealed<Segment>, normalize: Bytes -> Option<Bytes>)
    requires Verifies(key, stored, normalize)
    ensures ValidSegment(stored.value, normalize) && OneConversation(RecordsOf(stored.value))
    ensures Readable(key, stored, normalize) <==> Decodable(stored.value)
  {
    ValidSegmentHasOneConversation(stored.value, normalize);
  }
}
