/** The commit protocol and its projection as a step system: any number of processes and append
    calls over one store, with lost responses, crashes, restarts, racing retries, concurrent
    refreshes, snapshots, rebuilds and damaged projection objects. */
module CommitProtocol {
  import opened Basics
  import opened Sorting
  import opened Records
  import opened Aggregates
  import opened ObjectStore
  import opened Projection
  import opened ConversationView
  import opened AppendBatch
  import opened HistoryReads

  type Process = nat
  type CallID = nat

  /** A process's view. listing is set while a refresh holds the lock: the keys its LIST returned. */
  datatype View = View(loaded: bool, values: Summary, applied: set<DeltaKey>, listing: Option<set<DeltaKey>>)

  const UNLOADED: View := View(false, map[], {}, None)

  /** Where an AppendBatch call stands: segment is what is stored for it, held what it returns, which
      differs in sequence numbers that the encoding rounds. */
  datatype Phase =
    | WritingBlobs(segment: Segment, written: nat)
    | Resolving
    | Projecting(segment: Segment, held: Segment)
    | Observing(segment: Segment, held: Segment)
    | Acknowledged(segment: Segment, held: Segment)
    | Refused
    | Dead

  datatype Call = Call(process: Process, plan: Plan, inputs: seq<AppendInput>, phase: Phase)

  datatype System = System(
    blobs: BlobStore,
    segments: SegmentStore,
    deltas: map<DeltaKey, Stored<Delta>>,
    snapshots: map<SnapshotKey, Stored<Snapshot>>,
    views: map<Process, View>,
    calls: map<CallID, Call>)

  /** One atomic step. Outcomes, orders and clocks are chosen by the environment. A load takes the
      newest snapshot it can read; since any read may fail, that is any snapshot that verifies. */
  datatype Step =
    | Begin(c: CallID, call: Call)
    | WriteBlob(c: CallID, outcome: Outcome, blobs: BlobStore)
    | WriteSegment(c: CallID, outcome: Outcome, segments: SegmentStore)
    | ReadBack(c: CallID)
    | WriteDelta(c: CallID, outcome: Outcome, deltas: map<DeltaKey, Stored<Delta>>)
    | FoldOwn(c: CallID)
    | Crash(c: CallID)
    | Restart(p: Process)
    | LoadNothing(p: Process)
    | LoadSnapshot(p: Process, key: SnapshotKey)
    | ListDeltas(p: Process)
    | FinishRefresh(p: Process, order: seq<DeltaKey>)
    | AbortRefresh(p: Process)
    | PublishSnapshot(p: Process, now: Time, outcome: Outcome, snapshots: map<SnapshotKey, Stored<Snapshot>>)
    | Rebuild(p: Process, scan: seq<SegmentKey>, records: seq<Record>)
    | DamageDelta(d: DeltaKey)
    | DamageSnapshot(key: SnapshotKey)

  ghost function Initial(): System {
    System(map[], map[], map[], map[], map[], map[])
  }

  // ----- Folding -----

  /** apply on a view. */
  function Folded(view: View, key: DeltaKey, delta: Delta): View {
    if key in view.applied then view
    else view.(values := MergeInto(view.values, delta.conversationID, Absorb(delta)), applied := view.applied + {key})
  }

  function FoldAll(view: View, order: seq<DeltaKey>, deltas: map<DeltaKey, Stored<Delta>>): View
    requires forall d | d in order :: d in deltas && deltas[d].Plain?
  {
    if order == [] then view
    else
      var d := order[|order| - 1];
      Folded(FoldAll(view, order[..|order| - 1], deltas), d, deltas[d].sealed.value)
  }

  function SnapshotOf(view: View, now: Time, rows: seq<Conversation>): Snapshot {
    Snapshot(now, rows, view.applied)
  }

  ghost function PublishKey(view: View, now: Time): SnapshotKey {
    SnapshotKey(|view.applied|, now, SnapshotOf(view, now, Table(view.values)))
  }

  // ----- Steps -----

  ghost predicate Enabled(cfg: Config, s: System, step: Step) {
    match step
    case Begin(c, call) =>
      && c !in s.calls && |call.inputs| <= |call.plan.freshIDs|
      && BuildSegment(cfg, call.plan, call.inputs).Some?
      && call.phase == WritingBlobs(BuildSegment(cfg, call.plan, call.inputs).value, 0)
    case WriteBlob(c, outcome, blobs) =>
      && c in s.calls && s.calls[c].phase.WritingBlobs?
      && var needed := BlobsOf(s.calls[c].phase.segment.entries);
      && s.calls[c].phase.written < |needed|
      && var b := needed[s.calls[c].phase.written];
      Put(s.blobs, ContentSha(b), b, outcome, blobs)
    case WriteSegment(c, outcome, segments) =>
      && c in s.calls && s.calls[c].phase.WritingBlobs?
      && s.calls[c].phase.written == |BlobsOf(s.calls[c].phase.segment.entries)|
      && Put(s.segments, s.calls[c].plan.key, Seal(s.calls[c].phase.segment), outcome, segments)
    case ReadBack(c) =>
      c in s.calls && s.calls[c].phase.Resolving? && s.calls[c].plan.key in s.segments
    case WriteDelta(c, outcome, deltas) =>
      && c in s.calls && s.calls[c].phase.Projecting?
      && OneConversation(RecordsOf(s.calls[c].phase.segment))
      && var key := s.calls[c].plan.key;
      Put(s.deltas, DeltaKey(key), Plain(Seal(DeltaOf(key, s.calls[c].phase.segment))), outcome, deltas)
    case FoldOwn(c) =>
      && c in s.calls && s.calls[c].phase.Observing?
      && OneConversation(RecordsOf(s.calls[c].phase.segment))
      && s.calls[c].process in s.views && s.views[s.calls[c].process].listing.None?
    case Crash(c) => c in s.calls && !s.calls[c].phase.Acknowledged?
    case Restart(p) => true
    case LoadNothing(p) =>
      p in s.views && !s.views[p].loaded && s.views[p].listing.None? && s.snapshots == map[]
    case LoadSnapshot(p, key) =>
      && p in s.views && !s.views[p].loaded && s.views[p].listing.None?
      && key in s.snapshots && AcceptsSnapshot(s.snapshots[key])
    case ListDeltas(p) => p in s.views && s.views[p].loaded && s.views[p].listing.None?
    case FinishRefresh(p, order) =>
      && p in s.views && s.views[p].listing.Some?
      && NoDuplicates(order) && Elements(order) == s.views[p].listing.value - s.views[p].applied
      && forall d | d in order :: d in s.deltas && AcceptsDelta(d, s.deltas[d])
    case AbortRefresh(p) => p in s.views && s.views[p].listing.Some?
    case PublishSnapshot(p, now, outcome, snapshots) =>
      && p in s.views && s.views[p].loaded && s.views[p].listing.None? && now != ZERO_TIME
      && var key := PublishKey(s.views[p], now);
      Put(s.snapshots, key, Plain(Seal(key.digestOf)), outcome, snapshots)
    case Rebuild(p, order, records) =>
      && p in s.views && s.views[p].listing.None?
      && NoDuplicates(order) && Elements(order) == s.segments.Keys
      && (forall k | k in order :: k in s.segments && Readable(k, s.segments[k], cfg.normalize))
      && DistinctIDs(Concat(s.segments, order)) && multiset(records) == multiset(Concat(s.segments, order))
    case DamageDelta(d) => d in s.deltas
    case DamageSnapshot(key) => key in s.snapshots
  }

  function Moved(s: System, c: CallID, phase: Phase): map<CallID, Call>
    requires c in s.calls
  {
    s.calls[c := s.calls[c].(phase := phase)]
  }

  predicate Landed(outcome: Outcome) {
    outcome.Created? || outcome.AlreadyPresent?
  }

  ghost function After(cfg: Config, s: System, step: Step): System
    requires Enabled(cfg, s, step)
  {
    match step
    case Begin(c, call) => s.(calls := s.calls[c := call])
    case WriteBlob(c, outcome, blobs) =>
      var phase := s.calls[c].phase;
      s.(blobs := blobs, calls := Moved(s, c, if Landed(outcome) then phase.(written := phase.written + 1) else Dead))
    case WriteSegment(c, outcome, segments) =>
      s.(segments := segments,
         calls := Moved(s, c, if Landed(outcome) then Projecting(s.calls[c].phase.segment, WithNumbers(s.calls[c].phase.segment, s.calls[c].inputs))
                              else if outcome.Conflict? then Resolving else Dead))
    case ReadBack(c) =>
      var call := s.calls[c];
      var stored := s.segments[call.plan.key];
      s.(calls := Moved(s, c, if !Readable(call.plan.key, stored, cfg.normalize) then Dead
                              else if SameBatch(stored.value, call.inputs, cfg.normalize) then Projecting(stored.value, stored.value)
                              else Refused))
    case WriteDelta(c, outcome, deltas) =>
      s.(deltas := deltas, calls := Moved(s, c, if Landed(outcome) then Observing(s.calls[c].phase.segment, s.calls[c].phase.held) else Dead))
    case FoldOwn(c) =>
      var call := s.calls[c];
      var view := s.views[call.process];
      var folded := if view.loaded then Folded(view, DeltaKey(call.plan.key), DeltaOf(call.plan.key, call.phase.segment)) else view;
      s.(views := s.views[call.process := folded], calls := Moved(s, c, Acknowledged(call.phase.segment, call.phase.held)))
    case Crash(c) => s.(calls := Moved(s, c, Dead))
    case Restart(p) => s.(views := s.views[p := UNLOADED])
    case LoadNothing(p) => s.(views := s.views[p := View(true, map[], {}, None)])
    case LoadSnapshot(p, key) =>
      var snapshot := s.snapshots[key].sealed.value;
      s.(views := s.views[p := View(true, Restore(snapshot.conversations), snapshot.applied, None)])
    case ListDeltas(p) => s.(views := s.views[p := s.views[p].(listing := Some(s.deltas.Keys))])
    case FinishRefresh(p, order) => s.(views := s.views[p := FoldAll(s.views[p], order, s.deltas).(listing := None)])
    case AbortRefresh(p) => s.(views := s.views[p := s.views[p].(listing := None)])
    case PublishSnapshot(p, now, outcome, snapshots) => s.(snapshots := snapshots)
    case Rebuild(p, order, records) =>
      s.(views := s.views[p := View(true, Restore(Listing(Summarize(records), -1)), DeltaKeys(s.segments.Keys), None)])
    case DamageDelta(d) => s.(deltas := s.deltas[d := Garbled])
    case DamageSnapshot(key) => s.(snapshots := s.snapshots[key := Garbled])
  }

  // ----- The invariant -----

  /** Some batch built this stored segment under this key. */
  ghost predicate BuiltFrom(cfg: Config, key: SegmentKey, segment: Segment, plan: Plan, inputs: seq<AppendInput>) {
    && plan.key == key && |inputs| <= |plan.freshIDs|
    && BuildSegment(cfg, plan, inputs) == Some(segment)
  }

  ghost predicate HasOrigin(cfg: Config, key: SegmentKey, segment: Segment) {
    exists plan, inputs :: BuiltFrom(cfg, key, segment, plan, inputs)
  }

  ghost predicate StoreInv(cfg: Config, blobs: BlobStore, segments: SegmentStore) {
    && HonestBlobs(blobs)
    && (forall k | k in segments :: Verifies(k, segments[k], cfg.normalize) && SegmentResolves(segments[k].value, blobs))
    && forall k | k in segments :: HasOrigin(cfg, k, segments[k].value)
  }

  /** A readable delta object is exactly the delta of its stored segment. */
  ghost predicate DeltaInv1(d: DeltaKey, stored: Stored<Delta>, segments: SegmentStore) {
    && d.source in segments && OneConversation(RecordsOf(segments[d.source].value))
    && (stored.Plain? ==> stored == Plain(Seal(DeltaOf(d.source, segments[d.source].value))))
  }

  ghost predicate DeltaInv(deltas: map<DeltaKey, Stored<Delta>>, segments: SegmentStore) {
    forall d | d in deltas :: DeltaInv1(d, deltas[d], segments)
  }

  ghost predicate ViewInv1(view: View, segments: SegmentStore, deltas: set<DeltaKey>) {
    && Faithful(view.values, view.applied, segments)
    && (view.listing.Some? ==> view.listing.value <= deltas)
  }

  ghost predicate ViewInv(views: map<Process, View>, segments: SegmentStore, deltas: set<DeltaKey>) {
    forall p | p in views :: ViewInv1(views[p], segments, deltas)
  }

  /** The call's batch is committed as segment; it holds that segment with the batch's own numbers. */
  ghost predicate Committed(cfg: Config, segments: SegmentStore, call: Call, segment: Segment, held: Segment) {
    && call.plan.key in segments && segments[call.plan.key].value == segment
    && OneConversation(RecordsOf(segment))
    && |call.inputs| <= |call.plan.freshIDs|
    && held == WithNumbers(segment, call.inputs)
    && (BuildSegment(cfg, call.plan, call.inputs) == Some(segment)
        || (SameBatch(segment, call.inputs, cfg.normalize) && Decodable(segment) && held == segment))
  }

  ghost predicate CallInv1(cfg: Config, blobs: BlobStore, segments: SegmentStore, deltas: set<DeltaKey>, call: Call) {
    && |call.inputs| <= |call.plan.freshIDs| && BuildSegment(cfg, call.plan, call.inputs).Some?
    && match call.phase
       case WritingBlobs(segment, written) =>
         && segment == BuildSegment(cfg, call.plan, call.inputs).value
         && written <= |BlobsOf(segment.entries)|
         && BlobsPresent(blobs, BlobsOf(segment.entries)[..written])
       case Resolving => call.plan.key in segments
       case Projecting(segment, held) => Committed(cfg, segments, call, segment, held)
       case Observing(segment, held) => Committed(cfg, segments, call, segment, held) && DeltaKey(call.plan.key) in deltas
       case Acknowledged(segment, held) => Committed(cfg, segments, call, segment, held) && DeltaKey(call.plan.key) in deltas
       case Refused => call.plan.key in segments && !SameBatch(segments[call.plan.key].value, call.inputs, cfg.normalize)
       case Dead => true
  }

  ghost predicate CallInv(cfg: Config, blobs: BlobStore, segments: SegmentStore, deltas: set<DeltaKey>, calls: map<CallID, Call>) {
    forall c | c in calls :: CallInv1(cfg, blobs, segments, deltas, calls[c])
  }

  ghost predicate Inv(cfg: Config, s: System) {
    && StoreInv(cfg, s.blobs, s.segments)
    && DeltaInv(s.deltas, s.segments)
    && GenuineSnapshots(s.snapshots, s.segments)
    && ViewInv(s.views, s.segments, s.deltas.Keys)
    && CallInv(cfg, s.blobs, s.segments, s.deltas.Keys, s.calls)
  }

  // ----- Objects are immutable: what holds of a store holds of a larger one -----

  lemma CallsKept(cfg: Config, s: System, blobs: BlobStore, segments: SegmentStore, deltas: set<DeltaKey>)
    requires CallInv(cfg, s.blobs, s.segments, s.deltas.Keys, s.calls)
    requires Grows(s.blobs, blobs) && Grows(s.segments, segments) && s.deltas.Keys <= deltas
    ensures CallInv(cfg, blobs, segments, deltas, s.calls)
  {
    forall c | c in s.calls ensures CallInv1(cfg, blobs, segments, deltas, s.calls[c]) {
      assert CallInv1(cfg, s.blobs, s.segments, s.deltas.Keys, s.calls[c]);
    }
  }

  lemma StoreKept(cfg: Config, blobs: BlobStore, segments: SegmentStore, more: BlobStore)
    requires StoreInv(cfg, blobs, segments) && Grows(blobs, more) && HonestBlobs(more)
    ensures StoreInv(cfg, more, segments)
  {
    forall k | k in segments ensures SegmentResolves(segments[k].value, more) {
      forall i | 0 <= i < |segments[k].value.entries| ensures Resolves(segments[k].value.entries[i].record.value, more) {
        assert Resolves(segments[k].value.entries[i].record.value, blobs);
      }
    }
  }

  lemma FaithfulKept(values: Summary, applied: set<DeltaKey>, segments: SegmentStore, more: SegmentStore)
    requires Faithful(values, applied, segments) && Grows(segments, more)
    ensures Faithful(values, applied, more)
  {
    SumAppliedGrows(segments, more, applied);
  }

  lemma ProjectionKept(s: System, more: SegmentStore)
    requires DeltaInv(s.deltas, s.segments) && GenuineSnapshots(s.snapshots, s.segments)
    requires ViewInv(s.views, s.segments, s.deltas.Keys) && Grows(s.segments, more)
    ensures DeltaInv(s.deltas, more) && GenuineSnapshots(s.snapshots, more) && ViewInv(s.views, more, s.deltas.Keys)
  {
    forall p | p in s.views ensures ViewInv1(s.views[p], more, s.deltas.Keys) {
      FaithfulKept(s.views[p].values, s.views[p].applied, s.segments, more);
    }
    forall k | k in s.snapshots && AcceptsSnapshot(s.snapshots[k])
      ensures Faithful(Restore(s.snapshots[k].sealed.value.conversations), s.snapshots[k].sealed.value.applied, more)
    {
      FaithfulKept(Restore(s.snapshots[k].sealed.value.conversations), s.snapshots[k].sealed.value.applied, s.segments, more);
    }
    forall d | d in s.deltas ensures DeltaInv1(d, s.deltas[d], more) {
      assert DeltaInv1(d, s.deltas[d], s.segments);
    }
  }

  lemma BuiltResolves(cfg: Config, plan: Plan, inputs: seq<AppendInput>, blobs: BlobStore)
    requires |inputs| <= |plan.freshIDs| && BuildSegment(cfg, plan, inputs).Some?
    requires BlobsPresent(blobs, BlobsOf(BuildSegment(cfg, plan, inputs).value.entries))
    ensures SegmentResolves(BuildSegment(cfg, plan, inputs).value, blobs)
    ensures Verifies(plan.key, Seal(BuildSegment(cfg, plan, inputs).value), cfg.normalize)
    ensures OneConversation(RecordsOf(BuildSegment(cfg, plan, inputs).value))
  {
    var segment := BuildSegment(cfg, plan, inputs).value;
    ValidSegmentHasOneConversation(segment, cfg.normalize);
    forall i | 0 <= i < |segment.entries| ensures Resolves(segment.entries[i].record.value, blobs) {
      BuildEntriesAt(cfg, plan, inputs, i);
      if segment.entries[i].record.value.content.External? { BlobsOfMember(segment.entries, i); }
    }
  }

  // ----- Preservation, one kind of step at a time -----

  lemma StepBlob(cfg: Config, s: System, c: CallID, outcome: Outcome, blobs: BlobStore)
    requires Inv(cfg, s) && Enabled(cfg, s, WriteBlob(c, outcome, blobs))
    ensures Inv(cfg, After(cfg, s, WriteBlob(c, outcome, blobs)))
  {
    hide BuildSegment, SameBatch, WithNumbers, Decodable, ValidSegment, SumApplied, Summarize, DeltaOf, Restore, OneConversation, BlobsOf, Table, Concat, RecordsOf, AcceptsDelta, AcceptsSnapshot, Elements;
    CallsKept(cfg, s, blobs, s.segments, s.deltas.Keys);
    StoreKept(cfg, s.blobs, s.segments, blobs);
    var call := s.calls[c];
    var needed, w := BlobsOf(call.phase.segment.entries), call.phase.written;
    assert CallInv1(cfg, blobs, s.segments, s.deltas.Keys, call);
    assert needed[..w + 1] == needed[..w] + [needed[w]];
  }

  lemma StepSegment(cfg: Config, s: System, c: CallID, outcome: Outcome, segments: SegmentStore)
    requires Inv(cfg, s) && Enabled(cfg, s, WriteSegment(c, outcome, segments))
    ensures Inv(cfg, After(cfg, s, WriteSegment(c, outcome, segments)))
  {
    hide BuildSegment, SameBatch, WithNumbers, Decodable, ValidSegment, SumApplied, Summarize, DeltaOf, Restore, OneConversation, BlobsOf, Table, Concat, RecordsOf, AcceptsDelta, AcceptsSnapshot, Elements;
    var call := s.calls[c];
    assert CallInv1(cfg, s.blobs, s.segments, s.deltas.Keys, call);
    var needed := BlobsOf(call.phase.segment.entries);
    assert needed[..|needed|] == needed;
    BuiltResolves(cfg, call.plan, call.inputs, s.blobs);
    SegmentArrives(cfg, s.blobs, s.segments, call.plan, call.inputs, outcome, segments);
    CallsKept(cfg, s, s.blobs, segments, s.deltas.Keys);
    ProjectionKept(s, segments);
  }

  lemma SegmentArrives(cfg: Config, blobs: BlobStore, segments: SegmentStore, plan: Plan, inputs: seq<AppendInput>,
                       outcome: Outcome, after: SegmentStore)
    requires StoreInv(cfg, blobs, segments)
    requires |inputs| <= |plan.freshIDs| && BuildSegment(cfg, plan, inputs).Some?
    requires SegmentResolves(BuildSegment(cfg, plan, inputs).value, blobs)
    requires Verifies(plan.key, Seal(BuildSegment(cfg, plan, inputs).value), cfg.normalize)
    requires Put(segments, plan.key, Seal(BuildSegment(cfg, plan, inputs).value), outcome, after)
    ensures StoreInv(cfg, blobs, after) && Grows(segments, after)
  {
    assert BuiltFrom(cfg, plan.key, BuildSegment(cfg, plan, inputs).value, plan, inputs);
  }

  lemma StepReadBack(cfg: Config, s: System, c: CallID)
    requires Inv(cfg, s) && Enabled(cfg, s, ReadBack(c))
    ensures Inv(cfg, After(cfg, s, ReadBack(c)))
  {
    hide BuildSegment, SameBatch, WithNumbers, Decodable, ValidSegment, SumApplied, Summarize, DeltaOf, Restore, OneConversation, BlobsOf, Table, Concat, RecordsOf, AcceptsDelta, AcceptsSnapshot, Elements;
    var stored := s.segments[s.calls[c].plan.key].value;
    ValidSegmentHasOneConversation(stored, cfg.normalize);
    if SameBatch(stored, s.calls[c].inputs, cfg.normalize) { MatchingNumbers(stored, s.calls[c].inputs, cfg.normalize); }
    assert CallInv1(cfg, s.blobs, s.segments, s.deltas.Keys, s.calls[c]);
  }

  lemma StepDelta(cfg: Config, s: System, c: CallID, outcome: Outcome, deltas: map<DeltaKey, Stored<Delta>>)
    requires Inv(cfg, s) && Enabled(cfg, s, WriteDelta(c, outcome, deltas))
    ensures Inv(cfg, After(cfg, s, WriteDelta(c, outcome, deltas)))
  {
    hide BuildSegment, SameBatch, WithNumbers, Decodable, ValidSegment, SumApplied, Summarize, DeltaOf, Restore, OneConversation, BlobsOf, Table, Concat, RecordsOf, AcceptsDelta, AcceptsSnapshot, Elements;
    var call := s.calls[c];
    assert CallInv1(cfg, s.blobs, s.segments, s.deltas.Keys, call);
    forall d | d in deltas ensures DeltaInv1(d, deltas[d], s.segments) {
      if d in s.deltas { assert DeltaInv1(d, s.deltas[d], s.segments); }
    }
    CallsKept(cfg, s, s.blobs, s.segments, deltas.Keys);
    forall p | p in s.views ensures ViewInv1(s.views[p], s.segments, deltas.Keys) {
      assert ViewInv1(s.views[p], s.segments, s.deltas.Keys);
    }
  }

  lemma StepFoldOwn(cfg: Config, s: System, c: CallID)
    requires Inv(cfg, s) && Enabled(cfg, s, FoldOwn(c))
    ensures Inv(cfg, After(cfg, s, FoldOwn(c)))
  {
    hide BuildSegment, SameBatch, WithNumbers, Decodable, ValidSegment, SumApplied, Summarize, DeltaOf, Restore, OneConversation, BlobsOf, Table, Concat, RecordsOf, AcceptsDelta, AcceptsSnapshot, Elements;
    var call := s.calls[c];
    assert CallInv1(cfg, s.blobs, s.segments, s.deltas.Keys, call);
    var view, key := s.views[call.process], DeltaKey(call.plan.key);
    assert ViewInv1(view, s.segments, s.deltas.Keys);
    if key !in view.applied {
      FaithfulApply(view.values, view.applied, s.segments, key);
    }
  }

  /** Folding genuine deltas in any order, repeats included, keeps a view faithful. */
  lemma {:induction false} FoldAllFaithful(deltas: map<DeltaKey, Stored<Delta>>, segments: SegmentStore, view: View, order: seq<DeltaKey>)
    requires DeltaInv(deltas, segments) && Faithful(view.values, view.applied, segments)
    requires forall d | d in order :: d in deltas && deltas[d].Plain?
    ensures var folded := FoldAll(view, order, deltas);
            && Faithful(folded.values, folded.applied, segments)
            && folded.applied == view.applied + Elements(order)
            && folded.loaded == view.loaded
  {
    hide SumApplied, Summarize, DeltaOf, MergeInto, Absorb, OneConversation, RecordsOf;
    if order != [] {
      var front, d := order[..|order| - 1], order[|order| - 1];
      assert order == front + [d];
      assert d in Elements(order) && Elements(front) <= Elements(order);
      FoldAllFaithful(deltas, segments, view, front);
      var partial := FoldAll(view, front, deltas);
      assert DeltaInv1(d, deltas[d], segments);
      if d !in partial.applied { FaithfulApply(partial.values, partial.applied, segments, d); }
      assert Elements(order) == Elements(front) + {d};
    }
  }

  /** So starting from nothing, deltas folded in any order and any number of times each list exactly
      what the direct aggregation of the segments' records does, in whatever order it reads them. */
  lemma FoldShowsScan(deltas: map<DeltaKey, Stored<Delta>>, segments: SegmentStore, order: seq<DeltaKey>,
                      keys: seq<SegmentKey>, records: seq<Record>, limit: int)
    requires DeltaInv(deltas, segments) && forall d | d in order :: d in deltas && deltas[d].Plain?
    requires NoDuplicates(keys) && DeltaKeys(Elements(keys)) == Elements(order) && forall k | k in keys :: k in segments
    requires multiset(records) == multiset(Concat(segments, keys))
    ensures Listing(FoldAll(UNLOADED, order, deltas).values, limit) == Listing(Summarize(records), limit)
  {
    hide Summarize, Listing, Concat, FoldAll, DeltaInv;
    NothingIsFaithful(segments);
    FoldAllFaithful(deltas, segments, UNLOADED, order);
    assert {} + Elements(order) == Elements(order);
    SumOfListing(segments, keys);
    SummarizePermutation(records, Concat(segments, keys));
  }

  lemma StepFinishRefresh(cfg: Config, s: System, p: Process, order: seq<DeltaKey>)
    requires Inv(cfg, s) && Enabled(cfg, s, FinishRefresh(p, order))
    ensures Inv(cfg, After(cfg, s, FinishRefresh(p, order)))
    ensures p in After(cfg, s, FinishRefresh(p, order)).views
    ensures After(cfg, s, FinishRefresh(p, order)).views[p].applied == s.views[p].applied + s.views[p].listing.value
  {
    hide BuildSegment, SameBatch, WithNumbers, Decodable, ValidSegment, SumApplied, Summarize, DeltaOf, Restore, OneConversation, BlobsOf, Table, Concat, RecordsOf, AcceptsSnapshot;
    assert ViewInv1(s.views[p], s.segments, s.deltas.Keys);
    FoldAllFaithful(s.deltas, s.segments, s.views[p], order);
  }

  lemma StepPublish(cfg: Config, s: System, p: Process, now: Time, outcome: Outcome, snapshots: map<SnapshotKey, Stored<Snapshot>>)
    requires Inv(cfg, s) && Enabled(cfg, s, PublishSnapshot(p, now, outcome, snapshots))
    ensures Inv(cfg, After(cfg, s, PublishSnapshot(p, now, outcome, snapshots)))
  {
    hide BuildSegment, SameBatch, WithNumbers, Decodable, ValidSegment, SumApplied, Summarize, DeltaOf, Restore, OneConversation, BlobsOf, Table, Concat, RecordsOf, AcceptsDelta, AcceptsSnapshot, Elements;
    RestoreTable(s.views[p].values);
    assert ViewInv1(s.views[p], s.segments, s.deltas.Keys);
  }

  lemma StepRebuild(cfg: Config, s: System, p: Process, scan: seq<SegmentKey>, records: seq<Record>)
    requires Inv(cfg, s) && Enabled(cfg, s, Rebuild(p, scan, records))
    ensures Inv(cfg, After(cfg, s, Rebuild(p, scan, records)))
  {
    hide BuildSegment, SameBatch, WithNumbers, Decodable, ValidSegment, SumApplied, Summarize, DeltaOf, Restore, OneConversation, BlobsOf, Table, Concat, RecordsOf, AcceptsDelta, AcceptsSnapshot, Elements;
    ScanIsFaithful(s.segments, records, scan);
  }

  lemma StepOther(cfg: Config, s: System, step: Step)
    requires Inv(cfg, s) && Enabled(cfg, s, step)
    requires step.Begin? || step.Crash? || step.Restart? || step.LoadNothing? || step.LoadSnapshot? || step.ListDeltas?
          || step.AbortRefresh?
    ensures Inv(cfg, After(cfg, s, step))
  {
    hide BuildSegment, SameBatch, WithNumbers, Decodable, ValidSegment, SumApplied, Summarize, DeltaOf, Restore, OneConversation, BlobsOf, Table, Concat, RecordsOf, AcceptsDelta, AcceptsSnapshot, Elements;
    NothingIsFaithful(s.segments);
    if step.Crash? { assert CallInv1(cfg, s.blobs, s.segments, s.deltas.Keys, s.calls[step.c]); }
    if step.ListDeltas? || step.AbortRefresh? { assert ViewInv1(s.views[step.p], s.segments, s.deltas.Keys); }
  }

  lemma StepDamage(cfg: Config, s: System, step: Step)
    requires Inv(cfg, s) && Enabled(cfg, s, step) && (step.DamageDelta? || step.DamageSnapshot?)
    ensures Inv(cfg, After(cfg, s, step))
  {
    hide BuildSegment, SameBatch, WithNumbers, Decodable, ValidSegment, SumApplied, Summarize, DeltaOf, Restore, OneConversation, BlobsOf, Table, Concat, RecordsOf, Elements;
    if step.DamageDelta? {
      assert s.deltas[step.d := Garbled].Keys == s.deltas.Keys;
      assert DeltaInv1(step.d, s.deltas[step.d], s.segments);
    }
  }

  lemma StepKeepsInv(cfg: Config, s: System, step: Step)
    requires Inv(cfg, s) && Enabled(cfg, s, step)
    ensures Inv(cfg, After(cfg, s, step))
  {
    hide Inv, Enabled, After;
    match step
    case WriteBlob(c, outcome, blobs) => StepBlob(cfg, s, c, outcome, blobs);
    case WriteSegment(c, outcome, segments) => StepSegment(cfg, s, c, outcome, segments);
    case ReadBack(c) => StepReadBack(cfg, s, c);
    case WriteDelta(c, outcome, deltas) => StepDelta(cfg, s, c, outcome, deltas);
    case FoldOwn(c) => StepFoldOwn(cfg, s, c);
    case FinishRefresh(p, order) => StepFinishRefresh(cfg, s, p, order);
    case PublishSnapshot(p, now, outcome, snapshots) => StepPublish(cfg, s, p, now, outcome, snapshots);
    case Rebuild(p, scan, records) => StepRebuild(cfg, s, p, scan, records);
    case DamageDelta(_) => StepDamage(cfg, s, step);
    case DamageSnapshot(_) => StepDamage(cfg, s, step);
    case _ => StepOther(cfg, s, step);
  }
}
