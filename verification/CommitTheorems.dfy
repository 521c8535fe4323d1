/** What every run of the commit protocol guarantees. */
module CommitTheorems {
  import opened Basics
  import opened Sorting
  import opened Records
  import opened Aggregates
  import opened ObjectStore
  import opened Projection
  import opened ConversationView
  import opened AppendBatch
  import opened HistoryReads
  import opened CommitProtocol

  ghost predicate Run(cfg: Config, states: seq<System>, steps: seq<Step>) {
    && |states| == |steps| + 1 && states[0] == Initial()
    && forall i | 0 <= i < |steps| :: Enabled(cfg, states[i], steps[i]) && states[i + 1] == After(cfg, states[i], steps[i])
  }

  lemma {:induction false} RunKeepsInv(cfg: Config, states: seq<System>, steps: seq<Step>, i: nat)
    requires Run(cfg, states, steps) && i < |states|
    ensures Inv(cfg, states[i])
  {
    hide Inv, Enabled, After;
    if i > 0 {
      RunKeepsInv(cfg, states, steps, i - 1);
      StepKeepsInv(cfg, states[i - 1], steps[i - 1]);
    } else {
      NothingYet(cfg);
    }
  }

  lemma NothingYet(cfg: Config)
    ensures Inv(cfg, Initial())
  {
  }

  /** A run that starts in s. */
  ghost predicate RunFrom(cfg: Config, s: System, states: seq<System>, steps: seq<Step>) {
    && |states| == |steps| + 1 && states[0] == s
    && forall i | 0 <= i < |steps| :: Enabled(cfg, states[i], steps[i]) && states[i + 1] == After(cfg, states[i], steps[i])
  }

  lemma FromSnoc(cfg: Config, s: System, states: seq<System>, steps: seq<Step>, step: Step)
    requires RunFrom(cfg, s, states, steps) && Enabled(cfg, states[|steps|], step)
    ensures RunFrom(cfg, s, states + [After(cfg, states[|steps|], step)], steps + [step])
  {
    hide Enabled, After;
  }

  // ----- No source is counted twice or in part -----

  /** In every run, each live view and each snapshot that still verifies is the aggregate of
      exactly the segments its applied keys name. */
  lemma ViewsAndSnapshotsFaithful(cfg: Config, states: seq<System>, steps: seq<Step>, i: nat)
    requires Run(cfg, states, steps) && i < |states|
    ensures forall p | p in states[i].views :: Faithful(states[i].views[p].values, states[i].views[p].applied, states[i].segments)
    ensures forall k | k in states[i].snapshots && AcceptsSnapshot(states[i].snapshots[k]) ::
              Faithful(Restore(states[i].snapshots[k].sealed.value.conversations), states[i].snapshots[k].sealed.value.applied, states[i].segments)
  {
    RunKeepsInv(cfg, states, steps, i);
    forall p | p in states[i].views ensures Faithful(states[i].views[p].values, states[i].views[p].applied, states[i].segments) {
      assert ViewInv1(states[i].views[p], states[i].segments, states[i].deltas.Keys);
    }
  }

  /** So the published listing of a view is the from-scratch aggregate of the records of those
      segments, read in any order. */
  lemma ViewShowsScan(cfg: Config, states: seq<System>, steps: seq<Step>, i: nat, p: Process, keys: seq<SegmentKey>, records: seq<Record>, limit: int)
    requires Run(cfg, states, steps) && i < |states| && p in states[i].views
    requires NoDuplicates(keys) && DeltaKeys(Elements(keys)) == states[i].views[p].applied
    ensures forall k | k in keys :: k in states[i].segments
    ensures multiset(records) == multiset(Concat(states[i].segments, keys)) ==>
              Listing(states[i].views[p].values, limit) == Listing(Summarize(records), limit)
  {
    ViewsAndSnapshotsFaithful(cfg, states, steps, i);
    var s := states[i];
    forall k | k in keys ensures k in s.segments {
      assert k in Elements(keys);
      assert DeltaKey(k) in DeltaKeys(Elements(keys));
    }
    SumOfListing(s.segments, keys);
    if multiset(records) == multiset(Concat(s.segments, keys)) {
      SummarizePermutation(records, Concat(s.segments, keys));
    }
  }

  // ----- Nothing acknowledged is missed -----

  lemma StepGrows(cfg: Config, s: System, step: Step)
    requires Enabled(cfg, s, step)
    ensures Grows(s.segments, After(cfg, s, step).segments) && Grows(s.blobs, After(cfg, s, step).blobs)
    ensures s.deltas.Keys <= After(cfg, s, step).deltas.Keys
    ensures forall c | c in s.calls && s.calls[c].phase.Acknowledged? ::
              c in After(cfg, s, step).calls && After(cfg, s, step).calls[c] == s.calls[c]
  {
    hide BuildSegment, SameBatch, WithNumbers, Decodable, ValidSegment, SumApplied, Summarize, DeltaOf, Restore, OneConversation, BlobsOf, Table, Concat, RecordsOf, AcceptsDelta, AcceptsSnapshot, Elements;
  }

  /** Objects are never changed or removed, and an acknowledgment is final. */
  lemma {:induction false} RunGrows(cfg: Config, states: seq<System>, steps: seq<Step>, i: nat, j: nat)
    requires Run(cfg, states, steps) && i <= j < |states|
    ensures Grows(states[i].segments, states[j].segments) && Grows(states[i].blobs, states[j].blobs)
    ensures states[i].deltas.Keys <= states[j].deltas.Keys
    ensures forall c | c in states[i].calls && states[i].calls[c].phase.Acknowledged? ::
              c in states[j].calls && states[j].calls[c] == states[i].calls[c]
  {
    hide Enabled, After;
    if i < j {
      RunGrows(cfg, states, steps, i, j - 1);
      StepGrows(cfg, states[j - 1], steps[j - 1]);
    }
  }

  /** The steps that end a refresh of process p. */
  predicate EndsRefresh(step: Step, p: Process) {
    (step.FinishRefresh? || step.AbortRefresh? || step.Restart?) && step.p == p
  }

  lemma RefreshHoldsLock(cfg: Config, s: System, step: Step, p: Process)
    requires Enabled(cfg, s, step) && p in s.views && s.views[p].listing.Some? && !EndsRefresh(step, p)
    ensures p in After(cfg, s, step).views && After(cfg, s, step).views[p] == s.views[p]
  {
    hide BuildSegment, SameBatch, WithNumbers, Decodable, ValidSegment, SumApplied, Summarize, DeltaOf, Restore, OneConversation, BlobsOf, Table, Concat, RecordsOf, AcceptsDelta, AcceptsSnapshot, Elements;
  }

  lemma {:induction false} ListingKept(cfg: Config, states: seq<System>, steps: seq<Step>, a: nat, b: nat, p: Process)
    requires Run(cfg, states, steps) && a < b < |states| && steps[a] == ListDeltas(p)
    requires forall m | a < m < b :: !EndsRefresh(steps[m], p)
    ensures p in states[b].views && states[b].views[p].listing == Some(states[a].deltas.Keys)
  {
    hide Enabled, After;
    if b == a + 1 {
      ListingStarts(cfg, states[a], p);
    } else {
      ListingKept(cfg, states, steps, a, b - 1, p);
      RefreshHoldsLock(cfg, states[b - 1], steps[b - 1], p);
    }
  }

  lemma ListingStarts(cfg: Config, s: System, p: Process)
    requires Enabled(cfg, s, ListDeltas(p))
    ensures p in After(cfg, s, ListDeltas(p)).views && After(cfg, s, ListDeltas(p)).views[p].listing == Some(s.deltas.Keys)
  {
    hide BuildSegment, SameBatch, WithNumbers, Decodable, ValidSegment, SumApplied, Summarize, DeltaOf, Restore, OneConversation, BlobsOf, Table, Concat, RecordsOf, AcceptsDelta, AcceptsSnapshot, Elements;
  }

  /** An append acknowledged before a refresh LISTs is in the view when that refresh ends, counted
      exactly once: whichever snapshot the view started from, whatever ran in between, and in
      whatever order the deltas arrived. */
  lemma AcknowledgedIsCounted(cfg: Config, states: seq<System>, steps: seq<Step>, i: nat, c: CallID, a: nat, b: nat, p: Process)
    requires Run(cfg, states, steps) && i <= a < b < |steps|
    requires c in states[i].calls && states[i].calls[c].phase.Acknowledged?
    requires steps[a] == ListDeltas(p) && steps[b].FinishRefresh? && steps[b].p == p
    requires forall m | a < m < b :: !EndsRefresh(steps[m], p)
    ensures p in states[b + 1].views
    ensures var view, key, segment := states[b + 1].views[p], DeltaKey(states[i].calls[c].plan.key), states[i].calls[c].phase.segment;
            && key in view.applied && key.source in states[b + 1].segments
            && states[b + 1].segments[key.source].value == segment
            && Covers(states[b + 1].segments, view.applied - {key})
            && view.values == Combine(SumApplied(states[b + 1].segments, view.applied - {key}), Summarize(RecordsOf(segment)))
  {
    hide Enabled, After, BuildSegment, SameBatch, SumApplied, Summarize, RecordsOf, OneConversation, BlobsOf, Combine, Restore, Integrity;
    var key := DeltaKey(states[i].calls[c].plan.key);
    RunKeepsInv(cfg, states, steps, i);
    assert CallInv1(cfg, states[i].blobs, states[i].segments, states[i].deltas.Keys, states[i].calls[c]);
    RunGrows(cfg, states, steps, i, a);
    RunGrows(cfg, states, steps, i, b + 1);
    ListingKept(cfg, states, steps, a, b, p);
    RunKeepsInv(cfg, states, steps, b);
    StepFinishRefresh(cfg, states[b], p, steps[b].order);
    var view := states[b + 1].views[p];
    ViewsAndSnapshotsFaithful(cfg, states, steps, b + 1);
    SumAppliedRemove(states[b + 1].segments, view.applied, key);
  }

  // ----- Racing and retried appends -----

  /** All acknowledged calls under one key committed or found the same segment, and it is the stored one,
      for ever. Each returned it with the sequence numbers of its own batch, so two of them returned the
      same if and only if their numbers are the same. */
  lemma AcknowledgedAgree(cfg: Config, states: seq<System>, steps: seq<Step>, i: nat, j: nat, c: CallID, d: CallID)
    requires Run(cfg, states, steps) && i <= j < |states|
    requires c in states[i].calls && states[i].calls[c].phase.Acknowledged?
    requires d in states[j].calls && states[j].calls[d].phase.Acknowledged?
    requires states[i].calls[c].plan.key == states[j].calls[d].plan.key
    ensures states[i].calls[c].phase.segment == states[j].calls[d].phase.segment
    ensures states[i].calls[c].plan.key in states[j].segments
    ensures states[j].segments[states[i].calls[c].plan.key].value == states[i].calls[c].phase.segment
    ensures states[i].calls[c].phase.held == WithNumbers(states[i].calls[c].phase.segment, states[i].calls[c].inputs)
    ensures states[i].calls[c].phase.held == states[j].calls[d].phase.held
       <==> Numbers(states[i].calls[c].inputs) == Numbers(states[j].calls[d].inputs)
  {
    hide Enabled, After, BuildSegment, SameBatch, WithNumbers, Decodable, SumApplied, Summarize, RecordsOf, OneConversation, BlobsOf, Integrity, Restore;
    RunKeepsInv(cfg, states, steps, i);
    RunKeepsInv(cfg, states, steps, j);
    RunGrows(cfg, states, steps, i, j);
    assert CallInv1(cfg, states[i].blobs, states[i].segments, states[i].deltas.Keys, states[i].calls[c]);
    assert CallInv1(cfg, states[j].blobs, states[j].segments, states[j].deltas.Keys, states[j].calls[d]);
    CommittedSize(cfg, states[i].segments, states[i].calls[c]);
    CommittedSize(cfg, states[j].segments, states[j].calls[d]);
    NumbersShow(states[i].calls[c].phase.segment, states[i].calls[c].inputs, states[j].calls[d].inputs);
  }

  function Numbers(inputs: seq<AppendInput>): (r: seq<Option<UInt64>>)
    ensures |r| == |inputs|
  {
    seq(|inputs|, i requires 0 <= i < |inputs| => inputs[i].sequence)
  }

  lemma CommittedSize(cfg: Config, segments: SegmentStore, call: Call)
    requires call.phase.Acknowledged? && Committed(cfg, segments, call, call.phase.segment, call.phase.held)
    ensures |call.phase.segment.entries| == |call.inputs|
  {
    hide WithNumbers;
  }

  lemma NumbersShow(segment: Segment, a: seq<AppendInput>, b: seq<AppendInput>)
    requires |segment.entries| == |a| == |b|
    ensures WithNumbers(segment, a) == WithNumbers(segment, b) <==> Numbers(a) == Numbers(b)
  {
    var x, y := WithNumbers(segment, a), WithNumbers(segment, b);
    if x == y {
      forall i | 0 <= i < |a| ensures a[i].sequence == b[i].sequence {
        assert x.entries[i].record.value.sequence == a[i].sequence && y.entries[i].record.value.sequence == b[i].sequence;
      }
      assert Numbers(a) == Numbers(b);
    }
    if Numbers(a) == Numbers(b) {
      forall i | 0 <= i < |a| ensures x.entries[i] == y.entries[i] {
        assert Numbers(a)[i] == Numbers(b)[i];
      }
      assert x.entries == y.entries;
    }
  }

  /** An acknowledged call returned the stored segment if and only if the numbers of its own batch survive
      the encoding; and readers decode what it returned if and only if its content is shallow besides. */
  lemma ReturnsStoredIff(cfg: Config, states: seq<System>, steps: seq<Step>, i: nat, c: CallID)
    requires cfg.Lawful() && Run(cfg, states, steps) && i < |states|
    requires c in states[i].calls && states[i].calls[c].phase.Acknowledged?
    ensures var call, key := states[i].calls[c], states[i].calls[c].plan.key;
            && key in states[i].segments
            && (call.phase.held == states[i].segments[key].value <==> Survives(cfg, call.inputs))
            && (Readable(key, states[i].segments[key], cfg.normalize) && call.phase.held == states[i].segments[key].value
                <==> Survives(cfg, call.inputs) && AllShallow(cfg, call.inputs))
  {
    RunKeepsInv(cfg, states, steps, i);
    var s, call, key := states[i], states[i].calls[c], states[i].calls[c].plan.key;
    assert CallInv1(cfg, s.blobs, s.segments, s.deltas.Keys, call);
    assert StoreInv(cfg, s.blobs, s.segments);
    hide *;
    CommittedReturnsIff(cfg, s.blobs, s.segments, s.deltas.Keys, call);
  }

  lemma CommittedReturnsIff(cfg: Config, blobs: BlobStore, segments: SegmentStore, deltas: set<DeltaKey>, call: Call)
    requires cfg.Lawful() && StoreInv(cfg, blobs, segments)
    requires call.phase.Acknowledged? && CallInv1(cfg, blobs, segments, deltas, call)
    ensures call.plan.key in segments
    ensures var stored := segments[call.plan.key];
            && (call.phase.held == stored.value <==> Survives(cfg, call.inputs))
            && (Readable(call.plan.key, stored, cfg.normalize) && call.phase.held == stored.value
                <==> Survives(cfg, call.inputs) && AllShallow(cfg, call.inputs))
  {
    hide BuildSegment, SameBatch, WithNumbers, Decodable, Survives, AllShallow, AllDecode, ValidSegment, SegmentResolves, OneConversation, HonestBlobs;
    var key, segment := call.plan.key, call.phase.segment;
    assert HasOrigin(cfg, key, segment) && Verifies(key, segments[key], cfg.normalize) && segments[key] == Seal(segment);
    if BuildSegment(cfg, call.plan, call.inputs) == Some(segment) {
      StoredIsWritten(cfg, call.plan, call.inputs);
      BuiltReadableIff(cfg, call.plan, call.inputs);
      if Survives(cfg, call.inputs) { SurvivorsDecode(cfg, call.inputs); }
    } else {
      var plan: Plan, inputs: seq<AppendInput> :| BuiltFrom(cfg, key, segment, plan, inputs);
      MatchingSurvives(cfg, plan, inputs, call.inputs);
      BuiltReadableIff(cfg, plan, inputs);
      DecodersAreShallow(cfg, inputs);
    }
  }

  lemma DecodersAreShallow(cfg: Config, inputs: seq<AppendInput>)
    requires AllDecode(cfg, inputs)
    ensures AllShallow(cfg, inputs)
  {
    hide ShallowInput;
    forall i | 0 <= i < |inputs| ensures ShallowInput(cfg, inputs[i]) { assert DecodableInput(cfg, inputs[i]); }
  }

  lemma SurvivorsDecode(cfg: Config, inputs: seq<AppendInput>)
    requires Survives(cfg, inputs)
    ensures AllDecode(cfg, inputs) <==> AllShallow(cfg, inputs)
  {
    hide ShallowInput;
    forall i | 0 <= i < |inputs| ensures DecodableInput(cfg, inputs[i]) <==> ShallowInput(cfg, inputs[i]) {}
  }

  /** A call that finds its key taken fails if the committed batch does not decode (AllDecodeIff). Otherwise it is
      accepted exactly when its batch is equivalent to that one, whoever committed it and whenever,
      and refused when it is not. */
  lemma RetryDecided(cfg: Config, states: seq<System>, steps: seq<Step>, i: nat, c: CallID, plan: Plan, inputs: seq<AppendInput>)
    requires Run(cfg, states, steps) && i < |states| && Enabled(cfg, states[i], ReadBack(c))
    requires var key := states[i].calls[c].plan.key; BuiltFrom(cfg, key, states[i].segments[key].value, plan, inputs)
    ensures var call := states[i].calls[c];
            After(cfg, states[i], ReadBack(c)).calls[c].phase
            == if !AllDecode(cfg, inputs) then Dead
               else if Equivalent(cfg, plan, inputs, call.inputs) then Projecting(states[i].segments[call.plan.key].value, states[i].segments[call.plan.key].value)
               else Refused
  {
    hide SumApplied, Summarize, DeltaOf, Restore, BlobsOf, Table, Concat, ValidSegment, BuildSegment;
    RunKeepsInv(cfg, states, steps, i);
    BuiltReadableIff(cfg, plan, inputs);
    SameBatchIffEquivalent(cfg, plan, inputs, states[i].calls[c].inputs);
  }

  /** ... and the batch that was committed always exists. */
  lemma EverySegmentHasOrigin(cfg: Config, states: seq<System>, steps: seq<Step>, i: nat, key: SegmentKey)
    requires Run(cfg, states, steps) && i < |states| && key in states[i].segments
    ensures exists plan, inputs :: BuiltFrom(cfg, key, states[i].segments[key].value, plan, inputs)
  {
    RunKeepsInv(cfg, states, steps, i);
    assert HasOrigin(cfg, key, states[i].segments[key].value);
  }

  /** Deltas are deterministic, so writing one conflicts only with an object that was damaged. */
  lemma DeltaConflictMeansDamage(cfg: Config, states: seq<System>, steps: seq<Step>, i: nat, c: CallID, deltas: map<DeltaKey, Stored<Delta>>)
    requires Run(cfg, states, steps) && i < |states| && Enabled(cfg, states[i], WriteDelta(c, Conflict, deltas))
    ensures states[i].deltas[DeltaKey(states[i].calls[c].plan.key)] == Garbled
  {
    hide SumApplied, Summarize, DeltaOf, Restore, BlobsOf, Table, Concat, ValidSegment, BuildSegment, SameBatch;
    RunKeepsInv(cfg, states, steps, i);
    var call := states[i].calls[c];
    assert CallInv1(cfg, states[i].blobs, states[i].segments, states[i].deltas.Keys, call);
    assert DeltaInv1(DeltaKey(call.plan.key), states[i].deltas[DeltaKey(call.plan.key)], states[i].segments);
  }

  // ----- Stored content -----

  /** In every reachable store, after a crash anywhere, each committed record's content is the
      canonical form of the input it was built from, inline or through a blob that is present. */
  lemma StoredContentIsInput(cfg: Config, states: seq<System>, steps: seq<Step>, i: nat, key: SegmentKey,
                             plan: Plan, inputs: seq<AppendInput>, n: nat)
    requires Run(cfg, states, steps) && i < |states| && key in states[i].segments
    requires BuiltFrom(cfg, key, states[i].segments[key].value, plan, inputs) && n < |inputs|
    ensures |states[i].segments[key].value.entries| == |inputs| && cfg.normalize(inputs[n].content).Some?
    ensures var entry, content := states[i].segments[key].value.entries[n], cfg.normalize(inputs[n].content).value;
            match entry.record.value.content
            case Inline(_, _, _, _) => entry.content == Some(content)
            case External(sha, _) => entry.content == None && sha in states[i].blobs && states[i].blobs[sha] == content
  {
    RunKeepsInv(cfg, states, steps, i);
    BuildEntriesAt(cfg, plan, inputs, n);
    assert Resolves(states[i].segments[key].value.entries[n].record.value, states[i].blobs);
  }

  /** And its envelope is the input's: every field as it was sent, the id and the instant filled in if they
      were left out, the number as it is written, and the instant of the commit. */
  lemma StoredRecordIsInput(cfg: Config, states: seq<System>, steps: seq<Step>, i: nat, key: SegmentKey,
                            plan: Plan, inputs: seq<AppendInput>, n: nat)
    requires Run(cfg, states, steps) && i < |states| && key in states[i].segments
    requires BuiltFrom(cfg, key, states[i].segments[key].value, plan, inputs) && n < |inputs|
    ensures |states[i].segments[key].value.entries| == |inputs| && states[i].segments[key].value.createdAt == plan.now
    ensures states[i].segments[key].value.id == key.segmentID && states[i].segments[key].value.conversationID == key.conversationID
    ensures var record, input := states[i].segments[key].value.entries[n].record.value, inputs[n];
            && record.conversationID == input.conversationID && record.kind == input.kind && record.tags == input.tags
            && record.traceID == input.traceID && record.spanID == input.spanID && record.parentID == input.parentID
            && record.agent == input.agent && record.tool == input.tool && record.status == input.status
            && (input.recordID != "" ==> record.id == input.recordID) && (input.recordID == "" ==> record.id == plan.freshIDs[n])
            && (input.occurredAt.Some? ==> record.occurredAt == input.occurredAt.value) && (input.occurredAt.None? ==> record.occurredAt == plan.now)
            && record.recordedAt == plan.now
            && (input.sequence.None? <==> record.sequence.None?)
            && (input.sequence.Some? ==> record.sequence.value == cfg.sequenceAsWritten(input.sequence.value))
            && (record.content.Inline? <==> record.content.size <= cfg.maxInlineContentBytes)
  {
    BuildEntriesAt(cfg, plan, inputs, n);
  }

  /** A stored segment reads back, in every reachable store and for ever, exactly when every record of
      the batch it was built from decodes: its sequence number is below 2^64 - 1024, and its content, if
      inline, nests at most 9997 deep (AllDecodeIff). */
  lemma SegmentReadsIff(cfg: Config, states: seq<System>, steps: seq<Step>, i: nat, key: SegmentKey, plan: Plan, inputs: seq<AppendInput>)
    requires Run(cfg, states, steps) && i < |states| && key in states[i].segments
    requires BuiltFrom(cfg, key, states[i].segments[key].value, plan, inputs)
    ensures Readable(key, states[i].segments[key], cfg.normalize) <==> AllDecode(cfg, inputs)
  {
    hide BuildSegment, ValidSegment;
    RunKeepsInv(cfg, states, steps, i);
    BuiltReadableIff(cfg, plan, inputs);
  }

  /** Every batch behind a stored segment decodes. */
  ghost predicate BatchesDecode(cfg: Config, segments: SegmentStore) {
    forall key, plan, inputs | key in segments && BuiltFrom(cfg, key, segments[key].value, plan, inputs) :: AllDecode(cfg, inputs)
  }

  /** So a reachable store reads back completely, blobs included, exactly when all committed batches
      decode. */
  lemma ReachableIntegrity(cfg: Config, states: seq<System>, steps: seq<Step>, i: nat)
    requires Run(cfg, states, steps) && i < |states|
    ensures Integrity(states[i].segments, states[i].blobs, cfg.normalize) <==> BatchesDecode(cfg, states[i].segments)
  {
    hide BuiltFrom, AllDecode, Readable;
    RunKeepsInv(cfg, states, steps, i);
    var segments := states[i].segments;
    forall key, plan, inputs | key in segments && BuiltFrom(cfg, key, segments[key].value, plan, inputs)
      ensures Readable(key, segments[key], cfg.normalize) <==> AllDecode(cfg, inputs)
    {
      SegmentReadsIff(cfg, states, steps, i, key, plan, inputs);
    }
    forall key | key in segments ensures HasOrigin(cfg, key, segments[key].value) {}
  }

  /** And a check of the whole store is clean exactly when they do and no record id occurs in two
      segments. */
  lemma ReachableStoreClean(cfg: Config, states: seq<System>, steps: seq<Step>, i: nat, keys: seq<SegmentKey>)
    requires Run(cfg, states, steps) && i < |states|
    requires NoDuplicates(keys) && Elements(keys) == states[i].segments.Keys
    ensures Clean(states[i].segments, states[i].blobs, keys, cfg.normalize) <==>
              BatchesDecode(cfg, states[i].segments) && DistinctIDs(Concat(states[i].segments, keys))
  {
    hide BatchesDecode, DistinctIDs, Readable, SegmentResolves;
    ReachableIntegrity(cfg, states, steps, i);
    assert forall k | k in keys :: k in Elements(keys);
    assert forall k | k in states[i].segments :: k in Elements(keys) && k in keys;
  }

  // ----- Refreshes do not get stuck on what the protocol wrote -----

  lemma GenuineDeltaAccepted(d: DeltaKey, segment: Segment, normalize: Bytes -> Option<Bytes>)
    requires ValidSegment(segment, normalize) && OneConversation(RecordsOf(segment))
    ensures AcceptsDelta(d, Plain(Seal(DeltaOf(d.source, segment))))
  {
    var records := RecordsOf(segment);
    OneConversationSummary(records);
    SummarizeDescribes(records);
    var id := records[0].conversationID;
    var about := About(records, id);
    assert ValidEntry(segment, 0, normalize);
    assert DescribesOne(Summarize(records)[id], about);
    var earliest :| earliest in about && earliest.occurredAt == Summarize(records)[id].first;
    assert earliest in records;
    var n :| 0 <= n < |records| && records[n] == earliest;
    assert ValidEntry(segment, n, normalize);
  }

  lemma {:induction false} Enumerate(keys: set<DeltaKey>) returns (order: seq<DeltaKey>)
    ensures NoDuplicates(order) && Elements(order) == keys
  {
    if keys == {} {
      order := [];
    } else {
      var k :| k in keys;
      var rest := Enumerate(keys - {k});
      assert k !in Elements(rest);
      order := rest + [k];
      assert Elements(order) == Elements(rest) + {k};
    }
  }

  /** A refresh whose listed objects are undamaged can always finish. */
  lemma RefreshCanFinish(cfg: Config, states: seq<System>, steps: seq<Step>, i: nat, p: Process)
    requires Run(cfg, states, steps) && i < |states|
    requires p in states[i].views && states[i].views[p].listing.Some?
    requires forall d | d in states[i].views[p].listing.value && d in states[i].deltas :: states[i].deltas[d].Plain?
    ensures exists order :: Enabled(cfg, states[i], FinishRefresh(p, order))
  {
    RunKeepsInv(cfg, states, steps, i);
    var order := FinishEnabled(cfg, states[i], p);
  }

  lemma FinishEnabled(cfg: Config, s: System, p: Process) returns (order: seq<DeltaKey>)
    requires Inv(cfg, s) && p in s.views && s.views[p].listing.Some?
    requires forall d | d in s.views[p].listing.value && d in s.deltas :: s.deltas[d].Plain?
    ensures Enabled(cfg, s, FinishRefresh(p, order))
  {
    assert ViewInv1(s.views[p], s.segments, s.deltas.Keys);
    order := Enumerate(s.views[p].listing.value - s.views[p].applied);
    forall d | d in order ensures d in s.deltas && AcceptsDelta(d, s.deltas[d]) {
      assert d in Elements(order);
      assert DeltaInv1(d, s.deltas[d], s.segments);
      GenuineDeltaAccepted(d, s.segments[d.source].value, cfg.normalize);
    }
    assert Enabled(cfg, s, FinishRefresh(p, order));
  }
}
