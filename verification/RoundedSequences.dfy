/** Sequence numbers that the canonical encoding rounds: what retries and their callers see of it
    (history/segment.go). */
module RoundedSequences {
  import opened Basics
  import opened Records
  import opened Aggregates
  import opened ObjectStore
  import opened Projection
  import opened AppendBatch
  import opened CommitProtocol
  import opened CommitTheorems
  import opened Reachability

  /** A call finds its key taken, and reads back what is there. */
  lemma ReadsBack(cfg: Config, s: System, c: CallID, plan: Plan, inputs: seq<AppendInput>) returns (t: System)
    requires Reachable(cfg, s) && c !in s.calls && plan.key in s.segments
    requires |inputs| <= |plan.freshIDs| && BuildSegment(cfg, plan, inputs).Some?
    requires BlobsOf(BuildSegment(cfg, plan, inputs).value.entries) == []
    requires s.segments[plan.key].value != BuildSegment(cfg, plan, inputs).value && Readable(plan.key, s.segments[plan.key], cfg.normalize)
    ensures Reachable(cfg, t)
    ensures var stored := s.segments[plan.key].value;
            t == s.(calls := s.calls[c := Call(0, plan, inputs,
              if SameBatch(stored, inputs, cfg.normalize) then Projecting(stored, stored) else Refused)])
  {
    hide BuildSegment, SameBatch, Readable, Reachable, BlobsOf, WithNumbers;
    var segment := BuildSegment(cfg, plan, inputs).value;
    t := Move(cfg, s, Begin(c, Call(0, plan, inputs, WritingBlobs(segment, 0))));
    t := Move(cfg, t, WriteSegment(c, Conflict, t.segments));
    t := Move(cfg, t, ReadBack(c));
  }

  /** A call that has read back goes on to be acknowledged. */
  lemma Finishes(cfg: Config, s: System, c: CallID) returns (t: System)
    requires Reachable(cfg, s) && c in s.calls && s.calls[c].phase.Projecting? && s.calls[c].process in s.views
    requires s.views[s.calls[c].process].listing.None?
    requires var key, segment := DeltaKey(s.calls[c].plan.key), s.calls[c].phase.segment;
             && OneConversation(RecordsOf(segment))
             && key in s.deltas && s.deltas[key] == Plain(Seal(DeltaOf(s.calls[c].plan.key, segment)))
    ensures Reachable(cfg, t) && t.segments == s.segments
    ensures t.calls == s.calls[c := s.calls[c].(phase := Acknowledged(s.calls[c].phase.segment, s.calls[c].phase.held))]
  {
    hide Reachable, DeltaOf, OneConversation, RecordsOf, MergeInto, Absorb;
    t := Move(cfg, s, WriteDelta(c, AlreadyPresent, s.deltas));
    t := Move(cfg, t, FoldOwn(c));
  }

  /** The literal batch with one number matches what the other left when the encoding writes that one as
      it. */
  lemma SmallBatchesMatch(cfg: Config, first: UInt64, later: UInt64)
    requires Roomy(cfg)
    ensures var plan, inputs := SmallPlan("a", 1), SmallBatch("a", Some(first));
            && BuildSegment(cfg, plan, inputs).Some?
            && (SameBatch(BuildSegment(cfg, plan, inputs).value, SmallBatch("a", Some(later)), cfg.normalize)
                <==> later == cfg.sequenceAsWritten(first))
  {
    SmallBatchBuilds(cfg, "a", 1, Some(first), NULL_JSON);
    SameBatchIffEquivalent(cfg, SmallPlan("a", 1), SmallBatch("a", Some(first)), SmallBatch("a", Some(later)));
  }

  /** What is stored of it decodes when the number as written does. */
  lemma SmallBatchReads(cfg: Config, sequence: UInt64)
    requires Roomy(cfg) && cfg.sequenceAsWritten(sequence) < UINT64_LIMIT
    ensures var plan, inputs := SmallPlan("a", 1), SmallBatch("a", Some(sequence));
            BuildSegment(cfg, plan, inputs).Some? && Readable(plan.key, Seal(BuildSegment(cfg, plan, inputs).value), cfg.normalize)
  {
    hide Readable;
    SmallBatchBuilds(cfg, "a", 1, Some(sequence), NULL_JSON);
    NullNests();
    BuiltReadableIff(cfg, SmallPlan("a", 1), SmallBatch("a", Some(sequence)));
  }

  /** Segments of the literal batch built at different instants differ. */
  lemma SmallSegmentsDiffer(cfg: Config, now: Time, a: UInt64, b: UInt64)
    requires Roomy(cfg) && now > 1
    ensures BuildSegment(cfg, SmallPlan("a", 1), SmallBatch("a", Some(a))).Some?
    ensures BuildSegment(cfg, SmallPlan("a", now), SmallBatch("a", Some(b))).Some?
    ensures BuildSegment(cfg, SmallPlan("a", 1), SmallBatch("a", Some(a))) != BuildSegment(cfg, SmallPlan("a", now), SmallBatch("a", Some(b)))
    ensures BlobsOf(BuildSegment(cfg, SmallPlan("a", now), SmallBatch("a", Some(b))).value.entries) == []
  {
    hide BuildSegment, Takes;
    SmallBatchBuilds(cfg, "a", 1, Some(a), NULL_JSON);
    SmallBatchBuilds(cfg, "a", now, Some(b), NULL_JSON);
  }

  /** Three calls under one key, where the second batch matches what the first left and the first itself
      does not. */
  lemma RunThree(cfg: Config, plan: Plan, second: Plan, third: Plan, first: seq<AppendInput>, later: seq<AppendInput>) returns (s: System)
    requires Ready(cfg, Initial(), 0, plan, first) && plan.key == second.key == third.key
    requires Rebuilds(cfg, plan, first, second, later) && Rebuilds(cfg, plan, first, third, first)
    requires var stored := BuildSegment(cfg, plan, first).value;
             && Readable(plan.key, Seal(stored), cfg.normalize)
             && SameBatch(stored, later, cfg.normalize) && !SameBatch(stored, first, cfg.normalize)
    ensures Reachable(cfg, s) && {0, 1, 2} <= s.calls.Keys
    ensures s.calls[0].inputs == s.calls[2].inputs == first && s.calls[1].inputs == later
    ensures s.calls[0].phase.Acknowledged? && s.calls[1].phase.Acknowledged? && s.calls[2].phase == Refused
    ensures s.calls[0].plan.key == s.calls[1].plan.key && s.calls[0].phase.segment == s.calls[1].phase.segment
    ensures s.calls[0].phase.held != s.calls[1].phase.held
  {
    hide Reachable, Ready, Rebuilds, Enabled, After, BuildSegment, SameBatch, Readable, WithNumbers, AsWritten, BlobsOf, DeltaOf, OneConversation, RecordsOf, Survives, AllShallow;
    s := Start(cfg, plan, first);
    RebuildsGives(cfg, plan, first, second, later);
    RebuildsGives(cfg, plan, first, third, first);
    StoredIsWritten(cfg, plan, first);
    OwnRetryIff(cfg, plan, first);
    s := ReadsBack(cfg, s, 1, second, later);
    s := Finishes(cfg, s, 1);
    s := ReadsBack(cfg, s, 2, third, first);
  }

  lemma Start(cfg: Config, plan: Plan, inputs: seq<AppendInput>) returns (s: System)
    requires Ready(cfg, Initial(), 0, plan, inputs)
    ensures |inputs| <= |plan.freshIDs| && BuildSegment(cfg, plan, inputs).Some?
    ensures var stored := BuildSegment(cfg, plan, inputs).value;
            && OneConversation(RecordsOf(stored))
            && Reachable(cfg, s) && s.calls.Keys == {0} && s.calls[0].plan == plan && s.calls[0].inputs == inputs
            && s.calls[0].phase == Acknowledged(stored, WithNumbers(stored, inputs))
            && s.segments == map[plan.key := Seal(stored)] && 0 in s.views && s.views[0].listing.None?
            && s.deltas == map[DeltaKey(plan.key) := Plain(Seal(DeltaOf(plan.key, stored)))]
  {
    hide Reachable, BuildSegment, WithNumbers, BlobsOf, DeltaOf, OneConversation, RecordsOf;
    InitialReachable(cfg);
    s := Move(cfg, Initial(), Restart(0));
    s := Acknowledge(cfg, s, 0, plan, inputs);
  }

  lemma RebuildsGives(cfg: Config, plan: Plan, first: seq<AppendInput>, again: Plan, later: seq<AppendInput>)
    requires |first| <= |plan.freshIDs| && Rebuilds(cfg, plan, first, again, later) && BuildSegment(cfg, plan, first).Some?
    ensures |later| <= |again.freshIDs| && BuildSegment(cfg, again, later).Some?
    ensures BuildSegment(cfg, again, later).value != BuildSegment(cfg, plan, first).value
    ensures BlobsOf(BuildSegment(cfg, again, later).value.entries) == []
  {
    hide BuildSegment, BlobsOf;
  }

  /** The second batch builds another segment than the first, without blobs. */
  ghost predicate Rebuilds(cfg: Config, plan: Plan, first: seq<AppendInput>, again: Plan, later: seq<AppendInput>)
    requires |first| <= |plan.freshIDs|
  {
    && |later| <= |again.freshIDs| && BuildSegment(cfg, again, later).Some?
    && BuildSegment(cfg, again, later) != BuildSegment(cfg, plan, first)
    && BlobsOf(BuildSegment(cfg, again, later).value.entries) == []
  }

  lemma RoundedFacts(cfg: Config)
    requires Roomy(cfg)
    ensures var plan, second, third, first, later :=
              SmallPlan("a", 1), SmallPlan("a", 2), SmallPlan("a", 3), SmallBatch("a", Some(EXACT + 1)), SmallBatch("a", Some(EXACT));
            && plan.key == second.key == third.key && |first| <= |plan.freshIDs| && BuildSegment(cfg, plan, first).Some?
            && Rebuilds(cfg, plan, first, second, later) && Rebuilds(cfg, plan, first, third, first)
            && Readable(plan.key, Seal(BuildSegment(cfg, plan, first).value), cfg.normalize)
            && SameBatch(BuildSegment(cfg, plan, first).value, later, cfg.normalize)
            && !SameBatch(BuildSegment(cfg, plan, first).value, first, cfg.normalize)
  {
    assert cfg.sequenceAsWritten(EXACT + 1) == EXACT;
    hide BuildSegment, SameBatch, Readable, BlobsOf, Takes;
    SmallBatchesMatch(cfg, EXACT + 1, EXACT);
    SmallBatchesMatch(cfg, EXACT + 1, EXACT + 1);
    SmallBatchReads(cfg, EXACT + 1);
    SmallSegmentsDiffer(cfg, 2, EXACT + 1, EXACT);
    SmallSegmentsDiffer(cfg, 3, EXACT + 1, EXACT + 1);
  }

  /** Commit 2^53 + 1. The same batch with 2^53 is then taken for a retry of it, and returns 2^53, and the
      original is refused. */
  lemma RoundedRetryRun(cfg: Config) returns (s: System)
    requires Roomy(cfg)
    ensures Reachable(cfg, s) && {0, 1, 2} <= s.calls.Keys
    ensures s.calls[0].inputs == s.calls[2].inputs == SmallBatch("a", Some(EXACT + 1)) && s.calls[1].inputs == SmallBatch("a", Some(EXACT))
    ensures s.calls[0].phase.Acknowledged? && s.calls[1].phase.Acknowledged? && s.calls[2].phase == Refused
    ensures s.calls[0].plan.key == s.calls[1].plan.key && s.calls[0].phase.segment == s.calls[1].phase.segment
    ensures s.calls[0].phase.held != s.calls[1].phase.held
  {
    hide Reachable, Ready, BuildSegment, SameBatch, Readable, BlobsOf, Takes, Rebuilds;
    RoundedFacts(cfg);
    SmallBatchReady(cfg, 0, "a", 1, Some(EXACT + 1));
    s := RunThree(cfg, SmallPlan("a", 1), SmallPlan("a", 2), SmallPlan("a", 3), SmallBatch("a", Some(EXACT + 1)), SmallBatch("a", Some(EXACT)));
  }
}
