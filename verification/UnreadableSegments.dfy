/** Records that are accepted, stored and acknowledged, and never read again
    (history/segment.go, history/history.go). */
module UnreadableSegments {
  import opened Basics
  import opened Records
  import opened JsonNesting
  import opened Sorting
  import opened HistoryReads
  import opened ObjectStore
  import opened Projection
  import opened AppendBatch
  import opened CommitProtocol
  import opened CommitTheorems
  import opened Reachability

  /** An append whose records do not all decode can be acknowledged all the same; the segment
      it leaves behind does not read back. */
  lemma AcknowledgedUnreadable(cfg: Config, plan: Plan, inputs: seq<AppendInput>) returns (s: System)
    requires Ready(cfg, Initial(), 0, plan, inputs) && !AllDecode(cfg, inputs)
    ensures Reachable(cfg, s) && 0 in s.calls && s.calls[0].plan == plan
    ensures s.calls[0].phase == Acknowledged(BuildSegment(cfg, plan, inputs).value, WithNumbers(BuildSegment(cfg, plan, inputs).value, inputs)) && s.calls.Keys == {0}
    ensures plan.key in s.segments && s.segments == map[plan.key := Seal(BuildSegment(cfg, plan, inputs).value)]
    ensures !Readable(plan.key, s.segments[plan.key], cfg.normalize)
  {
    hide BuildSegment, WithNumbers, Reachable, BlobsOf;
    InitialReachable(cfg);
    s := Move(cfg, Initial(), Restart(0));
    s := Acknowledge(cfg, s, 0, plan, inputs);
    BuiltReadableIff(cfg, plan, inputs);
  }

  /** Sending the same batch again at a later instant fails although nothing goes wrong in the store. */
  lemma RetryFails(cfg: Config, plan: Plan, inputs: seq<AppendInput>, later: Plan) returns (s: System)
    requires Ready(cfg, Initial(), 0, plan, inputs) && Ready(cfg, Initial(), 1, later, inputs) && !AllDecode(cfg, inputs)
    requires later.key == plan.key && later.now != plan.now
    ensures Reachable(cfg, s) && 0 in s.calls && s.calls[0].phase.Acknowledged? && s.calls[0].plan.key == plan.key
    ensures s.calls[0].plan == plan && plan.key in s.segments && s.segments.Keys == {plan.key}
    ensures !Readable(plan.key, s.segments[plan.key], cfg.normalize)
    ensures 1 in s.calls && s.calls[1].plan == later && s.calls[1].inputs == inputs && s.calls[1].phase == Dead
  {
    hide Reachable, BlobsOf;
    BuiltThen(cfg, plan, inputs);
    BuiltThen(cfg, later, inputs);
    hide BuildSegment, Readable, Verifies, WithNumbers, AllDecode, Decodable;
    var second := BuildSegment(cfg, later, inputs).value;
    s := AcknowledgedUnreadable(cfg, plan, inputs);
    s := Move(cfg, s, Begin(1, Call(0, later, inputs, WritingBlobs(second, 0))));
    s := Move(cfg, s, WriteSegment(1, Conflict, s.segments));
    s := Move(cfg, s, ReadBack(1));
  }

  lemma BuiltThen(cfg: Config, plan: Plan, inputs: seq<AppendInput>)
    requires |inputs| <= |plan.freshIDs| && BuildSegment(cfg, plan, inputs).Some?
    ensures BuildSegment(cfg, plan, inputs).value.createdAt == plan.now
  {
  }

  lemma TakesLawfully(cfg: Config, content: Bytes)
    requires Takes(cfg, content)
    ensures cfg.Lawful() && cfg.normalize(content) == Some(content) && |content| <= cfg.maxInlineContentBytes
  {
  }

  /** The literal runs below: record "a" with an input that does not decode, sent twice. */
  lemma RecordIsLost(cfg: Config, sequence: Option<UInt64>, content: Bytes) returns (s: System)
    requires Takes(cfg, content) && !AllDecode(cfg, OneRecord("a", sequence, content))
    ensures Reachable(cfg, s) && 0 in s.calls && s.calls[0].phase.Acknowledged? && s.calls[0].plan == SmallPlan("a", 1)
    ensures s.segments.Keys == {SegmentKey("c", "a")} && !Readable(SegmentKey("c", "a"), s.segments[SegmentKey("c", "a")], cfg.normalize)
    ensures 1 in s.calls && s.calls[1].inputs == OneRecord("a", sequence, content) && s.calls[1].phase == Dead
  {
    hide Reachable, Ready, BuildSegment, Readable, BlobsOf, Takes, AllDecode;
    RecordReady(cfg, 0, "a", 1, sequence, content);
    RecordReady(cfg, 1, "a", 2, sequence, content);
    s := RetryFails(cfg, SmallPlan("a", 1), OneRecord("a", sequence, content), SmallPlan("a", 2));
  }

  /** The greatest 64-bit number is one such input: the literal batch is acknowledged and unreadable. */
  lemma GreatestSequenceUnreadable(cfg: Config) returns (s: System)
    requires Roomy(cfg)
    ensures SmallBatch("a", Some(18446744073709551615))[0].sequence == Some(18446744073709551615)
    ensures Reachable(cfg, s) && 0 in s.calls && s.calls[0].phase.Acknowledged? && s.calls[0].plan == SmallPlan("a", 1)
    ensures s.segments.Keys == {SegmentKey("c", "a")} && !Readable(SegmentKey("c", "a"), s.segments[SegmentKey("c", "a")], cfg.normalize)
    ensures 1 in s.calls && s.calls[1].inputs == SmallBatch("a", Some(18446744073709551615)) && s.calls[1].phase == Dead
  {
    hide Reachable, Readable, Takes, AllDecode, AllShallow;
    TakesLawfully(cfg, NULL_JSON);
    var inputs := SmallBatch("a", Some(18446744073709551615));
    assert inputs[0].sequence == Some(18446744073709551615);
    AllDecodeIff(cfg, inputs);
    s := RecordIsLost(cfg, Some(18446744073709551615), NULL_JSON);
  }

  /** Deep content is the other: 9998, 9999 or 10000 nested arrays, small enough to go inline, are
      accepted by themselves, and no longer decode inside the stored object. */
  lemma DeepContentUnreadable(cfg: Config, n: nat) returns (s: System)
    requires MAX_NESTING - ENVELOPE < n && Takes(cfg, NestedArrays(n))
    ensures n <= MAX_NESTING && Nesting(NestedArrays(n)) == n
    ensures Reachable(cfg, s) && 0 in s.calls && s.calls[0].phase.Acknowledged? && s.calls[0].plan == SmallPlan("a", 1)
    ensures s.segments.Keys == {SegmentKey("c", "a")} && !Readable(SegmentKey("c", "a"), s.segments[SegmentKey("c", "a")], cfg.normalize)
    ensures 1 in s.calls && s.calls[1].inputs == OneRecord("a", None, NestedArrays(n)) && s.calls[1].phase == Dead
  {
    hide Reachable, Readable, Takes, Nesting;
    TakesLawfully(cfg, NestedArrays(n));
    NestedArraysNest(n);
    var inputs := OneRecord("a", None, NestedArrays(n));
    assert !ShallowInput(cfg, inputs[0]);
    assert !DecodableInput(cfg, inputs[0]);
    s := RecordIsLost(cfg, None, NestedArrays(n));
  }

  /** A service with the default limits takes them. */
  lemma DefaultServiceLosesDeepContent() returns (cfg: Config, s: System)
    ensures cfg == DefaultService() && Reachable(cfg, s) && 0 in s.calls && s.calls[0].phase.Acknowledged?
    ensures s.calls[0].plan.key in s.segments && !Readable(s.calls[0].plan.key, s.segments[s.calls[0].plan.key], cfg.normalize)
  {
    hide Reachable, Readable, Takes;
    cfg := RoomyService();
    s := DeepContentUnreadable(cfg, 9998);
  }

  // ----- For ever -----

  /** Nothing repairs it. In every continuation the segment stays, unread: no retry of its key gets through
      and no conversation listing can be rebuilt. */
  lemma UnreadableForEver(cfg: Config, states: seq<System>, steps: seq<Step>, i: nat, j: nat, key: SegmentKey)
    requires Run(cfg, states, steps) && i <= j < |states|
    requires key in states[i].segments && !Readable(key, states[i].segments[key], cfg.normalize)
    ensures key in states[j].segments && !Readable(key, states[j].segments[key], cfg.normalize)
    ensures forall c | Enabled(cfg, states[j], ReadBack(c)) && states[j].calls[c].plan.key == key ::
              After(cfg, states[j], ReadBack(c)).calls[c].phase == Dead
    ensures forall p, scan, records :: !Enabled(cfg, states[j], Rebuild(p, scan, records))
  {
    RunGrows(cfg, states, steps, i, j);
    hide Run, Readable, DistinctIDs, Concat;
    forall p, scan, records ensures !Enabled(cfg, states[j], Rebuild(p, scan, records)) {
      assert key in Elements(scan) <==> key in scan;
    }
  }

  /** A listing can be rebuilt by a process with no refresh under way if and only if every stored batch
      decodes and no record id is in two segments. */
  lemma RebuildEnabledIff(cfg: Config, states: seq<System>, steps: seq<Step>, i: nat, p: Process, scan: seq<SegmentKey>)
    requires Run(cfg, states, steps) && i < |states| && p in states[i].views && states[i].views[p].listing.None?
    requires NoDuplicates(scan) && Elements(scan) == states[i].segments.Keys && forall k | k in scan :: k in states[i].segments
    ensures (exists records :: Enabled(cfg, states[i], Rebuild(p, scan, records))) <==>
              BatchesDecode(cfg, states[i].segments) && DistinctIDs(Concat(states[i].segments, scan))
  {
    RunKeepsInv(cfg, states, steps, i);
    ReachableIntegrity(cfg, states, steps, i);
    var s := states[i];
    assert StoreInv(cfg, s.blobs, s.segments);
    hide *;
    AllReadIff(cfg, s.blobs, s.segments, scan);
    ScanEnabledIff(cfg, s, p, scan);
  }

  lemma AllReadIff(cfg: Config, blobs: BlobStore, segments: SegmentStore, scan: seq<SegmentKey>)
    requires StoreInv(cfg, blobs, segments) && Elements(scan) == segments.Keys
    ensures Integrity(segments, blobs, cfg.normalize) <==> AllRead(cfg, segments, scan)
  {
    hide Readable, SegmentResolves;
    assert forall k :: k in scan <==> k in Elements(scan);
  }

  ghost predicate AllRead(cfg: Config, segments: SegmentStore, scan: seq<SegmentKey>) {
    forall k | k in scan :: k in segments && Readable(k, segments[k], cfg.normalize)
  }

  lemma ScanEnabledIff(cfg: Config, s: System, p: Process, scan: seq<SegmentKey>)
    requires p in s.views && s.views[p].listing.None? && NoDuplicates(scan) && Elements(scan) == s.segments.Keys
    requires forall k | k in scan :: k in s.segments
    ensures (exists records :: Enabled(cfg, s, Rebuild(p, scan, records))) <==>
              AllRead(cfg, s.segments, scan) && DistinctIDs(Concat(s.segments, scan))
  {
    hide Readable, DistinctIDs, Concat, NoDuplicates;
    if AllRead(cfg, s.segments, scan) && DistinctIDs(Concat(s.segments, scan)) {
      assert Enabled(cfg, s, Rebuild(p, scan, Concat(s.segments, scan)));
    }
  }
}
