/** Building runs of the commit protocol step by step, and batches to start them with. */
module Reachability {
  import opened Basics
  import opened Sorting
  import opened Records
  import opened JsonNesting
  import opened Aggregates
  import opened ObjectStore
  import opened Projection
  import opened ConversationView
  import opened AppendBatch
  import opened HistoryReads
  import opened CommitProtocol
  import opened CommitTheorems

  ghost predicate Reachable(cfg: Config, s: System) {
    exists states, steps :: Run(cfg, states, steps) && states[|steps|] == s
  }

  lemma InitialReachable(cfg: Config)
    ensures Reachable(cfg, Initial())
  {
    var states, steps: seq<Step> := [Initial()], [];
    assert Run(cfg, states, steps) && states[|steps|] == Initial();
  }

  lemma Move(cfg: Config, s: System, step: Step) returns (t: System)
    requires Reachable(cfg, s) && Enabled(cfg, s, step)
    ensures Reachable(cfg, t) && t == After(cfg, s, step)
  {
    hide Enabled, After;
    var states, steps :| Run(cfg, states, steps) && states[|steps|] == s;
    t := After(cfg, s, step);
    var more, longer := states + [t], steps + [step];
    RunSnoc(cfg, states, steps, step);
    assert Run(cfg, more, longer) && more[|longer|] == t;
  }

  lemma RunSnoc(cfg: Config, states: seq<System>, steps: seq<Step>, step: Step)
    requires Run(cfg, states, steps) && Enabled(cfg, states[|steps|], step)
    ensures Run(cfg, states + [After(cfg, states[|steps|], step)], steps + [step])
  {
    hide Enabled, After;
  }

  /** A call that can start: its batch builds a segment without blobs under a new key. */
  ghost predicate Ready(cfg: Config, s: System, c: CallID, plan: Plan, inputs: seq<AppendInput>) {
    && c !in s.calls && |inputs| <= |plan.freshIDs| && BuildSegment(cfg, plan, inputs).Some?
    && BlobsOf(BuildSegment(cfg, plan, inputs).value.entries) == []
    && plan.key !in s.segments && DeltaKey(plan.key) !in s.deltas
  }

  /** Begin and write the segment. */
  lemma Commit(cfg: Config, s: System, c: CallID, plan: Plan, inputs: seq<AppendInput>) returns (t: System)
    requires Reachable(cfg, s) && Ready(cfg, s, c, plan, inputs)
    ensures Reachable(cfg, t) && t.views == s.views && t.snapshots == s.snapshots && t.deltas == s.deltas
    ensures t.segments == s.segments[plan.key := Seal(BuildSegment(cfg, plan, inputs).value)]
    ensures t.calls.Keys == s.calls.Keys + {c} && t.calls[c].plan == plan
    ensures t.calls[c].process == 0 && t.calls[c].inputs == inputs
    ensures t.calls[c].phase == Projecting(BuildSegment(cfg, plan, inputs).value, WithNumbers(BuildSegment(cfg, plan, inputs).value, inputs))
  {
    hide BuildSegment, WithNumbers, Reachable, BlobsOf;
    var segment := BuildSegment(cfg, plan, inputs).value;
    t := Move(cfg, s, Begin(c, Call(0, plan, inputs, WritingBlobs(segment, 0))));
    t := Move(cfg, t, WriteSegment(c, Created, t.segments[plan.key := Seal(segment)]));
  }

  /** ... and then its delta. */
  lemma CommitWithDelta(cfg: Config, s: System, c: CallID, plan: Plan, inputs: seq<AppendInput>) returns (t: System)
    requires Reachable(cfg, s) && Ready(cfg, s, c, plan, inputs)
    ensures Reachable(cfg, t) && t.views == s.views && t.snapshots == s.snapshots && t.calls.Keys == s.calls.Keys + {c}
    ensures t.segments.Keys == s.segments.Keys + {plan.key} && t.deltas.Keys == s.deltas.Keys + {DeltaKey(plan.key)}
    ensures forall d | d in s.deltas :: t.deltas[d] == s.deltas[d]
    ensures AcceptsDelta(DeltaKey(plan.key), t.deltas[DeltaKey(plan.key)])
  {
    hide BuildSegment, WithNumbers, Reachable, BlobsOf, DeltaOf, OneConversation, AcceptsDelta, RecordsOf;
    t := Commit(cfg, s, c, plan, inputs);
    var segment := BuildSegment(cfg, plan, inputs).value;
    BuiltDelta(cfg, plan, inputs);
    t := Move(cfg, t, WriteDelta(c, Created, t.deltas[DeltaKey(plan.key) := Plain(Seal(DeltaOf(plan.key, segment)))]));
  }

  lemma BuiltDelta(cfg: Config, plan: Plan, inputs: seq<AppendInput>)
    requires |inputs| <= |plan.freshIDs| && BuildSegment(cfg, plan, inputs).Some?
    ensures var segment := BuildSegment(cfg, plan, inputs).value;
            && OneConversation(RecordsOf(segment))
            && AcceptsDelta(DeltaKey(plan.key), Plain(Seal(DeltaOf(plan.key, segment))))
  {
    var segment := BuildSegment(cfg, plan, inputs).value;
    assert ValidSegment(segment, cfg.normalize);
    hide *;
    ValidSegmentHasOneConversation(segment, cfg.normalize);
    GenuineDeltaAccepted(DeltaKey(plan.key), segment, cfg.normalize);
  }

  /** An append from start to acknowledgment by a process that has a view. */
  lemma Acknowledge(cfg: Config, s: System, c: CallID, plan: Plan, inputs: seq<AppendInput>) returns (t: System)
    requires Reachable(cfg, s) && Ready(cfg, s, c, plan, inputs) && 0 in s.views && s.views[0].listing.None?
    ensures Reachable(cfg, t) && c in t.calls && t.calls[c].plan == plan
    ensures t.calls[c].phase == Acknowledged(BuildSegment(cfg, plan, inputs).value, WithNumbers(BuildSegment(cfg, plan, inputs).value, inputs))
    ensures t.segments == s.segments[plan.key := Seal(BuildSegment(cfg, plan, inputs).value)] && t.calls.Keys == s.calls.Keys + {c}
    ensures t.calls[c].inputs == inputs && t.calls[c].process == 0
    ensures OneConversation(RecordsOf(BuildSegment(cfg, plan, inputs).value))
    ensures t.deltas == s.deltas[DeltaKey(plan.key) := Plain(Seal(DeltaOf(plan.key, BuildSegment(cfg, plan, inputs).value)))]
    ensures 0 in t.views && t.views[0].listing.None?
  {
    hide BuildSegment, WithNumbers, Reachable, BlobsOf, DeltaOf, OneConversation, AcceptsDelta, RecordsOf, MergeInto, Absorb;
    t := Commit(cfg, s, c, plan, inputs);
    var segment := BuildSegment(cfg, plan, inputs).value;
    BuiltDelta(cfg, plan, inputs);
    t := Move(cfg, t, WriteDelta(c, Created, t.deltas[DeltaKey(plan.key) := Plain(Seal(DeltaOf(plan.key, segment)))]));
    t := Move(cfg, t, FoldOwn(c));
  }

  // ----- Literal batches -----

  /** The JSON text null. */
  const NULL_JSON: Bytes := [0x6e, 0x75, 0x6c, 0x6c]

  /** One record of some content, named like its segment. */
  function OneRecord(id: string, sequence: Option<UInt64>, content: Bytes): seq<AppendInput> {
    [AppendInput(id, "c", "note", content, Some(1), sequence, None, None, None, None, None, None, map[])]
  }

  function SmallBatch(id: string, sequence: Option<UInt64>): seq<AppendInput> {
    OneRecord(id, sequence, NULL_JSON)
  }

  /** A plan to commit it as segment id of conversation c. */
  function SmallPlan(id: string, now: Time): Plan {
    Plan(SegmentKey("c", id), now, ["unused"])
  }

  function SmallSegment(cfg: Config, id: string, now: Time, sequence: Option<UInt64>, content: Bytes): Segment {
    Segment(id, "c", now, [BuildEntry(cfg, SmallPlan(id, now), 0, OneRecord(id, sequence, content)[0], content)])
  }

  /** The service takes one record of that content: it is canonical and within every limit. */
  ghost predicate Takes(cfg: Config, content: Bytes) {
    && cfg.Lawful() && cfg.normalize(content) == Some(content)
    && |content| <= cfg.maxContentBytes && |content| <= cfg.maxInlineContentBytes && |content| <= cfg.maxSegmentBytes
    && 1 <= cfg.maxSegmentRecords
    && forall id, now, sequence :: cfg.encodedSize(SmallSegment(cfg, id, now, sequence, content)) <= cfg.maxSegmentBytes
  }

  ghost predicate Roomy(cfg: Config) {
    Takes(cfg, NULL_JSON)
  }

  lemma NullNests()
    ensures Nesting(NULL_JSON) == 0
  {
    hide ScanText;
    ScanNothing();
    ScanSnoc([], 0x6e);
    ScanSnoc([0x6e], 0x75);
    ScanSnoc([0x6e, 0x75], 0x6c);
    ScanSnoc([0x6e, 0x75, 0x6c], 0x6c);
    var n: Bytes, nu: Bytes, nul: Bytes := [0x6e], [0x6e, 0x75], [0x6e, 0x75, 0x6c];
    assert nul + [0x6c] == NULL_JSON && nu + [0x6c] == nul && n + [0x75] == nu && [] + [0x6e] == n;
  }

  /** Whatever the decoder follows is canonical; numbers that are not exact round down. */
  function NormalizeShallow(b: Bytes): Option<Bytes> {
    if Nesting(b) <= MAX_NESTING then Some(b) else None
  }

  function RoundDown(n: UInt64): nat {
    if n <= EXACT then n else if n < UINT64_LIMIT - 1024 then EXACT else 18446744073709552000
  }

  /** A service with the default limits. */
  function DefaultService(): Config {
    Config(0xA0_0000, 0x4_0000, 0x100_0000, 1000, NormalizeShallow, (s: Segment) => 0, RoundDown)
  }

  lemma DefaultIsLawful()
    ensures DefaultService().Lawful()
  {
    hide Nesting;
  }

  /** Such services exist: what is asked of one is consistent. */
  lemma RoomyService() returns (cfg: Config)
    ensures cfg == DefaultService() && Roomy(cfg)
    ensures forall n: nat | n <= MAX_NESTING :: Takes(cfg, NestedArrays(n))
  {
    hide Nesting, SmallSegment;
    cfg := DefaultService();
    DefaultIsLawful();
    NullNests();
    forall n: nat | n <= MAX_NESTING ensures Takes(cfg, NestedArrays(n)) { NestedArraysNest(n); }
  }

  /** The literal batch builds its segment, without blobs. */
  lemma SmallBatchBuilds(cfg: Config, id: string, now: Time, sequence: Option<UInt64>, content: Bytes)
    requires Takes(cfg, content) && ValidID(id) && now != ZERO_TIME
    ensures BuildSegment(cfg, SmallPlan(id, now), OneRecord(id, sequence, content)) == Some(SmallSegment(cfg, id, now, sequence, content))
    ensures BlobsOf(SmallSegment(cfg, id, now, sequence, content).entries) == []
  {
    var plan, inputs, segment := SmallPlan(id, now), OneRecord(id, sequence, content), SmallSegment(cfg, id, now, sequence, content);
    SmallEntry(cfg, id, now, sequence, content);
    assert inputs[..0] == [] && segment.entries[..0] == [];
    assert BuildEntries(cfg, plan, inputs) == Some(segment.entries) by {
      assert BuildEntries(cfg, plan, []) == Some([]);
      assert [] + [segment.entries[0]] == segment.entries;
    }
  }

  lemma SmallEntry(cfg: Config, id: string, now: Time, sequence: Option<UInt64>, content: Bytes)
    requires Takes(cfg, content) && ValidID(id) && now != ZERO_TIME
    ensures Acceptable(cfg, SmallPlan(id, now), 0, OneRecord(id, sequence, content)[0], [])
    ensures ValidEntry(SmallSegment(cfg, id, now, sequence, content), 0, cfg.normalize)
  {
    assert ValidID("c");
    assert Utf8Length("note") == 4 by {
      assert "note"[1..] == "ote" && "ote"[1..] == "te" && "te"[1..] == "e" && "e"[1..] == "";
    }
  }

  /** So a call with it can start. */
  lemma RecordReady(cfg: Config, c: CallID, id: string, now: Time, sequence: Option<UInt64>, content: Bytes)
    requires Takes(cfg, content) && ValidID(id) && now != ZERO_TIME
    ensures Ready(cfg, Initial(), c, SmallPlan(id, now), OneRecord(id, sequence, content))
  {
    SmallBatchBuilds(cfg, id, now, sequence, content);
  }

  lemma SmallBatchReady(cfg: Config, c: CallID, id: string, now: Time, sequence: Option<UInt64>)
    requires Roomy(cfg) && ValidID(id) && now != ZERO_TIME
    ensures Ready(cfg, Initial(), c, SmallPlan(id, now), SmallBatch(id, sequence))
  {
    RecordReady(cfg, c, id, now, sequence, NULL_JSON);
  }

  lemma SmallBatchDecodes(cfg: Config, id: string)
    requires Roomy(cfg)
    ensures AllDecode(cfg, SmallBatch(id, None))
  {
    NullNests();
  }
}
