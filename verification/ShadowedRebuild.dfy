/** A rebuild need not last: a complete run in which a rebuilt listing shows a segment and a later
    one, started from the newest snapshot, no longer does (history/conversation_projection.go). */
module ShadowedRebuild {
  import opened Basics
  import opened Sorting
  import opened Records
  import opened Aggregates
  import opened ObjectStore
  import opened Projection
  import opened ConversationView
  import opened AppendBatch
  import opened HistoryReads
  import opened CommitProtocol
  import opened CommitTheorems
  import opened Reachability

  const REBUILDER: Process := 0
  const BYSTANDER: Process := 1
  const NEWCOMER: Process := 2

  /** The writer of one segment dies before its delta, while a bystander had loaded before anything was
      there. */
  lemma LoseDelta(cfg: Config, plan: Plan, inputs: seq<AppendInput>) returns (s: System)
    requires Ready(cfg, Initial(), 0, plan, inputs)
    ensures Reachable(cfg, s) && s.deltas == map[] && s.snapshots == map[] && s.calls.Keys == {0}
    ensures s.segments == map[plan.key := Seal(BuildSegment(cfg, plan, inputs).value)]
    ensures REBUILDER in s.views && s.views[REBUILDER].listing.None?
    ensures BYSTANDER in s.views && s.views[BYSTANDER] == View(true, map[], {}, None)
  {
    InitialReachable(cfg);
    hide Reachable, BuildSegment, WithNumbers, BlobsOf;
    s := Move(cfg, Initial(), Restart(REBUILDER));
    s := Move(cfg, s, Restart(BYSTANDER));
    s := Move(cfg, s, LoadNothing(BYSTANDER));
    s := Commit(cfg, s, 0, plan, inputs);
    s := Move(cfg, s, Crash(0));
  }

  /** A rebuild counts it. */
  lemma FoldLost(cfg: Config, plan: Plan, inputs: seq<AppendInput>, s: System) returns (fold: Step, t: System)
    requires |inputs| <= |plan.freshIDs| && BuildSegment(cfg, plan, inputs).Some? && AllDecode(cfg, inputs)
    requires s.segments == map[plan.key := Seal(BuildSegment(cfg, plan, inputs).value)]
    requires REBUILDER in s.views && s.views[REBUILDER].listing.None?
    ensures fold.Rebuild? && fold.p == REBUILDER && Enabled(cfg, s, fold) && t == After(cfg, s, fold)
    ensures t.segments == s.segments && t.deltas == s.deltas && t.snapshots == s.snapshots && t.calls == s.calls
    ensures REBUILDER in t.views && t.views[REBUILDER].applied == {DeltaKey(plan.key)}
    ensures t.views[REBUILDER].loaded && t.views[REBUILDER].listing.None?
    ensures forall p | p in s.views && p != REBUILDER :: p in t.views && t.views[p] == s.views[p]
  {
    RebuildAlone(cfg, plan, inputs, s.segments);
    hide BuildSegment, Concat, Readable, DistinctIDs, Restore, Listing, Summarize, DeltaKeys;
    fold := Rebuild(REBUILDER, [plan.key], Concat(s.segments, [plan.key]));
    t := After(cfg, s, fold);
  }

  lemma RebuildAlone(cfg: Config, plan: Plan, inputs: seq<AppendInput>, segments: SegmentStore)
    requires |inputs| <= |plan.freshIDs| && BuildSegment(cfg, plan, inputs).Some? && AllDecode(cfg, inputs)
    requires segments == map[plan.key := Seal(BuildSegment(cfg, plan, inputs).value)]
    ensures Elements([plan.key]) == segments.Keys && DeltaKeys(segments.Keys) == {DeltaKey(plan.key)}
    ensures Readable(plan.key, segments[plan.key], cfg.normalize) && DistinctIDs(Concat(segments, [plan.key]))
  {
    BuiltReadableIff(cfg, plan, inputs);
    hide BuildEntries, ValidEntry, ValidRecord, ValidID, UniformBatch;
    var segment := segments[plan.key].value;
    assert ValidSegment(segment, cfg.normalize) && segment.id == plan.key.segmentID && segment.conversationID == plan.key.conversationID;
    hide BuildSegment;
    ConcatOne(segments, plan.key);
    assert DistinctRecordIDs(segment);
  }

  lemma ConcatOne(segments: SegmentStore, key: SegmentKey)
    requires key in segments
    ensures Concat(segments, [key]) == RecordsOf(segments[key].value)
  {
    hide RecordsOf;
    assert [key][..0] == [];
  }

  /** Publishing adds a snapshot that verifies, named by the number of applied keys. */
  lemma Publish(cfg: Config, s: System, p: Process, now: Time) returns (t: System, key: SnapshotKey)
    requires Reachable(cfg, s) && p in s.views && s.views[p].loaded && s.views[p].listing.None? && now != ZERO_TIME
    requires PublishKey(s.views[p], now) !in s.snapshots
    ensures Reachable(cfg, t) && t.views == s.views && t.segments == s.segments && t.deltas == s.deltas && t.calls == s.calls
    ensures key == PublishKey(s.views[p], now) && key.count == |s.views[p].applied|
    ensures t.snapshots == s.snapshots[key := Plain(Seal(key.digestOf))]
    ensures AcceptsSnapshot(t.snapshots[key]) && t.snapshots[key].sealed.value.applied == s.views[p].applied
  {
    hide Reachable, Table;
    key := PublishKey(s.views[p], now);
    t := Move(cfg, s, PublishSnapshot(p, now, Created, s.snapshots[key := Plain(Seal(key.digestOf))]));
  }

  /** The bystander refreshes over two further deltas. */
  lemma RefreshBystander(cfg: Config, s: System, a: DeltaKey, b: DeltaKey) returns (t: System)
    requires Reachable(cfg, s) && BYSTANDER in s.views && s.views[BYSTANDER] == View(true, map[], {}, None)
    requires a != b && s.deltas.Keys == {a, b} && AcceptsDelta(a, s.deltas[a]) && AcceptsDelta(b, s.deltas[b])
    ensures Reachable(cfg, t) && t.snapshots == s.snapshots && t.segments == s.segments && t.deltas == s.deltas
    ensures BYSTANDER in t.views && t.views[BYSTANDER].applied == {a, b}
    ensures t.views[BYSTANDER].loaded && t.views[BYSTANDER].listing.None?
  {
    assert s.deltas[a].Plain? && s.deltas[b].Plain?;
    hide Reachable, MergeInto, Absorb, AcceptsDelta, Faithful, FoldAll, BuildSegment, SameBatch, Readable, WithNumbers, OneConversation, RecordsOf, Concat, BlobsOf, DeltaOf, Restore;
    var u := Move(cfg, s, ListDeltas(BYSTANDER));
    assert Elements([a, b]) == {a, b};
    FoldApplied(u.views[BYSTANDER], [a, b], u.deltas);
    t := Move(cfg, u, FinishRefresh(BYSTANDER, [a, b]));
    assert {} + {a, b} == {a, b};
  }

  lemma {:induction false} FoldApplied(view: View, order: seq<DeltaKey>, deltas: map<DeltaKey, Stored<Delta>>)
    requires forall d | d in order :: d in deltas && deltas[d].Plain?
    ensures FoldAll(view, order, deltas).applied == view.applied + Elements(order)
    ensures FoldAll(view, order, deltas).loaded == view.loaded
  {
    hide MergeInto, Absorb;
    if order != [] {
      var front, d := order[..|order| - 1], order[|order| - 1];
      assert order == front + [d];
      FoldApplied(view, front, deltas);
      assert Elements(order) == Elements(front) + {d};
    }
  }

  /** A cold process that can read everything starts from the snapshot with more keys. */
  lemma StartCold(cfg: Config, s: System, fewer: SnapshotKey, more: SnapshotKey) returns (t: System)
    requires Reachable(cfg, s) && s.snapshots.Keys == {fewer, more} && fewer.count < more.count
    requires AcceptsSnapshot(s.snapshots[more]) && s.snapshots[more].sealed.value.applied == s.deltas.Keys
    ensures Reachable(cfg, t) && t.segments == s.segments && t.snapshots == s.snapshots
    ensures NEWCOMER in t.views && t.views[NEWCOMER].loaded && t.views[NEWCOMER].listing.None?
    ensures t.views[NEWCOMER].applied == s.deltas.Keys && NewestAccepted(more, t.snapshots)
  {
    hide Reachable, Restore, AcceptsSnapshot;
    t := Move(cfg, s, Restart(NEWCOMER));
    t := Move(cfg, t, LoadSnapshot(NEWCOMER, more));
    t := Move(cfg, t, ListDeltas(NEWCOMER));
    assert Elements<DeltaKey>([]) == {};
    t := Move(cfg, t, FinishRefresh(NEWCOMER, []));
  }

  /** For any three batches that build and decode, without blobs and under different keys, there is a
      run that ends with an accepted snapshot counting the first segment, the segment itself in the
      store, and a view freshly loaded from the newest snapshot, and refreshed, that does not count it. */
  lemma RebuildCanBeShadowed(cfg: Config, p: Plan, q: Plan, r: Plan, a: seq<AppendInput>, b: seq<AppendInput>, c: seq<AppendInput>,
                             now: Time) returns (s: System, rebuilt: SnapshotKey, newest: SnapshotKey)
    requires Ready(cfg, Initial(), 0, p, a) && Ready(cfg, Initial(), 1, q, b) && Ready(cfg, Initial(), 2, r, c)
    requires AllDecode(cfg, a) && p.key != q.key && p.key != r.key && q.key != r.key && now != ZERO_TIME
    ensures Reachable(cfg, s) && p.key in s.segments
    ensures rebuilt in s.snapshots && AcceptsSnapshot(s.snapshots[rebuilt])
    ensures DeltaKey(p.key) in s.snapshots[rebuilt].sealed.value.applied
    ensures NewestAccepted(newest, s.snapshots)
    ensures NEWCOMER in s.views && s.views[NEWCOMER].loaded && s.views[NEWCOMER].listing.None?
    ensures s.views[NEWCOMER].applied == s.snapshots[newest].sealed.value.applied
    ensures DeltaKey(p.key) !in s.views[NEWCOMER].applied
  {
    hide Reachable, BuildSegment, WithNumbers, BlobsOf, Table, AcceptsSnapshot, AcceptsDelta, SnapshotOf, NewestAccepted, AllDecode;
    s := LoseDelta(cfg, p, a);
    var fold, folded := FoldLost(cfg, p, a, s);
    s := Move(cfg, s, fold);
    s, rebuilt := Publish(cfg, s, REBUILDER, now);
    s := CommitWithDelta(cfg, s, 1, q, b);
    s := CommitWithDelta(cfg, s, 2, r, c);
    var d, e := DeltaKey(q.key), DeltaKey(r.key);
    s := RefreshBystander(cfg, s, d, e);
    assert |{d, e}| == 2;
    s, newest := Publish(cfg, s, BYSTANDER, now);
    assert rebuilt.count == 1 && newest.count == 2;
    s := StartCold(cfg, s, rebuilt, newest);
  }

  /** It happens with three literal batches. */
  lemma SmallRebuildIsShadowed(cfg: Config) returns (s: System, rebuilt: SnapshotKey, newest: SnapshotKey)
    requires Roomy(cfg)
    ensures Reachable(cfg, s) && SegmentKey("c", "x") in s.segments
    ensures rebuilt in s.snapshots && AcceptsSnapshot(s.snapshots[rebuilt])
    ensures DeltaKey(SegmentKey("c", "x")) in s.snapshots[rebuilt].sealed.value.applied
    ensures NewestAccepted(newest, s.snapshots)
    ensures NEWCOMER in s.views && s.views[NEWCOMER].loaded && s.views[NEWCOMER].listing.None?
    ensures DeltaKey(SegmentKey("c", "x")) !in s.views[NEWCOMER].applied
  {
    hide Reachable, Ready, BuildSegment, AcceptsSnapshot, NewestAccepted, Roomy;
    SmallBatchReady(cfg, 0, "x", 1, None);
    SmallBatchReady(cfg, 1, "y", 1, None);
    SmallBatchReady(cfg, 2, "z", 1, None);
    assert "x"[0] != "y"[0] && "x"[0] != "z"[0] && "y"[0] != "z"[0];
    SmallBatchDecodes(cfg, "x");
    s, rebuilt, newest := RebuildCanBeShadowed(cfg, SmallPlan("x", 1), SmallPlan("y", 1), SmallPlan("z", 1),
      SmallBatch("x", None), SmallBatch("y", None), SmallBatch("z", None), 1);
  }
}
