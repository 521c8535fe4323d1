/** How long a rebuilt listing lasts: when a segment stays counted in every continuation
    (history/conversation_projection.go). */
module RebuildLasts {
  import opened Basics
  import opened Sorting
  import opened Records
  import opened Aggregates
  import opened ObjectStore
  import opened Projection
  import opened ConversationView
  import opened AppendBatch
  import opened HistoryReads
  import opened CommitProtocol
  import opened CommitTheorems
  import opened Reachability
  import opened ShadowedRebuild

  // ----- What one fresh view counts -----

  predicate Loads(step: Step, p: Process) {
    (step.LoadNothing? || step.LoadSnapshot?) && step.p == p
  }

  /** The keys a load starts from. */
  ghost function StartsFrom(cfg: Config, s: System, step: Step): set<DeltaKey>
    requires step.LoadNothing? || step.LoadSnapshot?
    requires Enabled(cfg, s, step)
  {
    if step.LoadSnapshot? then s.snapshots[step.key].sealed.value.applied else {}
  }

  /** A view that loads, lists the deltas and refreshes counts a segment exactly when its delta was
      listed or the snapshot it started from counted it, whatever anybody does in between. */
  lemma FreshViewCounts(cfg: Config, states: seq<System>, steps: seq<Step>, i: nat, a: nat, b: nat, p: Process, k: SegmentKey)
    requires Run(cfg, states, steps) && i < a < b < |steps|
    requires Loads(steps[i], p) && steps[a] == ListDeltas(p) && steps[b].FinishRefresh? && steps[b].p == p
    requires p in states[i + 1].views && p in states[a].views && states[a].views[p] == states[i + 1].views[p]
    requires forall m | a < m < b :: !EndsRefresh(steps[m], p)
    ensures p in states[b + 1].views
    ensures DeltaKey(k) in states[b + 1].views[p].applied <==>
              DeltaKey(k) in states[a].deltas || DeltaKey(k) in StartsFrom(cfg, states[i], steps[i])
  {
    hide Enabled, After;
    LoadStarts(cfg, states[i], steps[i], p);
    ListingLeavesApplied(cfg, states[a], p);
    ListingKept(cfg, states, steps, a, b, p);
    AppliedKept(cfg, states, steps, a, b, p);
    RunKeepsInv(cfg, states, steps, b);
    StepFinishRefresh(cfg, states[b], p, steps[b].order);
  }

  lemma LoadStarts(cfg: Config, s: System, step: Step, p: Process)
    requires Loads(step, p) && Enabled(cfg, s, step)
    ensures var t := After(cfg, s, step);
            p in t.views && t.views[p].loaded && t.views[p].listing.None? && t.views[p].applied == StartsFrom(cfg, s, step)
  {
  }

  lemma ListingLeavesApplied(cfg: Config, s: System, p: Process)
    requires Enabled(cfg, s, ListDeltas(p))
    ensures var t := After(cfg, s, ListDeltas(p));
            p in t.views && t.views[p].applied == s.views[p].applied && t.views[p].listing.Some?
  {
  }

  lemma {:induction false} AppliedKept(cfg: Config, states: seq<System>, steps: seq<Step>, a: nat, b: nat, p: Process)
    requires Run(cfg, states, steps) && a < b < |states| && steps[a] == ListDeltas(p)
    requires forall m | a < m < b :: !EndsRefresh(steps[m], p)
    ensures p in states[b].views && p in states[a + 1].views && states[b].views[p] == states[a + 1].views[p]
  {
    hide Enabled, After;
    ListingKept(cfg, states, steps, a, b, p);
    if b > a + 1 {
      AppliedKept(cfg, states, steps, a, b - 1, p);
      ListingKept(cfg, states, steps, a, b - 1, p);
      RefreshHoldsLock(cfg, states[b - 1], steps[b - 1], p);
    }
  }

  // ----- Continuations -----

  /** Process p loads in step i and finishes a refresh in step b. */
  predicate LoadsAndRefreshes(steps: seq<Step>, i: nat, b: nat, p: Process) {
    i < b < |steps| && Loads(steps[i], p) && steps[b].FinishRefresh? && steps[b].p == p
  }

  ghost predicate CountsAt(s: System, p: Process, k: SegmentKey) {
    p in s.views && DeltaKey(k) in s.views[p].applied
  }

  /** In every continuation every view that is loaded and refreshed counts the segment. */
  ghost predicate Lasts(cfg: Config, s: System, k: SegmentKey) {
    forall states: seq<System>, steps: seq<Step>, i: nat, b: nat, p: Process
      | RunFrom(cfg, s, states, steps) && LoadsAndRefreshes(steps, i, b, p) :: CountsAt(states[b + 1], p, k)
  }

  /** There is somewhere to start from, and everything one can start from counts the segment: every
      snapshot that verifies, and every live view, which may yet be published. */
  ghost predicate Everywhere(s: System, d: DeltaKey) {
    && s.snapshots != map[]
    && (forall p | p in s.views && s.views[p].loaded :: d in s.views[p].applied)
    && (forall j | j in s.snapshots && AcceptsSnapshot(s.snapshots[j]) :: d in s.snapshots[j].sealed.value.applied)
  }

  lemma {:induction false} FromKeepsInv(cfg: Config, s: System, states: seq<System>, steps: seq<Step>, n: nat)
    requires Inv(cfg, s) && RunFrom(cfg, s, states, steps) && n < |states|
    ensures Inv(cfg, states[n])
  {
    hide Inv, Enabled, After;
    if n > 0 {
      FromKeepsInv(cfg, s, states, steps, n - 1);
      StepKeepsInv(cfg, states[n - 1], steps[n - 1]);
    }
  }

  /** Once stored, a delta is in every listing taken afterwards. */
  ghost predicate Stored(s: System, d: DeltaKey, p: Process) {
    && d in s.deltas
    && (p in s.views && s.views[p].listing.Some? ==> d in s.views[p].listing.value && s.views[p].loaded)
  }

  lemma StoredKept(cfg: Config, s: System, step: Step, d: DeltaKey, p: Process)
    requires Enabled(cfg, s, step) && Stored(s, d, p)
    ensures Stored(After(cfg, s, step), d, p)
  {
    hide BuildSegment, SameBatch, ValidSegment, SumApplied, Summarize, DeltaOf, Restore, OneConversation, BlobsOf, Table, Concat, RecordsOf, AcceptsDelta, AcceptsSnapshot, Elements, FoldAll;
  }

  /** A segment that everything counts goes on being counted by everything. */
  ghost predicate Held(s: System, k: SegmentKey, p: Process) {
    && k in s.segments && Everywhere(s, DeltaKey(k))
    && (p in s.views && s.views[p].listing.Some? ==> s.views[p].loaded)
  }

  lemma HeldFinish(cfg: Config, s: System, q: Process, order: seq<DeltaKey>, k: SegmentKey, p: Process)
    requires Inv(cfg, s) && Enabled(cfg, s, FinishRefresh(q, order)) && Held(s, k, p)
    ensures Held(After(cfg, s, FinishRefresh(q, order)), k, p)
  {
    hide BuildSegment, SameBatch, ValidSegment, SumApplied, Summarize, DeltaOf, Restore, OneConversation, BlobsOf, Table, Concat, RecordsOf, Elements, FoldAll, StoreInv, DeltaInv, GenuineSnapshots, ViewInv, CallInv, Readable, DistinctIDs, WithNumbers, Decodable, MergeInto, Absorb, Listing;
    StepFinishRefresh(cfg, s, q, order);
    FoldKeepsLoaded(s.views[q], order, s.deltas);
  }

  lemma HeldPublish(cfg: Config, s: System, q: Process, now: Time, outcome: Outcome, snapshots: map<SnapshotKey, Stored<Snapshot>>,
                    k: SegmentKey, p: Process)
    requires Enabled(cfg, s, PublishSnapshot(q, now, outcome, snapshots)) && Held(s, k, p)
    ensures Held(After(cfg, s, PublishSnapshot(q, now, outcome, snapshots)), k, p)
  {
    hide AcceptsSnapshot, Table;
    assert DeltaKey(k) in s.views[q].applied;
    var key := PublishKey(s.views[q], now);
    assert forall j | j in snapshots && j != key :: j in s.snapshots && snapshots[j] == s.snapshots[j];
    assert key in snapshots && key !in s.snapshots ==> snapshots[key] == Plain(Seal(key.digestOf));
  }

  lemma HeldKept(cfg: Config, s: System, step: Step, k: SegmentKey, p: Process)
    requires Inv(cfg, s) && Enabled(cfg, s, step) && Held(s, k, p)
    ensures Held(After(cfg, s, step), k, p)
  {
    hide Inv, Enabled, After, Held;
    if step.FinishRefresh? {
      HeldFinish(cfg, s, step.p, step.order, k, p);
    } else if step.PublishSnapshot? {
      HeldPublish(cfg, s, step.p, step.now, step.outcome, step.snapshots, k, p);
    } else {
      HeldOther(cfg, s, step, k, p);
    }
  }

  lemma HeldOther(cfg: Config, s: System, step: Step, k: SegmentKey, p: Process)
    requires Enabled(cfg, s, step) && Held(s, k, p) && !step.FinishRefresh? && !step.PublishSnapshot?
    ensures Held(After(cfg, s, step), k, p)
  {
    hide BuildSegment, SameBatch, ValidSegment, SumApplied, Summarize, DeltaOf, Restore, OneConversation, BlobsOf, Table, Concat, RecordsOf, Elements, FoldAll, StoreInv, DeltaInv, GenuineSnapshots, ViewInv, CallInv, Readable, DistinctIDs, WithNumbers, Decodable, MergeInto, Absorb, Listing;
    if step.Rebuild? { assert DeltaKey(k) in DeltaKeys(s.segments.Keys); }
  }

  lemma {:induction false} FoldKeepsLoaded(view: View, order: seq<DeltaKey>, deltas: map<DeltaKey, Stored<Delta>>)
    requires forall d | d in order :: d in deltas && deltas[d].Plain?
    ensures FoldAll(view, order, deltas).loaded == view.loaded
  {
    hide MergeInto, Absorb;
    if order != [] {
      var front := order[..|order| - 1];
      assert order == front + [order[|order| - 1]];
      FoldKeepsLoaded(view, front, deltas);
    }
  }

  /** From the load of p on, what is stored stays stored and what is held stays held. */
  lemma {:induction false} KeptFrom(cfg: Config, s: System, states: seq<System>, steps: seq<Step>, m: nat, n: nat, k: SegmentKey, p: Process)
    requires Inv(cfg, s) && RunFrom(cfg, s, states, steps) && m <= n < |states|
    ensures Stored(states[m], DeltaKey(k), p) ==> Stored(states[n], DeltaKey(k), p)
    ensures Held(states[m], k, p) ==> Held(states[n], k, p)
    decreases n
  {
    hide Inv, Enabled, After, Stored, Held;
    if m < n {
      KeptFrom(cfg, s, states, steps, m, n - 1, k, p);
      FromKeepsInv(cfg, s, states, steps, n - 1);
      if Stored(states[n - 1], DeltaKey(k), p) { StoredKept(cfg, states[n - 1], steps[n - 1], DeltaKey(k), p); }
      if Held(states[n - 1], k, p) { HeldKept(cfg, states[n - 1], steps[n - 1], k, p); }
    }
  }

  lemma {:induction false} DeltaKept(cfg: Config, s: System, states: seq<System>, steps: seq<Step>, n: nat, d: DeltaKey)
    requires RunFrom(cfg, s, states, steps) && n < |states|
    ensures s.deltas.Keys <= states[n].deltas.Keys
  {
    hide Enabled, After;
    if n > 0 {
      DeltaKept(cfg, s, states, steps, n - 1, d);
      StepGrows(cfg, states[n - 1], steps[n - 1]);
    }
  }

  /** A process without a view of its own is no exception to what everything counts. */
  lemma HeldStart(s: System, k: SegmentKey)
    requires k in s.segments && Everywhere(s, DeltaKey(k)) && forall p | p in s.views && s.views[p].listing.Some? :: s.views[p].loaded
    ensures forall p :: Held(s, k, p)
  {
  }

  lemma FinishCounts(cfg: Config, s: System, p: Process, order: seq<DeltaKey>, k: SegmentKey)
    requires Inv(cfg, s) && Enabled(cfg, s, FinishRefresh(p, order))
    requires Stored(s, DeltaKey(k), p) || Held(s, k, p)
    ensures CountsAt(After(cfg, s, FinishRefresh(p, order)), p, k)
  {
    hide Inv, After;
    StepFinishRefresh(cfg, s, p, order);
  }

  /** A segment lasts when its delta is stored, or when everything one can start from counts it. */
  lemma LastsIf(cfg: Config, s: System, k: SegmentKey)
    requires Inv(cfg, s) && ListingsLoaded(s)
    requires DeltaKey(k) in s.deltas || (k in s.segments && Everywhere(s, DeltaKey(k)))
    ensures Lasts(cfg, s, k)
  {
    hide Inv, Enabled, After, Stored, Held, Everywhere, CountsAt;
    forall states: seq<System>, steps: seq<Step>, i: nat, b: nat, p: Process
      | RunFrom(cfg, s, states, steps) && LoadsAndRefreshes(steps, i, b, p)
      ensures CountsAt(states[b + 1], p, k)
    {
      FromKeepsInv(cfg, s, states, steps, b);
      if DeltaKey(k) in s.deltas {
        DeltaKept(cfg, s, states, steps, i + 1, DeltaKey(k));
        LoadStarts(cfg, states[i], steps[i], p);
        StoredStart(states[i + 1], DeltaKey(k), p);
        KeptFrom(cfg, s, states, steps, i + 1, b, k, p);
      } else {
        HeldStart(s, k);
        KeptFrom(cfg, s, states, steps, 0, b, k, p);
      }
      FinishCounts(cfg, states[b], p, steps[b].order, k);
    }
  }

  lemma StoredStart(s: System, d: DeltaKey, p: Process)
    requires d in s.deltas && p in s.views && s.views[p].listing.None?
    ensures Stored(s, d, p)
  {
  }

  /** Only loaded views refresh. */
  ghost predicate ListingsLoaded(s: System) {
    forall p | p in s.views && s.views[p].listing.Some? :: s.views[p].loaded
  }

  lemma ListingsLoadedKept(cfg: Config, s: System, step: Step)
    requires Enabled(cfg, s, step) && ListingsLoaded(s)
    ensures ListingsLoaded(After(cfg, s, step))
  {
    hide BuildSegment, SameBatch, ValidSegment, SumApplied, Summarize, DeltaOf, Restore, OneConversation, BlobsOf, Table, Concat, RecordsOf, AcceptsSnapshot, Elements, FoldAll;
    if step.FinishRefresh? { FoldKeepsLoaded(s.views[step.p], step.order, s.deltas); }
  }

  lemma {:induction false} ReachableListings(cfg: Config, states: seq<System>, steps: seq<Step>, n: nat)
    requires Run(cfg, states, steps) && n < |states|
    ensures ListingsLoaded(states[n])
  {
    hide Enabled, After, ListingsLoaded;
    if n == 0 {
      NoListings();
    } else {
      ReachableListings(cfg, states, steps, n - 1);
      ListingsLoadedKept(cfg, states[n - 1], steps[n - 1]);
    }
  }

  lemma NoListings()
    ensures ListingsLoaded(Initial())
  {
  }

  // ----- The other direction: a run that forgets -----

  /** A run to a state where something can be loaded that does not count d: nothing at all, or a
      snapshot that verifies. */
  ghost predicate CanForget(s: System, d: DeltaKey, key: SnapshotKey) {
    s.snapshots == map[] || (key in s.snapshots && AcceptsSnapshot(s.snapshots[key]) && d !in s.snapshots[key].sealed.value.applied)
  }

  lemma {:induction false} LaterThan(keys: set<SnapshotKey>) returns (now: Time)
    ensures now > 0 && forall j | j in keys :: j.createdAt < now
  {
    if keys == {} {
      now := 1;
    } else {
      var j :| j in keys;
      now := LaterThan(keys - {j});
      if now <= j.createdAt { now := j.createdAt + 1; }
    }
  }

  /** A live view that does not count d can publish itself. */
  lemma PublishForgetful(cfg: Config, s: System, p: Process, d: DeltaKey)
      returns (states: seq<System>, steps: seq<Step>, key: SnapshotKey)
    requires Inv(cfg, s) && p in s.views && s.views[p].loaded && d !in s.views[p].applied
    ensures RunFrom(cfg, s, states, steps) && states[|steps|].deltas == s.deltas && CanForget(states[|steps|], d, key)
  {
    hide Inv, Table;
    states, steps := [s], [];
    if s.views[p].listing.Some? {
      FromSnoc(cfg, s, states, steps, AbortRefresh(p));
      states, steps := states + [After(cfg, s, AbortRefresh(p))], steps + [AbortRefresh(p)];
    }
    var t := states[|steps|];
    assert t.views[p].loaded && t.views[p].listing.None? && t.views[p].applied == s.views[p].applied && t.snapshots == s.snapshots;
    var now := LaterThan(t.snapshots.Keys);
    key := PublishKey(t.views[p], now);
    var step := PublishSnapshot(p, now, Created, t.snapshots[key := Plain(Seal(key.digestOf))]);
    FromSnoc(cfg, s, states, steps, step);
    states, steps := states + [After(cfg, t, step)], steps + [step];
  }

  /** A newcomer can load it and list. */
  lemma LoadAndList(cfg: Config, s: System, d: DeltaKey, key: SnapshotKey) returns (load: Step, a: System, b: System, c: System)
    requires Inv(cfg, s) && CanForget(s, d, key)
    ensures Enabled(cfg, s, Restart(0)) && a == After(cfg, s, Restart(0))
    ensures Loads(load, 0) && Enabled(cfg, a, load) && b == After(cfg, a, load)
    ensures Enabled(cfg, b, ListDeltas(0)) && c == After(cfg, b, ListDeltas(0))
    ensures Inv(cfg, c) && c.deltas == s.deltas && 0 in c.views && c.views[0].listing == Some(s.deltas.Keys) && d !in c.views[0].applied
  {
    hide Inv, Restore, AcceptsSnapshot;
    load := if s.snapshots == map[] then LoadNothing(0) else LoadSnapshot(0, key);
    a := After(cfg, s, Restart(0));
    StepKeepsInv(cfg, s, Restart(0));
    b := After(cfg, a, load);
    StepKeepsInv(cfg, a, load);
    c := After(cfg, b, ListDeltas(0));
    StepKeepsInv(cfg, b, ListDeltas(0));
  }

  /** It then refreshes, and does not count d. */
  lemma LoadForgetful(cfg: Config, s: System, states: seq<System>, steps: seq<Step>, k: SegmentKey, key: SnapshotKey)
    requires Inv(cfg, s) && RunFrom(cfg, s, states, steps) && CanForget(states[|steps|], DeltaKey(k), key)
    requires DeltaKey(k) !in states[|steps|].deltas && forall d | d in states[|steps|].deltas :: states[|steps|].deltas[d].Plain?
    ensures !Lasts(cfg, s, k)
  {
    hide Inv, Lasts, Enabled, After, CanForget;
    var n := |steps|;
    FromKeepsInv(cfg, s, states, steps, n);
    var load, a, b, c := LoadAndList(cfg, states[n], DeltaKey(k), key);
    var order := FinishEnabled(cfg, c, 0);
    StepFinishRefresh(cfg, c, 0, order);
    FromSnoc(cfg, s, states, steps, Restart(0));
    FromSnoc(cfg, s, states + [a], steps + [Restart(0)], load);
    FromSnoc(cfg, s, states + [a] + [b], steps + [Restart(0)] + [load], ListDeltas(0));
    FromSnoc(cfg, s, states + [a] + [b] + [c], steps + [Restart(0)] + [load] + [ListDeltas(0)], FinishRefresh(0, order));
    Forgotten(cfg, s, states + [a] + [b] + [c] + [After(cfg, c, FinishRefresh(0, order))],
      steps + [Restart(0)] + [load] + [ListDeltas(0)] + [FinishRefresh(0, order)], n + 1, n + 3, 0, k);
  }

  lemma Forgotten(cfg: Config, s: System, states: seq<System>, steps: seq<Step>, i: nat, b: nat, p: Process, k: SegmentKey)
    requires RunFrom(cfg, s, states, steps) && LoadsAndRefreshes(steps, i, b, p) && !CountsAt(states[b + 1], p, k)
    ensures !Lasts(cfg, s, k)
  {
  }

  /** While deltas are undamaged, a stored segment stays counted in every continuation if and only if
      its delta is stored, or every snapshot that verifies and every live view counts it already. */
  lemma LastsIff(cfg: Config, states: seq<System>, steps: seq<Step>, n: nat, k: SegmentKey)
    requires Run(cfg, states, steps) && n < |states| && k in states[n].segments
    requires forall d | d in states[n].deltas :: states[n].deltas[d].Plain?
    ensures Lasts(cfg, states[n], k) <==> DeltaKey(k) in states[n].deltas || Everywhere(states[n], DeltaKey(k))
  {
    hide Enabled, After, Lasts, Inv;
    var s, d := states[n], DeltaKey(k);
    RunKeepsInv(cfg, states, steps, n);
    ReachableListings(cfg, states, steps, n);
    if d in s.deltas || Everywhere(s, d) {
      LastsIf(cfg, s, k);
    } else if p :| p in s.views && s.views[p].loaded && d !in s.views[p].applied {
      var more, longer, key := PublishForgetful(cfg, s, p, d);
      LoadForgetful(cfg, s, more, longer, k, key);
    } else if s.snapshots == map[] {
      LoadForgetful(cfg, s, [s], [], k, SnapshotKey(0, 0, Snapshot(0, [], {})));
    } else {
      var key :| key in s.snapshots && AcceptsSnapshot(s.snapshots[key]) && d !in s.snapshots[key].sealed.value.applied;
      LoadForgetful(cfg, s, [s], [], k, key);
    }
  }

  // ----- Seen from before the rebuild -----

  /** Everything but the view of p counts d. */
  ghost predicate ElsewhereCounted(s: System, p: Process, d: DeltaKey) {
    && (forall q | q in s.views && q != p && s.views[q].loaded :: d in s.views[q].applied)
    && (forall j | j in s.snapshots && AcceptsSnapshot(s.snapshots[j]) :: d in s.snapshots[j].sealed.value.applied)
  }

  /** Steps n to n + 3 are a rebuild by p: fold the segments, refresh in two halves, publish. */
  ghost predicate RebuildsAt(steps: seq<Step>, n: nat, p: Process) {
    && n + 4 <= |steps| && steps[n].Rebuild? && steps[n].p == p && steps[n + 1] == ListDeltas(p)
    && steps[n + 2].FinishRefresh? && steps[n + 2].p == p
    && steps[n + 3].PublishSnapshot? && steps[n + 3].p == p && Landed(steps[n + 3].outcome)
  }

  /** What folding and refreshing leave: p counts every stored segment, and nothing else changed. */
  lemma RebuildRefreshes(cfg: Config, s: System, a: System, b: System, c: System, fold: Step, refresh: Step, p: Process, k: SegmentKey)
    requires Inv(cfg, s) && k in s.segments
    requires fold.Rebuild? && fold.p == p && Enabled(cfg, s, fold) && a == After(cfg, s, fold)
    requires Enabled(cfg, a, ListDeltas(p)) && b == After(cfg, a, ListDeltas(p))
    requires refresh.FinishRefresh? && refresh.p == p && Enabled(cfg, b, refresh) && c == After(cfg, b, refresh)
    ensures c.deltas == s.deltas && c.segments == s.segments && c.snapshots == s.snapshots
    ensures p in c.views && c.views[p].loaded && DeltaKey(k) in c.views[p].applied
    ensures forall q | q != p :: (q in c.views <==> q in s.views) && (q in s.views ==> c.views[q] == s.views[q])
  {
    hide Inv, Restore, Listing, Summarize, AcceptsDelta, AcceptsSnapshot, FoldAll, Concat, Readable, DistinctIDs;
    StepKeepsInv(cfg, s, fold);
    StepKeepsInv(cfg, a, ListDeltas(p));
    StepFinishRefresh(cfg, b, p, refresh.order);
    assert DeltaKey(k) in DeltaKeys(s.segments.Keys);
    RefreshLoaded(cfg, b, refresh);
  }

  lemma RefreshLoaded(cfg: Config, s: System, refresh: Step)
    requires refresh.FinishRefresh? && Enabled(cfg, s, refresh)
    ensures After(cfg, s, refresh).views[refresh.p].loaded == s.views[refresh.p].loaded
  {
    FoldKeepsLoaded(s.views[refresh.p], refresh.order, s.deltas);
  }

  lemma RebuildPublishes(cfg: Config, s: System, t: System, publish: Step, p: Process, d: DeltaKey)
    requires publish.PublishSnapshot? && publish.p == p && Landed(publish.outcome)
    requires Enabled(cfg, s, publish) && t == After(cfg, s, publish) && d in s.views[p].applied
    ensures t.deltas == s.deltas && t.segments == s.segments && t.views == s.views && t.snapshots != map[]
    ensures (forall j | j in t.snapshots && AcceptsSnapshot(t.snapshots[j]) :: d in t.snapshots[j].sealed.value.applied)
       <==> (forall j | j in s.snapshots && AcceptsSnapshot(s.snapshots[j]) :: d in s.snapshots[j].sealed.value.applied)
  {
    hide Table, AcceptsSnapshot;
    var key := PublishKey(s.views[p], publish.now);
    assert key in t.snapshots && t.snapshots[key] == Plain(Seal(key.digestOf));
    forall j | j in t.snapshots && j != key ensures j in s.snapshots && t.snapshots[j] == s.snapshots[j] {}
    forall j | j in s.snapshots ensures j in t.snapshots && t.snapshots[j] == s.snapshots[j] {}
  }

  /** What a view that is not lost counts, it goes on counting. */
  lemma CountKept(cfg: Config, s: System, step: Step, p: Process, k: SegmentKey)
    requires Inv(cfg, s) && Enabled(cfg, s, step) && step != Restart(p)
    requires k in s.segments && CountsAt(s, p, k) && s.views[p].loaded
    ensures var t := After(cfg, s, step);
            k in t.segments && CountsAt(t, p, k) && t.views[p].loaded
  {
    hide BuildSegment, SameBatch, ValidSegment, SumApplied, Summarize, DeltaOf, Restore, OneConversation, BlobsOf, Table, Concat, RecordsOf, Elements, FoldAll, StoreInv, DeltaInv, GenuineSnapshots, ViewInv, CallInv;
    match step
    case FinishRefresh(q, order) => StepFinishRefresh(cfg, s, q, order); FoldKeepsLoaded(s.views[q], order, s.deltas);
    case Rebuild(_, _, _) => assert DeltaKey(k) in DeltaKeys(s.segments.Keys);
    case _ =>
  }

  lemma {:induction false} CountKeptUntil(cfg: Config, states: seq<System>, steps: seq<Step>, m: nat, n: nat, p: Process, k: SegmentKey)
    requires Run(cfg, states, steps) && m <= n < |states| && forall j | m <= j < n :: steps[j] != Restart(p)
    requires k in states[m].segments && CountsAt(states[m], p, k) && states[m].views[p].loaded
    ensures k in states[n].segments && CountsAt(states[n], p, k) && states[n].views[p].loaded
    decreases n
  {
    hide Enabled, After, CountsAt;
    if m < n {
      CountKeptUntil(cfg, states, steps, m, n - 1, p, k);
      RunKeepsInv(cfg, states, steps, n - 1);
      CountKept(cfg, states[n - 1], steps[n - 1], p, k);
    }
  }

  lemma FoldCounts(cfg: Config, s: System, fold: Step, k: SegmentKey)
    requires Enabled(cfg, s, fold) && fold.Rebuild? && k in s.segments
    ensures var t := After(cfg, s, fold);
            k in t.segments && CountsAt(t, fold.p, k) && t.views[fold.p].loaded
  {
    assert DeltaKey(k) in DeltaKeys(s.segments.Keys);
  }

  /** Step n folds the segments and step e publishes the view, by one process that lives all the while.
      Any other process may take any steps in between. */
  ghost predicate RebuildsBetween(steps: seq<Step>, n: nat, e: nat, p: Process) {
    && n < e < |steps| && steps[n].Rebuild? && steps[n].p == p
    && steps[e].PublishSnapshot? && steps[e].p == p && Landed(steps[e].outcome)
    && forall j | n < j < e :: steps[j] != Restart(p)
  }

  /** A segment that a rebuild counts stays counted in every continuation if and only if, when the
      rebuild publishes, its delta is stored or everything else counts it already. */
  lemma RebuildLastsIff(cfg: Config, states: seq<System>, steps: seq<Step>, n: nat, e: nat, p: Process, k: SegmentKey)
    requires Run(cfg, states, steps) && RebuildsBetween(steps, n, e, p) && k in states[n].segments
    requires forall d | d in states[e].deltas :: states[e].deltas[d].Plain?
    ensures Lasts(cfg, states[e + 1], k) <==> DeltaKey(k) in states[e].deltas || ElsewhereCounted(states[e], p, DeltaKey(k))
  {
    hide Enabled, After, Lasts, Inv, AcceptsSnapshot;
    FoldCounts(cfg, states[n], steps[n], k);
    CountKeptUntil(cfg, states, steps, n + 1, e, p, k);
    RebuildPublishes(cfg, states[e], states[e + 1], steps[e], p, DeltaKey(k));
    LastsIff(cfg, states, steps, e + 1, k);
  }

  /** When nothing happens in between, that can be told before the rebuild. */
  lemma RebuildAloneLastsIff(cfg: Config, states: seq<System>, steps: seq<Step>, n: nat, p: Process, k: SegmentKey)
    requires Run(cfg, states, steps) && RebuildsAt(steps, n, p) && k in states[n].segments
    requires forall d | d in states[n].deltas :: states[n].deltas[d].Plain?
    ensures Lasts(cfg, states[n + 4], k) <==> DeltaKey(k) in states[n].deltas || ElsewhereCounted(states[n], p, DeltaKey(k))
  {
    hide Enabled, After, Lasts, Inv, AcceptsSnapshot;
    RunKeepsInv(cfg, states, steps, n);
    RebuildRefreshes(cfg, states[n], states[n + 1], states[n + 2], states[n + 3], steps[n], steps[n + 2], p, k);
    RebuildLastsIff(cfg, states, steps, n, n + 3, p, k);
  }

  /** So while somebody else, or some snapshot, does not count the segments that were folded, the rebuild
      lasts for all of them if and only if each has its delta stored by the time it is published. */
  lemma RebuildNeedsDeltas(cfg: Config, states: seq<System>, steps: seq<Step>, n: nat, e: nat, p: Process)
    requires Run(cfg, states, steps) && RebuildsBetween(steps, n, e, p)
    requires forall d | d in states[e].deltas :: states[e].deltas[d].Plain?
    requires forall k | k in states[n].segments :: !ElsewhereCounted(states[e], p, DeltaKey(k))
    ensures (forall k | k in states[n].segments :: Lasts(cfg, states[e + 1], k)) <==>
              forall k | k in states[n].segments :: DeltaKey(k) in states[e].deltas
  {
    hide Lasts, ElsewhereCounted;
    forall k | k in states[n].segments ensures Lasts(cfg, states[e + 1], k) <==> DeltaKey(k) in states[e].deltas {
      RebuildLastsIff(cfg, states, steps, n, e, p, k);
    }
  }

  // ----- A rebuild that does not last -----

  /** The rebuild of a lone delta-less segment, refreshed over no deltas and published. */
  lemma PublishLost(cfg: Config, plan: Plan, a: System, now: Time) returns (publish: Step, b: System, c: System, d: System)
    requires a.deltas == map[] && a.snapshots == map[] && now != ZERO_TIME
    requires REBUILDER in a.views && a.views[REBUILDER].loaded && a.views[REBUILDER].listing.None?
    ensures Enabled(cfg, a, ListDeltas(REBUILDER)) && b == After(cfg, a, ListDeltas(REBUILDER))
    ensures Enabled(cfg, b, FinishRefresh(REBUILDER, [])) && c == After(cfg, b, FinishRefresh(REBUILDER, []))
    ensures publish.PublishSnapshot? && publish.p == REBUILDER && Landed(publish.outcome)
    ensures Enabled(cfg, c, publish) && d == After(cfg, c, publish)
  {
    hide Table;
    b := After(cfg, a, ListDeltas(REBUILDER));
    assert Elements<DeltaKey>([]) == {};
    c := After(cfg, b, FinishRefresh(REBUILDER, []));
    var key := PublishKey(c.views[REBUILDER], now);
    publish := PublishSnapshot(REBUILDER, now, Created, c.snapshots[key := Plain(Seal(key.digestOf))]);
    d := After(cfg, c, publish);
  }

  /** For any batch that builds and decodes there is a run that ends with a rebuild of its segment which
      does not last: its delta is missing and a bystander does not count it. */
  lemma RebuildForgets(cfg: Config, plan: Plan, inputs: seq<AppendInput>, now: Time) returns (states: seq<System>, steps: seq<Step>, n: nat)
    requires Ready(cfg, Initial(), 0, plan, inputs) && AllDecode(cfg, inputs) && now != ZERO_TIME
    ensures Run(cfg, states, steps) && RebuildsAt(steps, n, REBUILDER) && n + 4 == |steps|
    ensures plan.key in states[n].segments && states[n].deltas == map[] && !Lasts(cfg, states[n + 4], plan.key)
  {
    var s := LoseDelta(cfg, plan, inputs);
    states, steps :| Run(cfg, states, steps) && states[|steps|] == s;
    n := |steps|;
    var fold, a := FoldLost(cfg, plan, inputs, s);
    var publish, b, c, d := PublishLost(cfg, plan, a, now);
    assert !ElsewhereCounted(s, REBUILDER, DeltaKey(plan.key)) by {
      assert DeltaKey(plan.key) !in s.views[BYSTANDER].applied;
    }
    assert plan.key in s.segments;
    hide *;
    states, steps := RunRebuild(cfg, states, steps, a, b, c, d, fold, publish);
    RebuildAloneLastsIff(cfg, states, steps, n, REBUILDER, plan.key);
  }

  /** Four more steps of a run make a rebuild. */
  lemma RunRebuild(cfg: Config, before: seq<System>, taken: seq<Step>, a: System, b: System, c: System, d: System, fold: Step, publish: Step)
      returns (states: seq<System>, steps: seq<Step>)
    requires Run(cfg, before, taken) && |before| == |taken| + 1
    requires fold.Rebuild? && fold.p == REBUILDER && publish.PublishSnapshot? && publish.p == REBUILDER && Landed(publish.outcome)
    requires Enabled(cfg, before[|taken|], fold) && a == After(cfg, before[|taken|], fold)
    requires Enabled(cfg, a, ListDeltas(REBUILDER)) && b == After(cfg, a, ListDeltas(REBUILDER))
    requires Enabled(cfg, b, FinishRefresh(REBUILDER, [])) && c == After(cfg, b, FinishRefresh(REBUILDER, []))
    requires Enabled(cfg, c, publish) && d == After(cfg, c, publish)
    ensures Run(cfg, states, steps) && |steps| == |taken| + 4 && |states| == |steps| + 1
    ensures RebuildsAt(steps, |taken|, REBUILDER) && states[|taken|] == before[|taken|]
  {
    hide Run, Enabled, After;
    RunLonger(cfg, before, taken, fold, a);
    var first, one := before + [a], taken + [fold];
    RunLonger(cfg, first, one, ListDeltas(REBUILDER), b);
    var second, two := first + [b], one + [ListDeltas(REBUILDER)];
    RunLonger(cfg, second, two, FinishRefresh(REBUILDER, []), c);
    var third, three := second + [c], two + [FinishRefresh(REBUILDER, [])];
    RunLonger(cfg, third, three, publish, d);
    states, steps := third + [d], three + [publish];
  }

  lemma RunLonger(cfg: Config, states: seq<System>, steps: seq<Step>, step: Step, next: System)
    requires Run(cfg, states, steps) && |states| == |steps| + 1
    requires Enabled(cfg, states[|steps|], step) && next == After(cfg, states[|steps|], step)
    ensures Run(cfg, states + [next], steps + [step])
  {
    RunSnoc(cfg, states, steps, step);
  }

  /** A literal batch is enough. */
  lemma SmallRebuildForgets(cfg: Config) returns (states: seq<System>, steps: seq<Step>, n: nat)
    requires Roomy(cfg)
    ensures Run(cfg, states, steps) && RebuildsAt(steps, n, REBUILDER) && n + 4 == |steps|
    ensures SegmentKey("c", "x") in states[n].segments && states[n].deltas == map[]
    ensures !Lasts(cfg, states[n + 4], SegmentKey("c", "x"))
  {
    hide Run, Ready, BuildSegment, Lasts;
    SmallBatchReady(cfg, 0, "x", 1, None);
    SmallBatchDecodes(cfg, "x");
    states, steps, n := RebuildForgets(cfg, SmallPlan("x", 1), SmallBatch("x", None), 1);
  }
}
