/** The live view of the conversation projection: an object updated in place by apply, install,
    refresh, load and rebuild (history/conversation_projection.go). */
module ConversationView {
  import opened Basics
  import opened Sorting
  import opened Records
  import opened RecordOrder
  import opened Aggregates
  import opened ObjectStore
  import opened Projection

  const REFRESH_INTERVAL: int := 1_000_000_000
  const SNAPSHOT_THRESHOLD: nat := 256

  // ----- Listing snapshots in name order -----

  predicate Newer(a: SnapshotKey, b: SnapshotKey) {
    a.count > b.count || (a.count == b.count && a.createdAt > b.createdAt)
  }

  lemma {:induction false} OldestExists(keys: set<SnapshotKey>) returns (oldest: SnapshotKey)
    requires keys != {}
    ensures oldest in keys && forall k | k in keys :: !Newer(oldest, k)
  {
    oldest :| oldest in keys;
    var rest := keys - {oldest};
    if rest == {} {
      assert keys == {oldest};
    } else {
      var first := oldest;
      var other := OldestExists(rest);
      if Newer(oldest, other) { oldest := other; }
      forall k | k in keys ensures !Newer(oldest, k) {
        if k != first {
          assert k in rest && !Newer(other, k);
        }
      }
    }
  }

  /** A listing in name order. Names that agree on count and time order by digest, which is
      left arbitrary. */
  method OldestFirst(keys: set<SnapshotKey>) returns (r: seq<SnapshotKey>)
    ensures NoDuplicates(r) && Elements(r) == keys
    ensures forall i, j | 0 <= i < j < |r| :: !Newer(r[i], r[j])
  {
    var pending := keys;
    r := [];
    while pending != {}
      invariant pending <= keys && Elements(r) == keys - pending && NoDuplicates(r)
      invariant forall i, j | 0 <= i < j < |r| :: !Newer(r[i], r[j])
      invariant forall i, k | 0 <= i < |r| && k in pending :: !Newer(r[i], k)
      decreases pending
    {
      ghost var oldest := OldestExists(pending);
      var k :| k in pending && forall j | j in pending :: !Newer(k, j);
      assert k !in Elements(r);
      assert Elements(r + [k]) == Elements(r) + {k};
      r := r + [k];
      pending := pending - {k};
    }
  }

  /** A snapshot that verifies: none that does counts more deltas, nor as many at a later instant. */
  ghost predicate NewestAccepted(k: SnapshotKey, snapshots: map<SnapshotKey, Stored<Snapshot>>) {
    && k in snapshots && AcceptsSnapshot(snapshots[k])
    && forall j | j in snapshots && AcceptsSnapshot(snapshots[j]) ::
         j.count < k.count || (j.count == k.count && j.createdAt <= k.createdAt)
  }

  /** Every snapshot is as it was published. */
  ghost predicate Undamaged(snapshots: map<SnapshotKey, Stored<Snapshot>>) {
    forall k | k in snapshots :: snapshots[k] == Plain(Seal(k.digestOf))
  }

  ghost predicate AllAccepted(deltas: map<DeltaKey, Stored<Delta>>) {
    forall d | d in deltas :: AcceptsDelta(d, deltas[d])
  }

  class ConversationProjection {
    const deltas: Bucket<DeltaKey, Stored<Delta>>
    const snapshots: Bucket<SnapshotKey, Stored<Snapshot>>
    var loaded: bool
    var values: Summary
    var applied: set<DeltaKey>
    var lastRefresh: Time
    var deltasSinceSnapshot: nat

    constructor (deltas: Bucket<DeltaKey, Stored<Delta>>, snapshots: Bucket<SnapshotKey, Stored<Snapshot>>)
      ensures this.deltas == deltas && this.snapshots == snapshots
      ensures !loaded && values == map[] && applied == {}
    {
      this.deltas, this.snapshots := deltas, snapshots;
      loaded, values, applied, lastRefresh, deltasSinceSnapshot := false, map[], {}, ZERO_TIME, 0;
    }

    /** Fold one delta in, once. */
    method Apply(key: DeltaKey, delta: Delta)
      modifies this`values, this`applied, this`deltasSinceSnapshot
      ensures key in old(applied) ==>
                && values == old(values) && applied == old(applied)
                && deltasSinceSnapshot == old(deltasSinceSnapshot)
      ensures key !in old(applied) ==>
                && values == MergeInto(old(values), delta.conversationID, Absorb(delta))
                && applied == old(applied) + {key}
                && deltasSinceSnapshot == old(deltasSinceSnapshot) + 1
    {
      if key in applied { return; }
      var id := delta.conversationID;
      var value := if id in values then values[id] else Aggregate(0, delta.firstSeenAt, delta.lastSeenAt, {}, {});
      value := value.(count := value.count + delta.recordCount);
      if delta.firstSeenAt < value.first { value := value.(first := delta.firstSeenAt); }
      if delta.lastSeenAt > value.last { value := value.(last := delta.lastSeenAt); }
      for i := 0 to |delta.agents|
        invariant value.agents == (if id in values then values[id].agents else {}) + Elements(delta.agents[..i])
        invariant value.count == (if id in values then values[id].count else 0) + delta.recordCount
        invariant value.first == (if id in values then Min(values[id].first, delta.firstSeenAt) else delta.firstSeenAt)
        invariant value.last == (if id in values then Max(values[id].last, delta.lastSeenAt) else delta.lastSeenAt)
        invariant value.kinds == if id in values then values[id].kinds else {}
      {
        assert delta.agents[..i + 1] == delta.agents[..i] + [delta.agents[i]];
        assert Elements(delta.agents[..i + 1]) == Elements(delta.agents[..i]) + {delta.agents[i]};
        value := value.(agents := value.agents + {delta.agents[i]});
      }
      assert delta.agents[..|delta.agents|] == delta.agents;
      ghost var noKinds := value;
      for i := 0 to |delta.kinds|
        invariant value == noKinds.(kinds := noKinds.kinds + Elements(delta.kinds[..i]))
      {
        assert delta.kinds[..i + 1] == delta.kinds[..i] + [delta.kinds[i]];
        assert Elements(delta.kinds[..i + 1]) == Elements(delta.kinds[..i]) + {delta.kinds[i]};
        value := value.(kinds := value.kinds + {delta.kinds[i]});
      }
      assert delta.kinds[..|delta.kinds|] == delta.kinds;
      assert id !in values ==> value == Absorb(delta) by {
        assert {} + Elements(delta.agents) == Elements(delta.agents) && {} + Elements(delta.kinds) == Elements(delta.kinds);
      }
      values := values[id := value];
      applied := applied + {key};
      deltasSinceSnapshot := deltasSinceSnapshot + 1;
    }

    method Listed(limit: int) returns (r: seq<Conversation>)
      ensures r == Listing(values, limit) && ListsNewest(values, r, limit)
    {
      r := BuildListing(values, limit);
    }

    method ReadDelta(key: DeltaKey) returns (r: Result<Delta, Failure>)
      ensures r.Ok? ==>
                && key in deltas.objects && AcceptsDelta(key, deltas.objects[key])
                && r.value == deltas.objects[key].sealed.value
      ensures r.Err? ==> r.error == ReadFailed
      ensures deltas.reliable && key in deltas.objects && AcceptsDelta(key, deltas.objects[key]) ==> r.Ok?
    {
      var stored := deltas.Get(key);
      if stored.Err? || !AcceptsDelta(key, stored.value) { return Err(ReadFailed); }
      r := Ok(stored.value.sealed.value);
    }

    method ReadSnapshot(key: SnapshotKey) returns (r: Result<Snapshot, Failure>)
      ensures r.Ok? ==>
                && key in snapshots.objects && AcceptsSnapshot(snapshots.objects[key])
                && r.value == snapshots.objects[key].sealed.value
      ensures snapshots.reliable && key in snapshots.objects && AcceptsSnapshot(snapshots.objects[key]) ==> r.Ok?
    {
      var stored := snapshots.Get(key);
      if stored.Err? || !AcceptsSnapshot(stored.value) { return Err(ReadFailed); }
      r := Ok(stored.value.sealed.value);
    }

    /** Every delta not yet applied reads. */
    ghost predicate UnseenReadable()
      reads this, deltas
    {
      forall d | d in deltas.objects && d !in applied :: AcceptsDelta(d, deltas.objects[d])
    }

    /** The listed keys that are not applied yet. */
    method Unseen(keys: seq<DeltaKey>) returns (unseen: seq<DeltaKey>)
      requires NoDuplicates(keys)
      ensures NoDuplicates(unseen) && Elements(unseen) == Elements(keys) - applied
    {
      unseen := [];
      for i := 0 to |keys|
        invariant NoDuplicates(unseen) && Elements(unseen) == Elements(keys[..i]) - applied
      {
        assert keys[..i + 1] == keys[..i] + [keys[i]];
        assert Elements(keys[..i + 1]) == Elements(keys[..i]) + {keys[i]};
        if keys[i] !in applied {
          assert keys[i] !in keys[..i];
          assert keys[i] !in Elements(unseen);
          assert Elements(unseen + [keys[i]]) == Elements(unseen) + {keys[i]};
          unseen := unseen + [keys[i]];
        }
      }
      assert keys[..|keys|] == keys;
    }

    /** Read them all; one that does not read fails the lot. */
    method ReadDeltas(unseen: seq<DeltaKey>) returns (r: Result<seq<Delta>, Failure>)
      ensures r.Ok? ==> |r.value| == |unseen| && forall j | 0 <= j < |unseen| ::
                && unseen[j] in deltas.objects && AcceptsDelta(unseen[j], deltas.objects[unseen[j]])
                && r.value[j] == deltas.objects[unseen[j]].sealed.value
      ensures deltas.reliable && (forall d | d in unseen :: d in deltas.objects && AcceptsDelta(d, deltas.objects[d])) ==> r.Ok?
    {
      var read: seq<Delta> := [];
      for i := 0 to |unseen|
        invariant |read| == i
        invariant forall j | 0 <= j < i ::
          && unseen[j] in deltas.objects && AcceptsDelta(unseen[j], deltas.objects[unseen[j]])
          && read[j] == deltas.objects[unseen[j]].sealed.value
      {
        var delta := ReadDelta(unseen[i]);
        if delta.Err? { return Err(ReadFailed); }
        read := read + [delta.value];
      }
      r := Ok(read);
    }

    /** Fold what was read. */
    method ApplyAll(unseen: seq<DeltaKey>, read: seq<Delta>, ghost segments: SegmentStore)
      requires NoDuplicates(unseen) && Elements(unseen) !! applied && |read| == |unseen|
      requires forall j | 0 <= j < |unseen| ::
                 && unseen[j] in deltas.objects && AcceptsDelta(unseen[j], deltas.objects[unseen[j]])
                 && read[j] == deltas.objects[unseen[j]].sealed.value
      modifies this`values, this`applied, this`deltasSinceSnapshot
      ensures applied == old(applied) + Elements(unseen) && deltasSinceSnapshot == old(deltasSinceSnapshot) + |unseen|
      ensures Faithful(old(values), old(applied), segments) && GenuineDeltas(deltas.objects, segments)
              ==> Faithful(values, applied, segments)
    {
      hide MergeInto, Absorb, DeltaOf, OneConversation, SumApplied;
      for i := 0 to |unseen|
        invariant applied == old(applied) + Elements(unseen[..i]) && deltasSinceSnapshot == old(deltasSinceSnapshot) + i
        invariant Faithful(old(values), old(applied), segments) && GenuineDeltas(deltas.objects, segments)
                  ==> Faithful(values, applied, segments)
      {
        assert unseen[..i + 1] == unseen[..i] + [unseen[i]];
        assert Elements(unseen[..i + 1]) == Elements(unseen[..i]) + {unseen[i]};
        assert unseen[i] !in unseen[..i] && unseen[i] in Elements(unseen);
        if Faithful(values, applied, segments) && GenuineDeltas(deltas.objects, segments) {
          FaithfulApply(values, applied, segments, unseen[i]);
        }
        Apply(unseen[i], read[i]);
      }
      assert unseen[..|unseen|] == unseen;
    }

    /** LIST the deltas, read every unseen one, and only then fold them in. A read error leaves the
        view as it was. */
    method Refresh(now: Time, ghost segments: SegmentStore) returns (r: Result<(), Failure>)
      modifies this`values, this`applied, this`deltasSinceSnapshot, this`lastRefresh
      ensures r.Err? ==> r.error == ReadFailed && values == old(values) && applied == old(applied)
      ensures r.Err? ==> lastRefresh == old(lastRefresh) && deltasSinceSnapshot == old(deltasSinceSnapshot)
      ensures r.Ok? ==> applied == old(applied) + deltas.objects.Keys && lastRefresh == now
      ensures r.Ok? ==> deltasSinceSnapshot == old(deltasSinceSnapshot) + |deltas.objects.Keys - old(applied)|
      ensures r.Ok? ==> old(UnseenReadable())
      ensures deltas.reliable && old(UnseenReadable()) ==> r.Ok?
      ensures Faithful(old(values), old(applied), segments) && GenuineDeltas(deltas.objects, segments)
              ==> Faithful(values, applied, segments)
    {
      hide AcceptsDelta, MergeInto, Absorb, DeltaOf, OneConversation, Faithful, GenuineDeltas;
      var keys := deltas.List(_ => true);
      if keys.Err? { return Err(ReadFailed); }
      assert Elements(keys.value) == deltas.objects.Keys;
      var unseen := Unseen(keys.value);
      assert forall d | d in unseen :: d in Elements(unseen);
      var read := ReadDeltas(unseen);
      if read.Err? { return Err(ReadFailed); }
      assert UnseenReadable() by {
        assert forall d | d in deltas.objects && d !in applied :: d in Elements(unseen);
      }
      ApplyAll(unseen, read.value, segments);
      assert old(applied) + (deltas.objects.Keys - old(applied)) == old(applied) + deltas.objects.Keys;
      DistinctSize(unseen);
      lastRefresh := now;
      r := Ok(());
    }

    /** Replace the view by a snapshot. */
    method Install(snapshot: Snapshot)
      modifies this
      ensures loaded && values == Restore(snapshot.conversations) && applied == snapshot.applied
      ensures lastRefresh == ZERO_TIME && deltasSinceSnapshot == 0
    {
      values := AggregatesFromConversations(snapshot.conversations);
      applied := snapshot.applied;
      loaded, lastRefresh, deltasSinceSnapshot := true, ZERO_TIME, 0;
    }

    /** What WriteSnapshot publishes for a view. */
    ghost function Published(createdAt: Time): Snapshot
      reads this
    {
      Snapshot(createdAt, Table(values), applied)
    }

    /** The view as it is has been published at that instant. */
    ghost predicate PublishedAt(createdAt: Time)
      reads this, snapshots
    {
      var key := SnapshotKey(|applied|, createdAt, Published(createdAt));
      key in snapshots.objects && snapshots.objects[key] == Plain(Seal(Published(createdAt)))
    }

    /** Nothing stands in the way of publishing the view. */
    ghost predicate Publishable(createdAt: Time)
      reads this, snapshots
    {
      var key := SnapshotKey(|applied|, createdAt, Published(createdAt));
      snapshots.reliable && (key in snapshots.objects ==> snapshots.objects[key] == Plain(Seal(Published(createdAt))))
    }

    method WriteSnapshot(createdAt: Time) returns (r: Result<(), Failure>)
      modifies this`deltasSinceSnapshot, snapshots
      ensures var snapshot := old(Published(createdAt));
              var key := SnapshotKey(|snapshot.applied|, createdAt, snapshot);
              exists outcome ::
                && Put(old(snapshots.objects), key, Plain(Seal(snapshot)), outcome, snapshots.objects)
                && (r.Ok? <==> outcome.Created? || outcome.AlreadyPresent?)
      ensures r.Ok? ==> deltasSinceSnapshot == 0 && PublishedAt(createdAt)
      ensures r.Err? ==> r.error == WriteFailed && deltasSinceSnapshot == old(deltasSinceSnapshot)
      ensures old(Publishable(createdAt)) ==> r.Ok?
      ensures Undamaged(old(snapshots.objects)) ==> Undamaged(snapshots.objects)
    {
      var rows := Listed(-1);
      var snapshot := Snapshot(createdAt, rows, applied);
      var outcome := snapshots.PutIfAbsent(SnapshotKey(|applied|, createdAt, snapshot), Plain(Seal(snapshot)));
      if outcome.Conflict? || outcome.Failed? { return Err(WriteFailed); }
      deltasSinceSnapshot := 0;
      r := Ok(());
    }

    /** Catch up, then publish: the common tail of a first load and of a rebuild. */
    method RefreshAndPublish(now: Time, ghost segments: SegmentStore) returns (r: Result<(), Failure>)
      requires deltas as object != snapshots as object
      modifies this`values, this`applied, this`deltasSinceSnapshot, this`lastRefresh, snapshots
      ensures r.Ok? ==> applied == old(applied) + deltas.objects.Keys
      ensures r.Ok? ==> PublishedAt(now) && lastRefresh == now && deltasSinceSnapshot == 0 && old(UnseenReadable())
      ensures r.Err? ==> r.error == ReadFailed || r.error == WriteFailed
      ensures r == Err(ReadFailed) ==> snapshots.objects == old(snapshots.objects)
      ensures Undamaged(old(snapshots.objects)) ==> Undamaged(snapshots.objects)
      ensures deltas.reliable && old(UnseenReadable()) && snapshots.reliable ==> r != Err(ReadFailed)
      ensures deltas.reliable && old(UnseenReadable()) && snapshots.reliable && Undamaged(old(snapshots.objects)) ==> r.Ok?
      ensures Faithful(old(values), old(applied), segments) && GenuineDeltas(deltas.objects, segments)
              ==> && Faithful(values, applied, segments)
                  && (GenuineSnapshots(old(snapshots.objects), segments) ==> GenuineSnapshots(snapshots.objects, segments))
    {
      hide Faithful, GenuineDeltas, GenuineSnapshots, AcceptsDelta;
      r := Refresh(now, segments);
      if r.Err? { return; }
      r := Publish(now, segments);
    }

    /** Start from the newest snapshot that still verifies, then catch up. */
    method Load(now: Time, ghost segments: SegmentStore) returns (r: Result<(), Failure>)
      requires deltas as object != snapshots as object
      modifies this, snapshots
      ensures r.Ok? ==> loaded && deltas.objects.Keys <= applied && lastRefresh == now
      ensures r.Ok? && old(snapshots.objects) == map[] ==> applied == deltas.objects.Keys && PublishedAt(now)
      ensures r.Ok? && old(snapshots.objects) != map[] ==>
                && snapshots.objects == old(snapshots.objects)
                && exists k :: k in old(snapshots.objects) && AcceptsSnapshot(old(snapshots.objects)[k])
                            && applied == old(snapshots.objects)[k].sealed.value.applied + deltas.objects.Keys
      ensures r.Ok? && old(snapshots.objects) != map[] && snapshots.reliable ==>
                exists k :: NewestAccepted(k, old(snapshots.objects))
                         && applied == old(snapshots.objects)[k].sealed.value.applied + deltas.objects.Keys
      ensures Undamaged(old(snapshots.objects)) ==> Undamaged(snapshots.objects)
      ensures r == Err(NoValidSnapshot) ==> snapshots.objects != map[] && snapshots.objects == old(snapshots.objects)
      ensures snapshots.reliable ==>
                (r == Err(NoValidSnapshot) <==>
                   old(snapshots.objects) != map[] && forall k | k in old(snapshots.objects) :: !AcceptsSnapshot(old(snapshots.objects)[k]))
      ensures snapshots.reliable && deltas.reliable && AllAccepted(deltas.objects) && r.Err? ==> r == Err(NoValidSnapshot)
      ensures r == Err(NoValidSnapshot) ==> loaded == old(loaded) && values == old(values) && applied == old(applied)
      ensures (Faithful(old(values), old(applied), segments)
               && GenuineDeltas(deltas.objects, segments) && GenuineSnapshots(old(snapshots.objects), segments))
              ==> Faithful(values, applied, segments) && GenuineSnapshots(snapshots.objects, segments)
    {
      NothingIsFaithful(segments);
      hide AcceptsSnapshot, AcceptsDelta, Restore, Table, Faithful, GenuineDeltas, NewestAccepted;
      var listing := snapshots.List(_ => true);
      if listing.Err? { return Err(ReadFailed); }
      assert Elements(listing.value) == snapshots.objects.Keys;
      if listing.value == [] {
        values, applied, loaded, lastRefresh := map[], {}, true, ZERO_TIME;
        r := RefreshAndPublish(now, segments);
        return;
      }
      assert listing.value[0] in Elements(listing.value);
      var found := NewestReadable(Elements(listing.value));
      if found.None? { return Err(NoValidSnapshot); }
      Install(found.value.1);
      r := Refresh(now, segments);
    }

    /** From the newest name down, the first snapshot that can be read. */
    method NewestReadable(listed: set<SnapshotKey>) returns (r: Option<(SnapshotKey, Snapshot)>)
      requires listed == snapshots.objects.Keys
      ensures r.Some? ==>
                && r.value.0 in listed && AcceptsSnapshot(snapshots.objects[r.value.0])
                && r.value.1 == snapshots.objects[r.value.0].sealed.value
                && (snapshots.reliable ==> NewestAccepted(r.value.0, snapshots.objects))
      ensures snapshots.reliable ==> (r.None? <==> forall k | k in listed :: !AcceptsSnapshot(snapshots.objects[k]))
    {
      hide AcceptsSnapshot;
      var keys := OldestFirst(listed);
      for index := |keys| downto 0
        invariant snapshots.reliable ==>
          forall j | index <= j < |keys| :: keys[j] in Elements(keys) && !AcceptsSnapshot(snapshots.objects[keys[j]])
      {
        assert keys[index] in Elements(keys);
        var snapshot := ReadSnapshot(keys[index]);
        if snapshot.Ok? {
          if snapshots.reliable {
            forall k | k in snapshots.objects && AcceptsSnapshot(snapshots.objects[k]) ensures !Newer(k, keys[index]) {
              assert k in Elements(keys);
              var j :| 0 <= j < |keys| && keys[j] == k;
              if j < index { assert !Newer(keys[j], keys[index]); }
            }
          }
          return Some((keys[index], snapshot.value));
        }
      }
      forall k | k in listed && snapshots.reliable ensures !AcceptsSnapshot(snapshots.objects[k]) {
        assert k in Elements(keys);
        var j :| 0 <= j < |keys| && keys[j] == k;
      }
      r := None;
    }

    /** Every object a rebuild meets is sound, and no record id occurs twice. */
    ghost predicate Rebuildable(store: SegmentStore, normalize: Bytes -> Option<Bytes>)
      reads deltas, snapshots
    {
      && AllReadable(store, AnyKey, normalize) && !RepeatsID(store, AnyKey)
      && AllAccepted(deltas.objects) && Undamaged(snapshots.objects)
    }

    /** Discard the view and fold whole segments again. */
    method Rebuild(store: Bucket<SegmentKey, Sealed<Segment>>, now: Time, normalize: Bytes -> Option<Bytes>) returns (r: Result<(), Failure>)
      requires deltas as object != snapshots as object && store as object != snapshots as object
      modifies this, snapshots
      ensures r.Ok? ==> loaded && applied == DeltaKeys(store.objects.Keys) + deltas.objects.Keys
      ensures r.Ok? ==> PublishedAt(now) && lastRefresh == now && deltasSinceSnapshot == 0
      ensures r.Ok? ==> AllReadable(store.objects, AnyKey, normalize) && !RepeatsID(store.objects, AnyKey)
      ensures store.reliable && deltas.reliable && snapshots.reliable && old(Rebuildable(store.objects, normalize)) ==> r.Ok?
      ensures r.Ok? && GenuineDeltas(deltas.objects, store.objects) ==> Faithful(values, applied, store.objects)
      ensures (Faithful(old(values), old(applied), store.objects)
               && GenuineDeltas(deltas.objects, store.objects) && GenuineSnapshots(old(snapshots.objects), store.objects))
              ==> Faithful(values, applied, store.objects) && GenuineSnapshots(snapshots.objects, store.objects)
      ensures r == Err(DuplicateRecord) ==> values == old(values) && applied == old(applied) && loaded == old(loaded)
      ensures r == Err(DuplicateRecord) ==> snapshots.objects == old(snapshots.objects) && RepeatsID(store.objects, AnyKey)
    {
      hide Readable, Listing, ListsNewest, Summarize, Restore, RecordLess, NoStraddling, InListingOrder, SumApplied, AcceptsDelta, AcceptsSnapshot, Sorted, AllReadable, RepeatsID, Undamaged, Table, Concat, Faithful, GenuineDeltas, GenuineSnapshots;
      var listing := ListRecords(store, AnyKey, normalize);
      if listing.Err? { return Err(listing.error); }
      var (records, keys) := listing.value;
      assert Elements(keys) == store.objects.Keys;
      var rows := AggregateConversations(records, -1);
      values := AggregatesFromConversations(rows);
      applied := DeltaKeys(Elements(keys));
      loaded, lastRefresh, deltasSinceSnapshot := true, ZERO_TIME, 0;
      ScanIsFaithful(store.objects, records, keys);
      r := RefreshAndPublish(now, store.objects);
    }

    /** Every projection object is sound, and there is something to load from, if only nothing. */
    ghost predicate Serviceable()
      reads this, deltas, snapshots
    {
      && AllAccepted(deltas.objects) && Undamaged(snapshots.objects)
      && (!loaded && snapshots.objects != map[] ==> exists k :: k in snapshots.objects && AcceptsSnapshot(snapshots.objects[k]))
    }

    /** How many deltas a loaded view will have folded since its last snapshot once it is up to date. */
    ghost function Backlog(now: Time): int
      reads this, deltas
    {
      deltasSinceSnapshot + if now - lastRefresh >= REFRESH_INTERVAL then |deltas.objects.Keys - applied| else 0
    }

    /** Serve the listing, loading or refreshing first when due, and publishing a snapshot when enough has
        been folded since the last one. What is shown is newest first. */
    method Conversations(limit: int, now: Time, ghost segments: SegmentStore) returns (r: Result<seq<Conversation>, Failure>)
      requires deltas as object != snapshots as object
      modifies this, snapshots
      ensures (Faithful(old(values), old(applied), segments)
               && GenuineDeltas(deltas.objects, segments) && GenuineSnapshots(old(snapshots.objects), segments))
              ==> && Faithful(values, applied, segments) && GenuineSnapshots(snapshots.objects, segments)
                  && (r.Ok? ==> r.value == Listing(SumApplied(segments, applied), limit))
      ensures r.Ok? ==> loaded && r.value == Listing(values, limit) && ListsNewest(values, r.value, limit)
      ensures r.Ok? && (!old(loaded) || now - old(lastRefresh) >= REFRESH_INTERVAL) ==> deltas.objects.Keys <= applied && lastRefresh == now
      ensures r.Ok? ==> deltasSinceSnapshot < SNAPSHOT_THRESHOLD
      ensures r.Ok? && old(loaded) && old(Backlog(now)) >= SNAPSHOT_THRESHOLD ==> PublishedAt(now)
      ensures old(loaded) && now - old(lastRefresh) < REFRESH_INTERVAL ==>
                values == old(values) && applied == old(applied) && lastRefresh == old(lastRefresh) && (r.Err? ==> r.error == WriteFailed)
      ensures old(loaded) && old(Backlog(now)) < SNAPSHOT_THRESHOLD ==> snapshots.objects == old(snapshots.objects)
      ensures old(loaded) && now - old(lastRefresh) < REFRESH_INTERVAL && old(Backlog(now)) < SNAPSHOT_THRESHOLD ==> r.Ok?
      ensures r.Err? ==> r.error == ReadFailed || r.error == WriteFailed
      ensures deltas.reliable && snapshots.reliable && old(Serviceable()) ==> r.Ok?
    {
      hide ListsNewest, Listing, NewestAccepted, Table, Restore, AcceptsDelta, AcceptsSnapshot, GenuineDeltas, GenuineSnapshots, Faithful, Undamaged;
      if !loaded {
        var ready := Load(now, segments);
        if ready.Err? { return Err(ReadFailed); }
      } else if now - lastRefresh >= REFRESH_INTERVAL {
        var ready := Refresh(now, segments);
        if ready.Err? { return Err(ReadFailed); }
      }
      if deltasSinceSnapshot >= SNAPSHOT_THRESHOLD {
        var written := Publish(now, segments);
        if written.Err? { return Err(WriteFailed); }
      }
      var rows := Listed(limit);
      if Faithful(values, applied, segments) { FaithfulSum(values, applied, segments); }
      r := Ok(rows);
    }

    /** A snapshot of the view, which is as faithful as the view. */
    method Publish(now: Time, ghost segments: SegmentStore) returns (r: Result<(), Failure>)
      modifies this`deltasSinceSnapshot, snapshots
      ensures r.Ok? ==> deltasSinceSnapshot == 0 && PublishedAt(now)
      ensures r.Err? ==> r.error == WriteFailed && deltasSinceSnapshot == old(deltasSinceSnapshot)
      ensures Undamaged(old(snapshots.objects)) ==> Undamaged(snapshots.objects) && (snapshots.reliable ==> r.Ok?)
      ensures Faithful(values, applied, segments) && GenuineSnapshots(old(snapshots.objects), segments) ==> GenuineSnapshots(snapshots.objects, segments)
    {
      hide Faithful, GenuineSnapshots, Table;
      ghost var before := snapshots.objects;
      r := WriteSnapshot(now);
      if GenuineSnapshots(before, segments) && Faithful(values, applied, segments) {
        PublishingIsGenuine(before, snapshots.objects, values, applied, now, segments);
      }
    }
  }

  lemma FaithfulSum(values: Summary, applied: set<DeltaKey>, segments: SegmentStore)
    requires Faithful(values, applied, segments)
    ensures Covers(segments, applied) && values == SumApplied(segments, applied)
  {
  }

  /** A snapshot of a faithful view is itself faithful once read back. */
  lemma PublishingIsGenuine(before: map<SnapshotKey, Stored<Snapshot>>, after: map<SnapshotKey, Stored<Snapshot>>,
                            values: Summary, applied: set<DeltaKey>, now: Time, segments: SegmentStore)
    requires GenuineSnapshots(before, segments) && Faithful(values, applied, segments)
    requires var s := Snapshot(now, Table(values), applied);
             exists outcome :: Put(before, SnapshotKey(|applied|, now, s), Plain(Seal(s)), outcome, after)
    ensures GenuineSnapshots(after, segments)
  {
    RestoreTable(values);
    hide Restore, Table, Faithful;
  }

  /** Folding every record of a listing, publishing the rows and reading them back gives the sum
      over the listed segments. */
  lemma ScanIsFaithful(segments: SegmentStore, records: seq<Record>, keys: seq<SegmentKey>)
    requires NoDuplicates(keys) && forall k | k in keys :: k in segments
    requires multiset(records) == multiset(Concat(segments, keys))
    ensures Faithful(Restore(Listing(Summarize(records), -1)), DeltaKeys(Elements(keys)), segments)
  {
    RestoreTable(Summarize(records));
    SumOfListing(segments, keys);
    SummarizePermutation(records, Concat(segments, keys));
  }

  // ----- Listing authoritative records -----

  ghost predicate AllReadable(store: SegmentStore, prefix: SegmentKey -> bool, normalize: Bytes -> Option<Bytes>) {
    forall k | k in store && prefix(k) :: Readable(k, store[k], normalize)
  }

  predicate AnyKey(k: SegmentKey) {
    true
  }

  /** The i-th record of the segment under k, if there is one. */
  predicate RecordAt(store: SegmentStore, prefix: SegmentKey -> bool, k: SegmentKey, i: nat, id: string) {
    k in store && prefix(k) && i < |store[k].value.entries| && store[k].value.entries[i].record.value.id == id
  }

  /** Two records of the segments have one id. */
  ghost predicate RepeatsID(store: SegmentStore, prefix: SegmentKey -> bool) {
    exists k, i: nat, l, j: nat, id :: (k != l || i != j) && RecordAt(store, prefix, k, i, id) && RecordAt(store, prefix, l, j, id)
  }

  /** Where the i-th record of the n-th segment of a listing comes. */
  lemma {:induction false} ConcatHas(store: SegmentStore, keys: seq<SegmentKey>, n: nat, i: nat) returns (p: nat)
    requires (forall k | k in keys :: k in store) && n < |keys| && i < |store[keys[n]].value.entries|
    ensures p < |Concat(store, keys)| && Concat(store, keys)[p] == store[keys[n]].value.entries[i].record.value
    ensures |Concat(store, keys[..n])| <= p < |Concat(store, keys[..n + 1])| && p == |Concat(store, keys[..n])| + i
  {
    hide RecordsOf;
    var last := |keys| - 1;
    assert keys[..n + 1][..n] == keys[..n] && keys[..n + 1][n] == keys[n];
    assert |RecordsOf(store[keys[n]].value)| == |store[keys[n]].value.entries|;
    if n == last {
      assert keys[..n + 1] == keys;
      p := |Concat(store, keys[..n])| + i;
    } else {
      p := ConcatHas(store, keys[..last], n, i);
      assert keys[..last][..n] == keys[..n] && keys[..last][..n + 1] == keys[..n + 1];
    }
  }

  lemma {:induction false} ConcatGrows(store: SegmentStore, keys: seq<SegmentKey>, m: nat, n: nat)
    requires (forall k | k in keys :: k in store) && m <= n <= |keys|
    ensures |Concat(store, keys[..m])| <= |Concat(store, keys[..n])|
    decreases n
  {
    if m < n {
      assert keys[..n][..n - 1] == keys[..n - 1];
      ConcatGrows(store, keys, m, n - 1);
    }
  }

  /** Every record of a listing is one of some segment. */
  lemma {:induction false} ConcatFrom(store: SegmentStore, keys: seq<SegmentKey>, p: nat) returns (n: nat, i: nat)
    requires (forall k | k in keys :: k in store) && p < |Concat(store, keys)|
    ensures n < |keys| && i < |store[keys[n]].value.entries| && Concat(store, keys)[p] == store[keys[n]].value.entries[i].record.value
    ensures p == |Concat(store, keys[..n])| + i
  {
    hide RecordsOf;
    var last := |keys| - 1;
    if p < |Concat(store, keys[..last])| {
      n, i := ConcatFrom(store, keys[..last], p);
      assert keys[..last][..n] == keys[..n];
    } else {
      n, i := last, p - |Concat(store, keys[..last])|;
      assert |RecordsOf(store[keys[n]].value)| == |store[keys[n]].value.entries|;
    }
  }

  /** A listing repeats an id exactly when the segments do. */
  lemma RepeatsInListing(store: SegmentStore, prefix: SegmentKey -> bool, keys: seq<SegmentKey>)
    requires NoDuplicates(keys) && Elements(keys) == (set k | k in store && prefix(k)) && forall k | k in keys :: k in store
    ensures (exists a, b :: 0 <= a < b < |Concat(store, keys)| && Concat(store, keys)[a].id == Concat(store, keys)[b].id) <==> RepeatsID(store, prefix)
  {
    hide Concat;
    var records := Concat(store, keys);
    if a, b :| 0 <= a < b < |records| && records[a].id == records[b].id { ListedTwice(store, prefix, keys, a, b); }
    if k, i: nat, l, j: nat, id :| (k != l || i != j) && RecordAt(store, prefix, k, i, id) && RecordAt(store, prefix, l, j, id) {
      StoredTwice(store, prefix, keys, k, i, l, j, id);
    }
  }

  lemma ListedTwice(store: SegmentStore, prefix: SegmentKey -> bool, keys: seq<SegmentKey>, a: nat, b: nat)
    requires NoDuplicates(keys) && Elements(keys) == (set k | k in store && prefix(k)) && forall k | k in keys :: k in store
    requires a < b < |Concat(store, keys)| && Concat(store, keys)[a].id == Concat(store, keys)[b].id
    ensures RepeatsID(store, prefix)
  {
    hide Concat;
    var id := Concat(store, keys)[a].id;
    var n, i := ConcatFrom(store, keys, a);
    var m, j := ConcatFrom(store, keys, b);
    assert keys[n] in Elements(keys) && keys[m] in Elements(keys);
    assert RecordAt(store, prefix, keys[n], i, id) && RecordAt(store, prefix, keys[m], j, id);
  }

  lemma StoredTwice(store: SegmentStore, prefix: SegmentKey -> bool, keys: seq<SegmentKey>,
                    k: SegmentKey, i: nat, l: SegmentKey, j: nat, id: string)
    requires Elements(keys) == (set k | k in store && prefix(k)) && forall k | k in keys :: k in store
    requires (k != l || i != j) && RecordAt(store, prefix, k, i, id) && RecordAt(store, prefix, l, j, id)
    ensures exists a, b :: 0 <= a < b < |Concat(store, keys)| && Concat(store, keys)[a].id == Concat(store, keys)[b].id
  {
    hide Concat;
    assert k in Elements(keys) && l in Elements(keys);
    var n :| 0 <= n < |keys| && keys[n] == k;
    var m :| 0 <= m < |keys| && keys[m] == l;
    var p := ConcatHas(store, keys, n, i);
    var r := ConcatHas(store, keys, m, j);
    if n < m { ConcatGrows(store, keys, n + 1, m); }
    if m < n { ConcatGrows(store, keys, m + 1, n); }
    var first, second := if p < r then p else r, if p < r then r else p;
    assert 0 <= first < second && Concat(store, keys)[first].id == Concat(store, keys)[second].id;
  }

  /** Read every segment, refuse record ids that occur twice, and sort. */
  method ListRecords(store: Bucket<SegmentKey, Sealed<Segment>>, prefix: SegmentKey -> bool, normalize: Bytes -> Option<Bytes>)
    returns (r: Result<(seq<Record>, seq<SegmentKey>), Failure>)
    ensures r.Ok? ==>
      && NoDuplicates(r.value.1) && Elements(r.value.1) == (set k | k in store.objects && prefix(k))
      && (forall k | k in r.value.1 :: k in store.objects)
      && (forall k | k in r.value.1 :: Readable(k, store.objects[k], normalize))
      && multiset(r.value.0) == multiset(Concat(store.objects, r.value.1))
      && (forall i, j | 0 <= i < j < |r.value.0| :: r.value.0[i].id != r.value.0[j].id)
      && (NoStraddling(Elements(r.value.0)) ==> Sorted(RecordLess, r.value.0) && InListingOrder(r.value.0))
    ensures r.Err? ==> r.error == ReadFailed || r.error == DuplicateRecord
    ensures r.Ok? ==> AllReadable(store.objects, prefix, normalize) && !RepeatsID(store.objects, prefix)
    ensures r == Err(DuplicateRecord) ==> RepeatsID(store.objects, prefix)
    ensures store.reliable && AllReadable(store.objects, prefix, normalize) ==> r != Err(ReadFailed)
  {
    hide Readable, RecordsOf, RepeatsID, RecordLess, NoStraddling;
    var listing := store.List(prefix);
    if listing.Err? { return Err(ReadFailed); }
    var keys := listing.value;
    var records: seq<Record> := [];
    for i := 0 to |keys|
      invariant forall j | 0 <= j < i :: Readable(keys[j], store.objects[keys[j]], normalize)
      invariant forall k | k in keys[..i] :: k in store.objects
      invariant records == Concat(store.objects, keys[..i])
    {
      assert keys[i] in Elements(keys);
      var stored := store.Get(keys[i]);
      if stored.Err? || !Readable(keys[i], stored.value, normalize) { return Err(ReadFailed); }
      assert keys[..i + 1][..i] == keys[..i] && keys[..i + 1][i] == keys[i];
      records := records + RecordsOf(stored.value.value);
    }
    assert keys[..|keys|] == keys;
    forall k | k in store.objects && prefix(k) ensures Readable(k, store.objects[k], normalize) {
      assert k in Elements(keys);
      var j :| 0 <= j < |keys| && keys[j] == k;
    }
    RepeatsInListing(store.objects, prefix, keys);
    var seen: set<string> := {};
    for i := 0 to |records|
      invariant seen == set j | 0 <= j < i :: records[j].id
      invariant forall j, k | 0 <= j < k < i :: records[j].id != records[k].id
    {
      if records[i].id in seen { return Err(DuplicateRecord); }
      seen := seen + {records[i].id};
    }
    var sorted := SortBy(records, RecordLess);
    ListedOnce(records, sorted);
    if NoStraddling(Elements(sorted)) { SortedIsInListingOrder(sorted); }
    r := Ok((sorted, keys));
  }

  lemma ListedOnce(records: seq<Record>, sorted: seq<Record>)
    requires forall j, k | 0 <= j < k < |records| :: records[j].id != records[k].id
    requires sorted == SortBy(records, RecordLess)
    ensures forall j, k | 0 <= j < k < |sorted| :: sorted[j].id != sorted[k].id
    ensures NoStraddling(Elements(sorted)) ==> Sorted(RecordLess, sorted)
  {
    MultisetElements(sorted, records);
    DistinctUnderPermutation(records, sorted);
    if NoStraddling(Elements(sorted)) {
      RecordOrderTotalIff(Elements(sorted));
      SortBySorted(records, RecordLess);
    }
  }

  lemma DistinctUnderPermutation(a: seq<Record>, b: seq<Record>)
    requires multiset(a) == multiset(b)
    requires forall j, k | 0 <= j < k < |a| :: a[j].id != a[k].id
    ensures forall j, k | 0 <= j < k < |b| :: b[j].id != b[k].id
  {
    forall j, k | 0 <= j < k < |b| ensures b[j].id != b[k].id {
      if b[j].id == b[k].id {
        MultisetElements(a, b);
        assert b[j] in Elements(b) && b[k] in Elements(b);
        var i :| 0 <= i < |a| && a[i] == b[j];
        assert b[k] == b[j];
        assert multiset(a)[b[j]] == 1 by { OccursOnce(a, i); }
        OccursTwice(b, j, k);
      }
    }
  }

  lemma OccursOnce(a: seq<Record>, i: nat)
    requires i < |a| && forall j | 0 <= j < |a| && j != i :: a[j] != a[i]
    ensures multiset(a)[a[i]] == 1
  {
    assert a == a[..i] + [a[i]] + a[i+1..];
    assert a[i] !in a[..i] && a[i] !in a[i+1..];
  }

  lemma OccursTwice(b: seq<Record>, j: nat, k: nat)
    requires j < k < |b| && b[j] == b[k]
    ensures multiset(b)[b[j]] >= 2
  {
    assert b == b[..j] + [b[j]] + b[j+1..k] + [b[k]] + b[k+1..];
  }
}
