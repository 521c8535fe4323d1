/** Keeping the search index in step with the store: refreshes and observed writes, interleaved at
    the granularity of the index lock (history/search.go). */
module SearchSync {
  import opened Basics
  import opened Sorting
  import opened Records
  import opened SearchIndex
  import opened SearchScan
  import opened SearchReorder

  /** A segment read from the store, with the text of its records. */
  datatype Loaded = Loaded(key: string, digest: string, documents: seq<Document>)

  /** What every stored segment reads as. Segments and blobs are immutable, so this is fixed. */
  type Corpus = string -> Loaded

  ghost predicate Lawful(corpus: Corpus) {
    forall k :: corpus(k).key == k && corpus(k).documents != [] && forall d | d in corpus(k).documents :: d.sourceKey == k
  }

  /** The indexed documents and the segments they came from. */
  datatype Contents = Contents(sources: map<string, string>, documents: seq<Document>)

  const EMPTY := Contents(map[], [])

  /** One source more; nothing checks whether it is there already. */
  function Add(c: Contents, source: Loaded): Contents {
    Contents(c.sources[source.key := source.digest], c.documents + source.documents)
  }

  function AddAll(c: Contents, sources: seq<Loaded>): Contents {
    if sources == [] then c else Add(AddAll(c, sources[..|sources| - 1]), sources[|sources| - 1])
  }

  /** An observed write is added unless its source is known. */
  function Observe(c: Contents, source: Loaded): Contents {
    if source.key in c.sources then c else Add(c, source)
  }

  function ReadAll(corpus: Corpus, keys: seq<string>): (r: seq<Loaded>)
    ensures |r| == |keys|
  {
    seq(|keys|, i requires 0 <= i < |keys| => corpus(keys[i]))
  }

  // ----- Each source present exactly once -----

  function From(documents: seq<Document>, k: string): seq<Document> {
    Filter(documents, (d: Document) => d.sourceKey == k)
  }

  /** The documents of k are those of its segment, each once (a reinstalled cache may have put them
      in another order), if k is a source, and none otherwise. */
  ghost predicate OnceEach(corpus: Corpus, c: Contents, k: string) {
    && (k in c.sources ==> c.sources[k] == corpus(k).digest)
    && multiset(From(c.documents, k)) == if k in c.sources then multiset(corpus(k).documents) else multiset{}
  }

  ghost predicate Synced(corpus: Corpus, c: Contents) {
    forall k :: OnceEach(corpus, c, k)
  }

  lemma FromAdd(corpus: Corpus, c: Contents, source: string, k: string)
    requires Lawful(corpus)
    ensures From(Add(c, corpus(source)).documents, k) == From(c.documents, k) + if k == source then corpus(k).documents else []
  {
    var p := (d: Document) => d.sourceKey == k;
    FilterAppend(c.documents, corpus(source).documents, p);
    if k == source { FilterAll(corpus(k).documents, p); } else { FilterNone(corpus(source).documents, p); }
  }

  /** Adding a source keeps every source present exactly once if and only if it was not there. */
  lemma AddKeepsSyncedIff(corpus: Corpus, c: Contents, source: string)
    requires Lawful(corpus) && Synced(corpus, c)
    ensures Synced(corpus, Add(c, corpus(source))) <==> source !in c.sources
  {
    hide From, Lawful;
    var more := Add(c, corpus(source));
    assert corpus(source).key == source && corpus(source).documents != [] by { LawfulAt(corpus, source); }
    forall k ensures OnceEach(corpus, more, k) <==> (k == source ==> source !in c.sources) {
      assert OnceEach(corpus, c, k);
      FromAdd(corpus, c, source, k);
      if k == source && source in c.sources {
        assert |multiset(From(more.documents, k))| == |From(more.documents, k)| == |From(c.documents, k)| + |corpus(k).documents|;
        assert |multiset(From(c.documents, k))| == |multiset(corpus(k).documents)|;
      }
    }
    if source in c.sources { assert !OnceEach(corpus, more, source); }
  }

  lemma LawfulAt(corpus: Corpus, k: string)
    requires Lawful(corpus)
    ensures corpus(k).key == k && corpus(k).documents != []
  {
  }

  lemma {:induction false} AddAllSources(corpus: Corpus, c: Contents, keys: seq<string>)
    requires Lawful(corpus)
    ensures AddAll(c, ReadAll(corpus, keys)).sources.Keys == c.sources.Keys + Elements(keys)
  {
    if keys != [] {
      var front, last := keys[..|keys| - 1], keys[|keys| - 1];
      assert ReadAll(corpus, keys)[..|keys| - 1] == ReadAll(corpus, front);
      AddAllSources(corpus, c, front);
      assert keys == front + [last];
      LawfulAt(corpus, last);
    }
  }

  /** How often a refresh's commit puts each source in: once more for every time it was picked. */
  lemma {:induction false} AddAllCounts(corpus: Corpus, c: Contents, keys: seq<string>, k: string)
    requires Lawful(corpus)
    ensures |From(AddAll(c, ReadAll(corpus, keys)).documents, k)| == |From(c.documents, k)| + multiset(keys)[k] * |corpus(k).documents|
  {
    hide From, Lawful;
    if keys != [] {
      var front, last := keys[..|keys| - 1], keys[|keys| - 1];
      AddAllLast(corpus, c, keys);
      hide AddAll, ReadAll, Add;
      AddAllCounts(corpus, c, front, k);
      FromAdd(corpus, AddAll(c, ReadAll(corpus, front)), last, k);
      assert keys == front + [last];
      OnceMore(multiset(front)[k], |corpus(k).documents|);
      assert multiset(keys)[k] == multiset(front)[k] + if k == last then 1 else 0;
    }
  }

  lemma AddAllLast(corpus: Corpus, c: Contents, keys: seq<string>)
    requires keys != []
    ensures AddAll(c, ReadAll(corpus, keys)) == Add(AddAll(c, ReadAll(corpus, keys[..|keys| - 1])), corpus(keys[|keys| - 1]))
  {
    assert ReadAll(corpus, keys)[..|keys| - 1] == ReadAll(corpus, keys[..|keys| - 1]);
  }

  lemma OnceMore(times: nat, size: nat)
    ensures (times + 1) * size == times * size + size
  {
  }

  lemma {:induction false} AddAllSynced(corpus: Corpus, c: Contents, keys: seq<string>)
    requires Lawful(corpus) && Synced(corpus, c)
    requires NoDuplicates(keys) && Elements(keys) !! c.sources.Keys
    ensures Synced(corpus, AddAll(c, ReadAll(corpus, keys)))
  {
    hide Lawful, Synced;
    if keys != [] {
      var front, last := keys[..|keys| - 1], keys[|keys| - 1];
      assert ReadAll(corpus, keys)[..|keys| - 1] == ReadAll(corpus, front);
      assert keys == front + [last];
      AddAllSynced(corpus, c, front);
      AddAllSources(corpus, c, front);
      assert last !in front;
      AddKeepsSyncedIff(corpus, AddAll(c, ReadAll(corpus, front)), last);
    }
  }

  /** A source picked although it is present ends up in the index more than once. */
  lemma CommitDoubles(corpus: Corpus, c: Contents, missing: seq<string>, k: string)
    requires Lawful(corpus) && OnceEach(corpus, c, k) && k in missing && k in c.sources
    ensures !OnceEach(corpus, AddAll(c, ReadAll(corpus, missing)), k)
  {
    hide From, Lawful, AddAll, ReadAll;
    AddAllCounts(corpus, c, missing, k);
    LawfulAt(corpus, k);
    Grown(|From(c.documents, k)|, multiset(missing)[k], |corpus(k).documents|);
    AddAllSources(corpus, c, missing);
    var after := AddAll(c, ReadAll(corpus, missing));
    assert |multiset(From(after.documents, k))| == |From(after.documents, k)|;
    assert |multiset(From(c.documents, k))| == |From(c.documents, k)|;
  }

  /** A refresh's commit, which does not re-check what it picked, keeps every source present
      exactly once if and only if none of the picked sources has been added since. */
  lemma CommitKeepsSyncedIff(corpus: Corpus, c: Contents, missing: seq<string>)
    requires Lawful(corpus) && Synced(corpus, c) && NoDuplicates(missing)
    ensures Synced(corpus, AddAll(c, ReadAll(corpus, missing))) <==> Elements(missing) !! c.sources.Keys
  {
    hide From, Lawful, OnceEach, AddAll, ReadAll;
    if Elements(missing) !! c.sources.Keys {
      AddAllSynced(corpus, c, missing);
    } else {
      var k :| k in Elements(missing) && k in c.sources.Keys;
      CommitDoubles(corpus, c, missing, k);
    }
  }

  lemma Grown(base: nat, times: nat, size: nat)
    requires times >= 1 && size > 0
    ensures base + times * size > base
  {
  }

  lemma ObserveKeepsSynced(corpus: Corpus, c: Contents, source: string)
    requires Lawful(corpus) && Synced(corpus, c)
    ensures Synced(corpus, Observe(c, corpus(source)))
  {
    hide Synced;
    LawfulAt(corpus, source);
    AddKeepsSyncedIff(corpus, c, source);
  }

  // ----- What it gives a search -----

  lemma FilterRemoveAt<T>(s: seq<T>, i: nat, p: T -> bool)
    requires i < |s|
    ensures multiset(Filter(s, p)) == multiset(Filter(RemoveAt(s, i), p)) + (if p(s[i]) then multiset{s[i]} else multiset{})
  {
    SplitAt(s, i);
    hide *;
    FilterMiddle(s[..i], s[i], s[i + 1..], p);
  }

  lemma SplitAt<T>(s: seq<T>, i: nat)
    requires i < |s|
    ensures s == s[..i] + ([s[i]] + s[i + 1..]) && RemoveAt(s, i) == s[..i] + s[i + 1..]
  {
  }

  lemma FilterMiddle<T>(a: seq<T>, x: T, c: seq<T>, p: T -> bool)
    ensures multiset(Filter(a + ([x] + c), p)) == multiset(Filter(a + c, p)) + (if p(x) then multiset{x} else multiset{})
  {
    assert Filter([x], p) == if p(x) then [x] else [];
    hide Filter;
    FilterAppend(a, [x] + c, p);
    FilterAppend([x], c, p);
    FilterAppend(a, c, p);
    MultisetMiddle(Filter(a, p), Filter([x], p), Filter(c, p));
  }

  lemma MultisetMiddle<T>(a: seq<T>, b: seq<T>, c: seq<T>)
    ensures multiset(a + (b + c)) == multiset(a + c) + multiset(b)
  {
  }

  lemma FromCons(documents: seq<Document>, k: string)
    requires documents != []
    ensures From(documents, k) == (if k == documents[0].sourceKey then [documents[0]] else []) + From(documents[1..], k)
  {
  }

  lemma {:induction false} FilterOrderFree<T>(a: seq<T>, b: seq<T>, p: T -> bool)
    requires multiset(a) == multiset(b)
    ensures multiset(Filter(a, p)) == multiset(Filter(b, p))
  {
    MultisetElements(a, b);
    if a != [] {
      var i := FindFirst(a, b);
      hide RemoveAt;
      FilterOrderFree(a[1..], RemoveAt(b, i), p);
      FilterRemoveAt(b, i, p);
    }
  }

  /** Reordering the documents, as writing a cache does, loses nothing. */
  lemma ReorderedSynced(corpus: Corpus, c: Contents, documents: seq<Document>)
    requires Synced(corpus, c) && multiset(documents) == multiset(c.documents)
    ensures Synced(corpus, c.(documents := documents))
  {
    forall k ensures OnceEach(corpus, c.(documents := documents), k) {
      assert OnceEach(corpus, c, k);
      FilterOrderFree(documents, c.documents, (d: Document) => d.sourceKey == k);
    }
  }

  /** No record id occurs twice in the store, within a segment or across segments. */
  ghost predicate UniqueInStore(corpus: Corpus, sources: set<string>) {
    && (forall k | k in sources :: DistinctDocuments(corpus(k).documents))
    && forall j, k, x, y | j in sources && k in sources && j != k && x in corpus(j).documents && y in corpus(k).documents ::
         x.record.id != y.record.id
  }

  ghost predicate ApartAcross(documents: seq<Document>) {
    forall i, j | 0 <= i < j < |documents| && documents[i].sourceKey != documents[j].sourceKey ::
      documents[i].record.id != documents[j].record.id
  }

  lemma DistinctSplit(first: Document, rest: seq<Document>)
    requires DistinctDocuments([first] + rest)
    ensures DistinctDocuments(rest) && forall x | x in rest :: x.record.id != first.record.id
  {
    var all := [first] + rest;
    forall m | 0 <= m < |rest| ensures rest[m] == all[m + 1] && rest[m].record.id != all[0].record.id {}
    forall m, n | 0 <= m < n < |rest| ensures rest[m].record.id != rest[n].record.id {
      assert all[m + 1].record.id != all[n + 1].record.id;
    }
  }

  lemma {:induction false} DistinctBySource(documents: seq<Document>)
    requires ApartAcross(documents) && forall k :: DistinctDocuments(From(documents, k))
    ensures DistinctDocuments(documents)
  {
    if documents != [] {
      hide DistinctDocuments;
      var rest, k := documents[1..], documents[0].sourceKey;
      forall j ensures DistinctDocuments(From(rest, j)) && From(documents, j) == (if j == k then [documents[0]] else []) + From(rest, j) {
        assert DistinctDocuments(From(documents, j));
        FromCons(documents, j);
        assert [] + From(rest, j) == From(rest, j);
        if j == k { DistinctSplit(documents[0], From(rest, j)); }
      }
      DistinctBySource(rest);
      DistinctSplit(documents[0], From(rest, k));
      forall n | 0 < n < |documents| ensures documents[n].record.id != documents[0].record.id {
        assert rest[n - 1] == documents[n];
        if documents[n].sourceKey == k { assert rest[n - 1] in From(rest, k); }
      }
      DistinctJoin(documents);
    }
  }

  lemma DistinctJoin(documents: seq<Document>)
    requires documents != [] && DistinctDocuments(documents[1..])
    requires forall n | 0 < n < |documents| :: documents[n].record.id != documents[0].record.id
    ensures DistinctDocuments(documents)
  {
    forall m, n | 0 < m < n < |documents| ensures documents[m].record.id != documents[n].record.id {
      assert documents[1..][m - 1].record.id != documents[1..][n - 1].record.id;
    }
  }

  /** An index with every source present once holds each record once, so its answers are those of
      a scan over the store. */
  lemma SyncedDistinct(corpus: Corpus, c: Contents)
    requires Lawful(corpus) && Synced(corpus, c) && UniqueInStore(corpus, c.sources.Keys)
    ensures DistinctDocuments(c.documents)
  {
    hide DistinctDocuments, From;
    forall k ensures DistinctDocuments(From(c.documents, k)) {
      assert OnceEach(corpus, c, k);
      if k in c.sources {
        DistinctOrderFree(corpus(k).documents, From(c.documents, k));
      } else {
        MultisetElements([], From(c.documents, k));
        NothingDistinct();
      }
    }
    forall i | 0 <= i < |c.documents|
      ensures c.documents[i].sourceKey in c.sources && c.documents[i] in corpus(c.documents[i].sourceKey).documents
    {
      FromMember(corpus, c, i);
    }
    DistinctBySource(c.documents);
  }

  lemma NothingDistinct()
    ensures DistinctDocuments([])
  {
  }

  lemma FromMember(corpus: Corpus, c: Contents, i: nat)
    requires Synced(corpus, c) && i < |c.documents|
    ensures c.documents[i].sourceKey in c.sources && c.documents[i] in corpus(c.documents[i].sourceKey).documents
  {
    var d := c.documents[i];
    assert OnceEach(corpus, c, d.sourceKey);
    assert d in From(c.documents, d.sourceKey);
    assert d in multiset(From(c.documents, d.sourceKey));
  }

  /** The documents of some segments, read one after the other. */
  ghost function ReadOut(corpus: Corpus, keys: seq<string>): seq<Document> {
    if keys == [] then [] else ReadOut(corpus, keys[..|keys| - 1]) + corpus(keys[|keys| - 1]).documents
  }

  function FromAny(documents: seq<Document>, keys: set<string>): seq<Document> {
    Filter(documents, (d: Document) => d.sourceKey in keys)
  }

  lemma {:induction false} ReadOutIsFromAny(corpus: Corpus, c: Contents, keys: seq<string>)
    requires Synced(corpus, c) && NoDuplicates(keys) && Elements(keys) <= c.sources.Keys
    ensures multiset(ReadOut(corpus, keys)) == multiset(FromAny(c.documents, Elements(keys)))
  {
    hide Synced;
    if keys == [] {
      FilterNone(c.documents, (d: Document) => d.sourceKey in Elements(keys));
    } else {
      var front, k := keys[..|keys| - 1], keys[|keys| - 1];
      assert keys == front + [k];
      var all, some := Elements(keys), Elements(front);
      assert all == some + {k} && k !in some;
      ReadOutIsFromAny(corpus, c, front);
      SyncedAt(corpus, c, k);
      FilterDisjoint(c.documents, (d: Document) => d.sourceKey in some, (d: Document) => d.sourceKey == k, (d: Document) => d.sourceKey in all);
    }
  }

  lemma SyncedAt(corpus: Corpus, c: Contents, k: string)
    requires Synced(corpus, c)
    ensures OnceEach(corpus, c, k)
  {
  }

  /** Searching an index with every source present once is scanning its segments, read in any order. */
  lemma SearchIsScan(corpus: Corpus, c: Contents, keys: seq<string>, e: Engine, q: SearchQuery)
    requires Lawful(corpus) && Synced(corpus, c) && UniqueInStore(corpus, c.sources.Keys)
    requires NoDuplicates(keys) && Elements(keys) == c.sources.Keys
    ensures DistinctDocuments(c.documents)
    ensures Scan(e, q, c.documents) == Scan(e, q, ReadOut(corpus, keys))
  {
    hide Scan, DistinctDocuments, UniqueInStore;
    SyncedDistinct(corpus, c);
    ReadOutIsFromAny(corpus, c, keys);
    forall i | 0 <= i < |c.documents| ensures c.documents[i].sourceKey in Elements(keys) { FromMember(corpus, c, i); }
    var all := Elements(keys);
    assert FromAny(c.documents, all) == c.documents by { FilterAll(c.documents, (d: Document) => d.sourceKey in all); }
    ScanOrderFree(e, q, c.documents, ReadOut(corpus, keys));
  }

  // ----- The refresh protocol -----

  /** A refresh between its critical sections: after the LIST it has picked what is missing, or
      found that a source was removed and must still clear the index. */
  datatype Refresh =
    | Idle
    | Picked(missing: seq<string>, listed: seq<string>)
    | MustClear(listed: seq<string>)

  /** The process's index, and the cache file that outlives the process. A cache is taken from the index
      under the lock and written to the file afterwards. */
  datatype State = State(loaded: bool, contents: Contents, refresh: Refresh, taken: Option<Contents>, cache: Option<Contents>)

  const START := State(false, EMPTY, Idle, None, None)

  datatype Step =
    | Open
    | Install
    | TakeCache(documents: seq<Document>)
    | StoreCache
    | DropCache
    | LoseCache
    | Restart
    | Pick(listed: seq<string>)
    | Clear
    | Commit
    | GiveUp
    | ObserveWrite(source: string)
    | StartRebuild

  function Missing(c: Contents, listed: seq<string>): seq<string> {
    Filter(listed, (k: string) => k !in c.sources)
  }

  /** Some indexed source is no longer listed. */
  predicate Removed(c: Contents, listed: seq<string>) {
    exists k :: k in c.sources && k !in listed
  }

  ghost predicate Enabled(corpus: Corpus, s: State, step: Step) {
    match step
    case Open => !s.loaded && s.refresh.Idle?
    case Install => !s.loaded && s.refresh.Idle? && s.cache.Some?
    case TakeCache(documents) => s.loaded && s.taken.None? && multiset(documents) == multiset(s.contents.documents)
    case StoreCache => s.taken.Some?
    case DropCache => s.taken.Some?
    case LoseCache => true
    case Restart => true
    case Pick(listed) => s.loaded && s.refresh.Idle? && NoDuplicates(listed)
    case Clear => s.refresh.MustClear?
    case Commit => s.refresh.Picked?
    case GiveUp => s.refresh.Picked?
    case ObserveWrite(_) => s.loaded
    case StartRebuild => s.refresh.Idle?
  }

  function After(corpus: Corpus, s: State, step: Step): State {
    match step
    case Open => s.(loaded := true, contents := EMPTY)
    case Install => if s.cache.Some? then s.(loaded := true, contents := s.cache.value) else s
    case TakeCache(documents) => s.(taken := Some(s.contents.(documents := documents)))
    case StoreCache => s.(cache := s.taken, taken := None)
    case DropCache => s.(taken := None)
    case LoseCache => s.(cache := None)
    case Restart => START.(cache := s.cache)
    case Pick(listed) =>
      s.(refresh := if Removed(s.contents, listed) then MustClear(listed) else Picked(Missing(s.contents, listed), listed))
    case Clear => if s.refresh.MustClear? then s.(contents := EMPTY, refresh := Picked(s.refresh.listed, s.refresh.listed)) else s
    case Commit =>
      if s.refresh.Picked? then s.(contents := AddAll(s.contents, ReadAll(corpus, s.refresh.missing)), refresh := Idle) else s
    case GiveUp => s.(refresh := Idle)
    case ObserveWrite(source) => s.(contents := Observe(s.contents, corpus(source)))
    case StartRebuild => s.(loaded := true, contents := EMPTY)
  }

  /** A write is observed inside a refresh that has already picked the same source. */
  predicate Interleaves(s: State, step: Step) {
    step.ObserveWrite? && s.refresh.Picked? && step.source in s.refresh.missing
  }

  ghost predicate Run(corpus: Corpus, states: seq<State>, steps: seq<Step>) {
    && |states| == |steps| + 1 && states[0] == START
    && forall i | 0 <= i < |steps| :: Enabled(corpus, states[i], steps[i]) && states[i + 1] == After(corpus, states[i], steps[i])
  }

  ghost predicate Clean(states: seq<State>, steps: seq<Step>) {
    forall i | 0 <= i < |steps| && i < |states| :: !Interleaves(states[i], steps[i])
  }

  /** Every source once, in the index and in the cache; a pending pick still names only sources that are absent, and all those the
      LIST returned that are. */
  ghost predicate Good(corpus: Corpus, s: State) {
    && Synced(corpus, s.contents)
    && (s.taken.Some? ==> Synced(corpus, s.taken.value)) && (s.cache.Some? ==> Synced(corpus, s.cache.value))
    && (s.refresh.MustClear? ==> NoDuplicates(s.refresh.listed))
    && (s.refresh.Picked? ==>
          && NoDuplicates(s.refresh.missing) && Elements(s.refresh.missing) !! s.contents.sources.Keys
          && Elements(s.refresh.listed) <= Elements(s.refresh.missing) + s.contents.sources.Keys)
  }

  lemma {:induction false} FilterNoDuplicates<T>(s: seq<T>, p: T -> bool)
    requires NoDuplicates(s)
    ensures NoDuplicates(Filter(s, p))
  {
    if s != [] {
      FilterNoDuplicates(s[1..], p);
      assert s[0] !in s[1..];
    }
  }

  lemma EmptySynced(corpus: Corpus)
    ensures Synced(corpus, EMPTY)
  {
    forall k ensures OnceEach(corpus, EMPTY, k) { assert From([], k) == []; }
  }

  /** A step keeps a good state good if and only if it does not interleave. */
  lemma StepKeepsGoodIff(corpus: Corpus, s: State, step: Step)
    requires Lawful(corpus) && Good(corpus, s) && Enabled(corpus, s, step)
    ensures Good(corpus, After(corpus, s, step)) <==> !(Interleaves(s, step))
  {
    hide Synced, Lawful, OnceEach;
    EmptySynced(corpus);
    match step
    case TakeCache(documents) => ReorderedSynced(corpus, s.contents, documents);
    case Pick(listed) => FilterNoDuplicates(listed, (k: string) => k !in s.contents.sources);
    case Commit => AddAllSynced(corpus, s.contents, s.refresh.missing);
    case ObserveWrite(source) =>
      ObserveKeepsSynced(corpus, s.contents, source);
      LawfulAt(corpus, source);
      assert s.refresh.Picked? ==> (source in s.refresh.missing <==> source in Elements(s.refresh.missing));
    case _ =>
  }

  /** In every run without that interleaving each source's documents are present exactly once. */
  lemma {:induction false} CleanRunsStaySynced(corpus: Corpus, states: seq<State>, steps: seq<Step>, n: nat)
    requires Lawful(corpus) && Run(corpus, states, steps) && Clean(states, steps) && n <= |steps|
    ensures Good(corpus, states[n])
  {
    hide Good;
    if n == 0 {
      EmptySynced(corpus);
      assert Good(corpus, states[0]) by { GoodStart(corpus); }
    } else {
      CleanRunsStaySynced(corpus, states, steps, n - 1);
      StepKeepsGoodIff(corpus, states[n - 1], steps[n - 1]);
    }
  }

  lemma GoodStart(corpus: Corpus)
    ensures Good(corpus, START)
  {
    EmptySynced(corpus);
  }

  /** A refresh that commits has indexed every segment its LIST returned, each exactly once. */
  lemma CommitCovers(corpus: Corpus, s: State)
    requires Lawful(corpus) && Good(corpus, s) && Enabled(corpus, s, Commit)
    ensures Elements(s.refresh.listed) <= After(corpus, s, Commit).contents.sources.Keys
    ensures Synced(corpus, After(corpus, s, Commit).contents)
  {
    AddAllSources(corpus, s.contents, s.refresh.missing);
    AddAllSynced(corpus, s.contents, s.refresh.missing);
  }

  /** The failing interleaving: open, pick k, observe k, commit. The documents of k are then in the
      index twice. */
  lemma InterleavingDuplicates(corpus: Corpus, k: string) returns (states: seq<State>, steps: seq<Step>)
    requires Lawful(corpus)
    ensures Run(corpus, states, steps) && steps == [Open, Pick([k]), ObserveWrite(k), Commit]
    ensures states[4].contents.sources.Keys == {k} && states[4].contents.documents == corpus(k).documents + corpus(k).documents
    ensures !Synced(corpus, states[4].contents) && states[4] == START.(loaded := true, contents := states[4].contents)
  {
    LawfulAt(corpus, k);
    steps := [Open, Pick([k]), ObserveWrite(k), Commit];
    var s0 := START;
    var s1 := After(corpus, s0, Open);
    assert !Removed(EMPTY, [k]);
    assert Missing(EMPTY, [k]) == [k] by { FilterAll([k], (x: string) => x !in EMPTY.sources); }
    var s2 := After(corpus, s1, Pick([k]));
    var s3 := After(corpus, s2, ObserveWrite(k));
    assert [] + corpus(k).documents == corpus(k).documents;
    assert s3.contents == Contents(map[k := corpus(k).digest], corpus(k).documents);
    var s4 := After(corpus, s3, Commit);
    assert ReadAll(corpus, [k]) == [corpus(k)];
    assert AddAll(s3.contents, [corpus(k)]) == Add(s3.contents, corpus(k)) by {
      assert [corpus(k)][..0] == [];
    }
    states := [s0, s1, s2, s3, s4];
    assert Synced(corpus, s3.contents) by {
      EmptySynced(corpus);
      ObserveKeepsSynced(corpus, EMPTY, k);
    }
    AddKeepsSyncedIff(corpus, s3.contents, k);
  }

  lemma RunSnoc(corpus: Corpus, states: seq<State>, steps: seq<Step>, step: Step)
    requires Run(corpus, states, steps) && Enabled(corpus, states[|steps|], step)
    ensures Run(corpus, states + [After(corpus, states[|steps|], step)], steps + [step])
  {
    hide Enabled, After;
  }

  /** A restart does not help: the cache is taken from the index, so the new process starts with the
      documents of k twice, and its next refresh finds nothing missing. */
  lemma DuplicatesSurviveRestart(corpus: Corpus, k: string) returns (states: seq<State>, steps: seq<Step>)
    requires Lawful(corpus)
    ensures Run(corpus, states, steps) && |steps| == 9 && steps[6] == Restart && steps[7] == Install && steps[8] == Pick([k])
    ensures states[8].contents.documents == corpus(k).documents + corpus(k).documents && !Synced(corpus, states[8].contents)
    ensures states[9].contents == states[8].contents && states[9].refresh == Picked([], [k])
  {
    hide Synced, Lawful;
    var first, opening := InterleavingDuplicates(corpus, k);
    var c := first[4].contents;
    var s4 := first[4];
    var s5, s6 := s4.(taken := Some(c)), s4.(cache := Some(c));
    var s7, s8 := START.(cache := Some(c)), START.(loaded := true, contents := c, cache := Some(c));
    assert !Removed(c, [k]) && Missing(c, [k]) == [];
    var s9 := s8.(refresh := Picked([], [k]));
    RunLength(corpus, first, opening);
    hide Run;
    RunSnoc(corpus, first, opening, TakeCache(c.documents));
    RunSnoc(corpus, first + [s5], opening + [TakeCache(c.documents)], StoreCache);
    RunSnoc(corpus, first + [s5] + [s6], opening + [TakeCache(c.documents)] + [StoreCache], Restart);
    RunSnoc(corpus, first + [s5] + [s6] + [s7], opening + [TakeCache(c.documents)] + [StoreCache] + [Restart], Install);
    RunSnoc(corpus, first + [s5] + [s6] + [s7] + [s8], opening + [TakeCache(c.documents)] + [StoreCache] + [Restart] + [Install], Pick([k]));
    states := first + [s5] + [s6] + [s7] + [s8] + [s9];
    steps := opening + [TakeCache(c.documents)] + [StoreCache] + [Restart] + [Install] + [Pick([k])];
  }

  lemma RunLength(corpus: Corpus, states: seq<State>, steps: seq<Step>)
    requires Run(corpus, states, steps)
    ensures |states| == |steps| + 1
  {
  }
}
