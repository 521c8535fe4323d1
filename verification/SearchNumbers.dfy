/** Sequence numbers in the search index. A process that observes its own write indexes the record with the
    number it was given; one that reads the segment, or a cache file, sees the number as it was written
    (history/search.go). */
module SearchNumbers {
  import opened Basics
  import opened Sorting
  import opened Records
  import opened Tokens
  import opened SearchIndex
  import opened SearchScan
  import opened SearchSync

  /** What encoding does to a number. */
  type Numbering = Option<nat> -> Option<nat>

  function RenumberRecord(w: Numbering, r: Record): Record {
    r.(sequence := w(r.sequence))
  }

  function RenumberDocument(w: Numbering, d: Document): Document {
    d.(record := RenumberRecord(w, d.record))
  }

  function Renumber(w: Numbering, documents: seq<Document>): (r: seq<Document>)
    ensures |r| == |documents|
  {
    seq(|documents|, i requires 0 <= i < |documents| => RenumberDocument(w, documents[i]))
  }

  function RenumberHit(w: Numbering, h: Hit): Hit {
    h.(record := RenumberRecord(w, h.record))
  }

  function RenumberHits(w: Numbering, hits: seq<Hit>): (r: seq<Hit>)
    ensures |r| == |hits|
  {
    seq(|hits|, i requires 0 <= i < |hits| => RenumberHit(w, hits[i]))
  }

  function RenumberAnswer(w: Numbering, answer: Result<(seq<Hit>, nat), SearchError>): Result<(seq<Hit>, nat), SearchError> {
    match answer
    case Ok(found) => Ok((RenumberHits(w, found.0), found.1))
    case Err(error) => Err(error)
  }

  // ----- Searching does not look at numbers -----

  lemma RenumberedTerms(w: Numbering, ab: Alphabet, documents: seq<Document>)
    ensures TermLists(ab, Renumber(w, documents)) == TermLists(ab, documents)
  {
  }

  lemma RenumberedMatches(w: Numbering, e: Engine, q: SearchQuery, clauses: seq<Clause>, d: Document)
    ensures Matches(e, q, clauses, RenumberDocument(w, d)) <==> Matches(e, q, clauses, d)
  {
    hide Terms, AllHold;
    assert Facets(RenumberRecord(w, d.record)) == Facets(d.record);
  }

  lemma {:induction false} RenumberedMatching(w: Numbering, e: Engine, q: SearchQuery, clauses: seq<Clause>, documents: seq<Document>)
    ensures Matching(e, q, clauses, Renumber(w, documents)) == Renumber(w, Matching(e, q, clauses, documents))
  {
    hide Matches, RenumberDocument;
    if documents != [] {
      var rest := documents[1..];
      RenumberedMatching(w, e, q, clauses, rest);
      RenumberedMatches(w, e, q, clauses, documents[0]);
      assert Renumber(w, documents)[1..] == Renumber(w, rest);
    }
  }

  lemma RenumberedHits(w: Numbering, e: Engine, q: SearchQuery, clauses: seq<Clause>, documents: seq<Document>)
    ensures HitsOf(e, q, clauses, Renumber(w, documents)) == RenumberHits(w, HitsOf(e, q, clauses, documents))
  {
    hide Matching, QueryScore, Terms;
    RenumberedMatching(w, e, q, clauses, documents);
    RenumberedTerms(w, e.alphabet, documents);
  }

  lemma RenumberedOrder(w: Numbering, x: Hit, y: Hit)
    ensures HitLess(RenumberHit(w, x), RenumberHit(w, y)) == HitLess(x, y)
  {
    hide StringLess;
  }

  lemma InsertFirst(x: Hit, hits: seq<Hit>)
    ensures Insert(x, hits, HitLess) ==
      if hits == [] then [x] else if HitLess(x, hits[0]) then [x] + hits else [hits[0]] + Insert(x, hits[1..], HitLess)
  {
    hide HitLess;
  }

  lemma RenumberedCons(w: Numbering, x: Hit, hits: seq<Hit>)
    ensures RenumberHits(w, [x] + hits) == [RenumberHit(w, x)] + RenumberHits(w, hits)
    ensures hits != [] ==> RenumberHits(w, hits)[0] == RenumberHit(w, hits[0]) && RenumberHits(w, hits)[1..] == RenumberHits(w, hits[1..])
  {
    hide RenumberHit;
  }

  lemma {:induction false} RenumberedInsert(w: Numbering, x: Hit, hits: seq<Hit>)
    ensures Insert(RenumberHit(w, x), RenumberHits(w, hits), HitLess) == RenumberHits(w, Insert(x, hits, HitLess))
  {
    hide HitLess, RenumberHit, RenumberHits, Insert;
    InsertFirst(x, hits);
    InsertFirst(RenumberHit(w, x), RenumberHits(w, hits));
    RenumberedCons(w, x, hits);
    if hits == [] {
      assert [x] + hits == [x] && [RenumberHit(w, x)] + RenumberHits(w, hits) == [RenumberHit(w, x)];
    } else {
      RenumberedOrder(w, x, hits[0]);
      RenumberedInsert(w, x, hits[1..]);
      RenumberedCons(w, hits[0], Insert(x, hits[1..], HitLess));
    }
  }

  lemma {:induction false} RenumberedSort(w: Numbering, hits: seq<Hit>)
    ensures SortBy(RenumberHits(w, hits), HitLess) == RenumberHits(w, SortBy(hits, HitLess))
  {
    hide HitLess, RenumberHit, Insert;
    if hits != [] {
      RenumberedSort(w, hits[1..]);
      assert RenumberHits(w, hits)[1..] == RenumberHits(w, hits[1..]);
      RenumberedInsert(w, hits[0], SortBy(hits[1..], HitLess));
    }
  }

  /** Renumbering the documents renumbers the hits and changes nothing else in any answer. */
  lemma ScanRenumbered(w: Numbering, e: Engine, q: SearchQuery, documents: seq<Document>)
    ensures Scan(e, q, Renumber(w, documents)) == RenumberAnswer(w, Scan(e, q, documents))
  {
    hide HitsOf, HitLess, BroadQuery, Insert, SortBy, FirstOf, RenumberHits, Renumber, Parse;
    RenumberedTerms(w, e.alphabet, documents);
    var parsed := Parse(e.alphabet, q.text);
    if parsed.Ok? {
      RenumberedHits(w, e, q, parsed.value, documents);
      var hits := HitsOf(e, q, parsed.value, documents);
      RenumberedSort(w, hits);
      RenumberedFirst(w, SortBy(hits, HitLess), EffectiveLimit(q.limit));
    }
  }

  lemma RenumberedFirst(w: Numbering, hits: seq<Hit>, n: nat)
    ensures FirstOf(RenumberHits(w, hits), n) == RenumberHits(w, FirstOf(hits, n))
  {
    hide RenumberHit;
  }

  lemma RenumberedDistinct(w: Numbering, documents: seq<Document>)
    ensures DistinctDocuments(Renumber(w, documents)) <==> DistinctDocuments(documents)
  {
    var r := Renumber(w, documents);
    assert forall i | 0 <= i < |r| :: r[i].record.id == documents[i].record.id;
  }

  /** When every number survives the encoding, nothing changes at all. */
  predicate AllSurvive(w: Numbering, documents: seq<Document>) {
    forall d | d in documents :: w(d.record.sequence) == d.record.sequence
  }

  lemma SurvivorsStay(w: Numbering, documents: seq<Document>)
    requires AllSurvive(w, documents)
    ensures Renumber(w, documents) == documents
  {
    forall i | 0 <= i < |documents| ensures RenumberDocument(w, documents[i]) == documents[i] { assert documents[i] in documents; }
  }

  // ----- A process with the numbers it was given -----

  /** What the store reads as; what encoding does to numbers; which segments read at all. */
  datatype World = World(corpus: Corpus, w: Numbering, readable: string -> bool) {
    /** What has been read is not changed by encoding it again. */
    ghost predicate Valid() {
      && Lawful(corpus) && (forall n :: w(w(n)) == w(n))
      && forall k :: AllSurvive(w, corpus(k).documents)
    }
  }

  predicate Decode(documents: seq<Document>) {
    forall d | d in documents && d.record.sequence.Some? :: d.record.sequence.value < UINT64_LIMIT
  }

  /** An observed write brings its own documents; every other step is as before. */
  datatype ExactStep = Observed(source: string, documents: seq<Document>) | Plainly(step: Step)

  ghost predicate ExactlyEnabled(world: World, s: State, step: ExactStep) {
    match step
    case Observed(source, documents) => s.loaded && Renumber(world.w, documents) == world.corpus(source).documents
    case Plainly(plain) =>
      && !plain.ObserveWrite? && Enabled(world.corpus, s, plain)
      && (plain.Commit? ==> forall k | k in s.refresh.missing :: world.readable(k))
      && (plain.Install? ==> Decode(s.cache.value.documents))
  }

  function RenumberContents(w: Numbering, c: Contents): Contents {
    c.(documents := Renumber(w, c.documents))
  }

  /** Numbers are rounded where the cache is written. */
  ghost function ExactlyAfter(world: World, s: State, step: ExactStep): State {
    match step
    case Observed(source, documents) => s.(contents := Observe(s.contents, world.corpus(source).(documents := documents)))
    case Plainly(StoreCache) =>
      s.(cache := if s.taken.Some? then Some(RenumberContents(world.w, s.taken.value)) else None, taken := None)
    case Plainly(plain) => After(world.corpus, s, plain)
  }

  function RenumberTaken(w: Numbering, c: Option<Contents>): Option<Contents> {
    if c.Some? then Some(RenumberContents(w, c.value)) else None
  }

  /** The state as it would be had all numbers been read from the store. */
  function AsRead(w: Numbering, s: State): State {
    s.(contents := RenumberContents(w, s.contents), taken := RenumberTaken(w, s.taken), cache := RenumberTaken(w, s.cache))
  }

  function StepAsRead(w: Numbering, step: ExactStep): Step {
    match step
    case Observed(source, _) => ObserveWrite(source)
    case Plainly(TakeCache(documents)) => TakeCache(Renumber(w, documents))
    case Plainly(plain) => plain
  }

  lemma RenumberedAppend(w: Numbering, a: seq<Document>, b: seq<Document>)
    ensures Renumber(w, a + b) == Renumber(w, a) + Renumber(w, b)
  {
  }

  lemma {:induction false} RenumberedMultiset(w: Numbering, a: seq<Document>, b: seq<Document>)
    requires multiset(a) == multiset(b)
    ensures multiset(Renumber(w, a)) == multiset(Renumber(w, b))
  {
    MultisetElements(a, b);
    if a != [] {
      var i := FindFirst(a, b);
      RenumberedMultiset(w, a[1..], RemoveAt(b, i));
      assert a == [a[0]] + a[1..] && b == b[..i] + ([b[i]] + b[i + 1..]);
      RenumberedAppend(w, [a[0]], a[1..]);
      RenumberedAppend(w, b[..i], [b[i]] + b[i + 1..]);
      RenumberedAppend(w, [b[i]], b[i + 1..]);
      RenumberedAppend(w, b[..i], b[i + 1..]);
    }
  }

  lemma {:induction false} RenumberedAddAll(world: World, c: Contents, keys: seq<string>)
    requires world.Valid()
    ensures RenumberContents(world.w, AddAll(c, ReadAll(world.corpus, keys))) == AddAll(RenumberContents(world.w, c), ReadAll(world.corpus, keys))
  {
    if keys != [] {
      var front, last := keys[..|keys| - 1], keys[|keys| - 1];
      RenumberedAddAll(world, c, front);
      AddAllLast(world.corpus, c, keys);
      AddAllLast(world.corpus, RenumberContents(world.w, c), keys);
      hide AddAll, ReadAll;
      RenumberedAppend(world.w, AddAll(c, ReadAll(world.corpus, front)).documents, world.corpus(last).documents);
      SurvivorsStay(world.w, world.corpus(last).documents);
    }
  }

  lemma {:induction false} RenumberedTwice(w: Numbering, documents: seq<Document>)
    requires forall n :: w(w(n)) == w(n)
    ensures Renumber(w, Renumber(w, documents)) == Renumber(w, documents)
  {
  }

  lemma RenumberedNothing(w: Numbering)
    ensures RenumberContents(w, EMPTY) == EMPTY
  {
  }

  /** Read as if from the store, a step with exact numbers is a step without. */
  lemma ExactStepFollows(world: World, s: State, step: ExactStep)
    requires world.Valid() && ExactlyEnabled(world, s, step)
    ensures Enabled(world.corpus, AsRead(world.w, s), StepAsRead(world.w, step))
    ensures AsRead(world.w, ExactlyAfter(world, s, step)) == After(world.corpus, AsRead(world.w, s), StepAsRead(world.w, step))
  {
    hide Renumber, AddAll, ReadAll, Lawful, AllSurvive, Missing;
    RenumberedNothing(world.w);
    match step
    case Observed(source, documents) =>
      RenumberedAppend(world.w, s.contents.documents, documents);
    case Plainly(TakeCache(documents)) => RenumberedMultiset(world.w, documents, s.contents.documents);
    case Plainly(StoreCache) => RenumberedTwice(world.w, s.taken.value.documents);
    case Plainly(Commit) => RenumberedAddAll(world, s.contents, s.refresh.missing);
    case Plainly(Pick(listed)) => MissingSame(s.contents, RenumberContents(world.w, s.contents), listed);
    case Plainly(_) =>
  }

  lemma MissingSame(a: Contents, b: Contents, listed: seq<string>)
    requires a.sources == b.sources
    ensures Missing(a, listed) == Missing(b, listed)
  {
    FilterSame(listed, (k: string) => k !in a.sources, (k: string) => k !in b.sources);
  }

  ghost predicate ExactRun(world: World, states: seq<State>, steps: seq<ExactStep>) {
    && |states| == |steps| + 1 && states[0] == START
    && forall i | 0 <= i < |steps| :: ExactlyEnabled(world, states[i], steps[i]) && states[i + 1] == ExactlyAfter(world, states[i], steps[i])
  }

  /** No write is observed inside a refresh that has picked it. */
  ghost predicate ExactlyClean(states: seq<State>, steps: seq<ExactStep>) {
    forall i | 0 <= i < |steps| && i < |states| && steps[i].Observed? && states[i].refresh.Picked? :: steps[i].source !in states[i].refresh.missing
  }

  lemma ExactStepClean(world: World, s: State, step: ExactStep)
    requires ExactlyEnabled(world, s, step)
    requires step.Observed? && s.refresh.Picked? ==> step.source !in s.refresh.missing
    ensures !Interleaves(AsRead(world.w, s), StepAsRead(world.w, step))
  {
  }

  /** In every run without that interleaving each source is present exactly once, in the index and in the
      cache, up to the rounding of sequence numbers. */
  lemma {:induction false} ExactRunsStaySynced(world: World, states: seq<State>, steps: seq<ExactStep>, n: nat)
    requires world.Valid() && ExactRun(world, states, steps) && ExactlyClean(states, steps) && n < |states|
    ensures Good(world.corpus, AsRead(world.w, states[n]))
  {
    hide Good, Enabled, After, ExactlyEnabled, ExactlyAfter;
    if n == 0 {
      RenumberedNothing(world.w);
      GoodStart(world.corpus);
    } else {
      ExactRunsStaySynced(world, states, steps, n - 1);
      ExactStepFollows(world, states[n - 1], steps[n - 1]);
      ExactStepClean(world, states[n - 1], steps[n - 1]);
      StepKeepsGoodIff(world.corpus, AsRead(world.w, states[n - 1]), StepAsRead(world.w, steps[n - 1]));
    }
  }

  /** So a search answers, up to that rounding, what scanning the stored segments does. */
  lemma ExactSearchIsScan(world: World, c: Contents, keys: seq<string>, e: Engine, q: SearchQuery)
    requires world.Valid() && Synced(world.corpus, RenumberContents(world.w, c)) && UniqueInStore(world.corpus, c.sources.Keys)
    requires NoDuplicates(keys) && Elements(keys) == c.sources.Keys
    ensures RenumberAnswer(world.w, Scan(e, q, c.documents)) == Scan(e, q, ReadOut(world.corpus, keys))
  {
    hide Scan, Synced, UniqueInStore, ReadOut;
    SearchIsScan(world.corpus, RenumberContents(world.w, c), keys, e, q);
    ScanRenumbered(world.w, e, q, c.documents);
  }

  // ----- A segment that does not read -----

  /** The refresh under way needs a segment that does not read. */
  predicate Blocked(world: World, s: State, k: string) {
    && !world.readable(k)
    && match s.refresh
       case Idle => false
       case Picked(missing, _) => k in missing
       case MustClear(listed) => k in listed
  }

  lemma PickBlocks(world: World, s: State, listed: seq<string>, k: string)
    requires ExactlyEnabled(world, s, Plainly(Pick(listed))) && k in listed && k !in s.contents.sources && !world.readable(k)
    ensures Blocked(world, ExactlyAfter(world, s, Plainly(Pick(listed))), k)
  {
  }

  lemma BlockedStays(world: World, s: State, step: ExactStep, k: string)
    requires Blocked(world, s, k) && ExactlyEnabled(world, s, step)
    ensures !step.Plainly? || !step.step.Commit?
    ensures step == Plainly(GiveUp) || step == Plainly(Restart) || Blocked(world, ExactlyAfter(world, s, step), k)
  {
  }

  /** Every refresh that lists such a segment, in a process that has not indexed it otherwise, ends in
      nothing: it never commits. */
  lemma {:induction false} UnreadableStopsRefresh(world: World, states: seq<State>, steps: seq<ExactStep>, m: nat, n: nat, k: string)
    requires ExactRun(world, states, steps) && m < n < |steps|
    requires steps[m].Plainly? && steps[m].step.Pick? && k in steps[m].step.listed && k !in states[m].contents.sources && !world.readable(k)
    requires forall i | m < i < n :: steps[i] != Plainly(GiveUp) && steps[i] != Plainly(Restart)
    ensures Blocked(world, states[n], k) && steps[n] != Plainly(Commit)
  {
    hide ExactlyEnabled, ExactlyAfter, Blocked;
    if n == m + 1 {
      PickBlocks(world, states[m], steps[m].step.listed, k);
    } else {
      UnreadableStopsRefresh(world, states, steps, m, n - 1, k);
      BlockedStays(world, states[n - 1], steps[n - 1], k);
    }
    BlockedStays(world, states[n], steps[n], k);
  }
}
