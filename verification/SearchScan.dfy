/** What a search must answer, by scanning every document: clause semantics, BM25 scores and the
    ranking, with no index in sight. */
module SearchScan {
  import opened Basics
  import opened Sorting
  import opened Records
  import opened RecordOrder
  import opened Tokens
  import opened SearchIndex

  const MAX_PREFIX_EXPANSIONS: nat := 512

  /** The character tables and the natural logarithm. Of the latter only one fact is used. */
  datatype Engine = Engine(alphabet: Alphabet, ln: real -> real) {
    ghost predicate Lawful() {
      alphabet.Lawful() && forall x :: x > 1.0 ==> ln(x) > 0.0
    }
  }

  datatype SearchQuery = SearchQuery(
    text: string,
    conversationID: string,
    traceID: string,
    kind: string,
    agent: string,
    tool: string,
    status: string,
    tags: map<string, string>,
    since: Option<Time>,
    until: Option<Time>,
    limit: int)

  datatype Hit = Hit(record: Record, score: real)

  datatype SearchError = Unparsable(error: ParseError) | PrefixTooBroad | InvalidLimit | InvertedBounds

  // ----- Clauses over a document's terms -----

  predicate HasPrefix(term: string, prefix: string) {
    |prefix| <= |term| && term[..|prefix|] == prefix
  }

  predicate PhraseAt(terms: seq<string>, phrase: seq<string>, start: nat) {
    start + |phrase| <= |terms| && terms[start..start + |phrase|] == phrase
  }

  /** The phrase occurs as consecutive terms. */
  ghost predicate PhraseIn(terms: seq<string>, phrase: seq<string>) {
    exists start: nat :: PhraseAt(terms, phrase, start)
  }

  ghost predicate ClauseHolds(c: Clause, terms: seq<string>) {
    if c.prefix then c.terms != [] && exists t :: t in terms && HasPrefix(t, c.terms[0])
    else
      && c.terms != [] && (forall t | t in c.terms :: t in terms)
      && (c.phrase ==> PhraseIn(terms, c.terms))
  }

  ghost predicate AllHold(clauses: seq<Clause>, terms: seq<string>) {
    forall i | 0 <= i < |clauses| :: ClauseHolds(clauses[i], terms)
  }

  // ----- Filters over a record -----

  predicate Wants(expected: string, actual: Option<string>) {
    expected == "" || actual == Some(expected)
  }

  predicate WithinTime(r: Record, since: Option<Time>, until: Option<Time>) {
    (since.Some? ==> since.value <= r.occurredAt) && (until.Some? ==> r.occurredAt <= until.value)
  }

  /** Every filter of the query holds of the record. */
  predicate Passes(r: Record, q: SearchQuery) {
    && Wants(q.conversationID, Some(r.conversationID)) && Wants(q.traceID, r.traceID) && Wants(q.kind, Some(r.kind))
    && Wants(q.agent, r.agent) && Wants(q.tool, r.tool) && Wants(q.status, r.status)
    && (forall k | k in q.tags :: k in r.tags && r.tags[k] == q.tags[k])
  }

  function WantedTags(q: SearchQuery): set<string> {
    set k | k in q.tags :: TagValue(k, q.tags[k])
  }

  /** The same filters as the index evaluates them: a set of (field, value) pairs to find. */
  function Wanted(q: SearchQuery): set<(Field, string)> {
    Tagged(ConversationField, Scalar(Some(q.conversationID))) + Tagged(TraceField, Scalar(Some(q.traceID)))
    + Tagged(KindField, Scalar(Some(q.kind))) + Tagged(AgentField, Scalar(Some(q.agent)))
    + Tagged(ToolField, Scalar(Some(q.tool))) + Tagged(StatusField, Scalar(Some(q.status)))
    + Tagged(TagField, WantedTags(q))
  }

  ghost predicate PassesFacets(r: Record, q: SearchQuery) {
    Wanted(q) <= Facets(r)
  }

  predicate NulFree(s: string) {
    forall i | 0 <= i < |s| :: s[i] != '\0'
  }

  /** Joining key and value with NUL identifies the pair exactly when neither contains NUL. */
  lemma TagValueInjectiveIff(k: string, v: string)
    ensures (forall k', v' :: TagValue(k', v') == TagValue(k, v) ==> k' == k && v' == v) <==> NulFree(k) && NulFree(v)
  {
    var joined := TagValue(k, v);
    if NulFree(k) && NulFree(v) {
      forall k', v' | TagValue(k', v') == joined ensures k' == k && v' == v {
        TagValueSplit(k, v, k', v');
      }
    } else if !NulFree(k) {
      var i :| 0 <= i < |k| && k[i] == '\0';
      var k', v' := k[..i], k[i + 1..] + ['\0'] + v;
      assert TagValue(k', v') == joined;
      assert |k'| != |k|;
    } else {
      var i :| 0 <= i < |v| && v[i] == '\0';
      var k', v' := k + ['\0'] + v[..i], v[i + 1..];
      assert TagValue(k', v') == joined;
      assert |k'| != |k|;
    }
  }

  lemma TagValueSplit(k: string, v: string, k': string, v': string)
    requires NulFree(k) && (NulFree(v) || NulFree(k')) && TagValue(k', v') == TagValue(k, v)
    ensures k' == k && v' == v
  {
    var joined := TagValue(k, v);
    assert forall i | 0 <= i < |k| :: joined[i] == k[i];
    assert forall i | |k| < i < |joined| :: joined[i] == v[i - |k| - 1];
    assert forall i | 0 <= i < |k'| :: joined[i] == k'[i];
    assert joined[|k|] == '\0' && joined[|k'|] == '\0';
    assert |k| == |k'|;
    assert k == joined[..|k|] && k' == joined[..|k|];
    assert v == joined[|k| + 1..] && v' == joined[|k| + 1..];
  }

  /** A query tag cannot be confused with another tag of the record. */
  predicate Unambiguous(r: Record, q: SearchQuery) {
    forall k | k in q.tags :: NulFree(k) && (NulFree(q.tags[k]) || forall j | j in r.tags :: NulFree(j))
  }

  function WantedValues(q: SearchQuery, f: Field): set<string> {
    match f
    case ConversationField => Scalar(Some(q.conversationID))
    case TraceField => Scalar(Some(q.traceID))
    case KindField => Scalar(Some(q.kind))
    case AgentField => Scalar(Some(q.agent))
    case ToolField => Scalar(Some(q.tool))
    case StatusField => Scalar(Some(q.status))
    case TagField => WantedTags(q)
  }

  function HeldValues(r: Record, f: Field): set<string> {
    match f
    case ConversationField => Scalar(Some(r.conversationID))
    case TraceField => Scalar(r.traceID)
    case KindField => Scalar(Some(r.kind))
    case AgentField => Scalar(r.agent)
    case ToolField => Scalar(r.tool)
    case StatusField => Scalar(r.status)
    case TagField => TagValues(r)
  }

  lemma WantedMember(q: SearchQuery, f: Field, v: string)
    ensures (f, v) in Wanted(q) <==> v in WantedValues(q, f)
  {
    hide Scalar, WantedTags;
  }

  lemma HeldMember(r: Record, f: Field, v: string)
    ensures (f, v) in Facets(r) <==> v in HeldValues(r, f)
  {
    hide Scalar, TagValues;
  }

  /** Finding a union of tagged values is finding each part under its own field. */
  lemma FacetParts(r: Record, q: SearchQuery)
    ensures PassesFacets(r, q) <==> forall f :: WantedValues(q, f) <= HeldValues(r, f)
  {
    hide Wanted, Facets, WantedValues, HeldValues;
    if PassesFacets(r, q) {
      forall f, v | v in WantedValues(q, f) ensures v in HeldValues(r, f) {
        WantedMember(q, f, v);
        HeldMember(r, f, v);
      }
    } else {
      var p :| p in Wanted(q) && p !in Facets(r);
      WantedMember(q, p.0, p.1);
      HeldMember(r, p.0, p.1);
    }
  }

  /** The posting lookup means what the filters say, for unambiguous tags. */
  lemma FacetsMeanFilters(r: Record, q: SearchQuery)
    requires Unambiguous(r, q)
    ensures PassesFacets(r, q) <==> Passes(r, q)
  {
    hide Wanted, Facets, PassesFacets;
    FacetParts(r, q);
    if Passes(r, q) {
      forall f ensures WantedValues(q, f) <= HeldValues(r, f) {
        match f
        case TagField => assert forall k | k in q.tags :: TagValue(k, q.tags[k]) in TagValues(r);
        case _ =>
      }
    } else if WantedTags(q) <= TagValues(r) {
      forall k | k in q.tags ensures k in r.tags && r.tags[k] == q.tags[k] {
        assert TagValue(k, q.tags[k]) in WantedTags(q);
        var j :| j in r.tags && TagValue(j, r.tags[j]) == TagValue(k, q.tags[k]);
        TagValueSplit(k, q.tags[k], j, r.tags[j]);
      }
      var f := if !Wants(q.conversationID, Some(r.conversationID)) then ConversationField
               else if !Wants(q.traceID, r.traceID) then TraceField
               else if !Wants(q.kind, Some(r.kind)) then KindField
               else if !Wants(q.agent, r.agent) then AgentField
               else if !Wants(q.tool, r.tool) then ToolField else StatusField;
      assert !(WantedValues(q, f) <= HeldValues(r, f));
    } else {
      assert !(WantedValues(q, TagField) <= HeldValues(r, TagField));
    }
  }

  /** A record that answers q except perhaps for its tags, which are as given. */
  function Answering(q: SearchQuery, tags: map<string, string>): Record {
    Record("r", q.conversationID, q.kind, 0, 0, None, Some(q.traceID), None, None, Some(q.agent), Some(q.tool), Some(q.status), tags,
      External(ContentSha([]), 0))
  }

  lemma AnsweringTags(q: SearchQuery, tags: map<string, string>)
    ensures PassesFacets(Answering(q, tags), q) <==> WantedTags(q) <= TagValues(Answering(q, tags))
    ensures Passes(Answering(q, tags), q) <==> forall k | k in q.tags :: k in tags && tags[k] == q.tags[k]
  {
    hide Wanted, Facets, PassesFacets, Scalar, WantedTags, TagValues;
    var r := Answering(q, tags);
    FacetParts(r, q);
    forall f: Field | f != TagField ensures WantedValues(q, f) <= HeldValues(r, f) {
      match f
      case _ =>
    }
    assert WantedValues(q, TagField) == WantedTags(q) && HeldValues(r, TagField) == TagValues(r);
  }

  /** For a query on one tag the condition is exact: the index confuses no record if and only if
      neither the key nor the value contains NUL. */
  lemma SingleTagExact(q: SearchQuery, k: string, v: string)
    requires q.tags == map[k := v]
    ensures (forall r: Record :: PassesFacets(r, q) <==> Passes(r, q)) <==> NulFree(k) && NulFree(v)
  {
    hide PassesFacets, Passes;
    if NulFree(k) && NulFree(v) {
      forall r: Record ensures PassesFacets(r, q) <==> Passes(r, q) { FacetsMeanFilters(r, q); }
    } else {
      TagValueInjectiveIff(k, v);
      var k', v' :| TagValue(k', v') == TagValue(k, v) && !(k' == k && v' == v);
      var r := Answering(q, map[k' := v']);
      AnsweringTags(q, map[k' := v']);
      assert TagValue(k', v') in TagValues(r) by { assert k' in r.tags && r.tags[k'] == v'; }
      assert WantedTags(q) == {TagValue(k, v)} by { assert k in q.tags; }
      assert k in q.tags && !(k in r.tags && r.tags[k] == q.tags[k]);
      assert PassesFacets(r, q) && !Passes(r, q);
    }
  }

  // ----- BM25 -----

  /** The number of documents that contain a term. */
  function Frequency(term: string, lists: seq<seq<string>>): (r: nat)
    ensures r <= |lists|
  {
    if lists == [] then 0
    else Frequency(term, lists[..|lists| - 1]) + if term in lists[|lists| - 1] then 1 else 0
  }

  lemma LengthRatio(n: nat, total: nat, tf: nat, length: nat)
    requires n > 0 && total > 0 && tf > 0
    ensures (total as real) / (n as real) > 0.0
    ensures (tf as real) + 1.2 * (1.0 - 0.75 + 0.75 * (length as real) / ((total as real) / (n as real))) > tf as real
  {
  }

  function Idf(ln: real -> real, n: nat, df: nat): real {
    ln(1.0 + ((n as real) - (df as real) + 0.5) / ((df as real) + 0.5))
  }

  function Bm25(ln: real -> real, n: nat, df: nat, total: nat, tf: nat, length: nat): real
    requires n > 0 && total > 0 && tf > 0
  {
    var averageLength := (total as real) / (n as real);
    LengthRatio(n, total, tf, length);
    var denominator := (tf as real) + 1.2 * (1.0 - 0.75 + 0.75 * (length as real) / averageLength);
    Idf(ln, n, df) * ((tf as real) * 2.2 / denominator)
  }

  /** The score of one term in one document of a corpus; zero where it does not occur. */
  function TermScore(e: Engine, lists: seq<seq<string>>, term: string, terms: seq<string>): real {
    if PositionsOf(term, terms) == [] || |lists| == 0 || SumLengths(lists) == 0 then 0.0
    else Bm25(e.ln, |lists|, Frequency(term, lists), SumLengths(lists), |PositionsOf(term, terms)|, |terms|)
  }

  function SumScores(e: Engine, lists: seq<seq<string>>, wanted: seq<string>, terms: seq<string>): real {
    if wanted == [] then 0.0
    else SumScores(e, lists, wanted[..|wanted| - 1], terms) + TermScore(e, lists, wanted[|wanted| - 1], terms)
  }

  /** The vocabulary words with a prefix, in order. */
  ghost function Expansion(lists: seq<seq<string>>, prefix: string): seq<string> {
    Filter(SortedKeys(Vocabulary(lists)), (t: string) => HasPrefix(t, prefix))
  }

  ghost predicate TooBroad(lists: seq<seq<string>>, c: Clause) {
    c.prefix && c.terms != [] && |Expansion(lists, c.terms[0])| > MAX_PREFIX_EXPANSIONS
  }

  ghost function ClauseScore(e: Engine, lists: seq<seq<string>>, c: Clause, terms: seq<string>): real {
    if c.terms == [] then 0.0
    else if c.prefix then SumScores(e, lists, Expansion(lists, c.terms[0]), terms)
    else (if c.phrase then 2.0 else 1.0) * SumScores(e, lists, c.terms, terms)
  }

  ghost function QueryScore(e: Engine, lists: seq<seq<string>>, clauses: seq<Clause>, terms: seq<string>): real {
    if clauses == [] then 0.0
    else QueryScore(e, lists, clauses[..|clauses| - 1], terms) + ClauseScore(e, lists, clauses[|clauses| - 1], terms)
  }

  lemma {:induction false} SumLengthsPositive(lists: seq<seq<string>>, d: nat)
    requires d < |lists| && lists[d] != []
    ensures SumLengths(lists) > 0
  {
    if d < |lists| - 1 { SumLengthsPositive(lists[..|lists| - 1], d); }
  }

  lemma AbsentScore(e: Engine, lists: seq<seq<string>>, term: string, terms: seq<string>)
    requires PositionsOf(term, terms) == []
    ensures TermScore(e, lists, term, terms) == 0.0
  {
  }

  lemma {:induction false} SumScoresNowhere(e: Engine, lists: seq<seq<string>>, wanted: seq<string>, terms: seq<string>)
    requires forall t | t in wanted :: t !in terms
    ensures SumScores(e, lists, wanted, terms) == 0.0
  {
    if wanted != [] {
      SumScoresNowhere(e, lists, wanted[..|wanted| - 1], terms);
      PositionsOfMember(wanted[|wanted| - 1], terms);
    }
  }

  lemma ExpansionHolds(lists: seq<seq<string>>, prefix: string, d: nat)
    requires d < |lists|
    ensures (exists t :: t in lists[d] && HasPrefix(t, prefix)) <==> exists t :: t in Expansion(lists, prefix) && t in lists[d]
  {
    forall t | t in lists[d] ensures t in Elements(SortedKeys(Vocabulary(lists))) {
      var i :| 0 <= i < |lists[d]| && lists[d][i] == t;
      assert lists[d][i] in Vocabulary(lists);
    }
    forall t | t in lists[d] && HasPrefix(t, prefix) ensures t in Expansion(lists, prefix) {
      assert t in Elements(SortedKeys(Vocabulary(lists)));
    }
  }

  ghost predicate BroadQuery(lists: seq<seq<string>>, clauses: seq<Clause>) {
    exists i :: 0 <= i < |clauses| && TooBroad(lists, clauses[i])
  }

  // ----- The scan -----

  ghost predicate Matches(e: Engine, q: SearchQuery, clauses: seq<Clause>, d: Document) {
    && AllHold(clauses, Terms(e.alphabet, d.text))
    && PassesFacets(d.record, q)
    && WithinTime(d.record, q.since, q.until)
  }

  ghost function Matching(e: Engine, q: SearchQuery, clauses: seq<Clause>, documents: seq<Document>): seq<Document> {
    Filter(documents, (d: Document) => Matches(e, q, clauses, d))
  }

  lemma {:induction false} FilterSame<T>(s: seq<T>, p: T -> bool, q: T -> bool)
    requires forall x | x in s :: p(x) == q(x)
    ensures Filter(s, p) == Filter(s, q)
  {
    if s != [] { FilterSame(s[1..], p, q); }
  }

  /** With unambiguous tags, the documents found are those whose terms satisfy every clause and
      whose record passes every filter and time bound. */
  lemma MatchingMeansFilters(e: Engine, q: SearchQuery, clauses: seq<Clause>, documents: seq<Document>)
    requires forall d | d in documents :: Unambiguous(d.record, q)
    ensures Matching(e, q, clauses, documents) == Filter(documents, (d: Document) =>
              && AllHold(clauses, Terms(e.alphabet, d.text)) && Passes(d.record, q)
              && (q.since.None? || q.since.value <= d.record.occurredAt) && (q.until.None? || d.record.occurredAt <= q.until.value))
  {
    hide PassesFacets, Passes, Unambiguous, AllHold, Terms;
    var p := (d: Document) => Matches(e, q, clauses, d);
    var plain := (d: Document) =>
      && AllHold(clauses, Terms(e.alphabet, d.text)) && Passes(d.record, q)
      && (q.since.None? || q.since.value <= d.record.occurredAt) && (q.until.None? || d.record.occurredAt <= q.until.value);
    forall d | d in documents ensures p(d) == plain(d) { FacetsMeanFilters(d.record, q); }
    FilterSame(documents, p, plain);
  }

  ghost function HitFor(e: Engine, documents: seq<Document>, clauses: seq<Clause>, d: Document): Hit {
    Hit(d.record, QueryScore(e, TermLists(e.alphabet, documents), clauses, Terms(e.alphabet, d.text)))
  }

  /** Best score first, then latest, then by id. */
  predicate HitLess(a: Hit, b: Hit) {
    if a.score != b.score then a.score > b.score
    else if a.record.occurredAt != b.record.occurredAt then a.record.occurredAt > b.record.occurredAt
    else StringLess(a.record.id, b.record.id)
  }

  /** No limit means a hundred; a negative one never gets this far. */
  function EffectiveLimit(limit: int): nat {
    if limit == 0 then 100 else if limit < 0 then 0 else limit
  }

  function FirstOf<T>(s: seq<T>, n: nat): seq<T> {
    if |s| > n then s[..n] else s
  }

  ghost function HitSet(e: Engine, q: SearchQuery, clauses: seq<Clause>, documents: seq<Document>): set<Hit> {
    set d | d in documents && Matches(e, q, clauses, d) :: HitFor(e, documents, clauses, d)
  }

  /** No two documents carry the same record id. */
  ghost predicate DistinctDocuments(documents: seq<Document>) {
    forall i, j | 0 <= i < j < |documents| :: documents[i].record.id != documents[j].record.id
  }

  /** hits is the whole answer in rank order. */
  ghost predicate RankedAnswer(e: Engine, q: SearchQuery, clauses: seq<Clause>, documents: seq<Document>, hits: seq<Hit>) {
    Sorted(HitLess, hits) && Elements(hits) == HitSet(e, q, clauses, documents)
  }

  lemma HitsOrdered(e: Engine, q: SearchQuery, clauses: seq<Clause>, documents: seq<Document>)
    requires DistinctDocuments(documents)
    ensures TotalOrderOn(HitLess, HitSet(e, q, clauses, documents))
  {
    var hits := HitSet(e, q, clauses, documents);
    forall a, b | a in hits && b in hits
      ensures !HitLess(a, a)
      ensures a == b || HitLess(a, b) || HitLess(b, a)
    {
      StringLessIrreflexive(a.record.id);
      StringLessConnected(a.record.id, b.record.id);
      var x :| x in documents && a == HitFor(e, documents, clauses, x);
      var y :| y in documents && b == HitFor(e, documents, clauses, y);
      var i :| 0 <= i < |documents| && documents[i] == x;
      var j :| 0 <= j < |documents| && documents[j] == y;
    }
    forall a, b, c | a in hits && b in hits && c in hits && HitLess(a, b) && HitLess(b, c) ensures HitLess(a, c) {
      if a.record.occurredAt == b.record.occurredAt == c.record.occurredAt && StringLess(a.record.id, b.record.id) && StringLess(b.record.id, c.record.id) {
        StringLessTransitive(a.record.id, b.record.id, c.record.id);
      }
    }
  }

  /** There is only one answer. */
  lemma RankedAnswerUnique(e: Engine, q: SearchQuery, clauses: seq<Clause>, documents: seq<Document>, a: seq<Hit>, b: seq<Hit>)
    requires DistinctDocuments(documents)
    requires RankedAnswer(e, q, clauses, documents, a) && RankedAnswer(e, q, clauses, documents, b)
    ensures a == b
  {
    HitsOrdered(e, q, clauses, documents);
    SortedUnique(HitLess, a, b);
  }

  /** The matching documents as hits, in document order. */
  ghost function HitsOf(e: Engine, q: SearchQuery, clauses: seq<Clause>, documents: seq<Document>): seq<Hit> {
    var matching := Matching(e, q, clauses, documents);
    seq(|matching|, i requires 0 <= i < |matching| => HitFor(e, documents, clauses, matching[i]))
  }

  /** The whole answer to a query by brute force: parse, keep what matches, rank, cut. */
  ghost function Scan(e: Engine, q: SearchQuery, documents: seq<Document>): Result<(seq<Hit>, nat), SearchError>
  {
    var parsed := Parse(e.alphabet, q.text);
    if parsed.Err? then Err(Unparsable(parsed.error))
    else if BroadQuery(TermLists(e.alphabet, documents), parsed.value) then Err(PrefixTooBroad)
    else
      var hits := HitsOf(e, q, parsed.value, documents);
      Ok((FirstOf(SortBy(hits, HitLess), EffectiveLimit(q.limit)), |hits|))
  }

  // ----- The answer, without a word about how it is sorted -----

  /** The best score comes first; among equal scores the latest; among equal instants ids ascend. */
  ghost predicate BestFirst(hits: seq<Hit>) {
    forall i, j | 0 <= i < j < |hits| ::
      || hits[i].score > hits[j].score
      || (hits[i].score == hits[j].score &&
            (|| hits[i].record.occurredAt > hits[j].record.occurredAt
             || (hits[i].record.occurredAt == hits[j].record.occurredAt && StringLess(hits[i].record.id, hits[j].record.id))))
  }

  /** A document that is not shown comes after every hit that is. */
  ghost predicate WorseThan(hits: seq<Hit>, record: Record, score: real) {
    forall i | 0 <= i < |hits| ::
      || hits[i].score > score
      || (hits[i].score == score &&
            (|| hits[i].record.occurredAt > record.occurredAt
             || (hits[i].record.occurredAt == record.occurredAt && StringLess(hits[i].record.id, record.id))))
  }

  ghost predicate ShownOrWorse(e: Engine, clauses: seq<Clause>, documents: seq<Document>, hits: seq<Hit>, d: Document) {
    var score := QueryScore(e, TermLists(e.alphabet, documents), clauses, Terms(e.alphabet, d.text));
    Hit(d.record, score) in hits || WorseThan(hits, d.record, score)
  }

  /** The best of the matching documents, each with its score, up to the limit; a hundred without one. */
  ghost predicate ShowsBest(e: Engine, q: SearchQuery, clauses: seq<Clause>, documents: seq<Document>, hits: seq<Hit>) {
    && BestFirst(hits)
    && |hits| == Min(if q.limit == 0 then 100 else q.limit, |Matching(e, q, clauses, documents)|)
    && (forall h | h in hits :: exists d :: d in documents && Matches(e, q, clauses, d) && h == HitFor(e, documents, clauses, d))
    && forall d | d in documents && Matches(e, q, clauses, d) :: ShownOrWorse(e, clauses, documents, hits, d)
  }

  lemma ScanShowsBest(e: Engine, q: SearchQuery, documents: seq<Document>)
    requires DistinctDocuments(documents) && q.limit >= 0 && Scan(e, q, documents).Ok?
    ensures ShowsBest(e, q, Parse(e.alphabet, q.text).value, documents, Scan(e, q, documents).value.0)
  {
    hide Matches, QueryScore, HitsOf, Matching, TotalOrderOn, DistinctDocuments, HitLess, Parse, BroadQuery, Insert, ShowsBest;
    var clauses := Parse(e.alphabet, q.text).value;
    HitsOrdered(e, q, clauses, documents);
    HitListing(e, q, clauses, documents);
    SortBySorted(HitsOf(e, q, clauses, documents), HitLess);
    MatchingCount(e, q, clauses, documents);
    PrefixShowsBest(e, q, clauses, documents, SortBy(HitsOf(e, q, clauses, documents), HitLess));
  }

  /** All hits in order, cut. */
  lemma PrefixShowsBest(e: Engine, q: SearchQuery, clauses: seq<Clause>, documents: seq<Document>, all: seq<Hit>)
    requires q.limit >= 0 && Sorted(HitLess, all) && Elements(all) == HitSet(e, q, clauses, documents)
    requires |all| == |Matching(e, q, clauses, documents)|
    ensures ShowsBest(e, q, clauses, documents, FirstOf(all, EffectiveLimit(q.limit)))
  {
    hide Matches, QueryScore, Matching, HitLess, WorseThan, Sorted;
    SortedIsBestFirst(all);
    var hits := FirstOf(all, EffectiveLimit(q.limit));
    assert hits == all[..|hits|];
    forall h | h in hits ensures h in HitSet(e, q, clauses, documents) { assert h in Elements(all); }
    forall d | d in documents && Matches(e, q, clauses, d) ensures ShownOrWorse(e, clauses, documents, hits, d) {
      assert HitFor(e, documents, clauses, d) in Elements(all);
      CutIsWorse(all, |hits|, HitFor(e, documents, clauses, d));
    }
  }

  lemma CutIsWorse(all: seq<Hit>, n: nat, h: Hit)
    requires BestFirst(all) && n <= |all| && h in all
    ensures h in all[..n] || WorseThan(all[..n], h.record, h.score)
  {
    var i :| 0 <= i < |all| && all[i] == h;
    if i < n { assert all[..n][i] == h; }
  }

  lemma MatchingCount(e: Engine, q: SearchQuery, clauses: seq<Clause>, documents: seq<Document>)
    ensures |HitsOf(e, q, clauses, documents)| == |Matching(e, q, clauses, documents)|
  {
  }

  lemma SortedIsBestFirst(hits: seq<Hit>)
    requires Sorted(HitLess, hits)
    ensures BestFirst(hits)
  {
    hide StringLess;
  }

  predicate Inverted(q: SearchQuery) {
    q.since.Some? && q.until.Some? && q.since.value > q.until.value
  }

  /** ... after the request itself has been checked. */
  ghost function Answer(e: Engine, q: SearchQuery, documents: seq<Document>): Result<(seq<Hit>, nat), SearchError> {
    if q.limit < 0 || q.limit > 1000 then Err(InvalidLimit)
    else if Inverted(q) then Err(InvertedBounds)
    else Scan(e, q, documents)
  }

  lemma {:induction false} FilterDistinct(documents: seq<Document>, p: Document -> bool)
    requires DistinctDocuments(documents)
    ensures DistinctDocuments(Filter(documents, p))
  {
    if documents != [] {
      assert DistinctDocuments(documents[1..]);
      FilterDistinct(documents[1..], p);
      forall x | x in Filter(documents[1..], p) ensures x.record.id != documents[0].record.id {
        var i :| 0 <= i < |documents[1..]| && documents[1..][i] == x;
        assert documents[i + 1] == x;
      }
    }
  }

  lemma HitListing(e: Engine, q: SearchQuery, clauses: seq<Clause>, documents: seq<Document>)
    requires DistinctDocuments(documents)
    ensures NoDuplicates(HitsOf(e, q, clauses, documents))
    ensures Elements(HitsOf(e, q, clauses, documents)) == HitSet(e, q, clauses, documents)
  {
    hide QueryScore, Matches;
    var matching := Matching(e, q, clauses, documents);
    FilterDistinct(documents, (d: Document) => Matches(e, q, clauses, d));
    var hits := HitsOf(e, q, clauses, documents);
    forall h | h in hits ensures h in HitSet(e, q, clauses, documents) {
      var i :| 0 <= i < |hits| && hits[i] == h;
      assert matching[i] in documents && Matches(e, q, clauses, matching[i]);
    }
    forall d | d in documents && Matches(e, q, clauses, d) ensures HitFor(e, documents, clauses, d) in hits {
      assert d in matching;
      var i :| 0 <= i < |matching| && matching[i] == d;
      assert hits[i] == HitFor(e, documents, clauses, d);
    }
  }
}
