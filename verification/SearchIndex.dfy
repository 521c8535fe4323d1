/** The positional inverted index: what it holds, as a function of the indexed documents, and the
    loops that build and extend it (history/search.go). */
module SearchIndex {
  import opened Basics
  import opened Sorting
  import opened Records
  import opened Tokens

  datatype Document = Document(sourceKey: string, record: Record, text: string)

  /** term -> document number -> positions */
  type Postings = map<string, map<nat, seq<nat>>>

  datatype Field = ConversationField | TraceField | KindField | AgentField | ToolField | StatusField | TagField

  /** (field, value) -> document numbers: the source's two-level map, flattened. */
  type Filters = map<(Field, string), set<nat>>

  // ----- What the index holds -----

  function PositionsOf(term: string, terms: seq<string>): seq<nat> {
    if terms == [] then []
    else
      var front := PositionsOf(term, terms[..|terms| - 1]);
      if terms[|terms| - 1] == term then front + [|terms| - 1] else front
  }

  ghost function Vocabulary(lists: seq<seq<string>>): set<string> {
    set d, i | 0 <= d < |lists| && 0 <= i < |lists[d]| :: lists[d][i]
  }

  ghost function Occurrences(term: string, lists: seq<seq<string>>): map<nat, seq<nat>> {
    map d: nat | 0 <= d < |lists| && term in lists[d] :: PositionsOf(term, lists[d])
  }

  ghost function PostingsOf(lists: seq<seq<string>>): Postings {
    map t | t in Vocabulary(lists) :: Occurrences(t, lists)
  }

  function SumLengths(lists: seq<seq<string>>): nat {
    if lists == [] then 0 else SumLengths(lists[..|lists| - 1]) + |lists[|lists| - 1]|
  }

  function TermLists(ab: Alphabet, documents: seq<Document>): (r: seq<seq<string>>)
    ensures |r| == |documents|
    ensures forall d | 0 <= d < |r| :: r[d] == Terms(ab, documents[d].text)
  {
    seq(|documents|, d requires 0 <= d < |documents| => Terms(ab, documents[d].text))
  }

  /** The posting key of a tag joins key and value with NUL. */
  function TagValue(key: string, value: string): string {
    key + ['\0'] + value
  }

  function Scalar(value: Option<string>): set<string> {
    if value.None? || value.value == "" then {} else {value.value}
  }

  function Tagged(f: Field, values: set<string>): set<(Field, string)> {
    set v | v in values :: (f, v)
  }

  function TagValues(r: Record): set<string> {
    set k | k in r.tags :: TagValue(k, r.tags[k])
  }

  /** What a record is findable by. The empty string never is; a tag always is. */
  ghost function Facets(r: Record): set<(Field, string)> {
    Tagged(ConversationField, Scalar(Some(r.conversationID))) + Tagged(TraceField, Scalar(r.traceID))
    + Tagged(KindField, Scalar(Some(r.kind))) + Tagged(AgentField, Scalar(r.agent))
    + Tagged(ToolField, Scalar(r.tool)) + Tagged(StatusField, Scalar(r.status))
    + Tagged(TagField, TagValues(r))
  }

  ghost function AllFacets(documents: seq<Document>): set<(Field, string)> {
    set d, facet | 0 <= d < |documents| && facet in Facets(documents[d].record) :: facet
  }

  ghost function FiltersOf(documents: seq<Document>): Filters {
    map facet | facet in AllFacets(documents) :: set d: nat | 0 <= d < |documents| && facet in Facets(documents[d].record)
  }

  // ----- One token, one filter entry at a time -----

  function AddPosition(postings: Postings, term: string, d: nat, position: nat): Postings {
    var byDocument: map<nat, seq<nat>> := if term in postings then postings[term] else map[];
    postings[term := byDocument[d := (if d in byDocument then byDocument[d] else []) + [position]]]
  }

  lemma AddPositionKeys(postings: Postings, term: string, d: nat, position: nat)
    ensures AddPosition(postings, term, d, position).Keys == postings.Keys + {term}
  {
  }

  lemma PostingsKeys(lists: seq<seq<string>>)
    ensures PostingsOf(lists).Keys == Vocabulary(lists)
  {
  }

  lemma {:induction false} PositionsOfMember(term: string, terms: seq<string>)
    ensures PositionsOf(term, terms) == [] <==> term !in terms
    ensures forall i | 0 <= i < |PositionsOf(term, terms)| ::
              PositionsOf(term, terms)[i] < |terms| && terms[PositionsOf(term, terms)[i]] == term
    ensures forall p | 0 <= p < |terms| && terms[p] == term :: p in PositionsOf(term, terms)
    ensures forall i, j | 0 <= i < j < |PositionsOf(term, terms)| :: PositionsOf(term, terms)[i] < PositionsOf(term, terms)[j]
  {
    if terms != [] { PositionsOfMember(term, terms[..|terms| - 1]); }
  }

  lemma OccurrencesExtend(lists: seq<seq<string>>, more: seq<seq<string>>, token: string, t: string)
    requires lists != []
    requires var d := |lists| - 1; more == lists[d := lists[d] + [token]]
    ensures t != token ==> Occurrences(t, more) == Occurrences(t, lists)
    ensures t == token ==>
              Occurrences(t, more) == Occurrences(t, lists)[|lists| - 1 := PositionsOf(t, lists[|lists| - 1]) + [|lists[|lists| - 1]|]]
  {
    var d := |lists| - 1;
    assert more[d][..|more[d]| - 1] == lists[d];
  }

  /** Reading one more token of the last document is one AddPosition. */
  lemma PostingsExtend(lists: seq<seq<string>>, token: string)
    requires lists != []
    ensures var d := |lists| - 1;
            PostingsOf(lists[d := lists[d] + [token]]) == AddPosition(PostingsOf(lists), token, d, |lists[d]|)
  {
    var d := |lists| - 1;
    var more := lists[d := lists[d] + [token]];
    assert Vocabulary(more) == Vocabulary(lists) + {token} by {
      assert more[d][|lists[d]|] == token;
      forall e, i | 0 <= e < |lists| && 0 <= i < |lists[e]| ensures lists[e][i] in Vocabulary(more) {
        assert more[e][i] == lists[e][i];
      }
    }
    forall e | 0 <= e < |lists| && token in lists[e] ensures token in Vocabulary(lists) {
      var i :| 0 <= i < |lists[e]| && lists[e][i] == token;
    }
    forall t | t in Vocabulary(more)
      ensures PostingsOf(more)[t] == AddPosition(PostingsOf(lists), token, d, |lists[d]|)[t]
    {
      OccurrencesExtend(lists, more, token, t);
      PositionsOfMember(token, lists[d]);
      if token !in Vocabulary(lists) {
        assert Occurrences(token, lists) == map[];
      }
    }
  }

  lemma PostingsStart(lists: seq<seq<string>>)
    ensures PostingsOf(lists + [[]]) == PostingsOf(lists)
  {
    var more := lists + [[]];
    assert Vocabulary(more) == Vocabulary(lists) by {
      forall e, i | 0 <= e < |lists| && 0 <= i < |lists[e]| ensures lists[e][i] in Vocabulary(more) {
        assert more[e][i] == lists[e][i];
      }
    }
    forall t | t in Vocabulary(lists) ensures Occurrences(t, more) == Occurrences(t, lists) {
    }
  }

  /** The filters of the first documents, with some facets of document d already entered. */
  ghost function FiltersWith(front: seq<Document>, d: nat, entered: set<(Field, string)>): Filters {
    map facet | facet in AllFacets(front) + entered ::
      (if facet in FiltersOf(front) then FiltersOf(front)[facet] else {}) + (if facet in entered then {d} else {})
  }

  function AddFilter(filters: Filters, f: Field, value: string, d: nat): Filters {
    if value == "" then filters
    else filters[(f, value) := (if (f, value) in filters then filters[(f, value)] else {}) + {d}]
  }

  lemma FiltersKeys(documents: seq<Document>)
    ensures FiltersOf(documents).Keys == AllFacets(documents)
  {
  }

  lemma FiltersWithAdd(front: seq<Document>, d: nat, entered: set<(Field, string)>, f: Field, value: string)
    requires value != ""
    ensures FiltersWith(front, d, entered + {(f, value)}) == AddFilter(FiltersWith(front, d, entered), f, value, d)
  {
    hide AllFacets, FiltersOf;
    assert FiltersOf(front).Keys == AllFacets(front) by { FiltersKeys(front); }
    var before, after := FiltersWith(front, d, entered), FiltersWith(front, d, entered + {(f, value)});
    var facet := (f, value);
    assert after.Keys == before.Keys + {facet};
    assert facet in before ==> after[facet] == before[facet] + {d};
    assert facet !in before ==> after[facet] == {d};
    forall other | other in before && other != facet ensures after[other] == before[other] {}
    assert after == AddFilter(before, f, value, d);
  }

  lemma FiltersWithNothing(front: seq<Document>, d: nat)
    ensures FiltersWith(front, d, {}) == FiltersOf(front)
  {
    FiltersKeys(front);
    hide AllFacets, FiltersOf;
    var none: set<(Field, string)> := {};
    var m, n := FiltersWith(front, d, none), FiltersOf(front);
    assert AllFacets(front) + none == AllFacets(front);
    assert m.Keys == n.Keys;
    forall facet | facet in m ensures m[facet] == n[facet] {
      assert facet in n && m[facet] == n[facet] + {};
    }
  }

  lemma AllFacetsSnoc(front: seq<Document>, document: Document)
    ensures AllFacets(front + [document]) == AllFacets(front) + Facets(document.record)
  {
    var more := front + [document];
    assert more[|front|] == document;
    forall e, facet | 0 <= e < |front| && facet in Facets(front[e].record) ensures facet in AllFacets(more) {
      assert more[e] == front[e];
    }
  }

  ghost function Holding(documents: seq<Document>, facet: (Field, string)): set<nat> {
    set d: nat | 0 <= d < |documents| && facet in Facets(documents[d].record)
  }

  lemma HoldingSnoc(front: seq<Document>, document: Document, facet: (Field, string))
    ensures Holding(front + [document], facet) == Holding(front, facet) + (if facet in Facets(document.record) then {|front|} else {})
  {
    hide Facets;
    var more := front + [document];
    forall e: nat | e < |front| ensures more[e] == front[e] {}
    assert more[|front|] == document;
  }

  lemma FiltersWithAll(front: seq<Document>, document: Document)
    ensures FiltersWith(front, |front|, Facets(document.record)) == FiltersOf(front + [document])
  {
    hide Facets;
    var more := front + [document];
    var m, n := FiltersWith(front, |front|, Facets(document.record)), FiltersOf(more);
    AllFacetsSnoc(front, document);
    assert m.Keys == n.Keys;
    forall facet | facet in m ensures m[facet] == n[facet] {
      HoldingSnoc(front, document, facet);
      assert n[facet] == Holding(more, facet);
      assert facet in AllFacets(front) ==> FiltersOf(front)[facet] == Holding(front, facet);
      if facet !in AllFacets(front) {
        NotHeld(front, facet);
      }
    }
  }

  lemma NotHeld(documents: seq<Document>, facet: (Field, string))
    requires facet !in AllFacets(documents)
    ensures Holding(documents, facet) == {}
  {
  }
}
