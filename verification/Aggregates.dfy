/** Conversation summaries and their algebra: merging is commutative and associative, so the
    summary of a collection of records does not depend on how it was cut up or ordered. */
module Aggregates {
  import opened Basics
  import opened Sorting
  import opened Records

  datatype Aggregate = Aggregate(
    count: int,
    first: Time,
    last: Time,
    agents: set<string>,
    kinds: set<string>)

  type Summary = map<string, Aggregate>

  function Merge(a: Aggregate, b: Aggregate): Aggregate {
    Aggregate(a.count + b.count, Min(a.first, b.first), Max(a.last, b.last), a.agents + b.agents, a.kinds + b.kinds)
  }

  function MergeInto(m: Summary, id: string, a: Aggregate): Summary {
    m[id := if id in m then Merge(m[id], a) else a]
  }

  ghost function Combine(m: Summary, n: Summary): Summary {
    map id | id in m.Keys + n.Keys ::
      if id !in n then m[id] else if id !in m then n[id] else Merge(m[id], n[id])
  }

  lemma MergeLaws(a: Aggregate, b: Aggregate, c: Aggregate)
    ensures Merge(a, b) == Merge(b, a)
    ensures Merge(Merge(a, b), c) == Merge(a, Merge(b, c))
  {
    assert a.agents + b.agents == b.agents + a.agents && a.kinds + b.kinds == b.kinds + a.kinds;
    assert (a.agents + b.agents) + c.agents == a.agents + (b.agents + c.agents);
    assert (a.kinds + b.kinds) + c.kinds == a.kinds + (b.kinds + c.kinds);
  }

  lemma CombineCommutes(a: Summary, b: Summary)
    ensures Combine(a, b) == Combine(b, a)
  {
    forall id | id in a && id in b ensures Merge(a[id], b[id]) == Merge(b[id], a[id]) {
      MergeLaws(a[id], b[id], a[id]);
    }
  }

  lemma CombineAssociates(a: Summary, b: Summary, c: Summary)
    ensures Combine(Combine(a, b), c) == Combine(a, Combine(b, c))
  {
    var left, right := Combine(Combine(a, b), c), Combine(a, Combine(b, c));
    assert left.Keys == right.Keys;
    forall id | id in left ensures left[id] == right[id] {
      if id in a && id in b && id in c { MergeLaws(a[id], b[id], c[id]); }
    }
  }

  lemma CombineEmpty(a: Summary)
    ensures Combine(a, map[]) == a && Combine(map[], a) == a
  {
  }

  lemma CombineExchange(x: Summary, e: Summary, y: Summary)
    ensures Combine(Combine(x, e), y) == Combine(Combine(x, y), e)
  {
    CombineAssociates(x, e, y);
    CombineCommutes(e, y);
    CombineAssociates(x, y, e);
  }

  lemma CombineSingle(m: Summary, id: string, a: Aggregate)
    ensures MergeInto(m, id, a) == Combine(m, map[id := a])
  {
  }

  // ----- The summary of a list of records -----

  /** The agent a record contributes: absent and empty names contribute none. */
  function AgentsOf(r: Record): set<string> {
    if r.agent.Some? && r.agent.value != "" then {r.agent.value} else {}
  }

  function OfRecord(r: Record): Aggregate {
    Aggregate(1, r.occurredAt, r.occurredAt, AgentsOf(r), {r.kind})
  }

  ghost function Summarize(records: seq<Record>): Summary {
    if records == [] then map[]
    else
      var last := records[|records| - 1];
      MergeInto(Summarize(records[..|records| - 1]), last.conversationID, OfRecord(last))
  }

  lemma {:induction false} SummarizeAppend(a: seq<Record>, b: seq<Record>)
    ensures Summarize(a + b) == Combine(Summarize(a), Summarize(b))
  {
    if b == [] {
      assert a + b == a;
      CombineEmpty(Summarize(a));
    } else {
      var front, last := b[..|b| - 1], b[|b| - 1];
      var one := map[last.conversationID := OfRecord(last)];
      assert (a + b)[..|a + b| - 1] == a + front && (a + b)[|a + b| - 1] == last;
      SummarizeAppend(a, front);
      CombineSingle(Summarize(a + front), last.conversationID, OfRecord(last));
      CombineSingle(Summarize(front), last.conversationID, OfRecord(last));
      CombineAssociates(Summarize(a), Summarize(front), one);
    }
  }

  lemma SummarizeInsert(x: seq<Record>, e: seq<Record>, y: seq<Record>, whole: seq<Record>, rest: seq<Record>)
    requires whole == x + e + y && rest == x + y
    ensures Summarize(whole) == Combine(Summarize(rest), Summarize(e))
  {
    SummarizeAppend(x + e, y);
    SummarizeAppend(x, e);
    SummarizeAppend(x, y);
    CombineExchange(Summarize(x), Summarize(e), Summarize(y));
  }

  /** Reordering the records changes nothing. */
  lemma {:induction false} SummarizePermutation(a: seq<Record>, b: seq<Record>)
    requires multiset(a) == multiset(b)
    ensures Summarize(a) == Summarize(b)
    decreases |a|
  {
    MultisetElements(a, b);
    if a != [] {
      hide Summarize, Combine, RemoveAt;
      var i := FindFirst(a, b);
      SummarizePermutation(a[1..], RemoveAt(b, i));
      SummarizeRemove(a, 0);
      SummarizeRemove(b, i);
      RemoveFirst(a);
    }
  }

  lemma SummarizeRemove(s: seq<Record>, i: nat)
    requires i < |s|
    ensures Summarize(s) == Combine(Summarize(RemoveAt(s, i)), Summarize([s[i]]))
  {
    hide Summarize, Combine;
    assert s == s[..i] + [s[i]] + s[i + 1..];
    SummarizeInsert(s[..i], [s[i]], s[i + 1..], s, RemoveAt(s, i));
  }

  lemma RemoveFirst<T>(s: seq<T>)
    requires s != []
    ensures RemoveAt(s, 0) == s[1..]
  {
  }

  // ----- What a summary means, without folding -----

  ghost function About(records: seq<Record>, id: string): seq<Record> {
    Filter(records, (r: Record) => r.conversationID == id)
  }

  ghost function AgentNames(records: seq<Record>): set<string> {
    set r, name | r in records && name in AgentsOf(r) :: name
  }

  ghost function KindNames(records: seq<Record>): set<string> {
    set r | r in records :: r.kind
  }

  ghost predicate DescribesOne(a: Aggregate, records: seq<Record>) {
    && a.count == |records|
    && (forall r | r in records :: a.first <= r.occurredAt <= a.last)
    && (exists r | r in records :: r.occurredAt == a.first)
    && (exists r | r in records :: r.occurredAt == a.last)
    && a.agents == AgentNames(records)
    && a.kinds == KindNames(records)
  }

  /** The independent reading of a summary: exactly the conversations that occur, each with the
      number of its records, its earliest and latest instants, and its agent and kind names. */
  ghost predicate Describes(m: Summary, records: seq<Record>) {
    && m.Keys == (set r | r in records :: r.conversationID)
    && forall id | id in m :: DescribesOne(m[id], About(records, id))
  }

  lemma DescribesSnoc(a: Aggregate, records: seq<Record>, r: Record)
    requires DescribesOne(a, records)
    ensures DescribesOne(Merge(a, OfRecord(r)), records + [r])
  {
    var m, more := Merge(a, OfRecord(r)), records + [r];
    assert AgentNames(more) == AgentNames(records) + AgentsOf(r) by {
      forall x, name | x in more && name in AgentsOf(x) ensures name in AgentNames(records) + AgentsOf(r) {
        assert x in records || x == r;
      }
    }
    assert KindNames(more) == KindNames(records) + {r.kind} by {
      assert r in more;
      forall x | x in records ensures x in more {}
    }
    var lo :| lo in records && lo.occurredAt == a.first;
    var hi :| hi in records && hi.occurredAt == a.last;
    assert lo in more && hi in more && r in more;
  }

  lemma AboutSnoc(front: seq<Record>, r: Record, id: string)
    ensures About(front + [r], id) == About(front, id) + (if r.conversationID == id then [r] else [])
  {
    FilterAppend(front, [r], (x: Record) => x.conversationID == id);
  }

  lemma AboutNone(records: seq<Record>, id: string)
    requires forall r | r in records :: r.conversationID != id
    ensures About(records, id) == []
  {
    FilterNone(records, (r: Record) => r.conversationID == id);
  }

  lemma DescribesSingle(r: Record)
    ensures DescribesOne(OfRecord(r), [r])
  {
    assert r in [r];
    assert AgentNames([r]) == AgentsOf(r);
    assert KindNames([r]) == {r.kind};
  }

  lemma DescribesStep(m: Summary, front: seq<Record>, r: Record, id: string)
    requires Describes(m, front)
    requires id in m || id == r.conversationID
    ensures DescribesOne(MergeInto(m, r.conversationID, OfRecord(r))[id], About(front + [r], id))
  {
    AboutSnoc(front, r, id);
    if id == r.conversationID && id in m {
      DescribesSnoc(m[id], About(front, id), r);
    } else if id == r.conversationID {
      AboutNone(front, id);
      DescribesSingle(r);
    } else {
      assert About(front + [r], id) == About(front, id);
    }
  }

  lemma {:induction false} SummarizeDescribes(records: seq<Record>)
    ensures Describes(Summarize(records), records)
  {
    if records != [] {
      var front, r := records[..|records| - 1], records[|records| - 1];
      assert records == front + [r];
      SummarizeDescribes(front);
      var m := Summarize(front);
      assert (set x | x in records :: x.conversationID) == (set x | x in front :: x.conversationID) + {r.conversationID} by {
        assert r in records;
        forall x | x in front ensures x in records {}
      }
      forall id | id in Summarize(records) ensures DescribesOne(Summarize(records)[id], About(records, id)) {
        DescribesStep(m, front, r, id);
      }
    }
  }

  /** A description leaves no freedom, so Summarize is the only summary there is. */
  lemma DescriptionUnique(m: Summary, n: Summary, records: seq<Record>)
    requires Describes(m, records) && Describes(n, records)
    ensures m == n
  {
    forall id | id in m ensures m[id] == n[id] {
      DescriptionUniqueOne(m[id], n[id], About(records, id));
    }
  }

  lemma DescriptionUniqueOne(a: Aggregate, b: Aggregate, records: seq<Record>)
    requires DescribesOne(a, records) && DescribesOne(b, records)
    ensures a == b
  {
    var lo :| lo in records && lo.occurredAt == a.first;
    var hi :| hi in records && hi.occurredAt == a.last;
    var lo' :| lo' in records && lo'.occurredAt == b.first;
    var hi' :| hi' in records && hi'.occurredAt == b.last;
  }

  // ----- The published listing -----

  datatype Conversation = Conversation(
    id: string,
    recordCount: int,
    firstSeenAt: Time,
    lastSeenAt: Time,
    agents: seq<string>,
    kinds: seq<string>)

  /** Latest first; ties by id. */
  predicate ConversationLess(a: Conversation, b: Conversation) {
    if a.lastSeenAt == b.lastSeenAt then StringLess(a.id, b.id) else b.lastSeenAt < a.lastSeenAt
  }

  ghost function ToConversation(id: string, a: Aggregate): Conversation {
    Conversation(id, a.count, a.first, a.last, SortedKeys(a.agents), SortedKeys(a.kinds))
  }

  function OfConversation(c: Conversation): Aggregate {
    Aggregate(c.recordCount, c.firstSeenAt, c.lastSeenAt, Elements(c.agents), Elements(c.kinds))
  }

  ghost function Rows(m: Summary): set<Conversation> {
    set id | id in m :: ToConversation(id, m[id])
  }

  lemma RowsOrdered(m: Summary)
    ensures TotalOrderOn(ConversationLess, Rows(m))
  {
    forall a, b | a in Rows(m) && b in Rows(m)
      ensures !ConversationLess(a, a)
      ensures a == b || ConversationLess(a, b) || ConversationLess(b, a)
    {
      StringLessIrreflexive(a.id);
      StringLessConnected(a.id, b.id);
    }
    forall a, b, c | a in Rows(m) && b in Rows(m) && c in Rows(m) && ConversationLess(a, b) && ConversationLess(b, c)
      ensures ConversationLess(a, c)
    {
      if a.lastSeenAt == b.lastSeenAt == c.lastSeenAt {
        StringLessTransitive(a.id, b.id, c.id);
      }
    }
  }

  /** The sorted table of a summary: the value of result(-1) and of aggregateConversations(_, -1). */
  ghost function Table(m: Summary): (r: seq<Conversation>)
    ensures Sorted(ConversationLess, r) && Elements(r) == Rows(m)
  {
    var ids := SortedKeys(m.Keys);
    var rows := seq(|ids|, i requires 0 <= i < |ids| => (assert ids[i] in Elements(ids); ToConversation(ids[i], m[ids[i]])));
    SortedKeysDistinct(m.Keys);
    RowsListed(m, ids, rows);
    RowsOrdered(m);
    SortBySorted(rows, ConversationLess);
    SortBy(rows, ConversationLess)
  }

  lemma RowsListed(m: Summary, ids: seq<string>, rows: seq<Conversation>)
    requires Elements(ids) == m.Keys && NoDuplicates(ids)
    requires |rows| == |ids|
    requires forall i | 0 <= i < |ids| :: ids[i] in Elements(ids) && rows[i] == ToConversation(ids[i], m[ids[i]])
    ensures Elements(rows) == Rows(m) && NoDuplicates(rows)
  {
    forall row | row in Rows(m) ensures row in rows {
      var id :| id in m && row == ToConversation(id, m[id]);
      assert id in Elements(ids);
      var i :| 0 <= i < |ids| && ids[i] == id;
      assert rows[i] == row;
    }
  }

  /** Any duplicate-free walk of the rows sorts to the table. */
  lemma TableUnique(m: Summary, rows: seq<Conversation>)
    requires NoDuplicates(rows) && Elements(rows) == Rows(m)
    ensures SortBy(rows, ConversationLess) == Table(m)
  {
    RowsOrdered(m);
    SortByOfSorted(rows, Table(m), ConversationLess);
  }

  /** Zero means one hundred; a negative limit means everything. */
  function Truncate<T>(rows: seq<T>, limit: int): seq<T> {
    var n := if limit == 0 then 100 else limit;
    if n > 0 && |rows| > n then rows[..n] else rows
  }

  ghost function Listing(m: Summary, limit: int): seq<Conversation> {
    Truncate(Table(m), limit)
  }

  /** The latest seen conversation comes first; those last seen at one instant come by id. */
  ghost predicate NewestFirst(rows: seq<Conversation>) {
    forall i, j | 0 <= i < j < |rows| ::
      || rows[i].lastSeenAt > rows[j].lastSeenAt
      || (rows[i].lastSeenAt == rows[j].lastSeenAt && StringLess(rows[i].id, rows[j].id))
  }

  /** A conversation is shown with exactly what the summary says of it. */
  ghost predicate Shown(m: Summary, rows: seq<Conversation>, id: string)
    requires id in m
  {
    exists i ::
      && 0 <= i < |rows| && rows[i].id == id && rows[i].recordCount == m[id].count
      && rows[i].firstSeenAt == m[id].first && rows[i].lastSeenAt == m[id].last
      && Elements(rows[i].agents) == m[id].agents && Elements(rows[i].kinds) == m[id].kinds
  }

  /** A conversation is cut off: every row shown was seen later, or as late with a smaller id. */
  ghost predicate CutOff(m: Summary, rows: seq<Conversation>, id: string)
    requires id in m
  {
    forall i | 0 <= i < |rows| ::
      rows[i].lastSeenAt > m[id].last || (rows[i].lastSeenAt == m[id].last && StringLess(rows[i].id, id))
  }

  /** The listing of a summary, without a word about how it is sorted: rows of the summary's own
      conversations, newest first, as many as there are up to the limit, and only older ones cut off. */
  ghost predicate ListsNewest(m: Summary, rows: seq<Conversation>, limit: int) {
    && NewestFirst(rows) && (forall i | 0 <= i < |rows| :: rows[i].id in m)
    && |rows| == (if limit < 0 then |m| else if limit == 0 then Min(100, |m|) else Min(limit, |m|))
    && forall id | id in m :: Shown(m, rows, id) || CutOff(m, rows, id)
  }

  lemma RowsAreConversations(m: Summary, rows: seq<Conversation>)
    requires Sorted(ConversationLess, rows) && Elements(rows) == Rows(m)
    ensures |rows| == |m|
  {
    RowsOrdered(m);
    SortedHasNoDuplicates(ConversationLess, rows);
    var ids := seq(|rows|, i requires 0 <= i < |rows| => rows[i].id);
    forall i, j | 0 <= i < j < |rows| ensures ids[i] != ids[j] {
      assert rows[i] in Elements(rows) && rows[j] in Elements(rows);
      assert rows[i] != rows[j];
    }
    forall id | id in m ensures id in ids {
      assert ToConversation(id, m[id]) in Elements(rows);
      var i :| 0 <= i < |rows| && rows[i] == ToConversation(id, m[id]);
      assert ids[i] == id;
    }
    forall id | id in ids ensures id in m {
      var i :| 0 <= i < |ids| && ids[i] == id;
      assert rows[i] in Elements(rows);
    }
    assert Elements(ids) == m.Keys;
    DistinctSize(ids);
  }

  lemma ListingNewestFirst(m: Summary, limit: int)
    ensures ListsNewest(m, Listing(m, limit), limit)
  {
    hide SortedKeys, Table, Shown, CutOff, ToConversation;
    var table, rows := Table(m), Listing(m, limit);
    RowsAreConversations(m, table);
    assert NewestFirst(table);
    assert rows == table[..|rows|];
    forall i | 0 <= i < |table| ensures table[i].id in m { RowOf(m, table, i); }
    forall id | id in m ensures Shown(m, rows, id) || CutOff(m, rows, id) { ShownOrCutOff(m, table, rows, id); }
  }

  lemma RowOf(m: Summary, table: seq<Conversation>, i: nat)
    requires Elements(table) == Rows(m) && i < |table|
    ensures table[i].id in m && table[i] == ToConversation(table[i].id, m[table[i].id])
  {
    assert table[i] in Elements(table);
  }

  lemma ShownOrCutOff(m: Summary, table: seq<Conversation>, rows: seq<Conversation>, id: string)
    requires Elements(table) == Rows(m) && NewestFirst(table) && rows <= table && id in m
    ensures Shown(m, rows, id) || CutOff(m, rows, id)
  {
    hide SortedKeys;
    var row := ToConversation(id, m[id]);
    assert row in Elements(table);
    var i :| 0 <= i < |table| && table[i] == row;
    SortedKeysElements(m[id].agents);
    SortedKeysElements(m[id].kinds);
    if i < |rows| { assert rows[i] == row; }
  }

  lemma SortedKeysElements(keys: set<string>)
    ensures Elements(SortedKeys(keys)) == keys
  {
  }

  /** Rebuilding a summary from a table: the value of aggregatesFromConversations. */
  function Restore(rows: seq<Conversation>): Summary {
    if rows == [] then map[]
    else Restore(rows[..|rows| - 1])[rows[|rows| - 1].id := OfConversation(rows[|rows| - 1])]
  }

  lemma {:induction false} RestoreLooksUp(rows: seq<Conversation>, m: Summary)
    requires Elements(rows) <= Rows(m)
    ensures Restore(rows).Keys == (set c | c in rows :: c.id)
    ensures forall id | id in Restore(rows) :: id in m && Restore(rows)[id] == m[id]
  {
    if rows != [] {
      var front, c := rows[..|rows| - 1], rows[|rows| - 1];
      assert rows == front + [c];
      assert c in Elements(rows);
      assert Elements(front) <= Elements(rows);
      RestoreLooksUp(front, m);
    }
  }

  /** A summary survives being published and read back. */
  lemma RestoreTable(m: Summary)
    ensures Restore(Table(m)) == m
  {
    RestoreLooksUp(Table(m), m);
    forall id | id in m ensures id in Restore(Table(m)) {
      assert ToConversation(id, m[id]) in Rows(m);
      assert ToConversation(id, m[id]) in Elements(Table(m));
    }
  }

  // ----- The source's loops -----

  /** Walk a summary in arbitrary order, then sort and cut: the tail of both listing functions. */
  method BuildListing(m: Summary, limit: int) returns (r: seq<Conversation>)
    ensures r == Listing(m, limit)
    ensures ListsNewest(m, r, limit)
  {
    hide SortedKeys, Truncate, Table, ConversationLess, Sorted, ListsNewest;
    var pending := m.Keys;
    ghost var ids: seq<string> := [];
    var rows: seq<Conversation> := [];
    while pending != {}
      invariant pending <= m.Keys && Elements(ids) == m.Keys - pending && NoDuplicates(ids)
      invariant |rows| == |ids|
      invariant forall i | 0 <= i < |ids| :: ids[i] in Elements(ids) && rows[i] == ToConversation(ids[i], m[ids[i]])
      decreases pending
    {
      var id :| id in pending;
      var agents := CollectSortedKeys(m[id].agents);
      var kinds := CollectSortedKeys(m[id].kinds);
      assert id !in Elements(ids);
      assert Elements(ids + [id]) == Elements(ids) + {id};
      ids := ids + [id];
      rows := rows + [Conversation(id, m[id].count, m[id].first, m[id].last, agents, kinds)];
      assert rows[|ids| - 1] == ToConversation(id, m[id]);
      pending := pending - {id};
    }
    RowsListed(m, ids, rows);
    TableUnique(m, rows);
    r := Truncate(SortBy(rows, ConversationLess), limit);
    ListingNewestFirst(m, limit);
  }

  method AggregateConversations(records: seq<Record>, limit: int) returns (r: seq<Conversation>)
    ensures r == Listing(Summarize(records), limit)
    ensures ListsNewest(Summarize(records), r, limit)
  {
    var values: Summary := map[];
    for i := 0 to |records|
      invariant values == Summarize(records[..i])
    {
      var record := records[i];
      var id := record.conversationID;
      var value := if id in values then values[id] else Aggregate(0, record.occurredAt, record.occurredAt, {}, {});
      value := value.(count := value.count + 1);
      if record.occurredAt < value.first { value := value.(first := record.occurredAt); }
      if record.occurredAt > value.last { value := value.(last := record.occurredAt); }
      if record.agent.Some? && record.agent.value != "" { value := value.(agents := value.agents + {record.agent.value}); }
      value := value.(kinds := value.kinds + {record.kind});
      assert value == if id in values then Merge(values[id], OfRecord(record)) else OfRecord(record) by {
        assert AgentsOf(record) + {} == {} + AgentsOf(record) == AgentsOf(record);
        assert id in values ==> values[id].agents + {} == values[id].agents;
      }
      assert records[..i + 1][..i] == records[..i] && records[..i + 1][i] == record;
      values := values[id := value];
    }
    assert records[..|records|] == records;
    r := BuildListing(values, limit);
  }

  method AggregatesFromConversations(rows: seq<Conversation>) returns (values: Summary)
    ensures values == Restore(rows)
  {
    values := map[];
    for i := 0 to |rows|
      invariant values == Restore(rows[..i])
    {
      assert rows[..i + 1][..i] == rows[..i];
      values := values[rows[i].id := OfConversation(rows[i])];
    }
    assert rows[..|rows|] == rows;
  }
}
