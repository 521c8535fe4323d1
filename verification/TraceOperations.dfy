/** Folding a timeline into operations: calls paired with results, assistant chunks merged
    (server/ui/src/lib/trace-operations.ts). */
module TraceOperations {
  import opened Basics
  import opened Sorting

  datatype Value = Text(text: string) | Other(id: nat)

  datatype Content = Object(fields: map<string, Value>) | NotObject

  datatype Entry = Entry(
    id: string, kind: string, tool: Option<string>, traceID: Option<string>, status: Option<string>,
    occurredAt: Time, content: Content)

  datatype Operation = Operation(
    id: string, entries: seq<Entry>, primary: Entry, startedAt: Time, endedAt: Time, duration: Time,
    status: Option<string>, groupedCount: nat)

  const CALL: string := "tool.call"
  const RESULT: string := "tool.result"
  const ASSISTANT: string := "message.assistant"

  function StringField(content: Content, key: string): Option<string> {
    if content.Object? && key in content.fields && content.fields[key].Text? then Some(content.fields[key].text) else None
  }

  function ToolUseID(entry: Entry): Option<string> {
    var first, second := StringField(entry.content, "tool_use_id"), StringField(entry.content, "call_id");
    if first.Some? then first else if second.Some? then second else StringField(entry.content, "id")
  }

  // ----- One operation -----

  function Join(ids: seq<string>): string {
    if ids == [] then [] else if |ids| == 1 then ids[0] else ids[0] + "::" + Join(ids[1..])
  }

  function IDs(entries: seq<Entry>): seq<string> {
    seq(|entries|, i requires 0 <= i < |entries| => entries[i].id)
  }

  /** The non-empty statuses, lower-cased. */
  function Statuses(entries: seq<Entry>, lower: string -> string): seq<string> {
    if entries == [] then []
    else
      (match entries[0].status case Some(s) => (if lower(s) == "" then [] else [lower(s)]) case None => [])
      + Statuses(entries[1..], lower)
  }

  function OperationStatus(entries: seq<Entry>, lower: string -> string): Option<string> {
    var statuses := Statuses(entries, lower);
    if exists s :: s in statuses && s in {"error", "failed", "cancelled"} then Some("error")
    else if statuses == [] then None else Some(statuses[|statuses| - 1])
  }

  function MakeOperation(entries: seq<Entry>, groupedCount: nat, lower: string -> string): Operation
    requires entries != []
  {
    var primary, last := entries[0], entries[|entries| - 1];
    Operation(Join(IDs(entries)), entries, primary, primary.occurredAt, last.occurredAt,
              Max(0, last.occurredAt - primary.occurredAt), OperationStatus(entries, lower), groupedCount)
  }

  // ----- Pairing -----

  predicate SameToolCall(entries: seq<Entry>, call: nat, i: nat)
    requires call < |entries| && i < |entries|
  {
    entries[i].kind == CALL && entries[i].tool == entries[call].tool
  }

  /** Entry i could be the result of the call: by use id, by tool and trace, or by coming next. */
  predicate Fits(entries: seq<Entry>, call: nat, i: nat)
    requires call < i < |entries|
  {
    var callID, candidateID := ToolUseID(entries[call]), ToolUseID(entries[i]);
    && entries[i].kind == RESULT
    && (|| (callID.Some? && callID.value != "" && callID == candidateID)
        || (entries[i].tool == entries[call].tool && entries[i].traceID == entries[call].traceID)
        || i == call + 1)
  }

  /** r is the call's result: it fits, is free, no unclaimed call of the same tool lies between, and
      nothing before it fits. */
  predicate Pairs(entries: seq<Entry>, call: nat, r: nat, consumed: set<nat>)
    requires call < |entries|
  {
    && call < r < |entries| && r !in consumed && Fits(entries, call, r)
    && forall i | call < i < r && i !in consumed :: !SameToolCall(entries, call, i) && !Fits(entries, call, i)
  }

  /** The source's forward search: it finds the result if there is one. */
  method MatchingToolResult(entries: seq<Entry>, call: nat, consumed: set<nat>) returns (r: Option<nat>)
    requires call < |entries|
    ensures r.Some? ==> Pairs(entries, call, r.value, consumed)
    ensures r.None? ==> forall i :: !Pairs(entries, call, i, consumed)
  {
    for index := call + 1 to |entries|
      invariant forall i | call < i < index && i !in consumed :: !SameToolCall(entries, call, i) && !Fits(entries, call, i)
    {
      if index !in consumed {
        var candidate := entries[index];
        if candidate.kind == CALL && candidate.tool == entries[call].tool { return None; }
        if Fits(entries, call, index) { return Some(index); }
      }
    }
    r := None;
  }

  /** A call's result follows it at once, or names its use id, or has its tool and trace; a later entry
      that does none of these is not it. Use ids come from the first of three fields that is a text. */
  lemma FitsMeans(entries: seq<Entry>, call: nat, i: nat)
    requires call < i < |entries|
    ensures entries[i].kind != RESULT ==> !Fits(entries, call, i)
    ensures entries[i].kind == RESULT && i == call + 1 ==> Fits(entries, call, i)
    ensures entries[i].kind == RESULT && entries[i].tool == entries[call].tool && entries[i].traceID == entries[call].traceID ==> Fits(entries, call, i)
    ensures forall id | id != "" && Names(entries[call], id) && Names(entries[i], id) && entries[i].kind == RESULT :: Fits(entries, call, i)
    ensures Fits(entries, call, i) && i != call + 1 && !(entries[i].tool == entries[call].tool && entries[i].traceID == entries[call].traceID) ==>
              exists id :: id != "" && Names(entries[call], id) && Names(entries[i], id)
  {
    if ToolUseID(entries[call]).Some? {
      var id := ToolUseID(entries[call]).value;
      assert Names(entries[call], id);
      assert ToolUseID(entries[i]) == Some(id) ==> Names(entries[i], id);
    }
  }

  predicate HasText(entry: Entry, key: string, text: string) {
    entry.content.Object? && key in entry.content.fields && entry.content.fields[key] == Text(text)
  }

  predicate LacksText(entry: Entry, key: string) {
    entry.content.NotObject? || key !in entry.content.fields || entry.content.fields[key].Other?
  }

  /** The entry carries this use id. */
  predicate Names(entry: Entry, id: string) {
    || HasText(entry, "tool_use_id", id)
    || (LacksText(entry, "tool_use_id") && HasText(entry, "call_id", id))
    || (LacksText(entry, "tool_use_id") && LacksText(entry, "call_id") && HasText(entry, "id", id))
  }

  /** A free result right after a call is always its result. */
  lemma NextResultPairs(entries: seq<Entry>, call: nat, consumed: set<nat>)
    requires call + 1 < |entries| && entries[call + 1].kind == RESULT && call + 1 !in consumed
    ensures Pairs(entries, call, call + 1, consumed)
  {
  }

  lemma PairUnique(entries: seq<Entry>, call: nat, r: nat, r': nat, consumed: set<nat>)
    requires call < |entries| && Pairs(entries, call, r, consumed) && Pairs(entries, call, r', consumed)
    ensures r == r'
  {
  }

  // ----- Merging -----

  /** The positions from ..to hold assistant messages of one trace. */
  predicate AssistantRun(entries: seq<Entry>, from: nat, to: nat) {
    && from < to <= |entries|
    && forall i | from <= i < to :: entries[i].kind == ASSISTANT && entries[i].traceID == entries[from].traceID
  }

  /** The texts of the chunks that have one, in order. */
  function Texts(chunks: seq<Entry>): string {
    if chunks == [] then []
    else
      Texts(chunks[..|chunks| - 1])
      + match StringField(chunks[|chunks| - 1].content, "text") case Some(t) => t case None => []
  }

  /** The first chunk with all the text. */
  function Merged(chunks: seq<Entry>): Entry
    requires chunks != []
  {
    var fields := if chunks[0].content.Object? then chunks[0].content.fields else map[];
    chunks[0].(content := Object(fields["text" := Text(Texts(chunks))]))
  }

  /** Merging loses no text and keeps everything else of the first chunk. */
  lemma {:induction false} TextsAppend(a: seq<Entry>, b: seq<Entry>)
    ensures Texts(a + b) == Texts(a) + Texts(b)
  {
    if b == [] {
      assert a + b == a;
    } else {
      assert (a + b)[..|a + b| - 1] == a + b[..|b| - 1];
      TextsAppend(a, b[..|b| - 1]);
    }
  }

  lemma MergedMeans(chunks: seq<Entry>)
    requires chunks != []
    ensures HasText(Merged(chunks), "text", Texts(chunks))
    ensures forall text | HasText(chunks[0], "text", text) :: Texts(chunks) == text + Texts(chunks[1..])
    ensures LacksText(chunks[0], "text") ==> Texts(chunks) == Texts(chunks[1..])
    ensures Merged(chunks).(content := chunks[0].content) == chunks[0]
    ensures chunks[0].content.Object? ==> forall key | key in chunks[0].content.fields && key != "text" ::
              key in Merged(chunks).content.fields && Merged(chunks).content.fields[key] == chunks[0].content.fields[key]
  {
    var first := chunks[..1];
    assert chunks == first + chunks[1..] && first[..0] == [];
    TextsAppend(first, chunks[1..]);
    assert Texts([]) == [];
  }

  // ----- What an operation shows -----

  predicate Failing(status: string) {
    status == "error" || status == "failed" || status == "cancelled"
  }

  /** An entry's status, lower-cased; an empty one is none. */
  predicate HasStatus(entry: Entry, lower: string -> string, status: string) {
    entry.status.Some? && lower(entry.status.value) == status && status != ""
  }

  lemma {:induction false} StatusesMember(entries: seq<Entry>, lower: string -> string, status: string)
    ensures status in Statuses(entries, lower) <==> exists i :: 0 <= i < |entries| && HasStatus(entries[i], lower, status)
  {
    if entries != [] {
      StatusesMember(entries[1..], lower, status);
      if status in Statuses(entries[1..], lower) {
        var i :| 0 <= i < |entries[1..]| && HasStatus(entries[1..][i], lower, status);
        assert HasStatus(entries[i + 1], lower, status);
      }
      if i :| 0 < i < |entries| && HasStatus(entries[i], lower, status) { assert HasStatus(entries[1..][i - 1], lower, status); }
    }
  }

  lemma {:induction false} LastStatus(entries: seq<Entry>, lower: string -> string, i: nat, status: string)
    requires LastSays(entries, lower, i, status)
    ensures Statuses(entries, lower) != [] && Statuses(entries, lower)[|Statuses(entries, lower)| - 1] == status
  {
    var rest := entries[1..];
    if i == 0 {
      NoStatus(rest, lower);
    } else {
      assert LastSays(rest, lower, i - 1, status);
      LastStatus(rest, lower, i - 1, status);
    }
  }

  lemma {:induction false} NoStatus(entries: seq<Entry>, lower: string -> string)
    requires forall j | 0 <= j < |entries| :: entries[j].status.None? || lower(entries[j].status.value) == ""
    ensures Statuses(entries, lower) == []
  {
    if entries != [] { NoStatus(entries[1..], lower); }
  }

  /** It runs from its first entry to its last, and never for less than nothing. */
  lemma OperationSpan(entries: seq<Entry>, groupedCount: nat, lower: string -> string)
    requires entries != []
    ensures var op := MakeOperation(entries, groupedCount, lower);
            && op.startedAt == entries[0].occurredAt && op.endedAt == entries[|entries| - 1].occurredAt
            && (op.startedAt <= op.endedAt ==> op.duration == op.endedAt - op.startedAt)
            && (op.startedAt > op.endedAt ==> op.duration == 0)
            && (|entries| == 1 ==> op.id == entries[0].id) && (|entries| == 2 ==> op.id == entries[0].id + "::" + entries[1].id)
  {
    hide OperationStatus;
    if |entries| == 2 {
      assert IDs(entries) == [entries[0].id, entries[1].id];
      assert IDs(entries)[1..] == [entries[1].id];
      assert Join([entries[1].id]) == entries[1].id;
    }
  }

  /** Entry i has this status, and no later one has any. */
  predicate LastSays(entries: seq<Entry>, lower: string -> string, i: nat, status: string) {
    && i < |entries| && HasStatus(entries[i], lower, status)
    && forall j | i < j < |entries| :: entries[j].status.None? || lower(entries[j].status.value) == ""
  }

  ghost predicate AnyFailed(entries: seq<Entry>, lower: string -> string) {
    exists i, s :: 0 <= i < |entries| && HasStatus(entries[i], lower, s) && Failing(s)
  }

  /** An operation failed if any of its entries did; otherwise it has the last status one of them has, and
      none if none has. */
  lemma OperationStatusMeans(entries: seq<Entry>, lower: string -> string)
    ensures AnyFailed(entries, lower) ==> OperationStatus(entries, lower) == Some("error")
    ensures forall i: nat, s | LastSays(entries, lower, i, s) && !AnyFailed(entries, lower) :: OperationStatus(entries, lower) == Some(s)
    ensures (forall j | 0 <= j < |entries| :: entries[j].status.None? || lower(entries[j].status.value) == "") ==>
              OperationStatus(entries, lower) == None
  {
    hide Statuses, LastSays, AnyFailed;
    forall s ensures s in Statuses(entries, lower) <==> exists i :: 0 <= i < |entries| && HasStatus(entries[i], lower, s) {
      StatusesMember(entries, lower, s);
    }
    FailedAmong(entries, lower);
    forall i: nat, s | LastSays(entries, lower, i, s)
      ensures Statuses(entries, lower) != [] && Statuses(entries, lower)[|Statuses(entries, lower)| - 1] == s
    {
      LastStatus(entries, lower, i, s);
    }
    if forall j | 0 <= j < |entries| :: entries[j].status.None? || lower(entries[j].status.value) == "" { NoStatus(entries, lower); }
  }

  lemma FailedAmong(entries: seq<Entry>, lower: string -> string)
    ensures AnyFailed(entries, lower) <==> exists s :: s in Statuses(entries, lower) && s in {"error", "failed", "cancelled"}
  {
    hide Statuses;
    if i, s :| 0 <= i < |entries| && HasStatus(entries[i], lower, s) && Failing(s) { StatusesMember(entries, lower, s); }
    if s :| s in Statuses(entries, lower) && s in {"error", "failed", "cancelled"} {
      StatusesMember(entries, lower, s);
      var i :| 0 <= i < |entries| && HasStatus(entries[i], lower, s);
      assert Failing(s);
    }
  }

  // ----- The fold -----

  /** What an operation standing for the input positions ms looks like. */
  ghost predicate Describes(entries: seq<Entry>, op: Operation, ms: seq<nat>, lower: string -> string) {
    && ms != [] && ms[0] < |entries| && (forall m | m in ms :: m < |entries|)
    && op.groupedCount == |ms| && op.primary.id == entries[ms[0]].id && op.startedAt == entries[ms[0]].occurredAt
    && (|| (|ms| == 1 && op == MakeOperation([entries[ms[0]]], 1, lower))
        || IsPair(entries, op, ms, lower)
        || IsMerge(entries, op, ms, lower))
  }

  ghost predicate IsPair(entries: seq<Entry>, op: Operation, ms: seq<nat>, lower: string -> string) {
    && |ms| == 2 && ms[0] < ms[1] < |entries| && entries[ms[0]].kind == CALL
    && Fits(entries, ms[0], ms[1])
    && (forall i: nat | ms[0] < i < ms[1] :: !SameToolCall(entries, ms[0], i))
    && op == MakeOperation([entries[ms[0]], entries[ms[1]]], 2, lower)
  }

  /** A whole run of assistant messages, which does not go on. */
  ghost predicate IsMerge(entries: seq<Entry>, op: Operation, ms: seq<nat>, lower: string -> string) {
    && |ms| > 1 && (forall i | 0 <= i < |ms| :: ms[i] == ms[0] + i)
    && AssistantRun(entries, ms[0], ms[0] + |ms|) && !AssistantRun(entries, ms[0], ms[0] + |ms| + 1)
    && op == MakeOperation([Merged(entries[ms[0]..ms[0] + |ms|])], |ms|, lower)
  }

  /** Nothing that belongs together is left apart: given what the operations before it claimed, a call takes
      the one result it pairs with, and stands alone only when there is none; an assistant message
      stands alone only when none follows. */
  ghost predicate Greedy(entries: seq<Entry>, claimed: set<nat>, ms: seq<nat>) {
    ms != [] && ms[0] < |entries| ==>
      && (entries[ms[0]].kind == CALL && |ms| == 1 ==> forall r :: !Pairs(entries, ms[0], r, claimed))
      && (entries[ms[0]].kind == CALL && |ms| == 2 ==> Pairs(entries, ms[0], ms[1], claimed))
      && (entries[ms[0]].kind == ASSISTANT && |ms| == 1 ==> !AssistantRun(entries, ms[0], ms[0] + 2))
  }

  ghost predicate AllGreedy(entries: seq<Entry>, members: seq<seq<nat>>) {
    forall k | 0 <= k < |members| :: Greedy(entries, Elements(Flat(members[..k])), members[k])
  }

  lemma GreedyMore(entries: seq<Entry>, members: seq<seq<nat>>, ms: seq<nat>)
    requires AllGreedy(entries, members) && Greedy(entries, Elements(Flat(members)), ms)
    ensures AllGreedy(entries, members + [ms])
  {
    hide Greedy;
    var more := members + [ms];
    forall k | 0 <= k < |more| ensures Greedy(entries, Elements(Flat(more[..k])), more[k]) {
      if k < |members| { assert more[..k] == members[..k]; } else { assert more[..k] == members; }
    }
  }

  /** Only what lies ahead of a call matters to its pairing. */
  lemma PairsAhead(entries: seq<Entry>, call: nat, r: nat, a: set<nat>, b: set<nat>)
    requires call < |entries| && forall i: nat | i > call :: i in a <==> i in b
    ensures Pairs(entries, call, r, a) <==> Pairs(entries, call, r, b)
  {
  }

  function Flat(members: seq<seq<nat>>): seq<nat> {
    if members == [] then [] else Flat(members[..|members| - 1]) + members[|members| - 1]
  }

  function SumCounts(operations: seq<Operation>): nat {
    if operations == [] then 0 else SumCounts(operations[..|operations| - 1]) + operations[|operations| - 1].groupedCount
  }

  ghost predicate StartsAscend(members: seq<seq<nat>>) {
    forall k, l | 0 <= k < l < |members| :: members[k] != [] && members[l] != [] && members[k][0] < members[l][0]
  }

  /** The positions below n. */
  function Below(n: nat): (r: set<nat>)
    ensures forall i: nat :: i in r <==> i < n
  {
    if n == 0 then {} else Below(n - 1) + {n - 1}
  }

  lemma {:induction false} BelowSize(n: nat)
    ensures |Below(n)| == n
  {
    if n > 0 { BelowSize(n - 1); }
  }

  /** The running state: operations so far cover what lies behind and what was consumed ahead. */
  ghost predicate Covered(entries: seq<Entry>, operations: seq<Operation>, members: seq<seq<nat>>, covered: set<nat>, lower: string -> string) {
    && |operations| == |members|
    && (forall k | 0 <= k < |members| :: Describes(entries, operations[k], members[k], lower))
    && StartsAscend(members)
    && NoDuplicates(Flat(members)) && Elements(Flat(members)) == covered
    && SumCounts(operations) == |Flat(members)|
  }

  lemma CoverMore(entries: seq<Entry>, operations: seq<Operation>, members: seq<seq<nat>>, covered: set<nat>,
                  op: Operation, ms: seq<nat>, lower: string -> string)
    requires Covered(entries, operations, members, covered, lower) && Describes(entries, op, ms, lower)
    requires NoDuplicates(ms) && Elements(ms) !! covered
    requires forall k | 0 <= k < |members| :: members[k][0] < ms[0]
    ensures Covered(entries, operations + [op], members + [ms], covered + Elements(ms), lower)
  {
    hide Describes;
    var more, all := operations + [op], members + [ms];
    assert more[..|more| - 1] == operations && all[..|all| - 1] == members;
    var before := Flat(members);
    assert Flat(all) == before + ms;
    assert Elements(before + ms) == Elements(before) + Elements(ms);
    forall i, j | 0 <= i < j < |before + ms| ensures (before + ms)[i] != (before + ms)[j] {
      if i < |before| <= j {
        assert before[i] in Elements(before) && ms[j - |before|] in Elements(ms);
      }
    }
    assert op.groupedCount == |ms| by { DescribesCount(entries, op, ms, lower); }
    forall k | 0 <= k < |all| ensures all[k] != [] { DescribesCount(entries, more[k], all[k], lower); }
  }

  lemma DescribesCount(entries: seq<Entry>, op: Operation, ms: seq<nat>, lower: string -> string)
    requires Describes(entries, op, ms, lower)
    ensures op.groupedCount == |ms| && ms != []
  {
  }

  /** The chunks that continue an assistant message: the longest run. */
  method CollectChunks(entries: seq<Entry>, from: nat) returns (next: nat)
    requires from < |entries| && entries[from].kind == ASSISTANT
    ensures AssistantRun(entries, from, next) && !AssistantRun(entries, from, next + 1)
  {
    next := from + 1;
    while next < |entries| && entries[next].kind == ASSISTANT && entries[next].traceID == entries[from].traceID
      invariant AssistantRun(entries, from, next)
    {
      next := next + 1;
    }
  }

  function Run(from: nat, to: nat): (r: seq<nat>)
    requires from <= to
    ensures |r| == to - from && forall i | 0 <= i < |r| :: r[i] == from + i
  {
    seq(to - from, i requires 0 <= i < to - from => from + i)
  }

  /** The loop invariant of the fold at a position: what is covered, where operations start, and what
      consumed may hold ahead: results, or the rest of a merged run. */
  ghost predicate Folding(entries: seq<Entry>, operations: seq<Operation>, members: seq<seq<nat>>, consumed: set<nat>,
                          index: nat, mergedTo: nat, lower: string -> string) {
    && index <= |entries|
    && Covered(entries, operations, members, Below(index) + consumed, lower) && AllGreedy(entries, members)
    && StartsBelow(members, index) && Ahead(entries, consumed, index, mergedTo)
  }

  ghost predicate StartsBelow(members: seq<seq<nat>>, index: nat) {
    forall k | 0 <= k < |members| :: members[k] != [] && members[k][0] < index
  }

  ghost predicate Ahead(entries: seq<Entry>, consumed: set<nat>, index: nat, mergedTo: nat) {
    && (forall i | i in consumed && i >= index :: i < |entries| && (entries[i].kind == RESULT || i < mergedTo))
    && (forall i: nat | index <= i < mergedTo :: i in consumed)
  }

  /** Fold a timeline into operations; members lists the input positions each one stands for. Every
      entry belongs to exactly one operation, the counts add up to the number of entries, and the
      operations start in input order. */
  method BuildTraceOperations(entries: seq<Entry>, lower: string -> string) returns (operations: seq<Operation>, members: seq<seq<nat>>)
    ensures |operations| == |members|
    ensures forall k | 0 <= k < |members| :: Describes(entries, operations[k], members[k], lower)
    ensures NoDuplicates(Flat(members)) && Elements(Flat(members)) == Below(|entries|)
    ensures StartsAscend(members)
    ensures SumCounts(operations) == |entries|
    ensures AllGreedy(entries, members)
  {
    operations, members := [], [];
    var consumed: set<nat> := {};
    ghost var mergedTo := 0;
    NothingFolded(entries, lower);
    hide Describes, Folding;
    for index := 0 to |entries|
      invariant Folding(entries, operations, members, consumed, index, mergedTo, lower)
    {
      if index in consumed {
        FoldSkip(entries, operations, members, consumed, index, mergedTo, lower);
        continue;
      }
      var entry := entries[index];
      if entry.kind == CALL {
        var result := MatchingToolResult(entries, index, consumed);
        if result.Some? {
          FoldPair(entries, operations, members, consumed, index, result.value, mergedTo, lower);
          consumed := consumed + {result.value};
          operations := operations + [MakeOperation([entry, entries[result.value]], 2, lower)];
          members := members + [[index, result.value]];
          continue;
        }
      }
      if entry.kind == ASSISTANT {
        var next := CollectChunks(entries, index);
        if next > index + 1 {
          FoldMerge(entries, operations, members, consumed, index, next, mergedTo, lower);
          consumed := consumed + Elements(Run(index + 1, next));
          operations := operations + [MakeOperation([Merged(entries[index..next])], next - index, lower)];
          members := members + [Run(index, next)];
          mergedTo := next;
          continue;
        }
      }
      FoldSingle(entries, operations, members, consumed, index, mergedTo, lower);
      operations, members := operations + [MakeOperation([entry], 1, lower)], members + [[index]];
    }
    FoldEnds(entries, operations, members, consumed, mergedTo, lower);
  }

  lemma NothingFolded(entries: seq<Entry>, lower: string -> string)
    ensures Folding(entries, [], [], {}, 0, 0, lower)
  {
    assert Below(0) + {} == {};
  }

  lemma FoldSkip(entries: seq<Entry>, operations: seq<Operation>, members: seq<seq<nat>>, consumed: set<nat>,
                 index: nat, mergedTo: nat, lower: string -> string)
    requires Folding(entries, operations, members, consumed, index, mergedTo, lower) && index < |entries| && index in consumed
    ensures Folding(entries, operations, members, consumed, index + 1, mergedTo, lower)
  {
    hide Covered;
    assert Below(index + 1) + consumed == Below(index) + consumed;
  }

  lemma FoldSingle(entries: seq<Entry>, operations: seq<Operation>, members: seq<seq<nat>>, consumed: set<nat>,
                   index: nat, mergedTo: nat, lower: string -> string)
    requires Folding(entries, operations, members, consumed, index, mergedTo, lower) && index < |entries| && index !in consumed
    requires entries[index].kind == CALL ==> forall r :: !Pairs(entries, index, r, consumed)
    requires entries[index].kind == ASSISTANT ==> !AssistantRun(entries, index, index + 2)
    ensures Folding(entries, operations + [MakeOperation([entries[index]], 1, lower)], members + [[index]], consumed, index + 1, mergedTo, lower)
  {
    hide Covered, Describes, MakeOperation, AllGreedy, Flat, Ahead, Pairs, AssistantRun;
    CoveredElements(entries, operations, members, Below(index) + consumed, lower);
    SingleIsGreedy(entries, members, consumed, index);
    NextAhead(entries, consumed, index, mergedTo);
    var op := MakeOperation([entries[index]], 1, lower);
    SingleDescribed(entries, op, index, lower);
    assert Elements([index]) == {index};
    CoverMore(entries, operations, members, Below(index) + consumed, op, [index], lower);
    assert Below(index + 1) + consumed == Below(index) + consumed + {index};
  }

  lemma NextAhead(entries: seq<Entry>, consumed: set<nat>, index: nat, mergedTo: nat)
    requires Ahead(entries, consumed, index, mergedTo)
    ensures Ahead(entries, consumed, index + 1, mergedTo)
  {
  }

  lemma SingleIsGreedy(entries: seq<Entry>, members: seq<seq<nat>>, consumed: set<nat>, index: nat)
    requires AllGreedy(entries, members) && Elements(Flat(members)) == Below(index) + consumed && index < |entries|
    requires entries[index].kind == CALL ==> forall r :: !Pairs(entries, index, r, consumed)
    requires entries[index].kind == ASSISTANT ==> !AssistantRun(entries, index, index + 2)
    ensures AllGreedy(entries, members + [[index]])
  {
    forall r ensures Pairs(entries, index, r, Below(index) + consumed) <==> Pairs(entries, index, r, consumed) {
      PairsAhead(entries, index, r, Below(index) + consumed, consumed);
    }
    hide AllGreedy, Pairs, Flat;
    GreedyMore(entries, members, [index]);
  }

  lemma FoldPair(entries: seq<Entry>, operations: seq<Operation>, members: seq<seq<nat>>, consumed: set<nat>,
                 index: nat, r: nat, mergedTo: nat, lower: string -> string)
    requires Folding(entries, operations, members, consumed, index, mergedTo, lower) && index < |entries| && index !in consumed
    requires entries[index].kind == CALL && Pairs(entries, index, r, consumed)
    ensures Folding(entries, operations + [MakeOperation([entries[index], entries[r]], 2, lower)], members + [[index, r]],
                    consumed + {r}, index + 1, mergedTo, lower)
  {
    hide Covered, Describes, MakeOperation, AllGreedy, Flat, Ahead, Pairs;
    CoveredElements(entries, operations, members, Below(index) + consumed, lower);
    PairIsGreedy(entries, members, consumed, index, r);
    PairAhead(entries, consumed, index, r, mergedTo);
    var op := MakeOperation([entries[index], entries[r]], 2, lower);
    PairDescribed(entries, op, index, r, consumed, mergedTo, lower);
    assert Elements([index, r]) == {index, r};
    CoverMore(entries, operations, members, Below(index) + consumed, op, [index, r], lower);
    assert Below(index + 1) + (consumed + {r}) == Below(index) + consumed + {index, r};
  }

  lemma CoveredElements(entries: seq<Entry>, operations: seq<Operation>, members: seq<seq<nat>>, covered: set<nat>, lower: string -> string)
    requires Covered(entries, operations, members, covered, lower)
    ensures Elements(Flat(members)) == covered
  {
  }

  lemma PairAhead(entries: seq<Entry>, consumed: set<nat>, index: nat, r: nat, mergedTo: nat)
    requires Ahead(entries, consumed, index, mergedTo) && index < r < |entries| && entries[r].kind == RESULT
    ensures Ahead(entries, consumed + {r}, index + 1, mergedTo)
  {
  }

  lemma MergeAhead(entries: seq<Entry>, consumed: set<nat>, index: nat, next: nat, mergedTo: nat, chunks: set<nat>)
    requires Ahead(entries, consumed, index, mergedTo) && index !in consumed && index < next <= |entries|
    requires forall i: nat :: i in chunks <==> index < i < next
    ensures Ahead(entries, consumed + chunks, index + 1, next)
  {
  }

  lemma FoldMerge(entries: seq<Entry>, operations: seq<Operation>, members: seq<seq<nat>>, consumed: set<nat>,
                  index: nat, next: nat, mergedTo: nat, lower: string -> string)
    requires Folding(entries, operations, members, consumed, index, mergedTo, lower) && index < |entries| && index !in consumed
    requires index + 1 < next && AssistantRun(entries, index, next) && !AssistantRun(entries, index, next + 1)
    ensures Folding(entries, operations + [MakeOperation([Merged(entries[index..next])], next - index, lower)], members + [Run(index, next)],
                    consumed + Elements(Run(index + 1, next)), index + 1, next, lower)
  {
    var chunks := RunElements(index, next);
    RunIsGreedy(entries, members, index, next);
    MergeAhead(entries, consumed, index, next, mergedTo, chunks);
    RunUncovered(entries, consumed, index, next, mergedTo);
    hide Covered, Describes, MakeOperation, Merged, AllGreedy, Flat, AssistantRun, Ahead;
    var op := MakeOperation([Merged(entries[index..next])], next - index, lower);
    MergeDescribed(entries, op, index, next, lower);
    RunDistinct(index, next);
    CoverMore(entries, operations, members, Below(index) + consumed, op, Run(index, next), lower);
    assert Below(index + 1) + (consumed + chunks) == Below(index) + consumed + ({index} + chunks);
  }

  lemma RunUncovered(entries: seq<Entry>, consumed: set<nat>, index: nat, next: nat, mergedTo: nat)
    requires Ahead(entries, consumed, index, mergedTo) && index !in consumed && AssistantRun(entries, index, next)
    ensures Elements(Run(index, next)) !! Below(index) + consumed
  {
    assert mergedTo <= index;
    assert RESULT != ASSISTANT by { assert |RESULT| != |ASSISTANT|; }
  }

  lemma FoldEnds(entries: seq<Entry>, operations: seq<Operation>, members: seq<seq<nat>>, consumed: set<nat>,
                 mergedTo: nat, lower: string -> string)
    requires Folding(entries, operations, members, consumed, |entries|, mergedTo, lower)
    ensures |operations| == |members| && forall k | 0 <= k < |members| :: Describes(entries, operations[k], members[k], lower)
    ensures NoDuplicates(Flat(members)) && Elements(Flat(members)) == Below(|entries|)
    ensures StartsAscend(members) && SumCounts(operations) == |entries| && AllGreedy(entries, members)
  {
    hide AllGreedy;
    AllCovered(entries, operations, members, consumed, lower);
  }

  lemma PairIsGreedy(entries: seq<Entry>, members: seq<seq<nat>>, consumed: set<nat>, index: nat, r: nat)
    requires AllGreedy(entries, members) && Elements(Flat(members)) == Below(index) + consumed
    requires index < |entries| && Pairs(entries, index, r, consumed)
    ensures AllGreedy(entries, members + [[index, r]]) && r < |entries| && entries[r].kind == RESULT && index < r && r !in consumed
  {
    PairsAhead(entries, index, r, Below(index) + consumed, consumed);
    hide AllGreedy, Pairs, Flat;
    assert Greedy(entries, Elements(Flat(members)), [index, r]);
    GreedyMore(entries, members, [index, r]);
  }

  lemma RunIsGreedy(entries: seq<Entry>, members: seq<seq<nat>>, from: nat, to: nat)
    requires AllGreedy(entries, members) && from + 1 < to && AssistantRun(entries, from, to)
    ensures AllGreedy(entries, members + [Run(from, to)]) && to <= |entries|
  {
    hide AllGreedy, Flat;
    assert CALL != ASSISTANT by { assert |CALL| != |ASSISTANT|; }
    assert Greedy(entries, Elements(Flat(members)), Run(from, to));
    GreedyMore(entries, members, Run(from, to));
  }

  lemma RunElements(from: nat, to: nat) returns (chunks: set<nat>)
    requires from < to
    ensures chunks == Elements(Run(from + 1, to)) && Elements(Run(from, to)) == {from} + chunks
    ensures forall i: nat :: i in chunks <==> from < i < to
  {
    var later := Run(from + 1, to);
    chunks := Elements(later);
    assert Run(from, to) == [from] + later;
    forall i: nat | from < i < to ensures i in later { assert later[i - from - 1] == i; }
  }

  lemma RunDistinct(from: nat, to: nat)
    requires from <= to
    ensures NoDuplicates(Run(from, to))
  {
  }

  lemma SingleDescribed(entries: seq<Entry>, op: Operation, index: nat, lower: string -> string)
    requires index < |entries| && op == MakeOperation([entries[index]], 1, lower)
    ensures Describes(entries, op, [index], lower)
  {
  }

  lemma PairDescribed(entries: seq<Entry>, op: Operation, call: nat, r: nat, consumed: set<nat>, mergedTo: nat, lower: string -> string)
    requires call < |entries| && entries[call].kind == CALL && Pairs(entries, call, r, consumed)
    requires Ahead(entries, consumed, call, mergedTo) && call !in consumed
    requires op == MakeOperation([entries[call], entries[r]], 2, lower)
    ensures Describes(entries, op, [call, r], lower)
  {
    assert mergedTo <= call;
    forall i: nat | call < i < r ensures !SameToolCall(entries, call, i) {
      if i in consumed { assert entries[i].kind == RESULT; }
    }
  }

  lemma MergeDescribed(entries: seq<Entry>, op: Operation, from: nat, to: nat, lower: string -> string)
    requires from + 1 < to && AssistantRun(entries, from, to) && !AssistantRun(entries, from, to + 1)
    requires op == MakeOperation([Merged(entries[from..to])], to - from, lower)
    ensures Describes(entries, op, Run(from, to), lower)
  {
  }

  lemma AllCovered(entries: seq<Entry>, operations: seq<Operation>, members: seq<seq<nat>>, consumed: set<nat>, lower: string -> string)
    requires Covered(entries, operations, members, Below(|entries|) + consumed, lower)
    ensures |operations| == |members| && forall k | 0 <= k < |members| :: Describes(entries, operations[k], members[k], lower)
    ensures NoDuplicates(Flat(members)) && Elements(Flat(members)) == Below(|entries|)
    ensures StartsAscend(members) && SumCounts(operations) == |entries|
  {
    forall i | i in Flat(members) ensures i < |entries| { InSomeMember(entries, operations, members, i, lower); }
    assert forall i | i in consumed :: i in Elements(Flat(members));
    assert Elements(Flat(members)) == Below(|entries|);
    DistinctSize(Flat(members));
    BelowSize(|entries|);
  }

  lemma {:induction false} InSomeMember(entries: seq<Entry>, operations: seq<Operation>, members: seq<seq<nat>>, i: nat, lower: string -> string)
    requires |operations| == |members| && forall k | 0 <= k < |members| :: Describes(entries, operations[k], members[k], lower)
    requires i in Flat(members)
    ensures i < |entries|
  {
    var n := |members| - 1;
    if i in members[n] {
      assert Describes(entries, operations[n], members[n], lower);
    } else {
      InSomeMember(entries, operations[..n], members[..n], i, lower);
    }
  }

  // ----- What the partition means for pairs -----

  lemma {:induction false} FlatHas(members: seq<seq<nat>>, k: nat, x: nat) returns (p: nat)
    requires k < |members| && x < |members[k]|
    ensures p < |Flat(members)| && Flat(members)[p] == members[k][x]
    ensures |Flat(members[..k])| <= p == |Flat(members[..k])| + x < |Flat(members[..k + 1])|
  {
    var n := |members| - 1;
    assert members[..k + 1][..k] == members[..k];
    if k == n {
      assert members[..k + 1] == members;
      p := |Flat(members[..n])| + x;
    } else {
      p := FlatHas(members[..n], k, x);
      assert members[..n][..k] == members[..k] && members[..n][..k + 1] == members[..k + 1];
    }
  }

  lemma {:induction false} FlatGrows(members: seq<seq<nat>>, k: nat, l: nat)
    requires k <= l <= |members|
    ensures |Flat(members[..k])| <= |Flat(members[..l])|
    decreases l
  {
    if k < l {
      assert members[..l][..l - 1] == members[..l - 1];
      FlatGrows(members, k, l - 1);
    }
  }

  /** No position serves two operations, or one operation twice: in particular a result is claimed
      by one call only. */
  lemma ClaimedOnce(members: seq<seq<nat>>, k: nat, x: nat, l: nat, y: nat)
    requires NoDuplicates(Flat(members))
    requires k < |members| && x < |members[k]| && l < |members| && y < |members[l]|
    requires members[k][x] == members[l][y]
    ensures k == l && x == y
  {
    var p := FlatHas(members, k, x);
    var q := FlatHas(members, l, y);
    assert p == q;
    if k < l { FlatGrows(members, k + 1, l); }
    if l < k { FlatGrows(members, l + 1, k); }
  }
}
