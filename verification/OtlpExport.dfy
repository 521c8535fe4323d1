/** Exporting OpenTelemetry spans: identities, grouping into segments, and retries
    (ingest/otlp/otlp.go). */
module OtlpExport {
  import opened Basics
  import opened Sorting
  import opened Records
  import opened Aggregates
  import opened ObjectStore
  import opened Projection
  import opened ConversationView
  import opened AppendBatch
  import opened HistoryWrites

  const MAX_SEGMENT_RECORDS: nat := 1000

  /** 1970-01-01T00:00:00Z, in nanoseconds from the zero instant. */
  const UNIX_EPOCH: Time := 62135596800_000_000_000

  /** A span with what its resource and scope contribute already merged in. content is the encoded
      evidence, missing when it cannot be encoded; session the first conversation attribute, or
      empty. */
  datatype Span = Span(
    traceID: seq<Octet>, spanID: seq<Octet>, parentID: seq<Octet>, session: string, kind: string, content: Option<Bytes>,
    start: nat, end: nat, agent: string, tool: string, status: string, tags: map<string, string>)

  datatype Rejection = InvalidIdentity | InvalidParent | Unencodable

  // ----- Identities -----

  type Octet = n: nat | n < 256

  function HexDigit(n: nat): (r: char)
    requires n < 16
    ensures Alphanumeric(r)
  {
    if n < 10 then ('0' as int + n) as char else ('a' as int + n - 10) as char
  }

  function HexByte(b: Octet): (r: string)
    ensures |r| == 2 && Alphanumeric(r[0]) && Alphanumeric(r[1])
  {
    [HexDigit(b / 16), HexDigit(b % 16)]
  }

  function Hex(bytes: seq<Octet>): (r: string)
    ensures |r| == 2 * |bytes|
    ensures forall c | c in r :: Alphanumeric(c)
  {
    if bytes == [] then [] else HexByte(bytes[0]) + Hex(bytes[1..])
  }

  lemma HexByteInjective(a: Octet, b: Octet)
    requires HexByte(a) == HexByte(b)
    ensures a == b
  {
    assert HexDigit(a / 16) == HexByte(a)[0] == HexByte(b)[0] == HexDigit(b / 16);
    assert HexDigit(a % 16) == HexByte(a)[1] == HexByte(b)[1] == HexDigit(b % 16);
  }

  lemma {:induction false} HexInjective(a: seq<Octet>, b: seq<Octet>)
    requires Hex(a) == Hex(b)
    ensures a == b
  {
    if a != [] && b != [] {
      assert Hex(a)[..2] == HexByte(a[0]) && Hex(b)[..2] == HexByte(b[0]);
      assert Hex(a)[2..] == Hex(a[1..]) && Hex(b)[2..] == Hex(b[1..]);
      HexByteInjective(a[0], b[0]);
      HexInjective(a[1..], b[1..]);
      assert a == [a[0]] + a[1..] && b == [b[0]] + b[1..];
    }
  }

  function RecordID(traceID: seq<Octet>, spanID: seq<Octet>): string {
    "otel_" + Hex(traceID) + "_" + Hex(spanID)
  }

  /** Spans have the same record id exactly when they have the same trace and span ids. */
  lemma RecordIDIdentifies(t: seq<Octet>, s: seq<Octet>, t': seq<Octet>, s': seq<Octet>)
    requires |t| == |t'| == 16 && |s| == |s'| == 8
    ensures RecordID(t, s) == RecordID(t', s') <==> t == t' && s == s'
    ensures ValidID(RecordID(t, s))
  {
    var a, b := RecordID(t, s), RecordID(t', s');
    assert a[5..37] == Hex(t) && a[38..] == Hex(s);
    assert b[5..37] == Hex(t') && b[38..] == Hex(s');
    if a == b {
      HexInjective(t, t');
      HexInjective(s, s');
    }
    forall i | 0 <= i < |a| ensures Alphanumeric(a[i]) || a[i] in "._:@/-" {
      if 5 <= i < 37 { assert a[i] == Hex(t)[i - 5]; }
      if 38 <= i { assert a[i] == Hex(s)[i - 38]; }
    }
  }

  /** The exporter's own test of a caller's conversation id. */
  method ValidExternalID(value: string) returns (valid: bool)
    ensures valid <==> ValidID(value)
  {
    if |value| == 0 || |value| > 255 { return false; }
    for i := 0 to |value|
      invariant forall j | 0 <= j < i :: Alphanumeric(value[j]) || (j > 0 && value[j] in "._:@/-")
    {
      var c := value[i];
      if !(Alphanumeric(c) || c in "._:@/-") || (i == 0 && !Alphanumeric(c)) { return false; }
    }
    valid := true;
  }

  /** hashed renders the SHA-256 of a string in hex: 64 hex digits. */
  ghost predicate HashLawful(hashed: string -> string) {
    forall v :: |hashed(v)| == 64 && forall i | 0 <= i < 64 :: Alphanumeric(hashed(v)[i])
  }

  function ConversationID(session: string, traceID: seq<Octet>, hashed: string -> string): string {
    if session == "" then "trace_" + Hex(traceID)
    else if ValidID(session) then session
    else "conv_otel_" + hashed(session)
  }

  /** Whatever the attributes say, History accepts the conversation id. */
  lemma ConversationIDValid(session: string, traceID: seq<Octet>, hashed: string -> string)
    requires HashLawful(hashed) && |traceID| == 16
    ensures ValidID(ConversationID(session, traceID, hashed))
  {
    var id := ConversationID(session, traceID, hashed);
    if session == "" {
      forall i | 1 <= i < |id| ensures Alphanumeric(id[i]) || id[i] in "._:@/-" {
        if i >= 6 { assert id[i] == Hex(traceID)[i - 6]; }
      }
    } else if !ValidID(session) {
      forall i | 1 <= i < |id| ensures Alphanumeric(id[i]) || id[i] in "._:@/-" {
        if i >= 10 { assert id[i] == hashed(session)[i - 10]; }
      }
    }
  }

  function Optional(value: string): Option<string> {
    if value == "" then None else Some(value)
  }

  function UnixNano(value: nat): Option<Time> {
    if value == 0 || value > 0x7fff_ffff_ffff_ffff then None else Some(UNIX_EPOCH + value)
  }

  function NormalizeSpan(span: Option<Span>, hashed: string -> string): Result<AppendInput, Rejection> {
    if span.None? || |span.value.traceID| != 16 || |span.value.spanID| != 8 then Err(InvalidIdentity)
    else
      var s := span.value;
      if |s.parentID| != 0 && |s.parentID| != 8 then Err(InvalidParent)
      else if s.content.None? then Err(Unencodable)
      else
        Ok(AppendInput(
          RecordID(s.traceID, s.spanID), ConversationID(s.session, s.traceID, hashed), s.kind, s.content.value,
          if UnixNano(s.start).Some? then UnixNano(s.start) else UnixNano(s.end), None,
          Some("trace_" + Hex(s.traceID)), Some("span_" + Hex(s.spanID)),
          if |s.parentID| == 8 then Some("span_" + Hex(s.parentID)) else None,
          Optional(s.agent), Optional(s.tool), Optional(s.status), s.tags))
  }

  /** Why a span is rejected, and what a valid one becomes: it keeps its own fields, empty ones left out, and
      happens when it started, or ended if no start is usable. */
  lemma SpanMeans(span: Option<Span>, hashed: string -> string)
    ensures NormalizeSpan(span, hashed) == Err(InvalidIdentity) <==> span.None? || |span.value.traceID| != 16 || |span.value.spanID| != 8
    ensures NormalizeSpan(span, hashed) == Err(InvalidParent) <==>
              span.Some? && |span.value.traceID| == 16 && |span.value.spanID| == 8 && |span.value.parentID| !in {0, 8}
    ensures NormalizeSpan(span, hashed).Ok? ==>
              var s, input := span.value, NormalizeSpan(span, hashed).value;
              && (s.session != "" && ValidID(s.session) ==> input.conversationID == s.session)
              && Some(input.content) == s.content && input.kind == s.kind && input.tags == s.tags && input.sequence == None
              && (input.agent == None <==> s.agent == "") && (input.agent.Some? ==> input.agent.value == s.agent)
              && (input.tool == None <==> s.tool == "") && (input.tool.Some? ==> input.tool.value == s.tool)
              && (input.status == None <==> s.status == "") && (input.status.Some? ==> input.status.value == s.status)
              && (0 < s.start < 0x8000_0000_0000_0000 ==> input.occurredAt == Some(UNIX_EPOCH + s.start))
              && (!(0 < s.start < 0x8000_0000_0000_0000) && 0 < s.end < 0x8000_0000_0000_0000 ==> input.occurredAt == Some(UNIX_EPOCH + s.end))
              && (!(0 < s.start < 0x8000_0000_0000_0000) && !(0 < s.end < 0x8000_0000_0000_0000) ==> input.occurredAt == None)
              && (input.parentID == None <==> s.parentID == [])
  {
  }

  /** Spans of one session share a conversation, whatever their traces; spans without one do so exactly when
      they share a trace. A valid session names its conversation (SpanMeans). */
  lemma ConversationShared(a: Span, b: Span, hashed: string -> string)
    requires NormalizeSpan(Some(a), hashed).Ok? && NormalizeSpan(Some(b), hashed).Ok?
    ensures var x, y := NormalizeSpan(Some(a), hashed).value, NormalizeSpan(Some(b), hashed).value;
            && (a.session == b.session != "" ==> x.conversationID == y.conversationID)
            && (a.session == b.session == "" ==> (x.conversationID == y.conversationID <==> a.traceID == b.traceID))
            && (a.session != b.session && ValidID(a.session) && ValidID(b.session) ==> x.conversationID != y.conversationID)
  {
    if Hex(a.traceID) == Hex(b.traceID) { HexInjective(a.traceID, b.traceID); }
    var x, y := "trace_" + Hex(a.traceID), "trace_" + Hex(b.traceID);
    assert x[6..] == Hex(a.traceID) && y[6..] == Hex(b.traceID);
  }

  /** A span's parent id is the span id of exactly the spans it names as its parent, and trace ids agree exactly
      for one trace. */
  lemma ParentLinks(child: Span, parent: Span, hashed: string -> string)
    requires NormalizeSpan(Some(child), hashed).Ok? && NormalizeSpan(Some(parent), hashed).Ok?
    ensures var x, y := NormalizeSpan(Some(child), hashed).value, NormalizeSpan(Some(parent), hashed).value;
            && y.spanID.Some? && y.traceID.Some?
            && (x.parentID == y.spanID <==> child.parentID == parent.spanID)
            && (x.traceID == y.traceID <==> child.traceID == parent.traceID)
  {
    var a, b := "span_" + Hex(child.parentID), "span_" + Hex(parent.spanID);
    assert a[5..] == Hex(child.parentID) && b[5..] == Hex(parent.spanID);
    if a == b { HexInjective(child.parentID, parent.spanID); }
    var x, y := "trace_" + Hex(child.traceID), "trace_" + Hex(parent.traceID);
    assert x[6..] == Hex(child.traceID) && y[6..] == Hex(parent.traceID);
    if x == y { HexInjective(child.traceID, parent.traceID); }
  }

  /** The inputs of the valid spans, in order. */
  function Inputs(spans: seq<Option<Span>>, hashed: string -> string): seq<AppendInput> {
    if spans == [] then []
    else
      Inputs(spans[..|spans| - 1], hashed)
      + match NormalizeSpan(spans[|spans| - 1], hashed) case Ok(input) => [input] case Err(_) => []
  }

  /** The rejections of the others, in order. */
  function Rejections(spans: seq<Option<Span>>, hashed: string -> string): seq<Rejection> {
    if spans == [] then []
    else
      Rejections(spans[..|spans| - 1], hashed)
      + match NormalizeSpan(spans[|spans| - 1], hashed) case Ok(_) => [] case Err(why) => [why]
  }

  /** Each span is one or the other. */
  lemma {:induction false} ValidOrRejected(spans: seq<Option<Span>>, hashed: string -> string)
    ensures |Inputs(spans, hashed)| + |Rejections(spans, hashed)| == |spans|
  {
    if spans != [] { ValidOrRejected(spans[..|spans| - 1], hashed); }
  }

  function Flatten<T>(groups: seq<seq<T>>): seq<T> {
    if groups == [] then [] else Flatten(groups[..|groups| - 1]) + groups[|groups| - 1]
  }

  // ----- The batches an export commits -----

  predicate ByRecordID(a: AppendInput, b: AppendInput) {
    StringLess(a.recordID, b.recordID)
  }

  function Of(inputs: seq<AppendInput>, c: string): seq<AppendInput> {
    Filter(inputs, (i: AppendInput) => i.conversationID == c)
  }

  function Conversations(inputs: seq<AppendInput>): set<string> {
    set i | i in inputs :: i.conversationID
  }

  function Chunks(inputs: seq<AppendInput>): seq<seq<AppendInput>> {
    if inputs == [] then []
    else if |inputs| <= MAX_SEGMENT_RECORDS then [inputs]
    else [inputs[..MAX_SEGMENT_RECORDS]] + Chunks(inputs[MAX_SEGMENT_RECORDS..])
  }

  function BatchesFor(conversations: seq<string>, inputs: seq<AppendInput>): seq<seq<AppendInput>> {
    if conversations == [] then []
    else
      BatchesFor(conversations[..|conversations| - 1], inputs)
      + Chunks(SortBy(Of(inputs, conversations[|conversations| - 1]), ByRecordID))
  }

  ghost function Batches(inputs: seq<AppendInput>): seq<seq<AppendInput>> {
    BatchesFor(SortedKeys(Conversations(inputs)), inputs)
  }

  lemma {:induction false} FlattenAppend<T>(a: seq<seq<T>>, b: seq<seq<T>>)
    ensures Flatten(a + b) == Flatten(a) + Flatten(b)
  {
    if b == [] {
      assert a + b == a;
    } else {
      var front, last := b[..|b| - 1], b[|b| - 1];
      assert (a + b)[..|a + b| - 1] == a + front && (a + b)[|a + b| - 1] == last;
      FlattenAppend(a, front);
      assert (Flatten(a) + Flatten(front)) + last == Flatten(a) + (Flatten(front) + last);
    }
  }

  lemma {:induction false} ChunksFlatten(inputs: seq<AppendInput>)
    ensures Flatten(Chunks(inputs)) == inputs
    ensures forall b | b in Chunks(inputs) :: 0 < |b| <= MAX_SEGMENT_RECORDS && forall x | x in b :: x in inputs
  {
    if inputs == [] {
    } else if |inputs| <= MAX_SEGMENT_RECORDS {
      assert [inputs][..0] == [];
    } else {
      var first, rest := inputs[..MAX_SEGMENT_RECORDS], inputs[MAX_SEGMENT_RECORDS..];
      ChunksFlatten(rest);
      FlattenAppend([first], Chunks(rest));
      assert [first][..0] == [];
    }
  }

  function Among(inputs: seq<AppendInput>, conversations: set<string>): seq<AppendInput> {
    Filter(inputs, (i: AppendInput) => i.conversationID in conversations)
  }

  lemma SplitConversation(inputs: seq<AppendInput>, rest: set<string>, c: string)
    requires c !in rest
    ensures multiset(Among(inputs, rest + {c})) == multiset(Among(inputs, rest)) + multiset(Of(inputs, c))
  {
    var more := rest + {c};
    FilterDisjoint(inputs, (i: AppendInput) => i.conversationID in rest, (i: AppendInput) => i.conversationID == c,
      (i: AppendInput) => i.conversationID in more);
  }

  /** Each conversation's batches hold its inputs, in runs within the limit. */
  lemma ConversationBatches(inputs: seq<AppendInput>, c: string)
    ensures multiset(Flatten(Chunks(SortBy(Of(inputs, c), ByRecordID)))) == multiset(Of(inputs, c))
    ensures forall b | b in Chunks(SortBy(Of(inputs, c), ByRecordID)) ::
              0 < |b| <= MAX_SEGMENT_RECORDS && forall x | x in b :: x.conversationID == c
  {
    var sorted := SortBy(Of(inputs, c), ByRecordID);
    ChunksFlatten(sorted);
    forall x | x in sorted ensures x.conversationID == c {
      assert x in multiset(sorted);
      assert x in Of(inputs, c);
    }
  }

  lemma {:induction false} BatchesCover(conversations: seq<string>, inputs: seq<AppendInput>)
    requires NoDuplicates(conversations)
    ensures multiset(Flatten(BatchesFor(conversations, inputs))) == multiset(Among(inputs, Elements(conversations)))
    ensures forall b | b in BatchesFor(conversations, inputs) :: 0 < |b| <= MAX_SEGMENT_RECORDS && UniformBatch(b)
  {
    hide Chunks, ByRecordID, SortBy, Flatten, Of;
    if conversations == [] {
      NothingAmong(inputs);
    } else {
      var front, c := conversations[..|conversations| - 1], conversations[|conversations| - 1];
      BatchesCover(front, inputs);
      FlattenAppend(BatchesFor(front, inputs), Chunks(SortBy(Of(inputs, c), ByRecordID)));
      ConversationBatches(inputs, c);
      assert conversations == front + [c];
      assert Elements(conversations) == Elements(front) + {c};
      assert c !in Elements(front);
      SplitConversation(inputs, Elements(front), c);
    }
  }

  lemma NothingAmong(inputs: seq<AppendInput>)
    ensures multiset(Among(inputs, {})) == multiset{} && Flatten<AppendInput>([]) == []
    ensures Elements<string>([]) == {}
  {
    var none: set<string> := {};
    FilterNone(inputs, (i: AppendInput) => i.conversationID in none);
    assert Among(inputs, none) == [];
  }

  lemma {:induction false} EveryoneAmong(inputs: seq<AppendInput>, conversations: set<string>)
    requires Conversations(inputs) <= conversations
    ensures Among(inputs, conversations) == inputs
  {
    if inputs != [] {
      assert Conversations(inputs[1..]) <= Conversations(inputs);
      EveryoneAmong(inputs[1..], conversations);
    }
  }

  /** The segments of an export partition its valid spans: every one is in exactly one segment, and
      a segment holds between one and a thousand spans of a single conversation. */
  lemma BatchesPartition(inputs: seq<AppendInput>)
    ensures multiset(Flatten(Batches(inputs))) == multiset(inputs)
    ensures forall b | b in Batches(inputs) :: 0 < |b| <= MAX_SEGMENT_RECORDS && UniformBatch(b)
  {
    hide BatchesFor, Flatten, UniformBatch, Among, Conversations;
    var all := Conversations(inputs);
    SortedKeysDistinct(all);
    BatchesCover(SortedKeys(all), inputs);
    EveryoneAmong(inputs, all);
  }

  // ----- Order does not show -----

  predicate DistinctInputs(inputs: seq<AppendInput>) {
    forall i, j | 0 <= i < j < |inputs| :: inputs[i].recordID != inputs[j].recordID
  }

  lemma {:induction false} FilterDistinctInputs(inputs: seq<AppendInput>, p: AppendInput -> bool)
    requires DistinctInputs(inputs)
    ensures DistinctInputs(Filter(inputs, p))
  {
    if inputs != [] {
      assert DistinctInputs(inputs[1..]);
      FilterDistinctInputs(inputs[1..], p);
      forall x | x in Filter(inputs[1..], p) ensures x.recordID != inputs[0].recordID {
        var i :| 0 <= i < |inputs[1..]| && inputs[1..][i] == x;
        assert inputs[i + 1] == x;
      }
    }
  }

  lemma RecordIDOrder(inputs: seq<AppendInput>)
    requires DistinctInputs(inputs)
    ensures TotalOrderOn(ByRecordID, Elements(inputs)) && NoDuplicates(inputs)
  {
    hide StringLess;
    forall a, b | a in inputs && b in inputs ensures !ByRecordID(a, a) && (a == b || ByRecordID(a, b) || ByRecordID(b, a)) {
      StringLessIrreflexive(a.recordID);
      StringLessConnected(a.recordID, b.recordID);
    }
    forall a, b, c | a in inputs && b in inputs && c in inputs && ByRecordID(a, b) && ByRecordID(b, c) ensures ByRecordID(a, c) {
      StringLessTransitive(a.recordID, b.recordID, c.recordID);
    }
  }

  /** Conversation by conversation, and within one by record id. */
  ghost predicate InExportOrder(inputs: seq<AppendInput>) {
    forall i, j | 0 <= i < j < |inputs| ::
      if inputs[i].conversationID == inputs[j].conversationID then StringLess(inputs[i].recordID, inputs[j].recordID)
      else StringLess(inputs[i].conversationID, inputs[j].conversationID)
  }

  lemma {:induction false} BatchesForAscend(conversations: seq<string>, inputs: seq<AppendInput>)
    requires DistinctInputs(inputs) && forall i, j | 0 <= i < j < |conversations| :: StringLess(conversations[i], conversations[j])
    ensures InExportOrder(Flatten(BatchesFor(conversations, inputs)))
    ensures forall x | x in Flatten(BatchesFor(conversations, inputs)) :: x.conversationID in conversations
  {
    hide Chunks, SortBy, Of, StringLess, DistinctInputs;
    if conversations != [] {
      var n := |conversations| - 1;
      var front, c := conversations[..n], conversations[n];
      BatchesForAscend(front, inputs);
      var sorted := SortBy(Of(inputs, c), ByRecordID);
      ConversationAscends(inputs, c);
      FlattenAppend(BatchesFor(front, inputs), Chunks(sorted));
      ChunksFlatten(sorted);
      var before := Flatten(BatchesFor(front, inputs));
      forall x | x in before ensures StringLess(x.conversationID, c) && x.conversationID != c {
        var i :| 0 <= i < |front| && front[i] == x.conversationID;
        assert conversations[i] == front[i];
        StringLessIrreflexive(c);
      }
      OrdersJoin(before, sorted, c);
    }
  }

  lemma ConversationAscends(inputs: seq<AppendInput>, c: string)
    requires DistinctInputs(inputs)
    ensures var sorted := SortBy(Of(inputs, c), ByRecordID);
            InExportOrder(sorted) && forall x | x in sorted :: x.conversationID == c
  {
    FilterDistinctInputs(inputs, (i: AppendInput) => i.conversationID == c);
    var sorted := SortBy(Of(inputs, c), ByRecordID);
    MultisetElements(sorted, Of(inputs, c));
    forall x | x in sorted ensures x.conversationID == c {
      assert x in Elements(sorted);
    }
    RecordIDOrder(Of(inputs, c));
    SortBySorted(Of(inputs, c), ByRecordID);
  }

  lemma OrdersJoin(a: seq<AppendInput>, b: seq<AppendInput>, c: string)
    requires InExportOrder(a) && InExportOrder(b)
    requires (forall x | x in a :: StringLess(x.conversationID, c) && x.conversationID != c) && forall x | x in b :: x.conversationID == c
    ensures InExportOrder(a + b)
  {
    hide StringLess;
  }

  /** The segments of an export follow one another conversation by conversation, each cut from its inputs in the
      order of their record ids. */
  lemma BatchesAscend(inputs: seq<AppendInput>)
    requires DistinctInputs(inputs)
    ensures InExportOrder(Flatten(Batches(inputs)))
  {
    hide BatchesFor, Flatten, DistinctInputs;
    BatchesForAscend(SortedKeys(Conversations(inputs)), inputs);
  }

  lemma SameConversation(a: seq<AppendInput>, b: seq<AppendInput>, c: string)
    requires DistinctInputs(a) && DistinctInputs(b) && Elements(a) == Elements(b)
    ensures SortBy(Of(a, c), ByRecordID) == SortBy(Of(b, c), ByRecordID)
  {
    FilterDistinctInputs(a, (i: AppendInput) => i.conversationID == c);
    FilterDistinctInputs(b, (i: AppendInput) => i.conversationID == c);
    assert forall x | x in a :: x in Elements(a);
    assert forall x | x in b :: x in Elements(b);
    assert Elements(Of(a, c)) == Elements(Of(b, c));
    hide ByRecordID, DistinctInputs, Of;
    RecordIDOrder(Of(a, c));
    RecordIDOrder(Of(b, c));
    SortByOrderFree(Of(a, c), Of(b, c), ByRecordID);
  }

  lemma {:induction false} SameBatchesFor(conversations: seq<string>, a: seq<AppendInput>, b: seq<AppendInput>)
    requires DistinctInputs(a) && DistinctInputs(b) && Elements(a) == Elements(b)
    ensures BatchesFor(conversations, a) == BatchesFor(conversations, b)
  {
    hide DistinctInputs, Of, ByRecordID, Chunks;
    if conversations != [] {
      SameBatchesFor(conversations[..|conversations| - 1], a, b);
      SameConversation(a, b, conversations[|conversations| - 1]);
    }
  }

  /** Exports of the same spans in any order commit the same batches, hence the same segments. */
  lemma ReorderedExport(a: seq<AppendInput>, b: seq<AppendInput>)
    requires DistinctInputs(a) && DistinctInputs(b) && Elements(a) == Elements(b)
    ensures Batches(a) == Batches(b)
  {
    assert Conversations(a) == Conversations(b) by {
      forall x ensures x in a <==> x in b { assert x in a <==> x in Elements(a); assert x in b <==> x in Elements(b); }
    }
    SameBatchesFor(SortedKeys(Conversations(a)), a, b);
  }

  /** Two valid spans with the same trace and span ids. */
  predicate SameIdentity(x: Option<Span>, y: Option<Span>, hashed: string -> string) {
    && NormalizeSpan(x, hashed).Ok? && NormalizeSpan(y, hashed).Ok?
    && x.value.traceID == y.value.traceID && x.value.spanID == y.value.spanID
  }

  predicate DistinctSpans(spans: seq<Option<Span>>, hashed: string -> string) {
    forall i, j | 0 <= i < j < |spans| :: !SameIdentity(spans[i], spans[j], hashed)
  }

  lemma SameIdentityIffSameRecord(x: Option<Span>, y: Option<Span>, hashed: string -> string)
    requires NormalizeSpan(x, hashed).Ok? && NormalizeSpan(y, hashed).Ok?
    ensures SameIdentity(x, y, hashed) <==> NormalizeSpan(x, hashed).value.recordID == NormalizeSpan(y, hashed).value.recordID
  {
    hide RecordID, ConversationID, Hex;
    RecordIDIdentifies(x.value.traceID, x.value.spanID, y.value.traceID, y.value.spanID);
  }

  lemma {:induction false} InputFrom(spans: seq<Option<Span>>, hashed: string -> string, x: AppendInput)
    ensures x in Inputs(spans, hashed) <==> exists i :: 0 <= i < |spans| && NormalizeSpan(spans[i], hashed) == Ok(x)
  {
    hide NormalizeSpan;
    if spans != [] {
      var front, n := spans[..|spans| - 1], |spans| - 1;
      InputFrom(front, hashed, x);
      if i :| 0 <= i < |spans| && NormalizeSpan(spans[i], hashed) == Ok(x) {
        if i < n { assert front[i] == spans[i]; }
      }
    }
  }

  lemma {:induction false} DistinctSpansDistinctInputs(spans: seq<Option<Span>>, hashed: string -> string)
    requires DistinctSpans(spans, hashed)
    ensures DistinctInputs(Inputs(spans, hashed))
  {
    hide NormalizeSpan, SameIdentity;
    if spans != [] {
      var front, n := spans[..|spans| - 1], |spans| - 1;
      DistinctSpansDistinctInputs(front, hashed);
      if NormalizeSpan(spans[n], hashed).Ok? {
        forall x | x in Inputs(front, hashed) ensures x.recordID != NormalizeSpan(spans[n], hashed).value.recordID {
          InputFrom(front, hashed, x);
          var i :| 0 <= i < |front| && NormalizeSpan(front[i], hashed) == Ok(x);
          SameIdentityIffSameRecord(spans[i], spans[n], hashed);
        }
      }
    }
  }

  lemma SameIdentitySymmetric(x: Option<Span>, y: Option<Span>, hashed: string -> string)
    ensures SameIdentity(x, y, hashed) <==> SameIdentity(y, x, hashed)
  {
  }

  lemma {:induction false} DistinctSpansOrderFree(a: seq<Option<Span>>, b: seq<Option<Span>>, hashed: string -> string)
    requires multiset(a) == multiset(b) && DistinctSpans(a, hashed)
    ensures DistinctSpans(b, hashed)
    decreases |b|
  {
    if b != [] {
      hide SameIdentity;
      var i := FindFirst(b, a);
      var rest := RemoveAt(a, i);
      DistinctSpansOrderFree(rest, b[1..], hashed);
      MultisetElements(rest, b[1..]);
      forall j | 0 < j < |b| ensures !SameIdentity(b[0], b[j], hashed) {
        assert b[1..][j - 1] in Elements(b[1..]);
        var k :| 0 <= k < |rest| && rest[k] == b[j];
        assert rest[k] == if k < i then a[k] else a[k + 1];
        SameIdentitySymmetric(a[i], rest[k], hashed);
      }
      forall j, k | 0 < j < k < |b| ensures !SameIdentity(b[j], b[k], hashed) {
        assert b[1..][j - 1] == b[j] && b[1..][k - 1] == b[k];
      }
    }
  }

  /** Reordering an export's spans changes none of its segments, when trace and span ids are distinct. */
  lemma ReorderedSpans(a: seq<Option<Span>>, b: seq<Option<Span>>, hashed: string -> string)
    requires multiset(a) == multiset(b) && DistinctSpans(a, hashed)
    ensures Batches(Inputs(a, hashed)) == Batches(Inputs(b, hashed))
  {
    hide Batches, DistinctInputs, DistinctSpans, NormalizeSpan;
    DistinctSpansOrderFree(a, b, hashed);
    DistinctSpansDistinctInputs(a, hashed);
    DistinctSpansDistinctInputs(b, hashed);
    MultisetElements(a, b);
    forall x ensures x in Inputs(a, hashed) <==> x in Inputs(b, hashed) {
      InputFrom(a, hashed, x);
      InputFrom(b, hashed, x);
      if i :| 0 <= i < |a| && NormalizeSpan(a[i], hashed) == Ok(x) {
        assert a[i] in Elements(b);
        var j :| 0 <= j < |b| && b[j] == a[i];
      }
      if i :| 0 <= i < |b| && NormalizeSpan(b[i], hashed) == Ok(x) {
        assert b[i] in Elements(a);
        var j :| 0 <= j < |a| && a[j] == b[i];
      }
    }
    ReorderedExport(Inputs(a, hashed), Inputs(b, hashed));
  }

  // ----- What an export leaves in the store -----

  /** The digest naming a batch's segment, which the source takes over every field of every record. */
  type Naming = seq<AppendInput> -> string

  function KeyFor(batch: seq<AppendInput>, segmentID: Naming): SegmentKey
    requires batch != []
  {
    SegmentKey(batch[0].conversationID, segmentID(batch))
  }

  function PlanFor(batch: seq<AppendInput>, segmentID: Naming, now: Time): (plan: Plan)
    requires batch != []
    ensures |plan.freshIDs| == |batch|
  {
    Plan(KeyFor(batch, segmentID), now, seq(|batch|, _ => ""))
  }

  /** The batch is in the store: its blobs, a segment holding it, readable if the batch is shallow, and
      that segment's delta. */
  ghost predicate Committed(cfg: Config, store: StoreView, key: SegmentKey, batch: seq<AppendInput>) {
    && BlobsPresent(store.blobs, LargeContents(cfg, batch))
    && key in store.segments && Verifies(key, store.segments[key], cfg.normalize)
    && (AllShallow(cfg, batch) ==> Readable(key, store.segments[key], cfg.normalize))
    && SameBatch(store.segments[key].value, batch, cfg.normalize)
    && OneConversation(RecordsOf(store.segments[key].value))
    && DeltaKey(key) in store.deltas
    && store.deltas[DeltaKey(key)] == Plain(Seal(DeltaOf(key, store.segments[key].value)))
  }

  ghost predicate AllCommitted(cfg: Config, store: StoreView, segmentID: Naming, batches: seq<seq<AppendInput>>) {
    forall b | b in batches :: b != [] && Committed(cfg, store, KeyFor(b, segmentID), b)
  }

  /** Every batch passes the service's own checks at this time (an encoded size may depend on it). */
  ghost predicate AllBuild(cfg: Config, segmentID: Naming, batches: seq<seq<AppendInput>>, now: Time) {
    forall b | b in batches :: b != [] && BuildSegment(cfg, PlanFor(b, segmentID, now), b).Some?
  }

  /** No batch has inline content that nests too deep to be read again. */
  predicate BatchesShallow(cfg: Config, batches: seq<seq<AppendInput>>) {
    forall b | b in batches :: AllShallow(cfg, b)
  }

  /** What is committed stays committed. */
  lemma CommittedStays(cfg: Config, before: StoreView, after: StoreView, segmentID: Naming, batches: seq<seq<AppendInput>>)
    requires Extends(before, after) && AllCommitted(cfg, before, segmentID, batches)
    ensures AllCommitted(cfg, after, segmentID, batches)
  {
    hide Readable, Verifies, AllShallow, SameBatch, OneConversation, DeltaOf, LargeContents, RecordsOf;
    forall b | b in batches ensures b != [] && Committed(cfg, after, KeyFor(b, segmentID), b) {
      assert Committed(cfg, before, KeyFor(b, segmentID), b);
    }
  }

  lemma UnsequencedRetry(cfg: Config, plan: Plan, batch: seq<AppendInput>)
    requires |batch| <= |plan.freshIDs| && BuildSegment(cfg, plan, batch).Some?
    requires forall x | x in batch :: x.sequence.None?
    ensures SameBatch(BuildSegment(cfg, plan, batch).value, batch, cfg.normalize)
  {
    hide BuildSegment, SameBatch, Readable, AllShallow;
    OwnRetryIff(cfg, plan, batch);
  }

  /** A batch without sequence numbers decodes when it is shallow. */
  lemma UnsequencedDecodes(cfg: Config, batch: seq<AppendInput>)
    requires forall x | x in batch :: x.sequence.None?
    ensures AllDecode(cfg, batch) <==> AllShallow(cfg, batch)
    ensures Survives(cfg, batch)
  {
    hide ShallowInput;
    forall i | 0 <= i < |batch| ensures DecodableInput(cfg, batch[i]) <==> ShallowInput(cfg, batch[i]) { assert batch[i] in batch; }
  }

  lemma AddsExtends(cfg: Config, plan: Plan, batch: seq<AppendInput>, before: StoreView, after: StoreView)
    requires |batch| <= |plan.freshIDs| && OnlyAdds(cfg, plan, batch, before, after)
    ensures Extends(before, after)
  {
  }

  lemma AcknowledgedCommits(cfg: Config, segmentID: Naming, batch: seq<AppendInput>, now: Time, before: StoreView, after: StoreView, held: Segment)
    requires batch != [] && (forall x | x in batch :: x.sequence.None?)
    requires var plan := PlanFor(batch, segmentID, now);
             OnlyAdds(cfg, plan, batch, before, after) && Acknowledges(cfg, plan, batch, before, after, held)
    ensures var key := KeyFor(batch, segmentID);
            && key in after.segments && (HonestBlobs(before.blobs) ==> Committed(cfg, after, key, batch))
            && (key !in before.segments ==> (Readable(key, after.segments[key], cfg.normalize) <==> AllShallow(cfg, batch)))
  {
    hide Decodable, WithNumbers, AsWritten, AllDecode, AllShallow, Survives, SameBatch, OneConversation, DeltaOf, LargeContents, RecordsOf, BlobsOf, BlobsPresent, HonestBlobs, BuildSegment;
    var plan := PlanFor(batch, segmentID, now);
    UnsequencedRetry(cfg, plan, batch);
    UnsequencedDecodes(cfg, batch);
    BuiltReadableIff(cfg, plan, batch);
  }

  /** A committed, shallow batch is accepted again. */
  lemma RepeatAccepted(cfg: Config, store: StoreView, segmentID: Naming, batch: seq<AppendInput>, now: Time)
    requires HonestBlobs(store.blobs) && AllCommitted(cfg, store, segmentID, [batch])
    requires BatchesShallow(cfg, [batch]) && AllBuild(cfg, segmentID, [batch], now) && batch != []
    ensures BuildSegment(cfg, PlanFor(batch, segmentID, now), batch).Some?
    ensures WillAccept(cfg, KeyFor(batch, segmentID), batch, store)
  {
    hide BuildSegment, Readable, Verifies, AllShallow, SameBatch, OneConversation, RecordsOf, DeltaOf, LargeContents, BlobsPresent, HonestBlobs;
    assert batch in [batch];
  }

  lemma RepeatAddsNothing(cfg: Config, before: StoreView, after: StoreView, segmentID: Naming, batch: seq<AppendInput>, now: Time)
    requires batch != [] && HonestBlobs(before.blobs) && AllCommitted(cfg, before, segmentID, [batch])
    requires OnlyAdds(cfg, PlanFor(batch, segmentID, now), batch, before, after)
    ensures after == before
  {
    hide BuildSegment, Readable, Verifies, AllShallow, SameBatch, OneConversation, RecordsOf, DeltaOf, LargeContents;
    assert batch in [batch];
    var key := KeyFor(batch, segmentID);
    GrowsWithoutKeysIn(before.segments, after.segments, key);
    GrowsWithoutKeysIn(before.deltas, after.deltas, DeltaKey(key));
    BlobsUnchanged(before.blobs, after.blobs, LargeContents(cfg, batch));
  }

  lemma GrowsWithoutKeysIn<K, V>(a: map<K, V>, b: map<K, V>, k: K)
    requires Grows(a, b) && b.Keys <= a.Keys + {k} && k in a
    ensures a == b
  {
    assert b.Keys <= a.Keys;
  }

  lemma BlobsUnchanged(a: BlobStore, b: BlobStore, needed: seq<Bytes>)
    requires Grows(a, b) && BlobsPresent(a, needed)
    requires forall k | k in b :: k in a || k.preimage in needed
    ensures a == b
  {
    forall k | k in b ensures k in a { assert k == ContentSha(k.preimage); }
  }

  /** The inputs of the first conversations are the beginning of all of them. */
  lemma {:induction false} BatchesGrow(conversations: seq<string>, inputs: seq<AppendInput>, n: nat)
    requires n <= |conversations|
    ensures |Flatten(BatchesFor(conversations[..n], inputs))| <= |Flatten(BatchesFor(conversations, inputs))|
    ensures forall b | b in BatchesFor(conversations[..n], inputs) :: b in BatchesFor(conversations, inputs)
    decreases |conversations|
  {
    hide Chunks, Of, ByRecordID, SortBy;
    if n < |conversations| {
      var front, c := conversations[..|conversations| - 1], conversations[|conversations| - 1];
      assert front[..n] == conversations[..n];
      BatchesGrow(front, inputs, n);
      FlattenAppend(BatchesFor(front, inputs), Chunks(SortBy(Of(inputs, c), ByRecordID)));
    } else {
      assert conversations[..n] == conversations;
    }
  }

  lemma BatchesNext(conversations: seq<string>, inputs: seq<AppendInput>, n: nat)
    requires n < |conversations|
    ensures BatchesFor(conversations[..n + 1], inputs)
         == BatchesFor(conversations[..n], inputs) + Chunks(SortBy(Of(inputs, conversations[n]), ByRecordID))
    ensures |Flatten(BatchesFor(conversations[..n + 1], inputs))| == |Flatten(BatchesFor(conversations[..n], inputs))| + |Of(inputs, conversations[n])|
  {
    hide Chunks, Of, ByRecordID;
    assert conversations[..n + 1][..n] == conversations[..n];
    var sorted := SortBy(Of(inputs, conversations[n]), ByRecordID);
    FlattenAppend(BatchesFor(conversations[..n], inputs), Chunks(sorted));
    ChunksFlatten(sorted);
  }

  lemma {:induction false} Unsequenced(spans: seq<Option<Span>>, hashed: string -> string)
    ensures forall x | x in Inputs(spans, hashed) :: x.sequence.None?
  {
    if spans != [] { Unsequenced(spans[..|spans| - 1], hashed); }
  }

  lemma BatchCount(inputs: seq<AppendInput>)
    ensures |Flatten(Batches(inputs))| == |inputs|
  {
    BatchesPartition(inputs);
    MultisetElements(Flatten(Batches(inputs)), inputs);
  }

  lemma NoBatches(inputs: seq<AppendInput>)
    ensures BatchesFor([], inputs) == [] && Flatten<AppendInput>([]) == []
  {
  }

  lemma GroupMembers(inputs: seq<AppendInput>, c: string, sorted: seq<AppendInput>)
    requires multiset(sorted) == multiset(Of(inputs, c))
    ensures forall x | x in sorted :: x in multiset(sorted) && x in inputs
  {
    forall x | x in sorted ensures x in multiset(sorted) && x in inputs {
      assert x in multiset(sorted);
      assert x in Of(inputs, c);
    }
  }

  lemma NoChunks()
    ensures Chunks([]) == []
  {
  }

  lemma ChunkAt(inputs: seq<AppendInput>, start: nat, end: nat)
    requires start < |inputs| && end == Min(start + MAX_SEGMENT_RECORDS, |inputs|)
    ensures Chunks(inputs[start..]) == [inputs[start..end]] + Chunks(inputs[end..])
  {
    var rest := inputs[start..];
    if |rest| <= MAX_SEGMENT_RECORDS {
      assert inputs[start..end] == rest && inputs[end..] == [];
    } else {
      assert rest[..MAX_SEGMENT_RECORDS] == inputs[start..end] && rest[MAX_SEGMENT_RECORDS..] == inputs[end..];
    }
  }

  // ----- The exporter -----

  datatype ExportResult = ExportResult(accepted: nat, rejected: nat, errors: seq<Rejection>)

  /** Requests nest: resources hold scopes, scopes hold spans. */
  function Spans(request: seq<seq<seq<Option<Span>>>>): seq<Option<Span>> {
    if request == [] then [] else Spans(request[..|request| - 1]) + Flatten(request[|request| - 1])
  }

  class Ingestor {
    const history: HistoryService
    const hashed: string -> string
    const segmentID: Naming

    constructor (history: HistoryService, hashed: string -> string, segmentID: Naming)
      ensures this.history == history && this.hashed == hashed && this.segmentID == segmentID
    {
      this.history, this.hashed, this.segmentID := history, hashed, segmentID;
    }

    ghost function View(): StoreView
      reads history.blobs, history.segments, history.projection.deltas
    {
      history.Stores()
    }

    /** Nothing fails for transport reasons. */
    ghost predicate Reliable() {
      history.blobs.reliable && history.segments.reliable && history.projection.deltas.reliable
    }

    /** The batches are committed and shallow, and committing them again passes every check. */
    ghost predicate Repeats(store: StoreView, batches: seq<seq<AppendInput>>, now: Time) {
      && HonestBlobs(store.blobs) && AllCommitted(history.cfg, store, segmentID, batches)
      && BatchesShallow(history.cfg, batches) && AllBuild(history.cfg, segmentID, batches, now)
    }

    /** The batches an export of the request commits. */
    ghost function Planned(request: seq<seq<seq<Option<Span>>>>): seq<seq<AppendInput>> {
      Batches(Inputs(Spans(request), hashed))
    }

    /** Commit one batch. A new segment reads back exactly when the batch is shallow. A shallow batch already
        there is accepted and nothing changes. */
    method CommitBatch(batch: seq<AppendInput>, now: Time) returns (r: Result<Segment, AppendError>)
      requires history.Separate() && batch != [] && (forall x | x in batch :: x.sequence.None?)
      modifies history.blobs, history.segments, history.projection.deltas, history.projection
      ensures Extends(old(View()), View())
      ensures r.Ok? && HonestBlobs(old(View()).blobs) ==> Committed(history.cfg, View(), KeyFor(batch, segmentID), batch)
      ensures r.Ok? && KeyFor(batch, segmentID) !in old(View()).segments ==>
                && KeyFor(batch, segmentID) in View().segments
                && (Readable(KeyFor(batch, segmentID), View().segments[KeyFor(batch, segmentID)], history.cfg.normalize) <==> AllShallow(history.cfg, batch))
      ensures Reliable() && Repeats(old(View()), [batch], now) ==> r.Ok? && View() == old(View())
    {
      hide OnlyAdds, Acknowledges, WillAccept, WillRefuse, Leads, Refusal, Committed, AllCommitted, AllBuild, BatchesShallow, BuildSegment;
      var plan := PlanFor(batch, segmentID, now);
      ghost var before := View();
      ghost var repeats := Reliable() && Repeats(before, [batch], now);
      if repeats { RepeatAccepted(history.cfg, before, segmentID, batch, now); }
      ghost var trace;
      r, trace := history.Append(plan, batch);
      AddsExtends(history.cfg, plan, batch, before, View());
      if r.Ok? { AcknowledgedCommits(history.cfg, segmentID, batch, now, before, View(), r.value); }
      if repeats { RepeatAddsNothing(history.cfg, before, View(), segmentID, batch, now); }
    }

    /** Commit one conversation's inputs, a thousand at a time. */
    method CommitConversation(inputs: seq<AppendInput>, now: Time) returns (accepted: nat, error: Option<AppendError>)
      requires history.Separate() && forall x | x in inputs :: x.sequence.None?
      modifies history.blobs, history.segments, history.projection.deltas, history.projection
      ensures Extends(old(View()), View())
      ensures if error.None? then accepted == |inputs| else accepted < |inputs|
      ensures error.None? && HonestBlobs(old(View()).blobs) ==> AllCommitted(history.cfg, View(), segmentID, Chunks(inputs))
      ensures Reliable() && Repeats(old(View()), Chunks(inputs), now) ==> error.None? && View() == old(View())
    {
      hide Committed, BuildSegment, HonestBlobs, Chunks, Extends;
      accepted, error := 0, None;
      ghost var repeated := Reliable() && Repeats(View(), Chunks(inputs), now);
      ghost var honest := HonestBlobs(history.blobs.objects);
      ghost var done: seq<seq<AppendInput>> := [];
      var start := 0;
      assert inputs[0..] == inputs;
      ExtendsSame(View());
      while start < |inputs|
        invariant start <= |inputs| && accepted == start && error.None?
        invariant done + Chunks(inputs[start..]) == Chunks(inputs)
        invariant Extends(old(View()), View()) && (honest ==> HonestBlobs(history.blobs.objects))
        invariant honest ==> AllCommitted(history.cfg, View(), segmentID, done)
        invariant repeated ==> View() == old(View())
      {
        var end := Min(start + MAX_SEGMENT_RECORDS, |inputs|);
        var chunk := inputs[start..end];
        ChunkAt(inputs, start, end);
        ghost var all := done + ([chunk] + Chunks(inputs[end..]));
        assert all[|done|] == chunk;
        assert chunk in Chunks(inputs);
        ghost var before := View();
        var r := CommitBatch(chunk, now);
        ExtendsBoth(old(View()), before, View());
        ExtendsHonest(old(View()), View());
        if r.Err? { return accepted, Some(r.error); }
        if honest { CommittedStays(history.cfg, before, View(), segmentID, done); }
        accepted := accepted + |chunk|;
        done := done + [chunk];
        assert done + Chunks(inputs[end..]) == all;
        start := end;
      }
      assert inputs[start..] == [];
      NoChunks();
      assert done + [] == done;
    }

    /** Export a request. Accepted plus rejected spans make up those received exactly when no commit
        failed; then every batch is committed. Repeating an export whose batches are committed
        succeeds and leaves the store as it was. */
    method Export(request: seq<seq<seq<Option<Span>>>>, now: Time) returns (result: ExportResult, error: Option<AppendError>)
      requires history.Separate()
      modifies history.blobs, history.segments, history.projection.deltas, history.projection
      ensures Extends(old(View()), View())
      ensures result.errors == Rejections(Spans(request), hashed)
      ensures result.rejected == |result.errors| == |Spans(request)| - |Inputs(Spans(request), hashed)|
      ensures error.None? <==> result.accepted + result.rejected == |Spans(request)|
      ensures error.None? && HonestBlobs(old(View()).blobs) ==> AllCommitted(history.cfg, View(), segmentID, Planned(request))
      ensures Reliable() && Repeats(old(View()), Planned(request), now) ==> error.None? && View() == old(View())
    {
      ghost var inputs, batches := Inputs(Spans(request), hashed), Planned(request);
      assert batches == BatchesFor(SortedKeys(Conversations(inputs)), inputs) && batches == Batches(inputs);
      hide *;
      ghost var before := View();
      var groups, errors := Collect(request);
      var conversationIDs := CollectSortedKeys(groups.Keys);
      var accepted := 0;
      error := None;
      Unsequenced(Spans(request), hashed);
      BatchCount(inputs);
      NoBatches(inputs);
      assert conversationIDs[..0] == [];
      NoneCommitted(history.cfg, View(), segmentID);
      ExtendsSame(View());
      for i := 0 to |conversationIDs|
        invariant accepted == |Flatten(BatchesFor(conversationIDs[..i], inputs))|
        invariant Extends(before, View())
        invariant HonestBlobs(before.blobs) ==>
          HonestBlobs(View().blobs) && AllCommitted(history.cfg, View(), segmentID, BatchesFor(conversationIDs[..i], inputs))
        invariant Reliable() && Repeats(before, batches, now) ==> View() == before
      {
        KeyAt(conversationIDs, groups.Keys, i);
        BatchesNext(conversationIDs, inputs, i);
        BatchesGrow(conversationIDs, inputs, i + 1);
        ghost var store := View();
        var committed, failure := CommitGroup(conversationIDs, i, groups[conversationIDs[i]], inputs, now);
        ExtendsBoth(before, store, View());
        ExtendsHonest(before, View());
        accepted := accepted + committed;
        if failure.Some? { return ExportResult(accepted, |errors|, errors), failure; }
      }
      assert conversationIDs[..|conversationIDs|] == conversationIDs;
      result := ExportResult(accepted, |errors|, errors);
    }

    /** Exporting the same spans again in another order, resources and scopes regrouped as they may be,
        succeeds with the same counts and leaves the store as the first export did, if no span's content
        nests too deep to be read again. */
    method ExportReordered(request: seq<seq<seq<Option<Span>>>>, reordered: seq<seq<seq<Option<Span>>>>, now: Time, later: Time)
      returns (first: ExportResult, failure: Option<AppendError>, second: ExportResult, again: Option<AppendError>, ghost between: StoreView)
      requires history.Separate()
      requires multiset(Spans(request)) == multiset(Spans(reordered)) && DistinctSpans(Spans(request), hashed)
      modifies history.blobs, history.segments, history.projection.deltas, history.projection
      ensures Extends(old(View()), between) && (failure.None? <==> first.accepted + first.rejected == |Spans(request)|)
      ensures failure.None? && Reliable() && HonestBlobs(old(View()).blobs)
              && BatchesShallow(history.cfg, Planned(request)) && AllBuild(history.cfg, segmentID, Planned(request), later) ==>
                again.None? && second.accepted == first.accepted && second.rejected == first.rejected && View() == between
    {
      hide Inputs, Spans, Batches, DistinctSpans, Extends, AllBuild, AllCommitted;
      first, failure := Export(request, now);
      between := View();
      ReorderedSpans(Spans(request), Spans(reordered), hashed);
      BatchCount(Inputs(Spans(request), hashed));
      BatchCount(Inputs(Spans(reordered), hashed));
      MultisetElements(Spans(request), Spans(reordered));
      ExtendsHonest(old(View()), between);
      second, again := Export(reordered, later);
    }

    /** The next conversation of an export. */
    method CommitGroup(conversationIDs: seq<string>, i: nat, group: seq<AppendInput>, ghost inputs: seq<AppendInput>, now: Time)
      returns (committed: nat, failure: Option<AppendError>)
      requires history.Separate() && i < |conversationIDs| && group == Of(inputs, conversationIDs[i])
      requires forall x | x in inputs :: x.sequence.None?
      modifies history.blobs, history.segments, history.projection.deltas, history.projection
      ensures Extends(old(View()), View())
      ensures if failure.None? then committed == |group| else committed < |group|
      ensures failure.None? && HonestBlobs(old(View()).blobs)
              && AllCommitted(history.cfg, old(View()), segmentID, BatchesFor(conversationIDs[..i], inputs)) ==>
                AllCommitted(history.cfg, View(), segmentID, BatchesFor(conversationIDs[..i + 1], inputs))
      ensures Reliable() && Repeats(old(View()), BatchesFor(conversationIDs, inputs), now) ==> failure.None? && View() == old(View())
    {
      hide Committed, BuildSegment, HonestBlobs, Chunks, Extends, BatchesFor, Of, Flatten;
      var sorted := SortBy(group, ByRecordID);
      BatchesNext(conversationIDs, inputs, i);
      BatchesGrow(conversationIDs, inputs, i + 1);
      GroupMembers(inputs, conversationIDs[i], sorted);
      assert forall b | b in Chunks(sorted) :: b in BatchesFor(conversationIDs[..i + 1], inputs);
      ghost var before := View();
      committed, failure := CommitConversation(sorted, now);
      if AllCommitted(history.cfg, before, segmentID, BatchesFor(conversationIDs[..i], inputs)) {
        CommittedStays(history.cfg, before, View(), segmentID, BatchesFor(conversationIDs[..i], inputs));
      }
    }

    /** Collect the valid spans of a request by conversation. */
    method Collect(request: seq<seq<seq<Option<Span>>>>) returns (groups: map<string, seq<AppendInput>>, errors: seq<Rejection>)
      ensures groups.Keys == Conversations(Inputs(Spans(request), hashed))
      ensures forall c | c in groups :: groups[c] == Of(Inputs(Spans(request), hashed), c)
      ensures errors == Rejections(Spans(request), hashed) && |errors| + |Inputs(Spans(request), hashed)| == |Spans(request)|
    {
      groups, errors := map[], [];
      ghost var seen: seq<Option<Span>> := [];
      for i := 0 to |request|
        invariant seen == Spans(request[..i]) && Grouped(groups, errors, seen)
      {
        for j := 0 to |request[i]|
          invariant seen == Spans(request[..i]) + Flatten(request[i][..j]) && Grouped(groups, errors, seen)
        {
          for k := 0 to |request[i][j]|
            invariant seen == Spans(request[..i]) + Flatten(request[i][..j]) + request[i][j][..k] && Grouped(groups, errors, seen)
          {
            groups, errors := AddSpan(groups, errors, request[i][j][k], seen);
            seen := seen + [request[i][j][k]];
          }
          assert request[i][..j + 1][..j] == request[i][..j] && request[i][j][..|request[i][j]|] == request[i][j];
        }
        assert request[..i + 1][..i] == request[..i] && request[i][..|request[i]|] == request[i];
      }
      assert request[..|request|] == request;
      ValidOrRejected(Spans(request), hashed);
    }

    ghost predicate Grouped(groups: map<string, seq<AppendInput>>, errors: seq<Rejection>, seen: seq<Option<Span>>) {
      GroupedBy(groups, Inputs(seen, hashed)) && errors == Rejections(seen, hashed)
    }

    method AddSpan(groups: map<string, seq<AppendInput>>, errors: seq<Rejection>, span: Option<Span>, ghost seen: seq<Option<Span>>)
      returns (groups': map<string, seq<AppendInput>>, errors': seq<Rejection>)
      requires Grouped(groups, errors, seen)
      ensures Grouped(groups', errors', seen + [span])
    {
      hide NormalizeSpan, GroupedBy;
      assert (seen + [span])[..|seen|] == seen;
      var normalized := NormalizeSpan(span, hashed);
      if normalized.Err? {
        assert Inputs(seen + [span], hashed) == Inputs(seen, hashed);
        return groups, errors + [normalized.error];
      }
      var input := normalized.value;
      AddToGroups(groups, Inputs(seen, hashed), input);
      var c := input.conversationID;
      groups' := groups[c := (if c in groups then groups[c] else []) + [input]];
      errors' := errors;
    }
  }

  ghost predicate GroupedBy(groups: map<string, seq<AppendInput>>, inputs: seq<AppendInput>) {
    groups.Keys == Conversations(inputs) && forall c | c in groups :: groups[c] == Of(inputs, c)
  }

  lemma AddToGroups(groups: map<string, seq<AppendInput>>, inputs: seq<AppendInput>, input: AppendInput)
    requires GroupedBy(groups, inputs)
    ensures var c := input.conversationID;
            GroupedBy(groups[c := (if c in groups then groups[c] else []) + [input]], inputs + [input])
  {
    hide Conversations, Of;
    InputAdded(inputs, input);
  }

  /** One more input extends its own conversation's group and no other. */
  lemma InputAdded(before: seq<AppendInput>, input: AppendInput)
    ensures Conversations(before + [input]) == Conversations(before) + {input.conversationID}
    ensures forall c :: Of(before + [input], c) == Of(before, c) + if c == input.conversationID then [input] else []
    ensures input.conversationID !in Conversations(before) ==> Of(before, input.conversationID) == []
  {
    assert input in before + [input];
    forall x | x in before ensures x in before + [input] {}
    forall c ensures Of(before + [input], c) == Of(before, c) + if c == input.conversationID then [input] else [] {
      FilterAppend(before, [input], (i: AppendInput) => i.conversationID == c);
      assert Filter([input], (i: AppendInput) => i.conversationID == c) == if c == input.conversationID then [input] else [];
    }
    if input.conversationID !in Conversations(before) {
      FilterNone(before, (i: AppendInput) => i.conversationID == input.conversationID);
    }
  }

  lemma KeyAt(listing: seq<string>, keys: set<string>, i: nat)
    requires i < |listing| && listing == SortedKeys(keys)
    ensures listing[i] in keys
  {
    assert listing[i] in Elements(listing);
  }

  lemma NoneCommitted(cfg: Config, store: StoreView, segmentID: Naming)
    ensures AllCommitted(cfg, store, segmentID, [])
  {
  }

  lemma ExtendsHonest(before: StoreView, after: StoreView)
    requires Extends(before, after)
    ensures HonestBlobs(before.blobs) ==> HonestBlobs(after.blobs)
  {
  }
}
