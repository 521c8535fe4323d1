/** What the three background processors share: events, grouping by conversation, and how handed
    groups account for admitted events (sdk/python, sdk/go, sdk/typescript). */
module Batching {
  import opened Basics
  import opened Sorting

  datatype Event = Event(conversationID: string, payload: nat)

  /** The events of one conversation, in order. */
  function Of(events: seq<Event>, c: string): (r: seq<Event>)
    ensures forall e | e in r :: e.conversationID == c
  {
    Filter(events, (e: Event) => e.conversationID == c)
  }

  function Within(events: seq<Event>, conversations: set<string>): seq<Event> {
    Filter(events, (e: Event) => e.conversationID in conversations)
  }

  function ConversationsOf(events: seq<Event>): set<string> {
    set e | e in events :: e.conversationID
  }

  function Flat(handed: seq<seq<Event>>): seq<Event> {
    if handed == [] then [] else Flat(handed[..|handed| - 1]) + handed[|handed| - 1]
  }

  lemma OfAppend(a: seq<Event>, b: seq<Event>, c: string)
    ensures Of(a + b, c) == Of(a, c) + Of(b, c)
  {
    FilterAppend(a, b, (e: Event) => e.conversationID == c);
  }

  lemma OfGroup(events: seq<Event>, c: string, d: string)
    ensures Of(Of(events, c), d) == if c == d then Of(events, c) else []
  {
    if c == d { FilterAll(Of(events, c), (e: Event) => e.conversationID == d); }
    else { FilterNone(Of(events, c), (e: Event) => e.conversationID == d); }
  }

  lemma OfNothing(events: seq<Event>, c: string)
    ensures Of(events, c) == [] <==> c !in ConversationsOf(events)
  {
    if c in ConversationsOf(events) {
      var e :| e in events && e.conversationID == c;
      assert e in Of(events, c);
    } else {
      FilterNone(events, (e: Event) => e.conversationID == c);
    }
  }

  lemma ConversationsSnoc(front: seq<Event>, e: Event)
    ensures ConversationsOf(front + [e]) == ConversationsOf(front) + {e.conversationID}
  {
    assert e in front + [e];
    forall x | x in front ensures x in front + [e] {}
  }

  lemma OfSnoc(front: seq<Event>, e: Event, c: string)
    ensures Of(front + [e], c) == Of(front, c) + if c == e.conversationID then [e] else []
  {
    OfAppend(front, [e], c);
  }

  /** Finishing one more conversation of a batch accounts for exactly its events. */
  lemma {:induction false} WithinAdd(events: seq<Event>, done: set<string>, c: string)
    requires c !in done
    ensures |Within(events, done + {c})| == |Within(events, done)| + |Of(events, c)|
  {
    if events != [] { WithinAdd(events[1..], done, c); }
  }

  lemma WithinAll(events: seq<Event>, done: set<string>)
    requires ConversationsOf(events) <= done
    ensures Within(events, done) == events
  {
    FilterAll(events, (e: Event) => e.conversationID in done);
  }

  lemma WithinNothing(events: seq<Event>)
    ensures Within(events, {}) == []
  {
    var none: set<string> := {};
    FilterNone(events, (e: Event) => e.conversationID in none);
  }

  lemma WithinSize(events: seq<Event>, conversations: set<string>)
    ensures |Within(events, conversations)| <= |events|
  {
  }

  /** A batch leaves the front of what is unsettled. */
  lemma BatchLeaves(admitted: seq<Event>, k: nat, batch: seq<Event>, queue: seq<Event>)
    requires k <= |admitted| && admitted[k..] == batch + queue
    ensures k + |batch| <= |admitted| && admitted[k + |batch|..] == queue && admitted[..k + |batch|] == admitted[..k] + batch
  {
    var tail := admitted[k..];
    assert tail[|batch|..] == queue && tail[..|batch|] == batch;
    assert admitted[k + |batch|..] == tail[|batch|..];
    assert admitted[..k + |batch|] == admitted[..k] + tail[..|batch|];
  }

  // ----- Accounting for what was handed to delivery -----

  /** The groups handed over so far are, conversation by conversation and in admission order, the
      settled events followed by those of the current batch whose conversation has had its turn. */
  ghost predicate Accounts(handed: seq<seq<Event>>, settled: seq<Event>, batch: seq<Event>, done: set<string>) {
    forall c :: Of(Flat(handed), c) == Of(settled, c) + (if c in done then Of(batch, c) else [])
  }

  /** Every group handed over is a non-empty run of one conversation, within the batch size. */
  ghost predicate WellGrouped(handed: seq<seq<Event>>, limit: nat) {
    forall g | g in handed :: 0 < |g| <= limit && forall e | e in g :: e.conversationID == g[0].conversationID
  }

  lemma HandGroup(handed: seq<seq<Event>>, settled: seq<Event>, batch: seq<Event>, done: set<string>, c: string)
    requires Accounts(handed, settled, batch, done) && c !in done
    ensures Accounts(handed + [Of(batch, c)], settled, batch, done + {c})
  {
    hide Of;
    var more := handed + [Of(batch, c)];
    assert more[..|more| - 1] == handed;
    forall d ensures Of(Flat(more), d) == Of(settled, d) + (if d in done + {c} then Of(batch, d) else []) {
      OfAppend(Flat(handed), Of(batch, c), d);
      OfGroup(batch, c, d);
      assert Of(Flat(handed), d) == Of(settled, d) + (if d in done then Of(batch, d) else []);
    }
  }

  lemma HandGroupWell(handed: seq<seq<Event>>, limit: nat, batch: seq<Event>, c: string)
    requires WellGrouped(handed, limit) && |batch| <= limit && c in ConversationsOf(batch)
    ensures WellGrouped(handed + [Of(batch, c)], limit)
  {
    OfNothing(batch, c);
  }

  /** When every conversation of the batch has had its turn, the whole batch is settled. */
  lemma SettleBatch(handed: seq<seq<Event>>, settled: seq<Event>, batch: seq<Event>, done: set<string>)
    requires Accounts(handed, settled, batch, done) && ConversationsOf(batch) <= done
    ensures Accounts(handed, settled + batch, [], {})
  {
    hide Of;
    forall c ensures Of(Flat(handed), c) == Of(settled + batch, c) {
      OfAppend(settled, batch, c);
      OfNothing(batch, c);
      assert Of(Flat(handed), c) == Of(settled, c) + (if c in done then Of(batch, c) else []);
    }
  }

  /** A new batch, none of it handed over yet. */
  lemma BeginBatch(handed: seq<seq<Event>>, settled: seq<Event>, before: seq<Event>, batch: seq<Event>)
    requires Accounts(handed, settled, before, {})
    ensures Accounts(handed, settled, batch, {})
  {
    hide Of;
    forall c ensures Of(Flat(handed), c) == Of(settled, c) + [] {
      assert Of(Flat(handed), c) == Of(settled, c) + (if c in {} then Of(before, c) else []);
    }
  }

  /** What the accounting promises a caller: per conversation, the handed events are a prefix of the
      admitted ones, so nothing is handed over twice, invented or reordered. */
  lemma AccountsArePrefix(handed: seq<seq<Event>>, settled: seq<Event>, batch: seq<Event>, done: set<string>, rest: seq<Event>, c: string)
    requires Accounts(handed, settled, batch, done)
    ensures Of(Flat(handed), c) <= Of(settled + batch + rest, c)
  {
    hide Of;
    OfAppend(settled + batch, rest, c);
    OfAppend(settled, batch, c);
    assert Of(Flat(handed), c) == Of(settled, c) + (if c in done then Of(batch, c) else []);
  }

  // ----- The grouping loop -----

  /** Group a batch by conversation, remembering the order in which conversations first appear. */
  method GroupByConversation(batch: seq<Event>) returns (order: seq<string>, groups: map<string, seq<Event>>)
    ensures order == FirstSeen(batch)
    ensures groups.Keys == ConversationsOf(batch) && forall c | c in groups :: groups[c] == Of(batch, c)
  {
    hide Of, ConversationsOf;
    order, groups := [], map[];
    NoEvents();
    for i := 0 to |batch|
      invariant order == FirstSeen(batch[..i])
      invariant groups.Keys == ConversationsOf(batch[..i]) && forall c | c in groups :: groups[c] == Of(batch[..i], c)
    {
      var e := batch[i];
      ghost var front := batch[..i];
      assert batch[..i + 1] == front + [e] && (front + [e])[..i] == front;
      ConversationsSnoc(front, e);
      forall c ensures Of(front + [e], c) == Of(front, c) + if c == e.conversationID then [e] else [] {
        OfSnoc(front, e, c);
      }
      OfNothing(front, e.conversationID);
      assert e.conversationID in order <==> e.conversationID in Elements(order);
      if e.conversationID !in groups { order := order + [e.conversationID]; }
      groups := groups[e.conversationID := (if e.conversationID in groups then groups[e.conversationID] else []) + [e]];
    }
    assert batch[..|batch|] == batch;
  }

  lemma NoEvents()
    ensures ConversationsOf([]) == {} && FirstSeen([]) == []
  {
  }

  /** The conversations of a batch in the order in which they first appear. */
  function FirstSeen(batch: seq<Event>): (r: seq<string>)
    ensures Elements(r) == ConversationsOf(batch) && NoDuplicates(r)
  {
    if batch == [] then []
    else
      var front, e := batch[..|batch| - 1], batch[|batch| - 1];
      assert batch == front + [e];
      var seen := FirstSeen(front);
      assert e.conversationID in seen <==> e.conversationID in Elements(seen);
      ConversationsSnoc(front, e);
      assert Elements(seen + [e.conversationID]) == Elements(seen) + {e.conversationID};
      if e.conversationID in seen then seen else seen + [e.conversationID]
  }

  // ----- Counting steps -----

  function Times<T>(steps: seq<T>, p: T -> bool): nat {
    |Filter(steps, p)|
  }

  lemma TimesSnoc<T>(steps: seq<T>, n: nat, p: T -> bool)
    requires n < |steps|
    ensures Times(steps[..n + 1], p) == Times(steps[..n], p) + if p(steps[n]) then 1 else 0
    ensures Times(steps[..0], p) == 0
  {
    assert steps[..n + 1] == steps[..n] + [steps[n]];
    FilterAppend(steps[..n], [steps[n]], p);
    assert Filter([steps[n]], p) == if p(steps[n]) then [steps[n]] else [];
  }

  lemma FlatSnoc(groups: seq<seq<Event>>, group: seq<Event>)
    ensures |Flat(groups + [group])| == |Flat(groups)| + |group|
  {
    assert (groups + [group])[..|groups|] == groups;
  }
}
