/** The Go background processor as steps over its mutex and channel (sdk/go/processor.go). Unlike the
    Python one it moves its counters once per conversation group, so a flush counts deliveries
    without knowing which captures they were. */
module GoProcessor {
  import opened Basics
  import opened Sorting
  import opened Batching

  datatype Config = Config(queueSize: nat, batchSize: nat) {
    predicate Lawful() {
      queueSize >= 1 && batchSize >= 1
    }
  }

  // ----- The steps -----

  /** noting: a call has returned and its group is not counted yet. */
  datatype Phase =
    | Waiting
    | Collecting(batch: seq<Event>)
    | Delivering(batch: seq<Event>, todo: set<string>, noting: Option<(string, bool)>, last: bool)
    | Exited

  /** holding: a submitter has sent its capture and still owns the mutex. settled counts the events of
      finished batches; the last three fields are history. */
  datatype State = State(
    queue: seq<Event>, closed: bool, holding: bool, phase: Phase,
    enqueued: nat, committed: nat, dropped: nat, failed: nat, batches: nat, pending: int, settled: nat,
    admitted: seq<Event>, handed: seq<seq<Event>>, confirmed: seq<seq<Event>>)

  const INITIAL := State([], false, false, Waiting, 0, 0, 0, 0, 0, 0, 0, [], [], [])

  datatype Step =
    | Drop
    | Put(event: Event)
    | Count
    | Refuse
    | Close
    | Take
    | Leave
    | Collect
    | CollectClosed
    | StopCollecting
    | Hand(c: string, ok: bool)
    | Note
    | Finish

  predicate Enabled(cfg: Config, s: State, step: Step) {
    match step
    case Drop => !s.holding
    case Put(_) => !s.holding && !s.closed && |s.queue| < cfg.queueSize
    case Count => s.holding
    case Refuse => !s.holding && !s.closed && |s.queue| == cfg.queueSize
    case Close => !s.holding && !s.closed
    case Take => s.phase.Waiting? && s.queue != []
    case Leave => s.phase.Waiting? && s.queue == [] && s.closed
    case Collect => s.phase.Collecting? && |s.phase.batch| < cfg.batchSize && s.queue != []
    case CollectClosed => s.phase.Collecting? && |s.phase.batch| < cfg.batchSize && s.queue == [] && s.closed
    case StopCollecting => s.phase.Collecting?
    case Hand(c, _) => s.phase.Delivering? && s.phase.noting.None? && c in s.phase.todo
    case Note => s.phase.Delivering? && s.phase.noting.Some? && !s.holding
    case Finish => s.phase.Delivering? && s.phase.noting.None? && s.phase.todo == {}
  }

  function Deliver(batch: seq<Event>, last: bool): Phase {
    Delivering(batch, ConversationsOf(batch), None, last)
  }

  /** The state after a step; a step that is not enabled changes nothing. */
  function After(cfg: Config, s: State, step: Step): State {
    if !Enabled(cfg, s, step) then s else
    match step
    case Drop => s.(dropped := s.dropped + 1)
    case Put(e) => s.(queue := s.queue + [e], admitted := s.admitted + [e], holding := true)
    case Count => s.(enqueued := s.enqueued + 1, pending := s.pending + 1, holding := false)
    case Refuse => s.(dropped := s.dropped + 1)
    case Close => s.(closed := true)
    case Take => s.(queue := s.queue[1..], phase := Collecting([s.queue[0]]))
    case Leave => s.(phase := Exited)
    case Collect => s.(queue := s.queue[1..], phase := Collecting(s.phase.batch + [s.queue[0]]))
    case CollectClosed => s.(phase := Deliver(s.phase.batch, true))
    case StopCollecting => s.(phase := Deliver(s.phase.batch, false))
    case Hand(c, ok) =>
      var group := Of(s.phase.batch, c);
      s.(handed := s.handed + [group], confirmed := if ok then s.confirmed + [group] else s.confirmed,
         phase := s.phase.(todo := s.phase.todo - {c}, noting := Some((c, ok))))
    case Note =>
      var size := |Of(s.phase.batch, s.phase.noting.value.0)|;
      var ok := s.phase.noting.value.1;
      s.(committed := s.committed + (if ok then size else 0), failed := s.failed + (if ok then 0 else size),
         batches := s.batches + (if ok then 1 else 0), pending := s.pending - size, phase := s.phase.(noting := None))
    case Finish => s.(settled := s.settled + |s.phase.batch|, phase := if s.phase.last then Exited else Waiting)
  }

  // ----- The invariant -----

  function InHand(phase: Phase): seq<Event> {
    match phase
    case Collecting(batch) => batch
    case Delivering(batch, _, _, _) => batch
    case _ => []
  }

  /** Conversations of the batch in hand that have been handed over; counted; confirmed. */
  function Done(phase: Phase): set<string> {
    if phase.Delivering? then ConversationsOf(phase.batch) - phase.todo else {}
  }

  function Counted(phase: Phase): set<string> {
    Done(phase) - if phase.Delivering? && phase.noting.Some? then {phase.noting.value.0} else {}
  }

  function Accepted(phase: Phase): set<string> {
    Done(phase) - if phase.Delivering? && phase.noting.Some? && !phase.noting.value.1 then {phase.noting.value.0} else {}
  }

  ghost predicate Shape(cfg: Config, s: State) {
    && |s.queue| <= cfg.queueSize && |InHand(s.phase)| <= cfg.batchSize
    && (s.closed ==> !s.holding)
    && (s.phase.Exited? || (s.phase.Delivering? && s.phase.last) ==> s.closed && s.queue == [])
    && (s.phase.Delivering? ==>
          && s.phase.todo <= ConversationsOf(s.phase.batch)
          && (s.phase.noting.Some? ==> s.phase.noting.value.0 in Done(s.phase)))
  }

  ghost predicate Fifo(s: State) {
    s.settled <= |s.admitted| && s.admitted[s.settled..] == InHand(s.phase) + s.queue
  }

  ghost predicate Balanced(s: State) {
    && s.enqueued + (if s.holding then 1 else 0) == |s.admitted|
    && s.committed + s.failed == s.settled + |Within(InHand(s.phase), Counted(s.phase))|
    && s.committed + s.failed <= s.enqueued
    && s.pending == s.enqueued - s.committed - s.failed
  }

  ghost predicate Accounted(cfg: Config, s: State)
    requires s.settled <= |s.admitted|
  {
    && Accounts(s.handed, s.admitted[..s.settled], InHand(s.phase), Done(s.phase))
    && WellGrouped(s.handed, cfg.batchSize)
    && (s.failed == 0 ==> Accounts(s.confirmed, s.admitted[..s.settled], InHand(s.phase), Accepted(s.phase)))
  }

  ghost predicate Inv(cfg: Config, s: State) {
    Shape(cfg, s) && Fifo(s) && Balanced(s) && Accounted(cfg, s)
  }

  lemma InitialInv(cfg: Config)
    ensures Inv(cfg, INITIAL)
  {
    var none: seq<Event> := [];
    WithinNothing(none);
  }

  lemma StepKeepsShape(cfg: Config, s: State, step: Step)
    requires cfg.Lawful() && Shape(cfg, s) && Enabled(cfg, s, step)
    ensures Shape(cfg, After(cfg, s, step))
  {
    hide ConversationsOf, Of;
  }

  lemma StepKeepsFifo(cfg: Config, s: State, step: Step)
    requires Inv(cfg, s) && Enabled(cfg, s, step)
    ensures Fifo(After(cfg, s, step))
  {
    hide Accounted, Balanced, Of, ConversationsOf, Within, Done, Counted, Accepted;
    var k := s.settled;
    assert step.Finish? ==> k + |s.phase.batch| + |s.queue| == |s.admitted|;
    hide Shape;
    match step
    case Put(e) => assert (s.admitted + [e])[k..] == s.admitted[k..] + [e];
    case Take => assert [] + s.queue == [s.queue[0]] + s.queue[1..];
    case Collect => assert s.phase.batch + s.queue == (s.phase.batch + [s.queue[0]]) + s.queue[1..];
    case Finish => BatchLeaves(s.admitted, k, s.phase.batch, s.queue);
    case _ =>
  }

  /** Before delivery starts, and after it ends, no conversation of the batch has had its turn. */
  lemma NoneDone(phase: Phase)
    requires phase.Delivering? ==> phase.todo == ConversationsOf(phase.batch) && phase.noting.None?
    ensures Done(phase) == {} && Counted(phase) == {} && Accepted(phase) == {}
    ensures Within(InHand(phase), Counted(phase)) == []
  {
    hide Within;
    WithinNothing(InHand(phase));
  }

  lemma StepKeepsBalanced(cfg: Config, s: State, step: Step)
    requires Inv(cfg, s) && Enabled(cfg, s, step)
    ensures Balanced(After(cfg, s, step))
  {
    hide Accounted, Of, ConversationsOf, Within;
    var t := After(cfg, s, step);
    match step
    case Hand(c, ok) => assert Counted(t.phase) == Counted(s.phase);
    case Note =>
      var c := s.phase.noting.value.0;
      assert Counted(t.phase) == Counted(s.phase) + {c};
      WithinAdd(s.phase.batch, Counted(s.phase), c);
      BatchLeaves(s.admitted, s.settled, s.phase.batch, s.queue);
      WithinSize(s.phase.batch, Counted(t.phase));
    case Finish =>
      assert Counted(s.phase) == ConversationsOf(s.phase.batch);
      WithinAll(s.phase.batch, Counted(s.phase));
      NoneDone(t.phase);
    case _ =>
      if step.Take? || step.Leave? || step.Collect? || step.CollectClosed? || step.StopCollecting? {
        NoneDone(s.phase);
        NoneDone(t.phase);
      }
  }

  lemma StepKeepsAccounted(cfg: Config, s: State, step: Step)
    requires cfg.Lawful() && Inv(cfg, s) && Enabled(cfg, s, step) && Fifo(After(cfg, s, step))
    ensures Accounted(cfg, After(cfg, s, step))
  {
    hide Accounts, Of, WellGrouped, ConversationsOf, Balanced, Within;
    var t, k := After(cfg, s, step), s.settled;
    if step.Take? || step.Collect? || step.Leave? || step.CollectClosed? || step.StopCollecting? {
      NoneDone(s.phase);
      NoneDone(t.phase);
    }
    match step
    case Put(e) => assert t.admitted[..k] == s.admitted[..k];
    case Take => Begin(s, t);
    case Collect => Begin(s, t);
    case Hand(c, ok) =>
      assert Done(t.phase) == Done(s.phase) + {c};
      assert Accepted(t.phase) == if ok then Accepted(s.phase) + {c} else Accepted(s.phase);
      HandGroup(s.handed, s.admitted[..k], s.phase.batch, Done(s.phase), c);
      HandGroupWell(s.handed, cfg.batchSize, s.phase.batch, c);
      if ok && s.failed == 0 { HandGroup(s.confirmed, s.admitted[..k], s.phase.batch, Accepted(s.phase), c); }
    case Note =>
      OfNothing(s.phase.batch, s.phase.noting.value.0);
      assert Done(t.phase) == Done(s.phase);
      assert t.failed == 0 ==> Accepted(t.phase) == Accepted(s.phase);
    case Finish =>
      assert Done(s.phase) == Accepted(s.phase) == ConversationsOf(s.phase.batch);
      NoneDone(t.phase);
      BatchLeaves(s.admitted, k, s.phase.batch, s.queue);
      SettleBatch(s.handed, s.admitted[..k], s.phase.batch, Done(s.phase));
      if s.failed == 0 { SettleBatch(s.confirmed, s.admitted[..k], s.phase.batch, Accepted(s.phase)); }
    case _ =>
  }

  lemma Begin(s: State, t: State)
    requires s.settled <= |s.admitted| && t.settled == s.settled && t.admitted == s.admitted
    requires !s.phase.Delivering? && t.phase.Collecting?
    requires t.handed == s.handed && t.confirmed == s.confirmed
    requires Accounts(s.handed, s.admitted[..s.settled], InHand(s.phase), {})
    ensures Accounts(t.handed, t.admitted[..t.settled], InHand(t.phase), {})
    ensures Accounts(s.confirmed, s.admitted[..s.settled], InHand(s.phase), {}) ==>
              Accounts(t.confirmed, t.admitted[..t.settled], InHand(t.phase), {})
  {
    hide Accounts;
    BeginBatch(s.handed, s.admitted[..s.settled], InHand(s.phase), InHand(t.phase));
    if Accounts(s.confirmed, s.admitted[..s.settled], InHand(s.phase), {}) {
      BeginBatch(s.confirmed, s.admitted[..s.settled], InHand(s.phase), InHand(t.phase));
    }
  }

  lemma StepKeepsInv(cfg: Config, s: State, step: Step)
    requires cfg.Lawful() && Inv(cfg, s) && Enabled(cfg, s, step)
    ensures Inv(cfg, After(cfg, s, step))
  {
    StepKeepsShape(cfg, s, step);
    StepKeepsFifo(cfg, s, step);
    StepKeepsBalanced(cfg, s, step);
    StepKeepsAccounted(cfg, s, step);
  }

  // ----- Runs -----

  ghost predicate Run(cfg: Config, states: seq<State>, steps: seq<Step>) {
    && |states| == |steps| + 1 && states[0] == INITIAL
    && forall i | 0 <= i < |steps| :: Enabled(cfg, states[i], steps[i]) && states[i + 1] == After(cfg, states[i], steps[i])
  }

  lemma {:induction false} RunKeepsInv(cfg: Config, states: seq<State>, steps: seq<Step>, n: nat)
    requires cfg.Lawful() && Run(cfg, states, steps) && n <= |steps|
    ensures Inv(cfg, states[n])
  {
    hide Inv;
    if n == 0 {
      InitialInv(cfg);
    } else {
      RunKeepsInv(cfg, states, steps, n - 1);
      StepKeepsInv(cfg, states[n - 1], steps[n - 1]);
    }
  }

  lemma {:induction false} AdmittedGrows(cfg: Config, states: seq<State>, steps: seq<Step>, m: nat, n: nat)
    requires Run(cfg, states, steps) && m <= n <= |steps|
    ensures states[m].admitted <= states[n].admitted
    decreases n
  {
    if m < n { AdmittedGrows(cfg, states, steps, m, n - 1); }
  }

  /** Whenever the mutex is free, every capture counted as enqueued is committed, failed or pending;
      the pending ones are queued or in the batch in hand. */
  lemma Conservation(cfg: Config, states: seq<State>, steps: seq<Step>, n: nat)
    requires cfg.Lawful() && Run(cfg, states, steps) && n <= |steps| && !states[n].holding
    ensures states[n].enqueued == states[n].committed + states[n].failed + states[n].pending
    ensures 0 <= states[n].pending <= |InHand(states[n].phase)| + |states[n].queue|
    ensures states[n].enqueued == |states[n].admitted|
  {
    RunKeepsInv(cfg, states, steps, n);
    assert |states[n].admitted[states[n].settled..]| == |InHand(states[n].phase)| + |states[n].queue|;
  }

  lemma AtMostOnceInOrder(cfg: Config, states: seq<State>, steps: seq<Step>, n: nat, c: string)
    requires cfg.Lawful() && Run(cfg, states, steps) && n <= |steps|
    ensures Of(Flat(states[n].handed), c) <= Of(states[n].admitted, c)
    ensures WellGrouped(states[n].handed, cfg.batchSize)
  {
    hide Of, Flat, Within;
    RunKeepsInv(cfg, states, steps, n);
    var s, k := states[n], states[n].settled;
    AccountsArePrefix(s.handed, s.admitted[..k], InHand(s.phase), Done(s.phase), s.queue, c);
    assert s.admitted == s.admitted[..k] + s.admitted[k..];
    assert s.admitted == s.admitted[..k] + InHand(s.phase) + s.queue;
  }

  /** A completed shutdown: the channel was closed, drained and every capture handed over once. */
  lemma ExitMeansAllHanded(cfg: Config, states: seq<State>, steps: seq<Step>, n: nat, c: string)
    requires cfg.Lawful() && Run(cfg, states, steps) && n <= |steps| && states[n].phase.Exited?
    ensures Of(Flat(states[n].handed), c) == Of(states[n].admitted, c)
    ensures states[n].closed && states[n].queue == [] && states[n].pending == 0
  {
    hide Of, Flat;
    RunKeepsInv(cfg, states, steps, n);
    var s := states[n];
    WithinNothing(InHand(s.phase));
    assert s.admitted[..s.settled] == s.admitted;
    assert Of(Flat(s.handed), c) == Of(s.admitted, c) + (if c in Done(s.phase) then Of([], c) else []);
  }

  // ----- What a flush means -----

  /** Flush read its target in state m and returned nil in state n. */
  ghost predicate FlushReturns(states: seq<State>, m: nat, n: nat)
    requires m <= n < |states|
  {
    && !states[m].holding && !states[n].holding
    && states[n].committed + states[n].failed >= states[m].enqueued && states[n].failed == 0
  }

  /** Everything admitted by state m is confirmed in state n. */
  ghost predicate AllConfirmed(states: seq<State>, m: nat, n: nat)
    requires m <= n < |states|
  {
    forall c :: Of(states[m].admitted, c) <= Of(Flat(states[n].confirmed), c)
  }

  /** The captures the flush waits for that sit in the batch in hand. */
  function Overlap(s: State, target: nat): seq<Event> {
    if target <= s.settled then []
    else if target - s.settled <= |InHand(s.phase)| then InHand(s.phase)[..target - s.settled]
    else InHand(s.phase)
  }

  lemma OverlapPrefix(batch: seq<Event>, n: nat, done: set<string>, c: string)
    requires n <= |batch|
    ensures c in done ==> Of(batch[..n], c) <= Of(batch, c)
    ensures Of(batch[..n], c) == [] <==> c !in ConversationsOf(batch[..n])
  {
    OfAppend(batch[..n], batch[n..], c);
    assert batch == batch[..n] + batch[n..];
    OfNothing(batch[..n], c);
  }

  /** The exact meaning of a nil Flush. The captures admitted before it are all confirmed if and only
      if none of them, in the batch in hand, belongs to a conversation still to be delivered. */
  lemma FlushStrongIff(cfg: Config, states: seq<State>, steps: seq<Step>, m: nat, n: nat)
    requires cfg.Lawful() && Run(cfg, states, steps) && m <= n <= |steps| && FlushReturns(states, m, n)
    ensures AllConfirmed(states, m, n) <==>
              ConversationsOf(Overlap(states[n], states[m].enqueued)) <= Accepted(states[n].phase)
  {
    hide Of, Flat, Within, ConversationsOf, Enabled, After, WellGrouped, Overlap;
    RunKeepsInv(cfg, states, steps, m);
    RunKeepsInv(cfg, states, steps, n);
    AdmittedGrows(cfg, states, steps, m, n);
    var s, before := states[n], states[m].admitted;
    WithinSize(InHand(s.phase), Counted(s.phase));
    forall c ensures Of(before, c) <= Of(Flat(s.confirmed), c) <==>
        (c in ConversationsOf(Overlap(s, |before|)) ==> c in Accepted(s.phase))
    {
      assert Of(Flat(s.confirmed), c) ==
        Of(s.admitted[..s.settled], c) + (if c in Accepted(s.phase) then Of(InHand(s.phase), c) else []);
      ConfirmedIff(s, before, c);
    }
  }

  /** One conversation at a flush: its share of the captures before it is confirmed unless the batch in
      hand holds some of them and the conversation is not yet accepted. */
  lemma ConfirmedIff(s: State, before: seq<Event>, c: string)
    requires Fifo(s) && before <= s.admitted && |before| <= s.settled + |InHand(s.phase)|
    requires Of(Flat(s.confirmed), c) ==
             Of(s.admitted[..s.settled], c) + (if c in Accepted(s.phase) then Of(InHand(s.phase), c) else [])
    ensures Of(before, c) <= Of(Flat(s.confirmed), c) <==>
            (c in ConversationsOf(Overlap(s, |before|)) ==> c in Accepted(s.phase))
  {
    hide Of, Flat, ConversationsOf, Accepted;
    var batch, target, k := InHand(s.phase), |before|, s.settled;
    BatchLeaves(s.admitted, k, batch, s.queue);
    if target <= k {
      assert s.admitted[..k] == before + s.admitted[target..k];
      OfAppend(before, s.admitted[target..k], c);
      OfNothing([], c);
      NothingOf(c);
    } else {
      assert before == s.admitted[..k] + batch[..target - k];
      OfAppend(s.admitted[..k], batch[..target - k], c);
      OverlapPrefix(batch, target - k, Accepted(s.phase), c);
    }
  }

  lemma NothingOf(c: string)
    ensures Of([], c) == []
  {
  }

  /** In particular a flush with no submission after it is a delivery boundary. */
  lemma QuietFlushConfirmsAll(cfg: Config, states: seq<State>, steps: seq<Step>, m: nat, n: nat)
    requires cfg.Lawful() && Run(cfg, states, steps) && m <= n <= |steps| && FlushReturns(states, m, n)
    requires states[n].enqueued == states[m].enqueued
    ensures AllConfirmed(states, m, n)
  {
    hide Of, Flat, AllConfirmed;
    RunKeepsInv(cfg, states, steps, n);
    var s := states[n];
    var batch := InHand(s.phase);
    assert |s.admitted[s.settled..]| == |batch| + |s.queue|;
    WithinSize(batch, Counted(s.phase));
    EveryoneWithin(batch, Counted(s.phase));
    forall e | e in Overlap(s, s.enqueued) ensures e.conversationID in Accepted(s.phase) {
      assert e in batch;
    }
    FlushStrongIff(cfg, states, steps, m, n);
  }

  lemma {:induction false} EveryoneWithin(events: seq<Event>, conversations: set<string>)
    requires |Within(events, conversations)| == |events|
    ensures ConversationsOf(events) <= conversations
  {
    if events != [] {
      WithinSize(events[1..], conversations);
      EveryoneWithin(events[1..], conversations);
    }
  }

  /** Run one more step. */
  lemma RunSnoc(cfg: Config, states: seq<State>, steps: seq<Step>, step: Step, next: State)
    requires Run(cfg, states, steps) && Enabled(cfg, states[|steps|], step) && next == After(cfg, states[|steps|], step)
    ensures Run(cfg, states + [next], steps + [step])
  {
    hide After, Enabled;
  }

  /** The worker takes the first of two captures before the second arrives; both end up in one batch. */
  lemma TwoInOneBatch(cfg: Config, a: Event, b: Event) returns (states: seq<State>, steps: seq<Step>)
    requires cfg.queueSize >= 1 && cfg.batchSize >= 2
    ensures Run(cfg, states, steps) && |steps| == 6
    ensures states[2] == State([a], false, false, Waiting, 1, 0, 0, 0, 0, 1, 0, [a], [], [])
    ensures states[6] == State([], false, false, Collecting([a, b]), 2, 0, 0, 0, 0, 2, 0, [a, b], [], [])
  {
    var s1 := State([a], false, true, Waiting, 0, 0, 0, 0, 0, 0, 0, [a], [], []);
    var s2 := s1.(holding := false, enqueued := 1, pending := 1);
    var s3 := s2.(queue := [], phase := Collecting([a]));
    var s4 := s3.(queue := [b], admitted := [a, b], holding := true);
    var s5 := s4.(holding := false, enqueued := 2, pending := 2);
    var s6 := s5.(queue := [], phase := Collecting([a, b]));
    RunSnoc(cfg, [INITIAL], [], Put(a), s1);
    RunSnoc(cfg, [INITIAL, s1], [Put(a)], Count, s2);
    RunSnoc(cfg, [INITIAL, s1, s2], [Put(a), Count], Take, s3);
    RunSnoc(cfg, [INITIAL, s1, s2, s3], [Put(a), Count, Take], Put(b), s4);
    RunSnoc(cfg, [INITIAL, s1, s2, s3, s4], [Put(a), Count, Take, Put(b)], Count, s5);
    RunSnoc(cfg, [INITIAL, s1, s2, s3, s4, s5], [Put(a), Count, Take, Put(b), Count], Collect, s6);
    states, steps := [INITIAL, s1, s2, s3, s4, s5, s6], [Put(a), Count, Take, Put(b), Count, Collect];
  }

  lemma TwoGroups(a: Event, b: Event)
    requires a.conversationID != b.conversationID
    ensures Of([a, b], b.conversationID) == [b] && ConversationsOf([a, b]) == {a.conversationID, b.conversationID}
  {
    OfAppend([a], [b], b.conversationID);
    assert [a] + [b] == [a, b];
    assert a in [a, b] && b in [a, b];
  }

  /** The flush can return nil while a capture admitted before it is undelivered: a is submitted, the
      flush reads 1, b joins the same batch, and b's conversation is delivered first. */
  lemma FlushReturnsEarly(cfg: Config, a: Event, b: Event) returns (states: seq<State>, steps: seq<Step>)
    requires cfg.queueSize >= 1 && cfg.batchSize >= 2 && a.conversationID != b.conversationID
    ensures Run(cfg, states, steps) && |steps| == 9 && FlushReturns(states, 2, 9)
    ensures states[2].admitted == [a] && states[9].handed == [[b]] && states[9].confirmed == [[b]]
  {
    var before, taken := TwoInOneBatch(cfg, a, b);
    TwoGroups(a, b);
    hide ConversationsOf, Of, Run;
    var c, d := a.conversationID, b.conversationID;
    assert {c, d} - {d} == {c};
    var s7 := before[6].(phase := Delivering([a, b], {c, d}, None, false));
    var s8 := s7.(handed := [[b]], confirmed := [[b]], phase := Delivering([a, b], {c}, Some((d, true)), false));
    var s9 := s8.(committed := 1, batches := 1, pending := 1, phase := Delivering([a, b], {c}, None, false));
    RunLength(cfg, before, taken);
    RunSnoc(cfg, before, taken, StopCollecting, s7);
    RunSnoc(cfg, before + [s7], taken + [StopCollecting], Hand(d, true), s8);
    RunSnoc(cfg, before + [s7] + [s8], taken + [StopCollecting] + [Hand(d, true)], Note, s9);
    states := before + [s7] + [s8] + [s9];
    steps := taken + [StopCollecting] + [Hand(d, true)] + [Note];
  }

  /** In every run every nil flush has all earlier captures confirmed. */
  ghost predicate FlushIsBoundary(cfg: Config) {
    forall states: seq<State>, steps: seq<Step>, m: nat, n: nat
      | Run(cfg, states, steps) && m <= n < |states| && FlushReturns(states, m, n) :: AllConfirmed(states, m, n)
  }

  /** With batches of one, a counted delivery is of the oldest capture there is. */
  lemma SingleBatchConfirms(cfg: Config, states: seq<State>, steps: seq<Step>, m: nat, n: nat)
    requires cfg.Lawful() && cfg.batchSize == 1
    requires Run(cfg, states, steps) && m <= n <= |steps| && FlushReturns(states, m, n)
    ensures AllConfirmed(states, m, n)
  {
    hide Of, Flat, AllConfirmed, Accounted, After, Enabled;
    RunKeepsInv(cfg, states, steps, n);
    var s, target := states[n], states[m].enqueued;
    if target > s.settled {
      assert |Within(InHand(s.phase), Counted(s.phase))| >= 1;
      WithinSize(InHand(s.phase), Counted(s.phase));
      EveryoneWithin(InHand(s.phase), Counted(s.phase));
    }
    FlushStrongIff(cfg, states, steps, m, n);
  }

  /** Flush is a delivery boundary exactly when batches hold a single capture. */
  lemma FlushBoundaryIff(cfg: Config)
    requires cfg.Lawful()
    ensures FlushIsBoundary(cfg) <==> cfg.batchSize == 1
  {
    hide Run, FlushReturns, AllConfirmed;
    if cfg.batchSize == 1 {
      forall states: seq<State>, steps: seq<Step>, m: nat, n: nat
        | Run(cfg, states, steps) && m <= n < |states| && FlushReturns(states, m, n)
        ensures AllConfirmed(states, m, n)
      {
        RunLength(cfg, states, steps);
        SingleBatchConfirms(cfg, states, steps, m, n);
      }
    } else {
      var a, b := Event("a", 0), Event("b", 0);
      assert "a"[0] != "b"[0];
      var states, steps := FlushReturnsEarly(cfg, a, b);
      RunLength(cfg, states, steps);
      EarlyUnconfirmed(states, a, b);
    }
  }

  lemma EarlyUnconfirmed(states: seq<State>, a: Event, b: Event)
    requires |states| == 10 && states[2].admitted == [a] && states[9].confirmed == [[b]] && a.conversationID != b.conversationID
    ensures !AllConfirmed(states, 2, 9)
  {
    var c := a.conversationID;
    assert [[b]][..0] == [];
    assert Flat([[b]]) == [b];
    OfNothing([b], c);
    OfNothing([a], c);
    assert a in [a];
    assert |Of(states[2].admitted, c)| > |Of(Flat(states[9].confirmed), c)|;
  }

  lemma RunLength(cfg: Config, states: seq<State>, steps: seq<Step>)
    requires Run(cfg, states, steps)
    ensures |states| == |steps| + 1
  {
  }

  // ----- What the counters tell -----

  predicate IsDrop(step: Step) { step.Drop? || step.Refuse? }
  predicate IsCall(step: Step) { step.Hand? }
  predicate IsSuccess(step: Step) { step.Hand? && step.ok }

  /** The size of the group whose call has returned and is not counted yet; whether it succeeded. */
  function Uncounted(s: State): nat {
    if s.phase.Delivering? && s.phase.noting.Some? then |Of(s.phase.batch, s.phase.noting.value.0)| else 0
  }

  predicate UncountedSuccess(s: State) {
    s.phase.Delivering? && s.phase.noting.Some? && s.phase.noting.value.1
  }

  /** The counters tell how often captures were turned away and calls succeeded, and how many captures the
      successful and the failed calls held, but for a call that is not counted yet. */
  ghost predicate Tells(s: State, steps: seq<Step>) {
    && s.dropped == Times(steps, IsDrop)
    && |s.handed| == Times(steps, IsCall) && |s.confirmed| == Times(steps, IsSuccess)
    && s.batches + (if UncountedSuccess(s) then 1 else 0) == |s.confirmed|
    && s.committed + (if UncountedSuccess(s) then Uncounted(s) else 0) == |Flat(s.confirmed)|
    && s.committed + s.failed + Uncounted(s) == |Flat(s.handed)|
  }

  lemma StepTells(cfg: Config, s: State, steps: seq<Step>, step: Step)
    requires Enabled(cfg, s, step) && Tells(s, steps)
    ensures Tells(After(cfg, s, step), steps + [step])
  {
    hide Of, Flat, ConversationsOf, Times;
    var more := steps + [step];
    assert more[..|steps|] == steps && more[..|steps| + 1] == more;
    TimesSnoc(more, |steps|, IsDrop);
    TimesSnoc(more, |steps|, IsCall);
    TimesSnoc(more, |steps|, IsSuccess);
    if step.Hand? {
      FlatSnoc(s.handed, Of(s.phase.batch, step.c));
      FlatSnoc(s.confirmed, Of(s.phase.batch, step.c));
    }
  }

  lemma {:induction false} CountersTell(cfg: Config, states: seq<State>, steps: seq<Step>, n: nat)
    requires Run(cfg, states, steps) && n <= |steps|
    ensures Tells(states[n], steps[..n])
  {
    hide Enabled, After, Tells;
    if n == 0 {
      assert Tells(INITIAL, []) by { NothingTold(); }
    } else {
      CountersTell(cfg, states, steps, n - 1);
      assert steps[..n] == steps[..n - 1] + [steps[n - 1]];
      StepTells(cfg, states[n - 1], steps[..n - 1], steps[n - 1]);
    }
  }

  lemma NothingTold()
    ensures Tells(INITIAL, [])
  {
  }

  // ----- The object -----

  datatype Overflow = OverflowDrop | OverflowBlock

  datatype SubmitError = ShutDown | Cancelled

  function WithDefaults(queueSize: nat, batchSize: nat): (cfg: Config)
    ensures cfg.Lawful()
  {
    Config(if queueSize == 0 then 8192 else queueSize, if batchSize == 0 then 128 else batchSize)
  }

  /** The worker can receive without the mutex: it is waiting, collecting, or has counted the last group of
      its batch. Before that it needs the mutex to go on, and receives nothing. */
  predicate MakesRoom(cfg: Config, phase: Phase) {
    match phase
    case Waiting => true
    case Collecting(batch) => |batch| < cfg.batchSize
    case Delivering(_, todo, noting, last) => todo == {} && noting.None? && !last
    case Exited => false
  }

  /** The state once there is room: after the worker received, if the channel was full. */
  function Roomy(cfg: Config, s: State): State {
    if |s.queue| < cfg.queueSize then s
    else match s.phase
      case Waiting => After(cfg, s, Take)
      case Collecting(_) => After(cfg, s, Collect)
      case _ => After(cfg, After(cfg, s, Finish), Take)
  }

  /** The processor object, with what its worker holds. Every section under the mutex and every move
      of the worker is a step of the system above; now is the state of that system. */
  class BackgroundProcessor {
    const cfg: Config
    const overflow: Overflow
    var queue: seq<Event>
    var closed: bool
    var phase: Phase
    var enqueued: nat
    var committed: nat
    var dropped: nat
    var failed: nat
    var batches: nat
    var pending: int
    ghost var now: State

    /** The fields are those of the state, and the invariant holds. */
    ghost predicate Valid()
      reads this
    {
      && cfg.Lawful() && Inv(cfg, now) && !now.holding
      && queue == now.queue && closed == now.closed && phase == now.phase
      && enqueued == now.enqueued && committed == now.committed && dropped == now.dropped && failed == now.failed
      && batches == now.batches && pending == now.pending
    }

    constructor (queueSize: nat, batchSize: nat, overflow: Overflow)
      ensures Valid() && now == INITIAL && cfg == WithDefaults(queueSize, batchSize) && this.overflow == overflow
    {
      hide Inv;
      this.cfg, this.overflow := WithDefaults(queueSize, batchSize), overflow;
      queue, closed, phase := [], false, Waiting;
      enqueued, committed, dropped, failed, batches, pending := 0, 0, 0, 0, 0, 0;
      now := INITIAL;
      InitialInv(WithDefaults(queueSize, batchSize));
    }

    /** One step of the system. */
    ghost method Advance(step: Step)
      requires cfg.Lawful() && Inv(cfg, now) && Enabled(cfg, now, step)
      modifies this`now
      ensures now == After(cfg, old(now), step) && Inv(cfg, now)
    {
      hide *;
      StepKeepsInv(cfg, now, step);
      now := After(cfg, now, step);
    }

    /** There is room, or there will be before a blocking send gives up. */
    predicate HasRoom(inTime: bool)
      reads this
    {
      |queue| < cfg.queueSize || (overflow == OverflowBlock && inTime && MakesRoom(cfg, phase))
    }

    /** Submit with the mutex held. A blocking send on a full channel waits while it owns the mutex, so the
        worker can only make room by receiving; inTime says whether it does so before the context ends. */
    method Submit(prepared: Option<Event>, inTime: bool) returns (r: Result<bool, SubmitError>)
      requires Valid()
      modifies this
      ensures Valid()
      ensures r == Ok(true) <==> prepared.Some? && !old(closed) && old(HasRoom(inTime))
      ensures r == Err(ShutDown) <==> prepared.Some? && old(closed)
      ensures r == Err(Cancelled) <==> prepared.Some? && !old(closed) && !old(HasRoom(inTime)) && overflow == OverflowBlock
      ensures now == if r == Ok(true) then After(cfg, After(cfg, Roomy(cfg, old(now)), Put(prepared.value)), Count)
                     else if r.Err? then old(now) else After(cfg, old(now), Drop)
    {
      hide Inv;
      InvBounds(cfg, now);
      if prepared.None? {
        dropped := dropped + 1;
        Advance(Drop);
        return Ok(false);
      }
      if closed { return Err(ShutDown); }
      if |queue| >= cfg.queueSize && HasRoom(inTime) {
        if phase.Delivering? { Finish(); }
        if phase.Waiting? { Receive(); } else { Collect(); }
      }
      if |queue| < cfg.queueSize {
        queue := queue + [prepared.value];
        Advance(Put(prepared.value));
        enqueued, pending := enqueued + 1, pending + 1;
        Advance(Count);
        return Ok(true);
      }
      if overflow == OverflowBlock { return Err(Cancelled); }
      dropped := dropped + 1;
      Advance(Refuse);
      r := Ok(false);
    }

    /** Shutdown closes the channel once. */
    method Close()
      requires Valid()
      modifies this`closed, this`now
      ensures Valid() && closed && now == if old(closed) then old(now) else After(cfg, old(now), Step.Close)
    {
      hide Inv;
      if closed { return; }
      closed := true;
      Advance(Step.Close);
    }

    /** The worker's moves. Receiving from a closed and empty channel ends the loop. */
    method Receive()
      requires Valid() && phase.Waiting? && (queue != [] || closed)
      modifies this`queue, this`phase, this`now
      ensures Valid() && now == After(cfg, old(now), if old(queue) != [] then Take else Leave)
    {
      hide Inv;
      if queue == [] {
        phase := Exited;
        Advance(Leave);
      } else {
        phase := Collecting([queue[0]]);
        queue := queue[1..];
        Advance(Take);
      }
    }

    method Collect()
      requires Valid() && phase.Collecting? && |phase.batch| < cfg.batchSize && (queue != [] || closed)
      modifies this`queue, this`phase, this`now
      ensures Valid() && now == After(cfg, old(now), if old(queue) != [] then Step.Collect else CollectClosed)
    {
      hide Inv, ConversationsOf;
      if queue == [] {
        var _, groups := GroupByConversation(phase.batch);
        phase := Delivering(phase.batch, groups.Keys, None, true);
        Advance(CollectClosed);
      } else {
        phase := Collecting(phase.batch + [queue[0]]);
        queue := queue[1..];
        Advance(Step.Collect);
      }
    }

    method StopCollecting()
      requires Valid() && phase.Collecting?
      modifies this`phase, this`now
      ensures Valid() && now == After(cfg, old(now), Step.StopCollecting)
    {
      hide Inv, ConversationsOf;
      var _, groups := GroupByConversation(phase.batch);
      phase := Delivering(phase.batch, groups.Keys, None, false);
      Advance(Step.StopCollecting);
    }

    /** One call to the client, and its counters under the mutex. */
    method HandOver(c: string, group: seq<Event>, ok: bool)
      requires Valid() && phase.Delivering? && phase.noting.None? && c in phase.todo && group == Of(phase.batch, c)
      modifies this`phase, this`committed, this`failed, this`batches, this`pending, this`now
      ensures Valid() && now == After(cfg, After(cfg, old(now), Hand(c, ok)), Note)
      ensures phase == old(phase).(todo := old(phase.todo) - {c}) && queue == old(queue)
      ensures now.admitted == old(now.admitted) && now.handed == old(now.handed) + [group] && now.settled == old(now.settled)
    {
      hide Inv, Of;
      phase := phase.(todo := phase.todo - {c}, noting := Some((c, ok)));
      Advance(Hand(c, ok));
      if ok { committed, batches := committed + |group|, batches + 1; } else { failed := failed + |group|; }
      pending := pending - |group|;
      phase := phase.(noting := None);
      Advance(Note);
    }

    /** Deliver the batch in hand, conversation by conversation in whatever order the map is walked. */
    method DeliverBatch(accepts: string -> bool)
      requires Valid() && phase.Delivering? && phase.noting.None? && phase.todo == ConversationsOf(phase.batch)
      modifies this
      ensures Valid() && phase == if old(phase.last) then Exited else Waiting
      ensures queue == old(queue) && now.admitted == old(now.admitted) && old(now.handed) <= now.handed
      ensures now.settled == old(now.settled) + |old(phase.batch)|
    {
      hide Inv, Of, After, Enabled, ConversationsOf;
      var batch, last := phase.batch, phase.last;
      var _, groups := GroupByConversation(batch);
      while phase.todo != {}
        invariant Valid() && phase.Delivering? && phase.noting.None? && phase.batch == batch && phase.last == last
        invariant phase.todo <= groups.Keys
        invariant queue == old(queue) && now.admitted == old(now.admitted) && old(now.handed) <= now.handed
        invariant now.settled == old(now.settled)
        decreases phase.todo
      {
        var c :| c in phase.todo;
        HandOver(c, groups[c], accepts(c));
      }
      Finish();
    }

    method Finish()
      requires Valid() && phase.Delivering? && phase.noting.None? && phase.todo == {}
      modifies this`phase, this`now
      ensures Valid() && now == After(cfg, old(now), Step.Finish)
      ensures phase == (if old(phase.last) then Exited else Waiting)
      ensures now.admitted == old(now.admitted) && now.handed == old(now.handed) && now.queue == old(now.queue)
      ensures now.settled == old(now.settled) + |old(phase.batch)|
    {
      hide Inv;
      phase := if phase.last then Exited else Waiting;
      Advance(Step.Finish);
    }

    /** One round of the worker: receive a capture, collect more for at most patience captures, deliver.
        It leaves exactly when the channel is closed and drained, with everything delivered. */
    method WorkerRound(patience: nat, accepts: string -> bool)
      requires Valid() && phase.Waiting? && (queue != [] || closed)
      modifies this
      ensures Valid() && (phase.Waiting? || phase.Exited?)
      ensures now.admitted == old(now.admitted) && old(now.handed) <= now.handed
      ensures phase.Exited? ==> queue == [] && closed && committed + failed == enqueued
    {
      hide Inv, ConversationsOf;
      Receive();
      var waited := 0;
      while phase.Collecting? && |phase.batch| < cfg.batchSize && waited < patience && (queue != [] || closed)
        invariant Valid() && now.admitted == old(now.admitted) && old(now.handed) == now.handed
        invariant phase.Collecting? || phase.Exited?
               || (phase.Delivering? && phase.noting.None? && phase.todo == ConversationsOf(phase.batch))
        decreases patience - waited
      {
        Collect();
        waited := waited + 1;
      }
      if phase.Collecting? { StopCollecting(); }
      if phase.Delivering? { DeliverBatch(accepts); }
      InvBounds(cfg, now);
    }
  }

  lemma InvBounds(cfg: Config, s: State)
    requires Inv(cfg, s)
    ensures |s.queue| <= cfg.queueSize
    ensures s.phase.Exited? ==> s.queue == [] && s.closed && s.committed + s.failed == |s.admitted|
    ensures !s.holding ==> s.enqueued == |s.admitted|
  {
    WithinNothing(InHand(s.phase));
    if s.phase.Exited? { NoneDone(s.phase); }
  }
}
