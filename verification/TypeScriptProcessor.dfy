/** The TypeScript background processor as event-loop turns: everything between two suspension
    points is one step (sdk/typescript/src/processor.ts). */
module TypeScriptProcessor {
  import opened Basics
  import opened Sorting
  import opened Batching

  /** The constructor refuses sizes below one. */
  datatype Config = Config(maxQueue: nat, maxBatch: nat) {
    predicate Lawful() {
      maxQueue >= 1 && maxBatch >= 1
    }
  }

  // ----- The steps -----

  /** A running delivery: todo[0] is the conversation whose call is in flight, or, when observing,
      whose error the observer is being told. */
  datatype Delivery = Delivery(batch: seq<Event>, todo: seq<string>, observing: bool)

  /** flushers counts flush loops that have not returned; settled the events of finished deliveries;
      the last two fields are history. */
  datatype State = State(
    queue: seq<Event>, timer: bool, draining: bool, delivery: Option<Delivery>, closed: bool, flushers: nat,
    enqueued: nat, committed: nat, dropped: nat, failed: nat, batches: nat, pending: int, settled: nat,
    admitted: seq<Event>, handed: seq<seq<Event>>)

  const INITIAL := State([], false, false, None, false, 0, 0, 0, 0, 0, 0, 0, 0, [], [])

  datatype Step =
    | Submit(prepared: Option<Event>)
    | Flush
    | Shutdown
    | TimerFires
    | CallSettles(ok: bool)
    | ObserverSettles
    | DrainSettles
    | FlusherWakes

  predicate Enabled(s: State, step: Step) {
    match step
    case Submit(_) => true
    case Flush => true
    case Shutdown => true
    case TimerFires => s.timer
    case CallSettles(_) => s.delivery.Some? && !s.delivery.value.observing && s.delivery.value.todo != []
    case ObserverSettles => s.delivery.Some? && s.delivery.value.observing && s.delivery.value.todo != []
    case DrainSettles => s.draining && s.delivery.None?
    case FlusherWakes => s.flushers > 0 && !s.draining
  }

  function Schedule(s: State): State {
    if s.timer || s.draining then s else s.(timer := true)
  }

  function Drain(cfg: Config, s: State): State {
    if s.draining || s.queue == [] then s
    else
      var n := if |s.queue| < cfg.maxBatch then |s.queue| else cfg.maxBatch;
      var batch, order := s.queue[..n], FirstSeen(s.queue[..n]);
      s.(queue := s.queue[n..], draining := true, delivery := Some(Delivery(batch, order, false)),
         handed := if order == [] then s.handed else s.handed + [Of(batch, order[0])])
  }

  /** The loop test of a flush: start or join a drain, or return. */
  function FlushTest(cfg: Config, s: State): State {
    if s.queue == [] && !s.draining then s else Drain(cfg, s).(flushers := s.flushers + 1)
  }

  /** The group in flight is finished; hand over the next or end the delivery. */
  function Advance(s: State): State
    requires s.delivery.Some? && s.delivery.value.todo != []
  {
    var d := s.delivery.value;
    if |d.todo| == 1 then s.(delivery := None, settled := s.settled + |d.batch|)
    else s.(delivery := Some(Delivery(d.batch, d.todo[1..], false)), handed := s.handed + [Of(d.batch, d.todo[1])])
  }

  function InFlight(s: State): nat
    requires s.delivery.Some? && s.delivery.value.todo != []
  {
    |Of(s.delivery.value.batch, s.delivery.value.todo[0])|
  }

  /** The state after a step; a step that is not enabled changes nothing. */
  function After(cfg: Config, s: State, step: Step): State {
    if !Enabled(s, step) then s else
    match step
    case Submit(None) => s.(dropped := s.dropped + 1)
    case Submit(Some(e)) =>
      if s.closed then s
      else if |s.queue| >= cfg.maxQueue then s.(dropped := s.dropped + 1)
      else
        var t := s.(queue := s.queue + [e], enqueued := s.enqueued + 1, pending := s.pending + 1, admitted := s.admitted + [e]);
        if |t.queue| >= cfg.maxBatch then Drain(cfg, t.(timer := false)) else Schedule(t)
    case Flush => FlushTest(cfg, s.(timer := false))
    case Shutdown => if s.closed then s else FlushTest(cfg, s.(closed := true, timer := false))
    case TimerFires => Drain(cfg, s.(timer := false))
    case CallSettles(ok) =>
      var n := InFlight(s);
      if ok then Advance(s.(committed := s.committed + n, batches := s.batches + 1, pending := s.pending - n))
      else s.(failed := s.failed + n, delivery := Some(s.delivery.value.(observing := true)))
    case ObserverSettles => Advance(s.(pending := s.pending - InFlight(s)))
    case DrainSettles =>
      var t := s.(draining := false);
      if t.queue != [] && !t.closed then Schedule(t) else t
    case FlusherWakes => FlushTest(cfg, s.(flushers := s.flushers - 1))
  }

  // ----- The invariant -----

  function InHand(s: State): seq<Event> {
    if s.delivery.Some? then s.delivery.value.batch else []
  }

  /** Conversations of the batch whose call has been made; and those finished. */
  function Called(s: State): set<string> {
    if s.delivery.Some? && s.delivery.value.todo != []
      then ConversationsOf(s.delivery.value.batch) - Elements(s.delivery.value.todo[1..]) else {}
  }

  function Finished(s: State): set<string> {
    if s.delivery.Some? then ConversationsOf(s.delivery.value.batch) - Elements(s.delivery.value.todo) else {}
  }

  /** What is counted as failed but still pending while the error observer runs. */
  function Observed(s: State): nat {
    if s.delivery.Some? && s.delivery.value.observing && s.delivery.value.todo != [] then InFlight(s) else 0
  }

  /** No wakeup is lost: with events queued, an open processor has its timer armed or a drain in
      flight, and a closed one has a flush loop running. A closed processor never arms its timer, and
      a delivery runs only inside a drain. (The timer may run beside a drain: a flush loop clears it
      only once, and the end of a drain may arm it before the loop starts the next.) */
  predicate Awake(s: State) {
    && (!s.closed && s.queue != [] ==> s.timer || s.draining)
    && (s.closed && (s.queue != [] || s.draining) ==> s.flushers > 0)
    && (s.timer ==> !s.closed)
    && (s.delivery.Some? ==> s.draining)
  }

  ghost predicate Shape(cfg: Config, s: State) {
    && |s.queue| <= cfg.maxQueue && |InHand(s)| <= cfg.maxBatch
    && (s.delivery.Some? ==>
          var d := s.delivery.value;
          d.todo != [] && NoDuplicates(d.todo) && Elements(d.todo) <= ConversationsOf(d.batch))
  }

  ghost predicate Fifo(s: State) {
    s.settled <= |s.admitted| && s.admitted[s.settled..] == InHand(s) + s.queue
  }

  ghost predicate Balanced(s: State) {
    && s.enqueued == |s.admitted|
    && s.committed + s.failed == s.settled + |Within(InHand(s), Finished(s))| + Observed(s)
    && s.enqueued + Observed(s) == s.committed + s.failed + s.pending
  }

  ghost predicate Accounted(cfg: Config, s: State)
    requires s.settled <= |s.admitted|
  {
    Accounts(s.handed, s.admitted[..s.settled], InHand(s), Called(s)) && WellGrouped(s.handed, cfg.maxBatch)
  }

  ghost predicate Inv(cfg: Config, s: State) {
    Awake(s) && Shape(cfg, s) && Fifo(s) && Balanced(s) && Accounted(cfg, s)
  }

  lemma InitialInv(cfg: Config)
    ensures Inv(cfg, INITIAL)
  {
    WithinNothing(InHand(INITIAL));
  }

  // ----- The moves steps are made of -----

  /** Everything but the wakeups. */
  ghost predicate Sound(cfg: Config, s: State) {
    Shape(cfg, s) && Fifo(s) && Balanced(s) && Accounted(cfg, s)
  }

  /** States that differ only in flags and in counters the invariant does not mention. */
  predicate SameWork(s: State, t: State) {
    && t.queue == s.queue && t.delivery == s.delivery && t.settled == s.settled && t.admitted == s.admitted && t.handed == s.handed
    && t.enqueued == s.enqueued && t.committed == s.committed && t.failed == s.failed && t.pending == s.pending
  }

  lemma SameWorkSound(cfg: Config, s: State, t: State)
    requires Sound(cfg, s) && SameWork(s, t)
    ensures Sound(cfg, t)
  {
    hide Accounts, WellGrouped, NoDuplicates, Within, ConversationsOf, Of;
  }

  lemma AdmitSound(cfg: Config, s: State, e: Event)
    requires Sound(cfg, s) && |s.queue| < cfg.maxQueue
    ensures Sound(cfg, s.(queue := s.queue + [e], enqueued := s.enqueued + 1, pending := s.pending + 1, admitted := s.admitted + [e]))
  {
    hide Accounts, WellGrouped, NoDuplicates, Within, ConversationsOf, Of;
    assert (s.admitted + [e])[..s.settled] == s.admitted[..s.settled];
    assert (s.admitted + [e])[s.settled..] == s.admitted[s.settled..] + [e];
    assert InHand(s) + s.queue + [e] == InHand(s) + (s.queue + [e]);
  }

  /** The first group of a new batch is handed over. */
  lemma BeginDelivery(limit: nat, handed: seq<seq<Event>>, settled: seq<Event>, batch: seq<Event>, order: seq<string>)
    requires Accounts(handed, settled, [], {}) && WellGrouped(handed, limit) && 0 < |batch| <= limit && order == FirstSeen(batch)
    ensures order != [] && NoDuplicates(order) && Elements(order) == ConversationsOf(batch)
    ensures ConversationsOf(batch) - Elements(order[1..]) == {order[0]}
    ensures Accounts(handed + [Of(batch, order[0])], settled, batch, {order[0]}) && WellGrouped(handed + [Of(batch, order[0])], limit)
  {
    BatchHasConversations(batch);
    hide Accounts, WellGrouped, Of, ConversationsOf, FirstSeen;
    assert order != [];
    HeadOnce(order);
    BeginBatch(handed, settled, [], batch);
    HandGroup(handed, settled, batch, {}, order[0]);
    assert {} + {order[0]} == {order[0]};
    HandGroupWell(handed, limit, batch, order[0]);
  }

  /** t has begun to deliver batch. */
  ghost predicate Begun(s: State, t: State, batch: seq<Event>) {
    var order := FirstSeen(batch);
    && t.delivery == Some(Delivery(batch, order, false)) && batch + t.queue == s.queue
    && order != [] && t.handed == s.handed + [Of(batch, order[0])]
    && t.settled == s.settled && t.admitted == s.admitted
    && t.enqueued == s.enqueued && t.committed == s.committed && t.failed == s.failed && t.pending == s.pending
  }

  lemma DrainBegins(cfg: Config, s: State) returns (batch: seq<Event>)
    requires cfg.Lawful() && !s.draining && s.queue != []
    ensures 0 < |batch| <= cfg.maxBatch && Begun(s, Drain(cfg, s), batch)
  {
    hide Of, FirstSeen;
    var n := if |s.queue| < cfg.maxBatch then |s.queue| else cfg.maxBatch;
    batch := s.queue[..n];
    BatchHasConversations(batch);
    assert Elements(FirstSeen(batch)) != {};
  }

  lemma BegunSound(cfg: Config, s: State, t: State, batch: seq<Event>)
    requires Sound(cfg, s) && s.delivery.None? && Begun(s, t, batch) && 0 < |batch| <= cfg.maxBatch
    ensures Sound(cfg, t)
  {
    hide Accounts, WellGrouped, NoDuplicates, Within, ConversationsOf, Of, FirstSeen;
    var order := FirstSeen(batch);
    BeginDelivery(cfg.maxBatch, s.handed, s.admitted[..s.settled], batch, order);
    assert Fifo(t) by { assert [] + s.queue == s.queue == batch + t.queue; }
    assert Finished(t) == {} && Called(t) == {order[0]};
    WithinNothing(batch);
    WithinNothing(InHand(s));
  }

  lemma DrainSound(cfg: Config, s: State)
    requires cfg.Lawful() && Sound(cfg, s) && (s.delivery.Some? ==> s.draining)
    ensures Sound(cfg, Drain(cfg, s))
  {
    if !s.draining && s.queue != [] {
      var batch := DrainBegins(cfg, s);
      hide Sound, Drain;
      BegunSound(cfg, s, Drain(cfg, s), batch);
    }
  }

  lemma BatchHasConversations(batch: seq<Event>)
    requires batch != []
    ensures ConversationsOf(batch) != {}
  {
    assert batch[0].conversationID in ConversationsOf(batch);
  }

  lemma HeadOnce(order: seq<string>)
    requires order != [] && NoDuplicates(order)
    ensures order[0] !in Elements(order[1..]) && NoDuplicates(order[1..])
    ensures Elements(order) == {order[0]} + Elements(order[1..])
  {
  }

  /** The in-flight group is counted; it is no longer observed, and the delivery moves on. */
  lemma AdvanceSound(cfg: Config, s: State)
    requires Shape(cfg, s) && Fifo(s) && Accounted(cfg, s) && s.delivery.Some? && s.enqueued == |s.admitted|
    requires s.committed + s.failed == s.settled + |Within(InHand(s), Finished(s))| + InFlight(s)
    requires s.enqueued == s.committed + s.failed + s.pending
    ensures Sound(cfg, Advance(s))
  {
    hide Accounts, WellGrouped, NoDuplicates, Within, ConversationsOf, Of;
    var t, d, k := Advance(s), s.delivery.value, s.settled;
    HeadOnce(d.todo);
    assert d.todo[0] in Elements(d.todo);
    WithinAdd(d.batch, Finished(s), d.todo[0]);
    assert Called(s) == Finished(s) + {d.todo[0]};
    if |d.todo| == 1 {
      assert Called(s) == ConversationsOf(d.batch);
      WithinAll(d.batch, Called(s));
      SettleBatch(s.handed, s.admitted[..k], d.batch, Called(s));
      BatchLeaves(s.admitted, k, d.batch, s.queue);
      WithinNothing(InHand(t));
    } else {
      var rest := d.todo[1..];
      HeadOnce(rest);
      assert rest[0] == d.todo[1] && rest[0] in Elements(rest);
      assert Finished(t) == Called(s);
      assert Called(t) == Called(s) + {rest[0]};
      HandGroup(s.handed, s.admitted[..k], d.batch, Called(s), rest[0]);
      HandGroupWell(s.handed, cfg.maxBatch, d.batch, rest[0]);
    }
  }

  lemma StepKeepsAwake(cfg: Config, s: State, step: Step)
    requires cfg.Lawful() && Awake(s) && Enabled(s, step)
    ensures Awake(After(cfg, s, step))
  {
    hide Of, FirstSeen;
    match step
    case Submit(None) =>
    case Submit(Some(e)) =>
    case Flush =>
    case Shutdown =>
    case TimerFires =>
    case CallSettles(_) =>
    case ObserverSettles =>
    case DrainSettles =>
    case FlusherWakes =>
  }

  lemma StepKeepsSound(cfg: Config, s: State, step: Step)
    requires cfg.Lawful() && Inv(cfg, s) && Enabled(s, step)
    ensures Sound(cfg, After(cfg, s, step))
  {
    hide Accounts, WellGrouped, NoDuplicates, Within, ConversationsOf, Of, FirstSeen;
    var t := After(cfg, s, step);
    match step
    case Submit(None) => SameWorkSound(cfg, s, t);
    case Submit(Some(e)) => SubmitSound(cfg, s, e);
    case Flush => FlushSound(cfg, s, s.(timer := false));
    case Shutdown => if !s.closed { FlushSound(cfg, s, s.(closed := true, timer := false)); }
    case TimerFires =>
      SameWorkSound(cfg, s, s.(timer := false));
      DrainSound(cfg, s.(timer := false));
    case CallSettles(ok) => CallSound(cfg, s, ok);
    case ObserverSettles => ObserverSound(cfg, s);
    case DrainSettles => SameWorkSound(cfg, s, t);
    case FlusherWakes => FlushSound(cfg, s, s.(flushers := s.flushers - 1));
  }

  lemma SubmitSound(cfg: Config, s: State, e: Event)
    requires cfg.Lawful() && Inv(cfg, s)
    ensures Sound(cfg, After(cfg, s, Submit(Some(e))))
  {
    hide Accounted, Balanced, Shape, Fifo, Of, FirstSeen;
    var t := After(cfg, s, Submit(Some(e)));
    if s.closed || |s.queue| >= cfg.maxQueue {
      SameWorkSound(cfg, s, t);
    } else {
      var u := s.(queue := s.queue + [e], enqueued := s.enqueued + 1, pending := s.pending + 1, admitted := s.admitted + [e]);
      AdmitSound(cfg, s, e);
      if |u.queue| >= cfg.maxBatch {
        SameWorkSound(cfg, u, u.(timer := false));
        DrainSound(cfg, u.(timer := false));
      } else {
        SameWorkSound(cfg, u, t);
      }
    }
  }

  lemma FlushSound(cfg: Config, s: State, u: State)
    requires cfg.Lawful() && Inv(cfg, s) && SameWork(s, u) && u.draining == s.draining
    ensures Sound(cfg, FlushTest(cfg, u))
  {
    hide Accounted, Balanced, Shape, Fifo, Of, FirstSeen;
    SameWorkSound(cfg, s, u);
    DrainSound(cfg, u);
    if !(u.queue == [] && !u.draining) { SameWorkSound(cfg, Drain(cfg, u), FlushTest(cfg, u)); }
  }

  lemma CallSound(cfg: Config, s: State, ok: bool)
    requires Inv(cfg, s) && Enabled(s, CallSettles(ok))
    ensures Sound(cfg, After(cfg, s, CallSettles(ok)))
  {
    hide Accounts, WellGrouped, NoDuplicates, Within, ConversationsOf, Of;
    if ok {
      var n := InFlight(s);
      AdvanceSound(cfg, s.(committed := s.committed + n, batches := s.batches + 1, pending := s.pending - n));
    }
  }

  lemma ObserverSound(cfg: Config, s: State)
    requires Inv(cfg, s) && Enabled(s, ObserverSettles)
    ensures Sound(cfg, After(cfg, s, ObserverSettles))
  {
    hide Accounts, WellGrouped, NoDuplicates, Within, ConversationsOf, Of;
    AdvanceSound(cfg, s.(pending := s.pending - InFlight(s)));
  }

  lemma StepKeepsInv(cfg: Config, s: State, step: Step)
    requires cfg.Lawful() && Inv(cfg, s) && Enabled(s, step)
    ensures Inv(cfg, After(cfg, s, step))
  {
    hide Awake, Sound, After;
    StepKeepsAwake(cfg, s, step);
    StepKeepsSound(cfg, s, step);
    SoundParts(cfg, After(cfg, s, step));
  }

  lemma SoundParts(cfg: Config, s: State)
    requires Sound(cfg, s)
    ensures Shape(cfg, s) && Fifo(s) && Balanced(s) && Accounted(cfg, s)
  {
  }

  // ----- Runs -----

  ghost predicate Run(cfg: Config, states: seq<State>, steps: seq<Step>) {
    && |states| == |steps| + 1 && states[0] == INITIAL
    && forall i | 0 <= i < |steps| :: Enabled(states[i], steps[i]) && states[i + 1] == After(cfg, states[i], steps[i])
  }

  /** In every run, at every suspension point, no wakeup is lost. */
  lemma {:induction false} RunKeepsInv(cfg: Config, states: seq<State>, steps: seq<Step>, n: nat)
    requires cfg.Lawful() && Run(cfg, states, steps) && n <= |steps|
    ensures Inv(cfg, states[n]) && Awake(states[n])
  {
    if n == 0 {
      InitialInv(cfg);
    } else {
      hide After;
      RunKeepsInv(cfg, states, steps, n - 1);
      StepKeepsInv(cfg, states[n - 1], steps[n - 1]);
    }
  }

  /** Admitted events are committed, failed or pending; while an error observer runs, its group is
      counted twice, as failed and as pending. */
  lemma Conservation(cfg: Config, states: seq<State>, steps: seq<Step>, n: nat)
    requires cfg.Lawful() && Run(cfg, states, steps) && n <= |steps|
    ensures states[n].enqueued == |states[n].admitted|
    ensures states[n].enqueued + Observed(states[n]) == states[n].committed + states[n].failed + states[n].pending
    ensures Observed(states[n]) > 0 <==> states[n].delivery.Some? && states[n].delivery.value.observing
    ensures states[n].pending >= 0
  {
    hide Of, Accounts, WellGrouped;
    RunKeepsInv(cfg, states, steps, n);
    var s := states[n];
    BatchLeaves(s.admitted, s.settled, InHand(s), s.queue);
    WithinSize(InHand(s), Finished(s));
    if s.delivery.Some? {
      var d := s.delivery.value;
      assert d.todo[0] in Elements(d.todo);
      OfNothing(d.batch, d.todo[0]);
      WithinAdd(d.batch, Finished(s), d.todo[0]);
      WithinSize(d.batch, Finished(s) + {d.todo[0]});
    }
  }

  lemma AtMostOnceInOrder(cfg: Config, states: seq<State>, steps: seq<Step>, n: nat, c: string)
    requires cfg.Lawful() && Run(cfg, states, steps) && n <= |steps|
    ensures Of(Flat(states[n].handed), c) <= Of(states[n].admitted, c)
    ensures WellGrouped(states[n].handed, cfg.maxBatch)
  {
    hide Of, Flat, Within;
    RunKeepsInv(cfg, states, steps, n);
    var s, k := states[n], states[n].settled;
    AccountsArePrefix(s.handed, s.admitted[..k], InHand(s), Called(s), s.queue, c);
    assert s.admitted == s.admitted[..k] + s.admitted[k..];
    assert s.admitted == s.admitted[..k] + InHand(s) + s.queue;
  }

  /** At most one delivery runs at a time: while one is running, no step begins another. */
  lemma OneDelivery(cfg: Config, states: seq<State>, steps: seq<Step>, n: nat)
    requires cfg.Lawful() && Run(cfg, states, steps) && n < |steps| && states[n].delivery.Some?
    ensures states[n + 1].delivery.Some? ==>
              && states[n + 1].delivery.value.batch == states[n].delivery.value.batch
              && |states[n + 1].delivery.value.todo| <= |states[n].delivery.value.todo|
  {
    hide Of, FirstSeen, Accounts, WellGrouped, Within, Balanced, Fifo;
    RunKeepsInv(cfg, states, steps, n);
    assert states[n].draining;
  }

  // ----- Flushing ends -----

  /** Steps the outside world does not initiate. */
  predicate Internal(step: Step) {
    !(step.Submit? || step.Flush? || step.Shutdown?)
  }

  function GroupsLeft(s: State): int {
    if s.delivery.Some? then 2 * |s.delivery.value.todo| - (if s.delivery.value.observing then 1 else 0) else 0
  }

  function Measure(s: State): int {
    6 * |s.queue| + GroupsLeft(s) + (if s.draining then 2 else 0) + (if s.timer then 1 else 0) + s.flushers
  }

  lemma {:induction false} FirstSeenShort(batch: seq<Event>)
    ensures |FirstSeen(batch)| <= |batch|
  {
    if batch != [] { FirstSeenShort(batch[..|batch| - 1]); }
  }

  lemma DrainMeasure(cfg: Config, s: State)
    requires cfg.Lawful() && (s.delivery.Some? ==> s.draining)
    ensures Measure(Drain(cfg, s)) <= Measure(s) && Drain(cfg, s).flushers == s.flushers
    ensures !s.draining && s.queue != [] ==> Measure(Drain(cfg, s)) <= Measure(s) - 2
  {
    hide FirstSeen, Of;
    if !s.draining && s.queue != [] {
      var n := if |s.queue| < cfg.maxBatch then |s.queue| else cfg.maxBatch;
      FirstSeenShort(s.queue[..n]);
    }
  }

  /** Left alone, the processor runs down: every internal step lowers a measure that never goes below
      zero. */
  lemma InternalStepsRunDown(cfg: Config, s: State, step: Step)
    requires cfg.Lawful() && Awake(s) && Shape(cfg, s) && Enabled(s, step) && Internal(step)
    ensures 0 <= Measure(After(cfg, s, step)) < Measure(s)
  {
    hide Of, FirstSeen, NoDuplicates, ConversationsOf, Drain;
    match step
    case TimerFires => DrainMeasure(cfg, s.(timer := false)); StillNonNegative(cfg, s, step);
    case FlusherWakes => DrainMeasure(cfg, s.(flushers := s.flushers - 1)); StillNonNegative(cfg, s, step);
    case _ =>
  }

  lemma StillNonNegative(cfg: Config, s: State, step: Step)
    requires Enabled(s, step) && (s.delivery.Some? ==> s.delivery.value.todo != [])
    ensures Measure(After(cfg, s, step)) >= 0
  {
  }

  /** While a flush waits, or events are queued, the processor can take a step of its own; it comes to
      rest only with nothing queued, nothing pending and no flush waiting, every admitted event having
      been handed over exactly once. */
  lemma AtRest(cfg: Config, states: seq<State>, steps: seq<Step>, n: nat, c: string)
    requires cfg.Lawful() && Run(cfg, states, steps) && n <= |steps|
    requires forall step | Internal(step) :: !Enabled(states[n], step)
    ensures states[n].queue == [] && states[n].pending == 0 && states[n].flushers == 0
    ensures Of(Flat(states[n].handed), c) == Of(states[n].admitted, c)
  {
    hide Of, Flat;
    RunKeepsInv(cfg, states, steps, n);
    var s := states[n];
    assert !Enabled(s, TimerFires) && !Enabled(s, CallSettles(true)) && !Enabled(s, ObserverSettles);
    assert !Enabled(s, DrainSettles) && !Enabled(s, FlusherWakes);
    NothingLeft(cfg, s, c);
  }

  lemma NothingLeft(cfg: Config, s: State, c: string)
    requires Inv(cfg, s) && s.queue == [] && s.delivery.None?
    ensures s.pending == 0 && s.committed + s.failed == |s.admitted|
    ensures Of(Flat(s.handed), c) == Of(s.admitted, c)
  {
    hide Of, Flat;
    WithinNothing(InHand(s));
    assert s.admitted[..s.settled] == s.admitted;
    assert Of(Flat(s.handed), c) == Of(s.admitted, c) + (if c in Called(s) then Of([], c) else []);
  }

  /** A flush returns only when nothing is queued or pending, so everything admitted by then has been
      handed over exactly once and, when it reports success, committed. */
  lemma FlushReturnsDone(cfg: Config, states: seq<State>, steps: seq<Step>, n: nat, c: string)
    requires cfg.Lawful() && Run(cfg, states, steps) && n < |steps|
    requires steps[n].FlusherWakes? && states[n + 1].flushers < states[n].flushers
    ensures states[n + 1].queue == [] && states[n + 1].pending == 0 && !states[n + 1].draining
    ensures Of(Flat(states[n + 1].handed), c) == Of(states[n + 1].admitted, c)
    ensures states[n + 1].failed == 0 ==> states[n + 1].committed == |states[n + 1].admitted|
  {
    hide Of, Flat;
    RunKeepsInv(cfg, states, steps, n + 1);
    RunKeepsInv(cfg, states, steps, n);
    FlushGoesOn(cfg, states[n]);
    NothingLeft(cfg, states[n + 1], c);
  }

  lemma FlushGoesOn(cfg: Config, s: State)
    requires Enabled(s, FlusherWakes) && After(cfg, s, FlusherWakes).flushers < s.flushers
    ensures s.queue == [] && !s.draining
    ensures After(cfg, s, FlusherWakes).queue == [] && !After(cfg, s, FlusherWakes).draining
  {
  }

  // ----- The timer beside a drain -----

  lemma RunSnoc(cfg: Config, states: seq<State>, steps: seq<Step>, step: Step, next: State)
    requires Run(cfg, states, steps) && |states| == |steps| + 1 && Enabled(states[|steps|], step) && next == After(cfg, states[|steps|], step)
    ensures Run(cfg, states + [next], steps + [step])
  {
    hide After, Enabled;
  }

  lemma RunStart(cfg: Config)
    ensures Run(cfg, [INITIAL], [])
  {
  }

  lemma SingleGroup(e: Event)
    ensures Of([e], e.conversationID) == [e] && FirstSeen([e]) == [e.conversationID]
  {
    assert [e][..0] == [];
  }

  /** The end of a drain arms the timer before the waiting flush loop starts the next one: then both are
      active. It does no harm, since the timer only asks for a drain that is running already. */
  lemma TimerBesideDrain(cfg: Config, a: Event, b: Event) returns (states: seq<State>, steps: seq<Step>)
    requires cfg.maxQueue >= 1 && cfg.maxBatch >= 2
    ensures Run(cfg, states, steps)
    ensures steps == [Submit(Some(a)), Flush, Submit(Some(b)), CallSettles(true), DrainSettles, FlusherWakes]
    ensures states[6].timer && states[6].draining && states[6].delivery.Some?
  {
    states, steps := FlushThenSubmit(cfg, a, b);
    SingleGroup(a);
    SingleGroup(b);
    hide Run, Of, FirstSeen;
    var s3 := states[3];
    var s4 := s3.(committed := 1, batches := 1, pending := 1, delivery := None, settled := 1);
    var s5 := s4.(draining := false, timer := true);
    var s6 := s5.(queue := [], draining := true, delivery := Some(Delivery([b], [b.conversationID], false)), handed := [[a], [b]]);
    assert [b][..1] == [b] && [b][1..] == [];
    RunSnoc(cfg, states, steps, CallSettles(true), s4);
    states, steps := states + [s4], steps + [CallSettles(true)];
    RunSnoc(cfg, states, steps, DrainSettles, s5);
    states, steps := states + [s5], steps + [DrainSettles];
    RunSnoc(cfg, states, steps, FlusherWakes, s6);
    states, steps := states + [s6], steps + [FlusherWakes];
  }

  /** a is being delivered for a flush when b is submitted. */
  lemma FlushThenSubmit(cfg: Config, a: Event, b: Event) returns (states: seq<State>, steps: seq<Step>)
    requires cfg.maxQueue >= 1 && cfg.maxBatch >= 2
    ensures Run(cfg, states, steps) && steps == [Submit(Some(a)), Flush, Submit(Some(b))] && |states| == 4
    ensures states[3] == State([b], false, true, Some(Delivery([a], [a.conversationID], false)), false, 1, 2, 0, 0, 0, 0, 2, 0, [a, b], [[a]])
  {
    SingleGroup(a);
    hide Of, FirstSeen;
    var s1 := INITIAL.(queue := [a], timer := true, enqueued := 1, pending := 1, admitted := [a]);
    var s2 := s1.(queue := [], timer := false, draining := true, delivery := Some(Delivery([a], [a.conversationID], false)), flushers := 1, handed := [[a]]);
    var s3 := s2.(queue := [b], enqueued := 2, pending := 2, admitted := [a, b]);
    assert [a][..1] == [a] && [a][1..] == [];
    RunStart(cfg);
    hide Run;
    states, steps := [INITIAL], [];
    RunSnoc(cfg, states, steps, Submit(Some(a)), s1);
    states, steps := states + [s1], steps + [Submit(Some(a))];
    RunSnoc(cfg, states, steps, Flush, s2);
    states, steps := states + [s2], steps + [Flush];
    RunSnoc(cfg, states, steps, Submit(Some(b)), s3);
    states, steps := states + [s3], steps + [Submit(Some(b))];
  }

  // ----- What the counters tell -----

  /** The events that calls of this outcome held, in the first n steps. */
  function Settled(states: seq<State>, steps: seq<Step>, n: nat, ok: bool): nat
    requires n <= |steps| < |states|
  {
    if n == 0 then 0
    else
      Settled(states, steps, n - 1, ok)
      + if steps[n - 1] == CallSettles(ok) && Enabled(states[n - 1], steps[n - 1]) then InFlight(states[n - 1]) else 0
  }

  predicate IsSuccess(step: Step) { step == CallSettles(true) }

  /** Submissions turned away: what was not prepared, and what met a full queue while open. */
  function TurnedAway(cfg: Config, states: seq<State>, steps: seq<Step>, n: nat): nat
    requires n <= |steps| < |states|
  {
    if n == 0 then 0
    else
      TurnedAway(cfg, states, steps, n - 1)
      + if steps[n - 1] == Submit(None) then 1
        else if steps[n - 1].Submit? && !states[n - 1].closed && |states[n - 1].queue| >= cfg.maxQueue then 1 else 0
  }

  lemma {:induction false} CountersTell(cfg: Config, states: seq<State>, steps: seq<Step>, n: nat)
    requires Run(cfg, states, steps) && n <= |steps|
    ensures states[n].committed == Settled(states, steps, n, true) && states[n].failed == Settled(states, steps, n, false)
    ensures states[n].batches == Times(steps[..n], IsSuccess) && states[n].dropped == TurnedAway(cfg, states, steps, n)
  {
    hide Times, After, InFlight;
    if n > 0 {
      CountersTell(cfg, states, steps, n - 1);
      TimesSnoc(steps, n - 1, IsSuccess);
      StepCounts(cfg, states[n - 1], steps[n - 1]);
    } else {
      NoTimes(steps);
    }
  }

  lemma StepCounts(cfg: Config, s: State, step: Step)
    requires Enabled(s, step)
    ensures var t := After(cfg, s, step);
            && t.committed == s.committed + (if step == CallSettles(true) then InFlight(s) else 0)
            && t.failed == s.failed + (if step == CallSettles(false) then InFlight(s) else 0)
            && t.batches == s.batches + (if step == CallSettles(true) then 1 else 0)
            && t.dropped == s.dropped + (if step == Submit(None) || (step.Submit? && !s.closed && |s.queue| >= cfg.maxQueue) then 1 else 0)
  {
    hide Of, FirstSeen;
    match step
    case Submit(None) =>
    case Submit(Some(e)) =>
    case CallSettles(ok) => if ok {} else {}
    case _ =>
  }

  lemma NoTimes(steps: seq<Step>)
    ensures Times(steps[..0], IsSuccess) == 0
  {
  }

  // ----- The object -----

  datatype SubmitError = ShutDown | QueueFull

  /** The processor object, with the delivery its drain runs. Every stretch between two suspension
      points is a step of the system above; now is the state of that system. */
  class BackgroundProcessor {
    const cfg: Config
    const throwing: bool
    var queue: seq<Event>
    var timer: bool
    var draining: bool
    var delivery: Option<Delivery>
    var closed: bool
    var enqueued: nat
    var committed: nat
    var dropped: nat
    var failed: nat
    var batches: nat
    var pending: int
    ghost var now: State

    /** The fields are those of the state, and the invariant holds. */
    ghost predicate Valid()
      reads this
    {
      && cfg.Lawful() && Inv(cfg, now)
      && queue == now.queue && timer == now.timer && draining == now.draining && delivery == now.delivery && closed == now.closed
      && enqueued == now.enqueued && committed == now.committed && dropped == now.dropped && failed == now.failed
      && batches == now.batches && pending == now.pending
    }

    constructor (cfg: Config, throwing: bool)
      requires cfg.Lawful()
      ensures Valid() && now == INITIAL && this.cfg == cfg && this.throwing == throwing
    {
      hide Inv;
      this.cfg, this.throwing := cfg, throwing;
      queue, timer, draining, delivery, closed := [], false, false, None, false;
      enqueued, committed, dropped, failed, batches, pending := 0, 0, 0, 0, 0, 0;
      now := INITIAL;
      InitialInv(cfg);
    }

    /** One step of the system. */
    ghost method Advance(step: Step)
      requires cfg.Lawful() && Inv(cfg, now) && Enabled(now, step)
      modifies this`now
      ensures now == After(cfg, old(now), step) && Inv(cfg, now)
    {
      hide *;
      StepKeepsInv(cfg, now, step);
      now := After(cfg, now, step);
    }

    method ArmTimer()
      modifies this`timer
      ensures timer == (old(timer) || !draining)
    {
      if timer || draining { return; }
      timer := true;
    }

    /** Start delivering the front of the queue, unless a drain is running or there is nothing: the
        batch is cut off, grouped, and its first group handed to the client. */
    method StartDrain()
      requires cfg.Lawful()
      modifies this`queue, this`draining, this`delivery
      ensures old(draining) || old(queue) == [] ==> queue == old(queue) && draining == old(draining) && delivery == old(delivery)
      ensures !old(draining) && old(queue) != [] ==>
                var n := if |old(queue)| < cfg.maxBatch then |old(queue)| else cfg.maxBatch;
                draining && queue == old(queue)[n..]
                && delivery == Some(Delivery(old(queue)[..n], FirstSeen(old(queue)[..n]), false))
    {
      if draining || queue == [] { return; }
      var n := if |queue| < cfg.maxBatch then |queue| else cfg.maxBatch;
      var batch := queue[..n];
      queue := queue[n..];
      var order, _ := GroupByConversation(batch);
      draining, delivery := true, Some(Delivery(batch, order, false));
    }

    /** Submit once the event is prepared; None means preparing dropped it. */
    method Submit(prepared: Option<Event>) returns (r: Result<bool, SubmitError>)
      requires Valid()
      modifies this
      ensures Valid() && now == After(cfg, old(now), Step.Submit(prepared))
      ensures r == Ok(true) <==> prepared.Some? && !old(closed) && |old(queue)| < cfg.maxQueue
      ensures r == Err(ShutDown) <==> prepared.Some? && old(closed)
      ensures r == Err(QueueFull) <==> prepared.Some? && !old(closed) && |old(queue)| >= cfg.maxQueue && throwing
    {
      hide Inv, FirstSeen, Of;
      if prepared.None? {
        dropped := dropped + 1;
        r := Ok(false);
      } else if closed {
        r := Err(ShutDown);
      } else if |queue| >= cfg.maxQueue {
        dropped := dropped + 1;
        r := if throwing then Err(QueueFull) else Ok(false);
      } else {
        queue := queue + [prepared.value];
        enqueued, pending := enqueued + 1, pending + 1;
        if |queue| >= cfg.maxBatch {
          timer := false;
          StartDrain();
        } else {
          ArmTimer();
        }
        r := Ok(true);
      }
      Advance(Step.Submit(prepared));
    }

    /** The start of a flush: clear the timer, then test. over means it returns at once. */
    method Flush() returns (over: bool)
      requires Valid()
      modifies this
      ensures Valid() && now == After(cfg, old(now), Step.Flush) && over == (old(queue) == [] && !old(draining))
    {
      hide Inv, FirstSeen, Of;
      timer := false;
      over := queue == [] && !draining;
      if !over { StartDrain(); }
      Advance(Step.Flush);
    }

    method Shutdown() returns (over: bool)
      requires Valid()
      modifies this
      ensures Valid() && closed && now == After(cfg, old(now), Step.Shutdown)
      ensures over == (old(queue) == [] && !old(draining))
    {
      hide Inv, FirstSeen, Of;
      over := queue == [] && !draining;
      if !closed {
        closed, timer := true, false;
        if !over { StartDrain(); }
      }
      Advance(Step.Shutdown);
    }

    method TimerFires()
      requires Valid() && timer
      modifies this
      ensures Valid() && now == After(cfg, old(now), Step.TimerFires)
    {
      hide Inv, FirstSeen, Of;
      timer := false;
      StartDrain();
      Advance(Step.TimerFires);
    }

    /** A waiting flush loop tests again; over means it returns. */
    method FlusherWakes() returns (over: bool)
      requires Valid() && now.flushers > 0 && !draining
      modifies this
      ensures Valid() && now == After(cfg, old(now), Step.FlusherWakes) && over == (old(queue) == [])
    {
      hide Inv, FirstSeen, Of;
      over := queue == [];
      if !over { StartDrain(); }
      Advance(Step.FlusherWakes);
    }

    /** What runs when a drain has finished. */
    method DrainSettles()
      requires Valid() && draining && delivery.None?
      modifies this
      ensures Valid() && now == After(cfg, old(now), Step.DrainSettles)
    {
      hide Inv;
      draining := false;
      if queue != [] && !closed { ArmTimer(); }
      Advance(Step.DrainSettles);
    }

    /** The client answers the call in flight, with the group that was sent. */
    method CallSettles(group: seq<Event>, ok: bool)
      requires Valid() && delivery.Some? && !delivery.value.observing && delivery.value.todo != []
      requires group == Of(delivery.value.batch, delivery.value.todo[0])
      modifies this
      ensures Valid() && now == After(cfg, old(now), Step.CallSettles(ok))
    {
      hide Inv, Of;
      var d := delivery.value;
      if ok {
        committed, batches, pending := committed + |group|, batches + 1, pending - |group|;
        delivery := if |d.todo| == 1 then None else Some(Delivery(d.batch, d.todo[1..], false));
      } else {
        failed := failed + |group|;
        delivery := Some(d.(observing := true));
      }
      Advance(Step.CallSettles(ok));
    }

    /** The error observer has returned, or thrown. */
    method ObserverSettles(group: seq<Event>)
      requires Valid() && delivery.Some? && delivery.value.observing && delivery.value.todo != []
      requires group == Of(delivery.value.batch, delivery.value.todo[0])
      modifies this
      ensures Valid() && now == After(cfg, old(now), Step.ObserverSettles)
    {
      hide Inv, Of;
      var d := delivery.value;
      pending := pending - |group|;
      delivery := if |d.todo| == 1 then None else Some(Delivery(d.batch, d.todo[1..], false));
      Advance(Step.ObserverSettles);
    }

    /** A delivery from its first call to its end, with nothing else running in between. accepts says
        which calls succeed. */
    method DeliverNext(accepts: string -> bool)
      requires Valid() && delivery.Some? && !delivery.value.observing
      modifies this
      ensures Valid() && delivery.None? && draining
      ensures queue == old(queue) && now.admitted == old(now.admitted) && old(now.handed) <= now.handed
    {
      hide Inv, Of, After;
      var _, groups := GroupByConversation(delivery.value.batch);
      ghost var batch := delivery.value.batch;
      while delivery.Some?
        invariant Valid() && (delivery.Some? ==> !delivery.value.observing && delivery.value.batch == batch)
        invariant queue == old(queue) && now.admitted == old(now.admitted) && old(now.handed) <= now.handed && (delivery.None? ==> draining)
        decreases if delivery.Some? then |delivery.value.todo| else 0
      {
        TodoKnown(cfg, now);
        var c := delivery.value.todo[0];
        var ok := accepts(c);
        SettledDelivery(cfg, now, ok);
        CallSettles(groups[c], ok);
        if !ok { ObserverSettles(groups[c]); }
      }
    }
  }

  lemma TodoKnown(cfg: Config, s: State)
    requires Inv(cfg, s) && s.delivery.Some?
    ensures s.delivery.value.todo != [] && s.delivery.value.todo[0] in ConversationsOf(s.delivery.value.batch)
  {
    assert s.delivery.value.todo[0] in Elements(s.delivery.value.todo);
  }

  /** After a call settles, and its observer if it failed, the delivery is one group shorter. */
  lemma SettledDelivery(cfg: Config, s: State, ok: bool)
    requires Inv(cfg, s) && Enabled(s, CallSettles(ok))
    ensures var t := After(cfg, s, CallSettles(ok));
            var u := if ok then t else After(cfg, t, ObserverSettles);
            && (!ok ==> Enabled(t, ObserverSettles) && t.delivery == Some(s.delivery.value.(observing := true)))
            && u.draining == s.draining == true && u.queue == s.queue && u.admitted == s.admitted && s.handed <= u.handed
            && u.delivery == if |s.delivery.value.todo| == 1 then None else Some(Delivery(s.delivery.value.batch, s.delivery.value.todo[1..], false))
  {
    hide Of, Accounted, Balanced, Fifo, Shape;
  }
}
