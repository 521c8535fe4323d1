/** The Python background processor as steps of its threads: submitters under the condition lock,
    one worker, and a shutdown (sdk/python/src/farfield/_processor.py). */
module PythonProcessor {
  import opened Basics
  import opened Sorting
  import opened Batching

  /** The constructor refuses sizes below one. */
  datatype Config = Config(maxQueue: nat, maxBatch: nat) {
    predicate Lawful() {
      maxQueue >= 1 && maxBatch >= 1
    }
  }

  datatype Item = Captured(event: Event) | Stop

  /** Where the worker is. While delivering: conversations still to hand over, what this batch has
      committed and failed so far, whether a result awaits its note under the lock, and whether
      the stop marker ended the batch. */
  datatype Phase =
    | Waiting
    | Collecting(batch: seq<Event>)
    | Delivering(batch: seq<Event>, todo: seq<string>, good: nat, bad: nat, noting: Option<bool>, last: bool)
    | Exited

  /** holding: a submitter has put its event and still owns the lock. The last three fields are
      history: what was admitted, handed to the client, and confirmed by it. */
  datatype State = State(
    queue: seq<Item>, closed: bool, stopping: bool, holding: bool, phase: Phase,
    enqueued: nat, committed: nat, dropped: nat, failed: nat, batches: nat, pending: int,
    admitted: seq<Event>, handed: seq<seq<Event>>, confirmed: seq<seq<Event>>)

  const INITIAL := State([], false, false, false, Waiting, 0, 0, 0, 0, 0, 0, [], [], [])

  /** A blocking put waits for room while owning the lock; since nobody else can take the lock then,
      the step is taken to happen when there is room. */
  datatype Step =
    | Drop
    | Put(event: Event)
    | Count
    | Refuse
    | Close
    | SendStop
    | Take
    | Collect
    | StopCollecting
    | Hand(ok: bool)
    | Note
    | Finish

  predicate Enabled(cfg: Config, s: State, step: Step) {
    match step
    case Drop => !s.holding
    case Put(_) => !s.holding && !s.closed && |s.queue| < cfg.maxQueue
    case Count => s.holding
    case Refuse => !s.holding && !s.closed && |s.queue| == cfg.maxQueue
    case Close => !s.holding && !s.closed
    case SendStop => s.closed && !s.stopping && |s.queue| < cfg.maxQueue
    case Take => s.phase.Waiting? && s.queue != []
    case Collect => s.phase.Collecting? && |s.phase.batch| < cfg.maxBatch && s.queue != []
    case StopCollecting => s.phase.Collecting?
    case Hand(_) => s.phase.Delivering? && s.phase.noting.None? && s.phase.todo != []
    case Note => s.phase.Delivering? && s.phase.noting.Some? && !s.holding
    case Finish => s.phase.Delivering? && s.phase.noting.None? && s.phase.todo == [] && !s.holding
  }

  function Deliver(batch: seq<Event>, last: bool): Phase {
    Delivering(batch, FirstSeen(batch), 0, 0, None, last)
  }

  /** The state after a step; a step that is not enabled changes nothing. */
  function After(cfg: Config, s: State, step: Step): State {
    if !Enabled(cfg, s, step) then s else
    match step
    case Drop => s.(dropped := s.dropped + 1)
    case Put(e) => s.(queue := s.queue + [Captured(e)], admitted := s.admitted + [e], holding := true)
    case Count => s.(enqueued := s.enqueued + 1, pending := s.pending + 1, holding := false)
    case Refuse => s.(dropped := s.dropped + 1)
    case Close => s.(closed := true)
    case SendStop => s.(queue := s.queue + [Stop], stopping := true)
    case Take =>
      s.(queue := s.queue[1..], phase := match s.queue[0] case Captured(e) => Collecting([e]) case Stop => Exited)
    case Collect =>
      s.(queue := s.queue[1..],
         phase := match s.queue[0] case Captured(e) => Collecting(s.phase.batch + [e]) case Stop => Deliver(s.phase.batch, true))
    case StopCollecting => s.(phase := Deliver(s.phase.batch, false))
    case Hand(ok) =>
      var group := Of(s.phase.batch, s.phase.todo[0]);
      s.(handed := s.handed + [group], confirmed := if ok then s.confirmed + [group] else s.confirmed,
         phase := s.phase.(todo := s.phase.todo[1..], noting := Some(ok),
                           good := s.phase.good + (if ok then |group| else 0), bad := s.phase.bad + (if ok then 0 else |group|)))
    case Note => s.(batches := s.batches + (if s.phase.noting.value then 1 else 0), phase := s.phase.(noting := None))
    case Finish =>
      s.(committed := s.committed + s.phase.good, failed := s.failed + s.phase.bad, pending := s.pending - |s.phase.batch|,
         phase := if s.phase.last then Exited else Waiting)
  }

  // ----- The invariant -----

  function EventOf(item: Item): seq<Event> {
    match item case Captured(e) => [e] case Stop => []
  }

  function Events(queue: seq<Item>): seq<Event> {
    if queue == [] then [] else EventOf(queue[0]) + Events(queue[1..])
  }

  lemma {:induction false} EventsSnoc(queue: seq<Item>, item: Item)
    ensures Events(queue + [item]) == Events(queue) + EventOf(item)
  {
    hide EventOf;
    if queue == [] {
      assert queue + [item] == [item];
    } else {
      assert (queue + [item])[0] == queue[0] && (queue + [item])[1..] == queue[1..] + [item];
      EventsSnoc(queue[1..], item);
    }
  }

  /** The batch the worker holds. */
  function InHand(phase: Phase): seq<Event> {
    match phase
    case Collecting(batch) => batch
    case Delivering(batch, _, _, _, _, _) => batch
    case _ => []
  }

  /** Its conversations that have been handed over. */
  function Done(phase: Phase): set<string> {
    if phase.Delivering? then ConversationsOf(phase.batch) - Elements(phase.todo) else {}
  }

  function Good(phase: Phase): nat {
    if phase.Delivering? then phase.good else 0
  }

  function Bad(phase: Phase): nat {
    if phase.Delivering? then phase.bad else 0
  }

  /** The stop marker is last, follows closing, and the worker leaves only after it. */
  predicate QueueShape(cfg: Config, s: State) {
    && |s.queue| <= cfg.maxQueue
    && (forall i | 0 <= i < |s.queue| :: s.queue[i].Stop? ==> i == |s.queue| - 1 && s.stopping)
    && (s.stopping ==> s.closed)
    && (s.closed ==> !s.holding)
    && (s.stopping ==> s.queue != [] || s.phase.Exited? || (s.phase.Delivering? && s.phase.last))
    && (s.stopping && s.queue != [] ==> s.queue[|s.queue| - 1].Stop?)
    && (s.phase.Exited? || (s.phase.Delivering? && s.phase.last) ==> s.stopping && s.queue == [])
  }

  /** Events leave in admission order: settled, in hand, queued. */
  ghost predicate Fifo(s: State) {
    && s.committed + s.failed <= |s.admitted|
    && s.admitted[s.committed + s.failed..] == InHand(s.phase) + Events(s.queue)
  }

  predicate Counted(s: State) {
    && s.enqueued + (if s.holding then 1 else 0) == |s.admitted|
    && s.committed + s.failed <= s.enqueued
    && s.pending == s.enqueued - s.committed - s.failed
  }

  ghost predicate Accounted(cfg: Config, s: State)
    requires s.committed + s.failed <= |s.admitted|
  {
    && Accounts(s.handed, s.admitted[..s.committed + s.failed], InHand(s.phase), Done(s.phase))
    && WellGrouped(s.handed, cfg.maxBatch) && |InHand(s.phase)| <= cfg.maxBatch
  }

  ghost predicate Tallied(s: State) {
    && (s.phase.Delivering? ==>
          && NoDuplicates(s.phase.todo) && Elements(s.phase.todo) <= ConversationsOf(s.phase.batch)
          && s.phase.good + s.phase.bad == |Within(s.phase.batch, Done(s.phase))|)
    && |Flat(s.confirmed)| == s.committed + Good(s.phase)
    && (s.failed + Bad(s.phase) == 0 ==> s.confirmed == s.handed)
  }

  /** While nothing has failed, everything settled is confirmed. */
  ghost predicate Confirmed(s: State)
    requires s.committed + s.failed <= |s.admitted|
  {
    s.failed == 0 ==> forall c :: Of(s.admitted[..s.committed + s.failed], c) <= Of(Flat(s.confirmed), c)
  }

  ghost predicate Inv(cfg: Config, s: State) {
    QueueShape(cfg, s) && Fifo(s) && Counted(s) && Accounted(cfg, s) && Tallied(s) && Confirmed(s)
  }

  lemma InitialInv(cfg: Config)
    ensures Inv(cfg, INITIAL)
  {
  }

  lemma StepKeepsShape(cfg: Config, s: State, step: Step)
    requires QueueShape(cfg, s) && Enabled(cfg, s, step)
    ensures QueueShape(cfg, After(cfg, s, step))
  {
  }

  lemma PutKeepsFifo(s: State, e: Event)
    requires Fifo(s)
    ensures Fifo(s.(queue := s.queue + [Captured(e)], admitted := s.admitted + [e], holding := true))
  {
    EventsSnoc(s.queue, Captured(e));
    assert s.admitted[s.committed + s.failed..] + [e] == (s.admitted + [e])[s.committed + s.failed..];
  }

  lemma FinishKeepsFifo(s: State)
    requires Fifo(s) && s.phase.Delivering? && s.phase.todo == [] && Tallied(s)
    ensures s.phase.good + s.phase.bad == |s.phase.batch| && s.committed + s.failed + |s.phase.batch| <= |s.admitted|
    ensures s.admitted[s.committed + s.failed + |s.phase.batch|..] == Events(s.queue)
    ensures s.admitted[..s.committed + s.failed + |s.phase.batch|] == s.admitted[..s.committed + s.failed] + s.phase.batch
  {
    hide Flat, Within, Events;
    WithinAll(s.phase.batch, Done(s.phase));
    var k, batch := s.committed + s.failed, s.phase.batch;
    var tail := s.admitted[k..];
    assert |tail| >= |batch| && tail[..|batch|] == batch && tail[|batch|..] == Events(s.queue);
    assert s.admitted[k + |batch|..] == tail[|batch|..];
    assert s.admitted[..k + |batch|] == s.admitted[..k] + tail[..|batch|];
  }

  /** Taking the head of the queue moves its event, if it is one, into the worker's hand. */
  lemma HeadMoves(queue: seq<Item>, batch: seq<Event>)
    requires queue != []
    ensures batch + Events(queue) == (batch + EventOf(queue[0])) + Events(queue[1..])
    ensures queue[0].Stop? ==> batch + EventOf(queue[0]) == batch
  {
    hide EventOf;
    var first, rest := EventOf(queue[0]), Events(queue[1..]);
    assert Events(queue) == first + rest;
    assert queue[0].Stop? ==> first == [] by { StopIsNoEvent(); }
    hide Events;
    assert batch + (first + rest) == (batch + first) + rest;
  }

  lemma StopIsNoEvent()
    ensures EventOf(Stop) == []
  {
  }

  lemma StepKeepsFifo(cfg: Config, s: State, step: Step)
    requires Inv(cfg, s) && Enabled(cfg, s, step)
    ensures Fifo(After(cfg, s, step))
  {
    hide Accounted, Confirmed, Counted, Tallied, FirstSeen, Of, Events, Flat, Within, ConversationsOf;
    if step.Take? || step.Collect? {
      assert s.queue[0].Stop? ==> |s.queue| == 1;
      HeadMoves(s.queue, InHand(s.phase));
    }
    hide QueueShape;
    match step
    case Put(e) => PutKeepsFifo(s, e);
    case SendStop => EventsSnoc(s.queue, Stop);
    case Take =>
    case Collect =>
    case Finish => FinishKeepsFifo(s);
    case _ => assert InHand(After(cfg, s, step).phase) == InHand(s.phase);
  }

  lemma StepKeepsCounted(cfg: Config, s: State, step: Step)
    requires Inv(cfg, s) && Enabled(cfg, s, step)
    ensures Counted(After(cfg, s, step))
  {
    hide Accounted, Confirmed, Tallied, QueueShape, FirstSeen, Of;
    if step.Finish? { FinishKeepsFifo(s); }
  }

  /** Handing over the next group moves its conversation to the done ones. */
  lemma NextDone(s: State, cfg: Config, ok: bool)
    requires Tallied(s) && Enabled(cfg, s, Hand(ok))
    ensures s.phase.todo[0] in ConversationsOf(s.phase.batch) && s.phase.todo[0] !in Done(s.phase)
    ensures Done(After(cfg, s, Hand(ok)).phase) == Done(s.phase) + {s.phase.todo[0]}
  {
    hide ConversationsOf, Of, Within, Flat;
    var c := s.phase.todo[0];
    assert c in Elements(s.phase.todo);
    assert Elements(s.phase.todo) == {c} + Elements(s.phase.todo[1..]);
    assert c !in Elements(s.phase.todo[1..]);
  }

  lemma HandKeepsAccounted(cfg: Config, s: State, ok: bool)
    requires Inv(cfg, s) && Enabled(cfg, s, Hand(ok))
    ensures Accounted(cfg, After(cfg, s, Hand(ok)))
  {
    hide Accounts, Of, WellGrouped, ConversationsOf, FirstSeen, QueueShape, Tallied, Confirmed, Counted, Events;
    NextDone(s, cfg, ok);
    var c, k := s.phase.todo[0], s.committed + s.failed;
    HandGroup(s.handed, s.admitted[..k], s.phase.batch, Done(s.phase), c);
    HandGroupWell(s.handed, cfg.maxBatch, s.phase.batch, c);
  }

  lemma StepKeepsAccounted(cfg: Config, s: State, step: Step)
    requires cfg.Lawful() && Inv(cfg, s) && Enabled(cfg, s, step) && Fifo(After(cfg, s, step))
    ensures Accounted(cfg, After(cfg, s, step))
  {
    hide Accounts, Of, WellGrouped, ConversationsOf, FirstSeen, QueueShape, Tallied, Confirmed, Counted, Events;
    var t, k := After(cfg, s, step), s.committed + s.failed;
    match step
    case Put(e) => assert t.admitted[..k] == s.admitted[..k];
    case Take => BeginBatch(s.handed, s.admitted[..k], [], InHand(t.phase));
    case Collect =>
      BeginBatch(s.handed, s.admitted[..k], s.phase.batch, InHand(t.phase));
      assert Done(t.phase) == {};
    case StopCollecting => assert Done(t.phase) == {};
    case Hand(ok) => HandKeepsAccounted(cfg, s, ok);
    case Finish => FinishKeepsAccounted(cfg, s);
    case _ =>
  }

  lemma FinishKeepsAccounted(cfg: Config, s: State)
    requires Inv(cfg, s) && Enabled(cfg, s, Finish) && Fifo(After(cfg, s, Finish))
    ensures Accounted(cfg, After(cfg, s, Finish))
  {
    hide Accounts, Of, WellGrouped, ConversationsOf, FirstSeen, QueueShape, Tallied, Confirmed, Counted, Events;
    FinishKeepsFifo(s);
    SettleBatch(s.handed, s.admitted[..s.committed + s.failed], s.phase.batch, Done(s.phase));
  }

  lemma StepKeepsTallied(cfg: Config, s: State, step: Step)
    requires Inv(cfg, s) && Enabled(cfg, s, step)
    ensures Tallied(After(cfg, s, step))
  {
    hide Accounted, Confirmed, QueueShape, Fifo, Counted, Of, ConversationsOf, FirstSeen, Within;
    var t := After(cfg, s, step);
    match step
    case Collect => if t.phase.Delivering? { WithinNothing(t.phase.batch); assert Done(t.phase) == {}; }
    case StopCollecting => WithinNothing(t.phase.batch); assert Done(t.phase) == {};
    case Hand(ok) =>
      var c := s.phase.todo[0];
      NextDone(s, cfg, ok);
      WithinAdd(s.phase.batch, Done(s.phase), c);
      OfNothing(s.phase.batch, c);
      assert ok ==> t.confirmed[..|t.confirmed| - 1] == s.confirmed;
    case _ =>
  }

  lemma HandKeepsConfirmed(settled: seq<Event>, confirmed: seq<seq<Event>>, group: seq<Event>, c: string)
    requires Of(settled, c) <= Of(Flat(confirmed), c)
    ensures Of(settled, c) <= Of(Flat(confirmed + [group]), c)
  {
    hide Of;
    assert (confirmed + [group])[..|confirmed|] == confirmed;
    OfAppend(Flat(confirmed), group, c);
  }

  lemma StepKeepsConfirmed(cfg: Config, s: State, step: Step)
    requires Inv(cfg, s) && Enabled(cfg, s, step) && Fifo(After(cfg, s, step)) && Accounted(cfg, After(cfg, s, step))
    ensures Confirmed(After(cfg, s, step))
  {
    hide Of, WellGrouped, ConversationsOf, FirstSeen, QueueShape, Counted, Flat, Events;
    var t := After(cfg, s, step);
    var k := s.committed + s.failed;
    if step.Put? { assert t.admitted[..k] == s.admitted[..k]; }
    forall c | t.failed == 0 ensures Of(t.admitted[..t.committed + t.failed], c) <= Of(Flat(t.confirmed), c) {
      assert s.failed == 0;
      assert Of(s.admitted[..k], c) <= Of(Flat(s.confirmed), c);
      if step.Hand? {
        HandKeepsConfirmed(s.admitted[..k], s.confirmed, Of(s.phase.batch, s.phase.todo[0]), c);
      } else if step.Finish? {
        assert t.confirmed == t.handed;
        assert Of(Flat(t.handed), c) == Of(t.admitted[..t.committed + t.failed], c) + [];
      }
    }
  }

  /** What every step keeps. */
  lemma StepKeepsInv(cfg: Config, s: State, step: Step)
    requires cfg.Lawful() && Inv(cfg, s) && Enabled(cfg, s, step)
    ensures Inv(cfg, After(cfg, s, step))
  {
    StepKeepsShape(cfg, s, step);
    StepKeepsFifo(cfg, s, step);
    StepKeepsCounted(cfg, s, step);
    StepKeepsAccounted(cfg, s, step);
    StepKeepsTallied(cfg, s, step);
    StepKeepsConfirmed(cfg, s, step);
  }

  // ----- Runs -----

  ghost predicate Run(cfg: Config, states: seq<State>, steps: seq<Step>) {
    && |states| == |steps| + 1 && states[0] == INITIAL
    && forall i | 0 <= i < |steps| :: Enabled(cfg, states[i], steps[i]) && states[i + 1] == After(cfg, states[i], steps[i])
  }

  lemma {:induction false} RunKeepsInv(cfg: Config, states: seq<State>, steps: seq<Step>, n: nat)
    requires cfg.Lawful() && Run(cfg, states, steps) && n <= |steps|
    ensures Inv(cfg, states[n])
  {
    hide Inv;
    if n == 0 {
      InitialInv(cfg);
    } else {
      RunKeepsInv(cfg, states, steps, n - 1);
      StepKeepsInv(cfg, states[n - 1], steps[n - 1]);
    }
  }

  lemma {:induction false} AdmittedGrows(cfg: Config, states: seq<State>, steps: seq<Step>, m: nat, n: nat)
    requires Run(cfg, states, steps) && m <= n <= |steps|
    ensures states[m].admitted <= states[n].admitted
    decreases n
  {
    if m < n { AdmittedGrows(cfg, states, steps, m, n - 1); }
  }

  /** Whenever the lock is free, every event counted as enqueued is committed, failed or pending. */
  lemma Conservation(cfg: Config, states: seq<State>, steps: seq<Step>, n: nat)
    requires cfg.Lawful() && Run(cfg, states, steps) && n <= |steps| && !states[n].holding
    ensures states[n].enqueued == states[n].committed + states[n].failed + states[n].pending
    ensures states[n].pending == |InHand(states[n].phase)| + |Events(states[n].queue)|
    ensures states[n].enqueued == |states[n].admitted|
  {
    RunKeepsInv(cfg, states, steps, n);
    assert |states[n].admitted[states[n].committed + states[n].failed..]| == |InHand(states[n].phase)| + |Events(states[n].queue)|;
  }

  /** At every moment each conversation's handed events are a prefix of its admitted ones, handed
      over in single-conversation groups no larger than a batch. */
  lemma AtMostOnceInOrder(cfg: Config, states: seq<State>, steps: seq<Step>, n: nat, c: string)
    requires cfg.Lawful() && Run(cfg, states, steps) && n <= |steps|
    ensures Of(Flat(states[n].handed), c) <= Of(states[n].admitted, c)
    ensures WellGrouped(states[n].handed, cfg.maxBatch)
  {
    hide Of, Flat;
    RunKeepsInv(cfg, states, steps, n);
    var s := states[n];
    var k := s.committed + s.failed;
    AccountsArePrefix(s.handed, s.admitted[..k], InHand(s.phase), Done(s.phase), Events(s.queue), c);
    assert s.admitted == s.admitted[..k] + s.admitted[k..];
    assert s.admitted == s.admitted[..k] + InHand(s.phase) + Events(s.queue);
  }

  /** A flush that reads its target at one moment and returns true at a later one: everything
      admitted by the first moment has been confirmed, in order. */
  lemma FlushMeansCommitted(cfg: Config, states: seq<State>, steps: seq<Step>, m: nat, n: nat, c: string)
    requires cfg.Lawful() && Run(cfg, states, steps) && m <= n <= |steps| && !states[m].holding
    requires states[n].committed + states[n].failed >= states[m].enqueued && states[n].failed == 0
    ensures Of(states[m].admitted, c) <= Of(Flat(states[n].confirmed), c)
  {
    hide Of, Flat, Accounted, Tallied, QueueShape, Events, InHand, After, Enabled;
    RunKeepsInv(cfg, states, steps, m);
    RunKeepsInv(cfg, states, steps, n);
    AdmittedGrows(cfg, states, steps, m, n);
    var s, before, k := states[n], states[m].admitted, states[n].committed + states[n].failed;
    assert s.admitted[..k] == before + s.admitted[|before|..k];
    OfAppend(before, s.admitted[|before|..k], c);
    assert Of(s.admitted[..k], c) <= Of(Flat(s.confirmed), c);
  }

  /** Once the worker has left, each admitted event was handed over exactly once, in order. */
  lemma ExitMeansAllHanded(cfg: Config, states: seq<State>, steps: seq<Step>, n: nat, c: string)
    requires cfg.Lawful() && Run(cfg, states, steps) && n <= |steps| && states[n].phase.Exited?
    ensures Of(Flat(states[n].handed), c) == Of(states[n].admitted, c)
    ensures states[n].pending == 0 && states[n].closed
  {
    hide Of, Flat;
    RunKeepsInv(cfg, states, steps, n);
    var s := states[n];
    assert s.admitted[..s.committed + s.failed] == s.admitted;
    assert Of(Flat(s.handed), c) == Of(s.admitted, c) + (if c in Done(s.phase) then Of([], c) else []);
  }

  // ----- What the counters tell -----

  predicate IsDrop(step: Step) { step.Drop? || step.Refuse? }
  predicate IsCall(step: Step) { step.Hand? }
  predicate IsSuccess(step: Step) { step.Hand? && step.ok }

  /** The counters tell how often events were turned away and calls succeeded, and how many events the
      successful and the failed calls held, but for what the batch in hand has not counted yet. */
  ghost predicate Tells(s: State, steps: seq<Step>) {
    && s.dropped == Times(steps, IsDrop)
    && |s.handed| == Times(steps, IsCall) && |s.confirmed| == Times(steps, IsSuccess)
    && s.batches + (if s.phase.Delivering? && s.phase.noting == Some(true) then 1 else 0) == |s.confirmed|
    && s.committed + Good(s.phase) == |Flat(s.confirmed)|
    && s.committed + s.failed + Good(s.phase) + Bad(s.phase) == |Flat(s.handed)|
  }

  lemma StepTells(cfg: Config, s: State, steps: seq<Step>, step: Step)
    requires Enabled(cfg, s, step) && Tells(s, steps)
    ensures Tells(After(cfg, s, step), steps + [step])
  {
    hide Of, Flat, FirstSeen, Times;
    var more := steps + [step];
    assert more[..|steps|] == steps && more[..|steps| + 1] == more;
    TimesSnoc(more, |steps|, IsDrop);
    TimesSnoc(more, |steps|, IsCall);
    TimesSnoc(more, |steps|, IsSuccess);
    if step.Hand? {
      FlatSnoc(s.handed, Of(s.phase.batch, s.phase.todo[0]));
      FlatSnoc(s.confirmed, Of(s.phase.batch, s.phase.todo[0]));
    }
  }

  lemma {:induction false} CountersTell(cfg: Config, states: seq<State>, steps: seq<Step>, n: nat)
    requires Run(cfg, states, steps) && n <= |steps|
    ensures Tells(states[n], steps[..n])
  {
    hide Enabled, After, Tells;
    if n == 0 {
      assert Tells(INITIAL, []) by { NothingTold(); }
    } else {
      CountersTell(cfg, states, steps, n - 1);
      assert steps[..n] == steps[..n - 1] + [steps[n - 1]];
      StepTells(cfg, states[n - 1], steps[..n - 1], steps[n - 1]);
    }
  }

  lemma NothingTold()
    ensures Tells(INITIAL, [])
  {
  }

  // ----- The object -----

  datatype Overflow = DropNew | Raise | Block

  datatype SubmitError = ShutDown | QueueFull

  /** The worker can take an item without the lock: it is waiting for one or collecting. While it
      delivers it needs the lock to finish, and takes nothing. */
  predicate MakesRoom(cfg: Config, phase: Phase) {
    phase.Waiting? || (phase.Collecting? && |phase.batch| < cfg.maxBatch)
  }

  /** The state once there is room: after the worker took an item, if the queue was full. */
  function Roomy(cfg: Config, s: State): State {
    if |s.queue| < cfg.maxQueue then s else if s.phase.Waiting? then After(cfg, s, Take) else After(cfg, s, Collect)
  }

  /** The processor object, with what its worker holds. Every section that runs under the lock, and
      every move of the worker, is a step of the system above; now is the state of that system. */
  class BackgroundProcessor {
    const cfg: Config
    const overflow: Overflow
    var queue: seq<Item>
    var closed: bool
    var phase: Phase
    var enqueued: nat
    var committed: nat
    var dropped: nat
    var failed: nat
    var batches: nat
    var pending: int
    ghost var now: State

    /** The fields are those of the state, and the invariant holds. */
    ghost predicate Valid()
      reads this
    {
      && cfg.Lawful() && Inv(cfg, now) && !now.holding
      && queue == now.queue && closed == now.closed && phase == now.phase
      && enqueued == now.enqueued && committed == now.committed && dropped == now.dropped && failed == now.failed
      && batches == now.batches && pending == now.pending
    }

    constructor (cfg: Config, overflow: Overflow)
      requires cfg.Lawful()
      ensures Valid() && now == INITIAL && this.cfg == cfg && this.overflow == overflow
    {
      hide Inv;
      this.cfg, this.overflow := cfg, overflow;
      queue, closed, phase := [], false, Waiting;
      enqueued, committed, dropped, failed, batches, pending := 0, 0, 0, 0, 0, 0;
      now := INITIAL;
      InitialInv(cfg);
    }

    /** There is room, or there will be before a blocking put gives up. */
    predicate HasRoom(inTime: bool)
      reads this
    {
      |queue| < cfg.maxQueue || (overflow == Block && inTime && MakesRoom(cfg, phase))
    }

    /** Submit under the lock. prepared is None when preparing dropped the event. A blocking put on a full
        queue waits while it owns the lock, so the worker can only make room by taking or collecting
        an item; inTime says whether it does so before the timeout. True means admitted. */
    method Submit(prepared: Option<Event>, inTime: bool) returns (r: Result<bool, SubmitError>)
      requires Valid()
      modifies this
      ensures Valid()
      ensures r == Ok(true) <==> prepared.Some? && !old(closed) && old(HasRoom(inTime))
      ensures r == Err(ShutDown) <==> prepared.Some? && old(closed)
      ensures r == Err(QueueFull) <==> prepared.Some? && !old(closed) && |old(queue)| == cfg.maxQueue && overflow == Raise
      ensures now == if r == Ok(true) then After(cfg, After(cfg, Roomy(cfg, old(now)), Put(prepared.value)), Count)
                     else if r == Err(ShutDown) then old(now) else After(cfg, old(now), Drop)
    {
      hide Inv;
      InvBounds(cfg, now);
      if prepared.None? {
        dropped := dropped + 1;
        Advance(Drop);
        return Ok(false);
      }
      if closed { return Err(ShutDown); }
      if |queue| >= cfg.maxQueue {
        if HasRoom(inTime) {
          if phase.Waiting? { Take(); } else { Collect(); }
        } else {
          dropped := dropped + 1;
          Advance(Refuse);
          return if overflow == Raise then Err(QueueFull) else Ok(false);
        }
      }
      queue := queue + [Captured(prepared.value)];
      Advance(Put(prepared.value));
      enqueued, pending := enqueued + 1, pending + 1;
      Advance(Count);
      r := Ok(true);
    }

    /** One step of the system. */
    ghost method Advance(step: Step)
      requires cfg.Lawful() && Inv(cfg, now) && Enabled(cfg, now, step)
      modifies this`now
      ensures now == After(cfg, old(now), step) && Inv(cfg, now)
    {
      hide *;
      StepKeepsInv(cfg, now, step);
      now := After(cfg, now, step);
    }

    /** The two sections of a shutdown beside its flush. */
    method Close()
      requires Valid() && !closed
      modifies this`closed, this`now
      ensures Valid() && now == After(cfg, old(now), Step.Close)
    {
      hide Inv;
      closed := true;
      Advance(Step.Close);
    }

    method SendStop() returns (sent: bool)
      requires Valid() && closed && !now.stopping
      modifies this`queue, this`now
      ensures Valid() && (sent <==> |old(queue)| < cfg.maxQueue)
      ensures now == if sent then After(cfg, old(now), Step.SendStop) else old(now)
    {
      hide Inv;
      if |queue| >= cfg.maxQueue { return false; }
      queue := queue + [Stop];
      Advance(Step.SendStop);
      sent := true;
    }

    /** The worker's moves. */
    method Take()
      requires Valid() && phase.Waiting? && queue != []
      modifies this`queue, this`phase, this`now
      ensures Valid() && now == After(cfg, old(now), Step.Take)
    {
      hide Inv;
      var first := queue[0];
      queue := queue[1..];
      phase := match first case Captured(e) => Collecting([e]) case Stop => Exited;
      Advance(Step.Take);
    }

    method Collect()
      requires Valid() && phase.Collecting? && |phase.batch| < cfg.maxBatch && queue != []
      modifies this`queue, this`phase, this`now
      ensures Valid() && now == After(cfg, old(now), Step.Collect)
    {
      hide Inv, FirstSeen;
      var item := queue[0];
      queue := queue[1..];
      if item.Stop? {
        var order, _ := GroupByConversation(phase.batch);
        phase := Delivering(phase.batch, order, 0, 0, None, true);
      } else {
        phase := Collecting(phase.batch + [item.event]);
      }
      Advance(Step.Collect);
    }

    method StopCollecting()
      requires Valid() && phase.Collecting?
      modifies this`phase, this`now
      ensures Valid() && now == After(cfg, old(now), Step.StopCollecting)
    {
      hide Inv, FirstSeen;
      var order, _ := GroupByConversation(phase.batch);
      phase := Delivering(phase.batch, order, 0, 0, None, false);
      Advance(Step.StopCollecting);
    }

    /** One call to the client and its note under the lock. */
    method HandOver(group: seq<Event>, ok: bool)
      requires Valid() && phase.Delivering? && phase.noting.None? && phase.todo != []
      requires group == Of(phase.batch, phase.todo[0])
      modifies this`phase, this`batches, this`now
      ensures Valid() && now == After(cfg, After(cfg, old(now), Hand(ok)), Note)
      ensures phase.Delivering? && phase.noting.None? && phase.batch == old(phase.batch) && phase.last == old(phase.last)
      ensures phase.todo == old(phase.todo[1..]) && queue == old(queue) && now.admitted == old(now.admitted)
      ensures now.handed == old(now.handed) + [group] && committed == old(committed) && failed == old(failed)
    {
      hide Inv, Of;
      phase := phase.(todo := phase.todo[1..], noting := Some(ok),
                      good := phase.good + (if ok then |group| else 0), bad := phase.bad + (if ok then 0 else |group|));
      Advance(Hand(ok));
      if ok { batches := batches + 1; }
      phase := phase.(noting := None);
      Advance(Note);
    }

    /** The counters move once per batch. */
    method Finish()
      requires Valid() && phase.Delivering? && phase.noting.None? && phase.todo == []
      modifies this`committed, this`failed, this`pending, this`phase, this`now
      ensures Valid() && now == After(cfg, old(now), Step.Finish)
      ensures phase == (if old(phase.last) then Exited else Waiting) && queue == old(queue)
      ensures now.admitted == old(now.admitted) && now.handed == old(now.handed)
      ensures committed + failed == old(committed + failed) + old(phase.good + phase.bad)
    {
      hide Inv;
      committed, failed, pending := committed + phase.good, failed + phase.bad, pending - |phase.batch|;
      phase := if phase.last then Exited else Waiting;
      Advance(Step.Finish);
    }

    /** One round of the worker: take an event, collect more for at most patience events, deliver. It
        leaves exactly when it meets the stop marker, with everything delivered. */
    method WorkerRound(patience: nat, accepts: string -> bool)
      requires Valid() && phase.Waiting? && queue != []
      modifies this
      ensures Valid() && (phase.Waiting? || phase.Exited?)
      ensures now.admitted == old(now.admitted) && old(now.handed) <= now.handed
      ensures phase.Exited? ==> queue == [] && closed && committed + failed == enqueued
    {
      hide Inv, FirstSeen;
      Take();
      var waited := 0;
      while phase.Collecting? && |phase.batch| < cfg.maxBatch && waited < patience && queue != []
        invariant Valid() && now.admitted == old(now.admitted) && old(now.handed) == now.handed
        invariant phase.Collecting? || phase.Exited? || (phase.Delivering? && phase.noting.None?)
        decreases patience - waited
      {
        Collect();
        waited := waited + 1;
      }
      if phase.Collecting? { StopCollecting(); }
      if phase.Delivering? { DeliverBatch(accepts); }
      InvBounds(cfg, now);
    }

    /** Hand over the groups of the batch in hand, in order of first appearance, and move the counters
        once at the end. accepts says which calls succeed. */
    method DeliverBatch(accepts: string -> bool)
      requires Valid() && phase.Delivering? && phase.noting.None?
      modifies this
      ensures Valid() && phase == if old(phase.last) then Exited else Waiting
      ensures queue == old(queue) && now.admitted == old(now.admitted) && old(now.handed) <= now.handed
      ensures committed + failed == old(committed + failed) + |old(phase.batch)|
    {
      hide Inv, Of, After, Enabled;
      var batch, last := phase.batch, phase.last;
      var _, groups := GroupByConversation(batch);
      while phase.todo != []
        invariant Valid() && phase.Delivering? && phase.noting.None? && phase.batch == batch && phase.last == last
        invariant queue == old(queue) && now.admitted == old(now.admitted) && old(now.handed) <= now.handed
        invariant committed == old(committed) && failed == old(failed)
        decreases |phase.todo|
      {
        TodoKnown(cfg, now);
        HandOver(groups[phase.todo[0]], accepts(phase.todo[0]));
      }
      DeliveredAll(cfg, now);
      Finish();
    }
  }

  lemma InvBounds(cfg: Config, s: State)
    requires Inv(cfg, s)
    ensures |s.queue| <= cfg.maxQueue
    ensures s.phase.Exited? ==> s.queue == [] && s.closed && s.committed + s.failed == |s.admitted|
    ensures !s.holding ==> s.enqueued == |s.admitted|
  {
  }

  lemma TodoKnown(cfg: Config, s: State)
    requires Inv(cfg, s) && s.phase.Delivering? && s.phase.todo != []
    ensures s.phase.todo[0] in ConversationsOf(s.phase.batch)
  {
    assert s.phase.todo[0] in Elements(s.phase.todo);
  }

  lemma DeliveredAll(cfg: Config, s: State)
    requires Inv(cfg, s) && s.phase.Delivering? && s.phase.todo == []
    ensures s.phase.good + s.phase.bad == |s.phase.batch|
  {
    FinishKeepsFifo(s);
  }
}
