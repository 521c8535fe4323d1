/** Waking the Go processor's flushes (sdk/go/processor.go). The worker leaves a token in a channel that holds
    one after each group it counts; a waiting flush takes it, and looks at the counters. */
module GoFlush {
  import opened Basics
  import opened Sorting
  import opened Batching
  import P = GoProcessor

  type FlushID = nat

  datatype Flush =
    | Checking(target: nat)
    | Sleeping(target: nat)
    | Returned(failed: bool)
    | Cancelled

  predicate Active(flush: Flush) {
    flush.Checking? || flush.Sleeping?
  }

  /** owes: the worker has counted a group and not yet offered the token. */
  datatype State = State(base: P.State, token: bool, owes: bool, flushes: map<FlushID, Flush>)

  const INITIAL := State(P.INITIAL, false, false, map[])

  datatype Step =
    | Base(step: P.Step)
    | Signal
    | Start(f: FlushID)
    | Check(f: FlushID)
    | Wake(f: FlushID)
    | Cancel(f: FlushID)

  predicate Enabled(cfg: P.Config, s: State, step: Step) {
    match step
    case Base(b) => P.Enabled(cfg, s.base, b) && (s.owes ==> !b.Hand? && !b.Finish?)
    case Signal => s.owes
    case Start(f) => f !in s.flushes && !s.base.holding
    case Check(f) => f in s.flushes && s.flushes[f].Checking? && !s.base.holding
    case Wake(f) => f in s.flushes && s.flushes[f].Sleeping? && s.token
    case Cancel(f) => f in s.flushes && s.flushes[f].Sleeping?
  }

  function Finished(s: State): nat {
    s.base.committed + s.base.failed
  }

  function After(cfg: P.Config, s: State, step: Step): State
    requires Enabled(cfg, s, step)
  {
    match step
    case Base(b) => s.(base := P.After(cfg, s.base, b), owes := s.owes || b.Note?)
    case Signal => s.(owes := false, token := true)
    case Start(f) => s.(flushes := s.flushes[f := Checking(s.base.enqueued)])
    case Check(f) =>
      var target := s.flushes[f].target;
      s.(flushes := s.flushes[f := if Finished(s) >= target then Returned(s.base.failed != 0) else Sleeping(target)])
    case Wake(f) => s.(token := false, flushes := s.flushes[f := Checking(s.flushes[f].target)])
    case Cancel(f) => s.(flushes := s.flushes[f := Flush.Cancelled])
  }

  ghost predicate Run(cfg: P.Config, states: seq<State>, steps: seq<Step>) {
    && |states| == |steps| + 1 && states[0] == INITIAL
    && forall i | 0 <= i < |steps| :: Enabled(cfg, states[i], steps[i]) && states[i + 1] == After(cfg, states[i], steps[i])
  }

  // ----- What a flush needs -----

  /** A sleeping flush has nothing to wait for. */
  predicate Done(s: State, f: FlushID) {
    f in s.flushes && s.flushes[f].Sleeping? && Finished(s) >= s.flushes[f].target
  }

  /** Whoever sleeps without reason will be woken: the token is there, or about to be. */
  ghost predicate WakePending(s: State) {
    forall f | Done(s, f) :: s.token || s.owes
  }

  predicate AtMostOneActive(s: State) {
    forall f, g | f in s.flushes && g in s.flushes && Active(s.flushes[f]) && Active(s.flushes[g]) :: f == g
  }

  ghost predicate Inv(cfg: P.Config, s: State) {
    && P.Inv(cfg, s.base)
    && (forall f | f in s.flushes && Active(s.flushes[f]) :: s.flushes[f].target <= s.base.enqueued)
  }

  lemma StepKeepsInv(cfg: P.Config, s: State, step: Step)
    requires cfg.Lawful() && Inv(cfg, s) && Enabled(cfg, s, step)
    ensures Inv(cfg, After(cfg, s, step))
  {
    hide P.Inv, Of, ConversationsOf;
    if step.Base? { P.StepKeepsInv(cfg, s.base, step.step); }
  }

  lemma StepKeepsWakePending(cfg: P.Config, s: State, step: Step)
    requires Enabled(cfg, s, step) && AtMostOneActive(s) && WakePending(s)
    ensures WakePending(After(cfg, s, step))
  {
    hide Of, ConversationsOf;
    var t := After(cfg, s, step);
    forall f | Done(t, f) ensures t.token || t.owes {
      if step.Base? && !step.step.Note? { assert Done(s, f); }
      if step.Start? || step.Cancel? { assert Done(s, f); }
    }
  }

  lemma {:induction false} RunKeepsInv(cfg: P.Config, states: seq<State>, steps: seq<Step>, n: nat)
    requires cfg.Lawful() && Run(cfg, states, steps) && n < |states|
    ensures Inv(cfg, states[n])
  {
    hide Inv, Enabled, After;
    if n == 0 {
      assert Inv(cfg, INITIAL) by { InitialInv(cfg); }
    } else {
      RunKeepsInv(cfg, states, steps, n - 1);
      StepKeepsInv(cfg, states[n - 1], steps[n - 1]);
    }
  }

  lemma InitialInv(cfg: P.Config)
    ensures Inv(cfg, INITIAL)
  {
    hide P.Inv;
    P.InitialInv(cfg);
  }

  ghost predicate Solo(states: seq<State>) {
    forall i | 0 <= i < |states| :: AtMostOneActive(states[i])
  }

  /** While no two flushes wait at once, no wakeup is lost. */
  lemma {:induction false} SoloWakes(cfg: P.Config, states: seq<State>, steps: seq<Step>, n: nat)
    requires Run(cfg, states, steps) && Solo(states) && n < |states|
    ensures WakePending(states[n])
  {
    hide Enabled, After, WakePending, AtMostOneActive;
    if n == 0 {
      assert WakePending(INITIAL) by { NobodyWaits(); }
    } else {
      SoloWakes(cfg, states, steps, n - 1);
      StepKeepsWakePending(cfg, states[n - 1], steps[n - 1]);
    }
  }

  lemma NobodyWaits()
    ensures WakePending(INITIAL)
  {
  }

  // ----- At rest -----

  predicate Internal(step: Step) {
    match step
    case Base(b) => b.Count? || b.Take? || b.Leave? || b.Collect? || b.CollectClosed? || b.StopCollecting? || b.Hand? || b.Note? || b.Finish?
    case Start(_) => false
    case Cancel(_) => false
    case _ => true
  }

  /** Nothing can happen unless somebody calls the processor or cancels a context. */
  ghost predicate Rest(cfg: P.Config, s: State) {
    forall step | Internal(step) :: !Enabled(cfg, s, step)
  }

  /** At rest everything that was counted in has been delivered. */
  lemma RestIsDone(cfg: P.Config, s: State)
    requires Inv(cfg, s) && Rest(cfg, s)
    ensures !s.owes && !s.base.holding && Finished(s) == s.base.enqueued
    ensures s.base.phase.Waiting? || s.base.phase.Exited?
  {
    hide P.Inv, P.After, Of, ConversationsOf;
    assert !Enabled(cfg, s, Signal);
    assert !Enabled(cfg, s, Base(P.Count));
    assert !Enabled(cfg, s, Base(P.Take));
    if s.base.phase.Collecting? || s.base.phase.Delivering? {
      var step := WorkerCanMove(cfg, s);
    } else {
      RestCounts(cfg, s.base);
    }
  }

  lemma WorkerCanMove(cfg: P.Config, s: State) returns (step: Step)
    requires !s.owes && !s.base.holding && (s.base.phase.Collecting? || s.base.phase.Delivering?)
    ensures Internal(step) && Enabled(cfg, s, step)
  {
    var phase := s.base.phase;
    if phase.Collecting? {
      step := Base(P.StopCollecting);
    } else if phase.noting.Some? {
      step := Base(P.Note);
    } else if phase.todo == {} {
      step := Base(P.Finish);
    } else {
      var c :| c in phase.todo;
      step := Base(P.Hand(c, true));
    }
  }

  lemma RestCounts(cfg: P.Config, s: P.State)
    requires P.Inv(cfg, s) && !s.holding && (s.phase.Exited? || (s.phase.Waiting? && s.queue == []))
    ensures s.committed + s.failed == s.enqueued
  {
    WithinNothing(P.InHand(s.phase));
    assert |s.admitted[s.settled..]| == |P.InHand(s.phase)| + |s.queue|;
  }

  /** So while no two flushes wait at once, no flush waits when the processor is at rest. */
  lemma SoloFlushReturns(cfg: P.Config, states: seq<State>, steps: seq<Step>, n: nat, f: FlushID)
    requires cfg.Lawful() && Run(cfg, states, steps) && Solo(states) && n < |states|
    requires Rest(cfg, states[n]) && f in states[n].flushes
    ensures !Active(states[n].flushes[f])
  {
    var s := states[n];
    RunKeepsInv(cfg, states, steps, n);
    SoloWakes(cfg, states, steps, n);
    hide Run, Solo, P.Inv;
    RestIsDone(cfg, s);
    assert !Enabled(cfg, s, Check(f)) && !Enabled(cfg, s, Wake(f));
    assert Done(s, f) <==> s.flushes[f].Sleeping?;
  }

  // ----- Two flushes -----

  /** Only the flushes 0 and 1 are there. */
  predicate Small(s: State) {
    forall f | f in s.flushes :: f < 2
  }

  predicate AllSmall(states: seq<State>) {
    forall i | 0 <= i < |states| :: Small(states[i])
  }

  lemma RunSnoc(cfg: P.Config, states: seq<State>, steps: seq<Step>, step: Step, next: State)
    requires Run(cfg, states, steps) && |states| == |steps| + 1 && AllSmall(states) && Small(next)
    requires Enabled(cfg, states[|steps|], step) && next == After(cfg, states[|steps|], step)
    ensures Run(cfg, states + [next], steps + [step]) && AllSmall(states + [next])
  {
    hide Enabled, After, Small;
  }

  lemma OneGroup(a: Event)
    ensures Of([a], a.conversationID) == [a] && ConversationsOf([a]) == {a.conversationID}
  {
    assert a in [a];
  }

  /** A flush waits for a; a shutdown closes the processor and waits for a, too. */
  lemma TwoWait(cfg: P.Config, a: Event) returns (states: seq<State>, steps: seq<Step>)
    requires cfg.Lawful()
    ensures Run(cfg, states, steps) && |steps| == 7 && |states| == 8
    ensures steps == [Base(P.Put(a)), Base(P.Count), Start(0), Check(0), Base(P.Close), Start(1), Check(1)]
    ensures states[7] == State(P.State([a], true, false, P.Waiting, 1, 0, 0, 0, 0, 1, 0, [a], [], []), false, false, map[0 := Sleeping(1), 1 := Sleeping(1)])
    ensures AllSmall(states)
  {
    var b1 := P.INITIAL.(queue := [a], admitted := [a], holding := true);
    var b2 := b1.(holding := false, enqueued := 1, pending := 1);
    var s1, s2 := INITIAL.(base := b1), INITIAL.(base := b2);
    var s3, s4 := s2.(flushes := map[0 := Checking(1)]), s2.(flushes := map[0 := Sleeping(1)]);
    var s5 := s4.(base := b2.(closed := true));
    var s6, s7 := s5.(flushes := map[0 := Sleeping(1), 1 := Checking(1)]), s5.(flushes := map[0 := Sleeping(1), 1 := Sleeping(1)]);
    assert [] + [a] == [a];
    hide Run, AllSmall;
    RunStart(cfg);
    states, steps := [INITIAL], [];
    RunSnoc(cfg, states, steps, Base(P.Put(a)), s1);
    states, steps := states + [s1], steps + [Base(P.Put(a))];
    RunSnoc(cfg, states, steps, Base(P.Count), s2);
    states, steps := states + [s2], steps + [Base(P.Count)];
    RunSnoc(cfg, states, steps, Start(0), s3);
    states, steps := states + [s3], steps + [Start(0)];
    RunSnoc(cfg, states, steps, Check(0), s4);
    states, steps := states + [s4], steps + [Check(0)];
    RunSnoc(cfg, states, steps, Base(P.Close), s5);
    states, steps := states + [s5], steps + [Base(P.Close)];
    RunSnoc(cfg, states, steps, Start(1), s6);
    states, steps := states + [s6], steps + [Start(1)];
    RunSnoc(cfg, states, steps, Check(1), s7);
    states, steps := states + [s7], steps + [Check(1)];
  }

  lemma RunStart(cfg: P.Config)
    ensures Run(cfg, [INITIAL], []) && AllSmall([INITIAL])
  {
  }

  /** A flush that will never be woken: the worker is gone, there is no token, and it sleeps. */
  predicate Stuck(s: State, f: FlushID) {
    && s.base.phase.Exited? && s.base.closed && !s.token && !s.owes
    && Done(s, f)
  }

  /** The worker delivers a, counts it and leaves one token; the first flush takes it and returns. The
      other, that of the shutdown, sleeps on although everything is delivered. */
  lemma SecondSleepsOn(cfg: P.Config, a: Event) returns (states: seq<State>, steps: seq<Step>)
    requires cfg.Lawful()
    ensures Run(cfg, states, steps) && |steps| == 16 && |states| == 17
    ensures states[16].flushes == map[0 := Returned(false), 1 := Sleeping(1)] && Stuck(states[16], 1)
    ensures states[16].base.committed == 1 && steps[4] == Base(P.Close) && steps[5] == Start(1)
    ensures AllSmall(states)
  {
    var before, taken := TwoWait(cfg, a);
    OneGroup(a);
    hide Run, AllSmall, Of, ConversationsOf;
    var c, s7 := a.conversationID, before[7];
    var s8 := s7.(base := s7.base.(queue := [], phase := P.Collecting([a])));
    var s9 := s8.(base := s8.base.(phase := P.Delivering([a], {c}, None, false)));
    var s10 := s9.(base := s9.base.(handed := [[a]], confirmed := [[a]], phase := P.Delivering([a], {}, Some((c, true)), false)));
    var s11 := s10.(owes := true, base := s10.base.(committed := 1, batches := 1, pending := 0, phase := P.Delivering([a], {}, None, false)));
    var s12 := s11.(owes := false, token := true);
    var s13 := s12.(token := false, flushes := map[0 := Checking(1), 1 := Sleeping(1)]);
    var s14 := s13.(flushes := map[0 := Returned(false), 1 := Sleeping(1)]);
    var s15 := s14.(base := s14.base.(settled := 1, phase := P.Waiting));
    var s16 := s15.(base := s15.base.(phase := P.Exited));
    assert [a][1..] == [] && {c} - {c} == {};
    states, steps := before + [s8], taken + [Base(P.Take)];
    RunSnoc(cfg, before, taken, Base(P.Take), s8);
    RunSnoc(cfg, states, steps, Base(P.StopCollecting), s9);
    states, steps := states + [s9], steps + [Base(P.StopCollecting)];
    RunSnoc(cfg, states, steps, Base(P.Hand(c, true)), s10);
    states, steps := states + [s10], steps + [Base(P.Hand(c, true))];
    RunSnoc(cfg, states, steps, Base(P.Note), s11);
    states, steps := states + [s11], steps + [Base(P.Note)];
    RunSnoc(cfg, states, steps, Signal, s12);
    states, steps := states + [s12], steps + [Signal];
    RunSnoc(cfg, states, steps, Wake(0), s13);
    states, steps := states + [s13], steps + [Wake(0)];
    RunSnoc(cfg, states, steps, Check(0), s14);
    states, steps := states + [s14], steps + [Check(0)];
    RunSnoc(cfg, states, steps, Base(P.Finish), s15);
    states, steps := states + [s15], steps + [Base(P.Finish)];
    RunSnoc(cfg, states, steps, Base(P.Leave), s16);
    states, steps := states + [s16], steps + [Base(P.Leave)];
  }

  /** It stays so, whatever happens, until its own context ends. */
  lemma StuckStays(cfg: P.Config, s: State, step: Step, f: FlushID)
    requires Stuck(s, f) && Enabled(cfg, s, step) && step != Cancel(f)
    ensures Stuck(After(cfg, s, step), f)
  {
    hide Of, ConversationsOf;
  }

  lemma {:induction false} StuckForEver(cfg: P.Config, states: seq<State>, steps: seq<Step>, m: nat, n: nat, f: FlushID)
    requires Run(cfg, states, steps) && m <= n < |states| && Stuck(states[m], f)
    requires forall i | m <= i < n :: steps[i] != Cancel(f)
    ensures Stuck(states[n], f)
    decreases n
  {
    hide Enabled, After, Stuck;
    if m < n {
      StuckForEver(cfg, states, steps, m, n - 1, f);
      StuckStays(cfg, states[n - 1], steps[n - 1], f);
    }
  }

  /** At most k flushes wait at once. */
  predicate AtMost(k: nat, states: seq<State>) {
    forall i | 0 <= i < |states| :: |ActiveFlushes(states[i])| <= k
  }

  function ActiveFlushes(s: State): set<FlushID> {
    set f | f in s.flushes && Active(s.flushes[f])
  }

  ghost predicate AlwaysWakes(cfg: P.Config, k: nat) {
    forall states: seq<State>, steps: seq<Step>, n: nat
      | Run(cfg, states, steps) && AtMost(k, states) && n < |states| :: WakePending(states[n])
  }

  /** No wakeup is lost in any run exactly when no two flushes, shutdowns included, ever wait at once. */
  lemma AlwaysWakesIff(cfg: P.Config, k: nat)
    requires cfg.Lawful()
    ensures AlwaysWakes(cfg, k) <==> k <= 1
  {
    hide Run, WakePending;
    if k <= 1 {
      forall states: seq<State>, steps: seq<Step>, n: nat | Run(cfg, states, steps) && AtMost(k, states) && n < |states|
        ensures WakePending(states[n])
      {
        forall i | 0 <= i < |states| ensures AtMostOneActive(states[i]) { FewAreSolo(states[i]); }
        SoloWakes(cfg, states, steps, n);
      }
    } else {
      var states, steps := SecondSleepsOn(cfg, Event("a", 0));
      forall i | 0 <= i < |states| ensures |ActiveFlushes(states[i])| <= k { TwoAtMost(states[i]); }
      assert !WakePending(states[16]) by { StuckIsLost(states[16]); }
    }
  }

  lemma StuckIsLost(s: State)
    requires Stuck(s, 1)
    ensures !WakePending(s)
  {
  }

  lemma FewAreSolo(s: State)
    requires |ActiveFlushes(s)| <= 1
    ensures AtMostOneActive(s)
  {
    var active := ActiveFlushes(s);
    forall f, g | f in s.flushes && g in s.flushes && Active(s.flushes[f]) && Active(s.flushes[g]) ensures f == g {
      if f != g {
        assert f in active && g in active;
        assert {f, g} <= active && |{f, g}| == 2;
        SizeOfSubset({f, g}, active);
      }
    }
  }

  lemma {:induction false} SizeOfSubset(a: set<FlushID>, b: set<FlushID>)
    requires a <= b
    ensures |a| <= |b|
  {
    if a != {} {
      var x :| x in a;
      SizeOfSubset(a - {x}, b - {x});
    }
  }

  lemma TwoAtMost(s: State)
    requires Small(s)
    ensures |ActiveFlushes(s)| <= 2
  {
    assert ActiveFlushes(s) <= {0, 1};
    SizeOfSubset(ActiveFlushes(s), {0, 1});
  }
}
