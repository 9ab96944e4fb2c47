/**
 * Any number of threads, taking the steps of their flows in any order. Flows
 * that change the container share one lock; events, polls and power signals do
 * not take it, and the container may die at any moment.
 */
module Interleaving {
  import opened Wrappers
  import opened Tracker
  import opened Flows
  import L = Lifecycle
  import M = Machine
  import Health

  /** `launched` and `ended` count the containers that ever started and stopped running. */
  datatype System = System(
    core: L.Core, lock: Option<nat>, pcs: map<nat, Pc>, threshold: int, streak: nat, preSuspend: Option<State>,
    launched: nat, ended: nat)
  {
    function At(t: nat): Pc {
      if t in pcs then pcs[t] else Returned(L.Fine)
    }
  }

  datatype Action =
    | Call(t: nat, entry: Pc)
    | Advance(t: nat, w: World)
    | Die(code: int, removed: bool)

  /** What a thread can be asked to do. */
  predicate IsEntry(pc: Pc) {
    match pc
    case StartEntry(_) | ReloadEntry(_) | ReconcileEntry => true
    case StopEntry(after) => after.None?
    case EditEntry(_, _, _) => true
    case EventEntry(_) | PollEntry | SuspendEntry | ResumeEntry => true
    case _ => false
  }

  /** The world changed; count the containers that came and went. */
  function Counted(s: System, c: L.Core, launches: bool): System {
    s.(core := c,
       launched := s.launched + (if launches then 1 else 0),
       ended := s.ended + if s.core.world.Running? && !c.world.Running? then 1 else 0)
  }

  /** One step of a thread inside a flow on the manager's part; the lock is given back when a flow returns. */
  function FlowStep(s: System, t: nat, pc: Pc, w: World): System {
    var (c, next) := Micro(s.core, pc, w);
    Counted(s, c, pc.StartRun? && w.run.RunOk?)
      .(pcs := s.pcs[t := next], lock := if InSection(pc) && next.Returned? then None else s.lock)
  }

  function Advanced(s: System, t: nat, w: World): System {
    var c := s.core;
    match s.At(t)
    case Returned(_) => s
    case Waiting(entry) => if s.lock == None then s.(lock := Some(t), pcs := s.pcs[t := entry]) else s
    case PollEntry => s.(pcs := s.pcs[t := if Health.Probed(c.status.state) then PollWrite(c.status.state) else Returned(L.Fine)])
    case PollWrite(seen) =>
      if !Health.Probed(seen) then s.(pcs := s.pcs[t := Returned(L.Fine)]) else
      var (status, streak) := Health.Answer(seen, c.status, s.streak, s.threshold, w.probeOk, w.now);
      s.(core := c.(status := status), streak := streak, pcs := s.pcs[t := Returned(L.Fine)])
    case SuspendEntry => s.(preSuspend := Some(c.status.state), pcs := s.pcs[t := SuspendTell])
    case SuspendTell =>
      s.(core := c.(status := Moved(c.status, Suspended, NO_FIELDS, w.now)), pcs := s.pcs[t := Returned(L.Fine)])
    case ResumeEntry =>
      s.(preSuspend := None, pcs := s.pcs[t := if s.preSuspend.Some? then Waiting(ReconcileEntry) else Returned(L.Fine)])
    case pc => FlowStep(s, t, pc, w)
  }

  function Act(s: System, a: Action): System {
    match a
    case Call(t, entry) =>
      if s.At(t).Returned? && IsEntry(entry) then s.(pcs := s.pcs[t := if InSection(entry) then Waiting(entry) else entry]) else s
    case Advance(t, w) => Advanced(s, t, w)
    case Die(code, removed) => Counted(s, s.core.(world := M.Died(s.core.world, code, removed)), false)
  }

  function Run(s: System, actions: seq<Action>): System
    decreases |actions|
  {
    if actions == [] then s else Act(Run(s, actions[..|actions| - 1]), actions[|actions| - 1])
  }

  /** No thread is doing anything yet; the container may already run. */
  predicate Quiet(s: System) {
    s.lock == None && s.launched == s.ended + (if s.core.world.Running? then 1 else 0) && forall t | t in s.pcs :: s.pcs[t].Returned?
  }

  // ---------------------------------------------------------------- safety

  /** Between the check that nothing runs and the run itself. */
  predicate Committed(pc: Pc) {
    pc.StartMark? || pc.StartTell? || pc.StartRun?
  }

  ghost predicate Exclusive(s: System) {
    forall t: nat :: InSection(s.At(t)) <==> s.lock == Some(t)
  }

  ghost predicate Waits(s: System) {
    forall t: nat | s.At(t).Waiting? :: IsEntry(s.At(t).entry) && InSection(s.At(t).entry)
  }

  ghost predicate Safe(s: System) {
    && Exclusive(s) && Waits(s)
    && (s.lock.Some? && Committed(s.At(s.lock.value)) ==> !s.core.world.Running?)
    && s.launched == s.ended + (if s.core.world.Running? then 1 else 0)
  }

  /** Everything a step of a flow may do to the section and to the container. */
  predicate Confined(c: L.Core, pc: Pc, c': L.Core, pc': Pc, launches: bool) {
    && (pc'.Waiting? ==> pc == pc')
    && (InSection(pc') ==> InSection(pc))
    && (InSection(pc) && !InSection(pc') ==> pc'.Returned?)
    && (Committed(pc') ==> Committed(pc) || !c.world.Running?)
    && (Committed(pc') ==> c'.world == c.world)
    && (launches ==> Committed(pc) && c'.world.Running?)
    && (!launches && c'.world.Running? ==> c.world.Running?)
  }

  lemma StartConfined(c: L.Core, pc: Pc, w: World)
    ensures var (c', pc') := StartStep(c, pc, w); Confined(c, pc, c', pc', pc.StartRun? && w.run.RunOk?)
  {
    hide L.LaunchArgs;
  }

  lemma OtherConfined(c: L.Core, pc: Pc, w: World)
    requires !pc.StartRun?
    ensures var (c', pc') := StopStep(c, pc, w); Confined(c, pc, c', pc', false)
    ensures var (c', pc') := ReconcileStep(c, pc, w); Confined(c, pc, c', pc', false)
    ensures var (c', pc') := EventStep(c, pc, w); Confined(c, pc, c', pc', false)
  {
    hide L.Inspect, L.ProfileOfContainer, L.IsEnding;
  }

  lemma MicroConfined(c: L.Core, pc: Pc, w: World)
    ensures var (c', pc') := Micro(c, pc, w); Confined(c, pc, c', pc', pc.StartRun? && w.run.RunOk?)
  {
    hide StartStep, StopStep, ReconcileStep, EventStep;
    StartConfined(c, pc, w);
    if !pc.StartRun? {
      OtherConfined(c, pc, w);
    }
  }

  lemma SectionFacts(pc: Pc)
    ensures Committed(pc) ==> InSection(pc)
    ensures pc.Returned? || pc.Waiting? || pc.PollWrite? || pc == SuspendTell ==> !InSection(pc)
    ensures IsEntry(pc) ==> !Committed(pc) && !pc.Waiting?
  {
  }

  lemma FlowSafe(s: System, t: nat, w: World)
    requires Safe(s)
    ensures Safe(FlowStep(s, t, s.At(t), w))
  {
    MicroConfined(s.core, s.At(t), w);
    var s' := FlowStep(s, t, s.At(t), w);
    hide Micro, InSection, Committed, IsEntry;
    SectionFacts(s.At(t));
    SectionFacts(s'.At(t));
    assert forall u: nat | u != t :: s'.At(u) == s.At(u);
  }

  /** A thread that moves outside the section, or into it when nobody is there, leaves the others alone. */
  lemma MoveSafe(s: System, t: nat, pc: Pc, s': System)
    requires Safe(s) && s'.pcs == s.pcs[t := pc] && s'.core.world == s.core.world
    requires s'.launched == s.launched && s'.ended == s.ended
    requires !InSection(s.At(t)) && (pc.Waiting? ==> IsEntry(pc.entry) && InSection(pc.entry))
    requires if InSection(pc) then s.lock == None && s'.lock == Some(t) && !Committed(pc) else s'.lock == s.lock
    ensures Safe(s')
  {
    hide InSection, Committed, IsEntry;
    assert forall u: nat | u != t :: s'.At(u) == s.At(u);
  }

  lemma AdvanceSafe(s: System, t: nat, w: World)
    requires Safe(s)
    ensures Safe(Advanced(s, t, w))
  {
    hide Safe, Micro, Committed, Health.Answer, Health.Probed, L.Inspect;
    var s' := Advanced(s, t, w);
    match s.At(t) {
      case Returned(_) =>
      case Waiting(entry) =>
        if s.lock == None {
          EntrySafe(s, t);
          SectionFacts(entry);
          MoveSafe(s, t, entry, s');
        }
      case PollEntry => MoveSafe(s, t, s'.At(t), s');
      case PollWrite(seen) => MoveSafe(s, t, s'.At(t), s');
      case SuspendEntry => MoveSafe(s, t, s'.At(t), s');
      case SuspendTell => MoveSafe(s, t, s'.At(t), s');
      case ResumeEntry => MoveSafe(s, t, s'.At(t), s');
      case _ => FlowSafe(s, t, w);
    }
  }

  lemma EntrySafe(s: System, t: nat)
    requires Safe(s) && s.At(t).Waiting?
    ensures IsEntry(s.At(t).entry) && InSection(s.At(t).entry)
  {
    hide IsEntry, InSection, Exclusive;
  }

  lemma ActSafe(s: System, a: Action)
    requires Safe(s)
    ensures Safe(Act(s, a))
  {
    hide Advanced, Safe, IsEntry;
    match a {
      case Call(t, entry) =>
        if s.At(t).Returned? && IsEntry(entry) {
          SectionFacts(entry);
          MoveSafe(s, t, Act(s, a).At(t), Act(s, a));
        }
      case Advance(t, w) => AdvanceSafe(s, t, w);
      case Die(code, removed) => DieSafe(s, code, removed);
    }
  }

  lemma DieSafe(s: System, code: int, removed: bool)
    requires Safe(s)
    ensures Safe(Act(s, Die(code, removed)))
  {
    hide InSection, Committed, IsEntry;
    var s' := Act(s, Die(code, removed));
    assert forall u: nat :: s'.At(u) == s.At(u);
  }

  lemma {:induction false} AlwaysSafe(s: System, actions: seq<Action>)
    requires Quiet(s)
    ensures Safe(Run(s, actions))
    decreases |actions|
  {
    if actions == [] {
    } else {
      hide Act, Safe;
      AlwaysSafe(s, actions[..|actions| - 1]);
      ActSafe(Run(s, actions[..|actions| - 1]), actions[|actions| - 1]);
    }
  }

  /** The action is the podman call that starts a container. */
  predicate IssuesRun(s: System, a: Action) {
    a.Advance? && s.At(a.t).StartRun?
  }

  /** However the threads interleave, `podman run` is never issued while the managed container runs. */
  lemma RunOnlyWhenGone(s: System, actions: seq<Action>, a: Action)
    requires Quiet(s) && IssuesRun(Run(s, actions), a)
    ensures !Run(s, actions).core.world.Running?
  {
    AlwaysSafe(s, actions);
    hide Run;
    SectionFacts(Run(s, actions).At(a.t));
  }

  /** At most one thread is inside a locked flow, and it is the one that holds the lock. */
  lemma MutualExclusion(s: System, actions: seq<Action>, t: nat, u: nat)
    requires Quiet(s) && InSection(Run(s, actions).At(t)) && InSection(Run(s, actions).At(u))
    ensures t == u && Run(s, actions).lock == Some(t)
  {
    AlwaysSafe(s, actions);
    hide Run, InSection;
    assert Exclusive(Run(s, actions));
  }

  /** Every container that was launched ended before the next was: at any time all but the running one have ended. */
  lemma ContainersAreConserved(s: System, actions: seq<Action>)
    requires Quiet(s)
    ensures var r := Run(s, actions); r.launched == r.ended + if r.core.world.Running? then 1 else 0
  {
    AlwaysSafe(s, actions);
    hide Run;
  }

  // ---------------------------------------------------------------- undisturbed threads

  lemma AdvanceIsFlow(s: System, t: nat, w: World)
    requires Left(s.At(t)) > 0
    ensures Advanced(s, t, w) == FlowStep(s, t, s.At(t), w)
    ensures FlowStep(s, t, s.At(t), w).core == Micro(s.core, s.At(t), w).0
    ensures FlowStep(s, t, s.At(t), w).At(t) == Micro(s.core, s.At(t), w).1
    ensures forall u: nat | u != t :: FlowStep(s, t, s.At(t), w).At(u) == s.At(u)
  {
    hide Micro;
  }

  /** A thread that takes all its remaining steps while no other thread acts. */
  function Alone(s: System, t: nat, w: World): System
    decreases Left(s.At(t))
  {
    if Left(s.At(t)) == 0 then s
    else
      AdvanceIsFlow(s, t, w);
      MicroShortens(s.core, s.At(t), w);
      Alone(Advanced(s, t, w), t, w)
  }

  /** It does to the manager's part what the flow does when it is one step, and answers the same. */
  lemma {:induction false} AloneIsSolo(s: System, t: nat, w: World)
    ensures var s' := Alone(s, t, w);
      && s'.core == Solo(s.core, s.At(t), w).0
      && (s'.At(t).Returned? ==> s'.At(t).reply == Solo(s.core, s.At(t), w).1)
      && forall u: nat | u != t :: s'.At(u) == s.At(u)
    decreases Left(s.At(t))
  {
    if Left(s.At(t)) > 0 {
      AdvanceIsFlow(s, t, w);
      MicroShortens(s.core, s.At(t), w);
      SoloStep(s.core, s.At(t), w);
      hide Micro, Solo, Left, Advanced, FlowStep;
      AloneIsSolo(Advanced(s, t, w), t, w);
    } else {
      SoloEnds(s.core, s.At(t), w);
    }
  }

  lemma SoloEnds(c: L.Core, pc: Pc, w: World)
    requires Left(pc) == 0
    ensures Solo(c, pc, w).0 == c && (pc.Returned? ==> Solo(c, pc, w).1 == pc.reply)
  {
  }

  // ---------------------------------------------------------------- what interleaving can break

  lemma {:induction false} RunConcat(s: System, a: seq<Action>, b: seq<Action>)
    ensures Run(s, a + b) == Run(Run(s, a), b)
    decreases |b|
  {
    hide Act;
    if b == [] {
      assert a + b == a;
    } else {
      RunConcat(s, a, b[..|b| - 1]);
      assert (a + b)[..|a + b| - 1] == a + b[..|b| - 1];
    }
  }

  lemma RunOne(s: System, x: Action)
    ensures Run(s, [x]) == Act(s, x)
  {
    hide Act;
    assert [x][..0] == [] && Run(s, []) == s;
  }

  lemma RunTwo(s: System, x: Action, y: Action)
    ensures Run(s, [x, y]) == Act(Act(s, x), y)
  {
    hide Act, Run;
    assert [x, y] == [x] + [y];
    RunConcat(s, [x], [y]);
    RunOne(s, x);
    RunOne(Act(s, x), y);
  }

  /** A probe begins, the container ends, its event is handled, and then the probe's answer is written. */
  function CrashDuringPoll(e: L.Event, w: World): seq<Action> {
    [Call(0, PollEntry), Advance(0, w)] + ([Die(1, true), Call(1, EventEntry(e))]
    + ([Advance(1, w)] + ([Advance(1, w)] + ([Advance(1, w)] + [Advance(0, w)]))))
  }

  lemma ProbeBegins(s: System, w: World)
    requires s.At(0).Returned? && Health.Probed(s.core.status.state)
    ensures var s' := Run(s, [Call(0, PollEntry), Advance(0, w)]);
      s'.At(0) == PollWrite(s.core.status.state) && s'.core == s.core && s'.At(1) == s.At(1)
  {
    RunTwo(s, Call(0, PollEntry), Advance(0, w));
    hide Run, Health.Probed, FlowStep;
    var s1 := Act(s, Call(0, PollEntry));
    assert s1.core == s.core && s1.At(0) == PollEntry && s1.At(1) == s.At(1);
  }

  lemma DeathAlone(s: System, code: int)
    ensures var s' := Act(s, Die(code, true));
      s'.core == s.core.(world := M.Died(s.core.world, code, true)) && s'.pcs == s.pcs && !s'.core.world.Running?
  {
  }

  lemma EventCalled(s: System, e: L.Event)
    requires s.At(1).Returned?
    ensures var s' := Act(s, Call(1, EventEntry(e))); s'.At(1) == EventEntry(e) && s'.At(0) == s.At(0) && s'.core == s.core
  {
    hide Advanced;
  }

  lemma ContainerEnds(s: System, e: L.Event)
    requires s.At(1).Returned?
    ensures var s' := Run(s, [Die(1, true), Call(1, EventEntry(e))]);
      s'.At(1) == EventEntry(e) && s'.At(0) == s.At(0)
      && s'.core == s.core.(world := M.Died(s.core.world, 1, true)) && !s'.core.world.Running?
  {
    RunTwo(s, Die(1, true), Call(1, EventEntry(e)));
    DeathAlone(s, 1);
    hide Run, Act, M.Died;
    EventCalled(Act(s, Die(1, true)), e);
  }

  lemma EventStepAlone(s: System, w: World)
    requires Left(s.At(1)) > 0
    ensures var s' := Run(s, [Advance(1, w)]);
      s'.core == Micro(s.core, s.At(1), w).0 && s'.At(1) == Micro(s.core, s.At(1), w).1 && s'.At(0) == s.At(0)
  {
    RunOne(s, Advance(1, w));
    hide Run, Micro, FlowStep, Advanced, Left;
    AdvanceIsFlow(s, 1, w);
  }

  lemma ProbeEnds(s: System, w: World)
    requires s.At(0).PollWrite? && Health.Probed(s.At(0).seen) && w.probeOk
    ensures var c := Run(s, [Advance(0, w)]).core; c.status.state == Ready && c.world == s.core.world
  {
    RunOne(s, Advance(0, w));
    hide Run, Health.Probed;
  }

  lemma EventCrashes(c: L.Core, e: L.Event, w: World)
    requires L.IsEnding(e, c.common) && !c.expectedStop && Health.Probed(c.status.state)
    ensures Micro(c, EventEntry(e), w) == (c, EventCheck(e)) && Micro(c, EventCheck(e), w) == (c, EventCrash(e))
    ensures var c' := Micro(c, EventCrash(e), w).0; c'.status.state == Crashed && c'.world == c.world
  {
    hide L.IsEnding;
  }

  lemma EventTold(s: System, e: L.Event, w: World)
    requires s.At(1) == EventEntry(e) && L.IsEnding(e, s.core.common) && !s.core.expectedStop && Health.Probed(s.core.status.state)
    ensures var s' := Run(Run(Run(s, [Advance(1, w)]), [Advance(1, w)]), [Advance(1, w)]);
      s'.At(0) == s.At(0) && s'.core.status.state == Crashed && s'.core.world == s.core.world
  {
    hide L.IsEnding, Run, Micro, Health.Probed;
    EventCrashes(s.core, e, w);
    EventStepAlone(s, w);
    var s1 := Run(s, [Advance(1, w)]);
    EventStepAlone(s1, w);
    EventStepAlone(Run(s1, [Advance(1, w)]), w);
  }

  /**
   * A poll is not one step: from any quiet server that should be answering
   * there is an interleaving that goes through crashed, after which the tracker
   * says ready although the container is gone.
   */
  lemma PollCanHideCrash(s: System, e: L.Event, w: World)
    requires Quiet(s) && Health.Probed(s.core.status.state) && !s.core.expectedStop
    requires L.IsEnding(e, s.core.common) && w.probeOk
    ensures var r := Run(s, CrashDuringPoll(e, w)); r.core.status.state == Ready && !r.core.world.Running?
    ensures Run(s, CrashDuringPoll(e, w)[..7]).core.status.state == Crashed
  {
    hide Run, Health.Probed, L.IsEnding;
    var a, b, x, y := [Call(0, PollEntry), Advance(0, w)], [Die(1, true), Call(1, EventEntry(e))], [Advance(1, w)], [Advance(0, w)];
    ProbeBegins(s, w);
    var s1 := Run(s, a);
    ContainerEnds(s1, e);
    var s2 := Run(s1, b);
    EventTold(s2, e, w);
    var s3 := Run(Run(Run(s2, x), x), x);
    ProbeEnds(s3, w);
    RunConcat(s, a, b + (x + (x + (x + y))));
    RunConcat(s1, b, x + (x + (x + y)));
    RunConcat(s2, x, x + (x + y));
    RunConcat(Run(s2, x), x, x + y);
    RunConcat(Run(Run(s2, x), x), x, y);
    assert CrashDuringPoll(e, w)[..7] == a + (b + (x + (x + x)));
    RunConcat(s, a, b + (x + (x + x)));
    RunConcat(s1, b, x + (x + x));
    RunConcat(s2, x, x + x);
    RunConcat(Run(s2, x), x, x);
  }

  /** Only the poller acts, and containers die. */
  predicate PollsOnly(actions: seq<Action>) {
    forall i | 0 <= i < |actions| :: match actions[i] case Call(_, entry) => entry.PollEntry? case _ => true
  }

  /** Every thread is between or inside polls. */
  ghost predicate Polling(s: System) {
    forall t: nat :: s.At(t).Returned? || s.At(t).PollEntry? || (s.At(t).PollWrite? && Health.Probed(s.At(t).seen))
  }

  ghost predicate ProbeUnderWay(s: System) {
    exists t: nat :: s.At(t).PollWrite?
  }

  lemma PollActs(s: System, a: Action)
    requires Polling(s) && !ProbeUnderWay(s) && s.core.status.state == Crashed && PollsOnly([a])
    ensures var s' := Act(s, a); Polling(s') && !ProbeUnderWay(s') && s'.core.status.state == Crashed
  {
    hide Micro, Health.Answer;
    var s' := Act(s, a);
    assert [a][0] == a;
    if !a.Die? {
      assert forall u: nat | u != a.t :: s'.At(u) == s.At(u);
      assert !s.At(a.t).PollWrite?;
    } else {
      assert forall u: nat :: s'.At(u) == s.At(u);
    }
  }

  lemma {:induction false} CrashOutlivesPolls(s: System, actions: seq<Action>)
    requires Polling(s) && !ProbeUnderWay(s) && s.core.status.state == Crashed && PollsOnly(actions)
    ensures var r := Run(s, actions); Polling(r) && !ProbeUnderWay(r) && r.core.status.state == Crashed
    decreases |actions|
  {
    hide Act, Polling, ProbeUnderWay;
    if actions != [] {
      var before, last := actions[..|actions| - 1], actions[|actions| - 1];
      assert PollsOnly(before) && PollsOnly([last]) by {
        hide Run;
      }
      CrashOutlivesPolls(s, before);
      PollActs(Run(s, before), last);
    }
  }

  /** Polls can make a crashed instance look alive exactly when a probe was under way as the crash was recorded. */
  lemma CrashIsHiddenExactly(s: System)
    requires Polling(s) && s.core.status.state == Crashed
    ensures (forall actions | PollsOnly(actions) :: Run(s, actions).core.status.state == Crashed) <==> !ProbeUnderWay(s)
  {
    hide Act, Polling, Run;
    if ProbeUnderWay(s) {
      var t: nat :| s.At(t).PollWrite?;
      var w := World(true, L.StopOk, true, L.RunRaises, true, 0);
      var actions := [Advance(t, w)];
      assert PollsOnly(actions);
      ProbeWrites(s, t, w);
      assert Run(s, actions).core.status.state != Crashed;
    } else {
      forall actions | PollsOnly(actions)
        ensures Run(s, actions).core.status.state == Crashed
      {
        CrashOutlivesPolls(s, actions);
      }
    }
  }

  lemma ProbeWrites(s: System, t: nat, w: World)
    requires Polling(s) && s.At(t).PollWrite? && w.probeOk
    ensures Run(s, [Advance(t, w)]).core.status.state == Ready
  {
    RunOne(s, Advance(t, w));
    hide Run, FlowStep;
  }
}
