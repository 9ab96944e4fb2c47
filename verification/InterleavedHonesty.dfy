/**
 * The reported state when threads interleave: exactly which writes report a
 * running container as stopped or crashed, and what rules them out.
 */
module InterleavedHonesty {
  import opened Wrappers
  import opened Tracker
  import opened Flows
  import opened Interleaving
  import L = Lifecycle
  import M = Machine
  import Health

  /** The lock is held by a start that has launched its container and not yet told the tracker. */
  predicate Launching(s: System) {
    s.lock.Some? && s.At(s.lock.value).StartLoad?
  }

  /** Nothing that runs is reported as stopped or crashed, but by a start in flight. */
  predicate Honest(s: System) {
    L.Inactive(s.core.status.state) && s.core.world.Running? ==> Launching(s)
  }

  /** Between an observation that nothing runs and the end of what follows from it. */
  predicate Cleared(pc: Pc) {
    match pc
    case StartMark(_) | StartTell(_) | StartRun(_, _) | StartFail(_) | StartMessage(_) => true
    case StopTell(_) | StopIdle(_) | ReconcileCode(_) => true
    case ReconcileTell(info) => info.None? || !info.value.running
    case _ => false
  }

  ghost predicate Sound(s: System) {
    Safe(s) && (s.lock.Some? && Cleared(s.At(s.lock.value)) ==> !s.core.world.Running?)
  }

  /** The last step of an event callback whose check has been overtaken by a launch. */
  predicate StaleWrite(s: System, a: Action) {
    a.Advance? && (s.At(a.t).EventStop? || s.At(a.t).EventCrash?) && s.core.world.Running? && !Launching(s)
  }

  // ---------------------------------------------------------------- one step

  predicate Truthful(c: L.Core, pc: Pc, c': L.Core, pc': Pc) {
    && (Cleared(pc') ==> !c'.world.Running?)
    && (L.Inactive(c'.status.state) && c'.world.Running? ==>
          pc'.StartLoad? || pc.EventStop? || pc.EventCrash? || (L.Inactive(c.status.state) && c.world.Running? && !pc.StartLoad?))
    && (pc'.StartLoad? ==> pc.StartRun?)
    && (pc.EventStop? || pc.EventCrash? ==> L.Inactive(c'.status.state) && c'.world == c.world && pc'.Returned?)
  }

  lemma StartTruthful(c: L.Core, pc: Pc, w: World)
    requires (Cleared(pc) ==> !c.world.Running?) && Left(pc) > 0 && !pc.ReconcileTell?
    requires pc.StartEntry? || pc.StartProbe? || pc.StartMark? || pc.StartTell? || pc.StartRun? || pc.StartLoad? || pc.StartFail? || pc.StartMessage?
    ensures var (c', pc') := StartStep(c, pc, w); Truthful(c, pc, c', pc')
  {
    hide L.LaunchArgs;
  }

  lemma StopTruthful(c: L.Core, pc: Pc, w: World)
    requires (Cleared(pc) ==> !c.world.Running?)
    requires pc.StopEntry? || pc.StopProbe? || pc.StopIdle? || pc.StopMark? || pc.StopCall? || pc.StopTell?
    ensures var (c', pc') := StopStep(c, pc, w); Truthful(c, pc, c', pc')
  {
  }

  lemma ReconcileTruthful(c: L.Core, pc: Pc, w: World)
    requires (Cleared(pc) ==> !c.world.Running?) && (pc.ReconcileEntry? || pc.ReconcileTell? || pc.ReconcileCode?)
    ensures var (c', pc') := ReconcileStep(c, pc, w); Truthful(c, pc, c', pc')
  {
    hide L.ProfileOfContainer, L.ParseRun;
  }

  lemma EventTruthful(c: L.Core, pc: Pc, w: World)
    requires pc.EventEntry? || pc.EventClear? || pc.EventStop? || pc.EventCheck? || pc.EventCrash?
    ensures var (c', pc') := EventStep(c, pc, w); Truthful(c, pc, c', pc')
  {
    hide L.IsEnding;
  }

  lemma MicroTruthful(c: L.Core, pc: Pc, w: World)
    requires (Cleared(pc) ==> !c.world.Running?) && Left(pc) > 0
    ensures var (c', pc') := Micro(c, pc, w); Truthful(c, pc, c', pc')
  {
    hide StartStep, StopStep, ReconcileStep, EventStep;
    match pc {
      case EditEntry(_, _, _) =>
      case ReloadEntry(_) =>
      case ReconcileEntry | ReconcileTell(_) | ReconcileCode(_) => ReconcileTruthful(c, pc, w);
      case StopEntry(_) | StopProbe(_) | StopIdle(_) | StopMark(_) | StopCall(_) | StopTell(_) => StopTruthful(c, pc, w);
      case EventEntry(_) | EventClear | EventStop | EventCheck(_) | EventCrash(_) => EventTruthful(c, pc, w);
      case _ => StartTruthful(c, pc, w);
    }
  }

  lemma ClearedInSection(pc: Pc)
    ensures Cleared(pc) || pc.StartLoad? || pc.StartRun? ==> InSection(pc)
    ensures pc.EventStop? || pc.EventCrash? ==> !InSection(pc)
    ensures InSection(pc) ==> Left(pc) > 0
  {
  }

  /** A step of a flow: the report stays honest exactly when it is not a stale write. */
  lemma FlowHonest(s: System, t: nat, w: World)
    requires Sound(s) && Honest(s) && Left(s.At(t)) > 0
    ensures var s' := FlowStep(s, t, s.At(t), w);
      Sound(s') && (Honest(s') <==> !StaleWrite(s, Advance(t, w)))
  {
    FlowSafe(s, t, w);
    var pc, s' := s.At(t), FlowStep(s, t, s.At(t), w);
    ClearedInSection(pc);
    ClearedInSection(s'.At(t));
    FlowFacts(s, t, w);
    hide Micro, Cleared, InSection, Left, FlowStep, Committed, IsEntry, L.Inactive;
    MicroTruthful(s.core, pc, w);
    assert forall u: nat | u != t :: s'.At(u) == s.At(u);
  }

  lemma FlowFacts(s: System, t: nat, w: World)
    ensures var s' := FlowStep(s, t, s.At(t), w);
      && s'.core == Micro(s.core, s.At(t), w).0 && s'.At(t) == Micro(s.core, s.At(t), w).1
      && (forall u: nat | u != t :: s'.At(u) == s.At(u))
      && s'.lock == (if InSection(s.At(t)) && s'.At(t).Returned? then None else s.lock)
  {
    hide Micro;
  }

  /** A step outside the flows: no new container, and no report of an end. */
  lemma OtherHonest(s: System, t: nat, pc: Pc, s': System)
    requires Sound(s) && Honest(s) && Safe(s') && s'.pcs == s.pcs[t := pc] && s'.core.world == s.core.world
    requires !InSection(s.At(t)) && (L.Inactive(s'.core.status.state) ==> L.Inactive(s.core.status.state))
    requires if InSection(pc) then s.lock == None && s'.lock == Some(t) && !Cleared(pc) else s'.lock == s.lock
    ensures Sound(s') && Honest(s')
  {
    hide InSection, Committed, IsEntry, Cleared, L.Inactive;
    ClearedInSection(s.At(t));
    ClearedInSection(pc);
    assert forall u: nat | u != t :: s'.At(u) == s.At(u);
    assert Exclusive(s);
  }

  lemma EntriesAreNotCleared(pc: Pc)
    requires IsEntry(pc)
    ensures !Cleared(pc) && !pc.Waiting?
  {
  }

  lemma AnswerStaysActive(seen: State, status: Status, streak: nat, threshold: int, ok: bool, now: int)
    requires Health.Probed(seen)
    ensures L.Inactive(Health.Answer(seen, status, streak, threshold, ok, now).0.state) ==> L.Inactive(status.state)
  {
  }

  lemma AdvanceHonest(s: System, t: nat, w: World)
    requires Sound(s) && Honest(s)
    ensures Sound(Advanced(s, t, w)) && (Honest(Advanced(s, t, w)) <==> !StaleWrite(s, Advance(t, w)))
  {
    AdvanceSafe(s, t, w);
    hide Sound, Safe, Honest, Cleared, InSection, Micro, Health.Answer, Health.Probed, L.Inspect, FlowStep, IsEntry, L.Inactive;
    var s' := Advanced(s, t, w);
    SoundIsSafe(s);
    var pc := s.At(t);
    if Left(pc) > 0 {
      AdvanceIsFlow(s, t, w);
      FlowHonest(s, t, w);
    } else {
      NoFlowStep(s, t, w);
      match pc {
        case Returned(_) =>
        case Waiting(entry) =>
          if s.lock == None {
            EntrySafe(s, t);
            EntriesAreNotCleared(entry);
            OutsideSection(pc);
            OtherHonest(s, t, entry, s');
          }
        case PollWrite(seen) =>
          PollWriteHonest(s, t, w);
        case _ =>
          SignalHonest(s, t, w);
      }
    }
  }

  lemma SoundIsSafe(s: System)
    requires Sound(s)
    ensures Safe(s)
  {
    hide Safe;
  }

  lemma OutsideSection(pc: Pc)
    requires Left(pc) == 0
    ensures !InSection(pc)
  {
    if InSection(pc) {
      ClearedInSection(pc);
    }
  }

  lemma NoFlowStep(s: System, t: nat, w: World)
    requires Left(s.At(t)) == 0
    ensures !StaleWrite(s, Advance(t, w))
  {
  }

  lemma PollWriteHonest(s: System, t: nat, w: World)
    requires Sound(s) && Honest(s) && s.At(t).PollWrite? && Safe(Advanced(s, t, w))
    ensures Sound(Advanced(s, t, w)) && Honest(Advanced(s, t, w))
  {
    var seen := s.At(t).seen;
    if Health.Probed(seen) {
      AnswerStaysActive(seen, s.core.status, s.streak, s.threshold, w.probeOk, w.now);
    }
    hide Sound, Honest, Safe, Health.Answer, Health.Probed, L.Inactive;
    OtherHonest(s, t, Returned(L.Fine), Advanced(s, t, w));
  }

  lemma SignalHonest(s: System, t: nat, w: World)
    requires Sound(s) && Honest(s) && Safe(Advanced(s, t, w))
    requires s.At(t).PollEntry? || s.At(t).SuspendEntry? || s.At(t).SuspendTell? || s.At(t).ResumeEntry?
    ensures Sound(Advanced(s, t, w)) && Honest(Advanced(s, t, w))
  {
    hide Sound, Honest, Safe, Health.Probed;
    OtherHonest(s, t, Advanced(s, t, w).At(t), Advanced(s, t, w));
  }

  lemma DieHonest(s: System, code: int, removed: bool)
    requires Sound(s) && Honest(s)
    ensures Sound(Act(s, Die(code, removed))) && Honest(Act(s, Die(code, removed)))
  {
    DieSafe(s, code, removed);
    hide InSection, Cleared, Committed, IsEntry;
    var s' := Act(s, Die(code, removed));
    assert forall u: nat :: s'.At(u) == s.At(u);
  }

  lemma CallHonest(s: System, t: nat, entry: Pc)
    requires Sound(s) && Honest(s)
    ensures Sound(Act(s, Call(t, entry))) && Honest(Act(s, Call(t, entry)))
  {
    ActSafe(s, Call(t, entry));
    hide Sound, Honest, Safe, IsEntry, InSection;
    if s.At(t).Returned? && IsEntry(entry) {
      OutsideSection(s.At(t));
      OutsideSection(Waiting(entry));
      OtherHonest(s, t, Act(s, Call(t, entry)).At(t), Act(s, Call(t, entry)));
    }
  }

  /** In every interleaving a step misreports a running container if and only if it is a stale write of an event callback. */
  lemma ActHonestExactly(s: System, a: Action)
    requires Sound(s) && Honest(s)
    ensures Sound(Act(s, a)) && (Honest(Act(s, a)) <==> !StaleWrite(s, a))
  {
    hide Sound, Honest, Advanced;
    match a {
      case Call(t, entry) => CallHonest(s, t, entry);
      case Advance(t, w) => AdvanceHonest(s, t, w);
      case Die(code, removed) => DieHonest(s, code, removed);
    }
  }

  // ---------------------------------------------------------------- every run

  ghost predicate NoStaleWrites(s: System, actions: seq<Action>)
    decreases |actions|
  {
    actions == [] || (NoStaleWrites(s, actions[..|actions| - 1]) && !StaleWrite(Run(s, actions[..|actions| - 1]), actions[|actions| - 1]))
  }

  lemma QuietIsSound(s: System)
    requires Quiet(s)
    ensures Sound(s)
  {
  }

  /** From a quiet server whose report is honest, every reachable state is honest unless a stale write was made. */
  lemma {:induction false} RunsStayHonest(s: System, actions: seq<Action>)
    requires Quiet(s) && Honest(s) && NoStaleWrites(s, actions)
    ensures Sound(Run(s, actions)) && Honest(Run(s, actions))
    decreases |actions|
  {
    hide Act, Sound, Honest, StaleWrite;
    if actions == [] {
      QuietIsSound(s);
    } else {
      var before, last := actions[..|actions| - 1], actions[|actions| - 1];
      RunsStayHonest(s, before);
      ActHonestExactly(Run(s, before), last);
    }
  }

  // ---------------------------------------------------------------- what rules a stale write out

  /** Inside the callback of an ending event. */
  predicate InCallback(pc: Pc, c: L.Core) {
    match pc
    case EventEntry(e) => L.IsEnding(e, c.common)
    case EventClear | EventStop | EventCheck(_) | EventCrash(_) => true
    case _ => false
  }

  ghost predicate CallbacksAlone(s: System) {
    (exists t: nat :: InCallback(s.At(t), s.core)) ==> !s.core.world.Running?
  }

  /** Ending events are delivered while nothing runs, and no launch overtakes a callback. */
  ghost predicate Prompt(s: System, a: Action) {
    match a
    case Call(_, entry) => InCallback(entry, s.core) ==> !s.core.world.Running?
    case Advance(t, w) => s.At(t).StartRun? && w.run.RunOk? ==> forall u: nat :: !InCallback(s.At(u), s.core)
    case Die(_, _) => true
  }

  /** A step starts no callback, and no container but by a launch. */
  predicate Leads(c: L.Core, pc: Pc, c': L.Core, pc': Pc) {
    c'.common == c.common && (InCallback(pc', c') ==> InCallback(pc, c))
  }

  lemma LockedLeads(c: L.Core, pc: Pc, w: World)
    ensures var (c', pc') := StartStep(c, pc, w); Leads(c, pc, c', pc')
    ensures var (c', pc') := StopStep(c, pc, w); Leads(c, pc, c', pc')
    ensures var (c', pc') := ReconcileStep(c, pc, w); Leads(c, pc, c', pc')
  {
    hide L.LaunchArgs, L.Inspect, L.ProfileOfContainer, L.IsEnding, L.AfterStop;
  }

  lemma EventLeads(c: L.Core, pc: Pc, w: World)
    ensures var (c', pc') := EventStep(c, pc, w); Leads(c, pc, c', pc')
  {
    hide L.IsEnding;
  }

  lemma CallbackSteps(c: L.Core, pc: Pc, w: World)
    ensures var (c', pc') := Micro(c, pc, w);
      && c'.common == c.common && (InCallback(pc', c') ==> InCallback(pc, c))
      && (c'.world.Running? ==> c.world.Running? || (pc.StartRun? && w.run.RunOk?))
  {
    hide StartStep, StopStep, ReconcileStep, EventStep, L.IsEnding;
    MicroConfined(c, pc, w);
    LockedLeads(c, pc, w);
    EventLeads(c, pc, w);
  }

  lemma FlowPrompt(s: System, t: nat, w: World)
    requires CallbacksAlone(s) && Prompt(s, Advance(t, w)) && Left(s.At(t)) > 0
    ensures CallbacksAlone(FlowStep(s, t, s.At(t), w))
  {
    FlowFacts(s, t, w);
    CallbackSteps(s.core, s.At(t), w);
    hide Micro, FlowStep, InCallback, Left;
    var s' := FlowStep(s, t, s.At(t), w);
    if u: nat :| InCallback(s'.At(u), s'.core) {
      SameCallback(s'.At(u), s.core, s'.core);
      assert InCallback(s.At(u), s.core);
    }
  }

  lemma SameCallback(pc: Pc, c: L.Core, d: L.Core)
    requires c.common == d.common
    ensures InCallback(pc, c) == InCallback(pc, d)
  {
    hide L.IsEnding;
  }

  /** A move of one thread that starts no callback, or one of a thread whose callback nothing running can meet. */
  lemma MovePrompt(s: System, t: nat, pc: Pc, s': System)
    requires CallbacksAlone(s) && s'.pcs == s.pcs[t := pc] && s'.core.world == s.core.world && s'.core.common == s.core.common
    requires InCallback(pc, s.core) ==> InCallback(s.At(t), s.core) || !s.core.world.Running?
    ensures CallbacksAlone(s')
  {
    hide InCallback;
    if u: nat :| InCallback(s'.At(u), s'.core) {
      SameCallback(s'.At(u), s.core, s'.core);
      assert u != t ==> s'.At(u) == s.At(u);
    }
  }

  lemma EntryNoCallback(pc: Pc, c: L.Core)
    ensures InSection(pc) || pc.Waiting? || pc.Returned? || pc.PollWrite? || pc.SuspendTell? ==> !InCallback(pc, c)
    ensures InCallback(pc, c) ==> Left(pc) > 0
  {
  }

  lemma AdvancePrompt(s: System, t: nat, w: World)
    requires Safe(s) && CallbacksAlone(s) && Prompt(s, Advance(t, w))
    ensures CallbacksAlone(Advanced(s, t, w))
  {
    hide Safe, InCallback, Prompt, CallbacksAlone, Micro, FlowStep, Health.Answer, Health.Probed, L.Inspect, InSection, IsEntry;
    var pc, s' := s.At(t), Advanced(s, t, w);
    if Left(pc) > 0 {
      AdvanceIsFlow(s, t, w);
      FlowPrompt(s, t, w);
    } else if pc.Waiting? {
      if s.lock == None {
        EntrySafe(s, t);
        EntryNoCallback(pc.entry, s.core);
        MovePrompt(s, t, pc.entry, s');
      }
    } else if !pc.Returned? {
      EntryNoCallback(s'.At(t), s.core);
      MovePrompt(s, t, s'.At(t), s');
    }
  }

  lemma ActPrompt(s: System, a: Action)
    requires Safe(s) && CallbacksAlone(s) && Prompt(s, a)
    ensures CallbacksAlone(Act(s, a)) && !StaleWrite(s, a)
  {
    hide Safe, Advanced;
    match a {
      case Call(t, entry) =>
        hide InCallback, InSection, IsEntry, CallbacksAlone;
        if s.At(t).Returned? && IsEntry(entry) {
          EntryNoCallback(Waiting(entry), s.core);
          MovePrompt(s, t, Act(s, a).At(t), Act(s, a));
        }
      case Advance(t, w) =>
        AdvancePrompt(s, t, w);
      case Die(_, _) =>
    }
  }

  ghost predicate PromptRun(s: System, actions: seq<Action>)
    decreases |actions|
  {
    actions == [] || (PromptRun(s, actions[..|actions| - 1]) && Prompt(Run(s, actions[..|actions| - 1]), actions[|actions| - 1]))
  }

  lemma QuietHasNoCallbacks(s: System)
    requires Quiet(s)
    ensures CallbacksAlone(s)
  {
  }

  lemma {:induction false} PromptRunsAreNotStale(s: System, actions: seq<Action>)
    requires Quiet(s) && PromptRun(s, actions)
    ensures NoStaleWrites(s, actions) && CallbacksAlone(Run(s, actions))
    decreases |actions|
  {
    hide Act, Prompt, CallbacksAlone, StaleWrite, Safe;
    if actions == [] {
      QuietHasNoCallbacks(s);
    } else {
      var before, last := actions[..|actions| - 1], actions[|actions| - 1];
      PromptRunsAreNotStale(s, before);
      AlwaysSafe(s, before);
      ActPrompt(Run(s, before), last);
    }
  }

  /**
   * When ending events are delivered while nothing runs and no launch overtakes
   * their callbacks, no reachable state without a start in flight reports a
   * running container as stopped or crashed, however else the threads interleave.
   */
  lemma PromptRunsAreHonest(s: System, actions: seq<Action>)
    requires Quiet(s) && Honest(s) && PromptRun(s, actions)
    ensures var r := Run(s, actions);
      L.Inactive(r.core.status.state) && r.core.world.Running? ==> Launching(r)
  {
    hide Run, NoStaleWrites, PromptRun, Sound;
    PromptRunsAreNotStale(s, actions);
    RunsStayHonest(s, actions);
  }

  // ---------------------------------------------------------------- a stale write can happen

  lemma {:induction false} AloneRuns(s: System, t: nat, w: World)
    returns (actions: seq<Action>)
    ensures Run(s, actions) == Alone(s, t, w)
    decreases Left(s.At(t))
  {
    if Left(s.At(t)) == 0 {
      actions := [];
    } else {
      AdvanceIsFlow(s, t, w);
      MicroShortens(s.core, s.At(t), w);
      hide Advanced, FlowStep, Micro, Left, Run;
      var rest := AloneRuns(Advanced(s, t, w), t, w);
      actions := [Advance(t, w)] + rest;
      RunConcat(s, [Advance(t, w)], rest);
      RunOne(s, Advance(t, w));
    }
  }

  /** A thread that holds the lock and is left alone returns, and gives the lock back. */
  lemma {:induction false} AloneReturns(s: System, t: nat, w: World)
    requires InSection(s.At(t)) && s.lock == Some(t)
    ensures Alone(s, t, w).At(t).Returned? && Alone(s, t, w).lock == None
    decreases Left(s.At(t))
  {
    ClearedInSection(s.At(t));
    AdvanceIsFlow(s, t, w);
    FlowFacts(s, t, w);
    MicroShortens(s.core, s.At(t), w);
    MicroConfined(s.core, s.At(t), w);
    var s' := Advanced(s, t, w);
    hide Micro, InSection, Advanced, FlowStep, Committed;
    if InSection(s'.At(t)) {
      AloneReturns(s', t, w);
    } else {
      ReturnedIsLast(s'.At(t));
    }
  }

  lemma ReturnedIsLast(pc: Pc)
    requires pc.Returned?
    ensures Left(pc) == 0
  {
  }

  lemma Enter(s: System, t: nat, entry: Pc, w: World)
    requires s.lock == None && s.At(t).Returned? && IsEntry(entry) && InSection(entry)
    ensures var s' := Run(s, [Call(t, entry), Advance(t, w)]);
      && s'.core == s.core && s'.At(t) == entry && s'.lock == Some(t) && forall u: nat | u != t :: s'.At(u) == s.At(u)
  {
    RunTwo(s, Call(t, entry), Advance(t, w));
    hide Run, FlowStep, InSection, IsEntry;
  }

  /** One call of a locked operation, from its entry to its return, by a thread that is alone. */
  lemma Turn(s: System, t: nat, entry: Pc, w: World)
    returns (actions: seq<Action>)
    requires s.lock == None && s.At(t).Returned? && IsEntry(entry) && InSection(entry)
    ensures var s' := Run(s, actions);
      && s'.core == Solo(s.core, entry, w).0 && s'.At(t).Returned? && s'.lock == None
      && forall u: nat | u != t :: s'.At(u) == s.At(u)
  {
    hide Run, InSection, IsEntry, Solo, Alone;
    Enter(s, t, entry, w);
    var s1 := Run(s, [Call(t, entry), Advance(t, w)]);
    var rest := AloneRuns(s1, t, w);
    AloneIsSolo(s1, t, w);
    AloneReturns(s1, t, w);
    actions := [Call(t, entry), Advance(t, w)] + rest;
    RunConcat(s, [Call(t, entry), Advance(t, w)], rest);
  }

  /** The container ends, and its callback stops just before it writes. */
  lemma CallbackPending(s: System, e: L.Event, w: World)
    returns (actions: seq<Action>)
    requires s.At(1).Returned? && L.IsEnding(e, s.core.common) && !s.core.expectedStop && Health.Probed(s.core.status.state)
    requires s.lock == None
    ensures var s' := Run(s, actions);
      && s'.At(1) == EventCrash(e) && s'.At(0) == s.At(0) && s'.core == s.core.(world := M.Died(s.core.world, 1, true))
      && !s'.core.world.Running? && s'.lock == None
  {
    hide Run, Micro, L.IsEnding, Health.Probed, M.Died, Left;
    var a, x := [Die(1, true), Call(1, EventEntry(e))], [Advance(1, w)];
    ContainerEnds(s, e);
    EndsUnlocked(s, e);
    var s1 := Run(s, a);
    EventCrashes(s1.core, e, w);
    EventsLeft(e);
    EventStepAlone(s1, w);
    LockKept(s1, w);
    var s2 := Run(s1, x);
    EventStepAlone(s2, w);
    LockKept(s2, w);
    actions := a + (x + x);
    RunConcat(s, a, x + x);
    RunConcat(s1, x, x);
  }

  lemma EventsLeft(e: L.Event)
    ensures Left(EventEntry(e)) > 0 && Left(EventCheck(e)) > 0 && Left(EventCrash(e)) > 0
  {
  }

  lemma EndsUnlocked(s: System, e: L.Event)
    requires s.At(1).Returned?
    ensures Run(s, [Die(1, true), Call(1, EventEntry(e))]).lock == s.lock
  {
    RunTwo(s, Die(1, true), Call(1, EventEntry(e)));
    hide Run, M.Died;
  }

  lemma LockKept(s: System, w: World)
    requires Left(s.At(1)) > 0 && !InSection(s.At(1))
    ensures Run(s, [Advance(1, w)]).lock == s.lock
  {
    RunOne(s, Advance(1, w));
    AdvanceIsFlow(s, 1, w);
    FlowFacts(s, 1, w);
    hide Run, Micro, Advanced, FlowStep;
  }

  lemma StopThenStart(c: L.Core, name: string, id: string, w: World)
    requires name in c.profiles && !c.world.Running? && Health.Probed(c.status.state)
    requires w.inspectOk && w.startInspectOk && w.outcome.StopOk? && w.run == L.RunOk(id)
    ensures var c1 := L.Stop(c, w.inspectOk, w.outcome, w.now).0;
      var c2 := L.Start(c1, name, w.startInspectOk, w.run, w.now).0;
      c1.profiles == c.profiles && c2.world.Running? && c2.status.state == Loading
  {
    hide L.LaunchArgs;
  }

  lemma LastWrite(s: System, e: L.Event, w: World)
    requires s.At(1) == EventCrash(e) && s.lock == None
    ensures var r := Run(s, [Advance(1, w)]);
      r.core.status.state == Crashed && r.core.world == s.core.world && r.lock == None
    ensures s.core.world.Running? ==> StaleWrite(s, Advance(1, w))
  {
    EventStepAlone(s, w);
    LockKept(s, w);
    hide Run;
  }

  /**
   * An ending event that is delivered in time can still mislead: when a stop and
   * a start overtake its callback, the new container is reported as crashed, with
   * nobody inside a locked flow.
   */
  lemma OvertakenCallbackMisleads(s: System, e: L.Event, name: string, id: string, w: World)
    returns (actions: seq<Action>)
    requires Quiet(s) && s.core.world.Running? && !s.core.expectedStop && Health.Probed(s.core.status.state)
    requires L.IsEnding(e, s.core.common) && name in s.core.profiles
    requires w.inspectOk && w.startInspectOk && w.outcome.StopOk? && w.run == L.RunOk(id)
    ensures var r := Run(s, actions);
      r.core.status.state == Crashed && r.core.world.Running? && r.lock == None && !Honest(r)
  {
    hide Run, L.IsEnding, Health.Probed, InSection, IsEntry, Solo, L.Stop, L.Start, M.Died, Left;
    var a := CallbackPending(s, e, w);
    var s1 := Run(s, a);
    CallsAreEntries(name);
    var b := Turn(s1, 0, StopEntry(None), w);
    SoloStop(s1.core, w);
    var s2 := Run(s1, b);
    StopThenStart(s1.core, name, id, w);
    var d := Turn(s2, 0, StartEntry(name), w);
    SoloStart(s2.core, name, w);
    var s3 := Run(s2, d);
    LastWrite(s3, e, w);
    actions := a + (b + (d + [Advance(1, w)]));
    RunConcat(s, a, b + (d + [Advance(1, w)]));
    RunConcat(s1, b, d + [Advance(1, w)]);
    RunConcat(s2, d, [Advance(1, w)]);
  }

  lemma CallsAreEntries(name: string)
    ensures IsEntry(StopEntry(None)) && InSection(StopEntry(None)) && IsEntry(StartEntry(name)) && InSection(StartEntry(name))
  {
  }
}
