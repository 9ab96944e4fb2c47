/**
 * What holds over every run of the machine: when the reported state may be
 * wrong, when an ending is a crash, and when it never is.
 */
module RunSafety {
  import opened Wrappers
  import opened Tracker
  import opened Config
  import opened Machine
  import L = Lifecycle
  import PF = ProfileFile
  import Health

  // ---------------------------------------------------------------- the reported state

  /** Nothing that runs is reported as stopped or crashed. */
  predicate Honest(c: L.Core) {
    L.Inactive(c.status.state) ==> !c.world.Running?
  }

  /** An ending event that speaks of an earlier container while one is running, and that the handler acts on. */
  predicate Late(c: L.Core, e: L.Event) {
    L.IsEnding(e, c.common) && c.world.Running? && (c.expectedStop || c.status.state != Suspended)
  }

  lemma EventHonestExactly(c: L.Core, e: L.Event, now: int)
    requires Honest(c)
    ensures Honest(L.HandleEvent(c, e, now)) <==> !Late(c, e)
  {
  }

  lemma StopHonest(c: L.Core, inspectOk: bool, outcome: L.StopOutcome, now: int)
    requires Honest(c)
    ensures Honest(L.Stop(c, inspectOk, outcome, now).0)
  {
  }

  lemma StartHonest(c: L.Core, name: string, inspectOk: bool, run: L.RunOutcome, now: int)
    requires Honest(c)
    ensures Honest(L.Start(c, name, inspectOk, run, now).0)
  {
    hide L.LaunchArgs;
  }

  lemma ReconcileHonest(c: L.Core, inspectOk: bool, now: int)
    ensures inspectOk || Honest(c) ==> Honest(L.Reconcile(c, inspectOk, now).0)
  {
    hide L.ProfileOfContainer, L.ParseRun;
  }

  lemma EditHonest(s: System, step: Step)
    requires Honest(s.core) && (step.Create? || step.Update? || step.Delete? || step.RecordPeak?)
    ensures Honest(Next(s, step).core)
  {
    EditFrame(s, step);
  }

  lemma EditFrame(s: System, step: Step)
    requires step.Create? || step.Update? || step.Delete? || step.RecordPeak?
    ensures var c, c' := s.core, Next(s, step).core;
      c'.status == c.status && c'.world == c.world && c'.expectedStop == c.expectedStop && c'.common == c.common
  {
    hide BuildProfile, PF.AppendText, PF.OverwriteText, PF.RemoveText, PF.SetText;
  }

  /** A step keeps the report honest exactly when it is not an event that comes late. */
  lemma StepHonestExactly(s: System, step: Step)
    requires Honest(s.core)
    ensures Honest(Next(s, step).core) <==> !(step.ContainerEvent? && Late(s.core, step.event))
  {
    hide L.Start, L.Stop, L.Reconcile, L.HandleEvent, L.Create, L.Update, L.Delete, L.RecordPeak, Late;
    var c := s.core;
    match step {
      case Start(name, inspectOk, run, now) => StartHonest(c, name, inspectOk, run, now);
      case Stop(inspectOk, outcome, now) => StopHonest(c, inspectOk, outcome, now);
      case Reload(name, inspectOk, outcome, startInspectOk, run, now) =>
        StopHonest(c, inspectOk, outcome, now);
        StartHonest(L.Stop(c, inspectOk, outcome, now).0, name, startInspectOk, run, now);
      case Reconcile(inspectOk, now) => ReconcileHonest(c, inspectOk, now);
      case Resume(inspectOk, now) => ReconcileHonest(c, inspectOk, now);
      case ContainerEvent(event, now) => EventHonestExactly(c, event, now);
      case Poll(ok, now) =>
        var (after, streak) := Health.Poll(c.status, s.streak, s.threshold, ok, now);
        Health.PollSays(c.status, s.streak, s.threshold, ok, now, after, streak);
        hide Health.Poll;
      case Suspend(now) =>
      case Die(code, removed) =>
      case _ => EditHonest(s, step);
    }
  }

  predicate InTime(s: System, step: Step) {
    !(step.ContainerEvent? && Late(s.core, step.event))
  }

  lemma {:induction false} StaysHonest(s: System, steps: seq<Step>)
    requires Honest(s.core) && Along(s, steps, InTime)
    ensures Honest(Run(s, steps).core)
    decreases |steps|
  {
    hide Next, Honest, Late;
    if steps == [] {
    } else {
      var before := steps[..|steps| - 1];
      StaysHonest(s, before);
      StepHonestExactly(Run(s, before), steps[|steps| - 1]);
    }
  }

  /** Whatever went before, once a reconcile has seen the container no run without late events misreports it. */
  lemma HonestAfterReconcile(s: System, now: int, steps: seq<Step>)
    requires Along(Next(s, Reconcile(true, now)), steps, InTime)
    ensures Honest(Run(Next(s, Reconcile(true, now)), steps).core)
  {
    hide L.Reconcile, Run, Honest, Along;
    ReconcileHonest(s.core, true, now);
    StaysHonest(Next(s, Reconcile(true, now)), steps);
  }

  /** The old container's ending, delivered after any successful reload, is taken for a crash of the new one. */
  lemma LateDieAfterReload(s: System, reload: Step, e: L.Event, now: int)
    requires reload.Reload? && Reply(s, reload) == L.Fine && L.IsEnding(e, s.core.common)
    ensures var c := Next(Next(s, reload), ContainerEvent(e, now)).core;
      c.status.state == Crashed && c.world.Running?
  {
    ReloadStarts(s.core, reload.name, reload.inspectOk, reload.outcome, reload.startInspectOk, reload.run, reload.now);
    hide L.Reload;
  }

  lemma ReloadStarts(c: L.Core, name: string, inspectOk: bool, outcome: L.StopOutcome, startInspectOk: bool, run: L.RunOutcome, now: int)
    requires L.Reload(c, name, inspectOk, outcome, startInspectOk, run, now).1 == L.Fine
    ensures var c' := L.Reload(c, name, inspectOk, outcome, startInspectOk, run, now).0;
      c'.status.state == Loading && c'.world.Running? && !c'.expectedStop && c'.common == c.common
  {
    hide L.LaunchArgs, L.AfterStop;
  }

  // ---------------------------------------------------------------- after a stop

  /** Nothing runs, and the report says so or that the machine sleeps. */
  predicate AtRest(c: L.Core) {
    (c.status.state == Stopped || c.status.state == Suspended) && !c.world.Running?
  }

  predicate NoStart(s: System, step: Step) {
    !step.Start? && !step.Reload?
  }

  lemma StopRests(c: L.Core, inspectOk: bool, outcome: L.StopOutcome, now: int)
    ensures var (c', r) := L.Stop(c, inspectOk, outcome, now); r == L.Fine || AtRest(c) ==> AtRest(c')
  {
  }

  lemma ReconcileRests(c: L.Core, inspectOk: bool, now: int)
    requires AtRest(c)
    ensures AtRest(L.Reconcile(c, inspectOk, now).0)
  {
    hide L.ProfileOfContainer, L.ParseRun;
  }

  lemma StepRests(s: System, step: Step)
    requires AtRest(s.core) && NoStart(s, step)
    ensures AtRest(Next(s, step).core)
  {
    hide L.Stop, L.Reconcile, L.Create, L.Update, L.Delete, L.RecordPeak;
    var c := s.core;
    match step {
      case Stop(inspectOk, outcome, now) => StopRests(c, inspectOk, outcome, now);
      case Reconcile(inspectOk, now) => ReconcileRests(c, inspectOk, now);
      case Resume(inspectOk, now) => ReconcileRests(c, inspectOk, now);
      case ContainerEvent(event, now) =>
      case Poll(ok, now) =>
      case Suspend(now) =>
      case Die(code, removed) =>
      case _ => EditFrame(s, step);
    }
  }

  lemma {:induction false} StaysAtRest(s: System, steps: seq<Step>)
    requires AtRest(s.core) && Along(s, steps, NoStart)
    ensures AtRest(Run(s, steps).core)
    decreases |steps|
  {
    hide Next, AtRest;
    if steps == [] {
    } else {
      var before := steps[..|steps| - 1];
      StaysAtRest(s, before);
      StepRests(Run(s, before), steps[|steps| - 1]);
    }
  }

  /** From a successful stop to the next start or reload no events, polls, sleeps or wakes ever lead to a crash. */
  lemma StopNeverCrashes(s: System, stop: Step, steps: seq<Step>)
    requires stop.Stop? && Reply(s, stop) == L.Fine && Along(Next(s, stop), steps, NoStart)
    ensures Run(Next(s, stop), steps).core.status.state != Crashed && !Run(Next(s, stop), steps).core.world.Running?
  {
    hide L.Stop, Run, Along;
    StopRests(s.core, stop.inspectOk, stop.outcome, stop.now);
    StaysAtRest(Next(s, stop), steps);
  }

  // ---------------------------------------------------------------- after a start

  predicate NoStop(s: System, step: Step) {
    !step.Stop? && !step.Reload?
  }

  lemma StepUnexpected(s: System, step: Step)
    requires !s.core.expectedStop && NoStop(s, step)
    ensures !Next(s, step).core.expectedStop && Next(s, step).core.common == s.core.common
  {
    hide L.Create, L.Update, L.Delete, L.RecordPeak, L.LaunchArgs, L.Inspect, L.ProfileOfContainer;
    match step {
      case Create(_, _, _) => EditFrame(s, step);
      case Update(_, _, _) => EditFrame(s, step);
      case Delete(_, _) => EditFrame(s, step);
      case RecordPeak(_, _, _, _, _) => EditFrame(s, step);
      case _ =>
    }
  }

  lemma {:induction false} StaysUnexpected(s: System, steps: seq<Step>)
    requires !s.core.expectedStop && Along(s, steps, NoStop)
    ensures !Run(s, steps).core.expectedStop && Run(s, steps).core.common == s.core.common
    decreases |steps|
  {
    hide Next;
    if steps != [] {
      var before := steps[..|steps| - 1];
      StaysUnexpected(s, before);
      StepUnexpected(Run(s, before), steps[|steps| - 1]);
    }
  }

  lemma StartUnexpected(c: L.Core, name: string, inspectOk: bool, run: L.RunOutcome, now: int)
    requires L.Start(c, name, inspectOk, run, now).1 == L.Fine
    ensures var c' := L.Start(c, name, inspectOk, run, now).0; !c'.expectedStop && c'.common == c.common
  {
    hide L.LaunchArgs;
  }

  /** The code of a crash: the event's, or else podman's. */
  function CrashCode(e: L.Event): Option<int> {
    if e.exitCode.Some? then e.exitCode else e.podmanCode
  }

  /**
   * Without a stop or reload since the last successful start, an ending of the
   * managed container is a crash in every state but stopped and suspended, where it is
   * ignored; the crash keeps the profile and takes the code and the log.
   */
  lemma EndingIsCrash(s: System, start: Step, steps: seq<Step>, e: L.Event, now: int)
    requires start.Start? && Reply(s, start) == L.Fine && Along(Next(s, start), steps, NoStop)
    requires L.IsEnding(e, s.core.common)
    ensures var before := Run(Next(s, start), steps);
      var after := Next(before, ContainerEvent(e, now)).core.status;
      if before.core.status.state == Stopped || before.core.status.state == Suspended then after == before.core.status
      else
        && after.state == Crashed && after.exitCode == CrashCode(e) && after.logTail == e.logs
        && after.profile == before.core.status.profile && after.containerId == before.core.status.containerId
  {
    hide L.Start, Run, Along;
    StartUnexpected(s.core, start.name, start.inspectOk, start.run, start.now);
    StaysUnexpected(Next(s, start), steps);
  }

  /** What a crash is followed by until someone acts: polls, further endings, deaths, and edits of profiles. */
  predicate Passive(s: System, step: Step) {
    step.Poll? || step.ContainerEvent? || step.Die? || step.Create? || step.Update? || step.Delete? || step.RecordPeak?
  }

  lemma StepStaysCrashed(s: System, step: Step)
    requires s.core.status.state == Crashed && !s.core.expectedStop && Passive(s, step)
    ensures Next(s, step).core.status.state == Crashed && !Next(s, step).core.expectedStop
    ensures Next(s, step).core.status.profile == s.core.status.profile
    ensures !step.ContainerEvent? ==> Next(s, step).core.status == s.core.status
  {
    hide L.Create, L.Update, L.Delete, L.RecordPeak;
    match step {
      case Poll(_, _) =>
      case ContainerEvent(_, _) =>
      case Die(_, _) =>
      case _ => EditFrame(s, step);
    }
  }

  /** Polls and late endings never hide a crash. */
  lemma {:induction false} CrashStays(s: System, steps: seq<Step>)
    requires s.core.status.state == Crashed && !s.core.expectedStop && Along(s, steps, Passive)
    ensures Run(s, steps).core.status.state == Crashed && !Run(s, steps).core.expectedStop
    ensures Run(s, steps).core.status.profile == s.core.status.profile
    decreases |steps|
  {
    hide Next, Passive;
    if steps != [] {
      var before := steps[..|steps| - 1];
      CrashStays(s, before);
      StepStaysCrashed(Run(s, before), steps[|steps| - 1]);
    }
  }

  lemma OneStep(s: System, step: Step)
    ensures Run(s, [step]) == Next(s, step) && (Passive(s, step) ==> Along(s, [step], Passive))
  {
    hide Next, Passive;
    assert [step][..0] == [] && Run(s, []) == s && Along(s, [], Passive);
  }

  /** With the flag of a failed stop over a crash, the next ending event hides it. */
  lemma FlagHidesCrash(s: System, e: L.Event, now: int)
    requires s.core.status.state == Crashed && s.core.expectedStop && L.IsEnding(e, s.core.common)
    ensures Next(s, ContainerEvent(e, now)).core.status.state == Stopped
  {
    hide L.IsEnding;
  }

  /** Polls, endings and edits never hide a crash if and only if no stop has left its flag over it. */
  lemma CrashStaysExactly(s: System)
    requires s.core.status.state == Crashed
    ensures (forall steps | Along(s, steps, Passive) :: Run(s, steps).core.status.state == Crashed) <==> !s.core.expectedStop
  {
    hide Next, Run, Along;
    if s.core.expectedStop {
      var e := L.Event("die", s.core.common.containerName, None, None, []);
      FlagHidesCrash(s, e, 0);
      OneStep(s, ContainerEvent(e, 0));
      assert Run(s, [ContainerEvent(e, 0)]).core.status.state != Crashed;
    } else {
      forall steps | Along(s, steps, Passive)
        ensures Run(s, steps).core.status.state == Crashed
      {
        CrashStays(s, steps);
      }
    }
  }

  // ---------------------------------------------------------------- the poller

  /** What an observer of the tracker notes down over a run: one entry for every probe that was issued. */
  function ProbeLog(s: System, steps: seq<Step>): seq<Health.Probe>
    decreases |steps|
  {
    if steps == [] then []
    else
      var before, last := steps[..|steps| - 1], steps[|steps| - 1];
      ProbeLog(s, before)
      + if last.Poll? then Health.Observed(Run(s, before).core.status, Run(s, steps).core.status, last.ok) else []
  }

  lemma PollStep(s: System, step: Step)
    requires step.Poll?
    ensures (Next(s, step).core.status, Next(s, step).streak)
         == Health.Poll(s.core.status, s.streak, s.threshold, step.ok, step.now)
    ensures Next(s, step).threshold == s.threshold
  {
    hide Health.Poll;
  }

  lemma NoPollStep(s: System, step: Step)
    requires !step.Poll?
    ensures Next(s, step).streak == s.streak && Next(s, step).threshold == s.threshold
  {
    hide CoreStep;
  }

  /**
   * Over every run the counter is the number of failed probes since the last
   * success or demotion, however long the server was not probed in between,
   * and every demotion ends a row of `threshold` failures.
   */
  lemma {:induction false} StreakOverRun(s: System, steps: seq<Step>)
    requires s.streak == 0
    ensures var r, log := Run(s, steps), ProbeLog(s, steps);
      r.threshold == s.threshold && r.streak == Health.FailuresSince(log) && Health.DemotionsEarned(log, s.threshold)
    decreases |steps|
  {
    hide Next, Health.Poll, Health.FailuresSince, Health.Observed;
    if steps == [] {
      assert Health.FailuresSince([]) <= 0;
    } else {
      var before, last := steps[..|steps| - 1], steps[|steps| - 1];
      StreakOverRun(s, before);
      var r := Run(s, before);
      if last.Poll? {
        PollStep(r, last);
        hide Health.DemotionsEarned;
        Health.PollKeepsStreak(r.core.status, r.streak, r.threshold, last.ok, last.now, ProbeLog(s, before));
      } else {
        NoPollStep(r, last);
        assert ProbeLog(s, steps) == ProbeLog(s, before);
      }
    }
  }

  // ---------------------------------------------------------------- ready only by an answer

  predicate Unanswered(s: System, step: Step) {
    step.Poll? ==> !step.ok
  }

  lemma StepNotReady(s: System, step: Step)
    requires s.core.status.state != Ready && Unanswered(s, step)
    ensures Next(s, step).core.status.state != Ready
  {
    hide L.Create, L.Update, L.Delete, L.RecordPeak, L.LaunchArgs, L.Inspect, L.ProfileOfContainer, L.AfterStop, L.IsEnding;
    if step.Create? || step.Update? || step.Delete? || step.RecordPeak? {
      EditFrame(s, step);
    }
  }

  /** Whatever else happens, nothing but an answered probe ever makes the instance ready. */
  lemma {:induction false} ReadyIsAnswered(s: System, steps: seq<Step>)
    requires s.core.status.state != Ready && Along(s, steps, Unanswered)
    ensures Run(s, steps).core.status.state != Ready
    decreases |steps|
  {
    hide Next;
    if steps != [] {
      var before := steps[..|steps| - 1];
      ReadyIsAnswered(s, before);
      StepNotReady(Run(s, before), steps[|steps| - 1]);
    }
  }

  /** A suspend marks the instance; the resume behind it reconciles, and one without a suspend does nothing. */
  lemma WakeReconciles(s: System, asleep: int, inspectOk: bool, awake: int)
    ensures var t := Next(s, Suspend(asleep));
      && t.preSuspend == Some(s.core.status.state)
      && t.core == s.core.(status := s.core.status.(state := Suspended, since := t.core.status.since))
      && Next(t, Resume(inspectOk, awake)).core == L.Reconcile(t.core, inspectOk, awake).0
      && Next(t, Resume(inspectOk, awake)).preSuspend.None?
    ensures s.preSuspend.None? ==> Next(s, Resume(inspectOk, awake)) == s
  {
    hide L.Reconcile;
  }
}
