/**
 * Over every run, the container a manager launched keeps matching its profile:
 * nobody can edit the profile away under it, and measurements do not count.
 */
module LaunchRuns {
  import opened Wrappers
  import opened Config
  import opened Machine
  import opened LaunchFidelity
  import L = Lifecycle
  import PF = ProfileFile
  import Health
  import RunSafety

  /** The last container that was launched: under which profile, with which words. */
  datatype Launch = Launch(name: string, args: seq<string>)

  function NextLaunch(s: System, launch: Option<Launch>, step: Step): Option<Launch> {
    var world := Next(s, step).core.world;
    if (step.Start? || step.Reload?) && Reply(s, step) == L.Fine && world.Running? then Some(Launch(step.name, world.args))
    else launch
  }

  function LastLaunch(s: System, steps: seq<Step>): Option<Launch>
    decreases |steps|
  {
    if steps == [] then None
    else NextLaunch(Run(s, steps[..|steps| - 1]), LastLaunch(s, steps[..|steps| - 1]), steps[|steps| - 1])
  }

  /** A profile that would be launched with these words today. */
  predicate Renders(c: L.Core, l: Launch) {
    l.name in c.profiles && L.LaunchArgs(c.profiles[l.name], c.common, l.name) == l.args
  }

  predicate Recoverable(c: L.Core, l: Launch) {
    l.name in c.profiles && LabelIsRead(c.profiles[l.name], c.common)
  }

  /** While the launched container runs, or is believed to answer, its profile is active and unchanged. */
  predicate Matched(c: L.Core, l: Launch) {
    && (c.world.Running? ==> c.world.args == l.args)
    && (c.world.Running? || Health.Probed(c.status.state) ==>
          !L.Inactive(c.status.state) && c.status.profile == Some(l.name) && Renders(c, l) && Recoverable(c, l))
  }

  /** No event is late, and started profiles have an image behind which their label can be read. */
  predicate Orderly(s: System, step: Step) {
    && RunSafety.InTime(s, step)
    && ((step.Start? || step.Reload?) && step.name in s.core.profiles ==> LabelIsRead(s.core.profiles[step.name], s.core.common))
  }

  lemma StartMatches(c: L.Core, name: string, inspectOk: bool, run: L.RunOutcome, now: int)
    requires name in c.profiles ==> LabelIsRead(c.profiles[name], c.common)
    ensures var (c', r) := L.Start(c, name, inspectOk, run, now);
      && (r == L.Fine ==> c'.world.Running? && Matched(c', Launch(name, c'.world.args)))
      && forall l | Matched(c, l) && r != L.Fine :: Matched(c', l)
  {
    hide L.LaunchArgs, LabelIsRead;
  }

  lemma StopMatches(c: L.Core, l: Launch, inspectOk: bool, outcome: L.StopOutcome, now: int)
    requires Matched(c, l)
    ensures Matched(L.Stop(c, inspectOk, outcome, now).0, l)
  {
    hide L.LaunchArgs, LabelIsRead;
  }

  lemma ReconcileMatches(c: L.Core, l: Launch, inspectOk: bool, now: int)
    requires Matched(c, l)
    ensures Matched(L.Reconcile(c, inspectOk, now).0, l)
  {
    hide L.LaunchArgs, LabelIsRead, L.ProfileOfContainer, L.ParseRun;
    if inspectOk && c.world.Running? {
      ReconcileRecovers(c, l.name, c.profiles[l.name], now);
    }
  }

  lemma EventMatches(c: L.Core, l: Launch, e: L.Event, now: int)
    requires Matched(c, l) && !RunSafety.Late(c, e)
    ensures Matched(L.HandleEvent(c, e, now), l)
  {
    hide L.LaunchArgs, LabelIsRead;
  }

  lemma PollMatches(s: System, l: Launch, ok: bool, now: int)
    requires Matched(s.core, l)
    ensures Matched(Next(s, Poll(ok, now)).core, l)
  {
    hide L.LaunchArgs, LabelIsRead;
  }

  // ---------------------------------------------------------------- edits of profiles

  lemma CreateProfiles(c: L.Core, name: string, table: PF.Dict, writable: bool)
    ensures var c' := L.Create(c, name, table, writable).0;
      c'.profiles == c.profiles || (name !in c.profiles && name in c'.profiles && c'.profiles == c.profiles[name := c'.profiles[name]])
  {
    hide BuildProfile, PF.AppendText;
  }

  lemma UpdateProfiles(c: L.Core, name: string, table: PF.Dict, writable: bool)
    ensures var c' := L.Update(c, name, table, writable).0;
      c'.profiles == c.profiles
      || (L.ActiveProfile(c.status) != Some(name) && name in c'.profiles && c'.profiles == c.profiles[name := c'.profiles[name]])
  {
    hide BuildProfile, PF.OverwriteText;
  }

  lemma DeleteProfiles(c: L.Core, name: string, writable: bool)
    ensures var c' := L.Delete(c, name, writable).0;
      c'.profiles == c.profiles || (L.ActiveProfile(c.status) != Some(name) && c'.profiles == c.profiles - {name})
  {
    hide PF.RemoveText;
  }

  lemma LaunchIgnoresMeasurements(p: Profile, c: Common, name: string, bytes: Option<int>, at: Option<string>)
    ensures L.LaunchArgs(p.(peakBytes := bytes, peakAt := at), c, name) == L.LaunchArgs(p, c, name)
    ensures LabelIsRead(p.(peakBytes := bytes, peakAt := at), c) == LabelIsRead(p, c)
  {
    RenderingIgnoresMeasurements(p, c, bytes, at);
    hide RunFlags, ServerArgs, PodmanArgs, L.IndexOf;
    assert PodmanArgs(p, c) == PodmanArgs(p.(peakBytes := bytes, peakAt := at), c);
  }

  lemma RecordProfiles(c: L.Core, name: string, used: Option<int>, at: string, first: bool, second: bool)
    ensures var c' := L.RecordPeak(c, name, used, at, first, second).0;
      c'.profiles == c.profiles
      || (name in c.profiles && c'.profiles == c.profiles[name := c.profiles[name].(peakBytes := used, peakAt := Some(at))])
  {
    hide L.WritePeak;
  }

  /** The profile of a launch is not touched, but for its measurements. */
  lemma EditMatches(s: System, l: Launch, step: Step)
    requires Matched(s.core, l) && (step.Create? || step.Update? || step.Delete? || step.RecordPeak?)
    ensures Matched(Next(s, step).core, l)
  {
    hide L.LaunchArgs, LabelIsRead, L.Create, L.Update, L.Delete, L.RecordPeak;
    RunSafety.EditFrame(s, step);
    var c := s.core;
    match step {
      case Create(name, table, writable) => CreateProfiles(c, name, table, writable);
      case Update(name, table, writable) => UpdateProfiles(c, name, table, writable);
      case Delete(name, writable) => DeleteProfiles(c, name, writable);
      case RecordPeak(name, used, at, first, second) =>
        RecordProfiles(c, name, used, at, first, second);
        if name in c.profiles {
          LaunchIgnoresMeasurements(c.profiles[name], c.common, name, used, Some(at));
        }
    }
  }

  // ---------------------------------------------------------------- every run

  lemma StartedMatches(s: System, launch: Option<Launch>, step: Step)
    requires (launch.Some? ==> Matched(s.core, launch.value)) && Orderly(s, step) && (step.Start? || step.Reload?)
    ensures var next := NextLaunch(s, launch, step); next.Some? ==> Matched(Next(s, step).core, next.value)
  {
    hide L.Start, L.Stop, Matched, LabelIsRead;
    var c := s.core;
    if step.Start? {
      StartMatches(c, step.name, step.inspectOk, step.run, step.now);
    } else if step.name in c.profiles {
      var (stopped, reply) := L.Stop(c, step.inspectOk, step.outcome, step.now);
      if launch.Some? {
        StopMatches(c, launch.value, step.inspectOk, step.outcome, step.now);
      }
      StopKeepsProfiles(c, step.inspectOk, step.outcome, step.now);
      StartMatches(stopped, step.name, step.startInspectOk, step.run, step.now);
    }
  }

  lemma StopKeepsProfiles(c: L.Core, inspectOk: bool, outcome: L.StopOutcome, now: int)
    ensures var c' := L.Stop(c, inspectOk, outcome, now).0; c'.profiles == c.profiles && c'.common == c.common
  {
  }

  lemma StepMatches(s: System, launch: Option<Launch>, step: Step)
    requires (launch.Some? ==> Matched(s.core, launch.value)) && Orderly(s, step)
    ensures var next := NextLaunch(s, launch, step); next.Some? ==> Matched(Next(s, step).core, next.value)
  {
    hide L.Stop, L.Reconcile, L.HandleEvent, LabelIsRead, RunSafety.Late;
    if step.Start? || step.Reload? {
      hide *;
      StartedMatches(s, launch, step);
    } else if launch.Some? {
      hide Matched, Health.Poll, L.Create, L.Update, L.Delete, L.RecordPeak;
      var c, l := s.core, launch.value;
      match step {
        case Stop(inspectOk, outcome, now) => StopMatches(c, l, inspectOk, outcome, now);
        case Reconcile(inspectOk, now) => ReconcileMatches(c, l, inspectOk, now);
        case Resume(inspectOk, now) => ReconcileMatches(c, l, inspectOk, now);
        case ContainerEvent(event, now) => EventMatches(c, l, event, now);
        case Poll(ok, now) => PollMatches(s, l, ok, now);
        case Suspend(now) => SleepMatches(s, l, step);
        case Die(code, removed) => SleepMatches(s, l, step);
        case _ => EditMatches(s, l, step);
      }
    }
  }

  lemma SleepMatches(s: System, l: Launch, step: Step)
    requires Matched(s.core, l) && (step.Suspend? || step.Die?)
    ensures Matched(Next(s, step).core, l)
  {
    hide L.LaunchArgs, LabelIsRead;
  }

  /**
   * In every orderly run, while the launched container runs or the tracker says
   * loading, ready or degraded, its profile is configured, reported as the
   * active one, and rendering it again gives the very words it was launched with.
   */
  lemma {:induction false} LaunchedProfileIsKept(s: System, steps: seq<Step>)
    requires Along(s, steps, Orderly)
    ensures LastLaunch(s, steps).Some? ==> Matched(Run(s, steps).core, LastLaunch(s, steps).value)
    decreases |steps|
  {
    hide Next, NextLaunch, Matched, Orderly;
    if steps != [] {
      var before := steps[..|steps| - 1];
      LaunchedProfileIsKept(s, before);
      StepMatches(Run(s, before), LastLaunch(s, before), steps[|steps| - 1]);
    }
  }
}
