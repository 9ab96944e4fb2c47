/**
 * The lifecycle manager as the program runs it: methods that change its own
 * fields, the shared tracker, the profile file and the container. Each is the
 * body of one critical section.
 */
module Manager {
  import opened Wrappers
  import opened TomlValue
  import opened Config
  import opened Tracker
  import L = Lifecycle
  import PF = ProfileFile
  import ConfigFile

  /** The podman command line, with the outcome of each call chosen by the outside world. */
  class Podman {
    var world: L.Container

    constructor (world: L.Container)
      ensures this.world == world
    {
      this.world := world;
    }

    /** None: the call raised. */
    method IsRunning(ok: bool) returns (r: Option<bool>)
      ensures r == if ok then Some(world.Running?) else None
    {
      if !ok {
        return None;
      }
      var info := L.Inspect(world);
      return Some(info.Some? && info.value.running);
    }

    method StartContainer(args: seq<string>, name: string, outcome: L.RunOutcome)
      modifies this
      ensures world == if outcome.RunOk? then L.Running(outcome.id, args, Some(name)) else old(world)
    {
      if outcome.RunOk? {
        world := L.Running(outcome.id, args, Some(name));
      }
    }

    method StopContainer(outcome: L.StopOutcome)
      modifies this
      ensures world == L.AfterStop(old(world), outcome)
    {
      world := L.AfterStop(world, outcome);
    }
  }

  class LifecycleManager {
    const common: Common
    var profiles: map<string, Profile>
    var expectedStop: bool
    const file: ConfigFile.File
    const tracker: InstanceTracker
    const podman: Podman

    constructor (common: Common, profiles: map<string, Profile>, podman: Podman, tracker: InstanceTracker, file: ConfigFile.File)
      ensures this.podman == podman && this.tracker == tracker && this.file == file
      ensures View() == L.Core(common, profiles, file.text, tracker.status, false, podman.world)
    {
      this.common, this.profiles, this.podman, this.tracker, this.file := common, profiles, podman, tracker, file;
      expectedStop := false;
    }

    /** Everything the manager's operations can see or change, as one value. */
    ghost function View(): L.Core
      reads this, file, tracker, podman
    {
      L.Core(common, profiles, file.text, tracker.status, expectedStop, podman.world)
    }

    // -------------------------------------------------------------- profiles

    method ActiveProfile() returns (name: Option<string>)
      ensures name == L.ActiveProfile(tracker.status)
    {
      var status := tracker.Snapshot();
      if L.Inactive(status.state) {
        return None;
      }
      return status.profile;
    }

    method CreateProfile(name: string, table: PF.Table, writable: bool) returns (r: L.Reply)
      requires table.Valid()
      modifies this, file
      ensures (View(), r) == L.Create(old(View()), name, table, writable)
    {
      hide BuildProfile, PF.AppendText;
      if name in profiles {
        return L.ProfileExists;
      }
      var profile := BuildProfile(name, table.values, common.image);
      if profile.None? {
        return L.Invalid;
      }
      var error := file.Append(name, table, writable);
      if error.Some? {
        return L.EditFailed(error.value);
      }
      profiles := profiles[name := profile.value];
      return L.Fine;
    }

    method UpdateProfile(name: string, table: PF.Table, writable: bool) returns (r: L.Reply)
      requires table.Valid()
      modifies this, file
      ensures (View(), r) == L.Update(old(View()), name, table, writable)
    {
      hide BuildProfile, PF.OverwriteText;
      if name !in profiles {
        return L.UnknownProfile;
      }
      var active := ActiveProfile();
      if active == Some(name) {
        return L.ProfileInUse;
      }
      var profile := BuildProfile(name, table.values, common.image);
      if profile.None? {
        return L.Invalid;
      }
      var error := file.Overwrite(name, table, writable);
      if error.Some? {
        return L.EditFailed(error.value);
      }
      profiles := profiles[name := profile.value];
      return L.Fine;
    }

    method DeleteProfile(name: string, writable: bool) returns (r: L.Reply)
      modifies this, file
      ensures (View(), r) == L.Delete(old(View()), name, writable)
    {
      hide PF.RemoveText;
      if name !in profiles {
        return L.UnknownProfile;
      }
      var active := ActiveProfile();
      if active == Some(name) {
        return L.ProfileInUse;
      }
      var error := file.Remove(name, writable);
      if error.Some? {
        return L.EditFailed(error.value);
      }
      profiles := profiles - {name};
      return L.Fine;
    }

    method RecordVramPeak(name: string, used: Option<int>, at: string, first: bool, second: bool) returns (r: L.Reply)
      modifies this, file
      ensures (View(), r) == L.RecordPeak(old(View()), name, used, at, first, second)
    {
      hide PF.SetText;
      if used.None? {
        return L.Peak(None);
      }
      if name !in profiles {
        return L.Peak(None);
      }
      var profile := profiles[name];
      var current := if profile.peakBytes.Some? then profile.peakBytes.value else 0;
      if used.value <= current {
        return L.Peak(profile.peakBytes);
      }
      profiles := profiles[name := profile.(peakBytes := used, peakAt := Some(at))];
      var error := file.SetValue(name, L.PEAK_BYTES, Scalar(Int(used.value)), first);
      if error.None? {
        error := file.SetValue(name, L.PEAK_AT, Scalar(Str(at)), second);
      }
      return L.Peak(used);
    }

    // -------------------------------------------------------------- the instance

    method Start(name: string, inspectOk: bool, run: L.RunOutcome, now: int) returns (r: L.Reply)
      modifies this, tracker, podman
      ensures (View(), r) == L.Start(old(View()), name, inspectOk, run, now)
    {
      hide L.LaunchArgs;
      if name !in profiles {
        return L.UnknownProfile;
      }
      var status := tracker.Snapshot();
      if !L.Inactive(status.state) {
        return L.AlreadyRunning;
      }
      var running := podman.IsRunning(inspectOk);
      if running.None? {
        return L.PodmanFailed;
      }
      if running.value {
        return L.AlreadyRunning;
      }
      expectedStop := false;
      tracker.Transition(Starting, NO_FIELDS, now);
      var args := LabelledArgs(profiles[name], common, name);
      podman.StartContainer(args, name, run);
      if run.RunRaises? {
        return L.OtherFailure;
      }
      if run.RunFails? {
        tracker.Transition(Stopped, NO_FIELDS, now);
        tracker.SetMessage(Some(run.message));
        return L.PodmanFailed;
      }
      tracker.Transition(Loading, NO_FIELDS.(profile := Set(Some(name)), containerId := Set(Some(run.id))), now);
      return L.Fine;
    }

    method Stop(inspectOk: bool, outcome: L.StopOutcome, now: int) returns (r: L.Reply)
      modifies this, tracker, podman
      ensures (View(), r) == L.Stop(old(View()), inspectOk, outcome, now)
    {
      var status := tracker.Snapshot();
      if status.state == Stopped {
        var running := podman.IsRunning(inspectOk);
        if running.None? {
          return L.PodmanFailed;
        }
        if !running.value {
          tracker.Transition(Stopped, NO_FIELDS, now);
          return L.Fine;
        }
      }
      expectedStop := true;
      podman.StopContainer(outcome);
      if !outcome.StopOk? {
        return L.PodmanFailed;
      }
      tracker.Transition(Stopped, NO_FIELDS, now);
      return L.Fine;
    }

    method Reload(name: string, stopInspectOk: bool, outcome: L.StopOutcome, startInspectOk: bool, run: L.RunOutcome, now: int)
      returns (r: L.Reply)
      modifies this, tracker, podman
      ensures (View(), r) == L.Reload(old(View()), name, stopInspectOk, outcome, startInspectOk, run, now)
    {
      hide L.Start, L.Stop;
      if name !in profiles {
        return L.UnknownProfile;
      }
      r := Stop(stopInspectOk, outcome, now);
      if r != L.Fine {
        return;
      }
      r := Start(name, startInspectOk, run, now);
    }

    method Reconcile(inspectOk: bool, now: int) returns (r: L.Reply)
      modifies tracker
      ensures (View(), r) == L.Reconcile(old(View()), inspectOk, now)
    {
      if !inspectOk {
        return L.PodmanFailed;
      }
      var info := L.Inspect(podman.world);
      if info.None? {
        tracker.Transition(Stopped, NO_FIELDS, now);
        return L.Fine;
      }
      if info.value.running {
        var profile := ProfileFromContainer(info.value);
        var message := if profile.None? then Some(L.ORPHAN) else None;
        tracker.Transition(Loading, NO_FIELDS.(profile := Set(profile), containerId := Set(Some(info.value.id)), message := Set(message)), now);
      } else {
        tracker.Transition(Stopped, NO_FIELDS, now);
        tracker.SetExitCode(info.value.exitCode);
      }
      return L.Fine;
    }

    /** Labels first, then the words of the command, in order. */
    method ProfileFromContainer(info: L.Info) returns (profile: Option<string>)
      ensures profile == L.ProfileOfContainer(info, profiles)
    {
      if L.PROFILE_LABEL in info.labels && info.labels[L.PROFILE_LABEL] in profiles {
        return Some(info.labels[L.PROFILE_LABEL]);
      }
      if L.PROFILE_LABEL in info.topLabels && info.topLabels[L.PROFILE_LABEL] in profiles {
        return Some(info.topLabels[L.PROFILE_LABEL]);
      }
      var prefix := L.PROFILE_LABEL + "=";
      assert info.cmd[0..] == info.cmd;
      for i := 0 to |info.cmd|
        invariant L.ProfileInCommand(info.cmd, profiles) == L.ProfileInCommand(info.cmd[i..], profiles)
      {
        var arg := info.cmd[i];
        assert info.cmd[i..][1..] == info.cmd[i + 1..];
        if prefix <= arg {
          var candidate := arg[|L.PROFILE_LABEL| + 1..];
          if candidate in profiles {
            return Some(candidate);
          }
        }
      }
      return None;
    }

    /** The watcher's callback; it runs without the manager's lock. */
    method HandleContainerEvent(e: L.Event, now: int)
      modifies this, tracker
      ensures View() == L.HandleEvent(old(View()), e, now)
    {
      if e.action != "die" && e.action != "stop" {
        return;
      }
      if e.name != common.containerName {
        return;
      }
      if expectedStop {
        expectedStop := false;
        tracker.Transition(Stopped, NO_FIELDS, now);
        return;
      }
      var current := tracker.Snapshot();
      if current.state == Stopped || current.state == Suspended {
        return;
      }
      var exitCode := e.exitCode;
      if exitCode.None? {
        exitCode := e.podmanCode;
      }
      tracker.Transition(Crashed, NO_FIELDS.(exitCode := Set(exitCode), logTail := Set(e.logs)), now);
    }
  }

  /** The rendered command line with the label spliced in before the image. */
  method LabelledArgs(p: Profile, c: Common, name: string) returns (args: seq<string>)
    ensures args == L.LaunchArgs(p, c, name)
  {
    args := PodmanArgs(p, c);
    assert args[15] == TextOf(p.image);
    var image := TextOf(p.image);
    var i := 0;
    while args[i] != image
      invariant 0 <= i <= 15
      invariant L.IndexOf(args, image) == i + L.IndexOf(args[i..], image)
      decreases 15 - i
    {
      assert args[i..][1..] == args[i + 1..] && args[i + 1..][15 - i - 1] == image;
      i := i + 1;
    }
    args := args[..i] + ["--label", L.PROFILE_LABEL + "=" + name] + args[i..];
  }
}
