/**
 * What each operation does to the instance, told by the state it finds: which
 * calls are refused, and the whole status, flag and container behind the others.
 */
module Operations {
  import opened Wrappers
  import opened PyText
  import opened Tracker
  import opened Config
  import opened Lifecycle
  import PF = ProfileFile

  /** A status after a stop: nothing but the message is kept. */
  function Cleared(s: Status, since: int): Status {
    Status(Stopped, None, None, since, None, [], s.message)
  }

  /** When the state last changed, if it is this one from now on. */
  function Since(s: Status, state: State, now: int): int {
    if s.state == state then s.since else now
  }

  /** A start is refused, without a trace, exactly when the profile is unknown, the instance active, podman silent, or a container runs. */
  lemma StartSays(c: Core, name: string, inspectOk: bool, run: RunOutcome, now: int)
    ensures var (c', reply) := Start(c, name, inspectOk, run, now);
      && (reply == UnknownProfile <==> name !in c.profiles)
      && (reply == AlreadyRunning <==>
            name in c.profiles && (c.status.state !in {Stopped, Crashed} || (inspectOk && c.world.Running?)))
      && (reply == Fine <==>
            name in c.profiles && c.status.state in {Stopped, Crashed} && inspectOk && !c.world.Running? && run.RunOk?)
      && if name in c.profiles && c.status.state in {Stopped, Crashed} && inspectOk && !c.world.Running? then
           match run
           case RunOk(id) =>
             c' == c.(expectedStop := false, world := Running(id, LaunchArgs(c.profiles[name], c.common, name), Some(name)),
                      status := c.status.(state := Loading, since := now, profile := Some(name), containerId := Some(id)))
           case RunFails(message) =>
             reply == PodmanFailed && c' == c.(expectedStop := false, status := Cleared(c.status, now).(message := Some(message)))
           case RunRaises =>
             reply == OtherFailure && c' == c.(expectedStop := false, status := c.status.(state := Starting, since := now))
         else c' == c
  {
    hide LaunchArgs;
  }

  /**
   * A stop of a stopped instance without a container only answers; any other
   * raises the flag and asks podman, and what podman does decides the rest.
   */
  lemma StopSays(c: Core, inspectOk: bool, outcome: StopOutcome, now: int)
    ensures var (c', reply) := Stop(c, inspectOk, outcome, now);
      if c.status.state == Stopped && !inspectOk then reply == PodmanFailed && c' == c
      else if c.status.state == Stopped && !c.world.Running? then reply == Fine && c' == c.(status := Cleared(c.status, c.status.since))
      else
        && (reply == Fine <==> outcome.StopOk?) && (reply == Fine || reply == PodmanFailed)
        && c'.expectedStop && c' == c.(expectedStop := true, world := c'.world, status := c'.status)
        && c'.status == (if outcome.StopOk? then Cleared(c.status, Since(c.status, Stopped, now)) else c.status)
        && (!c.world.Running? || (outcome.StopFails? && !outcome.gone) ==> c'.world == c.world)
        && (c.world.Running? && outcome.StopOk? ==> c'.world == Absent)
        && (c.world.Running? && outcome.StopFails? && outcome.gone ==> c'.world == Exited(c.world.id, c.world.args, outcome.code))
  {
  }

  /** A reload that succeeds replaces the container; one that fails leaves the stop's work, or nothing for an unknown profile. */
  lemma ReloadSays(c: Core, name: string, stopInspectOk: bool, outcome: StopOutcome, startInspectOk: bool, run: RunOutcome, now: int)
    ensures var (c', reply) := Reload(c, name, stopInspectOk, outcome, startInspectOk, run, now);
      var (stopped, stopReply) := Stop(c, stopInspectOk, outcome, now);
      && (name !in c.profiles ==> reply == UnknownProfile && c' == c)
      && (name in c.profiles && stopReply != Fine ==> reply == stopReply && c' == stopped)
      && (name in c.profiles && stopReply == Fine && (!startInspectOk || !run.RunOk?) ==> reply in {PodmanFailed, OtherFailure} && !c'.world.Running?)
      && (reply == Fine <==> name in c.profiles && stopReply == Fine && startInspectOk && run.RunOk?)
      && (reply == Fine ==>
        && c'.world == Running(run.id, LaunchArgs(c.profiles[name], c.common, name), Some(name)) && !c'.expectedStop
        && c'.status == Status(Loading, Some(name), Some(run.id), now, None, [], c.status.message))
  {
    StopSays(c, stopInspectOk, outcome, now);
    hide Stop, LaunchArgs;
    StartSays(Stop(c, stopInspectOk, outcome, now).0, name, startInspectOk, run, now);
  }

  /** The profile of a running container: the label's, or else the first that a word of the command names. */
  ghost predicate IsProfileOf(found: Option<string>, args: seq<string>, profiles: map<string, Profile>) {
    var spec := ParseRun(args);
    if spec.None? then found.None?
    else if "llamactl.profile" in spec.value.labels && spec.value.labels["llamactl.profile"] in profiles
    then found == Some(spec.value.labels["llamactl.profile"])
    else if found.Some? then
      found.value in profiles && exists i :: FirstNamed(spec.value.command, profiles, i) && spec.value.command[i] == "llamactl.profile=" + found.value
    else forall i | 0 <= i < |spec.value.command| :: !NamesProfile(spec.value.command[i], profiles)
  }

  predicate NamesProfile(word: string, profiles: map<string, Profile>) {
    StartsWith(word, "llamactl.profile=") && word[17..] in profiles
  }

  ghost predicate FirstNamed(words: seq<string>, profiles: map<string, Profile>, i: int) {
    0 <= i < |words| && NamesProfile(words[i], profiles) && forall j | 0 <= j < i :: !NamesProfile(words[j], profiles)
  }

  lemma LabelPrefix()
    ensures PROFILE_LABEL + "=" == "llamactl.profile=" && |PROFILE_LABEL| == 16
  {
  }

  lemma {:induction false} CommandNames(words: seq<string>, profiles: map<string, Profile>)
    ensures var found := ProfileInCommand(words, profiles);
      if found.Some? then
        found.value in profiles && exists i :: FirstNamed(words, profiles, i) && words[i] == "llamactl.profile=" + found.value
      else forall i | 0 <= i < |words| :: !NamesProfile(words[i], profiles)
    decreases |words|
  {
    LabelPrefix();
    hide StartsWith;
    if words != [] {
      var found := ProfileInCommand(words, profiles);
      if NamesProfile(words[0], profiles) {
        PrefixSplits(words[0]);
        assert FirstNamed(words, profiles, 0);
      } else {
        CommandNames(words[1..], profiles);
        if found.Some? {
          var i :| FirstNamed(words[1..], profiles, i) && words[1..][i] == "llamactl.profile=" + found.value;
          assert FirstNamed(words, profiles, i + 1) && words[i + 1] == words[1..][i];
        } else {
          assert forall i | 1 <= i < |words| :: words[i] == words[1..][i - 1];
        }
      }
    }
  }

  lemma PrefixSplits(word: string)
    requires StartsWith(word, "llamactl.profile=")
    ensures |word| >= 17 && word == "llamactl.profile=" + word[17..]
  {
  }

  lemma ContainerNames(id: string, args: seq<string>, code: Option<int>, profiles: map<string, Profile>)
    ensures IsProfileOf(ProfileOfContainer(InfoOf(id, args, true, code), profiles), args, profiles)
  {
    LabelPrefix();
    hide ParseRun, ProfileInCommand, NamesProfile;
    if ParseRun(args).Some? {
      CommandNames(ParseRun(args).value.command, profiles);
    } else {
      CommandNames([], profiles);
    }
  }

  /** A reconcile adopts what runs, and takes over the code of what has ended. */
  lemma ReconcileSays(c: Core, inspectOk: bool, now: int)
    ensures var (c', reply) := Reconcile(c, inspectOk, now);
      && (reply == Fine <==> inspectOk) && (!inspectOk ==> reply == PodmanFailed && c' == c)
      && c' == c.(status := c'.status)
      && (inspectOk ==>
          match c.world
          case Absent => c'.status == Cleared(c.status, Since(c.status, Stopped, now))
          case Exited(_, _, code) => c'.status == Cleared(c.status, Since(c.status, Stopped, now)).(exitCode := Some(code))
          case Running(id, args, _) =>
            && c'.status == c.status.(state := Loading, since := Since(c.status, Loading, now), containerId := Some(id),
                                      profile := c'.status.profile, message := c'.status.message)
            && IsProfileOf(c'.status.profile, args, c.profiles)
            && (c'.status.message.None? <==> c'.status.profile.Some?))
  {
    hide ParseRun, ProfileOfContainer, IsProfileOf;
    if c.world.Running? {
      ContainerNames(c.world.id, c.world.args, Some(0), c.profiles);
    }
  }

  /**
   * An ending of the managed container clears an expected stop, is ignored when
   * the instance is stopped or asleep, and is a crash otherwise; every other
   * event is ignored.
   */
  lemma EventSays(c: Core, e: Event, now: int)
    ensures var c' := HandleEvent(c, e, now);
      if e.action !in {"die", "stop"} || e.name != c.common.containerName then c' == c
      else if c.expectedStop then c' == c.(expectedStop := false, status := Cleared(c.status, Since(c.status, Stopped, now)))
      else if c.status.state in {Stopped, Suspended} then c' == c
      else c' == c.(status := c.status.(state := Crashed, since := Since(c.status, Crashed, now), logTail := e.logs,
                                        exitCode := if e.exitCode.Some? then e.exitCode else e.podmanCode))
  {
  }

  /**
   * Which edits are refused before the file is touched, an edit of the profile
   * that is running among them, and that the others succeed exactly when the
   * file can be edited and written.
   */
  lemma EditsSay(c: Core, name: string, table: PF.Dict, writable: bool)
    ensures var created, updated, deleted := Create(c, name, table, writable).1, Update(c, name, table, writable).1, Delete(c, name, writable).1;
      var inUse := c.status.state !in {Stopped, Crashed} && c.status.profile == Some(name);
      var valid := BuildProfile(name, table.values, c.common.image).Some?;
      && (created == ProfileExists <==> name in c.profiles) && (created == Invalid <==> name !in c.profiles && !valid)
      && (created == Fine <==> name !in c.profiles && valid && writable && PF.AppendText(c.file, name, table).Ok?)
      && (updated == UnknownProfile <==> name !in c.profiles) && (updated == ProfileInUse <==> name in c.profiles && inUse)
      && (updated == Invalid <==> name in c.profiles && !inUse && !valid)
      && (updated == Fine <==> name in c.profiles && !inUse && valid && writable && PF.OverwriteText(c.file, name, table).Ok?)
      && (deleted == UnknownProfile <==> name !in c.profiles) && (deleted == ProfileInUse <==> name in c.profiles && inUse)
      && (deleted == Fine <==> name in c.profiles && !inUse && writable && PF.RemoveText(c.file, name).Ok?)
  {
    hide BuildProfile, PF.AppendText, PF.OverwriteText, PF.RemoveText;
  }

  /** A recording answers with the peak that is then known, or with none when nothing was read or the profile is unknown. */
  lemma RecordSays(c: Core, name: string, used: Option<int>, at: string, first: bool, second: bool)
    ensures var (c', reply) := RecordPeak(c, name, used, at, first, second);
      && reply == Peak(if used.Some? && name in c.profiles then c'.profiles[name].peakBytes else None)
      && c'.status == c.status && c'.world == c.world && c'.expectedStop == c.expectedStop && c'.common == c.common
  {
    hide WritePeak;
  }
}
