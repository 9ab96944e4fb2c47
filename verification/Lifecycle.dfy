/**
 * The life of the single model instance: what each operation does to the
 * manager's memory, the profile file, the tracker and the container.
 */
module Lifecycle {
  import opened Wrappers
  import opened TomlValue
  import opened PyText
  import opened Config
  import opened Tracker
  import File = ProfileFile

  // ---------------------------------------------------------------- podman

  /** The container of the managed name; `ours` names the profile if this manager started it. */
  datatype Container =
    | Absent
    | Running(id: string, args: seq<string>, ours: Option<string>)
    | Exited(id: string, args: seq<string>, code: int)

  const PROFILE_LABEL := "llamactl.profile"

  const SWITCHES := {"--rm", "--detach"}
  const OPTIONS := {"--name", "--device", "--group-add", "--publish", "--volume", "--label"}

  /** What podman makes of the words after `run`: labels, the image, and the command for it. */
  datatype RunSpec = RunSpec(labels: map<string, string>, image: string, command: seq<string>)

  /** A label's key and value, parted at the first equals sign. */
  function SplitLabel(text: string): (string, string) {
    if text == [] then ("", "")
    else if text[0] == '=' then ("", text[1..])
    else var (k, v) := SplitLabel(text[1..]); ([text[0]] + k, v)
  }

  function ParseFlags(args: seq<string>, labels: map<string, string>): Option<RunSpec>
    decreases |args|
  {
    if args == [] then None
    else if args[0] in SWITCHES then ParseFlags(args[1..], labels)
    else if args[0] in OPTIONS then
      if |args| < 2 then None
      else
        var (k, v) := SplitLabel(args[1]);
        ParseFlags(args[2..], if args[0] == "--label" then labels[k := v] else labels)
    else if StartsWith(args[0], "-") then None
    else Some(RunSpec(labels, args[0], args[1..]))
  }

  function ParseRun(args: seq<string>): Option<RunSpec> {
    if args != [] && args[0] == "run" then ParseFlags(args[1..], map[]) else None
  }

  /** The answer of `podman inspect`. */
  datatype Info = Info(running: bool, id: string, exitCode: Option<int>,
                       labels: map<string, string>, topLabels: map<string, string>, cmd: seq<string>)

  function InfoOf(id: string, args: seq<string>, running: bool, exitCode: Option<int>): Info {
    match ParseRun(args)
    case None => Info(running, id, exitCode, map[], map[], [])
    case Some(spec) => Info(running, id, exitCode, spec.labels, map[], spec.command)
  }

  function Inspect(w: Container): Option<Info> {
    match w
    case Absent => None
    case Running(id, args, _) => Some(InfoOf(id, args, true, Some(0)))
    case Exited(id, args, code) => Some(InfoOf(id, args, false, Some(code)))
  }

  /** A `run` starts the container, fails as podman errors do, or raises something else. */
  datatype RunOutcome = RunOk(id: string) | RunFails(message: string) | RunRaises

  /** A `stop` succeeds, or raises with the container gone or not. */
  datatype StopOutcome = StopOk | StopFails(gone: bool, code: int)

  // ---------------------------------------------------------------- the manager's memory

  datatype Core = Core(
    common: Common, profiles: map<string, Profile>, file: string,
    status: Status, expectedStop: bool, world: Container)

  datatype Reply =
    | Fine
    | UnknownProfile
    | AlreadyRunning
    | ProfileExists
    | ProfileInUse
    | Invalid
    | EditFailed(error: File.EditError)
    | PodmanFailed
    | OtherFailure
    | Peak(bytes: Option<int>)

  // ---------------------------------------------------------------- start, stop, reload

  function IndexOf(words: seq<string>, word: string): (i: nat)
    requires word in words
    ensures i < |words| && words[i] == word && word !in words[..i]
  {
    if words[0] == word then 0 else 1 + IndexOf(words[1..], word)
  }

  /** The command line of a start: the label goes where the image's text first occurs. */
  function LaunchArgs(p: Profile, c: Common, name: string): seq<string> {
    var args := PodmanArgs(p, c);
    assert TextOf(p.image) == args[15];
    var i := IndexOf(args, TextOf(p.image));
    args[..i] + ["--label", PROFILE_LABEL + "=" + name] + args[i..]
  }

  predicate Inactive(s: State) {
    s == Stopped || s == Crashed
  }

  function Start(c: Core, name: string, inspectOk: bool, run: RunOutcome, now: int): (Core, Reply) {
    if name !in c.profiles then (c, UnknownProfile)
    else if !Inactive(c.status.state) then (c, AlreadyRunning)
    else if !inspectOk then (c, PodmanFailed)
    else if c.world.Running? then (c, AlreadyRunning)
    else
      var starting := c.(expectedStop := false, status := Moved(c.status, Starting, NO_FIELDS, now));
      match run
      case RunOk(id) =>
        (starting.(world := Running(id, LaunchArgs(c.profiles[name], c.common, name), Some(name)),
                   status := Moved(starting.status, Loading, NO_FIELDS.(profile := Set(Some(name)), containerId := Set(Some(id))), now)),
         Fine)
      case RunFails(message) =>
        (starting.(status := Moved(starting.status, Stopped, NO_FIELDS, now).(message := Some(message))), PodmanFailed)
      case RunRaises => (starting, OtherFailure)
  }

  function AfterStop(w: Container, outcome: StopOutcome): Container {
    match (w, outcome)
    case (Running(_, _, _), StopOk) => Absent
    case (Running(id, args, _), StopFails(true, code)) => Exited(id, args, code)
    case _ => w
  }

  function Stop(c: Core, inspectOk: bool, outcome: StopOutcome, now: int): (Core, Reply) {
    if c.status.state == Stopped && !inspectOk then (c, PodmanFailed)
    else if c.status.state == Stopped && !c.world.Running? then (c.(status := Moved(c.status, Stopped, NO_FIELDS, now)), Fine)
    else
      var stopping := c.(expectedStop := true, world := AfterStop(c.world, outcome));
      if outcome.StopOk? then (stopping.(status := Moved(c.status, Stopped, NO_FIELDS, now)), Fine)
      else (stopping, PodmanFailed)
  }

  function Reload(c: Core, name: string, stopInspectOk: bool, outcome: StopOutcome,
                  startInspectOk: bool, run: RunOutcome, now: int): (Core, Reply) {
    if name !in c.profiles then (c, UnknownProfile)
    else
      var (stopped, reply) := Stop(c, stopInspectOk, outcome, now);
      if reply != Fine then (stopped, reply) else Start(stopped, name, startInspectOk, run, now)
  }

  // ---------------------------------------------------------------- reconcile

  /** The first word of a command that names a configured profile behind the label's name. */
  function ProfileInCommand(cmd: seq<string>, profiles: map<string, Profile>): Option<string> {
    if cmd == [] then None
    else if StartsWith(cmd[0], PROFILE_LABEL + "=") && cmd[0][|PROFILE_LABEL| + 1..] in profiles
    then Some(cmd[0][|PROFILE_LABEL| + 1..])
    else ProfileInCommand(cmd[1..], profiles)
  }

  function ProfileOfContainer(info: Info, profiles: map<string, Profile>): Option<string> {
    if PROFILE_LABEL in info.labels && info.labels[PROFILE_LABEL] in profiles then Some(info.labels[PROFILE_LABEL])
    else if PROFILE_LABEL in info.topLabels && info.topLabels[PROFILE_LABEL] in profiles then Some(info.topLabels[PROFILE_LABEL])
    else ProfileInCommand(info.cmd, profiles)
  }

  const ORPHAN := "adopted orphaned running container"

  function Reconcile(c: Core, inspectOk: bool, now: int): (Core, Reply) {
    if !inspectOk then (c, PodmanFailed) else
    match Inspect(c.world)
    case None => (c.(status := Moved(c.status, Stopped, NO_FIELDS, now)), Fine)
    case Some(info) =>
      if info.running then
        var profile := ProfileOfContainer(info, c.profiles);
        var fields := NO_FIELDS.(profile := Set(profile), containerId := Set(Some(info.id)),
                                 message := Set(if profile.None? then Some(ORPHAN) else None));
        (c.(status := Moved(c.status, Loading, fields, now)), Fine)
      else (c.(status := Moved(c.status, Stopped, NO_FIELDS, now).(exitCode := info.exitCode)), Fine)
  }

  // ---------------------------------------------------------------- events

  /** A podman event: its action, container and exit code, with what podman would answer about the container. */
  datatype Event = Event(action: string, name: string, exitCode: Option<int>, podmanCode: Option<int>, logs: seq<string>)

  predicate IsEnding(e: Event, c: Common) {
    (e.action == "die" || e.action == "stop") && e.name == c.containerName
  }

  function HandleEvent(c: Core, e: Event, now: int): Core {
    if !IsEnding(e, c.common) then c
    else if c.expectedStop then c.(expectedStop := false, status := Moved(c.status, Stopped, NO_FIELDS, now))
    else if c.status.state == Stopped || c.status.state == Suspended then c
    else
      var code := if e.exitCode.Some? then e.exitCode else e.podmanCode;
      c.(status := Moved(c.status, Crashed, NO_FIELDS.(exitCode := Set(code), logTail := Set(e.logs)), now))
  }

  // ---------------------------------------------------------------- profiles

  function ActiveProfile(s: Status): Option<string> {
    if Inactive(s.state) then None else s.profile
  }

  /** The file and the reply after an edit; memory follows only when the edit went through. */
  function Create(c: Core, name: string, table: File.Table, writable: bool): (Core, Reply)
    requires table.Valid()
  {
    if name in c.profiles then (c, ProfileExists) else
    match BuildProfile(name, table.values, c.common.image)
    case None => (c, Invalid)
    case Some(p) =>
      match File.Commit(c.file, File.AppendText(c.file, name, table), writable)
      case (_, Some(e)) => (c, EditFailed(e))
      case (file, None) => (c.(file := file, profiles := c.profiles[name := p]), Fine)
  }

  function Update(c: Core, name: string, table: File.Table, writable: bool): (Core, Reply)
    requires table.Valid()
  {
    if name !in c.profiles then (c, UnknownProfile)
    else if ActiveProfile(c.status) == Some(name) then (c, ProfileInUse)
    else
      match BuildProfile(name, table.values, c.common.image)
      case None => (c, Invalid)
      case Some(p) =>
        match File.Commit(c.file, File.OverwriteText(c.file, name, table), writable)
        case (_, Some(e)) => (c, EditFailed(e))
        case (file, None) => (c.(file := file, profiles := c.profiles[name := p]), Fine)
  }

  function Delete(c: Core, name: string, writable: bool): (Core, Reply) {
    if name !in c.profiles then (c, UnknownProfile)
    else if ActiveProfile(c.status) == Some(name) then (c, ProfileInUse)
    else
      match File.Commit(c.file, File.RemoveText(c.file, name), writable)
      case (_, Some(e)) => (c, EditFailed(e))
      case (file, None) => (c.(file := file, profiles := c.profiles - {name}), Fine)
  }

  const PEAK_BYTES := "measured_vram_peak_bytes"
  const PEAK_AT := "measured_vram_peak_at"

  /** The file after both measured values are written; the second is only tried when the first was written. */
  function WritePeak(file: string, name: string, peak: int, at: string, first: bool, second: bool): string {
    var (file1, e) := File.Commit(file, File.SetText(file, name, PEAK_BYTES, Scalar(Int(peak))), first);
    if e.Some? then file1
    else File.Commit(file1, File.SetText(file1, name, PEAK_AT, Scalar(Str(at))), second).0
  }

  function RecordPeak(c: Core, name: string, used: Option<int>, at: string, first: bool, second: bool): (Core, Reply) {
    if used.None? || name !in c.profiles then (c, Peak(None))
    else
      var p := c.profiles[name];
      var current := if p.peakBytes.Some? then p.peakBytes.value else 0;
      if used.value <= current then (c, Peak(p.peakBytes))
      else
        (c.(profiles := c.profiles[name := p.(peakBytes := used, peakAt := Some(at))],
            file := WritePeak(c.file, name, used.value, at, first, second)),
         Peak(used))
  }
}
