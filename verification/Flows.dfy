/**
 * The lifecycle operations cut into the steps between which other threads can
 * act: every podman call, flag write and tracker transition is its own step.
 */
module Flows {
  import opened Wrappers
  import opened Tracker
  import opened Config
  import L = Lifecycle
  import M = Machine
  import PF = ProfileFile

  /**
   * Where a thread is. A stop carries the profile to start afterwards when it is
   * half of a reload. An edit of the store is told by what it leaves behind:
   * any profiles, any file and any reply.
   */
  datatype Pc =
    | Returned(reply: L.Reply)
    | Waiting(entry: Pc)
    | StartEntry(name: string) | StartProbe(name: string) | StartMark(name: string) | StartTell(name: string)
    | StartRun(name: string, args: seq<string>) | StartLoad(name: string, id: string)
    | StartFail(message: string) | StartMessage(message: string)
    | ReloadEntry(name: string)
    | StopEntry(after: Option<string>) | StopProbe(after: Option<string>) | StopIdle(after: Option<string>)
    | StopMark(after: Option<string>) | StopCall(after: Option<string>) | StopTell(after: Option<string>)
    | ReconcileEntry | ReconcileTell(info: Option<L.Info>) | ReconcileCode(code: Option<int>)
    | EditEntry(profiles: map<string, Profile>, file: string, reply: L.Reply)
    | EventEntry(e: L.Event) | EventClear | EventStop | EventCheck(e: L.Event) | EventCrash(e: L.Event)
    | PollEntry | PollWrite(seen: State)
    | SuspendEntry | SuspendTell | ResumeEntry

  /** What the outside world answers to the calls of a flow. */
  datatype World = World(inspectOk: bool, outcome: L.StopOutcome, startInspectOk: bool, run: L.RunOutcome, probeOk: bool, now: int)

  /** The steps that are taken with the manager's lock held. */
  predicate InSection(pc: Pc) {
    match pc
    case Returned(_) | Waiting(_) => false
    case EventEntry(_) | EventClear | EventStop | EventCheck(_) | EventCrash(_) => false
    case PollEntry | PollWrite(_) | SuspendEntry | SuspendTell | ResumeEntry => false
    case _ => true
  }

  /** How many steps a flow has left at most. */
  function Left(pc: Pc): nat {
    match pc
    case StartEntry(_) => 8
    case StartProbe(_) => 7
    case StartMark(_) => 6
    case StartTell(_) => 5
    case StartRun(_, _) => 4
    case StartLoad(_, _) | StartMessage(_) => 2
    case StartFail(_) => 3
    case ReloadEntry(_) => 15
    case StopEntry(_) => 14
    case StopProbe(_) => 13
    case StopMark(_) => 12
    case StopCall(_) => 11
    case StopTell(_) | StopIdle(_) => 10
    case ReconcileEntry | EventEntry(_) => 4
    case ReconcileTell(_) | EventClear | EventCheck(_) => 3
    case ReconcileCode(_) | EventStop | EventCrash(_) | EditEntry(_, _, _) => 2
    case _ => 0
  }

  function AfterStopping(after: Option<string>): Pc {
    if after.Some? then StartEntry(after.value) else Returned(L.Fine)
  }

  /** One step of a start. */
  function StartStep(c: L.Core, pc: Pc, w: World): (L.Core, Pc) {
    match pc
    case StartEntry(name) =>
      if name !in c.profiles then (c, Returned(L.UnknownProfile))
      else if !L.Inactive(c.status.state) then (c, Returned(L.AlreadyRunning))
      else (c, StartProbe(name))
    case StartProbe(name) =>
      if !w.startInspectOk then (c, Returned(L.PodmanFailed))
      else if c.world.Running? then (c, Returned(L.AlreadyRunning))
      else (c, StartMark(name))
    case StartMark(name) => (c.(expectedStop := false), StartTell(name))
    case StartTell(name) =>
      (c.(status := Moved(c.status, Starting, NO_FIELDS, w.now)),
       if name in c.profiles then StartRun(name, L.LaunchArgs(c.profiles[name], c.common, name)) else Returned(L.OtherFailure))
    case StartRun(name, args) =>
      (match w.run
       case RunOk(id) => (c.(world := L.Running(id, args, Some(name))), StartLoad(name, id))
       case RunFails(message) => (c, StartFail(message))
       case RunRaises => (c, Returned(L.OtherFailure)))
    case StartLoad(name, id) =>
      (c.(status := Moved(c.status, Loading, NO_FIELDS.(profile := Set(Some(name)), containerId := Set(Some(id))), w.now)),
       Returned(L.Fine))
    case StartFail(message) => (c.(status := Moved(c.status, Stopped, NO_FIELDS, w.now)), StartMessage(message))
    case StartMessage(message) => (c.(status := c.status.(message := Some(message))), Returned(L.PodmanFailed))
    case _ => (c, pc)
  }

  /** One step of a stop. */
  function StopStep(c: L.Core, pc: Pc, w: World): (L.Core, Pc) {
    match pc
    case StopEntry(after) => (c, if c.status.state == Stopped then StopProbe(after) else StopMark(after))
    case StopProbe(after) =>
      (c, if !w.inspectOk then Returned(L.PodmanFailed) else if c.world.Running? then StopMark(after) else StopIdle(after))
    case StopMark(after) => (c.(expectedStop := true), StopCall(after))
    case StopCall(after) =>
      (c.(world := L.AfterStop(c.world, w.outcome)), if w.outcome.StopOk? then StopTell(after) else Returned(L.PodmanFailed))
    case StopTell(after) => (c.(status := Moved(c.status, Stopped, NO_FIELDS, w.now)), AfterStopping(after))
    case StopIdle(after) => (c.(status := Moved(c.status, Stopped, NO_FIELDS, w.now)), AfterStopping(after))
    case _ => (c, pc)
  }

  /** One step of a reconcile. */
  function ReconcileStep(c: L.Core, pc: Pc, w: World): (L.Core, Pc) {
    match pc
    case ReconcileEntry => (c, if w.inspectOk then ReconcileTell(L.Inspect(c.world)) else Returned(L.PodmanFailed))
    case ReconcileTell(None) => (c.(status := Moved(c.status, Stopped, NO_FIELDS, w.now)), Returned(L.Fine))
    case ReconcileTell(Some(info)) =>
      if info.running then
        var profile := L.ProfileOfContainer(info, c.profiles);
        var fields := NO_FIELDS.(profile := Set(profile), containerId := Set(Some(info.id)),
                                 message := Set(if profile.None? then Some(L.ORPHAN) else None));
        (c.(status := Moved(c.status, Loading, fields, w.now)), Returned(L.Fine))
      else (c.(status := Moved(c.status, Stopped, NO_FIELDS, w.now)), ReconcileCode(info.exitCode))
    case ReconcileCode(code) => (c.(status := c.status.(exitCode := code)), Returned(L.Fine))
    case _ => (c, pc)
  }

  /** One step of the event callback, which runs without the lock. */
  function EventStep(c: L.Core, pc: Pc, w: World): (L.Core, Pc) {
    match pc
    case EventEntry(e) =>
      (c, if !L.IsEnding(e, c.common) then Returned(L.Fine) else if c.expectedStop then EventClear else EventCheck(e))
    case EventClear => (c.(expectedStop := false), EventStop)
    case EventStop => (c.(status := Moved(c.status, Stopped, NO_FIELDS, w.now)), Returned(L.Fine))
    case EventCheck(e) =>
      (c, if c.status.state == Stopped || c.status.state == Suspended then Returned(L.Fine) else EventCrash(e))
    case EventCrash(e) =>
      var code := if e.exitCode.Some? then e.exitCode else e.podmanCode;
      (c.(status := Moved(c.status, Crashed, NO_FIELDS.(exitCode := Set(code), logTail := Set(e.logs)), w.now)), Returned(L.Fine))
    case _ => (c, pc)
  }

  /** One step of any flow that works on the manager's part alone. */
  function Micro(c: L.Core, pc: Pc, w: World): (L.Core, Pc) {
    match pc
    case ReloadEntry(name) => (c, if name in c.profiles then StopEntry(Some(name)) else Returned(L.UnknownProfile))
    case EditEntry(profiles, file, reply) => (c.(profiles := profiles, file := file), Returned(reply))
    case ReconcileEntry | ReconcileTell(_) | ReconcileCode(_) => ReconcileStep(c, pc, w)
    case StopEntry(_) | StopProbe(_) | StopIdle(_) | StopMark(_) | StopCall(_) | StopTell(_) => StopStep(c, pc, w)
    case EventEntry(_) | EventClear | EventStop | EventCheck(_) | EventCrash(_) => EventStep(c, pc, w)
    case _ => StartStep(c, pc, w)
  }

  lemma MicroShortens(c: L.Core, pc: Pc, w: World)
    requires Left(pc) > 0
    ensures Left(Micro(c, pc, w).1) < Left(pc)
  {
    hide L.LaunchArgs, L.Inspect, L.ProfileOfContainer, L.AfterStop, L.IsEnding;
  }

  /** A flow that no other thread interrupts. */
  function Solo(c: L.Core, pc: Pc, w: World): (L.Core, L.Reply)
    decreases Left(pc)
  {
    if Left(pc) == 0 then (c, if pc.Returned? then pc.reply else L.OtherFailure)
    else
      MicroShortens(c, pc, w);
      var (c', pc') := Micro(c, pc, w);
      Solo(c', pc', w)
  }

  // ---------------------------------------------------------------- undisturbed flows are the operations

  lemma SoloStep(c: L.Core, pc: Pc, w: World)
    requires Left(pc) > 0
    ensures var (c', pc') := Micro(c, pc, w); Solo(c, pc, w) == Solo(c', pc', w)
  {
    hide Micro, Left;
  }

  lemma SoloDone(c: L.Core, r: L.Reply, w: World)
    ensures Solo(c, Returned(r), w) == (c, r)
  {
  }

  lemma SoloRun(c: L.Core, name: string, args: seq<string>, w: World)
    ensures Solo(c, StartRun(name, args), w) == match w.run
      case RunOk(id) =>
        (c.(world := L.Running(id, args, Some(name)),
            status := Moved(c.status, Loading, NO_FIELDS.(profile := Set(Some(name)), containerId := Set(Some(id))), w.now)), L.Fine)
      case RunFails(message) => (c.(status := Moved(c.status, Stopped, NO_FIELDS, w.now).(message := Some(message))), L.PodmanFailed)
      case RunRaises => (c, L.OtherFailure)
  {
    hide Solo, Moved;
    SoloStep(c, StartRun(name, args), w);
    match w.run {
      case RunOk(id) =>
        var c1 := c.(world := L.Running(id, args, Some(name)));
        SoloStep(c1, StartLoad(name, id), w);
        SoloDone(Micro(c1, StartLoad(name, id), w).0, L.Fine, w);
      case RunFails(message) =>
        SoloStep(c, StartFail(message), w);
        var c1 := c.(status := Moved(c.status, Stopped, NO_FIELDS, w.now));
        SoloStep(c1, StartMessage(message), w);
        SoloDone(Micro(c1, StartMessage(message), w).0, L.PodmanFailed, w);
      case RunRaises => SoloDone(c, L.OtherFailure, w);
    }
  }

  lemma SoloMark(c: L.Core, name: string, w: World)
    requires name in c.profiles
    ensures Solo(c, StartMark(name), w)
         == Solo(c.(expectedStop := false, status := Moved(c.status, Starting, NO_FIELDS, w.now)),
                 StartRun(name, L.LaunchArgs(c.profiles[name], c.common, name)), w)
  {
    hide Solo, Moved, L.LaunchArgs;
    SoloStep(c, StartMark(name), w);
    SoloStep(c.(expectedStop := false), StartTell(name), w);
  }

  /** A start that nobody interrupts. */
  lemma SoloStart(c: L.Core, name: string, w: World)
    ensures Solo(c, StartEntry(name), w) == L.Start(c, name, w.startInspectOk, w.run, w.now)
  {
    hide Solo, Moved, L.LaunchArgs;
    SoloStep(c, StartEntry(name), w);
    if name in c.profiles && L.Inactive(c.status.state) {
      SoloStep(c, StartProbe(name), w);
      if w.startInspectOk && !c.world.Running? {
        SoloMark(c, name, w);
        SoloRun(c.(expectedStop := false, status := Moved(c.status, Starting, NO_FIELDS, w.now)), name,
                L.LaunchArgs(c.profiles[name], c.common, name), w);
      } else {
        SoloDone(c, Micro(c, StartProbe(name), w).1.reply, w);
      }
    } else {
      SoloDone(c, Micro(c, StartEntry(name), w).1.reply, w);
    }
  }

  /** The end of a stop, and what follows it. */
  lemma SoloMarked(c: L.Core, after: Option<string>, w: World)
    ensures Solo(c, StopMark(after), w)
         == var stopping := c.(expectedStop := true, world := L.AfterStop(c.world, w.outcome));
            if w.outcome.StopOk? then Solo(stopping.(status := Moved(c.status, Stopped, NO_FIELDS, w.now)), AfterStopping(after), w)
            else (stopping, L.PodmanFailed)
  {
    hide Solo, Moved, L.AfterStop, AfterStopping;
    SoloStep(c, StopMark(after), w);
    SoloStep(c.(expectedStop := true), StopCall(after), w);
    var stopping := c.(expectedStop := true, world := L.AfterStop(c.world, w.outcome));
    if w.outcome.StopOk? {
      SoloStep(stopping, StopTell(after), w);
    } else {
      SoloDone(stopping, L.PodmanFailed, w);
    }
  }

  lemma SoloStopThen(c: L.Core, after: Option<string>, w: World)
    ensures var (c', r) := L.Stop(c, w.inspectOk, w.outcome, w.now);
      Solo(c, StopEntry(after), w) == if r == L.Fine then Solo(c', AfterStopping(after), w) else (c', r)
  {
    hide Solo, Moved, L.AfterStop, AfterStopping;
    SoloStep(c, StopEntry(after), w);
    if c.status.state == Stopped {
      SoloStep(c, StopProbe(after), w);
      if !w.inspectOk {
        SoloDone(c, L.PodmanFailed, w);
      } else if c.world.Running? {
        SoloMarked(c, after, w);
      } else {
        SoloStep(c, StopIdle(after), w);
      }
    } else {
      SoloMarked(c, after, w);
    }
  }

  /** A stop that nobody interrupts. */
  lemma SoloStop(c: L.Core, w: World)
    ensures Solo(c, StopEntry(None), w) == L.Stop(c, w.inspectOk, w.outcome, w.now)
  {
    hide Solo, L.Stop;
    SoloStopThen(c, None, w);
    SoloDone(L.Stop(c, w.inspectOk, w.outcome, w.now).0, L.Fine, w);
  }

  /** A reload that nobody interrupts. */
  lemma SoloReload(c: L.Core, name: string, w: World)
    ensures Solo(c, ReloadEntry(name), w) == L.Reload(c, name, w.inspectOk, w.outcome, w.startInspectOk, w.run, w.now)
  {
    hide Solo, L.Stop, L.Start;
    SoloStep(c, ReloadEntry(name), w);
    if name in c.profiles {
      SoloStopThen(c, Some(name), w);
      SoloStart(L.Stop(c, w.inspectOk, w.outcome, w.now).0, name, w);
    } else {
      SoloDone(c, L.UnknownProfile, w);
    }
  }

  /** A reconcile that nobody interrupts. */
  lemma SoloReconcile(c: L.Core, w: World)
    ensures Solo(c, ReconcileEntry, w) == L.Reconcile(c, w.inspectOk, w.now)
  {
    hide Solo, Moved, L.Inspect, L.ProfileOfContainer;
    SoloStep(c, ReconcileEntry, w);
    var info := L.Inspect(c.world);
    if !w.inspectOk {
      SoloDone(c, L.PodmanFailed, w);
    } else {
      SoloStep(c, ReconcileTell(info), w);
      var (c1, pc1) := Micro(c, ReconcileTell(info), w);
      if info.Some? && !info.value.running {
        SoloStep(c1, pc1, w);
        SoloDone(Micro(c1, pc1, w).0, L.Fine, w);
      } else {
        SoloDone(c1, L.Fine, w);
      }
    }
  }

  lemma SoloCleared(c: L.Core, w: World)
    ensures Solo(c, EventClear, w) == (c.(expectedStop := false, status := Moved(c.status, Stopped, NO_FIELDS, w.now)), L.Fine)
  {
    hide Solo, Moved;
    SoloStep(c, EventClear, w);
    SoloStep(c.(expectedStop := false), EventStop, w);
    SoloDone(c.(expectedStop := false, status := Moved(c.status, Stopped, NO_FIELDS, w.now)), L.Fine, w);
  }

  lemma SoloCrash(c: L.Core, e: L.Event, w: World)
    ensures Solo(c, EventCrash(e), w)
         == var code := if e.exitCode.Some? then e.exitCode else e.podmanCode;
            (c.(status := Moved(c.status, Crashed, NO_FIELDS.(exitCode := Set(code), logTail := Set(e.logs)), w.now)), L.Fine)
  {
    hide Solo, Moved;
    SoloStep(c, EventCrash(e), w);
    SoloDone(Micro(c, EventCrash(e), w).0, L.Fine, w);
  }

  /** An event that is handled at one go. */
  lemma SoloEvent(c: L.Core, e: L.Event, w: World)
    ensures Solo(c, EventEntry(e), w) == (L.HandleEvent(c, e, w.now), L.Fine)
  {
    hide Solo, Moved, L.IsEnding;
    SoloStep(c, EventEntry(e), w);
    if !L.IsEnding(e, c.common) {
      SoloDone(c, L.Fine, w);
    } else if c.expectedStop {
      SoloCleared(c, w);
    } else {
      SoloStep(c, EventCheck(e), w);
      if c.status.state == Stopped || c.status.state == Suspended {
        SoloDone(c, L.Fine, w);
      } else {
        SoloCrash(c, e, w);
      }
    }
  }

  /** Every create, update, delete and recording is such an edit. */
  lemma SoloEdit(s: M.System, step: M.Step, w: World)
    requires step.Create? || step.Update? || step.Delete? || step.RecordPeak?
    ensures var c := M.Next(s, step).core;
      Solo(s.core, EditEntry(c.profiles, c.file, M.Reply(s, step)), w) == (c, M.Reply(s, step))
  {
    var c := M.Next(s, step).core;
    OnlyEdits(s, step);
    hide *;
    SoloEditStep(s.core, c.profiles, c.file, M.Reply(s, step), w);
  }

  lemma OnlyEdits(s: M.System, step: M.Step)
    requires step.Create? || step.Update? || step.Delete? || step.RecordPeak?
    ensures var c := M.Next(s, step).core; c == s.core.(profiles := c.profiles, file := c.file)
  {
    hide BuildProfile, L.WritePeak, PF.AppendText, PF.OverwriteText, PF.RemoveText;
  }

  lemma SoloEditStep(c: L.Core, profiles: map<string, Profile>, file: string, reply: L.Reply, w: World)
    ensures Solo(c, EditEntry(profiles, file, reply), w) == (c.(profiles := profiles, file := file), reply)
  {
    hide Solo;
    SoloStep(c, EditEntry(profiles, file, reply), w);
    SoloDone(c.(profiles := profiles, file := file), reply, w);
  }
}
