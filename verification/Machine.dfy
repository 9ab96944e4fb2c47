/**
 * The whole system as a machine whose steps are the program's operations, each
 * taken as one step: every operation, callback and outside event in any order.
 */
module Machine {
  import opened Wrappers
  import opened Tracker
  import L = Lifecycle
  import PF = ProfileFile
  import Health

  /** The manager's part, the poller's counter and the suspend watcher's memory. */
  datatype System = System(core: L.Core, threshold: int, streak: nat, preSuspend: Option<State>)

  datatype Step =
    | Start(name: string, inspectOk: bool, run: L.RunOutcome, now: int)
    | Stop(inspectOk: bool, outcome: L.StopOutcome, now: int)
    | Reload(name: string, inspectOk: bool, outcome: L.StopOutcome, startInspectOk: bool, run: L.RunOutcome, now: int)
    | Reconcile(inspectOk: bool, now: int)
    | ContainerEvent(event: L.Event, now: int)
    | Poll(ok: bool, now: int)
    | Suspend(now: int)
    | Resume(inspectOk: bool, now: int)
    | Create(name: string, table: PF.Dict, writable: bool)
    | Update(name: string, table: PF.Dict, writable: bool)
    | Delete(name: string, writable: bool)
    | RecordPeak(name: string, used: Option<int>, at: string, first: bool, second: bool)
    | Die(code: int, removed: bool)

  /** A container that ends by itself is removed or left behind with its code. */
  function Died(w: L.Container, code: int, removed: bool): L.Container {
    match w
    case Running(id, args, _) => if removed then L.Absent else L.Exited(id, args, code)
    case _ => w
  }

  /** What a step does to the manager's part. */
  function CoreStep(s: System, step: Step): (L.Core, L.Reply) {
    var c := s.core;
    match step
    case Start(name, inspectOk, run, now) => L.Start(c, name, inspectOk, run, now)
    case Stop(inspectOk, outcome, now) => L.Stop(c, inspectOk, outcome, now)
    case Reload(name, inspectOk, outcome, startInspectOk, run, now) =>
      L.Reload(c, name, inspectOk, outcome, startInspectOk, run, now)
    case Reconcile(inspectOk, now) => L.Reconcile(c, inspectOk, now)
    case ContainerEvent(event, now) => (L.HandleEvent(c, event, now), L.Fine)
    case Poll(ok, now) => (c.(status := Health.Poll(c.status, s.streak, s.threshold, ok, now).0), L.Fine)
    case Suspend(now) => (c.(status := Moved(c.status, Suspended, NO_FIELDS, now)), L.Fine)
    case Resume(inspectOk, now) => if s.preSuspend.Some? then L.Reconcile(c, inspectOk, now) else (c, L.Fine)
    case Create(name, table, writable) => L.Create(c, name, table, writable)
    case Update(name, table, writable) => L.Update(c, name, table, writable)
    case Delete(name, writable) => L.Delete(c, name, writable)
    case RecordPeak(name, used, at, first, second) => L.RecordPeak(c, name, used, at, first, second)
    case Die(code, removed) => (c.(world := Died(c.world, code, removed)), L.Fine)
  }

  function Next(s: System, step: Step): System {
    System(
      CoreStep(s, step).0,
      s.threshold,
      if step.Poll? then Health.Poll(s.core.status, s.streak, s.threshold, step.ok, step.now).1 else s.streak,
      if step.Suspend? then Some(s.core.status.state) else if step.Resume? then None else s.preSuspend)
  }

  function Reply(s: System, step: Step): L.Reply {
    CoreStep(s, step).1
  }

  function Run(s: System, steps: seq<Step>): System
    decreases |steps|
  {
    if steps == [] then s else Next(Run(s, steps[..|steps| - 1]), steps[|steps| - 1])
  }

  /** Every step of a run meets a condition on the state it is taken in. */
  ghost predicate Along(s: System, steps: seq<Step>, ok: (System, Step) -> bool)
    decreases |steps|
  {
    steps == [] || (Along(s, steps[..|steps| - 1], ok) && ok(Run(s, steps[..|steps| - 1]), steps[|steps| - 1]))
  }
}
