/** What a profile's measured peak is, over every run, and that measuring never changes how it runs. */
module Measurements {
  import opened Wrappers
  import opened Config
  import opened Machine
  import L = Lifecycle
  import StoreSync
  import LaunchRuns

  /** What is known of a profile: how it was last created or updated, and the readings recorded since. */
  datatype History = History(base: Profile, readings: seq<int>)

  /** What a step that was answered so, and left these profiles, adds to the history. */
  function NextHistory(h: Option<History>, step: Step, reply: L.Reply, after: map<string, Profile>, name: string): Option<History> {
    match step
    case Create(n, _, _) => if n == name && reply == L.Fine && n in after then Some(History(after[n], [])) else h
    case Update(n, _, _) => if n == name && reply == L.Fine && n in after then Some(History(after[n], [])) else h
    case Delete(n, _) => if n == name && reply == L.Fine then None else h
    case RecordPeak(n, used, _, _, _) =>
      if n == name && used.Some? && h.Some? then Some(History(h.value.base, h.value.readings + [used.value])) else h
    case _ => h
  }

  /** The history of a profile over a run; what is configured at first counts as created then. */
  function HistoryOf(s: System, steps: seq<Step>, name: string): Option<History>
    decreases |steps|
  {
    if steps == [] then (if name in s.core.profiles then Some(History(s.core.profiles[name], [])) else None)
    else
      var before, last := steps[..|steps| - 1], steps[|steps| - 1];
      NextHistory(HistoryOf(s, before, name), last, Reply(Run(s, before), last), Run(s, steps).core.profiles, name)
  }

  /** An absent peak counts as zero. */
  function Known(p: Profile): int {
    if p.peakBytes.Some? then p.peakBytes.value else 0
  }

  predicate IsMaximum(m: int, first: int, rest: seq<int>) {
    && (m == first || m in rest)
    && first <= m && forall r | r in rest :: r <= m
  }

  /** The profile is as it was created, but for its peak, which is the largest value known then or read since. */
  predicate Measured(p: Profile, h: History) {
    && StoreSync.SameButMeasured(p, h.base)
    && IsMaximum(Known(p), Known(h.base), h.readings)
    && (p.peakBytes.None? <==> h.base.peakBytes.None? && forall r | r in h.readings :: r <= 0)
  }

  predicate Told(profiles: map<string, Profile>, name: string, h: Option<History>) {
    if h.None? then name !in profiles else name in profiles && Measured(profiles[name], h.value)
  }

  lemma MaximumGrows(m: int, first: int, rest: seq<int>, r: int)
    requires IsMaximum(m, first, rest)
    ensures IsMaximum(if r > m then r else m, first, rest + [r])
  {
    assert forall x :: x in rest + [r] <==> x in rest || x == r;
  }

  lemma RecordMeasured(p: Profile, h: History, used: int, at: string)
    requires Measured(p, h)
    ensures Measured(if used > Known(p) then p.(peakBytes := Some(used), peakAt := Some(at)) else p, History(h.base, h.readings + [used]))
  {
    MaximumGrows(Known(p), Known(h.base), h.readings, used);
    hide IsMaximum;
    assert forall x :: x in h.readings + [used] <==> x in h.readings || x == used;
  }

  lemma RecordTold(profiles: map<string, Profile>, h: Option<History>, step: Step, name: string, reply: L.Reply)
    requires step.RecordPeak? && Told(profiles, name, h)
    ensures var grows := step.used.Some? && step.name in profiles && step.used.value > Known(profiles[step.name]);
      var after := if grows then profiles[step.name := profiles[step.name].(peakBytes := step.used, peakAt := Some(step.at))] else profiles;
      Told(after, name, NextHistory(h, step, reply, after, name))
  {
    hide Measured;
    if step.name == name && step.used.Some? && h.Some? {
      RecordMeasured(profiles[name], h.value, step.used.value, step.at);
    }
  }

  lemma PutTold(profiles: map<string, Profile>, h: Option<History>, step: Step, name: string, p: Profile)
    requires (step.Create? || step.Update?) && Told(profiles, name, h)
    ensures var after := profiles[step.name := p]; Told(after, name, NextHistory(h, step, L.Fine, after, name))
  {
    hide Measured;
    NothingMeasured(p);
  }

  lemma DropTold(profiles: map<string, Profile>, h: Option<History>, step: Step, name: string)
    requires step.Delete? && Told(profiles, name, h)
    ensures var after := profiles - {step.name}; Told(after, name, NextHistory(h, step, L.Fine, after, name))
  {
    hide Measured;
  }

  lemma RefusedTold(profiles: map<string, Profile>, h: Option<History>, step: Step, name: string, reply: L.Reply)
    requires !step.RecordPeak? && ((step.Create? || step.Update? || step.Delete?) ==> reply != L.Fine) && Told(profiles, name, h)
    ensures Told(profiles, name, NextHistory(h, step, reply, profiles, name))
  {
  }

  lemma AcceptedTold(s: System, h: Option<History>, step: Step, name: string)
    requires Told(s.core.profiles, name, h) && Reply(s, step) == L.Fine && (step.Create? || step.Update? || step.Delete?)
    ensures Told(Next(s, step).core.profiles, name, NextHistory(h, step, Reply(s, step), Next(s, step).core.profiles, name))
  {
    var c := s.core;
    hide L.Create, L.Update, L.Delete, Told, NextHistory, LoadProfile;
    match step {
      case Create(n, table, writable) =>
        var p := StoreSync.CreateIs(c, n, table, writable);
        PutTold(c.profiles, h, step, name, p);
      case Update(n, table, writable) =>
        var p := StoreSync.UpdateIs(c, n, table, writable);
        PutTold(c.profiles, h, step, name, p);
      case Delete(n, writable) =>
        StoreSync.DeleteIs(c, n, writable);
        DropTold(c.profiles, h, step, name);
    }
  }

  lemma StepTold(s: System, h: Option<History>, step: Step, name: string)
    requires Told(s.core.profiles, name, h)
    ensures Told(Next(s, step).core.profiles, name, NextHistory(h, step, Reply(s, step), Next(s, step).core.profiles, name))
  {
    hide Told, NextHistory, L.RecordPeak, L.WritePeak, CoreStep, StoreSync.SameStore;
    if step.RecordPeak? {
      RecordingTold(s, h, step, name);
    } else if !StoreSync.Edits(step) {
      hide Next, Reply;
      StoreSync.StoreFrame(s, step);
      StoreSync.SameProfiles(s.core, Next(s, step).core);
      RefusedTold(s.core.profiles, h, step, name, Reply(s, step));
    } else if Reply(s, step) == L.Fine {
      hide Next, Reply;
      AcceptedTold(s, h, step, name);
    } else {
      hide Next, Reply;
      StoreSync.RefusedChangesNothing(s, step);
      RefusedTold(s.core.profiles, h, step, name, Reply(s, step));
    }
  }

  lemma RecordingTold(s: System, h: Option<History>, step: Step, name: string)
    requires Told(s.core.profiles, name, h) && step.RecordPeak?
    ensures Told(Next(s, step).core.profiles, name, NextHistory(h, step, Reply(s, step), Next(s, step).core.profiles, name))
  {
    hide Told, NextHistory, L.RecordPeak, L.WritePeak;
    StoreSync.RecordIs(s.core, step.name, step.used, step.at, step.first, step.second);
    RecordTold(s.core.profiles, h, step, name, Reply(s, step));
  }

  /** Over every run a measured peak is the maximum of the value at the last create or update and the readings since. */
  lemma {:induction false} PeakIsMaximum(s: System, steps: seq<Step>, name: string)
    ensures Told(Run(s, steps).core.profiles, name, HistoryOf(s, steps, name))
    decreases |steps|
  {
    hide Next, Reply, NextHistory, Measured;
    if steps == [] {
      if name in s.core.profiles {
        NothingMeasured(s.core.profiles[name]);
      }
    } else {
      PeakIsMaximum(s, steps[..|steps| - 1], name);
      StepTold(Run(s, steps[..|steps| - 1]), HistoryOf(s, steps[..|steps| - 1], name), steps[|steps| - 1], name);
    }
  }

  lemma NothingMeasured(p: Profile)
    ensures Measured(p, History(p, []))
  {
  }

  /** However often its peak was recorded, a profile is launched with the words of the day it was created or updated. */
  lemma RecordingKeepsRendering(s: System, steps: seq<Step>, name: string, tag: string)
    requires HistoryOf(s, steps, name).Some?
    ensures name in Run(s, steps).core.profiles
    ensures var c := Run(s, steps).core;
      && PodmanArgs(c.profiles[name], c.common) == PodmanArgs(HistoryOf(s, steps, name).value.base, c.common)
      && L.LaunchArgs(c.profiles[name], c.common, tag) == L.LaunchArgs(HistoryOf(s, steps, name).value.base, c.common, tag)
  {
    hide Run, HistoryOf, PodmanArgs, L.LaunchArgs;
    PeakIsMaximum(s, steps, name);
    var c := Run(s, steps).core;
    var p, base := c.profiles[name], HistoryOf(s, steps, name).value.base;
    assert p == base.(peakBytes := p.peakBytes, peakAt := p.peakAt);
    RenderingIgnoresMeasurements(base, c.common, p.peakBytes, p.peakAt);
    LaunchRuns.LaunchIgnoresMeasurements(base, c.common, tag, p.peakBytes, p.peakAt);
  }
}
