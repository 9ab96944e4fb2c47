/** Health polling: a streak of failed probes degrades the instance, a good one makes it ready. */
module Health {
  import opened Tracker

  /** Only a server that should be answering is probed. */
  predicate Probed(s: State) {
    s == Loading || s == Ready || s == Degraded
  }

  /** What one poll writes, given the state it saw, the status it finds when it writes, and the probe's answer. */
  function Answer(seen: State, status: Status, streak: nat, threshold: int, ok: bool, now: int): (Status, nat)
    requires Probed(seen)
  {
    if ok then (Moved(status, Ready, NO_FIELDS, now), 0)
    else if (seen == Loading || seen == Ready) && streak + 1 >= threshold then (Moved(status, Degraded, NO_FIELDS, now), 0)
    else (status, streak + 1)
  }

  function Poll(status: Status, streak: nat, threshold: int, ok: bool, now: int): (Status, nat) {
    if Probed(status.state) then Answer(status.state, status, streak, threshold, ok, now) else (status, streak)
  }

  class HealthPoller {
    const tracker: InstanceTracker
    const failureThreshold: int
    var consecutiveFailures: nat

    constructor (tracker: InstanceTracker, failureThreshold: int)
      ensures this.tracker == tracker && this.failureThreshold == failureThreshold && consecutiveFailures == 0
    {
      this.tracker, this.failureThreshold := tracker, failureThreshold;
      consecutiveFailures := 0;
    }

    method PollOnce(ok: bool, now: int) returns (answered: bool)
      modifies this, tracker
      ensures (tracker.status, consecutiveFailures) == Poll(old(tracker.status), old(consecutiveFailures), failureThreshold, ok, now)
      ensures answered == (ok && Probed(old(tracker.status.state)))
      ensures !answered && tracker.status != old(tracker.status) ==>
        tracker.status == old(tracker.status).(state := Degraded, since := now) && consecutiveFailures == 0
    {
      var status := tracker.Snapshot();
      if !Probed(status.state) {
        return false;
      }
      if ok {
        consecutiveFailures := 0;
        tracker.Transition(Ready, NO_FIELDS, now);
        return true;
      }
      consecutiveFailures := consecutiveFailures + 1;
      if (status.state == Loading || status.state == Ready) && consecutiveFailures >= failureThreshold {
        tracker.Transition(Degraded, NO_FIELDS, now);
        consecutiveFailures := 0;
      }
      return false;
    }
  }

  // ---------------------------------------------------------------- the streak over a run

  /** One issued probe, as an observer of the tracker sees it: answered, missed, or missed and followed by a demotion. */
  datatype Probe = Good | Bad | Demotion

  /** The failed probes since the last good one or the last demotion. */
  function FailuresSince(log: seq<Probe>): (n: nat)
    ensures n <= |log|
    ensures forall i | |log| - n <= i < |log| :: log[i] == Bad
    ensures n < |log| ==> log[|log| - n - 1] != Bad
    decreases |log|
  {
    if log == [] || log[|log| - 1] != Bad then 0 else 1 + FailuresSince(log[..|log| - 1])
  }

  /** Every demotion is the last of `threshold` failed probes in a row, counted afresh after the one before. */
  ghost predicate DemotionsEarned(log: seq<Probe>, threshold: int) {
    forall i | 0 <= i < |log| && log[i] == Demotion ::
      threshold <= i + 1 && forall j | 0 <= j < i && i + 1 - threshold <= j :: log[j] == Bad
  }

  /** What a poll adds to the log, told from the tracker before and after it. */
  function Observed(before: Status, after: Status, ok: bool): seq<Probe> {
    if !Probed(before.state) then []
    else if ok then [Good]
    else if before.state != Degraded && after.state == Degraded then [Demotion]
    else [Bad]
  }

  /**
   * A poll keeps the counter equal to the log's count. It demotes exactly when
   * a probe of a server that is not degraded yet completes `threshold` failures.
   */
  lemma PollKeepsStreak(status: Status, streak: nat, threshold: int, ok: bool, now: int, log: seq<Probe>)
    requires streak == FailuresSince(log) && DemotionsEarned(log, threshold)
    ensures var (status', streak') := Poll(status, streak, threshold, ok, now);
      var log' := log + Observed(status, status', ok);
      && streak' == FailuresSince(log') && DemotionsEarned(log', threshold)
      && (status'.state == Degraded && status.state != Degraded
          <==> !ok && Probed(status.state) && status.state != Degraded && FailuresSince(log) + 1 >= threshold)
  {
    hide FailuresSince, DemotionsEarned;
    var added := Observed(status, Poll(status, streak, threshold, ok, now).0, ok);
    if added == [] {
      assert log + added == log;
    } else {
      assert added == [added[0]];
      StreakStep(log, added[0]);
      EarnedStep(log, added[0], threshold);
    }
  }

  lemma StreakStep(log: seq<Probe>, next: Probe)
    ensures FailuresSince(log + [next]) == if next == Bad then FailuresSince(log) + 1 else 0
  {
    assert (log + [next])[..|log|] == log;
  }

  lemma EarnedStep(log: seq<Probe>, next: Probe, threshold: int)
    requires DemotionsEarned(log, threshold) && (next == Demotion ==> FailuresSince(log) + 1 >= threshold)
    ensures DemotionsEarned(log + [next], threshold)
  {
    var n := FailuresSince(log);
    assert forall i | |log| - n <= i < |log| :: log[i] == Bad;
    hide FailuresSince;
  }

  /**
   * What a poll does to the tracker: an answered one leaves a server that should
   * be answering ready, with its other fields kept; a missed one leaves the whole
   * status alone unless it completes the threshold of a server that is not
   * degraded yet; any other server is not touched.
   */
  lemma PollSays(before: Status, streak: nat, threshold: int, ok: bool, now: int, after: Status, streak': nat)
    requires Poll(before, streak, threshold, ok, now) == (after, streak')
    ensures before.state !in {Loading, Ready, Degraded} ==> after == before && streak' == streak
    ensures before.state in {Loading, Ready, Degraded} && ok ==>
      after == before.(state := Ready, since := if before.state == Ready then before.since else now) && streak' == 0
    ensures before.state in {Loading, Ready, Degraded} && !ok ==>
      if before.state != Degraded && streak + 1 >= threshold
      then after == before.(state := Degraded, since := now) && streak' == 0
      else after == before && streak' == streak + 1
  {
  }
}
