/** The state of the single model instance, as every thread sees it. */
module Tracker {
  import opened Wrappers

  datatype State = Stopped | Starting | Loading | Ready | Degraded | Crashed | Suspended

  datatype Status = Status(
    state: State, profile: Option<string>, containerId: Option<string>, since: int,
    exitCode: Option<int>, logTail: seq<string>, message: Option<string>)

  /** Keyword fields of a transition: those that are given are set. */
  datatype Given<T> = Keep | Set(value: T) {
    function Or(current: T): T {
      if Set? then value else current
    }
  }

  datatype Fields = Fields(
    profile: Given<Option<string>>, containerId: Given<Option<string>>, exitCode: Given<Option<int>>,
    logTail: Given<seq<string>>, message: Given<Option<string>>)

  const NO_FIELDS := Fields(Keep, Keep, Keep, Keep, Keep)

  /** A status moved to a state at a time. */
  function Moved(s: Status, state: State, f: Fields, now: int): Status {
    var since := if state != s.state then now else s.since;
    if state == Stopped then Status(Stopped, None, None, since, None, [], s.message)
    else Status(state, f.profile.Or(s.profile), f.containerId.Or(s.containerId), since,
                f.exitCode.Or(s.exitCode), f.logTail.Or(s.logTail), f.message.Or(s.message))
  }

  function Initial(now: int): Status {
    Status(Stopped, None, None, now, None, [], None)
  }

  class InstanceTracker {
    var status: Status

    constructor (now: int)
      ensures status == Initial(now)
    {
      status := Initial(now);
    }

    method Snapshot() returns (s: Status)
      ensures s == status
    {
      return status;
    }

    /** Moves the instance, field by field. */
    method Transition(state: State, f: Fields, now: int)
      modifies this
      ensures status == Moved(old(status), state, f, now)
    {
      if state != status.state {
        status := status.(since := now);
      }
      status := status.(state := state);
      if state == Stopped {
        status := status.(profile := None);
        status := status.(containerId := None);
        status := status.(exitCode := None);
        status := status.(logTail := []);
      } else {
        if f.profile.Set? {
          status := status.(profile := f.profile.value);
        }
        if f.containerId.Set? {
          status := status.(containerId := f.containerId.value);
        }
        if f.exitCode.Set? {
          status := status.(exitCode := f.exitCode.value);
        }
        if f.logTail.Set? {
          status := status.(logTail := f.logTail.value);
        }
        if f.message.Set? {
          status := status.(message := f.message.value);
        }
      }
    }

    /** Stores a message beside the state (a stop drops the ones it is given). */
    method SetMessage(message: Option<string>)
      modifies this
      ensures status == old(status).(message := message)
    {
      status := status.(message := message);
    }

    method SetExitCode(code: Option<int>)
      modifies this
      ensures status == old(status).(exitCode := code)
    {
      status := status.(exitCode := code);
    }
  }

  // ---------------------------------------------------------------- runs of transitions

  datatype Move = Move(state: State, fields: Fields, now: int)

  function MovedAll(s: Status, moves: seq<Move>): Status
    decreases |moves|
  {
    if moves == [] then s
    else
      var last := moves[|moves| - 1];
      Moved(MovedAll(s, moves[..|moves| - 1]), last.state, last.fields, last.now)
  }

  /** The moves at the end of a run that all lead to the state the run ends in. */
  function Settled(s: Status, moves: seq<Move>): (n: nat)
    ensures n <= |moves|
    decreases |moves|
  {
    if moves == [] then 0
    else if MovedAll(s, moves).state != MovedAll(s, moves[..|moves| - 1]).state then 0
    else 1 + Settled(s, moves[..|moves| - 1])
  }

  /**
   * A move sets the state and the fields that are given; a stop clears who ran
   * and how it ended, whatever is given, and keeps the message.
   */
  lemma MoveSays(s: Status, state: State, f: Fields, now: int)
    ensures var t := Moved(s, state, f, now);
      && t.state == state && (state == s.state ==> t.since == s.since) && (state != s.state ==> t.since == now)
      && (state == Stopped ==> t.profile.None? && t.containerId.None? && t.exitCode.None? && t.logTail == [] && t.message == s.message)
      && (state != Stopped ==>
        && t.profile == (if f.profile.Set? then f.profile.value else s.profile)
        && t.containerId == (if f.containerId.Set? then f.containerId.value else s.containerId)
        && t.exitCode == (if f.exitCode.Set? then f.exitCode.value else s.exitCode)
        && t.logTail == (if f.logTail.Set? then f.logTail.value else s.logTail)
        && t.message == (if f.message.Set? then f.message.value else s.message))
  {
  }

  /** `since` is the time of the last move that changed the state, whatever repeats followed it. */
  lemma {:induction false} SinceIsLastChange(s: Status, moves: seq<Move>)
    ensures var k := |moves| - Settled(s, moves);
      MovedAll(s, moves).since == if k == 0 then s.since else moves[k - 1].now
    decreases |moves|
  {
    if moves != [] {
      SinceIsLastChange(s, moves[..|moves| - 1]);
    }
  }
}
