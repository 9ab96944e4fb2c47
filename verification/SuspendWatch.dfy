/** The host power watcher: reading monitor lines, and acting once per suspend and resume. */
module SuspendWatch {
  import opened Wrappers
  import opened PyText
  import opened Tracker

  const LOGIND := "org.freedesktop.login1.Manager"

  // ---------------------------------------------------------------- reading a line

  /** How many characters in front are no space. */
  function WordLength(s: string): (n: nat)
    ensures n <= |s|
    ensures s != [] && !IsSpace(s[0]) ==> n > 0
  {
    if s == [] || IsSpace(s[0]) then 0 else 1 + WordLength(s[1..])
  }

  /** `line.split()`. */
  function Words(line: string): seq<string>
    decreases |line|
  {
    var s := LStrip(line);
    if s == [] then [] else [s[..WordLength(s)]] + Words(s[WordLength(s)..])
  }

  predicate AllSpace(s: string) {
    forall i | 0 <= i < |s| :: IsSpace(s[i])
  }

  predicate IsWord(s: string) {
    s != [] && forall i | 0 <= i < |s| :: !IsSpace(s[i])
  }

  /** A line of words with some space in front of each, and behind the last. */
  function Spaced(gaps: seq<string>, words: seq<string>, end: string): string
    requires |gaps| == |words|
  {
    if words == [] then end else gaps[0] + words[0] + Spaced(gaps[1..], words[1..], end)
  }

  lemma {:induction false} SpaceIsSkipped(gap: string, rest: string)
    requires AllSpace(gap) && (rest == [] || !IsSpace(rest[0]))
    ensures LStrip(gap + rest) == rest
  {
    hide IsSpace;
    if gap == [] {
      assert gap + rest == rest;
    } else {
      assert (gap + rest)[1..] == gap[1..] + rest;
      SpaceIsSkipped(gap[1..], rest);
    }
  }

  lemma {:induction false} WordIsTaken(word: string, rest: string)
    requires (forall i | 0 <= i < |word| :: !IsSpace(word[i])) && (rest == [] || IsSpace(rest[0]))
    ensures WordLength(word + rest) == |word|
  {
    hide IsSpace;
    if word == [] {
      assert word + rest == rest;
    } else {
      assert (word + rest)[1..] == word[1..] + rest;
      WordIsTaken(word[1..], rest);
    }
  }

  /** Splitting gives back the words of a line, however they are spaced. */
  lemma {:induction false} WordsBack(gaps: seq<string>, words: seq<string>, end: string)
    requires |gaps| == |words| && AllSpace(end)
    requires forall i | 0 <= i < |words| :: IsWord(words[i]) && AllSpace(gaps[i]) && (i > 0 ==> gaps[i] != [])
    ensures Words(Spaced(gaps, words, end)) == words
    decreases |words|
  {
    hide IsSpace, LStrip;
    if words == [] {
      assert end + [] == end;
      SpaceIsSkipped(end, []);
    } else {
      var rest := Spaced(gaps[1..], words[1..], end);
      assert Spaced(gaps, words, end) == gaps[0] + (words[0] + rest);
      SpaceIsSkipped(gaps[0], words[0] + rest);
      assert rest != [] ==> IsSpace(rest[0]);
      WordIsTaken(words[0], rest);
      WordsBack(gaps[1..], words[1..], end);
    }
  }

  function WordAt(words: seq<string>, i: nat): string {
    if i < |words| then words[i] else ""
  }

  /** The fields of a monitor line that decide what it means. */
  datatype Message = Message(interface: string, member: string, arg: string)

  /** A word that names the interface, or ends in its name behind a dot. */
  predicate IsInterface(word: string) {
    StartsWith(word, "org.") && (word == LOGIND || EndsWith(word, "." + LOGIND))
  }

  /** The bus's own name of the interface is one of these words, whatever stands between a leading `org.` and it. */
  lemma InterfaceWords(between: string)
    ensures IsInterface("org.freedesktop.login1.Manager") && IsInterface("org." + between + "." + "org.freedesktop.login1.Manager")
  {
    var word, tail := "org." + between + "." + "org.freedesktop.login1.Manager", "." + LOGIND;
    assert word == ("org." + between) + tail;
    assert word[|word| - |tail|..] == tail && word[..4] == "org.";
  }

  /** The first interface word decides, with the two words after it. */
  function MatchWords(words: seq<string>): Message {
    if words == [] then Message("", "", "")
    else if IsInterface(words[0]) then Message(words[0], WordAt(words, 1), WordAt(words, 2))
    else MatchWords(words[1..])
  }

  function MatchFields(line: string): Message {
    var words := Words(line);
    if words != [] && words[0] == "signal" then Message(WordAt(words, 2), WordAt(words, 3), WordAt(words, 4))
    else MatchWords(words)
  }

  function ParseLine(line: string): Option<bool> {
    var f := MatchFields(line);
    if f.interface != LOGIND || f.member != "PrepareForSleep" then None
    else if f.arg == "true" then Some(true)
    else if f.arg == "false" then Some(false)
    else None
  }

  /** The search as the program runs it, leaving at the first interface word. */
  method FindInterface(words: seq<string>) returns (f: Message)
    ensures f == MatchWords(words)
  {
    assert words[0..] == words;
    for i := 0 to |words|
      invariant MatchWords(words) == MatchWords(words[i..])
    {
      assert words[i..][1..] == words[i + 1..];
      if IsInterface(words[i]) {
        return Message(words[i], WordAt(words, i + 1), WordAt(words, i + 2));
      }
    }
    return Message("", "", "");
  }

  /** Position of the first interface word, or the number of words. */
  function InterfaceAt(words: seq<string>): (n: nat)
    ensures n <= |words|
    ensures forall i | 0 <= i < n :: !IsInterface(words[i])
    ensures n < |words| ==> IsInterface(words[n])
  {
    if words == [] || IsInterface(words[0]) then 0 else 1 + InterfaceAt(words[1..])
  }

  lemma {:induction false} MatchWordsAt(words: seq<string>)
    ensures var n := InterfaceAt(words);
      MatchWords(words) == if n < |words| then Message(words[n], WordAt(words, n + 1), WordAt(words, n + 2)) else Message("", "", "")
  {
    if words != [] && !IsInterface(words[0]) {
      MatchWordsAt(words[1..]);
    }
  }

  /** The three words of a sleep signal at some place. */
  predicate SignalAt(words: seq<string>, n: nat, suspending: bool) {
    && n + 2 < |words| && words[n] == "org.freedesktop.login1.Manager" && words[n + 1] == "PrepareForSleep"
    && words[n + 2] == (if suspending then "true" else "false")
  }

  /**
   * Which lines are sleep signals: the three words stand behind `signal` and a
   * path, or they stand where the first interface word is. A word that only ends
   * in the interface's name therefore hides an exact one behind it.
   */
  lemma ParseLineExactly(line: string, suspending: bool)
    ensures var words := Words(line);
      ParseLine(line) == Some(suspending) <==>
        if words != [] && words[0] == "signal" then SignalAt(words, 2, suspending) else SignalAt(words, InterfaceAt(words), suspending)
  {
    hide Words, IsInterface;
    MatchWordsAt(Words(line));
  }

  // ---------------------------------------------------------------- acting on signals

  /** The sleep signals among monitor lines: true for suspend, false for resume. */
  function Signals(lines: seq<string>): seq<bool>
    decreases |lines|
  {
    if lines == [] then []
    else
      var last := ParseLine(lines[|lines| - 1]);
      Signals(lines[..|lines| - 1]) + if last.Some? then [last.value] else []
  }

  predicate FirstResumeAt(signals: seq<bool>, i: int) {
    0 < i < |signals| && !signals[i] && signals[i - 1]
  }

  /** The resume signals that directly follow a suspend signal. */
  ghost function FirstResumes(signals: seq<bool>): set<int> {
    set i | 0 < i < |signals| && FirstResumeAt(signals, i)
  }

  /** Whether a suspend has not been followed by a resume yet. */
  predicate Pending(signals: seq<bool>) {
    signals != [] && signals[|signals| - 1]
  }

  lemma SignalsStep(lines: seq<string>, i: nat)
    requires i < |lines|
    ensures Signals(lines[..i + 1])
         == Signals(lines[..i]) + if ParseLine(lines[i]).Some? then [ParseLine(lines[i]).value] else []
  {
    hide ParseLine;
    assert lines[..i + 1][..i] == lines[..i];
  }

  lemma FirstResumesStep(signals: seq<bool>, next: bool)
    ensures |FirstResumes(signals + [next])| == |FirstResumes(signals)| + if Pending(signals) && !next then 1 else 0
  {
    var more, before := signals + [next], FirstResumes(signals);
    if Pending(signals) && !next {
      assert FirstResumes(more) == before + {|signals|};
    } else {
      assert FirstResumes(more) == before;
    }
  }

  /** What one more line adds. */
  lemma WatchStep(lines: seq<string>, i: nat)
    requires i < |lines|
    ensures var before, after, t := Signals(lines[..i]), Signals(lines[..i + 1]), ParseLine(lines[i]);
      && Pending(after) == (if t.Some? then t.value else Pending(before))
      && |FirstResumes(after)| == |FirstResumes(before)| + if t == Some(false) && Pending(before) then 1 else 0
  {
    hide ParseLine, Signals, FirstResumes;
    SignalsStep(lines, i);
    if ParseLine(lines[i]).Some? {
      FirstResumesStep(Signals(lines[..i]), ParseLine(lines[i]).value);
    } else {
      assert Signals(lines[..i]) + [] == Signals(lines[..i]);
    }
  }

  class PowerStateWatcher {
    const tracker: InstanceTracker
    var preSuspendState: Option<State>
    var resumeCalls: nat

    constructor (tracker: InstanceTracker)
      ensures this.tracker == tracker && preSuspendState == None && resumeCalls == 0
    {
      this.tracker := tracker;
      preSuspendState := None;
      resumeCalls := 0;
    }

    method HandleSuspendStart(now: int)
      modifies this, tracker
      ensures preSuspendState == Some(old(tracker.status.state)) && resumeCalls == old(resumeCalls)
      ensures tracker.status == Moved(old(tracker.status), Suspended, NO_FIELDS, now)
    {
      var status := tracker.Snapshot();
      preSuspendState := Some(status.state);
      tracker.Transition(Suspended, NO_FIELDS, now);
    }

    /** Whether the resume callback is to be called. */
    method HandleResume() returns (call: bool)
      modifies this
      ensures call == old(preSuspendState).Some? && preSuspendState == None
      ensures resumeCalls == old(resumeCalls) + if call then 1 else 0
    {
      if preSuspendState.None? {
        return false;
      }
      preSuspendState := None;
      resumeCalls := resumeCalls + 1;
      return true;
    }

    /**
     * A stream of monitor lines, from a fresh watcher: the callback is called
     * once for every resume signal whose preceding signal is a suspend, and
     * never for another.
     */
    method Watch(lines: seq<string>, now: int)
      requires preSuspendState == None && resumeCalls == 0
      modifies this, tracker
      ensures resumeCalls == |FirstResumes(Signals(lines))|
      ensures preSuspendState.Some? <==> Pending(Signals(lines))
    {
      for i := 0 to |lines|
        invariant resumeCalls == |FirstResumes(Signals(lines[..i]))|
        invariant preSuspendState.Some? <==> Pending(Signals(lines[..i]))
      {
        hide ParseLine, Signals, FirstResumes, Pending;
        WatchStep(lines, i);
        var transition := ParseLine(lines[i]);
        if transition == Some(true) {
          HandleSuspendStart(now);
        } else if transition == Some(false) {
          var _ := HandleResume();
        }
      }
      assert lines[..|lines|] == lines;
    }
  }
}
