/** Setting one value of a profile: exactly when it changes that value and nothing else. */
module SetRefinement {
  import opened Wrappers
  import opened PyText
  import opened TomlValue
  import opened ProfileFile
  import opened LineFacts
  import opened FileReading
  import opened FileEdits
  import opened FileRefinement

  /** Some line of the block defines the key in a way the editor's test does not see (a tab after the key). */
  ghost predicate HiddenPair(lines: seq<string>, start: nat, end: nat, key: string) {
    exists i | start < i < end <= |lines| :: Classify(lines[i]).PairLine? && Classify(lines[i]).key == key && !DefinesKey(lines[i], key)
  }

  /** What a set makes of a block's own lines: one replaced, or one put in. */
  lemma SetLineParts(lines: seq<string>, start: nat, end: nat, key: string, newLine: string)
    returns (x: seq<string>, replaced: seq<string>, y: seq<string>)
    requires start < end <= |lines|
    ensures lines[start + 1..end] == x + replaced + y
    ensures SetLine(lines, start, end, key, newLine) == lines[..start] + ([lines[start]] + (x + ([newLine] + y))) + lines[end..]
    ensures replaced == [] ==>
      && (forall i | start < i < end :: !DefinesKey(lines[i], key))
      && (forall i | 0 <= i < |y| :: Strip(y[i]) == "")
    ensures replaced != [] ==> |replaced| == 1 && DefinesKey(replaced[0], key)
  {
    hide DefinesKey, Strip;
    var i := Find(lines[..end], start + 1, line => DefinesKey(line, key));
    if i < end {
      x, replaced, y := lines[start + 1..i], [lines[i]], lines[i + 1..end];
      ReplaceParts(lines, start, i, end, newLine);
    } else {
      var at := InsertionPoint(lines, start, end);
      x, replaced, y := lines[start + 1..at], [], lines[at..end];
      InsertParts(lines, start, at, end, newLine);
    }
  }

  lemma ReplaceParts(lines: seq<string>, start: nat, i: nat, end: nat, newLine: string)
    requires start < i < end <= |lines|
    ensures lines[start + 1..end] == lines[start + 1..i] + [lines[i]] + lines[i + 1..end]
    ensures lines[i := newLine]
         == lines[..start] + ([lines[start]] + (lines[start + 1..i] + ([newLine] + lines[i + 1..end]))) + lines[end..]
  {
  }

  lemma InsertParts(lines: seq<string>, start: nat, at: nat, end: nat, newLine: string)
    requires start < at <= end <= |lines|
    ensures lines[start + 1..end] == lines[start + 1..at] + [] + lines[at..end]
    ensures lines[..at] + [newLine] + lines[at..]
         == lines[..start] + ([lines[start]] + (lines[start + 1..at] + ([newLine] + lines[at..end]))) + lines[end..]
  {
  }

  /** Replacing the line of a key inside a block. */
  lemma ReplacePair(doc: Doc, s: Section, key: string, x: seq<string>, line: string, y: seq<string>, newLine: string, v: Value, m: map<string, Value>)
    requires Body(x) && Body(y)
    requires Classify(line).PairLine? && Classify(line).key == key && Classify(newLine) == PairLine(key, v)
    requires ReadLines(Reading(doc[s := map[]], Some(s)), x + ([line] + y)) == Reading(doc[s := m], Some(s))
    ensures ReadLines(Reading(doc[s := map[]], Some(s)), x + ([newLine] + y)) == Reading(doc[s := m[key := v]], Some(s))
  {
    hide Classify, ReadLines, ReadLine, Body;
    var empty := Reading(doc[s := map[]], Some(s));
    ReadConcat(empty, x, [line] + y);
    ReadConcat(empty, x, [newLine] + y);
    BrokenStays([line] + y);
    var n := BodyReads(doc, s, map[], x);
    var at := Reading(doc[s := n], Some(s));
    ReadConcat(at, [line], y);
    ReadConcat(at, [newLine], y);
    ReadOne(at, line);
    ReadOne(at, newLine);
    ReadPairLine(doc, s, n, line);
    ReadPairLine(doc, s, n, newLine);
    BrokenStays(y);
    var w := Classify(line).value;
    assert key !in n;
    BodyKeys(doc, s, n[key := w], key, y);
    var r := KeyFrame(doc, s, n, key, w, v, y);
    SameTable(doc, s, m, r[key := w]);
    assert r[key := w][key := v] == r[key := v];
  }

  lemma SameTable(doc: Doc, s: Section, m: map<string, Value>, n: map<string, Value>)
    requires doc[s := m] == doc[s := n]
    ensures m == n
  {
    assert doc[s := m][s] == doc[s := n][s];
  }

  /** Putting a new line behind a block's last pair: right if the key is new there, fatal if it is not. */
  lemma InsertPair(doc: Doc, s: Section, key: string, x: seq<string>, y: seq<string>, newLine: string, v: Value, m: map<string, Value>)
    requires Body(x) && Blank(y) && Classify(newLine) == PairLine(key, v)
    requires ReadLines(Reading(doc[s := map[]], Some(s)), x + y) == Reading(doc[s := m], Some(s))
    ensures ReadLines(Reading(doc[s := map[]], Some(s)), x + ([newLine] + y))
         == if key in m then Broken else Reading(doc[s := m[key := v]], Some(s))
  {
    hide Classify, ReadLines, ReadLine, Body, Blank;
    var empty := Reading(doc[s := map[]], Some(s));
    ReadConcat(empty, x, y);
    ReadConcat(empty, x, [newLine] + y);
    BlankLinesRead(ReadLines(empty, x), y);
    var at := Reading(doc[s := m], Some(s));
    ReadConcat(at, [newLine], y);
    ReadOne(at, newLine);
    ReadPairLine(doc, s, m, newLine);
    BrokenStays(y);
    if key !in m {
      BlankLinesRead(Reading(doc[s := m[key := v]], Some(s)), y);
    }
  }

  lemma BodyParts(a: seq<string>, b: seq<string>, c: seq<string>)
    requires Body(a + b + c)
    ensures Body(a) && Body(b) && Body(c)
  {
    hide Classify;
    assert forall i | 0 <= i < |a| :: (a + b + c)[i] == a[i];
    assert forall i | 0 <= i < |b| :: (a + b + c)[|a| + i] == b[i];
    assert forall i | 0 <= i < |c| :: (a + b + c)[|a| + |b| + i] == c[i];
  }

  /** The inside of a block once a pair is set. */
  lemma SetInside(lines: seq<string>, start: nat, end: nat, doc: Doc, s: Section, m: map<string, Value>, key: string, v: Value,
                  newLine: string, x: seq<string>, replaced: seq<string>, y: seq<string>)
    requires start < end <= |lines| && Meaningful(lines) && Body(x) && Body(y) && IsBareKey(key) && Classify(newLine) == PairLine(key, v)
    requires lines[start + 1..end] == x + replaced + y && Body(lines[start + 1..end])
    requires ReadLines(Reading(doc[s := map[]], Some(s)), lines[start + 1..end]) == Reading(doc[s := m], Some(s))
    requires replaced == [] ==>
      && (forall i | start < i < end :: !DefinesKey(lines[i], key))
      && (forall i | 0 <= i < |y| :: Strip(y[i]) == "")
    requires replaced != [] ==> |replaced| == 1 && DefinesKey(replaced[0], key)
    ensures ReadLines(Reading(doc[s := map[]], Some(s)), x + ([newLine] + y))
         == if HiddenPair(lines, start, end, key) then Broken else Reading(doc[s := m[key := v]], Some(s))
  {
    hide Classify, ReadLines, Meaningful, IsBareKey, Body, DefinesKey, HiddenPair, Strip;
    if replaced != [] {
      MeaningfulPart(lines, start, end, x, replaced, y);
      DefinesKeyMeans(replaced[0], key);
      assert x + replaced + y == x + ([replaced[0]] + y) && x + replaced + y == x + [replaced[0]] + y;
      ReplacePair(doc, s, key, x, replaced[0], y, newLine, v, m);
      NothingHidden(doc, s, key, lines, start, end, x, replaced[0], y);
    } else {
      BlanksMean(lines, start, end, x, y);
      assert x + replaced + y == x + y;
      InsertPair(doc, s, key, x, y, newLine, v, m);
      BodyKeys(doc, s, map[], key, lines[start + 1..end]);
      HiddenIs(lines, start, end, key);
    }
  }

  /** The block of a set, read from in front of it. */
  lemma SetBlock(lines: seq<string>, name: string, start: nat, end: nat, key: string, v: Value, newLine: string)
    returns (block: seq<string>, before: Reading, m: map<string, Value>)
    requires ReadLines(START, lines).Reading? && start < end <= |lines| && BlockAt(lines, name, start, end)
    requires IsBareKey(key) && Classify(newLine) == PairLine(key, v)
    ensures SetLine(lines, start, end, key, newLine) == lines[..start] + block + lines[end..]
    ensures before == ReadLines(START, lines[..start]) && before.Reading?
    ensures Profile(name) in ReadLines(START, lines).doc && m == ReadLines(START, lines).doc[Profile(name)]
    ensures ReadLines(before, block) ==
      if HiddenPair(lines, start, end, key) then Broken
      else Reading(before.doc[Profile(name) := m[key := v]], Some(Profile(name)))
  {
    var s := Profile(name);
    OpensBlock(lines, name, start, end);
    hide *;
    before, m := BlockReads(lines, name, start, end);
    BlockTable(lines, name, start, end, before, m);
    ReadableIsMeaningful(START, lines);
    var x, replaced, y := SetLineParts(lines, start, end, key, newLine);
    var inside := x + ([newLine] + y);
    block := [lines[start]] + inside;
    BodyParts(x, replaced, y);
    SetInside(lines, start, end, before.doc, s, m, key, v, newLine, x, replaced, y);
    ReadConcat(before, [lines[start]], inside);
    HeaderRead(before, lines[start], s);
  }

  lemma OpensBlock(lines: seq<string>, name: string, start: nat, end: nat)
    requires start < end <= |lines| && BlockAt(lines, name, start, end)
    ensures Classify(lines[start]) == HeaderLine(Profile(name)) && Body(lines[start + 1..end])
  {
    hide Classify;
  }

  lemma BlockTable(lines: seq<string>, name: string, start: nat, end: nat, before: Reading, m: map<string, Value>)
    requires ReadLines(START, lines).Reading? && start < end <= |lines| && BlockAt(lines, name, start, end) && before.Reading?
    requires ReadLines(Reading(before.doc[Profile(name) := m], Some(Profile(name))), lines[end..]) == ReadLines(START, lines)
    ensures Profile(name) in ReadLines(START, lines).doc && ReadLines(START, lines).doc[Profile(name)] == m
  {
    var s := Profile(name);
    var inside := Reading(before.doc[s := m], Some(s));
    hide Classify, ReadLines, BlockAt, NoHeader;
    NoLaterHeader(lines, name, start, end);
    TailFrame(inside, inside, lines[end..], s);
  }

  lemma NoLaterHeader(lines: seq<string>, name: string, start: nat, end: nat)
    requires start < end <= |lines| && BlockAt(lines, name, start, end)
    ensures NoHeader(lines[end..], Profile(name))
  {
    hide Classify, Body, StartsBlock;
    assert forall j | 0 <= j < |lines[end..]| :: lines[end..][j] == lines[start + 1..][end - start - 1 + j];
  }

  lemma MeaningfulPart(lines: seq<string>, start: nat, end: nat, x: seq<string>, replaced: seq<string>, y: seq<string>)
    requires start < end <= |lines| && Meaningful(lines) && lines[start + 1..end] == x + replaced + y && replaced != []
    ensures Classify(replaced[0]) != BadLine
  {
    hide Classify;
    assert replaced[0] == lines[start + 1..end][|x|] == lines[start + 1 + |x|];
  }

  lemma BlanksMean(lines: seq<string>, start: nat, end: nat, x: seq<string>, y: seq<string>)
    requires start < end <= |lines| && Meaningful(lines) && lines[start + 1..end] == x + [] + y
    requires forall i | 0 <= i < |y| :: Strip(y[i]) == ""
    ensures Blank(y)
  {
    hide Classify, Strip;
    forall i | 0 <= i < |y|
      ensures Classify(y[i]) == BlankLine
    {
      assert y[i] == lines[start + 1..end][|x| + i] == lines[start + 1 + |x| + i];
      EditorAgrees(y[i], "");
    }
  }

  /** A key that the editor's test finds is defined nowhere else in its block. */
  lemma NothingHidden(doc: Doc, s: Section, key: string, lines: seq<string>, start: nat, end: nat, x: seq<string>, line: string, y: seq<string>)
    requires start < end <= |lines| && lines[start + 1..end] == x + [line] + y && Body(x) && Body(y)
    requires Classify(line).PairLine? && Classify(line).key == key && DefinesKey(line, key)
    requires ReadLines(Reading(doc[s := map[]], Some(s)), x + ([line] + y)).Reading?
    ensures !HiddenPair(lines, start, end, key)
  {
    hide Classify, ReadLines, ReadLine, Body, DefinesKey;
    var empty := Reading(doc[s := map[]], Some(s));
    ReadConcat(empty, x, [line] + y);
    BrokenStays([line] + y);
    var n := BodyReads(doc, s, map[], x);
    ReadConcat(Reading(doc[s := n], Some(s)), [line], y);
    ReadOne(Reading(doc[s := n], Some(s)), line);
    ReadPairLine(doc, s, n, line);
    BrokenStays(y);
    BodyKeys(doc, s, map[], key, x);
    BodyKeys(doc, s, n[key := Classify(line).value], key, y);
    forall i | start < i < end
      ensures !(Classify(lines[i]).PairLine? && Classify(lines[i]).key == key && !DefinesKey(lines[i], key))
    {
      var j := i - start - 1;
      assert lines[i] == lines[start + 1..end][j];
      assert lines[i] == if j < |x| then x[j] else if j == |x| then line else y[j - |x| - 1];
    }
  }

  /** When the editor's test finds no line, a hidden pair is the same as a pair. */
  lemma HiddenIs(lines: seq<string>, start: nat, end: nat, key: string)
    requires start < end <= |lines| && forall i | start < i < end :: !DefinesKey(lines[i], key)
    ensures HiddenPair(lines, start, end, key) <==> !NoPair(lines[start + 1..end], key)
  {
    hide Classify, DefinesKey;
    if !NoPair(lines[start + 1..end], key) {
      var j :| 0 <= j < |lines[start + 1..end]| && Classify(lines[start + 1..end][j]).PairLine? && Classify(lines[start + 1..end][j]).key == key;
      assert lines[start + 1 + j] == lines[start + 1..end][j];
    }
    if HiddenPair(lines, start, end, key) {
      var i :| start < i < end && Classify(lines[i]).PairLine? && Classify(lines[i]).key == key && !DefinesKey(lines[i], key);
      assert lines[start + 1..end][i - start - 1] == lines[i];
    }
  }

  // ---------------------------------------------------------------- the result

  lemma SetLineGood(lines: seq<string>, start: nat, end: nat, key: string, newLine: string)
    requires start < end <= |lines| && AllNoBreaks(lines) && NoBreaks(newLine) && EditableLine(newLine)
    ensures var r := SetLine(lines, start, end, key, newLine);
      r != [] && AllNoBreaks(r) && (Editable(lines) ==> Editable(r))
  {
    hide NoBreaks, EditableLine, DefinesKey, Strip;
  }

  lemma SetLineNotEmpty(lines: seq<string>, start: nat, end: nat, key: string, newLine: string)
    requires start < end <= |lines|
    ensures SetLine(lines, start, end, key, newLine) != []
  {
    hide DefinesKey, Strip;
  }

  /** The lines of the file with one put in or replaced, for every value that can be printed. */
  lemma SetShape(text: string, name: string, key: string, v: Value, start: nat, end: nat)
    requires BlockSpan(SplitLines(text), name) == Some((start, end)) && PairText(key, v).Some?
    ensures start < end <= |SplitLines(text)|
    ensures SetText(text, name, key, v) == Ok(Terminated(SetLine(SplitLines(text), start, end, key, PairText(key, v).value)))
  {
    hide SplitLines, SetLine, Terminated, PairText, Find;
    SetLineNotEmpty(SplitLines(text), start, end, key, PairText(key, v).value);
    JoinTerminated(SetLine(SplitLines(text), start, end, key, PairText(key, v).value));
  }

  lemma SetLines(lines: seq<string>, name: string, start: nat, end: nat, key: string, v: Value, newLine: string)
    requires ReadLines(START, lines).Reading? && start < end <= |lines| && BlockAt(lines, name, start, end)
    requires IsBareKey(key) && Classify(newLine) == PairLine(key, v)
    ensures Profile(name) in ReadLines(START, lines).doc
    ensures var s := Profile(name); var doc := ReadLines(START, lines).doc;
      DocOf(ReadLines(START, SetLine(lines, start, end, key, newLine)))
      == if HiddenPair(lines, start, end, key) then None else Some(doc[s := doc[s][key := v]])
  {
    hide *;
    var s := Profile(name);
    var block, before, m := SetBlock(lines, name, start, end, key, v, newLine);
    if HiddenPair(lines, start, end, key) {
      ReadConcat(START, lines[..start] + block, lines[end..]);
      ReadConcat(START, lines[..start], block);
      BrokenStays(lines[end..]);
      DocOfBroken();
    } else {
      var n := m[key := v];
      OwnUpdate(before.doc, s, n);
      ReplaceBlock(lines, name, start, end, block);
      var r := ReadLines(START, lines[..start] + block + lines[end..]);
      SameAtIs(before.doc[s := n], r.doc, s, n);
      UpdateIs(ReadLines(START, lines).doc, r.doc, s, n);
      DocOfReading(r);
    }
  }

  lemma DocOfBroken()
    ensures DocOf(Broken) == None
  {
  }

  lemma SameAtIs(d: Doc, e: Doc, s: Section, m: map<string, Value>)
    requires SameAt(d, e, s) && s in d && d[s] == m
    ensures s in e && e[s] == m
  {
  }

  /**
   * Setting changes exactly one key of exactly the named profile if and only if
   * the block does not already define that key in a way the editor overlooks;
   * if it does, the file is no longer readable.
   */
  lemma SetRefines(text: string, name: string, key: string, v: Value)
    requires OnlyNewlines(text) && Read(text).Some? && IsBareKey(key) && Writable(v)
    ensures var doc, s, lines := Read(text).value, Profile(name), SplitLines(text);
      && (s !in doc ==> SetText(text, name, key, v) == Err(NotFound))
      && (s in doc ==>
        && SetText(text, name, key, v).Ok? && BlockSpan(lines, name).Some?
        && var text', (start, end) := SetText(text, name, key, v).value, BlockSpan(lines, name).value;
        && OnlyNewlines(text')
        && Read(text') == (if HiddenPair(lines, start, end, key) then None else Some(doc[s := doc[s][key := v]]))
        && (Editable(lines) ==> Editable(SplitLines(text')) && !HiddenPair(lines, start, end, key)))
  {
    hide OnlyNewlines, Read, Writable, BlockSpan, ReadLines, Editable, BlockAt, AllNoBreaks, PairText, EditableLine, NoBreaks,
         Terminated, SplitLines, IsBareKey, SetLine, SetText, HiddenPair, Classify, DefinesKey, IsHeaderLike;
    var lines, s := SplitLines(text), Profile(name);
    ReadText(text);
    SpanFound(lines, name);
    if s in Read(text).value {
      var (start, end) := BlockSpan(lines, name).value;
      PairTextFacts(key, v);
      SetShape(text, name, key, v, start, end);
      var newLine := PairText(key, v).value;
      SetLines(lines, name, start, end, key, v, newLine);
      LinesHaveNoBreaks(text);
      SetLineGood(lines, start, end, key, newLine);
      WholeLines(SetLine(lines, start, end, key, newLine));
      EditableHidesNothing(lines, start, end, key);
    } else {
      NotSet(text, name, key, v);
    }
  }

  lemma NotSet(text: string, name: string, key: string, v: Value)
    requires BlockSpan(SplitLines(text), name).None?
    ensures SetText(text, name, key, v) == Err(NotFound)
  {
    hide BlockSpan, SplitLines;
  }

  lemma EditableHidesNothing(lines: seq<string>, start: nat, end: nat, key: string)
    ensures Editable(lines) ==> !HiddenPair(lines, start, end, key)
  {
    hide Classify, DefinesKey;
  }
}
