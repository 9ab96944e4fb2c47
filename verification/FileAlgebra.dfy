/** How edits of the text combine, on any text whose only line breaks are newlines. */
module FileAlgebra {
  import opened Wrappers
  import opened PyText
  import opened TomlValue
  import opened ProfileFile
  import opened LineFacts
  import opened FileReading
  import opened FileEdits
  import opened FileRefinement
  import opened SetRefinement

  lemma {:induction false} FindIs(lines: seq<string>, from: nat, p: string -> bool, i: nat)
    requires from <= i <= |lines|
    requires forall j | from <= j < i :: !p(lines[j])
    requires i < |lines| ==> p(lines[i])
    ensures Find(lines, from, p) == i
    decreases i - from
  {
    if from < i {
      FindIs(lines, from + 1, p, i);
    }
  }

  /** The search finds the block that starts at the first matching line and ends before the next header. */
  lemma SpanIs(lines: seq<string>, name: string, start: nat, end: nat)
    requires start < end <= |lines|
    requires Strip(lines[start]) == Header(name) && forall j | 0 <= j < start :: Strip(lines[j]) != Header(name)
    requires (forall j | start < j < end :: !IsHeaderLike(lines[j])) && (end < |lines| ==> IsHeaderLike(lines[end]))
    ensures BlockSpan(lines, name) == Some((start, end))
  {
    hide Strip, Header, IsHeaderLike;
    FindIs(lines, 0, line => Strip(line) == Header(name), start);
    FindIs(lines, start + 1, IsHeaderLike, end);
  }

  lemma NoSpan(lines: seq<string>, name: string)
    requires forall j | 0 <= j < |lines| :: Strip(lines[j]) != Header(name)
    ensures BlockSpan(lines, name) == None
  {
    hide Strip, Header, IsHeaderLike;
    FindIs(lines, 0, line => Strip(line) == Header(name), |lines|);
  }

  lemma SpanSays(lines: seq<string>, name: string, start: nat, end: nat)
    requires BlockSpan(lines, name) == Some((start, end))
    ensures start < end <= |lines|
    ensures Strip(lines[start]) == Header(name) && forall j | 0 <= j < start :: Strip(lines[j]) != Header(name)
    ensures (forall j | start < j < end :: !IsHeaderLike(lines[j])) && (end < |lines| ==> IsHeaderLike(lines[end]))
  {
    hide Strip, Header, IsHeaderLike;
  }

  /** A block that takes another's place is found where that one was. */
  lemma SpanAfterReplace(lines: seq<string>, name: string, start: nat, end: nat, block: seq<string>)
    requires BlockSpan(lines, name) == Some((start, end))
    requires block != [] && Strip(block[0]) == Header(name) && forall j | 0 < j < |block| :: !IsHeaderLike(block[j])
    ensures start < end <= |lines|
    ensures BlockSpan(lines[..start] + block + lines[end..], name) == Some((start, start + |block|))
  {
    hide Strip, Header, IsHeaderLike, BlockSpan;
    SpanSays(lines, name, start, end);
    SpanIs(lines[..start] + block + lines[end..], name, start, start + |block|);
  }

  lemma BlockIsFound(name: string, table: Table)
    requires IsBareKey(name) && WritableTable(table)
    ensures FormatLines(name, table).Some?
    ensures var block := FormatLines(name, table).value;
      && block != [] && AllNoBreaks(block) && Strip(block[0]) == Header(name)
      && forall j | 0 < j < |block| :: !IsHeaderLike(block[j])
  {
    hide IsBareKey, Writable, FormatLines, FormatTable, Ordered, Strip, Header, Terminated, IsHeaderLike, NoBreaks, EditableLine;
    NewBlockLines(name, table);
    HeaderMeans(name);
    var block := FormatLines(name, table).value;
    assert forall j | 0 < j < |block| :: block[j] == block[1..][j - 1];
  }

  // ---------------------------------------------------------------- overwrite, overwrite

  /** Overwriting a profile twice is overwriting it with the second table. */
  lemma OverwriteTwice(text: string, name: string, first: Table, second: Table)
    requires IsBareKey(name) && WritableTable(first) && WritableTable(second)
    requires BlockSpan(SplitLines(text), name).Some?
    ensures OverwriteText(text, name, first).Ok?
    ensures OverwriteText(OverwriteText(text, name, first).value, name, second) == OverwriteText(text, name, second)
  {
    hide IsBareKey, Writable, FormatLines, FormatTable, Ordered, Strip, Header, Terminated, IsHeaderLike, BlockSpan, SplitLines,
         OverwriteText, AllNoBreaks;
    var lines := SplitLines(text);
    var (start, end) := BlockSpan(lines, name).value;
    BlockIsFound(name, first);
    OverwriteShape(text, name, first, start, end);
    OverwriteShape(text, name, second, start, end);
    var block, block' := FormatLines(name, first).value, FormatLines(name, second).value;
    SpanAfterReplace(lines, name, start, end, block);
    LinesHaveNoBreaks(text);
    KeptLines(lines, start, end, block);
    var lines' := lines[..start] + block + lines[end..];
    SplitTerminated(lines');
    OverwriteShape(Terminated(lines'), name, second, start, start + |block|);
    assert lines'[..start] == lines[..start] && lines'[start + |block|..] == lines[end..];
  }

  // ---------------------------------------------------------------- append, remove

  lemma {:induction false} DropEmptyTwice(lines: seq<string>)
    ensures DropEmpty(DropEmpty(lines) + [""]) == DropEmpty(lines)
  {
    var kept := DropEmpty(lines);
    assert (kept + [""])[..|kept|] == kept;
  }

  /** No line in front of an appended block is that block's header. */
  lemma FrontHasNoHeader(text: string, name: string)
    requires BlockSpan(SplitLines(text), name).None?
    ensures forall j | 0 <= j < |Front(text)| :: Strip(Front(text)[j]) != Header(name)
  {
    assert Strip("") == "" && Header(name) != "";
    hide Strip, Header, SplitLines;
  }

  /** Removing what was appended leaves the original text, up to newlines at its end. */
  lemma AppendThenRemove(text: string, name: string, table: Table)
    requires OnlyNewlines(text) && IsBareKey(name) && WritableTable(table)
    requires BlockSpan(SplitLines(text), name).None?
    ensures AppendText(text, name, table).Ok?
    ensures RemoveText(AppendText(text, name, table).value, name)
         == Ok(if Strip(text) == "" then "" else StripNewlines(text) + "\n")
  {
    hide OnlyNewlines, IsBareKey, Writable, FormatLines, FormatTable, Ordered, Strip, Header, Terminated, IsHeaderLike, BlockSpan,
         SplitLines, AppendText, RemoveText, AllNoBreaks, Front, StripNewlines;
    BlockIsFound(name, table);
    AppendShape(text, name, table);
    var front, block := Front(text), FormatLines(name, table).value;
    FrontHasNoHeader(text, name);
    var lines := front + block;
    SpanIs(lines, name, |front|, |lines|);
    FrontGood(text);
    JoinGood(front, block);
    SplitTerminated(lines);
    RemoveShape(Terminated(lines), name, |front|, |lines|);
    assert lines[..|front|] + lines[|lines|..] == front;
    FrontLeft(text);
  }

  lemma FrontGood(text: string)
    ensures AllNoBreaks(Front(text))
  {
    hide Strip, SplitLines, DropEmpty, AllNoBreaks, Editable;
    LinesHaveNoBreaks(text);
    DropEmptyGood(SplitLines(text));
    EmptyLineGood();
    JoinGood(DropEmpty(SplitLines(text)), [""]);
  }

  lemma FrontLeft(text: string)
    requires OnlyNewlines(text)
    ensures Terminated(DropEmpty(Front(text))) == if Strip(text) == "" then "" else StripNewlines(text) + "\n"
  {
    hide OnlyNewlines, Strip, SplitLines, StripNewlines, Terminated, DropEmpty, IsBreak;
    if Strip(text) != "" {
      StripText(text);
      DropEmptyTwice(SplitLines(text));
      if DropEmpty(SplitLines(text)) == [] {
        NewlinesAreSpaces(text);
      }
    } else {
      NothingTerminated();
    }
  }

  lemma NothingTerminated()
    ensures Terminated(DropEmpty([])) == ""
  {
  }

  // ---------------------------------------------------------------- set, set

  /** The first line that defines the key is the one that is replaced. */
  lemma SetLineFound(lines: seq<string>, start: nat, end: nat, key: string, newLine: string, i: nat)
    requires start < i < end <= |lines| && DefinesKey(lines[i], key) && forall j | start < j < i :: !DefinesKey(lines[j], key)
    ensures SetLine(lines, start, end, key, newLine) == lines[i := newLine]
  {
    hide DefinesKey, Strip;
    FindIs(lines[..end], start + 1, line => DefinesKey(line, key), i);
  }

  /** Where a set puts its line, and that no line before it in the block defines the key. */
  lemma SetLinePlace(lines: seq<string>, start: nat, end: nat, key: string, newLine: string)
    returns (i: nat)
    requires start < end <= |lines|
    ensures var r := SetLine(lines, start, end, key, newLine);
      && start < i <= end && i < |r| && (forall j | start < j < i :: r[j] == lines[j] && !DefinesKey(lines[j], key))
      && ((i < end && |r| == |lines| && r == lines[i := newLine] && DefinesKey(lines[i], key))
          || (|r| == |lines| + 1 && r == lines[..i] + [newLine] + lines[i..]
              && forall other: string :: SetLine(lines, start, end, key, other) == lines[..i] + [other] + lines[i..]))
  {
    hide DefinesKey, Strip;
    var f := Find(lines[..end], start + 1, line => DefinesKey(line, key));
    i := if f < end then f else InsertionPoint(lines, start, end);
  }

  lemma SetLineTwice(lines: seq<string>, start: nat, end: nat, key: string, first: string, second: string)
    requires start < end <= |lines| && DefinesKey(first, key)
    ensures var once := SetLine(lines, start, end, key, first);
      && |once| >= |lines|
      && SetLine(once, start, end + |once| - |lines|, key, second) == SetLine(lines, start, end, key, second)
  {
    hide DefinesKey, SetLine;
    var i := SetLinePlace(lines, start, end, key, first);
    var once := SetLine(lines, start, end, key, first);
    SetLineFound(once, start, end + |once| - |lines|, key, second, i);
    if |once| == |lines| {
      SetLineFound(lines, start, end, key, second, i);
    } else {
      assert once[i := second] == lines[..i] + [second] + lines[i..];
    }
  }

  lemma SetKeepsSpan(lines: seq<string>, name: string, start: nat, end: nat, key: string, newLine: string)
    requires BlockSpan(lines, name) == Some((start, end)) && !IsHeaderLike(newLine)
    ensures start < end <= |lines|
    ensures var r := SetLine(lines, start, end, key, newLine);
      BlockSpan(r, name) == Some((start, end + |r| - |lines|))
  {
    hide Strip, Header, IsHeaderLike, BlockSpan, SetLine, DefinesKey;
    SpanSays(lines, name, start, end);
    var x, replaced, y := SetLineParts(lines, start, end, key, newLine);
    var block := [lines[start]] + (x + ([newLine] + y));
    forall j | 0 < j < |block|
      ensures !IsHeaderLike(block[j])
    {
      assert j - 1 < |x| ==> block[j] == (x + replaced + y)[j - 1] == lines[start + 1..end][j - 1];
      assert j - 1 > |x| ==> block[j] == (x + replaced + y)[j - 2 + |replaced|] == lines[start + 1..end][j - 2 + |replaced|];
    }
    SpanAfterReplace(lines, name, start, end, block);
  }

  /** Setting a key twice is setting it to the last value. */
  lemma SetTwice(text: string, name: string, key: string, v: Value, w: Value)
    requires IsBareKey(key) && Writable(v) && Writable(w)
    requires BlockSpan(SplitLines(text), name).Some?
    ensures SetText(text, name, key, v).Ok?
    ensures SetText(SetText(text, name, key, v).value, name, key, w) == SetText(text, name, key, w)
  {
    hide IsBareKey, Writable, Strip, Header, Terminated, IsHeaderLike, BlockSpan, SplitLines, SetText, SetLine, AllNoBreaks, PairText,
         Classify, DefinesKey, EditableLine, NoBreaks, Editable;
    var lines := SplitLines(text);
    var (start, end) := BlockSpan(lines, name).value;
    PairTextFacts(key, v);
    PairTextFacts(key, w);
    SetShape(text, name, key, v, start, end);
    SetShape(text, name, key, w, start, end);
    var first, second := PairText(key, v).value, PairText(key, w).value;
    var once := SetLine(lines, start, end, key, first);
    LinesHaveNoBreaks(text);
    SetLineGood(lines, start, end, key, first);
    SplitTerminated(once);
    SetKeepsSpan(lines, name, start, end, key, first);
    SetLineTwice(lines, start, end, key, first, second);
    SetShape(Terminated(once), name, key, w, start, end + |once| - |lines|);
  }
}
