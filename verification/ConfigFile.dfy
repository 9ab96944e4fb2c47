/** The editor as the program runs it: loops over the lines of a file whose text is replaced. */
module ConfigFile {
  import opened Wrappers
  import opened PyText
  import opened TomlValue
  import opened ProfileFile
  import FileAlgebra

  /** The lines [start, end) of a block, found by two scans. */
  method FindBlockSpan(lines: seq<string>, name: string) returns (span: Option<(nat, nat)>)
    ensures span == BlockSpan(lines, name)
  {
    hide Strip, IsHeaderLike, BlockSpan, Header;
    var header := Header(name);
    var i := 0;
    while i < |lines| && Strip(lines[i]) != header
      invariant i <= |lines|
      invariant forall j | 0 <= j < i :: Strip(lines[j]) != header
    {
      i := i + 1;
    }
    if i == |lines| {
      FileAlgebra.NoSpan(lines, name);
      return None;
    }
    var end := i + 1;
    while end < |lines| && !IsHeaderLike(lines[end])
      invariant i < end <= |lines|
      invariant forall j | i < j < end :: !IsHeaderLike(lines[j])
    {
      end := end + 1;
    }
    FileAlgebra.SpanIs(lines, name, i, end);
    return Some((i, end));
  }

  class File {
    var text: string

    constructor (text: string)
      ensures this.text == text
    {
      this.text := text;
    }

    method Write(newText: string, writable: bool) returns (r: Option<EditError>)
      modifies this
      ensures (text, r) == Commit(old(text), Ok(newText), writable)
    {
      if !writable {
        return Some(WriteFailed);
      }
      text := newText;
      return None;
    }

    method Append(name: string, table: Table, writable: bool) returns (r: Option<EditError>)
      requires table.Valid()
      modifies this
      ensures (text, r) == Commit(old(text), AppendText(old(text), name, table), writable)
    {
      hide FormatTable, BlockSpan, SplitLines, Strip, StripNewlines;
      var span := FindBlockSpan(SplitLines(text), name);
      if span.Some? {
        return Some(AlreadyPresent);
      }
      var block := FormatTable(name, table);
      if block.None? {
        return Some(Unserializable);
      }
      var newText := block.value;
      if Strip(text) != "" {
        newText := StripNewlines(text) + "\n\n" + block.value;
      }
      r := Write(newText, writable);
    }

    method Overwrite(name: string, table: Table, writable: bool) returns (r: Option<EditError>)
      requires table.Valid()
      modifies this
      ensures (text, r) == Commit(old(text), OverwriteText(old(text), name, table), writable)
    {
      hide FormatTable, BlockSpan, SplitLines, Join;
      var lines := SplitLines(text);
      var span := FindBlockSpan(lines, name);
      if span.None? {
        return Some(NotFound);
      }
      var (start, end) := span.value;
      var block := FormatTable(name, table);
      if block.None? {
        return Some(Unserializable);
      }
      lines := lines[..start] + SplitLines(block.value) + lines[end..];
      r := Write(Join("\n", lines) + "\n", writable);
    }

    method SetValue(name: string, key: string, value: Value, writable: bool) returns (r: Option<EditError>)
      modifies this
      ensures (text, r) == Commit(old(text), SetText(old(text), name, key, value), writable)
    {
      hide BlockSpan, SplitLines, Join, PairText, Strip, DefinesKey;
      var lines := SplitLines(text);
      var span := FindBlockSpan(lines, name);
      if span.None? {
        return Some(NotFound);
      }
      var (start, end) := span.value;
      var newLine := PairText(key, value);
      if newLine.None? {
        return Some(Unserializable);
      }
      lines := PutLine(lines, start, end, key, newLine.value);
      r := Write(Join("\n", lines) + "\n", writable);
    }

    method Remove(name: string, writable: bool) returns (r: Option<EditError>)
      modifies this
      ensures (text, r) == Commit(old(text), RemoveText(old(text), name), writable)
    {
      hide BlockSpan, SplitLines, Join, Strip, StripNewlines;
      var lines := SplitLines(text);
      var span := FindBlockSpan(lines, name);
      if span.None? {
        return Some(NotFound);
      }
      var (start, end) := span.value;
      var after := SkipBlankLines(lines, end);
      lines := lines[..start] + lines[after..];
      var kept := StripNewlines(Join("\n", lines));
      r := Write(if kept != "" then kept + "\n" else "", writable);
    }
  }

  method SkipBlankLines(lines: seq<string>, end: nat) returns (after: nat)
    requires end <= |lines|
    ensures after == Find(lines, end, line => Strip(line) != "")
  {
    hide Strip;
    after := end;
    while after < |lines| && Strip(lines[after]) == ""
      invariant end <= after <= |lines|
      invariant forall j | end <= j < after :: Strip(lines[j]) == ""
    {
      after := after + 1;
    }
    FileAlgebra.FindIs(lines, end, line => Strip(line) != "", after);
  }

  /** Replaces the key's line, or inserts one behind the block's last line that is not blank. */
  method PutLine(lines: seq<string>, start: nat, end: nat, key: string, newLine: string) returns (r: seq<string>)
    requires start < end <= |lines|
    ensures r == SetLine(lines, start, end, key, newLine)
  {
    hide Strip, DefinesKey, Find;
    var i := start + 1;
    while i < end && !DefinesKey(lines[i], key)
      invariant start < i <= end
      invariant forall j | start < j < i :: !DefinesKey(lines[j], key)
    {
      i := i + 1;
    }
    FileAlgebra.FindIs(lines[..end], start + 1, line => DefinesKey(line, key), i);
    if i < end {
      return lines[i := newLine];
    }
    var insertAt := end;
    while insertAt > start + 1 && Strip(lines[insertAt - 1]) == ""
      invariant start < insertAt <= end
      invariant InsertionPoint(lines, start, end) == InsertionPoint(lines, start, insertAt)
    {
      insertAt := insertAt - 1;
    }
    return lines[..insertAt] + [newLine] + lines[insertAt..];
  }
}
