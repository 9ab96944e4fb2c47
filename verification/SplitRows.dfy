/**
 * Files whose values hold characters that `splitlines` breaks lines at. TOML
 * reads such a row whole; every edit but an append cuts it into pieces. This says
 * exactly when overwriting and removing still do what they should, and which
 * edits lose the file.
 */
module SplitRows {
  import opened Wrappers
  import opened PyText
  import opened TomlValue
  import opened ProfileFile
  import opened LineFacts
  import opened FileReading
  import opened FileEdits
  import opened FileRefinement
  import opened FileAlgebra
  import opened ExactEdits

  // ---------------------------------------------------------------- rows and their pieces

  /** The lines that Python makes of one row. */
  function Pieces(row: string): (r: seq<string>)
    ensures r != []
  {
    SplitLines(row + "\n")
  }

  function AllPieces(rows: seq<string>): (r: seq<string>)
    ensures |r| >= |rows|
  {
    if rows == [] then [] else Pieces(rows[0]) + AllPieces(rows[1..])
  }

  lemma SplitBreak(c: char, t: string)
    requires IsBreak(c) && !(c == '\r' && t != [] && t[0] == '\n')
    ensures SplitLines([c] + t) == [""] + SplitLines(t)
  {
    assert ([c] + t)[1..] == t;
    hide IsBreak;
  }

  lemma SplitPair(t: string)
    ensures SplitLines("\r\n" + t) == [""] + SplitLines(t)
  {
    assert ("\r\n" + t)[2..] == t;
    hide IsBreak;
  }

  lemma SplitOther(c: char, t: string)
    requires !IsBreak(c) && t != []
    ensures SplitLines(t) != [] && SplitLines([c] + t) == [[c] + SplitLines(t)[0]] + SplitLines(t)[1..]
  {
    assert ([c] + t)[1..] == t && IsBreak('\r');
    hide IsBreak;
  }

  lemma NewlineBreaks()
    ensures IsBreak('\n')
  {
  }

  lemma {:induction false} SplitRow(row: string, rest: string)
    ensures SplitLines(row + "\n" + rest) == Pieces(row) + SplitLines(rest)
    decreases |row|
  {
    hide IsBreak, SplitLines;
    var s, t := row + "\n" + rest, row + "\n";
    NewlineBreaks();
    if row == [] {
      assert s == ['\n'] + rest && t == ['\n'] + [];
      SplitBreak('\n', rest);
      SplitBreak('\n', []);
    } else if row[0] == '\r' && t[1] == '\n' {
      if |row| == 1 {
        assert s == "\r\n" + rest && t == "\r\n" + [];
        SplitPair(rest);
        SplitPair([]);
      } else {
        SplitRow(row[2..], rest);
        assert s == "\r\n" + (row[2..] + "\n" + rest) && t == "\r\n" + (row[2..] + "\n");
        SplitPair(row[2..] + "\n" + rest);
        SplitPair(row[2..] + "\n");
      }
    } else {
      SplitRow(row[1..], rest);
      var s1, t1 := row[1..] + "\n" + rest, row[1..] + "\n";
      assert s == [row[0]] + s1 && t == [row[0]] + t1 && s1[0] == t1[0];
      if IsBreak(row[0]) {
        SplitBreak(row[0], s1);
        SplitBreak(row[0], t1);
      } else {
        SplitOther(row[0], s1);
        SplitOther(row[0], t1);
      }
    }
  }

  lemma {:induction false} SplitAll(rows: seq<string>)
    ensures SplitLines(Terminated(rows)) == AllPieces(rows)
  {
    hide Pieces;
    if rows == [] {
    } else {
      SplitRow(rows[0], Terminated(rows[1..]));
      SplitAll(rows[1..]);
    }
  }

  lemma PiecesStep(rows: seq<string>)
    ensures AllPieces(rows) == if rows == [] then [] else Pieces(rows[0]) + AllPieces(rows[1..])
  {
    hide Pieces;
  }

  lemma {:induction false} PiecesConcat(a: seq<string>, b: seq<string>)
    ensures AllPieces(a + b) == AllPieces(a) + AllPieces(b)
  {
    hide *;
    PiecesStep(a);
    if a == [] {
      assert a + b == b;
    } else {
      PiecesStep(a + b);
      PiecesConcat(a[1..], b);
      assert (a + b)[1..] == a[1..] + b;
    }
  }

  lemma OnePiece(row: string)
    requires NoBreaks(row)
    ensures Pieces(row) == [row]
  {
    SplitFirstLine(row, "");
    assert row + "\n" + "" == row + "\n";
  }

  lemma {:induction false} WholePieces(rows: seq<string>)
    requires AllNoBreaks(rows)
    ensures AllPieces(rows) == rows
  {
    hide Pieces, NoBreaks;
    if rows != [] {
      OnePiece(rows[0]);
      WholePieces(rows[1..]);
    }
  }

  lemma FirstPiece(row: string)
    requires !NoBreaks(row)
    ensures FirstCut(row) < |row| && CutAt(row, FirstCut(row)) && Pieces(row)[0] == row[..FirstCut(row)]
  {
    CutFound(row);
    var k := FirstCut(row);
    hide FirstCut, IsBreak, SplitLines, NoBreaks;
    AroundCut(row, k);
    SplitCut(row[..k], row[k], row[k + 1..] + "\n");
  }

  lemma CutFound(row: string)
    requires !NoBreaks(row)
    ensures FirstCut(row) < |row|
  {
    assert row[..|row|] == row;
    hide FirstCut, IsBreak;
  }

  lemma AroundCut(row: string, k: nat)
    requires k < |row|
    ensures row + "\n" == row[..k] + [row[k]] + (row[k + 1..] + "\n")
  {
  }

  /** Where a row's first piece stands. */
  function Place(rows: seq<string>, i: nat): nat
    requires i <= |rows|
  {
    |AllPieces(rows[..i])|
  }

  lemma RowAlone(row: string)
    ensures AllPieces([row]) == Pieces(row)
  {
    hide Pieces;
    assert AllPieces([row]) == Pieces(row) + AllPieces([]);
  }

  lemma AroundIndex<T>(s: seq<T>, i: nat)
    requires i < |s|
    ensures s == s[..i] + ([s[i]] + s[i + 1..]) && s[..i + 1] == s[..i] + [s[i]]
  {
  }

  lemma PieceAt(rows: seq<string>, i: nat, j: nat)
    requires i < |rows| && j < |Pieces(rows[i])|
    ensures Place(rows, i) + j < |AllPieces(rows)| && AllPieces(rows)[Place(rows, i) + j] == Pieces(rows[i])[j]
    ensures Place(rows, i + 1) == Place(rows, i) + |Pieces(rows[i])|
  {
    hide Pieces, AllPieces;
    var a, c := rows[..i], rows[i + 1..];
    AroundIndex(rows, i);
    PiecesConcat(a, [rows[i]] + c);
    PiecesConcat([rows[i]], c);
    PiecesConcat(a, [rows[i]]);
    RowAlone(rows[i]);
  }

  lemma PlacesGrow(rows: seq<string>, i: nat, k: nat)
    requires i < k <= |rows|
    ensures Place(rows, i) + |Pieces(rows[i])| <= Place(rows, k)
  {
    PieceAt(rows, i, 0);
    assert rows[..k] == rows[..i + 1] + rows[i + 1..k];
    PiecesConcat(rows[..i + 1], rows[i + 1..k]);
  }

  /** Which row a line is a piece of. */
  lemma {:induction false} RowOf(rows: seq<string>, n: nat)
    returns (i: nat, j: nat)
    requires n < |AllPieces(rows)|
    ensures i < |rows| && j < |Pieces(rows[i])| && n == Place(rows, i) + j && AllPieces(rows)[n] == Pieces(rows[i])[j]
    decreases |rows|
  {
    var k := |rows| - 1;
    assert rows == rows[..k] + [rows[k]];
    PiecesConcat(rows[..k], [rows[k]]);
    if n < Place(rows, k) {
      i, j := RowOf(rows[..k], n);
      assert rows[..k][..i] == rows[..i];
    } else {
      i, j := k, n - Place(rows, k);
      assert AllPieces([rows[k]]) == Pieces(rows[k]) + AllPieces([]);
    }
    PieceAt(rows, i, j);
  }

  // ---------------------------------------------------------------- loose files

  /** Readable rows in which a break always leaves a meaningless front part: what appends of clean tables make. */
  ghost predicate Loose(rows: seq<string>) {
    OneRowEach(rows) && CutsAreBad(rows) && ReadLines(START, rows).Reading?
  }

  lemma LooseReads(rows: seq<string>)
    requires OneRowEach(rows)
    ensures Read(Terminated(rows)) == DocOf(ReadLines(START, rows))
  {
    hide ReadLines, Terminated, Rows;
    RowsOfLines(rows);
    ReadConcat(START, rows, [""]);
    LastRow(ReadLines(START, rows));
  }

  lemma HeaderIsWhole(row: string)
    requires Classify(row).HeaderLine?
    ensures NoBreaks(row)
  {
    var u := TrimLeft(row, IsBlank);
    var h := TrimRight(u, IsBlank);
    HeaderInside(row);
    HeaderTextIsWhole(h);
    hide Classify, TrimLeft, TrimRight, ClassifyHeader, IsBlank, IsBreak;
    var d := |row| - |u|;
    TrimLeftSays(row, IsBlank);
    TrimRightSays(u, IsBlank);
    forall i | 0 <= i < |row|
      ensures !IsBreak(row[i])
    {
      BlanksDoNotBreak(row[i]);
      assert i >= d ==> row[i] == u[i - d];
    }
  }

  lemma HeaderInside(row: string)
    requires Classify(row).HeaderLine?
    ensures ClassifyHeader(TrimRight(TrimLeft(row, IsBlank), IsBlank)).HeaderLine?
  {
    hide ClassifyHeader, ParsePair, TrimLeft, TrimRight;
  }

  lemma BlanksDoNotBreak(c: char)
    ensures IsBlank(c) ==> !IsBreak(c)
  {
  }

  lemma HeaderTextIsWhole(h: string)
    requires ClassifyHeader(h).HeaderLine?
    ensures NoBreaks(h)
  {
    var n := |PROFILE_PREFIX|;
    if h == COMMON_HEADER {
      assert NoBreaks(COMMON_HEADER);
    } else {
      var name := h[n..|h| - 1];
      BareNoBreaks(name);
      assert NoBreaks(PROFILE_PREFIX) && !IsBreak(']');
      assert h == PROFILE_PREFIX + name + [h[|h| - 1]];
    }
  }

  lemma {:induction false} TrimsTo(s: string, q: nat, p: char -> bool)
    requires q <= |s| && (q < |s| ==> !p(s[q])) && forall i | 0 <= i < q :: p(s[i])
    ensures TrimLeft(s, p) == s[q..]
    decreases q
  {
    if q > 0 {
      TrimsTo(s[1..], q - 1, p);
    }
  }

  lemma BlanksMeanNothing(line: string)
    requires forall i | 0 <= i < |line| :: IsBlank(line[i])
    ensures Classify(line) == BlankLine
  {
    hide IsBlank, ClassifyPair, ClassifyHeader, TrimLeft;
    TrimsTo(line, |line|, IsBlank);
  }

  /** Blanks at the front of a line are stripped, and nothing behind the first character that is no space. */
  lemma StripsTo(line: string, q: nat)
    requires q < |line| && !IsSpace(line[q]) && forall i | 0 <= i < q :: IsBlank(line[i])
    ensures LStrip(line) == line[q..] && Strip(line) != "" && Strip(line)[0] == line[q]
  {
    hide IsSpace, IsBlank, TrimLeft, TrimRight;
    forall i | 0 <= i < q
      ensures IsSpace(line[i])
    {
      BlanksAreSpaces(line[i]);
    }
    TrimsTo(line, q, IsSpace);
    StripKeepsFirst(line[q..]);
  }

  /** A meaningless front part of a meaningful row is no header for the editor, and defines no key that the row does not. */
  lemma FrontPart(row: string, k: nat)
    requires Classify(row) != BadLine && CutAt(row, k) && Classify(row[..k]) == BadLine
    ensures LStrip(row[..k]) <= LStrip(row)
    ensures Strip(row[..k]) != "" && Strip(row[..k])[0] != '['
  {
    hide Classify, TrimLeft, TrimRight, IsBlank, IsSpace, IsBareChar, IsBreak, LStrip, Strip;
    FirstCharacter(row);
    if Classify(row).HeaderLine? {
      HeaderIsWhole(row);
    }
    var u, front := TrimLeft(row, IsBlank), row[..k];
    var q := |row| - |u|;
    TrimLeftSays(row, IsBlank);
    assert forall i | 0 <= i < k :: front[i] == row[i];
    if k <= q {
      BlanksMeanNothing(front);
    }
    assert u[0] == row[q];
    StripsTo(front, q);
    StripsTo(row, q);
    assert row[..k][q..] == row[q..][..k - q];
  }

  // ---------------------------------------------------------------- a break outside the block

  lemma SpanExists(lines: seq<string>, name: string, h: nat)
    requires h < |lines| && Strip(lines[h]) == Header(name)
    ensures BlockSpan(lines, name).Some? && BlockSpan(lines, name).value.0 <= h
  {
    hide Strip, Header, IsHeaderLike;
  }

  lemma BrokenRow(rows: seq<string>, i: nat)
    requires Loose(rows) && i < |rows| && !NoBreaks(rows[i])
    ensures var front := Pieces(rows[i])[0];
      && Place(rows, i) < |AllPieces(rows)| && AllPieces(rows)[Place(rows, i)] == front
      && Classify(front) == BadLine && LStrip(front) <= LStrip(rows[i]) && Strip(front) != "" && Strip(front)[0] != '['
  {
    hide Classify, ReadLines, Pieces, Strip, LStrip, IsBreak, NoBreaks;
    FirstPiece(rows[i]);
    PieceAt(rows, i, 0);
    ReadableIsMeaningful(START, rows);
    FrontPart(rows[i], FirstCut(rows[i]));
  }

  lemma WholeRow(rows: seq<string>, i: nat)
    requires i < |rows| && NoBreaks(rows[i])
    ensures Place(rows, i) < |AllPieces(rows)| && AllPieces(rows)[Place(rows, i)] == rows[i]
    ensures |Pieces(rows[i])| == 1
  {
    hide Pieces, NoBreaks, Place;
    OnePiece(rows[i]);
    PieceAt(rows, i, 0);
  }

  lemma HeaderBegins(name: string)
    ensures Header(name) != "" && Header(name)[0] == '['
  {
  }

  /** No line in front of the block's own header is taken for it, unless a broken row stands before both. */
  lemma EarlierMatch(rows: seq<string>, name: string, a: nat, b: nat, n: nat)
    returns (i: nat)
    requires Loose(rows) && BlockSpan(rows, name) == Some((a, b)) && a < b <= |rows|
    requires n < Place(rows, a) && n < |AllPieces(rows)| && Strip(AllPieces(rows)[n]) == Header(name)
    ensures i < |rows| && !NoBreaks(rows[i]) && Place(rows, i) < n
  {
    hide ReadLines, Classify, Strip, LStrip, Header, Pieces, NoBreaks, BlockSpan, Loose, IsHeaderLike;
    SpanSays(rows, name, a, b);
    var j: nat;
    i, j := RowOf(rows, n);
    if i >= a {
      if i > a {
        PlacesGrow(rows, a, i);
      }
      assert false;
    }
    if NoBreaks(rows[i]) {
      WholeRow(rows, i);
    } else {
      BrokenRow(rows, i);
      HeaderBegins(name);
    }
  }

  /** A broken row outside the block leaves a meaningless line outside the span that the editor finds. */
  lemma BreakElsewhere(rows: seq<string>, name: string, i: nat)
    returns (n: nat)
    requires Loose(rows) && BlockSpan(rows, name).Some? && i < |rows| && !NoBreaks(rows[i])
    requires var (a, b) := BlockSpan(rows, name).value; !(a < i < b)
    ensures BlockSpan(AllPieces(rows), name).Some?
    ensures var (start, end) := BlockSpan(AllPieces(rows), name).value;
      n < |AllPieces(rows)| && (n < start || n >= end) && Classify(AllPieces(rows)[n]) == BadLine
  {
    hide ReadLines, Classify, Strip, LStrip, Header, Pieces, NoBreaks, BlockSpan, Loose, IsHeaderLike, Place;
    var (a, b) := BlockSpan(rows, name).value;
    var lines := AllPieces(rows);
    SpanSays(rows, name, a, b);
    OwnHeader(rows, name, a);
    WholeRow(rows, a);
    SpanExists(lines, name, Place(rows, a));
    var (start, end) := BlockSpan(lines, name).value;
    SpanSays(lines, name, start, end);
    if start < Place(rows, a) {
      var j := EarlierMatch(rows, name, a, b, start);
      BrokenRow(rows, j);
      n := Place(rows, j);
    } else {
      BrokenRow(rows, i);
      n := Place(rows, i);
      if i < a {
        PlacesGrow(rows, i, a);
      } else {
        NextHeader(rows, name, a, b);
        PlacesGrow(rows, a, b);
        if b < i {
          PlacesGrow(rows, b, i);
        }
      }
    }
  }

  lemma OwnHeader(rows: seq<string>, name: string, a: nat)
    requires Loose(rows) && a < |rows| && Strip(rows[a]) == Header(name)
    ensures Classify(rows[a]) == HeaderLine(Profile(name)) && NoBreaks(rows[a])
  {
    hide Classify, ReadLines, Strip, Header, NoBreaks;
    ReadableIsMeaningful(START, rows);
    EditorAgrees(rows[a], name);
    HeaderIsWhole(rows[a]);
  }

  lemma NextHeader(rows: seq<string>, name: string, a: nat, b: nat)
    requires Loose(rows) && BlockSpan(rows, name) == Some((a, b)) && a < b < |rows|
    ensures NoBreaks(rows[b]) && IsHeaderLike(rows[b])
    ensures Place(rows, b) < |AllPieces(rows)| && AllPieces(rows)[Place(rows, b)] == rows[b]
  {
    hide Classify, ReadLines, Strip, Header, NoBreaks, BlockSpan, Place, IsHeaderLike;
    SpanSays(rows, name, a, b);
    ReadableIsMeaningful(START, rows);
    EditorAgrees(rows[b], name);
    HeaderIsWhole(rows[b]);
    WholeRow(rows, b);
  }

  // ---------------------------------------------------------------- edits that lose the file

  /** Rows whose breaks all lie inside the block. */
  ghost predicate OthersWhole(rows: seq<string>, name: string) {
    BlockSpan(rows, name).Some?
    && var (a, b) := BlockSpan(rows, name).value; AllNoBreaks(rows[..a]) && AllNoBreaks(rows[b..])
  }

  lemma WholeHasBlock(rows: seq<string>, name: string)
    requires OthersWhole(rows, name)
    ensures BlockSpan(rows, name).Some?
  {
    hide BlockSpan, NoBreaks;
  }

  lemma BrokenOutside(rows: seq<string>, name: string)
    returns (i: nat)
    requires BlockSpan(rows, name).Some? && !OthersWhole(rows, name) && Loose(rows)
    ensures i < |rows| && !NoBreaks(rows[i])
    ensures var (a, b) := BlockSpan(rows, name).value; !(a < i < b)
  {
    hide BlockSpan, NoBreaks, Loose;
    var (a, b) := BlockSpan(rows, name).value;
    if j :| 0 <= j < |rows[..a]| && !NoBreaks(rows[..a][j]) {
      i := j;
    } else {
      var j :| 0 <= j < |rows[b..]| && !NoBreaks(rows[b..][j]);
      i := b + j;
      assert rows[i] == rows[b..][j];
    }
  }

  lemma BlockInRows(rows: seq<string>, name: string)
    requires Loose(rows)
    ensures ReadLines(START, rows).Reading?
    ensures BlockSpan(rows, name).Some? <==> Profile(name) in ReadLines(START, rows).doc
    ensures BlockSpan(rows, name).Some? ==>
      var (a, b) := BlockSpan(rows, name).value; a < b <= |rows| && BlockAt(rows, name, a, b)
  {
    hide ReadLines, BlockSpan, BlockAt, CutsAreBad;
    SpanFound(rows, name);
  }

  lemma KeptOutside(lines: seq<string>, start: nat, end: nat, block: seq<string>, n: nat)
    requires start <= end <= |lines| && n < |lines| && (n < start || n >= end)
    ensures exists m :: 0 <= m < |lines[..start] + block + lines[end..]| && (lines[..start] + block + lines[end..])[m] == lines[n]
  {
    var m := if n < start then n else n - end + start + |block|;
    assert (lines[..start] + block + lines[end..])[m] == lines[n];
  }

  /** Whole lines, one of which means nothing, cannot be read. */
  lemma BadTextUnreadable(lines: seq<string>, bad: string)
    requires AllNoBreaks(lines) && bad in lines && Classify(bad) == BadLine
    ensures Read(Terminated(lines)) == None
  {
    hide ReadLines, Classify, AllNoBreaks, Terminated, Read;
    WholeLines(lines);
    var m :| 0 <= m < |lines| && lines[m] == bad;
    BadLineUnreadable(lines, m);
  }

  /** Overwriting a profile loses the file when a row outside its block is broken, whatever the table. */
  lemma OverwriteLoses(rows: seq<string>, name: string, table: Table)
    requires Loose(rows) && BlockSpan(rows, name).Some? && !OthersWhole(rows, name)
    requires table.Valid() && FormatTable(name, table).Some?
    ensures OverwriteText(Terminated(rows), name, table).Ok? && Read(OverwriteText(Terminated(rows), name, table).value) == None
  {
    hide Loose, BlockSpan, OthersWhole, FormatLines, Classify, Terminated, AllNoBreaks, OverwriteText, Read, SplitLines;
    var i := BrokenOutside(rows, name);
    var n := BreakElsewhere(rows, name, i);
    SplitAll(rows);
    var lines := AllPieces(rows);
    var (start, end) := BlockSpan(lines, name).value;
    PrintedBlock(name, table);
    OverwriteLines(Terminated(rows), name, table, start, end);
    var block := SplitLines(Terminated(FormatLines(name, table).value));
    KeptOutside(lines, start, end, block, n);
    BadTextUnreadable(lines[..start] + block + lines[end..], lines[n]);
  }

  lemma PrintedBlock(name: string, table: Table)
    requires table.Valid() && FormatTable(name, table).Some?
    ensures FormatLines(name, table).Some? && FormatLines(name, table).value != [] && FormatLines(name, table).value[0] == Header(name)
  {
    hide PairLines, Ordered, Header;
  }

  lemma RemovedReads(text: string, name: string, start: nat, end: nat)
    requires BlockSpan(SplitLines(text), name) == Some((start, end))
    ensures start < end <= |SplitLines(text)| && RemoveText(text, name).Ok?
    ensures Read(RemoveText(text, name).value) == DocOf(ReadLines(START, SplitLines(text)[..start] + SplitLines(text)[end..]))
    ensures OnlyNewlines(RemoveText(text, name).value)
    ensures SplitLines(RemoveText(text, name).value) == DropEmpty(SplitLines(text)[..start] + SplitLines(text)[end..])
  {
    hide BlockSpan, RemoveText, Read, ReadLines, Terminated, DropEmpty, SplitLines, NoBreaks, OnlyNewlines;
    RemoveShape(text, name, start, end);
    LinesHaveNoBreaks(text);
    var kept := SplitLines(text)[..start] + SplitLines(text)[end..];
    KeptLinesGood(SplitLines(text), start, end);
    DropEmptyGood(kept);
    WholeLines(DropEmpty(kept));
    DropEmptyRead(START, kept);
  }

  /** Removing a profile loses the file when a row outside its block is broken. */
  lemma RemoveLoses(rows: seq<string>, name: string)
    requires Loose(rows) && BlockSpan(rows, name).Some? && !OthersWhole(rows, name)
    ensures RemoveText(Terminated(rows), name).Ok? && Read(RemoveText(Terminated(rows), name).value) == None
  {
    hide Loose, BlockSpan, OthersWhole, Classify, Terminated, RemoveText, Read, SplitLines, ReadLines, NoBreaks, OnlyNewlines;
    var i := BrokenOutside(rows, name);
    var n := BreakElsewhere(rows, name, i);
    SplitAll(rows);
    var lines := AllPieces(rows);
    var (start, end) := BlockSpan(lines, name).value;
    RemovedReads(Terminated(rows), name, start, end);
    KeptOutside(lines, start, end, [], n);
    var kept := lines[..start] + lines[end..];
    assert lines[..start] + [] + lines[end..] == kept;
    var m :| 0 <= m < |kept| && kept[m] == lines[n];
    BadLineUnreadable(kept, m);
  }

  /** A set keeps every line but one of the block that its test finds. */
  lemma SetKeepsLine(lines: seq<string>, start: nat, end: nat, key: string, newLine: string, n: nat)
    returns (m: nat)
    requires start < end <= |lines| && n < |lines| && (n <= start || n >= end || !DefinesKey(lines[n], key))
    ensures var r := SetLine(lines, start, end, key, newLine); m < |r| && r[m] == lines[n]
    ensures |SetLine(lines, start, end, key, newLine)| >= |lines|
    ensures n < start ==> m < start
    ensures n >= end ==> m >= end + |SetLine(lines, start, end, key, newLine)| - |lines|
  {
    hide DefinesKey, SetLine;
    var i := SetLinePlace(lines, start, end, key, newLine);
    var r := SetLine(lines, start, end, key, newLine);
    m := if |r| == |lines| || n < i then n else n + 1;
  }

  /** A row that is broken and does not define the key in the block. */
  ghost predicate BrokenFor(rows: seq<string>, name: string, key: string, i: nat) {
    i < |rows| && !NoBreaks(rows[i]) && BlockSpan(rows, name).Some?
    && var (a, b) := BlockSpan(rows, name).value; !(a < i < b && DefinesKey(rows[i], key))
  }

  lemma DefinesKeyLonger(front: string, row: string, key: string)
    requires LStrip(front) <= LStrip(row) && DefinesKey(front, key)
    ensures DefinesKey(row, key)
  {
    hide LStrip;
    var f, r := LStrip(front), LStrip(row);
    assert f == r[..|f|];
    assert r[..|key| + 1] == f[..|key| + 1];
  }

  lemma BadForSet(rows: seq<string>, name: string, key: string, i: nat)
    returns (n: nat)
    requires Loose(rows) && BrokenFor(rows, name, key, i)
    ensures BlockSpan(AllPieces(rows), name).Some?
    ensures var (start, end) := BlockSpan(AllPieces(rows), name).value;
      n < |AllPieces(rows)| && (n < start || n >= end || !DefinesKey(AllPieces(rows)[n], key)) && Classify(AllPieces(rows)[n]) == BadLine
  {
    hide Loose, BlockSpan, Classify, DefinesKey, LStrip, Strip, NoBreaks, Place, Pieces;
    var (a, b) := BlockSpan(rows, name).value;
    if a < i < b {
      BrokenRow(rows, i);
      n := Place(rows, i);
      if DefinesKey(AllPieces(rows)[n], key) {
        DefinesKeyLonger(AllPieces(rows)[n], rows[i], key);
      }
      RowsSpan(rows, name);
    } else {
      n := BreakElsewhere(rows, name, i);
    }
  }

  lemma RowsSpan(rows: seq<string>, name: string)
    requires Loose(rows) && BlockSpan(rows, name).Some?
    ensures BlockSpan(AllPieces(rows), name).Some?
  {
    hide Loose, BlockSpan, Classify, Strip, NoBreaks, Place, Header, IsHeaderLike;
    var (a, b) := BlockSpan(rows, name).value;
    SpanSays(rows, name, a, b);
    OwnHeader(rows, name, a);
    WholeRow(rows, a);
    SpanExists(AllPieces(rows), name, Place(rows, a));
  }

  /** Setting a key loses the file when any other row is broken, in the same profile or elsewhere. */
  lemma SetLoses(rows: seq<string>, name: string, key: string, v: Value, i: nat)
    requires Loose(rows) && BrokenFor(rows, name, key, i) && IsBareKey(key) && Clean(v)
    ensures SetText(Terminated(rows), name, key, v).Ok? && Read(SetText(Terminated(rows), name, key, v).value) == None
  {
    hide Loose, BlockSpan, BrokenFor, Classify, Terminated, SetText, Read, SplitLines, SetLine, DefinesKey, IsBareKey, Clean, PairText,
         AllPieces, ReadLines;
    var n := BadForSet(rows, name, key, i);
    SplitAll(rows);
    var lines := AllPieces(rows);
    var (start, end) := BlockSpan(lines, name).value;
    SetReads(Terminated(rows), name, key, v, start, end);
    var newLine := PairText(key, v).value;
    var m := SetKeepsLine(lines, start, end, key, newLine, n);
    BadLineUnreadable(SetLine(lines, start, end, key, newLine), m);
  }

  // ---------------------------------------------------------------- edits that do not

  /** No piece of a row looks like a header. */
  ghost predicate NoStrayHeader(rows: seq<string>) {
    forall n | 0 <= n < |AllPieces(rows)| :: !IsHeaderLike(AllPieces(rows)[n])
  }

  /** All breaks lie inside the block, and none of the pieces they make there ends it early. */
  ghost predicate Tame(rows: seq<string>, name: string) {
    OthersWhole(rows, name)
    && var (a, b) := BlockSpan(rows, name).value; NoStrayHeader(rows[a + 1..b])
  }

  lemma AroundBlock<T>(s: seq<T>, a: nat, b: nat)
    requires a < b <= |s|
    ensures s == s[..a] + ([s[a]] + (s[a + 1..b] + s[b..]))
  {
  }

  lemma PiecesAround(a: seq<string>, row: string, inside: seq<string>, b: seq<string>)
    requires AllNoBreaks(a) && NoBreaks(row) && AllNoBreaks(b)
    ensures AllPieces(a + ([row] + (inside + b))) == a + ([row] + (AllPieces(inside) + b))
  {
    hide AllPieces, NoBreaks;
    PiecesConcat(a, [row] + (inside + b));
    PiecesConcat([row], inside + b);
    PiecesConcat(inside, b);
    WholePieces(a);
    WholePieces([row]);
    WholePieces(b);
  }

  /** When all breaks are inside the block, the lines are its neighbours' rows around its own pieces. */
  lemma LinesAround(rows: seq<string>, name: string)
    requires Loose(rows) && OthersWhole(rows, name)
    ensures var (a, b) := BlockSpan(rows, name).value;
      && a < b <= |rows|
      && AllPieces(rows) == rows[..a] + ([rows[a]] + (AllPieces(rows[a + 1..b]) + rows[b..]))
      && Classify(rows[a]) == HeaderLine(Profile(name)) && Strip(rows[a]) == Header(name)
  {
    hide Loose, BlockSpan, Classify, Strip, Header, NoBreaks, IsHeaderLike, Pieces, AllPieces;
    var (a, b) := BlockSpan(rows, name).value;
    SpanSays(rows, name, a, b);
    OwnHeader(rows, name, a);
    AroundBlock(rows, a, b);
    PiecesAround(rows[..a], rows[a], rows[a + 1..b], rows[b..]);
  }

  /** The editor finds a tame block where it is, and all its pieces. */
  lemma TameSpan(rows: seq<string>, name: string)
    returns (end: nat)
    requires Loose(rows) && Tame(rows, name)
    ensures var lines, (a, b) := AllPieces(rows), BlockSpan(rows, name).value;
      && a < b <= |rows| && a < end <= |lines| && BlockSpan(lines, name) == Some((a, end))
      && lines[..a] == rows[..a] && lines[end..] == rows[b..]
  {
    hide Loose, BlockSpan, Classify, Strip, Header, NoBreaks, IsHeaderLike, AllPieces;
    var (a, b) := BlockSpan(rows, name).value;
    SpanSays(rows, name, a, b);
    LinesAround(rows, name);
    var inside := AllPieces(rows[a + 1..b]);
    var lines := AllPieces(rows);
    end := a + 1 + |inside|;
    assert forall n | 0 <= n < |inside| :: lines[a + 1 + n] == inside[n];
    forall j | a < j < end
      ensures !IsHeaderLike(lines[j])
    {
      assert lines[j] == inside[j - a - 1];
    }
    SpanIs(lines, name, a, end);
  }

  lemma TameRowsWhole(rows: seq<string>, name: string)
    requires Loose(rows) && OthersWhole(rows, name)
    ensures var (a, b) := BlockSpan(rows, name).value; a < b <= |rows| && AllNoBreaks(rows[..a]) && AllNoBreaks(rows[b..])
  {
    hide Loose, BlockSpan, NoBreaks;
    BlockInRows(rows, name);
  }

  lemma OverwriteTame(rows: seq<string>, name: string, table: Table)
    requires Loose(rows) && Tame(rows, name) && WritableTable(table)
    ensures OverwriteText(Terminated(rows), name, table).Ok? && ReadLines(START, rows).Reading?
    ensures var text' := OverwriteText(Terminated(rows), name, table).value;
      && Read(text') == Some(ReadLines(START, rows).doc[Profile(name) := table.values])
      && OnlyNewlines(text') && (Editable(rows) ==> Editable(SplitLines(text')))
  {
    BlockInRows(rows, name);
    var (a, b) := BlockSpan(rows, name).value;
    RowsNameIsBare(rows, name);
    hide Loose, Tame, BlockSpan, BlockAt, FormatLines, Terminated, OverwriteText, Read, SplitLines, ReadLines, Classify, IsBareKey,
         Writable, OnlyNewlines, NoBreaks, EditableLine, IsHeaderLike, Header, Strip, WritableTable;
    var end := TameSpan(rows, name);
    TameIsWhole(rows, name);
    TameRowsWhole(rows, name);
    SplitAll(rows);
    NewBlockLines(name, table);
    var block := FormatLines(name, table).value;
    SplitTerminated(block);
    PrintedIsValid(table);
    OverwriteLines(Terminated(rows), name, table, a, end);
    OverwrittenLines(rows, name, table, a, b);
    KeptLinesOf(rows, a, b, block);
    WholeLines(rows[..a] + block + rows[b..]);
  }

  lemma PrintedIsValid(table: Table)
    requires WritableTable(table)
    ensures table.Valid()
  {
    hide IsBareKey, Writable;
  }

  lemma TameIsWhole(rows: seq<string>, name: string)
    requires Tame(rows, name)
    ensures OthersWhole(rows, name)
  {
    hide OthersWhole, BlockSpan, NoStrayHeader;
  }

  lemma KeptLinesOf(rows: seq<string>, a: nat, b: nat, block: seq<string>)
    requires a <= b <= |rows| && AllNoBreaks(rows[..a]) && AllNoBreaks(rows[b..]) && AllNoBreaks(block)
    ensures AllNoBreaks(rows[..a] + block + rows[b..])
    ensures Editable(rows) && Editable(block) ==> Editable(rows[..a] + block + rows[b..])
  {
    hide NoBreaks, EditableLine;
  }

  lemma RowsNameIsBare(rows: seq<string>, name: string)
    requires Loose(rows) && BlockSpan(rows, name).Some?
    ensures IsBareKey(name)
  {
    hide ReadLines, BlockSpan, BlockAt, CutsAreBad, IsBareKey;
    BlockInRows(rows, name);
    NamesAreBare(START, rows, name);
  }

  lemma RemoveTame(rows: seq<string>, name: string)
    requires Loose(rows) && Tame(rows, name)
    ensures RemoveText(Terminated(rows), name).Ok? && ReadLines(START, rows).Reading?
    ensures var text' := RemoveText(Terminated(rows), name).value;
      && Read(text') == Some(ReadLines(START, rows).doc - {Profile(name)})
      && OnlyNewlines(text') && (Editable(rows) ==> Editable(SplitLines(text')))
  {
    BlockInRows(rows, name);
    var (a, b) := BlockSpan(rows, name).value;
    hide Loose, Tame, BlockSpan, BlockAt, Terminated, RemoveText, Read, SplitLines, ReadLines, Classify, OnlyNewlines, NoBreaks,
         EditableLine, IsHeaderLike, Header, Strip, DropEmpty;
    var end := TameSpan(rows, name);
    TameIsWhole(rows, name);
    TameRowsWhole(rows, name);
    SplitAll(rows);
    hide Editable, AllNoBreaks, AllPieces;
    RemovedReads(Terminated(rows), name, a, end);
    RemovedLines(rows, name, a, b);
    KeptAround(rows, a, b);
  }

  lemma KeptAround(rows: seq<string>, a: nat, b: nat)
    requires a <= b <= |rows| && AllNoBreaks(rows[..a]) && AllNoBreaks(rows[b..])
    ensures Editable(rows) ==> Editable(DropEmpty(rows[..a] + rows[b..]))
  {
    hide NoBreaks, EditableLine, DropEmpty;
    assert rows[..a] + [] + rows[b..] == rows[..a] + rows[b..];
    KeptLinesOf(rows, a, b, []);
    DropEmptyGood(rows[..a] + rows[b..]);
  }

  // ---------------------------------------------------------------- a piece that looks like a header

  lemma SectionTwice(lines: seq<string>, s: Section, i: nat, j: nat)
    requires i < j < |lines| && Classify(lines[i]) == HeaderLine(s) && Classify(lines[j]) == HeaderLine(s)
    ensures ReadLines(START, lines).Broken?
  {
    hide ReadLines, Classify;
    assert lines[i + 1..][j - i - 1] == lines[j];
    if ReadLines(START, lines).Reading? {
      assert lines == lines[..i + 1] + lines[i + 1..];
      ReadConcat(START, lines[..i + 1], lines[i + 1..]);
      BrokenStays(lines[i + 1..]);
      Sections(START, lines[..i + 1], s);
      assert lines[..i + 1][i] == lines[i];
      Sections(ReadLines(START, lines[..i + 1]), lines[i + 1..], s);
    }
  }

  /** Every table that the rows open is opened by a row that is not inside the block. */
  lemma OpenedOutside(rows: seq<string>, name: string, s: Section)
    returns (k: nat)
    requires Loose(rows) && BlockSpan(rows, name).Some? && ReadLines(START, rows).Reading? && s in ReadLines(START, rows).doc
    ensures var (a, b) := BlockSpan(rows, name).value; k < |rows| && !(a < k < b) && Classify(rows[k]) == HeaderLine(s)
  {
    hide ReadLines, Classify, BlockSpan;
    BlockInRows(rows, name);
    Sections(START, rows, s);
    var (a, b) := BlockSpan(rows, name).value;
    assert forall i | a < i < b :: rows[a + 1..b][i - a - 1] == rows[i];
    k :| 0 <= k < |rows| && Classify(rows[k]) == HeaderLine(s);
  }

  /** The editor takes a block with a piece like a header for shorter than it is. */
  lemma StrayEnds(rows: seq<string>, name: string)
    returns (end: nat)
    requires Loose(rows) && OthersWhole(rows, name) && !Tame(rows, name)
    ensures var lines, (a, b) := AllPieces(rows), BlockSpan(rows, name).value;
      && a < b <= |rows| && a < end < a + 1 + |AllPieces(rows[a + 1..b])| <= |lines|
      && BlockSpan(lines, name) == Some((a, end)) && IsHeaderLike(lines[end])
  {
    hide Loose, BlockSpan, Classify, Strip, Header, NoBreaks, IsHeaderLike, AllPieces, OthersWhole;
    WholeHasBlock(rows, name);
    LinesAround(rows, name);
    var lines := AllPieces(rows);
    var (a, b) := BlockSpan(rows, name).value;
    var inside := AllPieces(rows[a + 1..b]);
    SpanSays(rows, name, a, b);
    assert forall j | 0 <= j < a :: lines[j] == rows[j];
    assert lines[a] == rows[a];
    SpanExists(lines, name, a);
    var start := BlockSpan(lines, name).value.0;
    end := BlockSpan(lines, name).value.1;
    SpanSays(lines, name, start, end);
    var n :| 0 <= n < |inside| && IsHeaderLike(inside[n]);
    assert lines[a + 1 + n] == inside[n];
  }

  lemma StrayMeans(lines: seq<string>, e: nat)
    returns (s: Section)
    requires ReadLines(START, lines).Reading? && e < |lines| && IsHeaderLike(lines[e])
    ensures Classify(lines[e]) == HeaderLine(s) && s in ReadLines(START, lines).doc
  {
    hide ReadLines, Classify, IsHeaderLike, Strip, Header;
    ReadableIsMeaningful(START, lines);
    EditorAgrees(lines[e], "");
    s := Classify(lines[e]).section;
    Sections(START, lines, s);
  }

  /**
   * When a piece inside the block looks like a header, replacing or removing
   * what the editor takes for the block does not leave the other tables alone.
   */
  lemma StrayHeader(rows: seq<string>, name: string, block: seq<string>, values: map<string, Value>)
    requires Loose(rows) && OthersWhole(rows, name) && !Tame(rows, name)
    requires block != [] ==> Classify(block[0]) == HeaderLine(Profile(name))
    ensures BlockSpan(AllPieces(rows), name).Some? && ReadLines(START, rows).Reading?
    ensures var lines, doc, s := AllPieces(rows), ReadLines(START, rows).doc, Profile(name);
      var (start, end) := BlockSpan(lines, name).value;
      start < end <= |lines|
      && DocOf(ReadLines(START, lines[..start] + block + lines[end..])) != Some(if block == [] then doc - {s} else doc[s := values])
  {
    hide Loose, BlockSpan, BlockAt, Classify, Strip, Header, NoBreaks, IsHeaderLike, AllPieces, ReadLines, OthersWhole, Tame;
    BlockInRows(rows, name);
    WholeHasBlock(rows, name);
    var end := StrayEnds(rows, name);
    var lines := AllPieces(rows);
    var a := BlockSpan(rows, name).value.0;
    var result, e := lines[..a] + block + lines[end..], a + |block|;
    var doc, s := ReadLines(START, rows).doc, Profile(name);
    assert result[e] == lines[end];
    if DocOf(ReadLines(START, result)) == Some(if block == [] then doc - {s} else doc[s := values]) {
      var t := StrayMeans(result, e);
      StrayBroken(rows, name, block, end, t);
    }
  }

  lemma StrayBroken(rows: seq<string>, name: string, block: seq<string>, end: nat, t: Section)
    requires Loose(rows) && OthersWhole(rows, name) && ReadLines(START, rows).Reading?
    requires block != [] ==> Classify(block[0]) == HeaderLine(Profile(name))
    requires t == Profile(name) ==> block != []
    requires t != Profile(name) ==> t in ReadLines(START, rows).doc
    requires BlockSpan(rows, name).Some?
    requires var (a, b) := BlockSpan(rows, name).value;
      && a < b <= |rows| && a < end < a + 1 + |AllPieces(rows[a + 1..b])| <= |AllPieces(rows)|
      && Classify(AllPieces(rows)[end]) == HeaderLine(t)
    ensures var lines, a := AllPieces(rows), BlockSpan(rows, name).value.0;
      ReadLines(START, lines[..a] + block + lines[end..]).Broken?
  {
    hide Loose, BlockSpan, Classify, Strip, Header, AllPieces, ReadLines, OthersWhole;
    var lines := AllPieces(rows);
    var a := BlockSpan(rows, name).value.0;
    if t == Profile(name) {
      var result := lines[..a] + block + lines[end..];
      assert result[a] == block[0] && result[a + |block|] == lines[end];
      SectionTwice(result, t, a, a + |block|);
    } else {
      var k := OpenedOutside(rows, name, t);
      LinesAround(rows, name);
      StrayTwice(rows, name, block, end, t, k);
    }
  }

  lemma StrayTwice(rows: seq<string>, name: string, block: seq<string>, end: nat, t: Section, k: nat)
    requires Loose(rows) && OthersWhole(rows, name)
    requires var (a, b) := BlockSpan(rows, name).value;
      && a < b <= |rows| && a < end < a + 1 + |AllPieces(rows[a + 1..b])| <= |AllPieces(rows)|
      && k < |rows| && (k < a || k >= b) && Classify(rows[k]) == HeaderLine(t) && Classify(AllPieces(rows)[end]) == HeaderLine(t)
    ensures var lines, a := AllPieces(rows), BlockSpan(rows, name).value.0;
      ReadLines(START, lines[..a] + block + lines[end..]).Broken?
  {
    hide Loose, BlockSpan, Classify, Strip, Header, AllPieces, ReadLines, OthersWhole;
    WholeHasBlock(rows, name);
    LinesAround(rows, name);
    var lines := AllPieces(rows);
    var (a, b) := BlockSpan(rows, name).value;
    var inside := AllPieces(rows[a + 1..b]);
    var result, e := lines[..a] + block + lines[end..], a + |block|;
    assert result[e] == lines[end];
    if k < a {
      assert result[k] == lines[k] == rows[k];
      SectionTwice(result, t, k, e);
    } else {
      var p := a + 1 + |inside| + (k - b);
      assert lines[p] == rows[b..][k - b] == rows[k];
      assert result[p - end + e] == lines[p];
      SectionTwice(result, t, e, p - end + e);
    }
  }

  // ---------------------------------------------------------------- exactly when

  /**
   * Overwriting on a loose file replaces exactly the named profile if and only if
   * the table is writable, every break of the file lies inside the block, and no
   * piece there looks like a header.
   */
  lemma OverwriteLooseExactly(rows: seq<string>, name: string, table: Table)
    requires Loose(rows) && ReadLines(START, rows).Reading? && Profile(name) in ReadLines(START, rows).doc
    requires table.Valid() && FormatTable(name, table).Some?
    ensures OverwriteText(Terminated(rows), name, table).Ok?
    ensures Read(OverwriteText(Terminated(rows), name, table).value) == Some(ReadLines(START, rows).doc[Profile(name) := table.values])
      <==> WritableTable(table) && Tame(rows, name)
  {
    hide Loose, BlockSpan, BlockAt, FormatLines, FormatTable, Terminated, OverwriteText, Read, SplitLines, ReadLines, Classify, IsBareKey,
         Writable, CleanTable, OthersWhole, Tame, AllPieces, Header, NoBreaks, CutsAreBad, WritableTable;
    BlockInRows(rows, name);
    var doc := ReadLines(START, rows).doc;
    if !OthersWhole(rows, name) {
      OverwriteLoses(rows, name, table);
      if Tame(rows, name) {
        TameIsWhole(rows, name);
      }
    } else if !Tame(rows, name) {
      OverwriteStray(rows, name, table);
    } else if WritableTable(table) {
      OverwriteTame(rows, name, table);
    } else {
      OverwriteUnwritable(rows, name, table);
    }
  }

  lemma HeaderComesFirst(name: string, table: Table)
    requires table.Valid() && FormatTable(name, table).Some? && IsBareKey(name)
    ensures FormatLines(name, table).Some?
    ensures var block := SplitLines(Terminated(FormatLines(name, table).value));
      block != [] && block[0] == Header(name) && Classify(Header(name)) == HeaderLine(Profile(name))
  {
    hide FormatLines, FormatTable, Classify, SplitLines, Header, NoBreaks, IsBareKey;
    PrintedBlock(name, table);
    HeaderMeans(name);
    HeaderGood(name);
    var lines := FormatLines(name, table).value;
    SplitFirstLine(lines[0], Terminated(lines[1..]));
  }

  lemma OverwriteStray(rows: seq<string>, name: string, table: Table)
    requires Loose(rows) && OthersWhole(rows, name) && !Tame(rows, name) && ReadLines(START, rows).Reading?
    requires table.Valid() && FormatTable(name, table).Some?
    ensures OverwriteText(Terminated(rows), name, table).Ok?
    ensures Read(OverwriteText(Terminated(rows), name, table).value) != Some(ReadLines(START, rows).doc[Profile(name) := table.values])
  {
    hide Loose, BlockSpan, FormatLines, FormatTable, Terminated, OverwriteText, Read, SplitLines, ReadLines, Classify, IsBareKey,
         OthersWhole, Tame, AllPieces, Header, NoBreaks;
    WholeHasBlock(rows, name);
    RowsNameIsBare(rows, name);
    HeaderComesFirst(name, table);
    PrintedBlock(name, table);
    var block := SplitLines(Terminated(FormatLines(name, table).value));
    StrayHeader(rows, name, block, table.values);
    SplitAll(rows);
    var lines := AllPieces(rows);
    var (start, end) := BlockSpan(lines, name).value;
    OverwriteLines(Terminated(rows), name, table, start, end);
    WholeLines(lines[..start] + block + lines[end..]);
  }

  lemma OverwriteUnwritable(rows: seq<string>, name: string, table: Table)
    requires Loose(rows) && BlockSpan(rows, name).Some? && ReadLines(START, rows).Reading?
    requires table.Valid() && FormatTable(name, table).Some? && !WritableTable(table)
    ensures OverwriteText(Terminated(rows), name, table).Ok?
    ensures Read(OverwriteText(Terminated(rows), name, table).value) != Some(ReadLines(START, rows).doc[Profile(name) := table.values])
  {
    hide *;
    RowsSpan(rows, name);
    SplitAll(rows);
    var lines := AllPieces(rows);
    var start, end := BlockSpan(lines, name).value.0, BlockSpan(lines, name).value.1;
    SpanSays(lines, name, start, end);
    PrintedBlock(name, table);
    OverwriteLines(Terminated(rows), name, table, start, end);
    var text' := OverwriteText(Terminated(rows), name, table).value;
    if Read(text') == Some(ReadLines(START, rows).doc[Profile(name) := table.values]) {
      ReadTablesAreClean(text', name, table);
      CleanBlock(name, table);
      var n := BadPiece(FormatLines(name, table).value);
      var block := SplitLines(Terminated(FormatLines(name, table).value));
      BlockIsIn(lines, start, end, block, n);
      BadTextUnreadable(lines[..start] + block + lines[end..], block[n]);
    }
  }

  lemma BlockIsIn(lines: seq<string>, start: nat, end: nat, block: seq<string>, n: nat)
    requires start <= end <= |lines| && n < |block|
    ensures block[n] in lines[..start] + block + lines[end..]
  {
    assert (lines[..start] + block + lines[end..])[start + n] == block[n];
  }

  /** Removing on a loose file drops exactly the named profile if and only if every break lies inside the block and no piece there looks like a header. */
  lemma RemoveLooseExactly(rows: seq<string>, name: string)
    requires Loose(rows) && ReadLines(START, rows).Reading? && Profile(name) in ReadLines(START, rows).doc
    ensures RemoveText(Terminated(rows), name).Ok?
    ensures Read(RemoveText(Terminated(rows), name).value) == Some(ReadLines(START, rows).doc - {Profile(name)}) <==> Tame(rows, name)
  {
    hide Loose, BlockSpan, BlockAt, Terminated, RemoveText, Read, SplitLines, ReadLines, Classify, OthersWhole, Tame, AllPieces, NoBreaks,
         CutsAreBad, OnlyNewlines, DropEmpty;
    BlockInRows(rows, name);
    if !OthersWhole(rows, name) {
      RemoveLoses(rows, name);
      if Tame(rows, name) {
        TameIsWhole(rows, name);
      }
    } else if Tame(rows, name) {
      RemoveTame(rows, name);
    } else {
      StrayHeader(rows, name, [], map[]);
      SplitAll(rows);
      var lines := AllPieces(rows);
      var (start, end) := BlockSpan(lines, name).value;
      RemovedReads(Terminated(rows), name, start, end);
      assert lines[..start] + [] + lines[end..] == lines[..start] + lines[end..];
    }
  }
}
