/**
 * Setting one value on a file whose values hold characters that `splitlines`
 * breaks lines at: exactly when it changes that value and nothing else.
 */
module LooseSets {
  import opened Wrappers
  import opened PyText
  import opened TomlValue
  import opened ProfileFile
  import opened LineFacts
  import opened FileReading
  import opened FileEdits
  import opened FileAlgebra
  import opened SetRefinement
  import opened ExactEdits
  import opened SplitRows

  /** Lines that say nothing: blank ones and comments. */
  ghost predicate Silent(lines: seq<string>) {
    forall i | 0 <= i < |lines| :: Classify(lines[i]).BlankLine? || Classify(lines[i]).CommentLine?
  }

  /** Every break of the file lies in the one row that a set of the key replaces, and cuts off only what says nothing. */
  ghost predicate OwnBreaks(rows: seq<string>, name: string, key: string) {
    forall i | 0 <= i < |rows| && !NoBreaks(rows[i]) :: !BrokenFor(rows, name, key, i) && Silent(Pieces(rows[i])[1..])
  }

  lemma {:induction false} SilentLinesRead(st: Reading, lines: seq<string>)
    requires Silent(lines)
    ensures ReadLines(st, lines) == st
    decreases |lines|
  {
    hide Classify;
    if lines != [] {
      SilentLinesRead(st, lines[1..]);
    }
  }

  // ---------------------------------------------------------------- what a table may hold once

  lemma AroundTwo<T>(s: seq<T>, p: nat, q: nat)
    requires p < q < |s|
    ensures s == s[..p] + ([s[p]] + (s[p + 1..q + 1] + s[q + 1..])) && s[p + 1..q + 1][q - p - 1] == s[q]
  {
  }

  /** With no header between them, two pairs of the same key break a file. */
  lemma PairTwice(lines: seq<string>, p: nat, q: nat, key: string)
    requires p < q < |lines| && Body(lines[p + 1..q + 1])
    requires Classify(lines[p]).PairLine? && Classify(lines[p]).key == key && Classify(lines[q]).PairLine? && Classify(lines[q]).key == key
    ensures ReadLines(START, lines).Broken?
  {
    hide ReadLines, Classify, Body;
    if ReadLines(START, lines).Reading? {
      AroundTwo(lines, p, q);
      var inside, rest := lines[p + 1..q + 1], lines[q + 1..];
      ReadConcat(START, lines[..p], [lines[p]] + (inside + rest));
      var st := ReadLines(START, lines[..p]);
      ReadConcat(st, [lines[p]], inside + rest);
      BrokenStays([lines[p]] + (inside + rest));
      ReadOne(st, lines[p]);
      BrokenStays(inside + rest);
      var doc, s, m := PairReadBy(st, lines[p]);
      ReadConcat(Reading(doc[s := m], Some(s)), inside, rest);
      BrokenStays(rest);
      BodyKeys(doc, s, m, key, inside);
    }
  }

  lemma PairReadBy(st: Reading, line: string)
    returns (doc: Doc, s: Section, m: map<string, Value>)
    requires Classify(line).PairLine? && st.Reading? && ReadLine(st, line).Reading?
    ensures ReadLine(st, line) == Reading(doc[s := m], Some(s)) && Classify(line).key in m
  {
    hide Classify;
    doc, s := st.doc, st.current.value;
    m := ReadLine(st, line).doc[s];
  }

  /** A block defines exactly the keys of its pairs. */
  lemma KeysOfBlock(lines: seq<string>, name: string, start: nat, end: nat, key: string)
    requires ReadLines(START, lines).Reading? && BlockAt(lines, name, start, end)
    ensures Profile(name) in ReadLines(START, lines).doc && start < end <= |lines|
    ensures key in ReadLines(START, lines).doc[Profile(name)] <==> !NoPair(lines[start + 1..end], key)
  {
    hide ReadLines, Classify, NoPair, NoHeader, StartsBlock;
    var before, m := BlockReads(lines, name, start, end);
    BlockTable(lines, name, start, end, before, m);
    BodyKeys(before.doc, Profile(name), map[], key, lines[start + 1..end]);
    assert ReadLines(Reading(before.doc[Profile(name) := map[]], Some(Profile(name))), lines[start + 1..end]).doc[Profile(name)] == m;
  }

  // ---------------------------------------------------------------- the row that is replaced

  lemma KeyIsWhole(row: string, key: string, i: nat)
    requires IsBareKey(key) && DefinesKey(row, key) && i <= |key|
    ensures i < |LStrip(row)| && !IsBreak(LStrip(row)[i])
  {
    hide LStrip;
    var u := LStrip(row);
    BareNoBreaks(key);
    assert !IsBreak(' ') && !IsBreak('=');
    assert i < |key| ==> u[..|key| + 1][i] == u[i] && u[i] == key[i];
  }

  /** The first piece of a pair's row still defines its key. */
  lemma FirstPieceDefines(rows: seq<string>, i: nat, key: string)
    requires Loose(rows) && i < |rows| && !NoBreaks(rows[i]) && IsBareKey(key) && DefinesKey(rows[i], key)
    ensures DefinesKey(Pieces(rows[i])[0], key)
  {
    hide ReadLines, Classify, Pieces, LStrip, Strip, IsBreak, IsBareKey, DefinesKey;
    ReadableIsMeaningful(START, rows);
    FirstPiece(rows[i]);
    CutBehindKey(rows[i], FirstCut(rows[i]), key);
  }

  lemma CutBehindKey(row: string, k: nat, key: string)
    requires Classify(row) != BadLine && CutAt(row, k) && Classify(row[..k]) == BadLine && IsBareKey(key) && DefinesKey(row, key)
    ensures DefinesKey(row[..k], key)
  {
    hide *;
    FrontPart(row, k);
    CutIs(row, k);
    FrontEnds(row, k);
    if |LStrip(row[..k])| <= |key| {
      KeyIsWhole(row, key, |LStrip(row[..k])|);
      assert false;
    }
    DefinesKeyShorter(row[..k], row, key);
  }

  lemma CutIs(row: string, k: nat)
    requires CutAt(row, k)
    ensures k < |row| && IsBreak(row[k])
  {
  }

  lemma DefinesKeyShorter(front: string, row: string, key: string)
    requires LStrip(front) <= LStrip(row) && DefinesKey(row, key) && |LStrip(front)| > |key|
    ensures DefinesKey(front, key)
  {
    hide LStrip;
    var f, r := LStrip(front), LStrip(row);
    assert f == r[..|f|];
    assert f[..|key| + 1] == r[..|key| + 1];
  }

  /** Stripping a line and stripping its front part start at the same place. */
  lemma FrontEnds(row: string, k: nat)
    requires k < |row| && LStrip(row[..k]) <= LStrip(row) && Strip(row[..k]) != ""
    ensures var u, f := LStrip(row), LStrip(row[..k]);
      |f| < |u| && f == u[..|f|] && u[|f|] == row[k]
  {
    hide TrimLeft, IsSpace;
    var u, f := LStrip(row), LStrip(row[..k]);
    var q := |row| - |u|;
    TrimLeftSays(row, IsSpace);
    TrimLeftSays(row[..k], IsSpace);
    assert f != [];
    assert forall i | 0 <= i < k :: row[..k][i] == row[i];
    assert u[0] == row[q];
    assert u[|f|] == row[q + |f|];
  }

  /** The only broken row is one of the block, and defines the key. */
  ghost predicate OwnRow(rows: seq<string>, name: string, key: string, i: nat) {
    && Loose(rows) && BlockSpan(rows, name).Some? && i < |rows| && !NoBreaks(rows[i]) && DefinesKey(rows[i], key)
    && (forall j | 0 <= j < |rows| && j != i :: NoBreaks(rows[j]))
    && var (a, b) := BlockSpan(rows, name).value; a < i < b
  }

  lemma OwnRowIs(rows: seq<string>, name: string, key: string, i: nat)
    requires OwnRow(rows, name, key, i)
    ensures Loose(rows) && BlockSpan(rows, name).Some? && i < |rows| && !NoBreaks(rows[i]) && DefinesKey(rows[i], key)
    ensures ReadLines(START, rows).Reading? && Classify(rows[i]) != BadLine
    ensures var (a, b) := BlockSpan(rows, name).value; a < i < b <= |rows| && BlockAt(rows, name, a, b)
  {
    hide BlockSpan, DefinesKey, NoBreaks, Classify, ReadLines, BlockAt, CutsAreBad;
    BlockInRows(rows, name);
    ReadableIsMeaningful(START, rows);
  }

  /** The lines of such a file: its rows, and in place of one the pieces of it. */
  lemma LinesOfOwn(rows: seq<string>, name: string, key: string, i: nat)
    requires OwnRow(rows, name, key, i)
    ensures AllPieces(rows) == rows[..i] + (Pieces(rows[i]) + rows[i + 1..])
  {
    hide BlockSpan, Loose, DefinesKey, Pieces, AllPieces, NoBreaks;
    AroundIndex(rows, i);
    PiecesConcat(rows[..i], [rows[i]] + rows[i + 1..]);
    PiecesConcat([rows[i]], rows[i + 1..]);
    RowAlone(rows[i]);
    WholePieces(rows[..i]);
    WholePieces(rows[i + 1..]);
  }

  lemma PieceForRow(lines: seq<string>, rows: seq<string>, pieces: seq<string>, i: nat, newLine: string)
    requires i < |rows| && pieces != [] && lines == rows[..i] + (pieces + rows[i + 1..])
    ensures |lines| == |rows| + |pieces| - 1 && lines[i] == pieces[0] && forall j | 0 <= j < i :: lines[j] == rows[j]
    ensures lines[i := newLine] == rows[..i] + ([newLine] + (pieces[1..] + rows[i + 1..]))
  {
  }

  lemma FrontOfOwn(rows: seq<string>, name: string, key: string, i: nat)
    requires OwnRow(rows, name, key, i)
    ensures i < |rows| <= |AllPieces(rows)| && AllPieces(rows)[i] == Pieces(rows[i])[0]
    ensures forall j | 0 <= j < i :: AllPieces(rows)[j] == rows[j]
  {
    OwnRowIs(rows, name, key, i);
    LinesOfOwn(rows, name, key, i);
    hide *;
    PieceForRow(AllPieces(rows), rows, Pieces(rows[i]), i, "");
  }

  /** The editor finds the block at its header, with at least the first piece of the broken row in it. */
  lemma OwnSpan(rows: seq<string>, name: string, key: string, i: nat)
    returns (end: nat)
    requires OwnRow(rows, name, key, i)
    ensures BlockSpan(rows, name).Some?
    ensures var a := BlockSpan(rows, name).value.0;
      BlockSpan(AllPieces(rows), name) == Some((a, end)) && a < i < end <= |AllPieces(rows)|
  {
    hide *;
    OwnRowIs(rows, name, key, i);
    var lines := AllPieces(rows);
    var (a, b) := BlockSpan(rows, name).value;
    SpanSays(rows, name, a, b);
    FrontOfOwn(rows, name, key, i);
    SpanExists(lines, name, a);
    var start := BlockSpan(lines, name).value.0;
    end := BlockSpan(lines, name).value.1;
    SpanSays(lines, name, start, end);
    FirstPieceIsPair(rows, i);
  }

  lemma FirstPieceIsPair(rows: seq<string>, i: nat)
    requires Loose(rows) && i < |rows| && !NoBreaks(rows[i])
    ensures !IsHeaderLike(Pieces(rows[i])[0])
  {
    BrokenRow(rows, i);
    hide Loose, Pieces, NoBreaks, Strip, Classify, LStrip;
    PieceAt(rows, i, 0);
  }

  lemma SetLineAt(lines: seq<string>, start: nat, end: nat, key: string, newLine: string, i: nat)
    requires start < i < end <= |lines| && DefinesKey(lines[i], key) && forall j | start < j < i :: !DefinesKey(lines[j], key)
    ensures SetLine(lines, start, end, key, newLine) == lines[i := newLine]
  {
    hide DefinesKey, SetLine;
    var k := SetLinePlace(lines, start, end, key, newLine);
    SetLineFinds(lines, start, end, key, newLine, i);
  }

  lemma SetLineFinds(lines: seq<string>, start: nat, end: nat, key: string, newLine: string, i: nat)
    requires start < i < end <= |lines| && DefinesKey(lines[i], key)
    ensures |SetLine(lines, start, end, key, newLine)| == |lines|
  {
    hide DefinesKey;
    assert lines[..end][i] == lines[i];
  }

  /** In front of the row that defines the key no row of the block passes for it. */
  lemma NoneBefore(rows: seq<string>, name: string, key: string, i: nat)
    requires OwnRow(rows, name, key, i) && IsBareKey(key)
    ensures BlockSpan(rows, name).Some? && i < |rows|
    ensures forall j | BlockSpan(rows, name).value.0 < j < i :: !DefinesKey(rows[j], key)
  {
    OwnRowIs(rows, name, key, i);
    hide BlockSpan, Loose, OwnRow, DefinesKey, NoBreaks, Classify, ReadLines, NoHeader, StartsBlock, IsBareKey;
    var (a, b) := BlockSpan(rows, name).value;
    ReadableIsMeaningful(START, rows);
    DefinesKeyMeans(rows[i], key);
    forall j | a < j < i
      ensures !DefinesKey(rows[j], key)
    {
      if DefinesKey(rows[j], key) {
        DefinesKeyMeans(rows[j], key);
        BodyPart(rows, a, b, j, i);
        PairTwice(rows, j, i, key);
      }
    }
  }

  lemma BodyPart(lines: seq<string>, a: nat, b: nat, p: nat, q: nat)
    requires a <= p <= q < b <= |lines| && Body(lines[a + 1..b])
    ensures Body(lines[p + 1..q + 1])
  {
    hide Classify;
    var part := lines[p + 1..q + 1];
    forall k | 0 <= k < |part|
      ensures !Classify(part[k]).HeaderLine?
    {
      assert part[k] == lines[a + 1..b][p - a + k];
    }
  }

  /** What a set makes of such a file: the first piece replaced, the others left behind it. */
  lemma OwnResult(rows: seq<string>, name: string, key: string, i: nat, end: nat, newLine: string)
    requires OwnRow(rows, name, key, i) && IsBareKey(key)
    requires BlockSpan(rows, name).Some? && BlockSpan(AllPieces(rows), name) == Some((BlockSpan(rows, name).value.0, end))
    ensures var a, b := BlockSpan(rows, name).value.0, BlockSpan(rows, name).value.1;
      && i < |rows| && a < end <= |AllPieces(rows)| && a < b <= |rows|
      && SetLine(AllPieces(rows), a, end, key, newLine) == rows[..i] + ([newLine] + (Pieces(rows[i])[1..] + rows[i + 1..]))
      && SetLine(rows, a, b, key, newLine) == rows[..i] + ([newLine] + rows[i + 1..])
  {
    hide *;
    OwnRowIs(rows, name, key, i);
    var end' := OwnSpan(rows, name, key, i);
    NoneBefore(rows, name, key, i);
    FirstPieceDefines(rows, i, key);
    var lines := AllPieces(rows);
    var (a, b) := BlockSpan(rows, name).value;
    FrontOfOwn(rows, name, key, i);
    SetLineAt(lines, a, end, key, newLine, i);
    SetLineAt(rows, a, b, key, newLine, i);
    LinesOfOwn(rows, name, key, i);
    PieceForRow(lines, rows, Pieces(rows[i]), i, newLine);
    PieceForRow(rows, rows, [rows[i]], i, newLine);
  }

  // ---------------------------------------------------------------- what is left behind

  function WithTail(rows: seq<string>, i: nat, newLine: string, tail: seq<string>): seq<string>
    requires i < |rows|
  {
    rows[..i] + ([newLine] + (tail + rows[i + 1..]))
  }

  lemma TailPlaces(rows: seq<string>, i: nat, newLine: string, tail: seq<string>)
    requires i < |rows|
    ensures var r := WithTail(rows, i, newLine, tail);
      && |r| == |rows| + |tail| && r[i] == newLine
      && (forall k | 0 <= k < i :: r[k] == rows[k]) && (forall k | i < k < |rows| :: r[k + |tail|] == rows[k])
      && forall q | i < q <= i + |tail| :: r[q] == tail[q - i - 1]
  {
  }

  lemma SilentTail(rows: seq<string>, i: nat, newLine: string, tail: seq<string>)
    requires i < |rows| && Silent(tail)
    ensures ReadLines(START, WithTail(rows, i, newLine, tail)) == ReadLines(START, rows[..i] + ([newLine] + rows[i + 1..]))
  {
    hide ReadLines, Silent;
    var x, y := rows[..i], rows[i + 1..];
    ReadConcat(START, x, [newLine] + (tail + y));
    ReadConcat(START, x, [newLine] + y);
    var st := ReadLines(START, x);
    ReadConcat(st, [newLine], tail + y);
    ReadConcat(st, [newLine], y);
    ReadConcat(ReadLines(st, [newLine]), tail, y);
    SilentLinesRead(ReadLines(st, [newLine]), tail);
  }

  /** A piece that opens a table would open one that the file has. */
  lemma NoTailHeader(rows: seq<string>, name: string, key: string, i: nat, newLine: string, tail: seq<string>, q: nat)
    requires OwnRow(rows, name, key, i) && i < q <= i + |tail| && i < |rows|
    requires var r := ReadLines(START, WithTail(rows, i, newLine, tail)); var r0 := ReadLines(START, rows);
      r.Reading? && r0.Reading? && r.doc.Keys == r0.doc.Keys
    ensures !Classify(tail[q - i - 1]).HeaderLine?
  {
    hide *;
    OwnRowIs(rows, name, key, i);
    TailPlaces(rows, i, newLine, tail);
    var r := WithTail(rows, i, newLine, tail);
    if Classify(r[q]).HeaderLine? {
      var t := Classify(r[q]).section;
      OpensTable(r, q, t);
      assert t in ReadLines(START, r).doc.Keys;
      var k := OpenedOutside(rows, name, t);
      if k < i {
        SectionTwice(r, t, k, q);
      } else {
        assert r[k + |tail|] == rows[k];
        SectionTwice(r, t, q, k + |tail|);
      }
    }
  }

  lemma OpensTable(lines: seq<string>, i: nat, s: Section)
    requires ReadLines(START, lines).Reading? && i < |lines| && Classify(lines[i]) == HeaderLine(s)
    ensures s in ReadLines(START, lines).doc
  {
    hide ReadLines, Classify;
    Sections(START, lines, s);
  }

  /** When no piece opens a table, the block holds them all. */
  lemma TailInBlock(rows: seq<string>, name: string, key: string, i: nat, newLine: string, tail: seq<string>)
    requires OwnRow(rows, name, key, i) && i < |rows| && Body(tail) && Classify(newLine).PairLine? && BlockSpan(rows, name).Some?
    ensures var (a, b) := BlockSpan(rows, name).value;
      && a < i < b <= |rows| && |WithTail(rows, i, newLine, tail)| == |rows| + |tail|
      && Body(WithTail(rows, i, newLine, tail)[a + 1..b + |tail|])
  {
    hide *;
    OwnRowIs(rows, name, key, i);
    TailPlaces(rows, i, newLine, tail);
    var a, b := BlockSpan(rows, name).value.0, BlockSpan(rows, name).value.1;
    OpensBlock(rows, name, a, b);
    BodyWithTail(rows, a, b, i, newLine, tail);
  }

  lemma BodyWithTail(rows: seq<string>, a: nat, b: nat, i: nat, newLine: string, tail: seq<string>)
    requires a < i < b <= |rows| && Body(rows[a + 1..b]) && Body(tail) && Classify(newLine).PairLine?
    ensures b + |tail| <= |WithTail(rows, i, newLine, tail)| && Body(WithTail(rows, i, newLine, tail)[a + 1..b + |tail|])
  {
    hide Classify;
    BodyPart(rows, a, b, a, i - 1);
    BodyPart(rows, a, b, i, b - 1);
    var x, y := rows[a + 1..i], rows[i + 1..b];
    assert WithTail(rows, i, newLine, tail)[a + 1..b + |tail|] == x + ([newLine] + (tail + y));
  }

  lemma BlockHas(lines: seq<string>, name: string, a: nat, e: nat, q: nat)
    requires ReadLines(START, lines).Reading? && a < q < e <= |lines|
    requires Classify(lines[a]) == HeaderLine(Profile(name)) && Body(lines[a + 1..e]) && Classify(lines[q]).PairLine?
    ensures Profile(name) in ReadLines(START, lines).doc && Classify(lines[q]).key in ReadLines(START, lines).doc[Profile(name)]
  {
    hide Classify, ReadLines, BlockSpan;
    OpensTable(lines, a, Profile(name));
    SpanFound(lines, name);
    var start := BlockSpan(lines, name).value.0;
    var end := BlockSpan(lines, name).value.1;
    var front, back, inside := lines[..start], lines[start + 1..], lines[a + 1..e];
    assert forall k | 0 <= k < start :: front[k] == lines[k];
    assert forall k | start < k < |lines| :: lines[k] == back[k - start - 1];
    assert forall k | a < k < e :: lines[k] == inside[k - a - 1];
    KeysOfBlock(lines, name, start, end, Classify(lines[q]).key);
    assert lines[start + 1..end][q - start - 1] == lines[q];
  }

  /** Nor can a piece define a key: the block would have one too many, or one twice. */
  lemma NoTailPair(rows: seq<string>, name: string, key: string, i: nat, newLine: string, tail: seq<string>, q: nat)
    requires OwnRow(rows, name, key, i) && IsBareKey(key) && i < q <= i + |tail| && i < |rows| && Body(tail)
    requires Classify(newLine).PairLine? && Classify(newLine).key == key
    requires var r := ReadLines(START, WithTail(rows, i, newLine, tail)); var r0 := ReadLines(START, rows); var s := Profile(name);
      r.Reading? && r0.Reading? && s in r.doc && s in r0.doc && r.doc[s].Keys == r0.doc[s].Keys + {key}
    ensures !Classify(tail[q - i - 1]).PairLine?
  {
    hide *;
    OwnRowIs(rows, name, key, i);
    TailPlaces(rows, i, newLine, tail);
    TailInBlock(rows, name, key, i, newLine, tail);
    var r := WithTail(rows, i, newLine, tail);
    var a, b := BlockSpan(rows, name).value.0, BlockSpan(rows, name).value.1;
    if Classify(r[q]).PairLine? {
      var other := Classify(r[q]).key;
      if other == key {
        BodyPart(r, a, b + |tail|, i, q);
        PairTwice(r, i, q, key);
      } else {
        OpensBlock(rows, name, a, b);
        BlockHas(r, name, a, b + |tail|, q);
        assert other in ReadLines(START, r).doc[Profile(name)].Keys;
        var p := RowOfKey(rows, name, a, b, other);
        DefinesKeyMeans(rows[i], key);
        if p < i {
          BodyPart(r, a, b + |tail|, p, q);
          PairTwice(r, p, q, other);
        } else {
          assert r[p + |tail|] == rows[p];
          BodyPart(r, a, b + |tail|, q, p + |tail|);
          PairTwice(r, q, p + |tail|, other);
        }
      }
    }
  }

  lemma RowOfKey(rows: seq<string>, name: string, a: nat, b: nat, key: string)
    returns (p: nat)
    requires ReadLines(START, rows).Reading? && BlockAt(rows, name, a, b) && Profile(name) in ReadLines(START, rows).doc
    requires key in ReadLines(START, rows).doc[Profile(name)]
    ensures a < p < b <= |rows| && Classify(rows[p]).PairLine? && Classify(rows[p]).key == key
  {
    hide ReadLines, Classify, BlockAt;
    KeysOfBlock(rows, name, a, b, key);
    var inside := rows[a + 1..b];
    var k :| 0 <= k < |inside| && Classify(inside[k]).PairLine? && Classify(inside[k]).key == key;
    p := a + 1 + k;
  }

  /** A result that says no more than it should has a tail that says nothing. */
  lemma TailIsSilent(rows: seq<string>, name: string, key: string, i: nat, newLine: string, tail: seq<string>)
    requires OwnRow(rows, name, key, i) && IsBareKey(key) && i < |rows| && Classify(newLine).PairLine? && Classify(newLine).key == key
    requires var r := ReadLines(START, WithTail(rows, i, newLine, tail)); var r0 := ReadLines(START, rows); var s := Profile(name);
      && r.Reading? && r0.Reading? && r.doc.Keys == r0.doc.Keys
      && s in r.doc && s in r0.doc && r.doc[s].Keys == r0.doc[s].Keys + {key}
    ensures Silent(tail)
  {
    hide Classify, ReadLines, OwnRow, IsBareKey, WithTail;
    TailPlaces(rows, i, newLine, tail);
    ReadableIsMeaningful(START, WithTail(rows, i, newLine, tail));
    forall k | 0 <= k < |tail|
      ensures Classify(tail[k]) != BadLine && !Classify(tail[k]).HeaderLine?
    {
      assert WithTail(rows, i, newLine, tail)[i + 1 + k] == tail[k];
      NoTailHeader(rows, name, key, i, newLine, tail, i + 1 + k);
    }
    forall k | 0 <= k < |tail|
      ensures !Classify(tail[k]).PairLine?
    {
      NoTailPair(rows, name, key, i, newLine, tail, i + 1 + k);
    }
  }

  // ---------------------------------------------------------------- exactly when

  lemma NoneHidden(rows: seq<string>, name: string, key: string, i: nat)
    requires OwnRow(rows, name, key, i) && IsBareKey(key) && BlockSpan(rows, name).Some?
    ensures var (a, b) := BlockSpan(rows, name).value; !HiddenPair(rows, a, b, key)
  {
    OwnRowIs(rows, name, key, i);
    hide OwnRow, BlockSpan, Loose, DefinesKey, NoBreaks, Classify, ReadLines, NoHeader, StartsBlock, IsBareKey, Body;
    var (a, b) := BlockSpan(rows, name).value;
    DefinesKeyMeans(rows[i], key);
    if HiddenPair(rows, a, b, key) {
      var p :| a < p < b && Classify(rows[p]).PairLine? && Classify(rows[p]).key == key && !DefinesKey(rows[p], key);
      if p < i {
        BodyPart(rows, a, b, p, i);
        PairTwice(rows, p, i, key);
      } else {
        BodyPart(rows, a, b, i, p);
        PairTwice(rows, i, p, key);
      }
    }
  }

  lemma KeysOfUpdate(r: Reading, doc: Doc, s: Section, key: string, v: Value)
    requires s in doc && DocOf(r) == Some(doc[s := doc[s][key := v]])
    ensures r.Reading? && r.doc.Keys == doc.Keys && s in r.doc && r.doc[s].Keys == doc[s].Keys + {key}
  {
  }

  /** A set on a file whose only broken row is the one it replaces. */
  lemma SetOwn(rows: seq<string>, name: string, key: string, v: Value, i: nat)
    requires OwnRow(rows, name, key, i) && IsBareKey(key) && Clean(v)
    ensures SetText(Terminated(rows), name, key, v).Ok? && i < |rows|
    ensures ReadLines(START, rows).Reading? && Profile(name) in ReadLines(START, rows).doc
    ensures var doc, s := ReadLines(START, rows).doc, Profile(name);
      Read(SetText(Terminated(rows), name, key, v).value) == Some(doc[s := doc[s][key := v]]) <==> Silent(Pieces(rows[i])[1..])
  {
    hide *;
    OwnRowIs(rows, name, key, i);
    var a, b := BlockSpan(rows, name).value.0, BlockSpan(rows, name).value.1;
    var end := OwnSpan(rows, name, key, i);
    SplitAll(rows);
    SetReads(Terminated(rows), name, key, v, a, end);
    var newLine, tail := PairText(key, v).value, Pieces(rows[i])[1..];
    OwnResult(rows, name, key, i, end, newLine);
    WithTailIs(rows, i, newLine, tail);
    SetLines(rows, name, a, b, key, v, newLine);
    NoneHidden(rows, name, key, i);
    var doc, s := ReadLines(START, rows).doc, Profile(name);
    if Silent(tail) {
      SilentTail(rows, i, newLine, tail);
    } else if Read(SetText(Terminated(rows), name, key, v).value) == Some(doc[s := doc[s][key := v]]) {
      KeysOfUpdate(ReadLines(START, WithTail(rows, i, newLine, tail)), doc, s, key, v);
      TailIsSilent(rows, name, key, i, newLine, tail);
    }
  }

  lemma WithTailIs(rows: seq<string>, i: nat, newLine: string, tail: seq<string>)
    requires i < |rows|
    ensures WithTail(rows, i, newLine, tail) == rows[..i] + ([newLine] + (tail + rows[i + 1..]))
  {
  }

  /** A set on a file without broken rows. */
  lemma SetWhole(rows: seq<string>, name: string, key: string, v: Value)
    requires Loose(rows) && AllNoBreaks(rows) && BlockSpan(rows, name).Some? && IsBareKey(key) && Clean(v)
    ensures SetText(Terminated(rows), name, key, v).Ok?
    ensures ReadLines(START, rows).Reading? && Profile(name) in ReadLines(START, rows).doc
    ensures var doc, s, (a, b) := ReadLines(START, rows).doc, Profile(name), BlockSpan(rows, name).value;
      Read(SetText(Terminated(rows), name, key, v).value)
      == if HiddenPair(rows, a, b, key) then None else Some(doc[s := doc[s][key := v]])
  {
    hide *;
    BlockInRows(rows, name);
    SplitAll(rows);
    WholePieces(rows);
    var a, b := BlockSpan(rows, name).value.0, BlockSpan(rows, name).value.1;
    SetReads(Terminated(rows), name, key, v, a, b);
    SetLines(rows, name, a, b, key, v, PairText(key, v).value);
  }

  /** Either some row is broken that a set of the key would not replace, or none is, or just the one that it replaces. */
  lemma BreaksOf(rows: seq<string>, name: string, key: string)
    returns (i: nat)
    requires Loose(rows) && BlockSpan(rows, name).Some? && IsBareKey(key) && !AllNoBreaks(rows)
    ensures BrokenFor(rows, name, key, i) || OwnRow(rows, name, key, i)
  {
    BlockInRows(rows, name);
    hide BlockSpan, Loose, DefinesKey, NoBreaks, Classify, ReadLines, NoHeader, StartsBlock, IsBareKey, Body;
    var (a, b) := BlockSpan(rows, name).value;
    ReadableIsMeaningful(START, rows);
    if j :| 0 <= j < |rows| && BrokenFor(rows, name, key, j) {
      i := j;
    } else {
      i :| 0 <= i < |rows| && !NoBreaks(rows[i]);
      assert !BrokenFor(rows, name, key, i);
      forall j | 0 <= j < |rows| && j != i
        ensures NoBreaks(rows[j])
      {
        if !NoBreaks(rows[j]) {
          assert !BrokenFor(rows, name, key, j);
          DefinesKeyMeans(rows[i], key);
          DefinesKeyMeans(rows[j], key);
          var p, q := if i < j then i else j, if i < j then j else i;
          BodyPart(rows, a, b, p, q);
          PairTwice(rows, p, q, key);
        }
      }
    }
  }

  lemma OwnBreaksIs(rows: seq<string>, name: string, key: string, i: nat)
    requires OwnRow(rows, name, key, i)
    ensures i < |rows| && (OwnBreaks(rows, name, key) <==> Silent(Pieces(rows[i])[1..]))
  {
    hide BlockSpan, Loose, DefinesKey, NoBreaks, Silent, Pieces;
  }

  lemma OthersBroken(rows: seq<string>, name: string, key: string, i: nat)
    requires BrokenFor(rows, name, key, i)
    ensures !OwnBreaks(rows, name, key)
  {
    hide BlockSpan, DefinesKey, NoBreaks, Silent, Pieces;
  }

  lemma NoneBroken(rows: seq<string>, name: string, key: string)
    requires AllNoBreaks(rows)
    ensures OwnBreaks(rows, name, key)
  {
    hide BrokenFor, NoBreaks, Silent, Pieces;
  }

  /** Setting a clean value under a bare key. */
  lemma SetCleanLoose(rows: seq<string>, name: string, key: string, v: Value)
    requires Loose(rows) && BlockSpan(rows, name).Some? && IsBareKey(key) && Clean(v)
    ensures SetText(Terminated(rows), name, key, v).Ok?
    ensures ReadLines(START, rows).Reading? && Profile(name) in ReadLines(START, rows).doc
    ensures var doc, s, (a, b) := ReadLines(START, rows).doc, Profile(name), BlockSpan(rows, name).value;
      Read(SetText(Terminated(rows), name, key, v).value) == Some(doc[s := doc[s][key := v]])
      <==> !HiddenPair(rows, a, b, key) && OwnBreaks(rows, name, key)
  {
    hide *;
    BlockInRows(rows, name);
    if AllNoBreaks(rows) {
      NoneBroken(rows, name, key);
      SetWhole(rows, name, key, v);
    } else {
      var i := BreaksOf(rows, name, key);
      if BrokenFor(rows, name, key, i) {
        SetLoses(rows, name, key, v, i);
        OthersBroken(rows, name, key, i);
      } else {
        OwnBreaksIs(rows, name, key, i);
        NoneHidden(rows, name, key, i);
        SetOwn(rows, name, key, v, i);
      }
    }
  }

  /**
   * Setting on a loose file changes exactly one key of exactly the named profile
   * if and only if the key is bare, the value clean, no row of the block defines
   * the key unseen, and every break lies in the row that is replaced and cuts off
   * only what says nothing. It refuses exactly the values that cannot be printed.
   */
  lemma SetLooseExactly(rows: seq<string>, name: string, key: string, v: Value)
    requires Loose(rows) && BlockSpan(rows, name).Some?
    ensures ReadLines(START, rows).Reading? && Profile(name) in ReadLines(START, rows).doc
    ensures var doc, s, (a, b), edit := ReadLines(START, rows).doc, Profile(name), BlockSpan(rows, name).value,
        SetText(Terminated(rows), name, key, v);
      if PrintValue(v).None? then edit == Err(Unserializable)
      else
        && edit.Ok?
        && (Read(edit.value) == Some(doc[s := doc[s][key := v]])
            <==> IsBareKey(key) && Clean(v) && !HiddenPair(rows, a, b, key) && OwnBreaks(rows, name, key))
  {
    hide *;
    BlockInRows(rows, name);
    RowsSpan(rows, name);
    SplitAll(rows);
    if PrintValue(v).None? {
      UnprintableIsRefused(Terminated(rows), name, key, v);
    } else {
      PrintableIsSet(Terminated(rows), name, key, v);
      var doc, s, text' := ReadLines(START, rows).doc, Profile(name), SetText(Terminated(rows), name, key, v).value;
      if IsBareKey(key) && Clean(v) {
        SetCleanLoose(rows, name, key, v);
      } else if Read(text') == Some(doc[s := doc[s][key := v]]) {
        ReadPairsAreClean(text', s, key, v);
      }
    }
  }
}
