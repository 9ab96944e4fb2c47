/** Blocks of a readable file: how they are found, what replacing one changes, and what a printed one says. */
module FileEdits {
  import opened Wrappers
  import opened PyText
  import opened TomlValue
  import opened ProfileFile
  import opened LineFacts
  import opened FileReading

  // ---------------------------------------------------------------- blocks of a readable file

  /** Lines [start, end) are the one block of a profile. */
  ghost predicate BlockAt(lines: seq<string>, name: string, start: nat, end: nat) {
    && start < end <= |lines|
    && Classify(lines[start]) == HeaderLine(Profile(name))
    && NoHeader(lines[..start], Profile(name)) && NoHeader(lines[start + 1..], Profile(name))
    && Body(lines[start + 1..end]) && StartsBlock(lines[end..])
  }

  /** On these lines the editor's tests for headers say what the lines mean. */
  ghost predicate TestsAgree(lines: seq<string>, name: string) {
    forall i | 0 <= i < |lines| ::
      && (IsHeaderLike(lines[i]) <==> Classify(lines[i]).HeaderLine?)
      && (Strip(lines[i]) == Header(name) <==> Classify(lines[i]) == HeaderLine(Profile(name)))
  }

  lemma MeaningfulTestsAgree(lines: seq<string>, name: string)
    requires Meaningful(lines)
    ensures TestsAgree(lines, name)
  {
    hide Classify, IsHeaderLike, Strip, Header;
    forall i | 0 <= i < |lines|
      ensures IsHeaderLike(lines[i]) <==> Classify(lines[i]).HeaderLine?
      ensures Strip(lines[i]) == Header(name) <==> Classify(lines[i]) == HeaderLine(Profile(name))
    {
      EditorAgrees(lines[i], name);
    }
  }

  lemma SpanShape(lines: seq<string>, name: string)
    requires TestsAgree(lines, name)
    ensures BlockSpan(lines, name).None? <==> NoHeader(lines, Profile(name))
    ensures BlockSpan(lines, name).Some? ==>
      var (start, end) := BlockSpan(lines, name).value;
      && Classify(lines[start]) == HeaderLine(Profile(name)) && NoHeader(lines[..start], Profile(name))
      && Body(lines[start + 1..end]) && StartsBlock(lines[end..])
  {
    hide Classify, IsHeaderLike, Strip, Header;
  }

  /** The textual search finds a profile's block exactly when the file has that profile. */
  lemma SpanFound(lines: seq<string>, name: string)
    requires ReadLines(START, lines).Reading?
    ensures BlockSpan(lines, name).Some? <==> Profile(name) in ReadLines(START, lines).doc
    ensures BlockSpan(lines, name).Some? ==> BlockAt(lines, name, BlockSpan(lines, name).value.0, BlockSpan(lines, name).value.1)
  {
    hide Classify, ReadLines, Meaningful, TestsAgree, NoHeader, Body, StartsBlock, BlockSpan, BlockAt, Header;
    ReadableIsMeaningful(START, lines);
    Sections(START, lines, Profile(name));
    MeaningfulTestsAgree(lines, name);
    SpanShape(lines, name);
    if BlockSpan(lines, name).Some? {
      var (start, end) := BlockSpan(lines, name).value;
      OnlyHeader(lines, name, start);
      MakesBlock(lines, name, start, end);
    }
  }

  lemma MakesBlock(lines: seq<string>, name: string, start: nat, end: nat)
    requires start < end <= |lines| && Classify(lines[start]) == HeaderLine(Profile(name))
    requires NoHeader(lines[..start], Profile(name)) && NoHeader(lines[start + 1..], Profile(name))
    requires Body(lines[start + 1..end]) && StartsBlock(lines[end..])
    ensures BlockAt(lines, name, start, end)
  {
    hide Classify, NoHeader, Body, StartsBlock;
  }

  /** A readable file opens a table once. */
  lemma OnlyHeader(lines: seq<string>, name: string, i: nat)
    requires ReadLines(START, lines).Reading? && i < |lines| && Classify(lines[i]) == HeaderLine(Profile(name))
    ensures NoHeader(lines[i + 1..], Profile(name))
  {
    hide ReadLines, Classify;
    assert lines == lines[..i + 1] + lines[i + 1..];
    ReadConcat(START, lines[..i + 1], lines[i + 1..]);
    var st := ReadLines(START, lines[..i + 1]);
    Sections(START, lines[..i + 1], Profile(name));
    assert lines[..i + 1][i] == lines[i];
    Sections(st, lines[i + 1..], Profile(name));
  }

  /** What a readable file says before a block and in it. */
  lemma BlockReads(lines: seq<string>, name: string, start: nat, end: nat)
    returns (before: Reading, m: map<string, Value>)
    requires ReadLines(START, lines).Reading? && BlockAt(lines, name, start, end)
    ensures before == ReadLines(START, lines[..start]) && before.Reading? && Profile(name) !in before.doc
    ensures var s := Profile(name); var inside := Reading(before.doc[s := m], Some(s));
      && ReadLines(Reading(before.doc[s := map[]], Some(s)), lines[start + 1..end]) == inside
      && ReadLines(inside, lines[end..]) == ReadLines(START, lines)
  {
    hide Classify, ReadLines;
    var s := Profile(name);
    var a, b, c := lines[..start], lines[start + 1..end], lines[end..];
    assert lines == a + ([lines[start]] + (b + c));
    ReadConcat(START, a, [lines[start]] + (b + c));
    before := ReadLines(START, a);
    Sections(START, a, s);
    ReadConcat(before, [lines[start]], b + c);
    ReadOne(before, lines[start]);
    var empty := Reading(before.doc[s := map[]], Some(s));
    assert ReadLine(before, lines[start]) == empty;
    ReadConcat(empty, b, c);
    m := BodyReads(before.doc, s, map[], b);
  }

  /** Putting other lines in a block's place changes what the file says about that profile only. */
  lemma ReplaceBlock(lines: seq<string>, name: string, start: nat, end: nat, block: seq<string>)
    requires ReadLines(START, lines).Reading? && BlockAt(lines, name, start, end)
    requires var r := ReadLines(ReadLines(START, lines[..start]), block);
      ReadLines(START, lines[..start]).Reading? && r.Reading? && SameBut(ReadLines(START, lines[..start]).doc, r.doc, Profile(name))
    ensures var r := ReadLines(ReadLines(START, lines[..start]), block);
      var r' := ReadLines(START, lines[..start] + block + lines[end..]);
      && r'.Reading? && SameBut(ReadLines(START, lines).doc, r'.doc, Profile(name)) && SameAt(r.doc, r'.doc, Profile(name))
  {
    hide Classify, ReadLines, SameBut;
    var s := Profile(name);
    var before, m := BlockReads(lines, name, start, end);
    var r := ReadLines(before, block);
    ReadConcat(START, lines[..start], block);
    ReadConcat(START, lines[..start] + block, lines[end..]);
    var inside := Reading(before.doc[s := m], Some(s));
    assert SameBut(inside.doc, r.doc, s) by {
      SameButUpdate(before.doc, r.doc, s, m);
    }
    assert NoHeader(lines[end..], s) by {
      assert forall j | 0 <= j < |lines[end..]| :: lines[end..][j] == lines[start + 1..][end - start - 1 + j];
    }
    TailFrame(inside, r, lines[end..], s);
  }

  lemma SameButUpdate(d: Doc, e: Doc, s: Section, m: map<string, Value>)
    requires SameBut(d, e, s)
    ensures SameBut(d[s := m], e, s)
  {
    var d' := d[s := m];
    forall t | t != s
      ensures SameAt(d', e, t)
    {
      assert SameAt(d, e, t);
    }
  }

  lemma OwnUpdate(d: Doc, s: Section, m: map<string, Value>)
    ensures SameBut(d, d[s := m], s)
  {
  }

  // ---------------------------------------------------------------- new blocks

  lemma OrderedKeys(table: Table)
    requires table.Valid()
    ensures Distinct(Ordered(table)) && forall k :: k in Ordered(table) <==> k in table.values
  {
    var first, second := Filter(WRITE_ORDER, k => k in table.keys), Filter(table.keys, k => k !in WRITE_ORDER);
    WriteOrderDistinct();
    FilterDistinct(WRITE_ORDER, k => k in table.keys);
    FilterDistinct(table.keys, k => k !in WRITE_ORDER);
    hide WRITE_ORDER;
    assert Ordered(table) == first + second;
    forall i, j | 0 <= i < j < |first + second|
      ensures (first + second)[i] != (first + second)[j]
    {
      if i < |first| <= j {
        assert first[i] in first && second[j - |first|] in second;
      }
    }
  }

  lemma WriteOrderDistinct()
    ensures Distinct(WRITE_ORDER)
  {
    assert |WRITE_ORDER| == 19;
  }

  lemma {:induction false} FilterDistinct(keys: seq<string>, p: string -> bool)
    requires Distinct(keys)
    ensures Distinct(Filter(keys, p))
  {
    if keys != [] {
      FilterDistinct(keys[1..], p);
      var rest := Filter(keys[1..], p);
      assert keys[0] !in rest;
    }
  }

  /** One key stands in front of another in a list. */
  ghost predicate InFront(keys: seq<string>, a: string, b: string) {
    exists i, j :: 0 <= i < j < |keys| && keys[i] == a && keys[j] == b
  }

  lemma {:induction false} FilterKeepsOrder(keys: seq<string>, p: string -> bool)
    ensures forall i, j | 0 <= i < j < |Filter(keys, p)| :: InFront(keys, Filter(keys, p)[i], Filter(keys, p)[j])
  {
    if keys != [] {
      FilterKeepsOrder(keys[1..], p);
      var all, rest := Filter(keys, p), Filter(keys[1..], p);
      forall i, j | 0 <= i < j < |all|
        ensures InFront(keys, all[i], all[j])
      {
        var d := |all| - |rest|;
        assert all[j] == rest[j - d] && all[j] in keys[1..];
        if i < d {
          var n :| 0 <= n < |keys[1..]| && keys[1..][n] == all[j];
          assert keys[0] == all[i] && keys[n + 1] == all[j];
        } else {
          var m, n :| 0 <= m < n < |keys[1..]| && keys[1..][m] == rest[i - d] && keys[1..][n] == rest[j - d];
          assert keys[m + 1] == all[i] && keys[n + 1] == all[j];
        }
      }
    }
  }

  /** Known keys are written first, in the canonical order, then the others in their own. */
  lemma WrittenInOrder(table: Table, i: nat, j: nat)
    requires i < j < |Ordered(table)|
    ensures var a, b := Ordered(table)[i], Ordered(table)[j];
      && (b in WRITE_ORDER ==> a in WRITE_ORDER && InFront(WRITE_ORDER, a, b))
      && (a !in WRITE_ORDER ==> b !in WRITE_ORDER && InFront(table.keys, a, b))
  {
    hide WRITE_ORDER, InFront;
    var first, second := Filter(WRITE_ORDER, k => k in table.keys), Filter(table.keys, k => k !in WRITE_ORDER);
    FilterKeepsOrder(WRITE_ORDER, k => k in table.keys);
    FilterKeepsOrder(table.keys, k => k !in WRITE_ORDER);
    assert j < |first| ==> first[i] in first && first[j] in first;
    assert |first| <= i ==> second[i - |first|] in second && second[j - |first|] in second;
    assert i < |first| <= j ==> first[i] in first && second[j - |first|] in second;
  }

  lemma TableIsWritable(table: Table)
    requires WritableTable(table)
    ensures table.Valid() && Distinct(Ordered(table))
    ensures forall k | k in Ordered(table) :: k in table.values && IsBareKey(k) && Writable(table.values[k])
  {
    OrderedKeys(table);
    hide Ordered, IsBareKey, Writable;
  }

  lemma TableIsClean(table: Table)
    requires CleanTable(table)
    ensures table.Valid() && Distinct(Ordered(table))
    ensures forall k | k in Ordered(table) :: k in table.values && IsBareKey(k) && Clean(table.values[k])
  {
    OrderedKeys(table);
    hide Ordered, IsBareKey, Clean;
  }

  lemma AllKeysKept(table: Table)
    requires table.Valid()
    ensures forall k | k in Ordered(table) :: k in table.values
    ensures map[] + Restrict(table.values, Ordered(table)) == table.values
  {
    OrderedKeys(table);
    hide Ordered;
  }

  lemma FormatIs(name: string, table: Table, pairs: seq<string>)
    requires table.Valid() && (forall k | k in Ordered(table) :: k in table.values)
    requires PairLines(Ordered(table), table.values) == Some(pairs)
    ensures FormatLines(name, table) == Some([Header(name)] + pairs)
  {
    hide Ordered, PairLines, Header;
  }

  lemma HeaderRead(st: Reading, line: string, s: Section)
    requires st.Reading? && s !in st.doc && Classify(line) == HeaderLine(s)
    ensures ReadLines(st, [line]) == Reading(st.doc[s := map[]], Some(s))
  {
    hide Classify;
  }

  /** A written block adds its profile, exactly as it was given. */
  lemma NewBlockReads(st: Reading, name: string, table: Table)
    requires st.Reading? && Profile(name) !in st.doc && IsBareKey(name) && CleanTable(table)
    ensures FormatLines(name, table).Some?
    ensures ReadLines(st, FormatLines(name, table).value) == Reading(st.doc[Profile(name) := table.values], Some(Profile(name)))
  {
    hide *;
    var s := Profile(name);
    var keys := Ordered(table);
    HeaderMeans(name);
    TableIsClean(table);
    AllKeysKept(table);
    PairLinesRead(st.doc, s, map[], keys, table.values);
    var pairs := PairLines(keys, table.values).value;
    FormatIs(name, table, pairs);
    ReadConcat(st, [Header(name)], pairs);
    HeaderRead(st, Header(name), s);
  }

  lemma BareNoBreaks(key: string)
    requires IsBareKey(key)
    ensures NoBreaks(key)
  {
  }

  /** In a well-formed file the editor's key test finds every pair: no tab stands between a key and its sign. */
  predicate EditableLine(line: string) {
    Classify(line).PairLine? ==> DefinesKey(line, Classify(line).key)
  }

  predicate Editable(lines: seq<string>) {
    forall i | 0 <= i < |lines| :: EditableLine(lines[i])
  }

  lemma PairTextNoBreaks(key: string, v: Value)
    requires NoBreaks(key) && Writable(v)
    ensures Clean(v) && PairText(key, v).Some? && NoBreaks(PairText(key, v).value)
  {
    assert !IsBreak(' ') && !IsBreak('=');
    hide Clean, PrintValue, IsBreak;
  }

  lemma PairTextFacts(key: string, v: Value)
    requires IsBareKey(key) && Writable(v)
    ensures PairText(key, v).Some?
    ensures var line := PairText(key, v).value;
      && Classify(line) == PairLine(key, v) && DefinesKey(line, key)
      && NoBreaks(line) && EditableLine(line) && !IsHeaderLike(line)
  {
    BareNoBreaks(key);
    PairTextNoBreaks(key, v);
    hide IsBareKey, Classify, Clean, PrintValue, DefinesKey, IsHeaderLike, PairText, Writable, NoBreaks;
    PairMeans(key, v);
  }

  ghost predicate GoodLines(lines: seq<string>) {
    AllNoBreaks(lines) && Editable(lines) && forall i | 0 <= i < |lines| :: !IsHeaderLike(lines[i])
  }

  lemma {:induction false} PairLinesGood(keys: seq<string>, values: map<string, Value>)
    requires forall k | k in keys :: k in values && IsBareKey(k) && Writable(values[k])
    ensures PairLines(keys, values).Some? && GoodLines(PairLines(keys, values).value)
  {
    hide Classify, PairText, Writable, IsBareKey, NoBreaks, DefinesKey, IsHeaderLike, EditableLine, PrintValue;
    if keys != [] {
      PairTextFacts(keys[0], values[keys[0]]);
      PairLinesGood(keys[1..], values);
    }
  }

  lemma HeaderGood(name: string)
    requires IsBareKey(name)
    ensures NoBreaks(Header(name)) && EditableLine(Header(name))
  {
    HeaderMeans(name);
    BareNoBreaks(name);
    hide Classify, IsBareKey, DefinesKey;
  }

  lemma BlockGood(header: string, pairs: seq<string>)
    requires NoBreaks(header) && EditableLine(header) && GoodLines(pairs)
    ensures AllNoBreaks([header] + pairs) && Editable([header] + pairs) && ([header] + pairs)[1..] == pairs
  {
    hide NoBreaks, EditableLine, IsHeaderLike;
  }

  lemma FormatTableIs(name: string, table: Table)
    requires table.Valid() && FormatLines(name, table).Some? && FormatLines(name, table).value != []
    ensures FormatTable(name, table) == Some(Terminated(FormatLines(name, table).value))
  {
    hide FormatLines;
    JoinTerminated(FormatLines(name, table).value);
  }

  /** A written block: a header, then pairs that are one line each, none of them like a header. */
  lemma NewBlockLines(name: string, table: Table)
    requires IsBareKey(name) && WritableTable(table)
    ensures var block := FormatLines(name, table);
      && block.Some? && block.value != [] && block.value[0] == Header(name) && GoodLines(block.value[1..])
      && AllNoBreaks(block.value) && Editable(block.value)
      && FormatTable(name, table) == Some(Terminated(block.value))
  {
    hide *;
    TableIsWritable(table);
    AllKeysKept(table);
    PairLinesGood(Ordered(table), table.values);
    var pairs := PairLines(Ordered(table), table.values).value;
    HeaderGood(name);
    BlockGood(Header(name), pairs);
    FormatIs(name, table, pairs);
    FormatTableIs(name, table);
  }
}
