/** How reading a file depends on its lines: concatenation, blocks, and what one block leaves alone. */
module FileReading {
  import opened Wrappers
  import opened PyText
  import opened TomlValue
  import opened ProfileFile
  import opened LineFacts

  // ---------------------------------------------------------------- concatenation

  lemma {:induction false} BrokenStays(lines: seq<string>)
    ensures ReadLines(Broken, lines) == Broken
    decreases |lines|
  {
    if lines != [] {
      BrokenStays(lines[1..]);
    }
  }

  lemma {:induction false} ReadConcat(st: Reading, a: seq<string>, b: seq<string>)
    ensures ReadLines(st, a + b) == ReadLines(ReadLines(st, a), b)
    ensures ReadLines(st, a).Broken? ==> ReadLines(st, a + b).Broken?
    decreases |a|
  {
    hide ReadLine;
    if a == [] {
      assert a + b == b;
    } else {
      assert (a + b)[1..] == a[1..] + b;
      ReadConcat(ReadLine(st, a[0]), a[1..], b);
    }
    BrokenStays(b);
  }

  lemma ReadOne(st: Reading, line: string)
    ensures ReadLines(st, [line]) == ReadLine(st, line)
  {
  }

  ghost predicate Meaningful(lines: seq<string>) {
    forall i | 0 <= i < |lines| :: Classify(lines[i]) != BadLine
  }

  ghost predicate NoHeader(lines: seq<string>, s: Section) {
    forall i | 0 <= i < |lines| :: Classify(lines[i]) != HeaderLine(s)
  }

  ghost predicate Body(lines: seq<string>) {
    forall i | 0 <= i < |lines| :: !Classify(lines[i]).HeaderLine?
  }

  ghost predicate NoPair(lines: seq<string>, key: string) {
    forall i | 0 <= i < |lines| :: !(Classify(lines[i]).PairLine? && Classify(lines[i]).key == key)
  }

  ghost predicate Blank(lines: seq<string>) {
    forall i | 0 <= i < |lines| :: Classify(lines[i]) == BlankLine
  }

  lemma {:induction false} ReadableIsMeaningful(st: Reading, lines: seq<string>)
    requires ReadLines(st, lines).Reading?
    ensures Meaningful(lines)
    decreases |lines|
  {
    hide Classify;
    if lines != [] {
      if Classify(lines[0]) == BadLine {
        BrokenStays(lines[1..]);
      }
      ReadableIsMeaningful(ReadLine(st, lines[0]), lines[1..]);
      assert lines == [lines[0]] + lines[1..];
    }
  }

  lemma {:induction false} BlankLinesRead(st: Reading, lines: seq<string>)
    requires Blank(lines)
    ensures ReadLines(st, lines) == st
    decreases |lines|
  {
    hide Classify;
    if lines != [] {
      BlankLinesRead(st, lines[1..]);
    }
  }

  lemma EmptyIsBlank()
    ensures Classify("") == BlankLine
  {
  }

  lemma DropEmptyRead(st: Reading, lines: seq<string>)
    ensures ReadLines(st, DropEmpty(lines)) == ReadLines(st, lines)
  {
    var kept := DropEmpty(lines);
    var rest := lines[|kept|..];
    assert lines == kept + rest;
    EmptyIsBlank();
    assert Blank(rest);
    ReadConcat(st, kept, rest);
    BlankLinesRead(ReadLines(st, kept), rest);
  }

  // ---------------------------------------------------------------- which tables a text opens

  lemma ReadLineSections(st: Reading, line: string, s: Section)
    requires ReadLine(st, line).Reading?
    ensures st.Reading?
    ensures s in st.doc ==> s in ReadLine(st, line).doc && Classify(line) != HeaderLine(s)
    ensures s !in st.doc ==> (s in ReadLine(st, line).doc <==> Classify(line) == HeaderLine(s))
  {
    hide Classify;
  }

  lemma {:induction false} Sections(st: Reading, lines: seq<string>, s: Section)
    requires ReadLines(st, lines).Reading?
    ensures st.Reading?
    ensures s in st.doc ==> s in ReadLines(st, lines).doc && NoHeader(lines, s)
    ensures s !in st.doc ==> (s in ReadLines(st, lines).doc <==> !NoHeader(lines, s))
    decreases |lines|
  {
    hide Classify, ReadLine;
    if lines != [] {
      var next := ReadLine(st, lines[0]);
      if next.Broken? {
        BrokenStays(lines[1..]);
      }
      Sections(next, lines[1..], s);
      ReadLineSections(st, lines[0], s);
      assert NoHeader(lines, s) <==> Classify(lines[0]) != HeaderLine(s) && NoHeader(lines[1..], s) by {
        assert lines == [lines[0]] + lines[1..];
      }
    }
  }

  // ---------------------------------------------------------------- what one table leaves alone

  /** Two documents that differ at most in table s, compared after a text that never touches s. */
  ghost predicate SameBut(d: Doc, e: Doc, s: Section) {
    forall t | t != s :: SameAt(d, e, t)
  }

  ghost predicate SameAt(d: Doc, e: Doc, s: Section) {
    (s in d <==> s in e) && (s in d ==> d[s] == e[s])
  }

  lemma ReadLineFrame(st: Reading, st': Reading, line: string, s: Section)
    requires st.Reading? && st'.Reading? && st.current == st'.current && SameBut(st.doc, st'.doc, s)
    requires Classify(line) != HeaderLine(s) && (st.current != Some(s) || Classify(line).HeaderLine?)
    ensures var r, r' := ReadLine(st, line), ReadLine(st', line);
      && (r.Broken? <==> r'.Broken?)
      && (r.Reading? ==>
        && r.current == r'.current && r.current != Some(s) && SameBut(r.doc, r'.doc, s)
        && SameAt(st.doc, r.doc, s) && SameAt(st'.doc, r'.doc, s))
  {
    hide Classify;
    var kind := Classify(line);
    assert kind.HeaderLine? ==> SameAt(st.doc, st'.doc, kind.section);
    assert st.current.Some? && st.current != Some(s) ==> SameAt(st.doc, st'.doc, st.current.value);
    var r, r' := ReadLine(st, line), ReadLine(st', line);
    if r.Reading? {
      forall t | t != s
        ensures SameAt(r.doc, r'.doc, t)
      {
        assert SameAt(st.doc, st'.doc, t);
      }
    }
  }

  lemma {:induction false} ReadFrame(st: Reading, st': Reading, lines: seq<string>, s: Section)
    requires st.Reading? && st'.Reading? && st.current == st'.current && SameBut(st.doc, st'.doc, s)
    requires st.current != Some(s) && NoHeader(lines, s)
    ensures var r, r' := ReadLines(st, lines), ReadLines(st', lines);
      && (r.Broken? <==> r'.Broken?)
      && (r.Reading? ==> SameBut(r.doc, r'.doc, s) && SameAt(st.doc, r.doc, s) && SameAt(st'.doc, r'.doc, s))
    decreases |lines|
  {
    hide Classify, ReadLine, SameBut;
    if lines != [] {
      ReadLineFrame(st, st', lines[0], s);
      var next, next' := ReadLine(st, lines[0]), ReadLine(st', lines[0]);
      if next.Broken? {
        BrokenStays(lines[1..]);
      } else {
        ReadFrame(next, next', lines[1..], s);
      }
    }
  }

  /** What follows a block is a header or nothing. */
  ghost predicate StartsBlock(lines: seq<string>) {
    lines == [] || Classify(lines[0]).HeaderLine?
  }

  /** Reading what follows a block, whatever the block itself made of its own table. */
  lemma TailFrame(st: Reading, st': Reading, lines: seq<string>, s: Section)
    requires st.Reading? && st'.Reading? && SameBut(st.doc, st'.doc, s)
    requires StartsBlock(lines) && NoHeader(lines, s)
    ensures var r, r' := ReadLines(st, lines), ReadLines(st', lines);
      && (r.Broken? <==> r'.Broken?)
      && (r.Reading? ==> SameBut(r.doc, r'.doc, s) && SameAt(st.doc, r.doc, s) && SameAt(st'.doc, r'.doc, s))
  {
    hide Classify, SameBut;
    if lines != [] {
      var mid := Reading(st'.doc, st.current);
      assert ReadLine(mid, lines[0]) == ReadLine(st', lines[0]);
      hide ReadLine;
      ReadLineFrame(st, mid, lines[0], s);
      var next, next' := ReadLine(st, lines[0]), ReadLine(st', lines[0]);
      if next.Broken? {
        BrokenStays(lines[1..]);
      } else {
        ReadFrame(next, next', lines[1..], s);
      }
    }
  }

  /** Documents equal but for s, and equal at an updated s, are equal. */
  lemma UpdateIs(d: Doc, e: Doc, s: Section, m: map<string, Value>)
    requires SameBut(d, e, s) && s in e && e[s] == m
    ensures e == d[s := m]
  {
    forall t
      ensures t in e <==> t in d[s := m]
      ensures t in e ==> e[t] == d[s := m][t]
    {
      assert t != s ==> SameAt(d, e, t);
    }
  }

  // ---------------------------------------------------------------- bodies of blocks

  /** The lines of a block fill only the block's own table. */
  lemma {:induction false} BodyReads(doc: Doc, s: Section, m: map<string, Value>, lines: seq<string>)
    returns (m': map<string, Value>)
    requires Body(lines) && ReadLines(Reading(doc[s := m], Some(s)), lines).Reading?
    ensures ReadLines(Reading(doc[s := m], Some(s)), lines) == Reading(doc[s := m'], Some(s))
    decreases |lines|
  {
    hide Classify;
    var st := Reading(doc[s := m], Some(s));
    if lines == [] {
      m' := m;
    } else {
      var next := ReadLine(st, lines[0]);
      if next.Broken? {
        BrokenStays(lines[1..]);
      }
      var n := next.doc[s];
      assert next == Reading(doc[s := n], Some(s));
      m' := BodyReads(doc, s, n, lines[1..]);
    }
  }

  /** Within a block, two states that differ at most in one key read the rest alike if it never names that key. */
  lemma {:induction false} KeyFrame(doc: Doc, s: Section, m: map<string, Value>, key: string, v: Value, w: Value, lines: seq<string>)
    returns (n: map<string, Value>)
    requires Body(lines) && NoPair(lines, key)
    requires ReadLines(Reading(doc[s := m[key := v]], Some(s)), lines).Reading?
    ensures ReadLines(Reading(doc[s := m[key := v]], Some(s)), lines) == Reading(doc[s := n[key := v]], Some(s))
    ensures ReadLines(Reading(doc[s := m[key := w]], Some(s)), lines) == Reading(doc[s := n[key := w]], Some(s))
    decreases |lines|
  {
    hide Classify;
    var st, st' := Reading(doc[s := m[key := v]], Some(s)), Reading(doc[s := m[key := w]], Some(s));
    if lines == [] {
      n := m;
    } else {
      var next, next' := ReadLine(st, lines[0]), ReadLine(st', lines[0]);
      if next.Broken? {
        BrokenStays(lines[1..]);
      }
      var kind := Classify(lines[0]);
      n := if kind.PairLine? then m[kind.key := kind.value] else m;
      assert next == Reading(doc[s := n[key := v]], Some(s)) by {
        assert kind.PairLine? ==> m[key := v][kind.key := kind.value] == n[key := v];
      }
      assert next' == Reading(doc[s := n[key := w]], Some(s)) by {
        assert kind.PairLine? ==> m[key := w][kind.key := kind.value] == n[key := w];
      }
      hide ReadLine;
      n := KeyFrame(doc, s, n, key, v, w, lines[1..]);
    }
  }

  /** Which keys a block's lines define. */
  lemma {:induction false} BodyKeys(doc: Doc, s: Section, m: map<string, Value>, key: string, lines: seq<string>)
    requires Body(lines) && ReadLines(Reading(doc[s := m], Some(s)), lines).Reading?
    ensures var r := ReadLines(Reading(doc[s := m], Some(s)), lines);
      && s in r.doc
      && (key in m ==> key in r.doc[s] && NoPair(lines, key))
      && (key !in m ==> (key in r.doc[s] <==> !NoPair(lines, key)))
    decreases |lines|
  {
    hide Classify;
    if lines != [] {
      var st := Reading(doc[s := m], Some(s));
      var next := ReadLine(st, lines[0]);
      if next.Broken? {
        BrokenStays(lines[1..]);
      }
      var n := next.doc[s];
      assert next == Reading(doc[s := n], Some(s));
      var kind := Classify(lines[0]);
      assert key in n <==> key in m || (kind.PairLine? && kind.key == key);
      assert key in m ==> !(kind.PairLine? && kind.key == key);
      hide ReadLine;
      BodyKeys(doc, s, n, key, lines[1..]);
      assert NoPair(lines, key) <==> !(kind.PairLine? && kind.key == key) && NoPair(lines[1..], key) by {
        assert lines == [lines[0]] + lines[1..];
      }
    }
  }

  // ---------------------------------------------------------------- written blocks

  /** A value that survives being written and stays on one line. */
  predicate Writable(v: Value) {
    Clean(v) && PrintValue(v).Some? && NoBreaks(PrintValue(v).value)
  }

  /** A table that survives every edit: bare keys, and values that hold no line break of Python's. */
  predicate WritableTable(t: Table) {
    t.Valid() && forall k | k in t.values :: IsBareKey(k) && Writable(t.values[k])
  }

  /** A table whose values and keys read back when they are written. */
  predicate CleanTable(t: Table) {
    t.Valid() && forall k | k in t.values :: IsBareKey(k) && Clean(t.values[k])
  }

  lemma WritableIsClean(t: Table)
    requires WritableTable(t)
    ensures CleanTable(t)
  {
    hide IsBareKey, Clean, NoBreaks, PrintValue;
  }

  predicate Distinct(keys: seq<string>) {
    forall i, j | 0 <= i < j < |keys| :: keys[i] != keys[j]
  }

  function Restrict(values: map<string, Value>, keys: seq<string>): map<string, Value>
    requires forall k | k in keys :: k in values
  {
    map k | k in keys :: values[k]
  }

  lemma ReadPairLine(doc: Doc, s: Section, m: map<string, Value>, line: string)
    requires Classify(line).PairLine?
    ensures var key, v := Classify(line).key, Classify(line).value;
      ReadLine(Reading(doc[s := m], Some(s)), line) == if key in m then Broken else Reading(doc[s := m[key := v]], Some(s))
  {
    hide Classify;
    var key, v := Classify(line).key, Classify(line).value;
    assert doc[s := m][s := m[key := v]] == doc[s := m[key := v]];
  }

  /** Reading one written pair into a block. */
  lemma PairRead(doc: Doc, s: Section, m: map<string, Value>, key: string, v: Value)
    requires IsBareKey(key) && Clean(v)
    ensures PairText(key, v).Some?
    ensures ReadLine(Reading(doc[s := m], Some(s)), PairText(key, v).value)
         == if key in m then Broken else Reading(doc[s := m[key := v]], Some(s))
  {
    hide Classify, PairText, ReadLine, Clean, PrintValue, NoBreaks, IsHeaderLike, DefinesKey;
    PairMeans(key, v);
    ReadPairLine(doc, s, m, PairText(key, v).value);
  }

  lemma RestrictStep(m: map<string, Value>, keys: seq<string>, values: map<string, Value>)
    requires keys != [] && Distinct(keys) && forall k | k in keys :: k in values
    ensures m + Restrict(values, keys) == m[keys[0] := values[keys[0]]] + Restrict(values, keys[1..])
  {
    assert forall k :: k in keys <==> k == keys[0] || k in keys[1..];
  }

  lemma {:induction false} PairLinesRead(doc: Doc, s: Section, m: map<string, Value>, keys: seq<string>, values: map<string, Value>)
    requires Distinct(keys) && forall k | k in keys :: k in values && k !in m && IsBareKey(k) && Clean(values[k])
    ensures PairLines(keys, values).Some?
    ensures ReadLines(Reading(doc[s := m], Some(s)), PairLines(keys, values).value)
         == Reading(doc[s := m + Restrict(values, keys)], Some(s))
    decreases |keys|
  {
    hide ReadLine, PairText, Clean, IsBareKey;
    if keys == [] {
      assert m + Restrict(values, keys) == m;
    } else {
      var k, v := keys[0], values[keys[0]];
      PairRead(doc, s, m, k, v);
      PairLinesRead(doc, s, m[k := v], keys[1..], values);
      RestrictStep(m, keys, values);
      hide Restrict;
      var line, more := PairText(k, v).value, PairLines(keys[1..], values).value;
      assert ([line] + more)[1..] == more;
    }
  }
}
