/**
 * An encoder for GGUF metadata, an order-based description of what a list of
 * entries says, and the proof that the reader inverts the encoder.
 */
module GgufEncoding {
  import opened Bytes
  import opened Wrappers
  import opened Gguf

  datatype Datum =
    | ScalarDatum(tag: nat, value: Value)
    | TextDatum(bytes: seq<byte>)
    | ScalarArray(tag: nat, values: seq<Value>)
    | TextArray(texts: seq<seq<byte>>)

  datatype Entry = Entry(key: seq<byte>, datum: Datum)

  // ---------------------------------------------------------------- encoding

  /** The type codes of the specification: 8 is a string, 9 an array, the others up to 12 are scalars. */
  predicate IsScalarCode(tag: nat) {
    tag <= 12 && tag != 8 && tag != 9
  }

  /** The bytes that the specification gives a scalar type. */
  function Size(tag: nat): nat {
    if tag in {0, 1, 7} then 1 else if tag in {2, 3} then 2 else if tag in {4, 5, 6} then 4 else 8
  }

  /** The integers of a type: from the least one to below the bound. */
  function Least(tag: nat): int {
    if tag == 1 then -0x80
    else if tag == 3 then -0x8000
    else if tag == 5 then -0x8000_0000
    else if tag == 11 then -0x8000_0000_0000_0000
    else 0
  }

  function Bound(tag: nat): int {
    match tag
    case 0 => 0x100
    case 1 => 0x80
    case 2 => 0x1_0000
    case 3 => 0x8000
    case 4 => 0x1_0000_0000
    case 5 => 0x8000_0000
    case 10 => 0x1_0000_0000_0000_0000
    case 11 => 0x8000_0000_0000_0000
    case _ => 0
  }

  predicate Fits(tag: nat, v: Value) {
    && IsScalarCode(tag)
    && match v
       case Bool(_) => tag == 7
       case Float(bits) => (tag == 6 || tag == 12) && bits < Pow256(Size(tag))
       case Int(i) => Least(tag) <= i < Bound(tag)
       case _ => false
  }

  predicate EncodableText(s: seq<byte>) {
    |s| < Pow256(8)
  }

  predicate EncodableDatum(d: Datum) {
    match d
    case ScalarDatum(tag, v) => Fits(tag, v)
    case TextDatum(s) => EncodableText(s)
    case ScalarArray(tag, vs) => IsScalarCode(tag) && |vs| < Pow256(8) && forall v | v in vs :: Fits(tag, v)
    case TextArray(ts) => |ts| < Pow256(8) && forall t | t in ts :: EncodableText(t)
  }

  predicate Encodable(e: Entry) {
    EncodableText(e.key) && EncodableDatum(e.datum)
  }

  function Bits(tag: nat, v: Value): nat
    requires Fits(tag, v)
  {
    match v
    case Bool(b) => if b then 1 else 0
    case Float(bits) => bits
    case Int(i) => if i < 0 then i + 2 * Bound(tag) else i
  }

  function EncodeText(s: seq<byte>): seq<byte> {
    LittleEndian(|s|, 8) + s
  }

  function EncodeScalars(tag: nat, vs: seq<Value>): seq<byte>
    requires IsScalarCode(tag) && forall v | v in vs :: Fits(tag, v)
  {
    if vs == [] then [] else LittleEndian(Bits(tag, vs[0]), Size(tag)) + EncodeScalars(tag, vs[1..])
  }

  function EncodeTexts(ts: seq<seq<byte>>): seq<byte> {
    if ts == [] then [] else EncodeText(ts[0]) + EncodeTexts(ts[1..])
  }

  function TagOf(d: Datum): nat {
    match d
    case ScalarDatum(tag, _) => tag
    case TextDatum(_) => 8
    case ScalarArray(_, _) | TextArray(_) => 9
  }

  function EncodeDatum(d: Datum): seq<byte>
    requires EncodableDatum(d)
  {
    match d
    case ScalarDatum(tag, v) => LittleEndian(Bits(tag, v), Size(tag))
    case TextDatum(s) => EncodeText(s)
    case ScalarArray(tag, vs) => LittleEndian(tag, 4) + LittleEndian(|vs|, 8) + EncodeScalars(tag, vs)
    case TextArray(ts) => LittleEndian(8, 4) + LittleEndian(|ts|, 8) + EncodeTexts(ts)
  }

  function EncodeEntry(e: Entry): seq<byte>
    requires Encodable(e)
  {
    EncodeText(e.key) + LittleEndian(TagOf(e.datum), 4) + EncodeDatum(e.datum)
  }

  function EncodeEntries(es: seq<Entry>): seq<byte>
    requires forall e | e in es :: Encodable(e)
  {
    if es == [] then [] else EncodeEntry(es[0]) + EncodeEntries(es[1..])
  }

  /** A file's header, its metadata entries, and whatever follows them. */
  function EncodeFile(version: nat, tensors: nat, es: seq<Entry>, rest: seq<byte>): seq<byte>
    requires forall e | e in es :: Encodable(e)
  {
    Ascii("GGUF") + LittleEndian(version, 4) + LittleEndian(tensors, 8) + LittleEndian(|es|, 8) + EncodeEntries(es) + rest
  }

  // ---------------------------------------------------------------- what entries say

  /** A datum as the geometry sees it: arrays carry no value. */
  function Reading(d: Datum): Value {
    match d
    case ScalarDatum(_, v) => v
    case TextDatum(s) => Text(s)
    case _ => NoValue
  }

  /** The key that names a model's architecture. */
  const GENERAL_ARCHITECTURE := Ascii("general.architecture")

  function DropLast<T>(s: seq<T>): seq<T>
    requires s != []
  {
    s[..|s| - 1]
  }

  function Last<T>(s: seq<T>): T
    requires s != []
  {
    s[|s| - 1]
  }

  /** The architecture of a model: the last `general.architecture` entry, whatever its type. */
  function Architecture(es: seq<Entry>): Value {
    if es == [] then NoValue
    else if Last(es).key == GENERAL_ARCHITECTURE then Reading(Last(es).datum)
    else Architecture(DropLast(es))
  }

  /** The prefix of interesting keys: the last architecture that is a string. */
  function Prefix(es: seq<Entry>): Option<seq<byte>> {
    if es == [] then None
    else if Last(es).key == GENERAL_ARCHITECTURE && Last(es).datum.TextDatum? then Some(Last(es).datum.bytes)
    else Prefix(DropLast(es))
  }

  function Suffix(f: Field): seq<byte> {
    match f
    case Layers => Ascii(".block_count")
    case Embedding => Ascii(".embedding_length")
    case Heads => Ascii(".attention.head_count")
    case KvHeads => Ascii(".attention.head_count_kv")
    case HeadDim => Ascii(".attention.key_length")
    case ContextLength => Ascii(".context_length")
    case Name => Ascii("general.name")
    case ParameterCount => Ascii("general.parameter_count")
    case FileType => Ascii("general.file_type")
  }

  predicate IsGeneral(f: Field) {
    f.Name? || f.ParameterCount? || f.FileType?
  }

  /** Whether a key names field f once the architecture prefix (if any) is known. */
  predicate Names(prefix: Option<seq<byte>>, key: seq<byte>, f: Field) {
    if IsGeneral(f) then key == Suffix(f)
    else prefix.Some? && key == prefix.value + Suffix(f) && key != GENERAL_ARCHITECTURE && forall g | IsGeneral(g) :: key != Suffix(g)
  }

  /** The last entry that names f, seen from its own position in the list. */
  function LastValue(es: seq<Entry>, f: Field): Option<Value> {
    if es == [] then None
    else if Names(Prefix(DropLast(es)), Last(es).key, f) then Some(Reading(Last(es).datum))
    else LastValue(DropLast(es), f)
  }

  function Describe(es: seq<Entry>, fileSize: nat): Info {
    Summary(Architecture(es), f => LastValue(es, f), fileSize)
  }

  // ---------------------------------------------------------------- reading back

  /** A piece of a buffer: `piece` stands at position pos. */
  predicate At(buf: seq<byte>, pos: nat, piece: seq<byte>) {
    pos + |piece| <= |buf| && buf[pos..pos + |piece|] == piece
  }

  lemma AtSplit(buf: seq<byte>, pos: nat, a: seq<byte>, b: seq<byte>)
    requires At(buf, pos, a + b)
    ensures At(buf, pos, a) && At(buf, pos + |a|, b)
  {
    var whole := buf[pos..pos + |a + b|];
    assert buf[pos..pos + |a|] == whole[..|a|] == a;
    assert buf[pos + |a|..pos + |a| + |b|] == whole[|a|..] == b;
  }

  lemma ReadBitsBack(buf: seq<byte>, pos: nat, n: nat, w: nat)
    requires At(buf, pos, LittleEndian(n, w)) && n < Pow256(w)
    ensures ReadBits(buf, pos, w) == Got(n, pos + w)
  {
    LittleEndianRoundTrip(n, w);
  }

  lemma PowValues()
    ensures Pow256(1) == 0x100 && Pow256(2) == 0x1_0000 && Pow256(4) == 0x1_0000_0000
    ensures Pow256(8) == 0x1_0000_0000_0000_0000
  {
    assert Pow256(3) == 256 * Pow256(2);
    assert Pow256(5) == 256 * Pow256(4);
    assert Pow256(7) == 256 * Pow256(6);
  }

  /** The reader's table of types is the specification's. */
  lemma TypesAgree(tag: nat)
    ensures IsScalar(tag) <==> IsScalarCode(tag)
    ensures IsScalar(tag) ==> Width(tag) == Size(tag)
  {
  }

  /** The two's-complement bits of a value fit its width and stand for that value. */
  lemma InterpretBits(tag: nat, v: Value)
    requires Fits(tag, v)
    ensures IsScalar(tag) && Bits(tag, v) < Pow256(Size(tag)) && Interpret(tag, Bits(tag, v)) == v
  {
    TypesAgree(tag);
    PowValues();
  }

  lemma ReadTextBack(buf: seq<byte>, pos: nat, s: seq<byte>)
    requires At(buf, pos, EncodeText(s)) && EncodableText(s)
    ensures ReadText(buf, pos) == Got(s, pos + |EncodeText(s)|)
  {
    assert EncodeText(s) == LittleEndian(|s|, 8) + s && |EncodeText(s)| == 8 + |s|;
    hide At, EncodeText, LittleEndian, ReadBits, Slice, Pow256;
    AtSplit(buf, pos, LittleEndian(|s|, 8), s);
    ReadBitsBack(buf, pos, |s|, 8);
    SliceBack(buf, pos + 8, s);
  }

  lemma SliceBack(buf: seq<byte>, pos: nat, s: seq<byte>)
    requires At(buf, pos, s)
    ensures Slice(buf, pos, pos + |s|) == s
  {
  }

  lemma {:induction false} SkipTextsBack(buf: seq<byte>, pos: nat, ts: seq<seq<byte>>)
    requires At(buf, pos, EncodeTexts(ts)) && forall t | t in ts :: EncodableText(t)
    ensures SkipTexts(buf, pos, |ts|) == Got((), pos + |EncodeTexts(ts)|)
    decreases |ts|
  {
    hide At, EncodeText, EncodableText, ReadText;
    if ts != [] {
      AtSplit(buf, pos, EncodeText(ts[0]), EncodeTexts(ts[1..]));
      ReadTextBack(buf, pos, ts[0]);
      SkipTextsBack(buf, pos + |EncodeText(ts[0])|, ts[1..]);
    }
  }

  lemma OneMore(w: nat, n: nat)
    ensures w * (n + 1) == w + w * n
  {
  }

  lemma {:induction false} EncodeScalarsLength(tag: nat, vs: seq<Value>)
    requires IsScalarCode(tag) && forall v | v in vs :: Fits(tag, v)
    ensures |EncodeScalars(tag, vs)| == Size(tag) * |vs|
    decreases |vs|
  {
    hide Bits, LittleEndian, Fits, Size;
    if vs == [] {
    } else {
      EncodeScalarsLength(tag, vs[1..]);
      OneMore(Size(tag), |vs| - 1);
    }
  }

  /** The element type and the count at the front of an array. */
  lemma ArrayHeaderBack(buf: seq<byte>, pos: nat, tag: nat, count: nat, body: seq<byte>)
    requires tag < Pow256(4) && count < Pow256(8) && At(buf, pos, LittleEndian(tag, 4) + LittleEndian(count, 8) + body)
    ensures ReadBits(buf, pos, 4) == Got(tag, pos + 4) && ReadBits(buf, pos + 4, 8) == Got(count, pos + 12)
    ensures At(buf, pos + 12, body)
  {
    AtSplit(buf, pos, LittleEndian(tag, 4) + LittleEndian(count, 8), body);
    AtSplit(buf, pos, LittleEndian(tag, 4), LittleEndian(count, 8));
    ReadBitsBack(buf, pos, tag, 4);
    ReadBitsBack(buf, pos + 4, count, 8);
  }

  lemma SkipScalarArrayBack(buf: seq<byte>, pos: nat, d: Datum)
    requires d.ScalarArray? && EncodableDatum(d) && At(buf, pos, EncodeDatum(d))
    ensures SkipArray(buf, pos).Got? && SkipArray(buf, pos).pos == pos + |EncodeDatum(d)|
  {
    PowValues();
    ArrayHeaderBack(buf, pos, d.tag, |d.values|, EncodeScalars(d.tag, d.values));
    EncodeScalarsLength(d.tag, d.values);
    TypesAgree(d.tag);
  }

  lemma SkipTextArrayBack(buf: seq<byte>, pos: nat, d: Datum)
    requires d.TextArray? && EncodableDatum(d) && At(buf, pos, EncodeDatum(d))
    ensures SkipArray(buf, pos).Got? && SkipArray(buf, pos).pos == pos + |EncodeDatum(d)|
  {
    PowValues();
    ArrayHeaderBack(buf, pos, 8, |d.texts|, EncodeTexts(d.texts));
    SkipTextsBack(buf, pos + 12, d.texts);
  }

  lemma ReadValueBack(buf: seq<byte>, pos: nat, d: Datum)
    requires EncodableDatum(d) && At(buf, pos, EncodeDatum(d))
    ensures ReadValue(buf, pos, TagOf(d)) == Got(Reading(d), pos + |EncodeDatum(d)|)
  {
    match d
    case ScalarDatum(tag, v) =>
      InterpretBits(tag, v);
      TypesAgree(tag);
      ReadBitsBack(buf, pos, Bits(tag, v), Size(tag));
    case TextDatum(s) => ReadTextBack(buf, pos, s);
    case ScalarArray(_, _) => SkipScalarArrayBack(buf, pos, d);
    case TextArray(_) => SkipTextArrayBack(buf, pos, d);
  }

  /** Whenever a value can be read, skipping it ends at the same place. */
  lemma SkipAgreesWithRead(buf: seq<byte>, pos: nat, tag: nat)
    ensures ReadValue(buf, pos, tag).Got? ==> SkipValue(buf, pos, tag).Got? && SkipValue(buf, pos, tag).pos == ReadValue(buf, pos, tag).pos
    ensures SkipValue(buf, pos, tag).Got? && ReadValue(buf, pos, tag).Fail? <==> IsScalar(tag) && pos + Width(tag) > |buf|
  {
  }

  /** A string claimed to be longer than the buffer is read as far as there are bytes, and the cursor moves by the claim. */
  lemma TextIsClipped(buf: seq<byte>, pos: nat, n: nat)
    requires ReadBits(buf, pos, 8) == Got(n, pos + 8)
    ensures var r := ReadText(buf, pos);
      && r.Got? && r.pos == pos + 8 + n
      && r.value == (if r.pos <= |buf| then buf[pos + 8..r.pos] else buf[pos + 8..])
  {
    hide FromLittleEndian;
  }

  /** Nothing is read from a file that does not begin as the format does. */
  lemma OnlyGguf(buf: seq<byte>, fileSize: nat)
    requires Parse(buf, fileSize).Some?
    ensures |buf| >= 24 && buf[0..4] == Ascii("GGUF")
  {
    hide ScanEntries;
  }

  // ---------------------------------------------------------------- the keys

  /** Appending different suffixes to one prefix gives different keys. */
  lemma SuffixCancels(prefix: seq<byte>, f: Field, g: Field)
    requires prefix + Suffix(f) == prefix + Suffix(g) && !IsGeneral(f) && !IsGeneral(g)
    ensures f == g
  {
    assert Suffix(f) == (prefix + Suffix(f))[|prefix|..] == Suffix(g);
    assert Suffix(Heads)[11] == 'h' as int && Suffix(HeadDim)[11] == 'k' as int;
  }

  lemma WantedKeyIs(arch: seq<byte>, key: seq<byte>)
    requires key in WantedKeys(arch)
    ensures !IsGeneral(WantedKeys(arch)[key]) && key == arch + Suffix(WantedKeys(arch)[key])
  {
    hide Ascii;
  }

  lemma WantedKeyOf(arch: seq<byte>, f: Field)
    requires !IsGeneral(f)
    ensures arch + Suffix(f) in WantedKeys(arch) && WantedKeys(arch)[arch + Suffix(f)] == f
  {
    WantedKeysPresent(arch, f);
    hide WantedKeys, Suffix, IsGeneral;
    WantedKeyIs(arch, arch + Suffix(f));
    SuffixCancels(arch, f, WantedKeys(arch)[arch + Suffix(f)]);
  }

  lemma WantedKeysPresent(arch: seq<byte>, f: Field)
    requires !IsGeneral(f)
    ensures arch + Suffix(f) in WantedKeys(arch)
  {
    hide Ascii;
  }

  /** The reader's dictionary of wanted keys says exactly which field a key names. */
  lemma WantedKeysName(arch: seq<byte>, key: seq<byte>, f: Field)
    requires !IsGeneral(f)
    ensures key == arch + Suffix(f) <==> key in WantedKeys(arch) && WantedKeys(arch)[key] == f
  {
    hide WantedKeys, Suffix, IsGeneral;
    WantedKeyOf(arch, f);
    if key in WantedKeys(arch) {
      WantedKeyIs(arch, key);
    }
  }

  lemma GeneralKeysName(key: seq<byte>, f: Field)
    requires IsGeneral(f)
    ensures key == Suffix(f) <==> key in GENERAL_KEYS && GENERAL_KEYS[key] == f
    ensures key == Suffix(f) ==> key != ARCHITECTURE
  {
    assert |Suffix(Name)| == 12 && |Suffix(ParameterCount)| == 23 && |Suffix(FileType)| == 17 && |ARCHITECTURE| == 20;
  }

  // ---------------------------------------------------------------- the scan

  /** The scan's variables hold exactly what the entries seen so far say. */
  ghost predicate Holds(s: Scan, es: seq<Entry>) {
    && s.arch == Architecture(es)
    && s.wanted == (if Prefix(es).Some? then WantedKeys(Prefix(es).value) else map[])
    && forall f :: Lookup(s.collected, f) == LastValue(es, f)
  }

  /** Among all fields, the reader files a key under the one the entries' own rule names. */
  lemma KeysName(s: Scan, es: seq<Entry>, key: seq<byte>, f: Field)
    requires Holds(s, es)
    ensures Names(Prefix(es), key, f) <==>
      key != ARCHITECTURE && (if key in GENERAL_KEYS then GENERAL_KEYS[key] == f else key in s.wanted && s.wanted[key] == f)
  {
    hide Suffix, WantedKeys, Lookup, LastValue, Architecture, Prefix, Ascii;
    forall g | IsGeneral(g)
      ensures key == Suffix(g) <==> key in GENERAL_KEYS && GENERAL_KEYS[key] == g
      ensures key == Suffix(g) ==> key != ARCHITECTURE
    {
      GeneralKeysName(key, g);
    }
    assert key in GENERAL_KEYS ==> IsGeneral(GENERAL_KEYS[key]) && key == Suffix(GENERAL_KEYS[key]);
    if Prefix(es).Some? {
      var arch := Prefix(es).value;
      if !IsGeneral(f) {
        WantedKeysName(arch, key, f);
      }
      if key in s.wanted {
        WantedKeyIs(arch, key);
      }
    }
  }

  /** What an entry does to the scan's variables. */
  function Absorb(s: Scan, e: Entry): Scan {
    var v := Reading(e.datum);
    if e.key == ARCHITECTURE then s.(arch := v, wanted := if v.Text? then WantedKeys(v.bytes) else s.wanted)
    else if e.key in GENERAL_KEYS then s.(collected := s.collected[GENERAL_KEYS[e.key] := v])
    else if e.key in s.wanted then s.(collected := s.collected[s.wanted[e.key] := v])
    else s
  }

  lemma TagsAreSmall(d: Datum)
    requires EncodableDatum(d)
    ensures TagOf(d) < Pow256(4)
  {
    PowValues();
  }

  /** The three parts of an encoded entry. */
  lemma EntryParts(buf: seq<byte>, pos: nat, e: Entry)
    requires Encodable(e) && At(buf, pos, EncodeEntry(e))
    ensures var p := pos + |EncodeText(e.key)|;
      && ReadText(buf, pos) == Got(e.key, p)
      && ReadBits(buf, p, 4) == Got(TagOf(e.datum), p + 4)
      && At(buf, p + 4, EncodeDatum(e.datum))
  {
    hide EncodeText, EncodeDatum, LittleEndian, EncodableDatum, EncodableText, ReadText, ReadBits, At, TagOf, Pow256;
    var k, t, d := EncodeText(e.key), LittleEndian(TagOf(e.datum), 4), EncodeDatum(e.datum);
    TagsAreSmall(e.datum);
    ThreeParts(buf, pos, k, t, d);
    ReadTextBack(buf, pos, e.key);
    ReadBitsBack(buf, pos + |k|, TagOf(e.datum), 4);
  }

  lemma ThreeParts(buf: seq<byte>, pos: nat, a: seq<byte>, b: seq<byte>, c: seq<byte>)
    requires At(buf, pos, a + b + c)
    ensures At(buf, pos, a) && At(buf, pos + |a|, b) && At(buf, pos + |a| + |b|, c)
  {
    hide At;
    AtSplit(buf, pos, a + b, c);
    AtSplit(buf, pos, a, b);
  }

  /** One pass of the loop over an encoded entry. */
  lemma ScanEntryBack(buf: seq<byte>, pos: nat, s: Scan, e: Entry)
    requires Encodable(e) && At(buf, pos, EncodeEntry(e))
    ensures ScanEntry(buf, pos, s) == Got(Absorb(s, e), pos + |EncodeEntry(e)|)
  {
    hide WantedKeys, LittleEndian, EncodeDatum, EncodeText, ReadText, ReadBits, ReadValue, SkipValue, Reading;
    EntryParts(buf, pos, e);
    var p := pos + |EncodeText(e.key)| + 4;
    ReadValueBack(buf, p, e.datum);
    SkipAgreesWithRead(buf, p, TagOf(e.datum));
  }

  /** An entry's effect on the scan is its effect on what the entries say. */
  lemma AbsorbHolds(s: Scan, es: seq<Entry>, e: Entry)
    requires Holds(s, es) && EncodableDatum(e.datum)
    ensures Holds(Absorb(s, e), es + [e])
  {
    hide WantedKeys, Suffix, IsGeneral, Ascii, EncodableText, Names;
    assert DropLast(es + [e]) == es && Last(es + [e]) == e;
    forall f ensures Lookup(Absorb(s, e).collected, f) == LastValue(es + [e], f) {
      KeysName(s, es, e.key, f);
      assert Lookup(s.collected, f) == LastValue(es, f);
    }
  }

  lemma {:induction false} ScanEntriesBack(buf: seq<byte>, pos: nat, s: Scan, done: seq<Entry>, es: seq<Entry>)
    requires (forall e | e in es :: Encodable(e)) && At(buf, pos, EncodeEntries(es)) && Holds(s, done)
    ensures ScanEntries(buf, pos, |es|, s).Got? && ScanEntries(buf, pos, |es|, s).pos == pos + |EncodeEntries(es)|
    ensures Holds(ScanEntries(buf, pos, |es|, s).value, done + es)
    decreases |es|
  {
    hide ScanEntry, Absorb, EncodeEntry, Holds, At;
    if es == [] {
      assert done + es == done;
    } else {
      AtSplit(buf, pos, EncodeEntry(es[0]), EncodeEntries(es[1..]));
      ScanEntryBack(buf, pos, s, es[0]);
      AbsorbHolds(s, done, es[0]);
      ScanEntriesBack(buf, pos + |EncodeEntry(es[0])|, Absorb(s, es[0]), done + [es[0]], es[1..]);
      assert done + [es[0]] + es[1..] == done + es;
    }
  }

  /**
   * Reading inverts writing: whatever the entries, the header fields around them
   * and the bytes after them, the reader answers with the description of the
   * entries and stops exactly where they end.
   */
  lemma ParseInvertsEncode(version: nat, tensors: nat, es: seq<Entry>, rest: seq<byte>, fileSize: nat)
    requires version < Pow256(4) && tensors < Pow256(8) && |es| < Pow256(8)
    requires forall e | e in es :: Encodable(e)
    ensures var buf := EncodeFile(version, tensors, es, rest);
      Parse(buf, fileSize) == Some(Describe(es, fileSize)) && ParseScan(buf).Got? && ParseScan(buf).pos == |buf| - |rest|
  {
    var buf := EncodeFile(version, tensors, es, rest);
    HeaderBack(version, tensors, es, rest);
    hide EncodeFile;
    ScanEntriesBack(buf, 24, NEW_SCAN, [], es);
    assert [] + es == es;
    var s := ParseScan(buf).value;
    SummaryExtensional(s.arch, f => Lookup(s.collected, f), f => LastValue(es, f), fileSize);
  }

  lemma HeaderBack(version: nat, tensors: nat, es: seq<Entry>, rest: seq<byte>)
    requires version < Pow256(4) && tensors < Pow256(8) && |es| < Pow256(8)
    requires forall e | e in es :: Encodable(e)
    ensures var buf := EncodeFile(version, tensors, es, rest);
      && Slice(buf, 0, 4) == MAGIC
      && ReadBits(buf, 4, 4) == Got(version, 8) && ReadBits(buf, 8, 8) == Got(tensors, 16)
      && ReadBits(buf, 16, 8) == Got(|es|, 24)
      && At(buf, 24, EncodeEntries(es)) && |buf| == 24 + |EncodeEntries(es)| + |rest|
  {
    var buf := EncodeFile(version, tensors, es, rest);
    var v, t, n, body := LittleEndian(version, 4), LittleEndian(tensors, 8), LittleEndian(|es|, 8), EncodeEntries(es);
    hide LittleEndian, EncodeEntries;
    assert buf[0..|buf|] == MAGIC + v + t + n + body + rest;
    AtSplit(buf, 0, MAGIC + v + t + n + body, rest);
    AtSplit(buf, 0, MAGIC + v + t + n, body);
    AtSplit(buf, 0, MAGIC + v + t, n);
    AtSplit(buf, 0, MAGIC + v, t);
    AtSplit(buf, 0, MAGIC, v);
    ReadBitsBack(buf, 4, version, 4);
    ReadBitsBack(buf, 8, tensors, 8);
    ReadBitsBack(buf, 16, |es|, 8);
  }

  /** A summary depends only on what is looked up, field by field. */
  lemma SummaryExtensional(arch: Value, get: Field -> Option<Value>, get': Field -> Option<Value>, fileSize: nat)
    requires forall f :: get(f) == get'(f)
    ensures Summary(arch, get, fileSize) == Summary(arch, get', fileSize)
  {
  }

  // ---------------------------------------------------------------- the answer, field by field

  /** A number in the answer is the integer that was said last; nothing else is a number. */
  ghost predicate NumberSaid(answer: Option<int>, said: Option<Value>) {
    forall n: int :: answer == Some(n) <==> said == Some(Int(n))
  }

  /** The head dimension: the key length, or the embedding over the heads, rounded down. */
  ghost predicate HeadDimSaid(answer: Option<int>, keyLength: Option<Value>, embedding: Option<Value>, heads: Option<Value>) {
    if keyLength.Some? && keyLength.value.Int? then answer == Some(keyLength.value.i)
    else if embedding.Some? && embedding.value.Int? && embedding.value.i != 0 && heads.Some? && heads.value.Int? && heads.value.i != 0 then
      && answer.Some?
      && var q, e, h := answer.value, embedding.value.i, heads.value.i;
         if h > 0 then q * h <= e < q * h + h else q * h + h < e <= q * h
    else answer.None?
  }

  /** The quantisation: the label of the file type, if that is a number with a label. */
  predicate QuantSaid(answer: Option<string>, fileType: Option<Value>) {
    if fileType.Some? && fileType.value.Int? && fileType.value.i in FILE_TYPE_LABELS
    then answer == Some(FILE_TYPE_LABELS[fileType.value.i])
    else answer.None?
  }

  predicate NameSaid(answer: Option<seq<byte>>, said: Option<Value>) {
    if said.Some? && said.value.Text? then answer == Some(said.value.bytes) else answer.None?
  }

  /** What the answer says of a list of entries, field by field. */
  ghost predicate Answers(info: Info, es: seq<Entry>, fileSize: nat) {
    && info.architecture == Architecture(es) && info.fileSize == fileSize
    && NameSaid(info.name, LastValue(es, Name)) && QuantSaid(info.quant, LastValue(es, FileType))
    && NumberSaid(info.layers, LastValue(es, Layers)) && NumberSaid(info.embedding, LastValue(es, Embedding))
    && NumberSaid(info.heads, LastValue(es, Heads)) && NumberSaid(info.kvHeads, LastValue(es, KvHeads))
    && NumberSaid(info.contextLength, LastValue(es, ContextLength))
    && NumberSaid(info.parameterCount, LastValue(es, ParameterCount))
    && HeadDimSaid(info.headDim, LastValue(es, HeadDim), LastValue(es, Embedding), LastValue(es, Heads))
  }

  lemma DescriptionAnswers(es: seq<Entry>, fileSize: nat)
    ensures Answers(Describe(es, fileSize), es, fileSize)
  {
    hide LastValue, Architecture, FILE_TYPE_LABELS, FloorDiv;
  }

  /**
   * What the answer says of a file: each number is the integer that the last
   * entry for that very field holds, the name its text, the quantisation the
   * label of its file type, and the head dimension as described above.
   */
  lemma AnswerSays(version: nat, tensors: nat, es: seq<Entry>, rest: seq<byte>, fileSize: nat)
    requires version < Pow256(4) && tensors < Pow256(8) && |es| < Pow256(8)
    requires forall e | e in es :: Encodable(e)
    ensures var answer := Parse(EncodeFile(version, tensors, es, rest), fileSize);
      answer.Some? && Answers(answer.value, es, fileSize)
  {
    hide *;
    ParseInvertsEncode(version, tensors, es, rest, fileSize);
    DescriptionAnswers(es, fileSize);
  }
}
