/**
 * The GGUF header reader: a cursor over an untrusted buffer that either reads a
 * metadata value or skips it, and the scan that collects a model's geometry.
 */
module Gguf {
  import opened Bytes
  import opened Wrappers

  /** What the reader hands back for one metadata value: Python's int, bool, float, str or None. */
  datatype Value = Int(i: int) | Bool(b: bool) | Float(bits: nat) | Text(bytes: seq<byte>) | NoValue

  /** The outcome of one read: a value and the new position, or any of the reader's exceptions. */
  datatype Read<+T> = Got(value: T, pos: nat) | Fail {
    predicate IsFailure() { Fail? }
    function PropagateFailure<U>(): Read<U>
      requires Fail?
    {
      Fail
    }
    function Extract(): (T, nat)
      requires Got?
    {
      (value, pos)
    }
  }

  const STRING: nat := 8
  const ARRAY: nat := 9

  predicate IsScalar(tag: nat) {
    tag <= 7 || 10 <= tag <= 12
  }

  /** The byte width of a scalar tag: 8-bit, 16-bit, 32-bit or 64-bit. */
  function Width(tag: nat): (w: nat)
    requires IsScalar(tag)
    ensures w in {1, 2, 4, 8}
  {
    match tag
    case 0 | 1 | 7 => 1
    case 2 | 3 => 2
    case 4 | 5 | 6 => 4
    case _ => 8
  }

  /** The struct formats `<b`, `<h`, `<i` and `<q`. */
  predicate IsSigned(tag: nat) {
    tag in {1, 3, 5, 11}
  }

  /** The value a scalar's raw bits stand for. */
  function Interpret(tag: nat, bits: nat): Value
    requires IsScalar(tag)
  {
    if tag == 7 then Bool(bits != 0)
    else if tag == 6 || tag == 12 then Float(bits)
    else if IsSigned(tag) && 2 * bits >= Pow256(Width(tag)) then Int(bits - Pow256(Width(tag)))
    else Int(bits)
  }

  // ---------------------------------------------------------------- reading

  function ReadBits(buf: seq<byte>, pos: nat, w: nat): Read<nat> {
    if pos + w <= |buf| then Got(FromLittleEndian(buf[pos..pos + w]), pos + w) else Fail
  }

  /** A Python slice: bounds past the end are pulled back to it. */
  function Slice(buf: seq<byte>, lo: nat, hi: nat): seq<byte> {
    var h := if hi < |buf| then hi else |buf|;
    if lo < h then buf[lo..h] else []
  }

  /** A string is cut short at the end of the buffer, but the cursor moves by its whole length. */
  function ReadText(buf: seq<byte>, pos: nat): Read<seq<byte>> {
    var (n, p) :- ReadBits(buf, pos, 8);
    Got(Slice(buf, p, p + n), p + n)
  }

  function SkipTexts(buf: seq<byte>, pos: nat, count: nat): Read<()>
    decreases count
  {
    if count == 0 then Got((), pos) else
    var (_, p) :- ReadText(buf, pos);
    SkipTexts(buf, p, count - 1)
  }

  function SkipArray(buf: seq<byte>, pos: nat): Read<()> {
    var (tag, p) :- ReadBits(buf, pos, 4);
    var (count, q) :- ReadBits(buf, p, 8);
    if IsScalar(tag) then Got((), q + Width(tag) * count)
    else if tag == STRING then SkipTexts(buf, q, count)
    else Fail
  }

  /** Skipping never looks at a scalar's bytes, so it cannot fail on them. */
  function SkipValue(buf: seq<byte>, pos: nat, tag: nat): Read<()> {
    if IsScalar(tag) then Got((), pos + Width(tag))
    else if tag == STRING then
      var (_, p) :- ReadText(buf, pos);
      Got((), p)
    else if tag == ARRAY then SkipArray(buf, pos)
    else Fail
  }

  function ReadValue(buf: seq<byte>, pos: nat, tag: nat): Read<Value> {
    if IsScalar(tag) then
      var (bits, p) :- ReadBits(buf, pos, Width(tag));
      Got(Interpret(tag, bits), p)
    else if tag == STRING then
      var (s, p) :- ReadText(buf, pos);
      Got(Text(s), p)
    else if tag == ARRAY then
      var (_, p) :- SkipArray(buf, pos);
      Got(NoValue, p)
    else Fail
  }

  // ---------------------------------------------------------------- scanning

  /** The pieces of metadata that the scan keeps. */
  datatype Field = Name | ParameterCount | FileType
                 | Layers | Embedding | Heads | KvHeads | HeadDim | ContextLength

  const ARCHITECTURE := Ascii("general.architecture")
  const GENERAL_KEYS: map<seq<byte>, Field> :=
    map[Ascii("general.name") := Name,
        Ascii("general.parameter_count") := ParameterCount,
        Ascii("general.file_type") := FileType]

  function WantedKeys(arch: seq<byte>): map<seq<byte>, Field> {
    map[arch + Ascii(".block_count") := Layers,
        arch + Ascii(".embedding_length") := Embedding,
        arch + Ascii(".attention.head_count") := Heads,
        arch + Ascii(".attention.head_count_kv") := KvHeads,
        arch + Ascii(".attention.key_length") := HeadDim,
        arch + Ascii(".context_length") := ContextLength]
  }

  /** The scan's variables: the architecture, the keys it makes interesting, the values so far. */
  datatype Scan = Scan(arch: Value, wanted: map<seq<byte>, Field>, collected: map<Field, Value>)

  const NEW_SCAN := Scan(NoValue, map[], map[])

  /** One pass of the scan's loop: a key, a type tag and a value that is read or skipped. */
  function ScanEntry(buf: seq<byte>, pos: nat, s: Scan): Read<Scan> {
    var (key, p) :- ReadText(buf, pos);
    var (tag, q) :- ReadBits(buf, p, 4);
    if key == ARCHITECTURE then
      var (v, r) :- ReadValue(buf, q, tag);
      Got(s.(arch := v, wanted := if v.Text? then WantedKeys(v.bytes) else s.wanted), r)
    else if key in GENERAL_KEYS then
      var (v, r) :- ReadValue(buf, q, tag);
      Got(s.(collected := s.collected[GENERAL_KEYS[key] := v]), r)
    else if key in s.wanted then
      var (v, r) :- ReadValue(buf, q, tag);
      Got(s.(collected := s.collected[s.wanted[key] := v]), r)
    else
      var (_, r) :- SkipValue(buf, q, tag);
      Got(s, r)
  }

  function ScanEntries(buf: seq<byte>, pos: nat, count: nat, s: Scan): Read<Scan>
    decreases count
  {
    if count == 0 then Got(s, pos) else
    var (t, p) :- ScanEntry(buf, pos, s);
    ScanEntries(buf, p, count - 1, t)
  }

  // ---------------------------------------------------------------- the result

  datatype Info = Info(
    architecture: Value, name: Option<seq<byte>>, quant: Option<string>,
    layers: Option<int>, embedding: Option<int>, heads: Option<int>, kvHeads: Option<int>,
    headDim: Option<int>, contextLength: Option<int>, parameterCount: Option<int>,
    fileSize: nat)

  const FILE_TYPE_LABELS: map<int, string> :=
    map[0 := "all_f32", 1 := "f16", 2 := "q4_0", 3 := "q4_1", 7 := "q8_0", 8 := "q5_0", 9 := "q5_1",
        10 := "q2_k", 11 := "q3_k_s", 12 := "q3_k_m", 13 := "q3_k_l", 14 := "q4_k_s", 15 := "q4_k_m",
        16 := "q5_k_s", 17 := "q5_k_m", 18 := "q6_k"]

  /** An integer stays one; a boolean (or anything else) is not a usable number. */
  function AsInt(v: Option<Value>): Option<int> {
    if v.Some? && v.value.Int? then Some(v.value.i) else None
  }

  /** Python's `//`, which rounds towards minus infinity. */
  function FloorDiv(a: int, b: int): (q: int)
    requires b != 0
    ensures b > 0 ==> q * b <= a < q * b + b
    ensures b < 0 ==> q * b + b < a <= q * b
  {
    if b > 0 then a / b else (-a) / (-b)
  }

  function Lookup(collected: map<Field, Value>, f: Field): Option<Value> {
    if f in collected then Some(collected[f]) else None
  }

  /** The key length, or, without one, the embedding divided by the number of heads. */
  function ChooseHeadDim(keyLength: Option<int>, embedding: Option<int>, heads: Option<int>): Option<int> {
    if keyLength.Some? then keyLength
    else if embedding.Some? && embedding.value != 0 && heads.Some? && heads.value != 0
    then Some(FloorDiv(embedding.value, heads.value))
    else None
  }

  function Summary(arch: Value, get: Field -> Option<Value>, fileSize: nat): Info {
    var embedding, heads := AsInt(get(Embedding)), AsInt(get(Heads));
    var fileType := AsInt(get(FileType));
    Info(
      arch,
      if get(Name).Some? && get(Name).value.Text? then Some(get(Name).value.bytes) else None,
      if fileType.Some? && fileType.value in FILE_TYPE_LABELS then Some(FILE_TYPE_LABELS[fileType.value]) else None,
      AsInt(get(Layers)), embedding, heads, AsInt(get(KvHeads)),
      ChooseHeadDim(AsInt(get(HeadDim)), embedding, heads),
      AsInt(get(ContextLength)), AsInt(get(ParameterCount)), fileSize)
  }

  const MAGIC := Ascii("GGUF")

  /** The scan of a whole buffer; a result carries the position where the scan ended. */
  function ParseScan(buf: seq<byte>): Read<Scan> {
    if Slice(buf, 0, 4) != MAGIC then Fail else
    var (_, p) :- ReadBits(buf, 4, 4);
    var (_, q) :- ReadBits(buf, p, 8);
    var (count, r) :- ReadBits(buf, q, 8);
    ScanEntries(buf, r, count, NEW_SCAN)
  }

  /** The public answer: every failure is reported as None. */
  function Parse(buf: seq<byte>, fileSize: nat): Option<Info> {
    match ParseScan(buf)
    case Fail => None
    case Got(s, _) => Some(Summary(s.arch, f => Lookup(s.collected, f), fileSize))
  }
}
