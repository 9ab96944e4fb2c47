/**
 * The profile file: what its lines mean, and the four operations that edit it
 * as text. Everything here works on the file's whole text.
 */
module ProfileFile {
  import opened Wrappers
  import opened PyText
  import opened TomlValue

  // ---------------------------------------------------------------- what a file says

  datatype Section = Common | Profile(name: string)

  datatype LineKind = BlankLine | CommentLine | HeaderLine(section: Section) | PairLine(key: string, value: Value) | BadLine

  const COMMON_HEADER := "[common]"
  const PROFILE_PREFIX := "[profiles."

  function Header(name: string): string {
    PROFILE_PREFIX + name + "]"
  }

  function ClassifyHeader(h: string): LineKind {
    if h == COMMON_HEADER then HeaderLine(Common)
    else if |h| > |PROFILE_PREFIX| && StartsWith(h, PROFILE_PREFIX) && h[|h| - 1] == ']'
            && IsBareKey(h[|PROFILE_PREFIX|..|h| - 1])
    then HeaderLine(Profile(h[|PROFILE_PREFIX|..|h| - 1]))
    else BadLine
  }

  /** After a value only blanks and a comment may follow. */
  predicate EndsPair(rest: string) {
    var r := SkipBlanks(rest);
    r == [] || (r[0] == '#' && PlainText(r))
  }

  function ClassifyPair(u: string): LineKind {
    match ParsePair(u)
    case None => BadLine
    case Some((key, value, rest)) => if EndsPair(rest) then PairLine(key, value) else BadLine
  }

  /** The kinds of line a well-formed file is made of; every other line is bad. */
  function Classify(line: string): LineKind {
    var u := TrimLeft(line, IsBlank);
    if u == [] then BlankLine
    else if u[0] == '#' then (if PlainText(u) then CommentLine else BadLine)
    else if u[0] == '[' then ClassifyHeader(TrimRight(u, IsBlank))
    else ClassifyPair(u)
  }

  type Doc = map<Section, map<string, Value>>

  /** A reader's progress: the tables so far and the one being filled. */
  datatype Reading = Reading(doc: Doc, current: Option<Section>) | Broken

  const START := Reading(map[], None)

  /** TOML refuses a second table or key of the same name; so does the reader. */
  function ReadLine(st: Reading, line: string): Reading {
    if st.Broken? then Broken else
    match Classify(line)
    case BlankLine | CommentLine => st
    case HeaderLine(s) => if s in st.doc then Broken else Reading(st.doc[s := map[]], Some(s))
    case PairLine(k, v) =>
      if st.current.None? || st.current.value !in st.doc || k in st.doc[st.current.value] then Broken
      else Reading(st.doc[st.current.value := st.doc[st.current.value][k := v]], st.current)
    case BadLine => Broken
  }

  function ReadLines(st: Reading, lines: seq<string>): Reading
    decreases |lines|
  {
    if lines == [] then st else ReadLines(ReadLine(st, lines[0]), lines[1..])
  }

  function DocOf(st: Reading): Option<Doc> {
    match st
    case Reading(doc, _) => Some(doc)
    case Broken => None
  }

  /** The tables of a file, or None when the file is not well-formed. */
  function Read(text: string): Option<Doc> {
    DocOf(ReadLines(START, Rows(text)))
  }

  // ---------------------------------------------------------------- tables

  /** A Python dict: its keys in insertion order and their values. */
  datatype Table = Table(keys: seq<string>, values: map<string, Value>) {
    predicate Valid() {
      && (forall i, j | 0 <= i < j < |keys| :: keys[i] != keys[j])
      && (forall k | k in keys :: k in values)
      && (forall k | k in values :: k in keys)
    }
  }

  type Dict = t: Table | t.Valid() witness Table([], map[])

  const TUNING_FIELDS: seq<string> :=
    ["n_gpu_layers", "flash_attn", "ubatch_size", "cont_batching", "cache_reuse", "spec_type", "spec_draft_n_max", "spec_draft_n_min"]

  const WRITE_ORDER: seq<string> :=
    ["model", "image", "ctx_size", "kv_cache_type_k", "kv_cache_type_v", "parallel", "batch_size"]
    + TUNING_FIELDS + ["labels", "measured_vram_peak_bytes", "measured_vram_peak_at", "extra_args"]

  function Filter(keys: seq<string>, p: string -> bool): (r: seq<string>)
    ensures forall k :: k in r <==> k in keys && p(k)
  {
    if keys == [] then [] else (if p(keys[0]) then [keys[0]] else []) + Filter(keys[1..], p)
  }

  /** The keys as they are written: those of the canonical order first. */
  function Ordered(table: Table): seq<string> {
    Filter(WRITE_ORDER, k => k in table.keys) + Filter(table.keys, k => k !in WRITE_ORDER)
  }

  function PairText(key: string, value: Value): Option<string> {
    var text :- PrintValue(value);
    Some(key + " = " + text)
  }

  function PairLines(keys: seq<string>, values: map<string, Value>): Option<seq<string>>
    requires forall k | k in keys :: k in values
  {
    if keys == [] then Some([]) else
    var first :- PairText(keys[0], values[keys[0]]);
    var more :- PairLines(keys[1..], values);
    Some([first] + more)
  }

  /** The lines of a profile's block; None when a value cannot be written. */
  function FormatLines(name: string, table: Table): Option<seq<string>>
    requires table.Valid()
  {
    var pairs :- PairLines(Ordered(table), table.values);
    Some([Header(name)] + pairs)
  }

  function FormatTable(name: string, table: Table): Option<string>
    requires table.Valid()
  {
    var lines :- FormatLines(name, table);
    Some(Join("\n", lines) + "\n")
  }

  // ---------------------------------------------------------------- finding a block

  predicate IsHeaderLike(line: string) {
    StartsWith(Strip(line), "[") && EndsWith(Strip(line), "]")
  }

  /** The first line at or after `from` that satisfies p, or the end. */
  function Find(lines: seq<string>, from: nat, p: string -> bool): (i: nat)
    requires from <= |lines|
    ensures from <= i <= |lines|
    ensures forall j | from <= j < i :: !p(lines[j])
    ensures i < |lines| ==> p(lines[i])
    decreases |lines| - from
  {
    if from < |lines| && !p(lines[from]) then Find(lines, from + 1, p) else from
  }

  /** From a block's header line up to the next header line or the end of the file. */
  function BlockSpan(lines: seq<string>, name: string): (span: Option<(nat, nat)>)
    ensures span.Some? ==> span.value.0 < span.value.1 <= |lines|
  {
    var start := Find(lines, 0, line => Strip(line) == Header(name));
    if start == |lines| then None else Some((start, Find(lines, start + 1, IsHeaderLike)))
  }

  // ---------------------------------------------------------------- the edits

  datatype EditError = AlreadyPresent | NotFound | Unserializable | WriteFailed

  function AppendText(text: string, name: string, table: Table): Result<string, EditError>
    requires table.Valid()
  {
    if BlockSpan(SplitLines(text), name).Some? then Err(AlreadyPresent) else
    match FormatTable(name, table)
    case None => Err(Unserializable)
    case Some(block) => Ok(if Strip(text) != "" then StripNewlines(text) + "\n\n" + block else block)
  }

  function OverwriteText(text: string, name: string, table: Table): Result<string, EditError>
    requires table.Valid()
  {
    var lines := SplitLines(text);
    match BlockSpan(lines, name)
    case None => Err(NotFound)
    case Some((start, end)) =>
      match FormatTable(name, table)
      case None => Err(Unserializable)
      case Some(block) => Ok(Join("\n", lines[..start] + SplitLines(block) + lines[end..]) + "\n")
  }

  predicate DefinesKey(line: string, key: string) {
    StartsWith(LStrip(line), key + " ") || StartsWith(LStrip(line), key + "=")
  }

  /** Where a new pair goes: behind the block's last line that is not blank. */
  function InsertionPoint(lines: seq<string>, start: nat, end: nat): (i: nat)
    requires start < end <= |lines|
    ensures start < i <= end
    ensures forall j | i <= j < end :: Strip(lines[j]) == ""
    decreases end
  {
    if end > start + 1 && Strip(lines[end - 1]) == "" then InsertionPoint(lines, start, end - 1) else end
  }

  /** The lines with one pair of the block [start, end) replaced or added. */
  function SetLine(lines: seq<string>, start: nat, end: nat, key: string, newLine: string): seq<string>
    requires start < end <= |lines|
  {
    var i := Find(lines[..end], start + 1, line => DefinesKey(line, key));
    if i < end then lines[i := newLine]
    else
      var at := InsertionPoint(lines, start, end);
      lines[..at] + [newLine] + lines[at..]
  }

  function SetText(text: string, name: string, key: string, value: Value): Result<string, EditError> {
    var lines := SplitLines(text);
    match BlockSpan(lines, name)
    case None => Err(NotFound)
    case Some((start, end)) =>
      match PairText(key, value)
      case None => Err(Unserializable)
      case Some(newLine) => Ok(Join("\n", SetLine(lines, start, end, key, newLine)) + "\n")
  }

  function RemoveText(text: string, name: string): Result<string, EditError> {
    var lines := SplitLines(text);
    match BlockSpan(lines, name)
    case None => Err(NotFound)
    case Some((start, end)) =>
      var after := Find(lines, end, line => Strip(line) != "");
      var kept := StripNewlines(Join("\n", lines[..start] + lines[after..]));
      Ok(if kept != "" then kept + "\n" else "")
  }

  /** The file after an edit, and the error if there was one; a failed edit or write leaves the text alone. */
  function Commit(text: string, edit: Result<string, EditError>, writable: bool): (string, Option<EditError>) {
    match edit
    case Err(e) => (text, Some(e))
    case Ok(newText) => if writable then (newText, None) else (text, Some(WriteFailed))
  }
}
