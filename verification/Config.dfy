/** Profiles: validation of raw tables, loading a file, and rendering of the podman command line. */
module Config {
  import opened Wrappers
  import opened PyText
  import opened TomlValue
  import File = ProfileFile

  // ---------------------------------------------------------------- profiles

  /** A tuning value: an integer, a switch or a word. */
  datatype Setting = Number(i: int) | Switch(on: bool) | Word(s: string)

  /** The tuning fields that are set; a field that is missing is inherited. */
  type Tuning = map<string, Setting>

  datatype Profile = Profile(
    name: string, model: Atom, image: Atom, ctxSize: int, kvTypeK: Atom, kvTypeV: Atom, parallel: int, batchSize: int,
    tuning: Tuning, peakBytes: Option<int>, peakAt: Option<string>, labels: Option<Pairs>, extraArgs: seq<Atom>)

  datatype Common = Common(
    image: string, modelsDir: string, containerName: string, hostPort: int, tuning: Tuning, extraArgs: seq<Atom>)

  /** Total context divided by slots; None stands for the ValueError. */
  function SlotCtxSize(p: Profile): (r: Option<int>)
    ensures r.Some? <==> p.parallel >= 1 && p.ctxSize % p.parallel == 0
    ensures r.Some? ==> r.value * p.parallel == p.ctxSize
  {
    if p.parallel < 1 || p.ctxSize % p.parallel != 0 then None else Some(p.ctxSize / p.parallel)
  }

  // ---------------------------------------------------------------- conversions

  /** Digits with single underscores between them, without the underscores. */
  function JoinDigits(s: string): (r: Option<string>)
    ensures r.Some? ==> forall i | 0 <= i < |r.value| :: IsDigit(r.value[i])
    decreases |s|
  {
    if s == [] || !IsDigit(s[0]) then None
    else if |s| == 1 then Some(s)
    else
      var more :- JoinDigits(if s[1] == '_' then s[2..] else s[1..]);
      Some([s[0]] + more)
  }

  /** `int(text)` on ASCII text. */
  function IntOfText(text: string): Option<int> {
    var t := Strip(text);
    var negative := t != [] && t[0] == '-';
    var digits :- JoinDigits(if t != [] && (t[0] == '-' || t[0] == '+') then t[1..] else t);
    Some(if negative then -(FromDecimal(digits) as int) else FromDecimal(digits))
  }

  /** `int(value)`; None stands for an exception. */
  function IntOf(v: Value): Option<int> {
    match v
    case Scalar(Int(i)) => Some(i)
    case Scalar(Bool(b)) => Some(if b then 1 else 0)
    case Scalar(Str(s)) => IntOfText(s)
    case _ => None
  }

  function AtomOf(v: Value): Option<Atom> {
    match v
    case Scalar(a) => Some(a)
    case _ => None
  }

  function KeysOf(pairs: Pairs): seq<Atom> {
    match pairs
    case NoPairs => []
    case Pair(key, _, rest) => [Str(key)] + KeysOf(rest)
  }

  /** `tuple(value)`: a list's items, a string's characters, a dict's keys. */
  function TupleOf(v: Value): Option<seq<Atom>> {
    match v
    case List(items) => Some(items)
    case Scalar(Str(s)) => Some(seq(|s|, i requires 0 <= i < |s| => Str([s[i]])))
    case Map(pairs) => Some(KeysOf(pairs))
    case _ => None
  }

  // ---------------------------------------------------------------- building

  const INT_TUNING_KEYS := {"ubatch_size", "n_gpu_layers", "cache_reuse", "spec_draft_n_max", "spec_draft_n_min"}
  const BOOL_TUNING_KEYS := {"cont_batching"}
  const REQUIRED_KEYS := {"model", "ctx_size", "kv_cache_type_k", "kv_cache_type_v", "parallel", "batch_size"}

  function ReadSetting(key: string, v: Value): Option<Setting> {
    if key in INT_TUNING_KEYS then
      var i :- IntOf(v);
      Some(Number(i))
    else if key in BOOL_TUNING_KEYS then
      match v
      case Scalar(Bool(b)) => Some(Switch(b))
      case _ => None
    else
      var a :- AtomOf(v);
      Some(Word(TextOf(a)))
  }

  function ReadSettings(fields: seq<string>, table: map<string, Value>): Option<Tuning> {
    if fields == [] then Some(map[])
    else if fields[0] !in table then ReadSettings(fields[1..], table)
    else
      var setting :- ReadSetting(fields[0], table[fields[0]]);
      var more :- ReadSettings(fields[1..], table);
      Some(more[fields[0] := setting])
  }

  function ReadTuning(table: map<string, Value>): Option<Tuning> {
    var tuning :- ReadSettings(File.TUNING_FIELDS, table);
    if "flash_attn" in tuning && tuning["flash_attn"] !in {Word("on"), Word("off"), Word("auto")} then None
    else Some(tuning)
  }

  function OptionalInt(table: map<string, Value>, key: string): Option<Option<int>> {
    if key !in table then Some(None) else
    var i :- IntOf(table[key]);
    Some(Some(i))
  }

  function OptionalText(table: map<string, Value>, key: string): Option<Option<string>> {
    if key !in table then Some(None) else
    var a :- AtomOf(table[key]);
    Some(Some(TextOf(a)))
  }

  /** Only known keys, and every required one. */
  predicate HasKnownKeys(table: map<string, Value>) {
    (forall k | k in table :: k in File.WRITE_ORDER) && forall k | k in REQUIRED_KEYS :: k in table
  }

  function AtomAt(table: map<string, Value>, key: string): Option<Atom> {
    if key in table then AtomOf(table[key]) else None
  }

  function IntAt(table: map<string, Value>, key: string): Option<int> {
    if key in table then IntOf(table[key]) else None
  }

  function TupleAt(table: map<string, Value>, key: string): Option<seq<Atom>> {
    if key in table then TupleOf(table[key]) else Some([])
  }

  function DictAt(table: map<string, Value>, key: string): Option<Pairs> {
    if key in table && table[key].Map? then Some(table[key].pairs) else None
  }

  /** The fields that decide how a profile runs, and its labels. */
  function LoadSettings(name: string, table: map<string, Value>, defaultImage: string): Option<Profile> {
    var model :- AtomAt(table, "model");
    var image :- if "image" in table then AtomAt(table, "image") else Some(Str(defaultImage));
    var ctxSize :- IntAt(table, "ctx_size");
    var kvTypeK :- AtomAt(table, "kv_cache_type_k");
    var kvTypeV :- AtomAt(table, "kv_cache_type_v");
    var parallel :- IntAt(table, "parallel");
    var batchSize :- IntAt(table, "batch_size");
    var extraArgs :- TupleAt(table, "extra_args");
    var tuning :- ReadTuning(table);
    Some(Profile(name, model, image, ctxSize, kvTypeK, kvTypeV, parallel, batchSize, tuning,
                 None, None, DictAt(table, "labels"), extraArgs))
  }

  /** A profile from its table, as the loader builds it; None stands for an exception. */
  function LoadProfile(name: string, table: map<string, Value>, defaultImage: string): Option<Profile> {
    if !HasKnownKeys(table) then None
    else
      var settings :- LoadSettings(name, table, defaultImage);
      var peakBytes :- OptionalInt(table, "measured_vram_peak_bytes");
      var peakAt :- OptionalText(table, "measured_vram_peak_at");
      Some(settings.(peakBytes := peakBytes, peakAt := peakAt))
  }

  /** A profile from a client's table: the slots must also divide the context. */
  function BuildProfile(name: string, table: map<string, Value>, defaultImage: string): Option<Profile> {
    var p :- LoadProfile(name, table, defaultImage);
    var _ :- SlotCtxSize(p);
    Some(p)
  }

  function TextIn(table: map<string, Value>, key: string): Option<string> {
    if key in table && table[key].Scalar? && table[key].atom.Str? then Some(table[key].atom.s) else None
  }

  function LoadCommon(table: map<string, Value>): Option<Common> {
    var image :- TextIn(table, "image");
    var modelsDir :- TextIn(table, "models_dir");
    var containerName :- TextIn(table, "container_name");
    var hostPort :- IntAt(table, "host_port");
    var extraArgs :- TupleAt(table, "extra_args");
    var tuning :- ReadTuning(table);
    Some(Common(image, modelsDir, containerName, hostPort, tuning, extraArgs))
  }

  /** Every profile of a document, if every one of them can be built. */
  function LoadProfiles(doc: File.Doc, defaultImage: string): Option<map<string, Profile>> {
    if exists s | s in doc :: s.Profile? && LoadProfile(s.name, doc[s], defaultImage).None? then None
    else Some(map s | s in doc && s.Profile? :: s.name := LoadProfile(s.name, doc[s], defaultImage).value)
  }

  function LoadDoc(doc: File.Doc): Option<(Common, map<string, Profile>)> {
    if File.Common !in doc then None else
    var common :- LoadCommon(doc[File.Common]);
    var profiles :- LoadProfiles(doc, common.image);
    Some((common, profiles))
  }

  /** Loading a file from scratch, as a restarted server does. */
  function Load(text: string): Option<(Common, map<string, Profile>)> {
    var doc :- File.Read(text);
    LoadDoc(doc)
  }

  // ---------------------------------------------------------------- rendering

  /** A tuning field's flags: one for a value, or one of two for a switch. */
  datatype Flag = ValueFlag(flag: string) | SwitchFlags(on: string, off: string)

  const TUNING_SPECS: seq<(string, Flag)> :=
    [("n_gpu_layers", ValueFlag("--n-gpu-layers")),
     ("flash_attn", ValueFlag("--flash-attn")),
     ("ubatch_size", ValueFlag("--ubatch-size")),
     ("cont_batching", SwitchFlags("--cont-batching", "--no-cont-batching")),
     ("cache_reuse", ValueFlag("--cache-reuse")),
     ("spec_type", ValueFlag("--spec-type")),
     ("spec_draft_n_max", ValueFlag("--spec-draft-n-max")),
     ("spec_draft_n_min", ValueFlag("--spec-draft-n-min"))]

  /** The setting in effect: the profile's, or else the common one. */
  function Resolved(p: Profile, c: Common, field: string): Option<Setting> {
    if field in p.tuning then Some(p.tuning[field])
    else if field in c.tuning then Some(c.tuning[field])
    else None
  }

  function SettingText(s: Setting): string {
    match s
    case Number(i) => PrintInt(i)
    case Switch(on) => if on then "True" else "False"
    case Word(w) => w
  }

  /** Python's truth of a setting. */
  predicate IsTrue(s: Setting) {
    match s
    case Number(i) => i != 0
    case Switch(on) => on
    case Word(w) => w != ""
  }

  function FlagArgs(flag: Flag, setting: Option<Setting>): seq<string> {
    match (flag, setting)
    case (_, None) => []
    case (ValueFlag(f), Some(s)) => [f, SettingText(s)]
    case (SwitchFlags(on, off), Some(s)) => [if IsTrue(s) then on else off]
  }

  function TuningArgs(p: Profile, c: Common, specs: seq<(string, Flag)>): seq<string> {
    if specs == [] then [] else FlagArgs(specs[0].1, Resolved(p, c, specs[0].0)) + TuningArgs(p, c, specs[1..])
  }

  function Texts(atoms: seq<Atom>): seq<string> {
    seq(|atoms|, i requires 0 <= i < |atoms| => TextOf(atoms[i]))
  }

  function ServerArgs(p: Profile, c: Common): seq<string> {
    ["--model", "/models/" + TextOf(p.model), "--ctx-size", PrintInt(p.ctxSize), "--parallel", PrintInt(p.parallel),
     "--batch-size", PrintInt(p.batchSize), "--cache-type-k", TextOf(p.kvTypeK), "--cache-type-v", TextOf(p.kvTypeV),
     "--host", "0.0.0.0", "--port", PrintInt(c.hostPort)]
    + TuningArgs(p, c, TUNING_SPECS) + Texts(c.extraArgs) + Texts(p.extraArgs)
  }

  /** The flags of `podman run`, before the image. */
  function RunFlags(c: Common): (r: seq<string>)
    ensures |r| == 15
  {
    ["run", "--rm", "--detach", "--name", c.containerName, "--device", "/dev/dri", "--device", "/dev/kfd",
     "--group-add", "keep-groups", "--publish", PrintInt(c.hostPort) + ":" + PrintInt(c.hostPort),
     "--volume", c.modelsDir + ":/models:z"]
  }

  function PodmanArgs(p: Profile, c: Common): seq<string> {
    RunFlags(c) + [TextOf(p.image)] + ServerArgs(p, c)
  }

  function Lookup(tuning: Tuning, field: string): Option<Setting> {
    if field in tuning then Some(tuning[field]) else None
  }

  /** The effective tuning, field by field. */
  method ResolveTuning(p: Profile, c: Common) returns (resolved: Tuning)
    ensures forall f | f in File.TUNING_FIELDS ::
      Lookup(resolved, f) == if f in p.tuning then Some(p.tuning[f]) else if f in c.tuning then Some(c.tuning[f]) else None
    ensures forall f | f in resolved :: f in File.TUNING_FIELDS
  {
    var fields := File.TUNING_FIELDS;
    resolved := map[];
    for i := 0 to |fields|
      invariant forall j | 0 <= j < i :: Lookup(resolved, fields[j]) == Resolved(p, c, fields[j])
      invariant forall f | f in resolved :: f in fields && Lookup(resolved, f) == Resolved(p, c, f)
    {
      hide File.TUNING_FIELDS;
      if fields[i] in p.tuning {
        resolved := resolved[fields[i] := p.tuning[fields[i]]];
      } else if fields[i] in c.tuning {
        resolved := resolved[fields[i] := c.tuning[fields[i]]];
      }
    }
  }

  lemma SpecsCoverFields()
    ensures |TUNING_SPECS| == |File.TUNING_FIELDS| == 8
    ensures forall i | 0 <= i < |TUNING_SPECS| :: TUNING_SPECS[i].0 == File.TUNING_FIELDS[i]
  {
  }

  /** The tuning flags, in the order of the specification table. */
  method RenderTuningArgs(p: Profile, c: Common) returns (args: seq<string>)
    ensures args == TuningArgs(p, c, TUNING_SPECS)
  {
    var resolved := ResolveTuning(p, c);
    SpecsCoverFields();
    var specs := TUNING_SPECS;
    hide TUNING_SPECS, File.TUNING_FIELDS, TuningArgs, SettingText;
    args := [];
    assert specs[0..] == specs && [] + TuningArgs(p, c, specs) == TuningArgs(p, c, specs);
    for i := 0 to |specs|
      invariant args + TuningArgs(p, c, specs[i..]) == TuningArgs(p, c, specs)
    {
      var (field, flag) := specs[i];
      assert field in File.TUNING_FIELDS && Lookup(resolved, field) == Resolved(p, c, field);
      ghost var before := args;
      if field in resolved {
        match flag {
          case SwitchFlags(on, off) => args := args + [if IsTrue(resolved[field]) then on else off];
          case ValueFlag(f) => args := args + [f, SettingText(resolved[field])];
        }
      }
      TuningStep(p, c, specs, i, before);
    }
    TuningEnds(p, c, specs[|specs|..]);
  }

  lemma TuningEnds(p: Profile, c: Common, specs: seq<(string, Flag)>)
    requires specs == []
    ensures TuningArgs(p, c, specs) == []
  {
  }

  lemma TuningStep(p: Profile, c: Common, specs: seq<(string, Flag)>, i: nat, args: seq<string>)
    requires i < |specs|
    ensures args + TuningArgs(p, c, specs[i..])
         == args + FlagArgs(specs[i].1, Resolved(p, c, specs[i].0)) + TuningArgs(p, c, specs[i + 1..])
  {
    hide FlagArgs, Resolved;
    assert specs[i..][1..] == specs[i + 1..];
  }

  /** Rendering depends on what a profile runs, not on its name, labels or measurements. */
  lemma RenderingIgnoresMeasurements(p: Profile, c: Common, bytes: Option<int>, at: Option<string>)
    ensures PodmanArgs(p.(peakBytes := bytes, peakAt := at), c) == PodmanArgs(p, c)
  {
    TuningIgnoresMeasurements(p, c, bytes, at, TUNING_SPECS);
  }

  lemma {:induction false} TuningIgnoresMeasurements(p: Profile, c: Common, bytes: Option<int>, at: Option<string>, specs: seq<(string, Flag)>)
    ensures TuningArgs(p.(peakBytes := bytes, peakAt := at), c, specs) == TuningArgs(p, c, specs)
  {
    if specs != [] {
      TuningIgnoresMeasurements(p, c, bytes, at, specs[1..]);
    }
  }
}
