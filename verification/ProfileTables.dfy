/** What a table says of its profile: every field from its own key, and exactly which tables are accepted. */
module ProfileTables {
  import opened Wrappers
  import opened PyText
  import opened TomlValue
  import opened Config
  import opened TomlRoundTrip
  import LineFacts
  import File = ProfileFile

  // ---------------------------------------------------------------- keys

  const SIZES := {"ctx_size", "parallel", "batch_size"}
  const TEXTS := {"model", "kv_cache_type_k", "kv_cache_type_v"}
  const NUMBERS := {"ubatch_size", "n_gpu_layers", "cache_reuse", "spec_draft_n_max", "spec_draft_n_min"}
  const WORDS := {"flash_attn", "spec_type"}
  const OTHERS := {"image", "cont_batching", "labels", "measured_vram_peak_bytes", "measured_vram_peak_at", "extra_args"}

  lemma TuningKeysAre()
    ensures forall f :: f in File.TUNING_FIELDS <==> f in NUMBERS + WORDS + {"cont_batching"}
  {
    var t := File.TUNING_FIELDS;
    assert t[0] == "n_gpu_layers" && t[1] == "flash_attn" && t[2] == "ubatch_size" && t[3] == "cont_batching" && t[4] == "cache_reuse"
        && t[5] == "spec_type" && t[6] == "spec_draft_n_max" && t[7] == "spec_draft_n_min";
  }

  lemma KeysAre()
    ensures forall k :: k in File.WRITE_ORDER <==> k in SIZES + TEXTS + NUMBERS + WORDS + OTHERS
  {
    TuningKeysAre();
    var front := ["model", "image", "ctx_size", "kv_cache_type_k", "kv_cache_type_v", "parallel", "batch_size"];
    var back := ["labels", "measured_vram_peak_bytes", "measured_vram_peak_at", "extra_args"];
    assert File.WRITE_ORDER == front + File.TUNING_FIELDS + back;
    hide File.TUNING_FIELDS, File.WRITE_ORDER;
    assert forall k :: k in front <==> k in SIZES + TEXTS + {"image"};
    assert forall k :: k in back <==> k in OTHERS - {"image", "cont_batching"};
  }

  // ---------------------------------------------------------------- tuning fields

  /** What the tuning fields of a table are. */
  ghost predicate TuningSaid(tuning: Tuning, table: map<string, Value>) {
    && (forall f :: f in tuning <==> f in table && f in NUMBERS + WORDS + {"cont_batching"})
    && (forall f | f in tuning && f in NUMBERS :: tuning[f].Number? && IntOf(table[f]) == Some(tuning[f].i))
    && (forall f | f in tuning && f in WORDS :: table[f].Scalar? && tuning[f] == Word(TextOf(table[f].atom)))
    && ("cont_batching" in tuning ==> tuning["cont_batching"].Switch? && table["cont_batching"] == Scalar(Bool(tuning["cont_batching"].on)))
    && ("flash_attn" in tuning ==> tuning["flash_attn"] in {Word("on"), Word("off"), Word("auto")})
  }

  /** Which tuning fields can be read. */
  ghost predicate TuningReadable(table: map<string, Value>) {
    && (forall f | f in table && f in NUMBERS :: IntOf(table[f]).Some?)
    && (forall f | f in table && f in WORDS :: table[f].Scalar?)
    && ("cont_batching" in table ==> table["cont_batching"].Scalar? && table["cont_batching"].atom.Bool?)
    && ("flash_attn" in table ==> TextOf(table["flash_attn"].atom) in {"on", "off", "auto"})
  }

  lemma {:induction false} SettingsSaid(fields: seq<string>, table: map<string, Value>)
    ensures var r := ReadSettings(fields, table);
      && (r.Some? <==> forall f | f in fields && f in table :: ReadSetting(f, table[f]).Some?)
      && (r.Some? ==>
        && (forall f :: f in r.value <==> f in fields && f in table)
        && forall f | f in r.value :: ReadSetting(f, table[f]) == Some(r.value[f]))
  {
    hide ReadSetting;
    if fields != [] {
      SettingsSaid(fields[1..], table);
      assert forall f :: f in fields <==> f == fields[0] || f in fields[1..];
    }
  }

  lemma SettingSaid(f: string, v: Value)
    ensures f in NUMBERS ==> ReadSetting(f, v) == if IntOf(v).Some? then Some(Number(IntOf(v).value)) else None
    ensures f in WORDS ==> ReadSetting(f, v) == if v.Scalar? then Some(Word(TextOf(v.atom))) else None
    ensures f == "cont_batching" ==>
      ReadSetting(f, v) == if v.Scalar? && v.atom.Bool? then Some(Switch(v.atom.b)) else None
  {
    hide IntOfText;
  }

  lemma TuningExactly(table: map<string, Value>)
    ensures ReadTuning(table).Some? <==> TuningReadable(table)
    ensures ReadTuning(table).Some? ==> TuningSaid(ReadTuning(table).value, table)
  {
    TuningKeysAre();
    hide File.TUNING_FIELDS, File.WRITE_ORDER, ReadSettings, ReadSetting, IntOf, TextOf;
    SettingsSaid(File.TUNING_FIELDS, table);
    forall f | f in table
      ensures f in NUMBERS ==> ReadSetting(f, table[f]) == if IntOf(table[f]).Some? then Some(Number(IntOf(table[f]).value)) else None
      ensures f in WORDS ==> ReadSetting(f, table[f]) == if table[f].Scalar? then Some(Word(TextOf(table[f].atom))) else None
      ensures f == "cont_batching" ==>
        ReadSetting(f, table[f]) == if table[f].Scalar? && table[f].atom.Bool? then Some(Switch(table[f].atom.b)) else None
    {
      SettingSaid(f, table[f]);
    }
  }

  // ---------------------------------------------------------------- profiles

  /** An optional number is there exactly when its key is. */
  predicate OptionalSaid(answer: Option<int>, table: map<string, Value>, key: string) {
    if key in table then answer.Some? && IntOf(table[key]) == answer else answer.None?
  }

  /** Extra arguments are what `tuple` makes of their value, and none without one. */
  predicate ArgsSaid(args: seq<Atom>, table: map<string, Value>) {
    if "extra_args" in table then TupleOf(table["extra_args"]) == Some(args) else args == []
  }

  /** A profile says what its table says, field by field. */
  ghost predicate ProfileSaid(p: Profile, name: string, table: map<string, Value>, defaultImage: string) {
    && SIZES + TEXTS <= table.Keys && table.Keys <= SIZES + TEXTS + NUMBERS + WORDS + OTHERS
    && p.name == name && Scalar(p.model) == table["model"]
    && (if "image" in table then Scalar(p.image) == table["image"] else p.image == Str(defaultImage))
    && Some(p.ctxSize) == IntOf(table["ctx_size"]) && Some(p.parallel) == IntOf(table["parallel"])
    && Some(p.batchSize) == IntOf(table["batch_size"])
    && Scalar(p.kvTypeK) == table["kv_cache_type_k"] && Scalar(p.kvTypeV) == table["kv_cache_type_v"]
    && TuningSaid(p.tuning, table) && ArgsSaid(p.extraArgs, table)
    && OptionalSaid(p.peakBytes, table, "measured_vram_peak_bytes")
    && (if "measured_vram_peak_at" in table
        then table["measured_vram_peak_at"].Scalar? && p.peakAt == Some(TextOf(table["measured_vram_peak_at"].atom))
        else p.peakAt.None?)
    && p.labels == if "labels" in table && table["labels"].Map? then Some(table["labels"].pairs) else None
  }

  /** The tables that can be read as a profile. */
  ghost predicate ProfileReadable(table: map<string, Value>) {
    && SIZES + TEXTS <= table.Keys && table.Keys <= SIZES + TEXTS + NUMBERS + WORDS + OTHERS
    && (forall k | k in SIZES :: IntOf(table[k]).Some?) && (forall k | k in TEXTS :: table[k].Scalar?)
    && ("image" in table ==> table["image"].Scalar?) && TuningReadable(table)
    && ("extra_args" in table ==> TupleOf(table["extra_args"]).Some?)
    && ("measured_vram_peak_bytes" in table ==> IntOf(table["measured_vram_peak_bytes"]).Some?)
    && ("measured_vram_peak_at" in table ==> table["measured_vram_peak_at"].Scalar?)
  }

  lemma KnownKeysAre(table: map<string, Value>)
    ensures HasKnownKeys(table) <==> SIZES + TEXTS <= table.Keys && table.Keys <= SIZES + TEXTS + NUMBERS + WORDS + OTHERS
  {
    KeysAre();
    hide File.WRITE_ORDER, File.TUNING_FIELDS;
    assert forall k :: k in REQUIRED_KEYS <==> k in SIZES + TEXTS;
  }

  /** Reading the settings needs nothing but the keys they come from. */
  lemma SettingsExactly(name: string, table: map<string, Value>, defaultImage: string)
    requires SIZES + TEXTS <= table.Keys
    ensures LoadSettings(name, table, defaultImage).Some? <==>
      && (forall k | k in SIZES :: IntOf(table[k]).Some?) && (forall k | k in TEXTS :: table[k].Scalar?)
      && ("image" in table ==> table["image"].Scalar?) && ReadTuning(table).Some?
      && ("extra_args" in table ==> TupleOf(table["extra_args"]).Some?)
  {
    hide ReadTuning, IntOf, TupleOf, DictAt;
    assert "ctx_size" in SIZES && "parallel" in SIZES && "batch_size" in SIZES;
    assert "model" in TEXTS && "kv_cache_type_k" in TEXTS && "kv_cache_type_v" in TEXTS;
  }

  /** Which tables load, and what each field of the profile is then. */
  lemma LoadsExactly(name: string, table: map<string, Value>, defaultImage: string)
    ensures LoadProfile(name, table, defaultImage).Some? <==> ProfileReadable(table)
    ensures LoadProfile(name, table, defaultImage).Some? ==>
      ProfileSaid(LoadProfile(name, table, defaultImage).value, name, table, defaultImage)
  {
    KnownKeysAre(table);
    TuningExactly(table);
    if HasKnownKeys(table) {
      SettingsExactly(name, table, defaultImage);
      FieldsSaid(name, table, defaultImage);
    }
    hide HasKnownKeys, LoadSettings, ReadTuning, TuningReadable, TuningSaid, IntOf, TextOf, TupleOf, SIZES, TEXTS, NUMBERS, WORDS, OTHERS;
  }

  lemma FieldsSaid(name: string, table: map<string, Value>, defaultImage: string)
    requires SIZES + TEXTS <= table.Keys && table.Keys <= SIZES + TEXTS + NUMBERS + WORDS + OTHERS
    requires ReadTuning(table).Some? ==> TuningSaid(ReadTuning(table).value, table)
    ensures LoadProfile(name, table, defaultImage).Some? ==>
      ProfileSaid(LoadProfile(name, table, defaultImage).value, name, table, defaultImage)
  {
    hide HasKnownKeys, ReadTuning, TuningSaid, IntOf, TextOf, TupleOf, NUMBERS, WORDS, OTHERS;
  }

  /**
   * A table is accepted from a client if and only if it can be read and its
   * slots, at least one, divide its context.
   */
  lemma AcceptedExactly(name: string, table: map<string, Value>, defaultImage: string)
    ensures BuildProfile(name, table, defaultImage).Some? <==>
      && ProfileReadable(table)
      && IntOf(table["parallel"]).value >= 1 && IntOf(table["ctx_size"]).value % IntOf(table["parallel"]).value == 0
    ensures BuildProfile(name, table, defaultImage).Some? ==>
      BuildProfile(name, table, defaultImage) == LoadProfile(name, table, defaultImage)
  {
    LoadsExactly(name, table, defaultImage);
    hide LoadProfile, TuningReadable, TuningSaid, IntOf, TextOf, TupleOf;
  }

  // ---------------------------------------------------------------- the common section

  ghost predicate CommonSaid(c: Common, table: map<string, Value>) {
    && {"image", "models_dir", "container_name", "host_port"} <= table.Keys
    && table["image"] == Scalar(Str(c.image)) && table["models_dir"] == Scalar(Str(c.modelsDir))
    && table["container_name"] == Scalar(Str(c.containerName)) && IntOf(table["host_port"]) == Some(c.hostPort)
    && TuningSaid(c.tuning, table) && ArgsSaid(c.extraArgs, table)
  }

  predicate IsText(table: map<string, Value>, key: string) {
    key in table && table[key].Scalar? && table[key].atom.Str?
  }

  /** Which tables load as a common section, and what each of its fields is then. */
  lemma CommonExactly(table: map<string, Value>)
    ensures LoadCommon(table).Some? <==>
      && IsText(table, "image") && IsText(table, "models_dir") && IsText(table, "container_name")
      && "host_port" in table && IntOf(table["host_port"]).Some? && TuningReadable(table)
      && ("extra_args" in table ==> TupleOf(table["extra_args"]).Some?)
    ensures LoadCommon(table).Some? ==> CommonSaid(LoadCommon(table).value, table)
  {
    TuningExactly(table);
    hide ReadTuning, TuningReadable, TuningSaid, IntOf, TupleOf;
  }

  // ---------------------------------------------------------------- numbers

  /** Numbers stay numbers, switches count as one or zero, lists give their items, and text gives its characters. */
  lemma Conversions(i: int, b: bool, items: seq<Atom>, text: string)
    ensures IntOf(Scalar(Int(i))) == Some(i) && IntOf(Scalar(Bool(b))) == Some(if b then 1 else 0)
    ensures IntOf(List(items)).None? && TupleOf(List(items)) == Some(items) && TupleOf(Scalar(Int(i))).None?
    ensures TupleOf(Scalar(Str(text))).Some? && |TupleOf(Scalar(Str(text))).value| == |text|
    ensures forall k | 0 <= k < |text| :: TupleOf(Scalar(Str(text))).value[k] == Str([text[k]])
    ensures TextOf(Str(text)) == text && TextOf(Int(i)) == PrintInt(i) && TextOf(Bool(b)) == if b then "True" else "False"
  {
  }

  lemma {:induction false} DigitsJoin(s: string)
    requires s != [] && forall i | 0 <= i < |s| :: IsDigit(s[i])
    ensures JoinDigits(s) == Some(s)
  {
    if |s| > 1 {
      DigitsJoin(s[1..]);
      assert s == [s[0]] + s[1..] && IsDigit(s[1]);
    }
  }

  lemma DigitIsNoSpace(c: char)
    ensures IsDigit(c) || c == '-' ==> !IsSpace(c)
  {
  }

  lemma DigitsRead(text: string, digits: string, negative: bool)
    requires Strip(text) == text && digits != [] && (forall k | 0 <= k < |digits| :: IsDigit(digits[k]))
    requires text == (if negative then "-" else "") + digits
    ensures IntOfText(text) == Some(if negative then -(FromDecimal(digits) as int) else FromDecimal(digits))
  {
    hide Strip, FromDecimal, JoinDigits;
    DigitsJoin(digits);
    assert IsDigit(digits[0]);
    assert if negative then text[0] == '-' && text[1..] == digits else text == digits;
  }

  lemma Signed(i: int)
    ensures PrintInt(i) == (if i < 0 then "-" else "") + Decimal(if i < 0 then -i else i)
    ensures IntOf(Scalar(Str(PrintInt(i)))) == IntOfText(PrintInt(i))
  {
    hide Decimal, IntOfText;
  }

  /** A number given as its own text is that number. */
  lemma IntTextBack(i: int)
    ensures IntOf(Scalar(Str(PrintInt(i)))) == Some(i)
  {
    hide *;
    var digits, text := Decimal(if i < 0 then -i else i), PrintInt(i);
    DecimalDigits(if i < 0 then -i else i);
    Signed(i);
    assert text[|text| - 1] == digits[|digits| - 1];
    DigitIsNoSpace(text[0]);
    DigitIsNoSpace(text[|text| - 1]);
    LineFacts.NothingToStrip(text);
    DigitsRead(text, digits, i < 0);
  }
}
