/**
 * The manager's profiles and the file stay in step: whatever calls were made,
 * a server restarted on the file would load what the running one holds.
 */
module StoreSync {
  import opened Wrappers
  import opened TomlValue
  import opened PyText
  import opened Config
  import opened FileReading
  import opened FileEdits
  import opened FileRefinement
  import opened KeptFiles
  import opened LooseSets
  import ExactEdits
  import PF = ProfileFile
  import L = Lifecycle
  import M = Machine

  // ---------------------------------------------------------------- loading an edited document

  lemma LoadedKeys(doc: PF.Doc)
    requires LoadDoc(doc).Some?
    ensures var (common, profiles) := LoadDoc(doc).value;
      && (forall n :: n in profiles <==> PF.Profile(n) in doc)
      && forall n | n in profiles :: LoadProfile(n, doc[PF.Profile(n)], common.image) == Some(profiles[n])
  {
    hide LoadProfile, LoadCommon;
    var (common, profiles) := LoadDoc(doc).value;
    assert LoadProfiles(doc, common.image) == Some(profiles);
    forall n | PF.Profile(n) in doc
      ensures n in profiles && LoadProfile(n, doc[PF.Profile(n)], common.image) == Some(profiles[n])
    {
      var s := PF.Profile(n);
      assert s in doc && s.Profile?;
      assert LoadProfile(s.name, doc[s], common.image).Some?;
    }
  }

  lemma LoadedIs(doc: PF.Doc, common: Common, profiles: map<string, Profile>)
    requires PF.Common in doc && LoadCommon(doc[PF.Common]) == Some(common)
    requires forall n :: n in profiles <==> PF.Profile(n) in doc
    requires forall n | n in profiles :: LoadProfile(n, doc[PF.Profile(n)], common.image) == Some(profiles[n])
    ensures LoadDoc(doc) == Some((common, profiles))
  {
    hide LoadProfile, LoadCommon;
    forall s | s in doc && s.Profile?
      ensures LoadProfile(s.name, doc[s], common.image) == Some(profiles[s.name])
    {
      assert s == PF.Profile(s.name) && s.name in profiles;
    }
    var loaded := LoadProfiles(doc, common.image);
    assert loaded.Some?;
    forall n | n in profiles
      ensures n in loaded.value && loaded.value[n] == profiles[n]
    {
      var s := PF.Profile(n);
      assert s in doc && s.Profile?;
    }
    assert loaded.value == profiles;
  }

  /** A block that is put in the document is a profile that is put in the map. */
  lemma LoadPut(doc: PF.Doc, n: string, values: map<string, Value>, p: Profile)
    requires LoadDoc(doc).Some? && LoadProfile(n, values, LoadDoc(doc).value.0.image) == Some(p)
    ensures LoadDoc(doc[PF.Profile(n) := values]) == Some((LoadDoc(doc).value.0, LoadDoc(doc).value.1[n := p]))
  {
    LoadedKeys(doc);
    var (common, profiles) := LoadDoc(doc).value;
    assert PF.Common in doc && LoadCommon(doc[PF.Common]) == Some(common);
    hide LoadProfile, LoadCommon, LoadDoc;
    LoadedIs(doc[PF.Profile(n) := values], common, profiles[n := p]);
  }

  lemma LoadDrop(doc: PF.Doc, n: string)
    requires LoadDoc(doc).Some?
    ensures LoadDoc(doc - {PF.Profile(n)}) == Some((LoadDoc(doc).value.0, LoadDoc(doc).value.1 - {n}))
  {
    LoadedKeys(doc);
    var (common, profiles) := LoadDoc(doc).value;
    assert PF.Common in doc && LoadCommon(doc[PF.Common]) == Some(common);
    hide LoadProfile, LoadCommon, LoadDoc;
    LoadedIs(doc - {PF.Profile(n)}, common, profiles - {n});
  }

  // ---------------------------------------------------------------- the measured fields

  lemma {:induction false} SettingsFrame(fields: seq<string>, table: map<string, Value>, key: string, v: Value)
    requires key !in fields
    ensures ReadSettings(fields, table[key := v]) == ReadSettings(fields, table)
  {
    hide ReadSetting;
    if fields != [] {
      assert key !in fields[1..];
      SettingsFrame(fields[1..], table, key, v);
    }
  }

  lemma MeasuredKeys()
    ensures L.PEAK_BYTES in PF.WRITE_ORDER && L.PEAK_AT in PF.WRITE_ORDER
    ensures L.PEAK_BYTES !in PF.TUNING_FIELDS && L.PEAK_AT !in PF.TUNING_FIELDS
  {
    assert PF.WRITE_ORDER[16] == L.PEAK_BYTES && PF.WRITE_ORDER[17] == L.PEAK_AT;
  }

  lemma MeasuredTuning(table: map<string, Value>, key: string, v: Value)
    requires key == L.PEAK_BYTES || key == L.PEAK_AT
    ensures ReadTuning(table[key := v]) == ReadTuning(table)
  {
    MeasuredKeys();
    SettingsFrame(PF.TUNING_FIELDS, table, key, v);
    hide ReadSettings, PF.TUNING_FIELDS;
  }

  lemma KeysApart(key: string)
    requires key == L.PEAK_BYTES || key == L.PEAK_AT
    ensures key in PF.WRITE_ORDER && key !in REQUIRED_KEYS && key != "image" && key != "extra_args" && key != "labels"
  {
    MeasuredKeys();
    assert |key| > 20;
  }

  /** Reading one key does not see another. */
  lemma OtherKey(table: map<string, Value>, key: string, v: Value, other: string)
    requires key != other
    ensures AtomAt(table[key := v], other) == AtomAt(table, other) && IntAt(table[key := v], other) == IntAt(table, other)
    ensures TupleAt(table[key := v], other) == TupleAt(table, other) && DictAt(table[key := v], other) == DictAt(table, other)
    ensures other in table[key := v] <==> other in table
  {
  }

  lemma MeasuredSettings(name: string, table: map<string, Value>, image: string, key: string, v: Value)
    requires HasKnownKeys(table) && (key == L.PEAK_BYTES || key == L.PEAK_AT)
    ensures HasKnownKeys(table[key := v])
    ensures LoadSettings(name, table[key := v], image) == LoadSettings(name, table, image)
  {
    KeysApart(key);
    MeasuredTuning(table, key, v);
    hide ReadTuning, PF.WRITE_ORDER, AtomAt, IntAt, TupleAt, DictAt;
    forall other | other in REQUIRED_KEYS + {"image", "extra_args", "labels"}
      ensures AtomAt(table[key := v], other) == AtomAt(table, other) && IntAt(table[key := v], other) == IntAt(table, other)
    {
      OtherKey(table, key, v, other);
    }
    OtherKey(table, key, v, "image");
    OtherKey(table, key, v, "extra_args");
    OtherKey(table, key, v, "labels");
  }

  lemma MeasuredFields(table: map<string, Value>, bytes: int, at: string)
    ensures OptionalInt(table[L.PEAK_BYTES := Scalar(Int(bytes))], L.PEAK_BYTES) == Some(Some(bytes))
    ensures OptionalText(table[L.PEAK_BYTES := Scalar(Int(bytes))], L.PEAK_AT) == OptionalText(table, L.PEAK_AT)
    ensures OptionalText(table[L.PEAK_AT := Scalar(Str(at))], L.PEAK_AT) == Some(Some(at))
    ensures OptionalInt(table[L.PEAK_AT := Scalar(Str(at))], L.PEAK_BYTES) == OptionalInt(table, L.PEAK_BYTES)
  {
    assert |L.PEAK_BYTES| != |L.PEAK_AT|;
    hide IntOfText;
  }

  lemma LoadPeakBytes(name: string, table: map<string, Value>, image: string, bytes: int)
    requires LoadProfile(name, table, image).Some?
    ensures LoadProfile(name, table[L.PEAK_BYTES := Scalar(Int(bytes))], image)
         == Some(LoadProfile(name, table, image).value.(peakBytes := Some(bytes)))
  {
    MeasuredSettings(name, table, image, L.PEAK_BYTES, Scalar(Int(bytes)));
    MeasuredFields(table, bytes, "");
    hide HasKnownKeys, LoadSettings, OptionalInt, OptionalText;
  }

  lemma LoadPeakAt(name: string, table: map<string, Value>, image: string, at: string)
    requires LoadProfile(name, table, image).Some?
    ensures LoadProfile(name, table[L.PEAK_AT := Scalar(Str(at))], image)
         == Some(LoadProfile(name, table, image).value.(peakAt := Some(at)))
  {
    MeasuredSettings(name, table, image, L.PEAK_AT, Scalar(Str(at)));
    MeasuredFields(table, 0, at);
    hide HasKnownKeys, LoadSettings, OptionalInt, OptionalText;
  }
  // ---------------------------------------------------------------- memory and file

  predicate SameButMeasured(p: Profile, q: Profile) {
    p.(peakBytes := None, peakAt := None) == q.(peakBytes := None, peakAt := None)
  }

  /** The profiles of a file and those in memory: the stale ones may differ in their measured fields. */
  predicate Agree(loaded: map<string, Profile>, held: map<string, Profile>, stale: set<string>) {
    && loaded.Keys == held.Keys
    && forall n | n in held :: SameButMeasured(loaded[n], held[n]) && (n !in stale ==> loaded[n] == held[n])
  }

  ghost predicate InStep(c: L.Core, stale: set<string>) {
    && Kept(c.file) && Load(c.file).Some?
    && Load(c.file).value.0 == c.common && Agree(Load(c.file).value.1, c.profiles, stale)
  }

  lemma InStepDoc(c: L.Core, stale: set<string>)
    returns (doc: PF.Doc, loaded: map<string, Profile>)
    requires InStep(c, stale)
    ensures Kept(c.file) && PF.Read(c.file) == Some(doc) && LoadDoc(doc) == Some((c.common, loaded))
    ensures Agree(loaded, c.profiles, stale) && forall n :: n in c.profiles <==> PF.Profile(n) in doc
  {
    doc := PF.Read(c.file).value;
    hide LoadDoc, PF.Read, Kept;
    loaded := LoadDoc(doc).value.1;
    LoadedKeys(doc);
    assert forall n :: n in c.profiles <==> n in c.profiles.Keys;
    assert forall n :: n in loaded <==> n in loaded.Keys;
  }

  lemma InStepFrom(c: L.Core, stale: set<string>, doc: PF.Doc, loaded: map<string, Profile>)
    requires Kept(c.file) && PF.Read(c.file) == Some(doc) && LoadDoc(doc) == Some((c.common, loaded))
    requires Agree(loaded, c.profiles, stale)
    ensures InStep(c, stale)
  {
    hide LoadDoc, PF.Read, Kept, Agree;
  }

  lemma AgreePut(loaded: map<string, Profile>, held: map<string, Profile>, stale: set<string>, name: string, p: Profile)
    requires Agree(loaded, held, stale)
    ensures Agree(loaded[name := p], held[name := p], stale - {name})
  {
  }

  /** A block written to the file and the profile built from it put in memory. */
  lemma PutInStep(c: L.Core, stale: set<string>, name: string, values: map<string, Value>, p: Profile, text: string)
    requires InStep(c, stale) && Kept(text) && LoadProfile(name, values, c.common.image) == Some(p)
    requires PF.Read(c.file).Some? && PF.Read(text) == Some(PF.Read(c.file).value[PF.Profile(name) := values])
    ensures InStep(c.(file := text, profiles := c.profiles[name := p]), stale - {name})
  {
    hide *;
    var doc, loaded := InStepDoc(c, stale);
    LoadPut(doc, name, values, p);
    AgreePut(loaded, c.profiles, stale, name, p);
    InStepFrom(c.(file := text, profiles := c.profiles[name := p]), stale - {name},
               doc[PF.Profile(name) := values], loaded[name := p]);
  }

  // ---------------------------------------------------------------- the four operations

  lemma CreateIs(c: L.Core, name: string, table: PF.Table, writable: bool)
    returns (p: Profile)
    requires table.Valid() && L.Create(c, name, table, writable).1 == L.Fine
    ensures LoadProfile(name, table.values, c.common.image) == Some(p) && SlotCtxSize(p).Some?
    ensures name !in c.profiles && PF.AppendText(c.file, name, table).Ok?
    ensures L.Create(c, name, table, writable).0
         == c.(file := PF.AppendText(c.file, name, table).value, profiles := c.profiles[name := p])
  {
    hide PF.AppendText, LoadProfile;
    p := BuildProfile(name, table.values, c.common.image).value;
  }

  lemma CreateInStep(c: L.Core, stale: set<string>, name: string, table: PF.Table, writable: bool)
    requires InStep(c, stale) && table.Valid()
    requires L.Create(c, name, table, writable).1 == L.Fine && IsBareKey(name) && CleanTable(table)
    ensures InStep(L.Create(c, name, table, writable).0, stale - {name})
  {
    hide *;
    var p := CreateIs(c, name, table, writable);
    var doc, loaded := InStepDoc(c, stale);
    AppendKept(c.file, name, table);
    PutInStep(c, stale, name, table.values, p, PF.AppendText(c.file, name, table).value);
  }

  lemma UpdateIs(c: L.Core, name: string, table: PF.Table, writable: bool)
    returns (p: Profile)
    requires table.Valid() && L.Update(c, name, table, writable).1 == L.Fine
    ensures LoadProfile(name, table.values, c.common.image) == Some(p) && SlotCtxSize(p).Some?
    ensures name in c.profiles && PF.OverwriteText(c.file, name, table).Ok?
    ensures L.Update(c, name, table, writable).0
         == c.(file := PF.OverwriteText(c.file, name, table).value, profiles := c.profiles[name := p])
  {
    hide PF.OverwriteText, LoadProfile;
    p := BuildProfile(name, table.values, c.common.image).value;
  }

  lemma UpdateInStep(c: L.Core, stale: set<string>, name: string, table: PF.Table, writable: bool)
    requires InStep(c, stale) && table.Valid()
    requires L.Update(c, name, table, writable).1 == L.Fine && WritableTable(table) && Untorn(c.file, name)
    ensures InStep(L.Update(c, name, table, writable).0, stale - {name})
  {
    hide *;
    var p := UpdateIs(c, name, table, writable);
    var doc, loaded := InStepDoc(c, stale);
    OverwriteKept(c.file, name, table);
    KeptIs(PF.OverwriteText(c.file, name, table).value);
    PutInStep(c, stale, name, table.values, p, PF.OverwriteText(c.file, name, table).value);
  }

  lemma DeleteIs(c: L.Core, name: string, writable: bool)
    requires L.Delete(c, name, writable).1 == L.Fine
    ensures name in c.profiles && PF.RemoveText(c.file, name).Ok?
    ensures L.Delete(c, name, writable).0 == c.(file := PF.RemoveText(c.file, name).value, profiles := c.profiles - {name})
  {
    hide PF.RemoveText;
  }

  lemma AgreeDrop(loaded: map<string, Profile>, held: map<string, Profile>, stale: set<string>, name: string)
    requires Agree(loaded, held, stale)
    ensures Agree(loaded - {name}, held - {name}, stale - {name})
  {
  }

  lemma DeleteInStep(c: L.Core, stale: set<string>, name: string, writable: bool)
    requires InStep(c, stale) && L.Delete(c, name, writable).1 == L.Fine && Untorn(c.file, name)
    ensures InStep(L.Delete(c, name, writable).0, stale - {name})
  {
    hide *;
    DeleteIs(c, name, writable);
    var doc, loaded := InStepDoc(c, stale);
    RemoveKept(c.file, name);
    KeptIs(PF.RemoveText(c.file, name).value);
    LoadDrop(doc, name);
    AgreeDrop(loaded, c.profiles, stale, name);
    InStepFrom(L.Delete(c, name, writable).0, stale - {name}, doc - {PF.Profile(name)}, loaded - {name});
  }

  // ---------------------------------------------------------------- measured peaks

  /** A reading above the known peak. */
  predicate Grows(c: L.Core, name: string, used: Option<int>) {
    used.Some? && name in c.profiles
    && used.value > if c.profiles[name].peakBytes.Some? then c.profiles[name].peakBytes.value else 0
  }

  lemma RecordIs(c: L.Core, name: string, used: Option<int>, at: string, first: bool, second: bool)
    ensures var c' := L.RecordPeak(c, name, used, at, first, second).0;
      if Grows(c, name, used) then
        c' == c.(profiles := c.profiles[name := c.profiles[name].(peakBytes := used, peakAt := Some(at))],
                 file := L.WritePeak(c.file, name, used.value, at, first, second))
      else c' == c
  {
    hide L.WritePeak;
  }

  lemma IntIsWritable(i: int)
    ensures Writable(Scalar(Int(i)))
  {
    ExactEdits.IntHasNoBreaks(i);
    hide NoBreaks;
  }

  lemma PeakKeysAreBare()
    ensures IsBareKey(L.PEAK_BYTES) && IsBareKey(L.PEAK_AT)
  {
  }

  /** A kept file and what a restarted server loads from it. */
  ghost predicate Holds(text: string, common: Common, loaded: map<string, Profile>) {
    WellKept(text) && Load(text) == Some((common, loaded))
  }

  lemma SetHolds(text: string, common: Common, loaded: map<string, Profile>, name: string, key: string, v: Value, p: Profile)
    requires Kept(text) && Load(text) == Some((common, loaded)) && Settable(text, name, key)
    requires name in loaded && IsBareKey(key) && Writable(v)
    requires forall table: map<string, Value> | LoadProfile(name, table, common.image) == Some(loaded[name]) ::
      LoadProfile(name, table[key := v], common.image) == Some(p)
    ensures PF.SetText(text, name, key, v).Ok? && Holds(PF.SetText(text, name, key, v).value, common, loaded[name := p])
  {
    assert PF.Read(text).Some? && LoadDoc(PF.Read(text).value) == Some((common, loaded));
    var text' := PF.SetText(text, name, key, v);
    var doc, s := PF.Read(text).value, PF.Profile(name);
    hide *;
    LoadedKeys(doc);
    SetKept(text, name, key, v);
    LoadPut(doc, name, doc[s][key := v], p);
    LoadIs(text'.value, doc[s := doc[s][key := v]], common, loaded[name := p]);
  }

  lemma HoldsIs(text: string, common: Common, loaded: map<string, Profile>, name: string, key: string)
    requires Holds(text, common, loaded)
    ensures Kept(text) && Load(text) == Some((common, loaded)) && Settable(text, name, key)
  {
    hide Load, PF.Read, OnlyNewlines, OwnBreaks, RowsOf, LooseKept, Editable;
  }

  lemma LoadIs(text: string, doc: PF.Doc, common: Common, loaded: map<string, Profile>)
    requires WellKept(text) && PF.Read(text) == Some(doc) && LoadDoc(doc) == Some((common, loaded))
    ensures Holds(text, common, loaded)
  {
    hide PF.Read, LoadDoc, WellKept;
  }

  lemma BytesHold(text: string, common: Common, loaded: map<string, Profile>, name: string, bytes: int)
    requires Kept(text) && Load(text) == Some((common, loaded)) && Settable(text, name, L.PEAK_BYTES) && name in loaded
    ensures PF.SetText(text, name, L.PEAK_BYTES, Scalar(Int(bytes))).Ok?
    ensures Holds(PF.SetText(text, name, L.PEAK_BYTES, Scalar(Int(bytes))).value, common,
                  loaded[name := loaded[name].(peakBytes := Some(bytes))])
  {
    hide *;
    PeakKeysAreBare();
    IntIsWritable(bytes);
    forall table: map<string, Value> | LoadProfile(name, table, common.image) == Some(loaded[name])
      ensures LoadProfile(name, table[L.PEAK_BYTES := Scalar(Int(bytes))], common.image)
           == Some(loaded[name].(peakBytes := Some(bytes)))
    {
      LoadPeakBytes(name, table, common.image, bytes);
    }
    SetHolds(text, common, loaded, name, L.PEAK_BYTES, Scalar(Int(bytes)), loaded[name].(peakBytes := Some(bytes)));
  }

  lemma AtHolds(text: string, common: Common, loaded: map<string, Profile>, name: string, at: string)
    requires Holds(text, common, loaded) && name in loaded && Writable(Scalar(Str(at)))
    ensures PF.SetText(text, name, L.PEAK_AT, Scalar(Str(at))).Ok?
    ensures Holds(PF.SetText(text, name, L.PEAK_AT, Scalar(Str(at))).value, common,
                  loaded[name := loaded[name].(peakAt := Some(at))])
  {
    hide *;
    HoldsIs(text, common, loaded, name, L.PEAK_AT);
    PeakKeysAreBare();
    forall table: map<string, Value> | LoadProfile(name, table, common.image) == Some(loaded[name])
      ensures LoadProfile(name, table[L.PEAK_AT := Scalar(Str(at))], common.image)
           == Some(loaded[name].(peakAt := Some(at)))
    {
      LoadPeakAt(name, table, common.image, at);
    }
    SetHolds(text, common, loaded, name, L.PEAK_AT, Scalar(Str(at)), loaded[name].(peakAt := Some(at)));
  }

  /** What a recording that reaches the file leaves there: both measured values, or the first only. */
  lemma PeakHolds(text: string, common: Common, loaded: map<string, Profile>, name: string, peak: int, at: string, second: bool)
    requires Kept(text) && Load(text) == Some((common, loaded)) && Settable(text, name, L.PEAK_BYTES)
    requires name in loaded && (second ==> Writable(Scalar(Str(at))))
    ensures var p := loaded[name];
      Holds(L.WritePeak(text, name, peak, at, true, second), common,
            loaded[name := p.(peakBytes := Some(peak), peakAt := if second then Some(at) else p.peakAt)])
  {
    hide Holds, PF.SetText, Writable, Kept, Load, Settable;
    BytesHold(text, common, loaded, name, peak);
    var p := loaded[name].(peakBytes := Some(peak));
    var text1 := PF.SetText(text, name, L.PEAK_BYTES, Scalar(Int(peak))).value;
    if second {
      AtHolds(text1, common, loaded[name := p], name, at);
      assert loaded[name := p][name := p.(peakAt := Some(at))] == loaded[name := p.(peakAt := Some(at))];
    }
  }

  lemma AgreeGrow(loaded: map<string, Profile>, held: map<string, Profile>, stale: set<string>, name: string,
                  peak: int, at: string, first: bool, second: bool)
    requires Agree(loaded, held, stale) && name in held
    ensures name in loaded
    ensures var p := loaded[name];
      Agree(if !first then loaded
            else loaded[name := p.(peakBytes := Some(peak), peakAt := if second then Some(at) else p.peakAt)],
            held[name := held[name].(peakBytes := Some(peak), peakAt := Some(at))],
            if first && second then stale - {name} else stale + {name})
  {
    assert name in loaded.Keys;
  }

  lemma NotWritten(text: string, name: string, peak: int, at: string, second: bool)
    ensures L.WritePeak(text, name, peak, at, false, second) == text
  {
    IntIsWritable(peak);
    hide PF.SetText;
  }

  /** A recording that writes cuts nothing but the row of the peak. */
  lemma RecordInStep(c: L.Core, stale: set<string>, name: string, used: Option<int>, at: string, first: bool, second: bool)
    requires InStep(c, stale)
    requires Grows(c, name, used) && first ==> Settable(c.file, name, L.PEAK_BYTES) && (second ==> Writable(Scalar(Str(at))))
    ensures InStep(L.RecordPeak(c, name, used, at, first, second).0,
                   if !Grows(c, name, used) then stale else if first && second then stale - {name} else stale + {name})
  {
    hide L.RecordPeak, L.WritePeak, Writable, WellKept, Kept, Load, Agree, Settable;
    RecordIs(c, name, used, at, first, second);
    if Grows(c, name, used) {
      var loaded := Load(c.file).value.1;
      AgreeGrow(loaded, c.profiles, stale, name, used.value, at, first, second);
      if first {
        PeakHolds(c.file, c.common, loaded, name, used.value, at, second);
        KeptIs(L.WritePeak(c.file, name, used.value, at, first, second));
      } else {
        NotWritten(c.file, name, used.value, at, second);
      }
    }
  }

  // ---------------------------------------------------------------- every run

  /**
   * Created tables read back as they were written, updated ones also after being
   * split, and no write but an append meets a break it does not replace.
   */
  ghost predicate Tidy(s: M.System, step: M.Step) {
    match step
    case Create(name, table, _) => M.Reply(s, step) == L.Fine ==> IsBareKey(name) && CleanTable(table)
    case Update(name, table, _) => M.Reply(s, step) == L.Fine ==> WritableTable(table) && Untorn(s.core.file, name)
    case Delete(name, _) => M.Reply(s, step) == L.Fine ==> Untorn(s.core.file, name)
    case RecordPeak(name, used, at, first, second) =>
      Grows(s.core, name, used) && first ==> Settable(s.core.file, name, L.PEAK_BYTES) && (second ==> Writable(Scalar(Str(at))))
    case _ => true
  }

  /** The profiles whose last recorded peak did not reach the file. */
  function Stale(s: M.System, stale: set<string>, step: M.Step): set<string> {
    match step
    case Create(name, _, _) => if M.Reply(s, step) == L.Fine then stale - {name} else stale
    case Update(name, _, _) => if M.Reply(s, step) == L.Fine then stale - {name} else stale
    case Delete(name, _) => if M.Reply(s, step) == L.Fine then stale - {name} else stale
    case RecordPeak(name, used, _, first, second) =>
      if !Grows(s.core, name, used) then stale else if first && second then stale - {name} else stale + {name}
    case _ => stale
  }

  predicate SameStore(c: L.Core, d: L.Core) {
    d.common == c.common && d.profiles == c.profiles && d.file == c.file
  }

  lemma StopFrame(c: L.Core, inspectOk: bool, outcome: L.StopOutcome, now: int)
    ensures SameStore(c, L.Stop(c, inspectOk, outcome, now).0)
  {
    hide L.AfterStop;
  }

  lemma StartFrame(c: L.Core, name: string, inspectOk: bool, run: L.RunOutcome, now: int)
    ensures SameStore(c, L.Start(c, name, inspectOk, run, now).0)
  {
    hide L.LaunchArgs;
  }

  lemma ReloadFrame(c: L.Core, name: string, inspectOk: bool, outcome: L.StopOutcome, startInspectOk: bool, run: L.RunOutcome, now: int)
    ensures SameStore(c, L.Reload(c, name, inspectOk, outcome, startInspectOk, run, now).0)
  {
    hide L.Start, L.Stop;
    StopFrame(c, inspectOk, outcome, now);
    StartFrame(L.Stop(c, inspectOk, outcome, now).0, name, startInspectOk, run, now);
  }

  lemma ReconcileFrame(c: L.Core, inspectOk: bool, now: int)
    ensures SameStore(c, L.Reconcile(c, inspectOk, now).0)
  {
    hide L.Inspect, L.ProfileOfContainer;
  }

  predicate Edits(step: M.Step) {
    step.Create? || step.Update? || step.Delete? || step.RecordPeak?
  }

  /** No other step touches the profiles or the file. */
  lemma StoreFrame(s: M.System, step: M.Step)
    requires !Edits(step)
    ensures SameStore(s.core, M.Next(s, step).core)
  {
    hide L.Start, L.Stop, L.Reload, L.Reconcile, SameStore;
    var c := s.core;
    match step {
      case Start(name, inspectOk, run, now) => StartFrame(c, name, inspectOk, run, now);
      case Stop(inspectOk, outcome, now) => StopFrame(c, inspectOk, outcome, now);
      case Reload(name, inspectOk, outcome, startInspectOk, run, now) =>
        ReloadFrame(c, name, inspectOk, outcome, startInspectOk, run, now);
      case Reconcile(inspectOk, now) => ReconcileFrame(c, inspectOk, now);
      case Resume(inspectOk, now) => ReconcileFrame(c, inspectOk, now); if s.preSuspend.None? { StatusOnly(s, step); }
      case _ => StatusOnly(s, step);
    }
  }

  lemma StatusOnly(s: M.System, step: M.Step)
    requires step.ContainerEvent? || step.Poll? || step.Suspend? || step.Die? || (step.Resume? && s.preSuspend.None?)
    ensures SameStore(s.core, M.Next(s, step).core)
  {
    hide M.Died;
  }

  /** A refused call changes nothing at all. */
  lemma RefusedChangesNothing(s: M.System, step: M.Step)
    requires (step.Create? || step.Update? || step.Delete?) && M.Reply(s, step) != L.Fine
    ensures M.Next(s, step) == s
  {
    hide BuildProfile, PF.AppendText, PF.OverwriteText, PF.RemoveText;
  }

  lemma SameStoreInStep(c: L.Core, d: L.Core, stale: set<string>)
    requires InStep(c, stale) && SameStore(c, d)
    ensures InStep(d, stale)
  {
    hide Kept, Load, Agree;
  }

  /** Any step keeps memory and file in step. */
  lemma StepInStep(s: M.System, stale: set<string>, step: M.Step)
    requires Tidy(s, step) && InStep(s.core, stale)
    ensures InStep(M.Next(s, step).core, Stale(s, stale, step))
  {
    hide L.Create, L.Update, L.Delete, L.RecordPeak, InStep, CleanTable, IsBareKey, Untorn, Settable, WritableTable, Writable, Grows, SameStore;
    if !Edits(step) {
      StoreFrame(s, step);
      SameStoreInStep(s.core, M.Next(s, step).core, stale);
    } else {
      EditInStep(s, stale, step);
    }
  }

  lemma EditInStep(s: M.System, stale: set<string>, step: M.Step)
    requires Tidy(s, step) && InStep(s.core, stale) && Edits(step)
    ensures InStep(M.Next(s, step).core, Stale(s, stale, step))
  {
    hide L.Create, L.Update, L.Delete, L.RecordPeak, InStep, CleanTable, IsBareKey, Untorn, Settable, WritableTable, Writable, Grows;
    if !step.RecordPeak? && M.Reply(s, step) != L.Fine {
      RefusedChangesNothing(s, step);
    } else {
      match step {
        case Create(name, table, writable) => CreateInStep(s.core, stale, name, table, writable);
        case Update(name, table, writable) => UpdateInStep(s.core, stale, name, table, writable);
        case Delete(name, writable) => DeleteInStep(s.core, stale, name, writable);
        case RecordPeak(name, used, at, first, second) => RecordInStep(s.core, stale, name, used, at, first, second);
      }
    }
  }

  function StaleAfter(s: M.System, steps: seq<M.Step>): set<string>
    decreases |steps|
  {
    if steps == [] then {}
    else Stale(M.Run(s, steps[..|steps| - 1]), StaleAfter(s, steps[..|steps| - 1]), steps[|steps| - 1])
  }

  /**
   * After any run the file loads, with the same common section and the same
   * profiles as in memory; only a profile whose last peak could not be written
   * may differ, and only in its measured fields.
   */
  lemma {:induction false} StoreStaysInStep(s: M.System, steps: seq<M.Step>)
    requires Kept(s.core.file) && Load(s.core.file) == Some((s.core.common, s.core.profiles))
    requires M.Along(s, steps, Tidy)
    ensures InStep(M.Run(s, steps).core, StaleAfter(s, steps))
    decreases |steps|
  {
    hide Tidy, Stale, Load, Kept, M.Next;
    if steps == [] {
    } else {
      var before := steps[..|steps| - 1];
      StoreStaysInStep(s, before);
      StepInStep(M.Run(s, before), StaleAfter(s, before), steps[|steps| - 1]);
    }
  }

  predicate PeaksWritten(steps: seq<M.Step>) {
    forall i | 0 <= i < |steps| && steps[i].RecordPeak? :: steps[i].first && steps[i].second
  }

  lemma {:induction false} NothingStale(s: M.System, steps: seq<M.Step>)
    requires PeaksWritten(steps)
    ensures StaleAfter(s, steps) == {}
    decreases |steps|
  {
    hide M.Next, M.Reply;
    if steps != [] {
      NothingStale(s, steps[..|steps| - 1]);
    }
  }

  /** When no peak write failed, a restarted server loads exactly what the running one holds. */
  lemma RestartLoadsMemory(s: M.System, steps: seq<M.Step>)
    requires Kept(s.core.file) && Load(s.core.file) == Some((s.core.common, s.core.profiles))
    requires M.Along(s, steps, Tidy) && PeaksWritten(steps)
    ensures var c := M.Run(s, steps).core;
      Kept(c.file) && Load(c.file) == Some((c.common, c.profiles))
  {
    hide Kept, Load, M.Run;
    StoreStaysInStep(s, steps);
    NothingStale(s, steps);
    var c := M.Run(s, steps).core;
    var loaded := Load(c.file).value.1;
    assert forall n | n in c.profiles :: n in loaded.Keys && loaded[n] == c.profiles[n];
    assert forall n | n in loaded :: n in loaded.Keys;
    assert loaded == c.profiles;
  }

  // ---------------------------------------------------------------- when tables hold no breaks

  /** Accepted tables and recorded times are writable: nothing that any edit would cut. */
  ghost predicate Plain(s: M.System, step: M.Step) {
    match step
    case Create(name, table, _) => M.Reply(s, step) == L.Fine ==> IsBareKey(name) && WritableTable(table)
    case Update(name, table, _) => M.Reply(s, step) == L.Fine ==> WritableTable(table)
    case RecordPeak(_, _, at, _, _) => Writable(Scalar(Str(at)))
    case _ => true
  }

  lemma PlainIsTidy(s: M.System, step: M.Step)
    requires OnlyNewlines(s.core.file) && Plain(s, step)
    ensures Tidy(s, step)
  {
    hide IsBareKey, Writable, WritableTable, CleanTable, OnlyNewlines, Grows, M.Reply;
    if step.Create? && M.Reply(s, step) == L.Fine {
      WritableIsClean(step.table);
    }
  }

  lemma CreateStaysWell(c: L.Core, stale: set<string>, name: string, table: PF.Dict, writable: bool)
    requires InStep(c, stale) && OnlyNewlines(c.file) && L.Create(c, name, table, writable).1 == L.Fine
    requires IsBareKey(name) && WritableTable(table)
    ensures OnlyNewlines(L.Create(c, name, table, writable).0.file)
  {
    hide *;
    var p := CreateIs(c, name, table, writable);
    var doc, loaded := InStepDoc(c, stale);
    AppendRefines(c.file, name, table);
  }

  lemma UpdateStaysWell(c: L.Core, stale: set<string>, name: string, table: PF.Dict, writable: bool)
    requires InStep(c, stale) && OnlyNewlines(c.file) && L.Update(c, name, table, writable).1 == L.Fine && WritableTable(table)
    ensures OnlyNewlines(L.Update(c, name, table, writable).0.file)
  {
    hide *;
    var p := UpdateIs(c, name, table, writable);
    var doc, loaded := InStepDoc(c, stale);
    OverwriteRefines(c.file, name, table);
  }

  lemma DeleteStaysWell(c: L.Core, stale: set<string>, name: string, writable: bool)
    requires InStep(c, stale) && OnlyNewlines(c.file) && L.Delete(c, name, writable).1 == L.Fine
    ensures OnlyNewlines(L.Delete(c, name, writable).0.file)
  {
    hide *;
    DeleteIs(c, name, writable);
    var doc, loaded := InStepDoc(c, stale);
    RemoveRefines(c.file, name);
  }

  lemma RecordStaysWell(c: L.Core, stale: set<string>, name: string, used: Option<int>, at: string, first: bool, second: bool)
    requires InStep(c, stale) && OnlyNewlines(c.file) && Writable(Scalar(Str(at)))
    ensures OnlyNewlines(L.RecordPeak(c, name, used, at, first, second).0.file)
  {
    hide L.RecordPeak, L.WritePeak, Writable, Kept, Load, Agree, OnlyNewlines, Editable, PF.Read;
    RecordIs(c, name, used, at, first, second);
    if Grows(c, name, used) {
      var loaded := Load(c.file).value.1;
      AgreeGrow(loaded, c.profiles, stale, name, used.value, at, first, second);
      if first {
        PeakHolds(c.file, c.common, loaded, name, used.value, at, second);
      } else {
        NotWritten(c.file, name, used.value, at, second);
      }
    }
  }

  lemma StepStaysWell(s: M.System, stale: set<string>, step: M.Step)
    requires InStep(s.core, stale) && OnlyNewlines(s.core.file) && Plain(s, step)
    ensures OnlyNewlines(M.Next(s, step).core.file)
  {
    hide InStep, OnlyNewlines, IsBareKey, Writable, WritableTable, SameStore, M.Next, M.Reply, L.Create, L.Update, L.Delete, L.RecordPeak;
    if !Edits(step) {
      StoreFrame(s, step);
      SameFile(s.core, M.Next(s, step).core);
    } else if !step.RecordPeak? && M.Reply(s, step) != L.Fine {
      RefusedChangesNothing(s, step);
    } else {
      EditStep(s, step);
      match step {
        case Create(name, table, writable) => CreateStaysWell(s.core, stale, name, table, writable);
        case Update(name, table, writable) => UpdateStaysWell(s.core, stale, name, table, writable);
        case Delete(name, writable) => DeleteStaysWell(s.core, stale, name, writable);
        case RecordPeak(name, used, at, first, second) => RecordStaysWell(s.core, stale, name, used, at, first, second);
      }
    }
  }

  lemma SameFile(c: L.Core, d: L.Core)
    requires SameStore(c, d)
    ensures d.file == c.file
  {
  }

  /** On a well-formed file, calls with writable tables alone keep the file well-formed, and memory in step with it. */
  lemma {:induction false} PlainRunsStayInStep(s: M.System, steps: seq<M.Step>)
    requires WellKept(s.core.file) && Load(s.core.file) == Some((s.core.common, s.core.profiles))
    requires M.Along(s, steps, Plain)
    ensures WellKept(M.Run(s, steps).core.file) && InStep(M.Run(s, steps).core, StaleAfter(s, steps))
    decreases |steps|
  {
    hide Plain, Tidy, Stale, Load, Kept, M.Next, OnlyNewlines, PF.Read, Editable, SplitLines;
    if steps == [] {
      KeptIs(s.core.file);
    } else {
      var before, last := steps[..|steps| - 1], steps[|steps| - 1];
      PlainRunsStayInStep(s, before);
      var r := M.Run(s, before);
      PlainIsTidy(r, last);
      StepInStep(r, StaleAfter(s, before), last);
      StepStaysWell(r, StaleAfter(s, before), last);
      KeptIsWell(M.Run(s, steps).core.file);
    }
  }

  // ---------------------------------------------------------------- what is persisted is valid

  /** The slots of every profile divide its context. */
  predicate AllDivide(profiles: map<string, Profile>) {
    forall n | n in profiles :: SlotCtxSize(profiles[n]).Some?
  }

  lemma StepDivides(s: M.System, step: M.Step)
    requires AllDivide(s.core.profiles)
    ensures AllDivide(M.Next(s, step).core.profiles)
  {
    hide M.Next, M.Reply, SameStore, LoadProfile;
    if !Edits(step) {
      StoreFrame(s, step);
      SameProfiles(s.core, M.Next(s, step).core);
    } else if step.RecordPeak? {
      RecordIs(s.core, step.name, step.used, step.at, step.first, step.second);
      EditStep(s, step);
    } else if M.Reply(s, step) != L.Fine {
      RefusedChangesNothing(s, step);
    } else {
      EditStep(s, step);
      match step {
        case Create(name, table, writable) => var p := CreateIs(s.core, name, table, writable);
        case Update(name, table, writable) => var p := UpdateIs(s.core, name, table, writable);
        case Delete(name, writable) => DeleteIs(s.core, name, writable);
      }
    }
  }

  lemma SameProfiles(c: L.Core, d: L.Core)
    requires SameStore(c, d)
    ensures d.profiles == c.profiles
  {
  }

  lemma EditStep(s: M.System, step: M.Step)
    requires Edits(step)
    ensures (M.Next(s, step).core, M.Reply(s, step)) == match step
      case Create(name, table, writable) => L.Create(s.core, name, table, writable)
      case Update(name, table, writable) => L.Update(s.core, name, table, writable)
      case Delete(name, writable) => L.Delete(s.core, name, writable)
      case RecordPeak(name, used, at, first, second) => L.RecordPeak(s.core, name, used, at, first, second)
  {
    hide L.Create, L.Update, L.Delete, L.RecordPeak;
  }

  /** No call ever brings in a profile whose slots do not divide its context. */
  lemma {:induction false} SlotsAlwaysDivide(s: M.System, steps: seq<M.Step>)
    requires AllDivide(s.core.profiles)
    ensures AllDivide(M.Run(s, steps).core.profiles)
    decreases |steps|
  {
    hide M.Next, AllDivide;
    if steps == [] {
    } else {
      SlotsAlwaysDivide(s, steps[..|steps| - 1]);
      StepDivides(M.Run(s, steps[..|steps| - 1]), steps[|steps| - 1]);
    }
  }
}
