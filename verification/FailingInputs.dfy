/** Inputs on which the editor does not do what it should: one for each condition of the exact theorems. */
module FailingInputs {
  import opened Wrappers
  import opened PyText
  import opened TomlValue
  import opened TomlRoundTrip
  import opened ProfileFile
  import opened LineFacts
  import opened FileReading
  import opened FileEdits
  import opened FileRefinement
  import opened FileAlgebra
  import opened SetRefinement
  import opened ExactEdits
  import Config
  import StartingFile

  // ---------------------------------------------------------------- a tab before the sign

  const TAB_LINE := "k\t= 1"
  const TAB_TEXT := "[profiles.a]\nk\t= 1\n"

  lemma TabPairParses()
    ensures ParsePair(TAB_LINE) == Some(("k", Scalar(Int(1)), ""))
  {
    var s := TAB_LINE;
    assert s == "k" + "\t= 1" && IsBareChar('k') && !IsBareChar('\t');
    RunOver("k", "\t= 1", IsBareChar);
    assert s[1..] == "\t= 1" && "\t= 1"[1..] == "= 1" && SkipBlanks("= 1") == "= 1";
    assert "= 1"[1..] == " 1" && " 1"[1..] == "1" && SkipBlanks("1") == "1";
    assert ParseValue("1") == Some((Scalar(Int(1)), "")) by {
      IntBack(1, "");
      assert PrintInt(1) == "1" && "1" + "" == "1";
    }
    hide ParseValue, Run;
  }

  lemma TabLineReads()
    ensures Classify(TAB_LINE) == PairLine("k", Scalar(Int(1))) && LStrip(TAB_LINE) == TAB_LINE
  {
    TabPairParses();
    assert TAB_LINE[0] == 'k' && IsBareChar('k');
    hide ParsePair, Classify, LStrip, IsBareChar;
    BareStart(TAB_LINE);
    assert EndsPair("");
  }

  lemma TabLineMeans()
    ensures Classify(TAB_LINE) == PairLine("k", Scalar(Int(1))) && !DefinesKey(TAB_LINE, "k")
    ensures !IsHeaderLike(TAB_LINE) && NoBreaks(TAB_LINE)
  {
    hide Classify, LStrip, IsHeaderLike, Strip, NoBreaks;
    TabLineReads();
    TabLineIsWhole();
    EditorAgrees(TAB_LINE, "");
    assert TAB_LINE[1] == '\t' && ("k" + " ")[1] == ' ' && ("k" + "=")[1] == '=';
    NoPrefix("k" + " ", TAB_LINE, 1);
    NoPrefix("k" + "=", TAB_LINE, 1);
  }

  lemma TabLineIsWhole()
    ensures NoBreaks(TAB_LINE)
  {
  }

  lemma NoPrefix(p: string, s: string, i: nat)
    requires i < |p| && i < |s| && p[i] != s[i]
    ensures !(p <= s)
  {
  }

  lemma TabHeader()
    ensures Classify("[profiles.a]") == HeaderLine(Section.Profile("a")) && Strip("[profiles.a]") == Header("a") && NoBreaks("[profiles.a]")
  {
    assert Header("a") == "[profiles.a]" && IsBareKey("a");
    hide Classify, Strip, Header, IsBareKey;
    HeaderMeans("a");
    HeaderGood("a");
  }

  lemma TabText()
    ensures Terminated(["[profiles.a]", TAB_LINE]) == TAB_TEXT && IsBareKey("k")
  {
    var lines := ["[profiles.a]", TAB_LINE];
    assert Terminated([TAB_LINE]) == TAB_LINE + "\n" + Terminated([]);
    assert Terminated(lines) == lines[0] + "\n" + Terminated(lines[1..]) && lines[1..] == [TAB_LINE];
  }

  /** A readable file in which a set adds the key a second time, and is unreadable afterwards. */
  lemma TabBeforeSign(v: Value)
    requires Clean(v)
    ensures OnlyNewlines(TAB_TEXT) && Read(TAB_TEXT) == Some(map[Section.Profile("a") := map["k" := Scalar(Int(1))]])
    ensures BlockSpan(SplitLines(TAB_TEXT), "a") == Some((0, 2)) && HiddenPair(SplitLines(TAB_TEXT), 0, 2, "k")
    ensures SetText(TAB_TEXT, "a", "k", v).Ok? && Read(SetText(TAB_TEXT, "a", "k", v).value) == None
  {
    var lines := ["[profiles.a]", TAB_LINE];
    hide Classify, Strip, Header, IsBareKey, Clean, Terminated, SplitLines, OnlyNewlines, Read, SetText, IsHeaderLike, DefinesKey, NoBreaks,
         BlockSpan, ReadLines, Find, TAB_TEXT, TAB_LINE;
    TabText();
    TabHeader();
    TabLineMeans();
    WholeLines(lines);
    TabReads();
    SpanIs(lines, "a", 0, 2);
    assert lines[1] == TAB_LINE && HiddenPair(lines, 0, 2, "k");
    SetClean(TAB_TEXT, "a", "k", v);
  }

  lemma TabReads()
    ensures ReadLines(START, ["[profiles.a]", TAB_LINE])
         == Reading(map[Section.Profile("a") := map["k" := Scalar(Int(1))]], Some(Section.Profile("a")))
  {
    hide Classify;
    TabHeader();
    TabLineMeans();
    var s := Section.Profile("a");
    HeaderRead(START, "[profiles.a]", s);
    var empty: Doc := map[];
    ReadPairLine(empty, s, map[], TAB_LINE);
    hide ReadLine, ReadLines;
    ReadConcat(START, ["[profiles.a]"], [TAB_LINE]);
    ReadOne(Reading(empty[s := map[]], Some(s)), TAB_LINE);
    assert ["[profiles.a]"] + [TAB_LINE] == ["[profiles.a]", TAB_LINE];
    assert empty[s := map["k" := Scalar(Int(1))]] == map[s := map["k" := Scalar(Int(1))]];
  }

  // ---------------------------------------------------------------- a line separator in a value

  const TORN_KEYS := ["model", "ctx_size", "kv_cache_type_k", "kv_cache_type_v", "parallel", "batch_size"]

  const TORN_VALUES: map<string, Value> :=
    map["model" := Scalar(Str("\U{2028}")), "ctx_size" := Scalar(Int(1)), "kv_cache_type_k" := Scalar(Str("f16")),
        "kv_cache_type_v" := Scalar(Str("f16")), "parallel" := Scalar(Int(1)), "batch_size" := Scalar(Int(1))]

  const TORN: Dict := Table(TORN_KEYS, TORN_VALUES)

  lemma TornKeysApart()
    ensures Distinct(TORN_KEYS)
  {
    assert |TORN_KEYS[0]| == 5 && |TORN_KEYS[1]| == 8 && |TORN_KEYS[2]| == 15 && |TORN_KEYS[3]| == 15
        && |TORN_KEYS[4]| == 8 && |TORN_KEYS[5]| == 10;
    assert TORN_KEYS[2][14] == 'k' && TORN_KEYS[3][14] == 'v' && TORN_KEYS[1][0] == 'c' && TORN_KEYS[4][0] == 'p';
  }

  lemma TornKeysAreBare()
    ensures forall k | k in TORN_KEYS :: IsBareKey(k)
  {
    assert IsBareKey("model") && IsBareKey("ctx_size") && IsBareKey("parallel") && IsBareKey("batch_size") && IsBareKey("kv_cache_type_k")
        && IsBareKey("kv_cache_type_v");
    hide IsBareKey;
  }

  lemma TornKeysAreKnown()
    ensures forall k | k in TORN_KEYS :: k in WRITE_ORDER
  {
    assert WRITE_ORDER[0] == TORN_KEYS[0] && WRITE_ORDER[2] == TORN_KEYS[1] && WRITE_ORDER[3] == TORN_KEYS[2];
    assert WRITE_ORDER[4] == TORN_KEYS[3] && WRITE_ORDER[5] == TORN_KEYS[4] && WRITE_ORDER[6] == TORN_KEYS[5];
  }

  /** A shape that tells the table's keys from all others. */
  predicate TornLike(k: string) {
    (|k| == 5 && k[0] == 'm') || |k| == 8 || |k| == 15 || (|k| == 10 && k[0] == 'b')
  }

  lemma TornKeysAreLike()
    ensures forall k | k in TORN_KEYS :: TornLike(k)
  {
  }

  lemma TuningIsUnlike()
    ensures forall f | f in TUNING_FIELDS :: !TornLike(f)
  {
  }

  lemma TornTunesNothing()
    ensures forall f | f in TUNING_FIELDS :: f !in TORN_KEYS
  {
    hide TUNING_FIELDS, TORN_KEYS, TornLike;
    TornKeysAreLike();
    TuningIsUnlike();
  }

  lemma OthersAreUnlike()
    ensures !TornLike("image") && !TornLike("extra_args") && !TornLike("measured_vram_peak_bytes") && !TornLike("measured_vram_peak_at")
  {
  }

  lemma TornHasItsKeys()
    ensures forall k :: k in TORN_VALUES <==> k in TORN_KEYS
  {
  }

  lemma SeparatorIsTorn()
    ensures Clean(Scalar(Str("\U{2028}"))) && !Writable(Scalar(Str("\U{2028}")))
  {
    var s := "\U{2028}";
    assert IsPlain(s[0]) && IsBreak(s[0]);
    assert Escape(s) == [s[0]] + Escape(s[1..]) == s;
    assert PrintString(s)[1] == s[0];
    hide Escape;
  }

  lemma TornIsClean()
    ensures TORN.Valid() && forall k | k in TORN_VALUES :: Clean(TORN_VALUES[k])
  {
    SeparatorIsTorn();
    TornKeysApart();
    TornHasItsKeys();
    assert PlainText("f16");
    hide PlainText, Writable;
  }

  lemma TornBase()
    ensures Config.AtomAt(TORN_VALUES, "model").Some? && Config.AtomAt(TORN_VALUES, "kv_cache_type_k").Some?
    ensures Config.AtomAt(TORN_VALUES, "kv_cache_type_v").Some? && Config.IntAt(TORN_VALUES, "ctx_size") == Some(1)
    ensures Config.IntAt(TORN_VALUES, "parallel") == Some(1) && Config.IntAt(TORN_VALUES, "batch_size") == Some(1)
  {
    assert |TORN_KEYS[0]| == 5 && |TORN_KEYS[1]| == 8 && |TORN_KEYS[2]| == 15 && |TORN_KEYS[3]| == 15
        && |TORN_KEYS[4]| == 8 && |TORN_KEYS[5]| == 10;
    assert TORN_KEYS[2][14] == 'k' && TORN_KEYS[3][14] == 'v' && TORN_KEYS[1][0] == 'c' && TORN_KEYS[4][0] == 'p';
    hide Config.IntOfText;
  }

  lemma TornLacksOthers()
    ensures "image" !in TORN_VALUES && "extra_args" !in TORN_VALUES && "measured_vram_peak_bytes" !in TORN_VALUES
    ensures "measured_vram_peak_at" !in TORN_VALUES
  {
    hide TORN_KEYS, TORN_VALUES, TornLike;
    TornHasItsKeys();
    TornKeysAreLike();
    OthersAreUnlike();
  }

  lemma TornSettings(name: string, image: string)
    ensures Config.LoadSettings(name, TORN_VALUES, image).Some?
    ensures var p := Config.LoadSettings(name, TORN_VALUES, image).value; p.parallel == 1 && p.ctxSize == 1
  {
    TornBase();
    TornLacksOthers();
    TornTunesNothing();
    TornHasItsKeys();
    hide Config.AtomAt, Config.IntAt, TUNING_FIELDS, TORN_VALUES, TORN_KEYS, Config.ReadSettings;
    StartingFile.NoSettings(TUNING_FIELDS, TORN_VALUES);
  }

  lemma TornIsKnown()
    ensures Config.HasKnownKeys(TORN_VALUES)
  {
    TornHasItsKeys();
    TornKeysAreKnown();
    hide WRITE_ORDER;
    assert forall k | k in Config.REQUIRED_KEYS :: k in TORN_KEYS by {
      assert TORN_KEYS == ["model", "ctx_size", "kv_cache_type_k", "kv_cache_type_v", "parallel", "batch_size"];
    }
  }

  lemma TornLoads(name: string, image: string)
    ensures Config.BuildProfile(name, TORN_VALUES, image).Some?
  {
    hide Config.LoadSettings, Config.HasKnownKeys, TORN_VALUES, TORN_KEYS;
    TornIsKnown();
    TornSettings(name, image);
    TornLacksOthers();
  }

  lemma TornModel()
    ensures "model" in TORN_VALUES && TORN_VALUES["model"] == Scalar(Str("\U{2028}"))
  {
    assert |TORN_KEYS[0]| == 5 && |TORN_KEYS[1]| == 8 && |TORN_KEYS[2]| == 15 && |TORN_KEYS[3]| == 15
        && |TORN_KEYS[4]| == 8 && |TORN_KEYS[5]| == 10;
  }

  /** A complete, valid profile that reads back as it is written, and does not survive being split. */
  lemma SeparatorInValue(name: string, image: string)
    ensures CleanTable(TORN) && !WritableTable(TORN) && Config.BuildProfile(name, TORN.values, image).Some?
  {
    hide Clean, Writable, IsBareKey, Config.BuildProfile, TORN_VALUES, TORN_KEYS;
    SeparatorIsTorn();
    TornKeysAreBare();
    TornHasItsKeys();
    TornIsClean();
    TornModel();
    TornLoads(name, image);
  }

  /** Added to any well-formed file, it reads back; put in the place of a profile, it makes the file unreadable. */
  lemma SeparatorLosesFile(text: string, name: string)
    requires OnlyNewlines(text) && Read(text).Some? && IsBareKey(name)
    ensures Section.Profile(name) !in Read(text).value ==>
      AppendText(text, name, TORN).Ok?
      && Read(AppendText(text, name, TORN).value) == Some(Read(text).value[Section.Profile(name) := TORN.values])
    ensures Section.Profile(name) in Read(text).value ==>
      OverwriteText(text, name, TORN).Ok? && Read(OverwriteText(text, name, TORN).value) == None
  {
    SeparatorInValue(name, "");
    hide *;
    if Section.Profile(name) in Read(text).value {
      OverwriteClean(text, name, TORN);
    } else {
      NoBlockStands(text, name);
      AppendClean(text, name, TORN);
    }
  }

  // ---------------------------------------------------------------- a name that is no bare key

  lemma SamePairs(name: string, table: Table)
    requires CleanTable(table)
    ensures table.Valid() && FormatLines(name, table).Some? && FormatLines("a", table).Some? && IsBareKey("a")
    ensures FormatLines("a", table).value != [] && FormatLines(name, table).value == [Header(name)] + FormatLines("a", table).value[1..]
    ensures OneRowEach(FormatLines("a", table).value)
  {
    assert IsBareKey("a");
    hide IsBareKey, Clean, Header, Ordered, PairLines, OneRowEach, CutsAreBad;
    CleanBlock("a", table);
    BlockRows("a", table);
  }

  lemma HeaderRow(name: string)
    requires '\n' !in name
    ensures '\n' !in Header(name)
  {
  }

  /** Under any name that is no bare key, and of one line, an append leaves a file that cannot be read. */
  lemma OddNameLosesFile(text: string, name: string, table: Table)
    requires OnlyNewlines(text) && BlockSpan(SplitLines(text), name).None?
    requires !IsBareKey(name) && '\n' !in name && CleanTable(table)
    ensures AppendText(text, name, table).Ok? && Read(AppendText(text, name, table).value) == None
  {
    hide OnlyNewlines, BlockSpan, SplitLines, IsBareKey, CleanTable, FormatLines, Header, Classify, Front, Terminated, AppendText, ReadLines,
         Rows, NoBreaks;
    SamePairs(name, table);
    HeaderRow(name);
    AppendShape(text, name, table);
    FrontGood(text);
    var front, block := Front(text), FormatLines(name, table).value;
    WholeLinesAreRows(front);
    var rows := front + block;
    forall i | 0 <= i < |rows|
      ensures '\n' !in rows[i]
    {
      if i > |front| {
        assert rows[i] == block[i - |front|] == FormatLines("a", table).value[i - |front|];
      }
    }
    RowsOfLines(rows);
    HeaderMeans(name);
    assert (rows + [""])[|front|] == Header(name);
    BadLineUnreadable(rows + [""], |front|);
  }

  lemma BlankIsNotBare()
    ensures !IsBareKey("a b") && '\n' !in "a b"
  {
    assert "a b"[1] == ' ' && !IsBareChar(' ');
  }

  lemma NothingFound(name: string)
    ensures BlockSpan(SplitLines(""), name).None?
  {
    assert SplitLines("") == [];
  }

  /** A profile under a name with a blank in it is accepted, and the file cannot be read. */
  lemma BlankInName()
    ensures !IsBareKey("a b")
    ensures AppendText("", "a b", TORN).Ok? && Read(AppendText("", "a b", TORN).value) == None
  {
    hide BlockSpan, SplitLines, IsBareKey, CleanTable, WritableTable, Read, AppendText, TORN_VALUES, TORN_KEYS, TORN, OnlyNewlines,
         Config.BuildProfile;
    BlankIsNotBare();
    NothingFound("a b");
    EmptyFile();
    SeparatorInValue("a", "");
    OddNameLosesFile("", "a b", TORN);
  }
}
