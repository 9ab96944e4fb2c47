/** Files from which a store can start: one for every table that the loader takes for a common section and that can be written. */
module StartingFile {
  import opened Wrappers
  import opened TomlValue
  import opened PyText
  import opened Config
  import opened FileReading
  import opened FileEdits
  import opened FileRefinement
  import opened KeptFiles
  import opened StoreSync
  import PF = ProfileFile
  import LineFacts

  const COMMON_KEYS := ["image", "models_dir", "container_name", "host_port"]

  function CommonValues(image: string, dir: string, container: string, port: int): map<string, Value> {
    map["image" := Scalar(Str(image)), "models_dir" := Scalar(Str(dir)), "container_name" := Scalar(Str(container)),
        "host_port" := Scalar(Int(port))]
  }

  lemma CommonKeysAreBare()
    ensures Distinct(COMMON_KEYS) && forall k | k in COMMON_KEYS :: IsBareKey(k) && k !in PF.TUNING_FIELDS
  {
    assert |COMMON_KEYS[0]| == 5 && |COMMON_KEYS[1]| == 10 && |COMMON_KEYS[2]| == 14 && |COMMON_KEYS[3]| == 9;
    assert IsBareKey("image") && IsBareKey("models_dir") && IsBareKey("container_name") && IsBareKey("host_port");
  }

  /** A header that is no profile's and stands alone on its line. */
  lemma BracketedMeans(h: string)
    requires h != [] && h[0] == '[' && h[|h| - 1] == ']' && PF.ClassifyHeader(h).HeaderLine?
    ensures PF.Classify(h) == PF.ClassifyHeader(h)
  {
    hide PF.ClassifyHeader, PF.ClassifyPair, TrimLeft, TrimRight;
    LineFacts.NothingToStrip(h);
  }

  lemma CommonHeaderMeans()
    ensures PF.Classify("[common]") == PF.HeaderLine(PF.Common) && NoBreaks("[common]") && EditableLine("[common]")
  {
    var h := "[common]";
    assert |h| == 8 && h[0] == '[' && h[7] == ']';
    assert PF.ClassifyHeader(h) == PF.HeaderLine(PF.Common);
    assert NoBreaks(h) by {
      hide PF.Classify;
    }
    hide PF.ClassifyHeader, PF.Classify, PF.DefinesKey, NoBreaks;
    BracketedMeans(h);
  }

  lemma {:induction false} NoSettings(fields: seq<string>, table: map<string, Value>)
    requires forall f | f in fields :: f !in table
    ensures ReadSettings(fields, table) == Some(map[])
  {
    if fields != [] {
      NoSettings(fields[1..], table);
    }
  }

  lemma CommonTexts(image: string, dir: string, container: string, port: int)
    ensures var values := CommonValues(image, dir, container, port);
      && TextIn(values, "image") == Some(image) && TextIn(values, "models_dir") == Some(dir)
      && TextIn(values, "container_name") == Some(container) && IntAt(values, "host_port") == Some(port)
      && TupleAt(values, "extra_args") == Some([])
  {
    assert |"image"| == 5 && |"models_dir"| == 10 && |"container_name"| == 14 && |"host_port"| == 9;
    assert |"extra_args"| == 10 && "extra_args"[0] == 'e' && "models_dir"[0] == 'm';
    hide IntOfText;
  }

  lemma CommonLoads(image: string, dir: string, container: string, port: int)
    ensures LoadCommon(CommonValues(image, dir, container, port)) == Some(Common(image, dir, container, port, map[], []))
  {
    var values := CommonValues(image, dir, container, port);
    CommonTexts(image, dir, container, port);
    CommonKeysAreBare();
    assert forall k | k in values :: k in COMMON_KEYS;
    hide TextIn, IntAt, TupleAt, IsBareKey, PF.TUNING_FIELDS, ReadSettings, CommonValues;
    NoSettings(PF.TUNING_FIELDS, values);
  }

  lemma OnlyCommonLoads(values: map<string, Value>, common: Common)
    requires LoadCommon(values) == Some(common)
    ensures LoadDoc(map[PF.Common := values]) == Some((common, map[]))
  {
    hide LoadCommon, LoadProfile;
    LoadedIs(map[PF.Common := values], common, map[]);
  }

  /** Written pairs under the common header are that section. */
  lemma CommonReads(keys: seq<string>, values: map<string, Value>)
    returns (lines: seq<string>)
    requires Distinct(keys) && (forall k | k in keys :: k in values && IsBareKey(k) && Writable(values[k])) && forall k | k in values :: k in keys
    ensures AllNoBreaks(lines) && Editable(lines)
    ensures PF.DocOf(PF.ReadLines(PF.START, lines)) == Some(map[PF.Common := values])
  {
    assert forall k | k in keys :: Clean(values[k]);
    assert map[] + Restrict(values, keys) == values;
    hide PF.ReadLines, PF.PairLines, Writable, Clean, IsBareKey, PF.Classify, NoBreaks, EditableLine, Restrict, PF.IsHeaderLike;
    CommonHeaderMeans();
    HeaderRead(PF.START, "[common]", PF.Common);
    var empty: PF.Doc := map[];
    PairLinesRead(empty, PF.Common, map[], keys, values);
    PairLinesGood(keys, values);
    var pairs := PF.PairLines(keys, values).value;
    BlockGood("[common]", pairs);
    lines := ["[common]"] + pairs;
    ReadConcat(PF.START, ["[common]"], pairs);
    assert empty[PF.Common := values] == map[PF.Common := values];
  }

  /**
   * For every writable table that loads as a common section, tuning fields and
   * extra arguments included, there is a well-kept file that loads to it, without profiles.
   */
  lemma StoreCanStart(table: PF.Dict)
    returns (text: string)
    requires WritableTable(table) && LoadCommon(table.values).Some?
    ensures WellKept(text) && Load(text) == Some((LoadCommon(table.values).value, map[]))
  {
    hide Writable, Load, LoadDoc, LoadCommon, PF.Read, OnlyNewlines, Editable, SplitLines, Terminated, AllNoBreaks, PF.ReadLines, IsBareKey;
    var common := LoadCommon(table.values).value;
    var lines := CommonReads(table.keys, table.values);
    WholeLines(lines);
    text := Terminated(lines);
    OnlyCommonLoads(table.values, common);
    LoadIs(text, map[PF.Common := table.values], common, map[]);
    Held(text, common, map[]);
  }

  /** There are such tables: every image, directory, container name and port that can be written. */
  lemma CommonTableExists(image: string, dir: string, container: string, port: int)
    returns (table: PF.Dict)
    requires Writable(Scalar(Str(image))) && Writable(Scalar(Str(dir))) && Writable(Scalar(Str(container)))
    ensures WritableTable(table) && LoadCommon(table.values) == Some(Common(image, dir, container, port, map[], []))
  {
    IntIsWritable(port);
    hide Writable, IsBareKey, LoadCommon;
    CommonKeysAreBare();
    CommonValuesWritable(image, dir, container, port);
    CommonLoads(image, dir, container, port);
    table := PF.Table(COMMON_KEYS, CommonValues(image, dir, container, port));
  }

  lemma CommonValuesWritable(image: string, dir: string, container: string, port: int)
    requires Writable(Scalar(Str(image))) && Writable(Scalar(Str(dir))) && Writable(Scalar(Str(container))) && Writable(Scalar(Int(port)))
    ensures var values := CommonValues(image, dir, container, port);
      (forall k | k in COMMON_KEYS :: k in values && Writable(values[k])) && forall k | k in values :: k in COMMON_KEYS
  {
    hide Writable;
  }

  lemma Held(text: string, common: Common, loaded: map<string, Profile>)
    requires Holds(text, common, loaded)
    ensures WellKept(text) && Load(text) == Some((common, loaded))
  {
    hide WellKept, Load;
  }
}
