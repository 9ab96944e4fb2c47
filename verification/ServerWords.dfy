/** What a launched command line tells podman and the server, read word by word. */
module ServerWords {
  import opened Wrappers
  import opened PyText
  import opened TomlValue
  import opened Config
  import opened ProfileTables
  import L = Lifecycle
  import LaunchFidelity

  // ---------------------------------------------------------------- reading the server's words

  const CONT_ON := "--cont-batching"
  const CONT_OFF := "--no-cont-batching"

  /** The options and switches that a server is given. */
  datatype Server = Server(options: map<string, string>, switches: set<string>)

  /** Every word but a switch is an option before its value; nothing may be given twice. */
  function ReadServer(words: seq<string>): Option<Server>
    decreases |words|
  {
    if words == [] then Some(Server(map[], {}))
    else if words[0] in {CONT_ON, CONT_OFF} then
      var rest :- ReadServer(words[1..]);
      if rest.switches != {} then None else Some(rest.(switches := {words[0]}))
    else if |words| == 1 then None
    else
      var rest :- ReadServer(words[2..]);
      if words[0] in rest.options then None else Some(rest.(options := rest.options[words[0] := words[1]]))
  }

  lemma OptionRead(flag: string, value: string, rest: seq<string>)
    requires flag !in {CONT_ON, CONT_OFF} && ReadServer(rest).Some? && flag !in ReadServer(rest).value.options
    ensures var r := ReadServer(rest).value;
      ReadServer([flag, value] + rest) == Some(r.(options := r.options[flag := value]))
  {
    assert ([flag, value] + rest)[2..] == rest;
  }

  lemma SwitchRead(flag: string, rest: seq<string>)
    requires flag in {CONT_ON, CONT_OFF} && ReadServer(rest).Some? && ReadServer(rest).value.switches == {}
    ensures ReadServer([flag] + rest) == Some(ReadServer(rest).value.(switches := {flag}))
  {
    assert ([flag] + rest)[1..] == rest;
  }

  // ---------------------------------------------------------------- tuning flags

  /** A field's flag: its name behind two dashes, with dashes for underscores. */
  function FlagOf(field: string): string {
    "--" + seq(|field|, i requires 0 <= i < |field| => if field[i] == '_' then '-' else field[i])
  }

  /** How a setting is written. */
  predicate Shown(setting: Setting, text: string) {
    match setting
    case Number(i) => text == PrintInt(i)
    case Switch(on) => text == if on then "True" else "False"
    case Word(w) => text == w
  }

  /** The switch that a setting stands for; only zero, the empty text and a switch that is off turn it off. */
  predicate Switched(setting: Setting, switches: set<string>) {
    switches == if setting in {Number(0), Switch(false), Word("")} then {CONT_OFF} else {CONT_ON}
  }

  /** A tuning field as the server reads it: the profile's value, or else the common one, or nothing. */
  predicate FieldRead(server: Server, p: Profile, c: Common, field: string) {
    if field == "cont_batching" then
      if field in p.tuning then Switched(p.tuning[field], server.switches)
      else if field in c.tuning then Switched(c.tuning[field], server.switches)
      else server.switches == {}
    else
      var flag := FlagOf(field);
      if field in p.tuning then flag in server.options && Shown(p.tuning[field], server.options[flag])
      else if field in c.tuning then flag in server.options && Shown(c.tuning[field], server.options[flag])
      else flag !in server.options
  }

  /** Specifications of different fields, each with its own flag, and one switch. */
  ghost predicate Proper(specs: seq<(string, Flag)>) {
    && (forall i, j | 0 <= i < j < |specs| :: specs[i].0 != specs[j].0 && specs[i].1 != specs[j].1)
    && forall i | 0 <= i < |specs| :: Spelled(specs[i].0, specs[i].1)
  }

  predicate Spelled(field: string, flag: Flag) {
    if field == "cont_batching" then flag == SwitchFlags(CONT_ON, CONT_OFF)
    else flag == ValueFlag(FlagOf(field)) && FlagOf(field) !in {CONT_ON, CONT_OFF}
  }

  lemma SpelledSo(field: string, flag: string)
    requires |flag| == |field| + 2 && flag[..2] == "--"
    requires forall i | 0 <= i < |field| :: flag[i + 2] == if field[i] == '_' then '-' else field[i]
    requires field != "cont_batching" && flag !in {CONT_ON, CONT_OFF}
    ensures Spelled(field, ValueFlag(flag))
  {
    assert flag == FlagOf(field);
  }

  lemma SpecsSpelled()
    ensures forall i | 0 <= i < |TUNING_SPECS| :: Spelled(TUNING_SPECS[i].0, TUNING_SPECS[i].1)
  {
    hide Spelled, FlagOf;
    SpelledSo("n_gpu_layers", "--n-gpu-layers");
    SpelledSo("flash_attn", "--flash-attn");
    SpelledSo("ubatch_size", "--ubatch-size");
    ContSpelled();
    SpelledSo("cache_reuse", "--cache-reuse");
    SpelledSo("spec_type", "--spec-type");
    SpelledSo("spec_draft_n_max", "--spec-draft-n-max");
    SpelledSo("spec_draft_n_min", "--spec-draft-n-min");
  }

  lemma ContSpelled()
    ensures Spelled("cont_batching", SwitchFlags("--cont-batching", "--no-cont-batching"))
  {
  }

  lemma SpecsDiffer()
    ensures forall i, j | 0 <= i < j < |TUNING_SPECS| ::
      TUNING_SPECS[i].0 != TUNING_SPECS[j].0 && TUNING_SPECS[i].1 != TUNING_SPECS[j].1
  {
    assert |TUNING_SPECS| == 8;
  }

  ghost predicate HasFlag(specs: seq<(string, Flag)>, flag: string) {
    exists i | 0 <= i < |specs| :: specs[i].1 == ValueFlag(flag)
  }

  ghost predicate HasSwitch(specs: seq<(string, Flag)>) {
    exists i | 0 <= i < |specs| :: specs[i].1.SwitchFlags?
  }

  /** What the words of some specifications tell the server: their fields, and nothing else. */
  ghost predicate TuningRead(server: Server, p: Profile, c: Common, specs: seq<(string, Flag)>) {
    && (forall i | 0 <= i < |specs| :: FieldRead(server, p, c, specs[i].0))
    && (forall flag | flag in server.options :: HasFlag(specs, flag))
    && (server.switches != {} ==> HasSwitch(specs))
  }

  lemma OneFieldRead(p: Profile, c: Common, field: string, flag: Flag, rest: seq<string>)
    returns (server: Server)
    requires Spelled(field, flag) && ReadServer(rest).Some?
    requires flag.ValueFlag? ==> flag.flag !in ReadServer(rest).value.options
    requires flag.SwitchFlags? ==> ReadServer(rest).value.switches == {}
    ensures ReadServer(FlagArgs(flag, Resolved(p, c, field)) + rest) == Some(server) && FieldRead(server, p, c, field)
    ensures var r := ReadServer(rest).value;
      if flag.ValueFlag? then
        && server.switches == r.switches && r.options.Keys <= server.options.Keys <= r.options.Keys + {flag.flag}
        && forall k | k in r.options :: server.options[k] == r.options[k]
      else server.options == r.options
  {
    hide ReadServer;
    var setting := Resolved(p, c, field);
    if setting.None? {
      assert [] + rest == rest;
      server := ReadServer(rest).value;
    } else if flag.ValueFlag? {
      OptionRead(flag.flag, SettingText(setting.value), rest);
      server := ReadServer([flag.flag, SettingText(setting.value)] + rest).value;
    } else {
      SwitchRead(if IsTrue(setting.value) then flag.on else flag.off, rest);
      server := ReadServer([if IsTrue(setting.value) then flag.on else flag.off] + rest).value;
    }
  }

  lemma SpelledIs(field: string, flag: Flag)
    requires Spelled(field, flag)
    ensures flag.SwitchFlags? <==> field == "cont_batching"
    ensures flag.ValueFlag? ==> flag.flag == FlagOf(field)
  {
  }

  /** Reading one more field leaves the others as they were read. */
  lemma FieldKept(r: Server, server: Server, p: Profile, c: Common, field: string)
    requires FieldRead(r, p, c, field)
    requires field == "cont_batching" ==> server.switches == r.switches
    requires field != "cont_batching" ==>
      && (FlagOf(field) in server.options <==> FlagOf(field) in r.options)
      && (FlagOf(field) in r.options ==> server.options[FlagOf(field)] == r.options[FlagOf(field)])
    ensures FieldRead(server, p, c, field)
  {
    hide FlagOf, Shown;
  }

  lemma OneMoreField(p: Profile, c: Common, specs: seq<(string, Flag)>, r: Server, server: Server)
    requires Proper(specs) && specs != [] && TuningRead(r, p, c, specs[1..]) && FieldRead(server, p, c, specs[0].0)
    requires if specs[0].1.ValueFlag? then
        && server.switches == r.switches && r.options.Keys <= server.options.Keys <= r.options.Keys + {specs[0].1.flag}
        && forall k | k in r.options :: server.options[k] == r.options[k]
      else server.options == r.options
    ensures TuningRead(server, p, c, specs)
  {
    hide Spelled, FlagOf, FieldRead;
    forall i | 0 <= i < |specs|
      ensures FieldRead(server, p, c, specs[i].0)
    {
      SpelledIs(specs[i].0, specs[i].1);
      SpelledIs(specs[0].0, specs[0].1);
      if i > 0 {
        assert specs[1..][i - 1] == specs[i];
        FieldKept(r, server, p, c, specs[i].0);
      }
    }
    forall flag | flag in server.options
      ensures HasFlag(specs, flag)
    {
      if flag in r.options {
        var i :| 0 <= i < |specs[1..]| && specs[1..][i].1 == ValueFlag(flag);
        assert specs[i + 1].1 == ValueFlag(flag);
      } else {
        assert specs[0].1 == ValueFlag(flag);
      }
    }
    if server.switches != {} && specs[0].1.ValueFlag? {
      var i :| 0 <= i < |specs[1..]| && specs[1..][i].1.SwitchFlags?;
      assert specs[i + 1].1.SwitchFlags?;
    }
  }

  lemma NotTwice(specs: seq<(string, Flag)>)
    requires Proper(specs) && specs != []
    ensures Proper(specs[1..])
    ensures specs[0].1.ValueFlag? ==> !HasFlag(specs[1..], specs[0].1.flag)
    ensures specs[0].1.SwitchFlags? ==> !HasSwitch(specs[1..])
  {
    hide Spelled;
    forall i | 0 <= i < |specs|
      ensures specs[i].1.SwitchFlags? <==> specs[i].0 == "cont_batching"
    {
      SpelledIs(specs[i].0, specs[i].1);
    }
    assert forall i | 0 <= i < |specs[1..]| :: specs[1..][i] == specs[i + 1];
  }

  lemma {:induction false} TuningReads(p: Profile, c: Common, specs: seq<(string, Flag)>)
    requires Proper(specs)
    ensures ReadServer(TuningArgs(p, c, specs)).Some? && TuningRead(ReadServer(TuningArgs(p, c, specs)).value, p, c, specs)
    decreases |specs|
  {
    hide ReadServer, FlagArgs, Resolved, Spelled, FlagOf, FieldRead, HasFlag, HasSwitch;
    if specs == [] {
      NothingRead();
    } else {
      NotTwice(specs);
      TuningReads(p, c, specs[1..]);
      var rest := TuningArgs(p, c, specs[1..]);
      var server := OneFieldRead(p, c, specs[0].0, specs[0].1, rest);
      OneMoreField(p, c, specs, ReadServer(rest).value, server);
    }
  }

  lemma NothingRead()
    ensures ReadServer([]) == Some(Server(map[], {}))
  {
  }

  // ---------------------------------------------------------------- the fixed words

  /** Flags and their values, one word after the other. */
  function Flat(pairs: seq<(string, string)>): seq<string> {
    if pairs == [] then [] else [pairs[0].0, pairs[0].1] + Flat(pairs[1..])
  }

  predicate Has(server: Server, flag: string, text: string) {
    flag in server.options && server.options[flag] == text
  }

  lemma {:induction false} PairsRead(pairs: seq<(string, string)>, rest: seq<string>)
    returns (server: Server)
    requires ReadServer(rest).Some?
    requires forall i | 0 <= i < |pairs| :: pairs[i].0 !in {CONT_ON, CONT_OFF} && pairs[i].0 !in ReadServer(rest).value.options
    requires forall i, j | 0 <= i < j < |pairs| :: pairs[i].0 != pairs[j].0
    ensures ReadServer(Flat(pairs) + rest) == Some(server)
    ensures forall i | 0 <= i < |pairs| :: Has(server, pairs[i].0, pairs[i].1)
    ensures var r := ReadServer(rest).value;
      && server.switches == r.switches && (forall k | k in r.options :: Has(server, k, r.options[k]))
      && forall k | k in server.options :: k in r.options || exists i | 0 <= i < |pairs| :: pairs[i].0 == k
    decreases |pairs|
  {
    hide ReadServer;
    if pairs == [] {
      assert Flat(pairs) + rest == rest;
      server := ReadServer(rest).value;
    } else {
      var more := PairsRead(pairs[1..], rest);
      assert forall i | 1 <= i < |pairs| :: pairs[i] == pairs[1..][i - 1];
      OptionRead(pairs[0].0, pairs[0].1, Flat(pairs[1..]) + rest);
      assert Flat(pairs) + rest == [pairs[0].0, pairs[0].1] + (Flat(pairs[1..]) + rest);
      server := more.(options := more.options[pairs[0].0 := pairs[0].1]);
      assert forall k | k in more.options && k !in ReadServer(rest).value.options ::
        exists i | 0 <= i < |pairs[1..]| :: pairs[1..][i].0 == k;
    }
  }

  const FIXED_FLAGS: seq<string> :=
    ["--model", "--ctx-size", "--parallel", "--batch-size", "--cache-type-k", "--cache-type-v", "--host", "--port"]

  function FixedPairs(p: Profile, c: Common): (r: seq<(string, string)>)
    ensures |r| == 8 && forall i | 0 <= i < 8 :: r[i].0 == FIXED_FLAGS[i]
  {
    [("--model", "/models/" + TextOf(p.model)), ("--ctx-size", PrintInt(p.ctxSize)), ("--parallel", PrintInt(p.parallel)),
     ("--batch-size", PrintInt(p.batchSize)), ("--cache-type-k", TextOf(p.kvTypeK)), ("--cache-type-v", TextOf(p.kvTypeV)),
     ("--host", "0.0.0.0"), ("--port", PrintInt(c.hostPort))]
  }

  lemma FixedDiffer()
    ensures |FIXED_FLAGS| == 8
    ensures forall i, j | 0 <= i < j < |FIXED_FLAGS| :: FIXED_FLAGS[i] != FIXED_FLAGS[j]
    ensures forall i | 0 <= i < |FIXED_FLAGS| :: FIXED_FLAGS[i] !in {CONT_ON, CONT_OFF}
  {
  }

  lemma FixedApart()
    ensures forall i | 0 <= i < |FIXED_FLAGS| :: !HasFlag(TUNING_SPECS, FIXED_FLAGS[i])
  {
    assert |TUNING_SPECS| == 8;
  }

  lemma ServerParts(p: Profile, c: Common)
    ensures ServerArgs(p, c) == Flat(FixedPairs(p, c)) + TuningArgs(p, c, TUNING_SPECS) + Texts(c.extraArgs) + Texts(p.extraArgs)
  {
    var f := FixedPairs(p, c);
    FlatFour(f[0], f[1], f[2], f[3], f[4..]);
    FlatFour(f[4], f[5], f[6], f[7], []);
    assert f == [f[0], f[1], f[2], f[3]] + f[4..] && f[4..] == [f[4], f[5], f[6], f[7]] + [];
    hide TuningArgs, TUNING_SPECS, PrintInt, TextOf, Flat;
    assert Flat(f) == [f[0].0, f[0].1, f[1].0, f[1].1, f[2].0, f[2].1, f[3].0, f[3].1]
                      + ([f[4].0, f[4].1, f[5].0, f[5].1, f[6].0, f[6].1, f[7].0, f[7].1] + Flat([]));
    FlatNone();
  }

  lemma FlatNone()
    ensures Flat([]) == []
  {
  }

  lemma FlatStep(a: (string, string), rest: seq<(string, string)>)
    ensures Flat([a] + rest) == [a.0, a.1] + Flat(rest)
  {
    assert ([a] + rest)[1..] == rest;
  }

  lemma FlatFour(a: (string, string), b: (string, string), c: (string, string), d: (string, string), rest: seq<(string, string)>)
    ensures Flat([a, b, c, d] + rest) == [a.0, a.1, b.0, b.1, c.0, c.1, d.0, d.1] + Flat(rest)
  {
    hide Flat;
    FlatStep(d, rest);
    FlatStep(c, [d] + rest);
    FlatStep(b, [c] + ([d] + rest));
    FlatStep(a, [b] + ([c] + ([d] + rest)));
    assert [a, b, c, d] + rest == [a] + ([b] + ([c] + ([d] + rest)));
  }

  // ---------------------------------------------------------------- what the server is told

  /** The server's options are the profile's, the tuning fields in effect, and nothing else. */
  ghost predicate Serves(server: Server, p: Profile, c: Common) {
    && Has(server, "--model", "/models/" + TextOf(p.model)) && Has(server, "--ctx-size", PrintInt(p.ctxSize))
    && Has(server, "--parallel", PrintInt(p.parallel)) && Has(server, "--batch-size", PrintInt(p.batchSize))
    && Has(server, "--cache-type-k", TextOf(p.kvTypeK)) && Has(server, "--cache-type-v", TextOf(p.kvTypeV))
    && Has(server, "--host", "0.0.0.0") && Has(server, "--port", PrintInt(c.hostPort))
    && (forall f | f in NUMBERS + WORDS + {"cont_batching"} :: FieldRead(server, p, c, f))
    && forall k | k in server.options :: k in FIXED_FLAGS || exists f | f in NUMBERS + WORDS :: k == FlagOf(f)
  }

  /** A command: readable words that serve the profile, then the common extra arguments, then the profile's. */
  ghost predicate Commands(words: seq<string>, p: Profile, c: Common) {
    var n, m := |c.extraArgs|, |p.extraArgs|;
    && |words| >= n + m
    && (forall i | 0 <= i < n :: words[|words| - m - n + i] == TextOf(c.extraArgs[i]))
    && (forall i | 0 <= i < m :: words[|words| - m + i] == TextOf(p.extraArgs[i]))
    && var server := ReadServer(words[..|words| - m - n]); server.Some? && Serves(server.value, p, c)
  }

  lemma SpecsCover(f: string)
    returns (i: nat)
    requires f in NUMBERS + WORDS + {"cont_batching"}
    ensures i < |TUNING_SPECS| && TUNING_SPECS[i].0 == f
  {
    i := if f == "n_gpu_layers" then 0 else if f == "flash_attn" then 1 else if f == "ubatch_size" then 2
         else if f == "cont_batching" then 3 else if f == "cache_reuse" then 4 else if f == "spec_type" then 5
         else if f == "spec_draft_n_max" then 6 else 7;
  }

  lemma FixedServe(server: Server, p: Profile, c: Common)
    requires forall i | 0 <= i < 8 :: Has(server, FixedPairs(p, c)[i].0, FixedPairs(p, c)[i].1)
    ensures Has(server, "--model", "/models/" + TextOf(p.model)) && Has(server, "--ctx-size", PrintInt(p.ctxSize))
    ensures Has(server, "--parallel", PrintInt(p.parallel)) && Has(server, "--batch-size", PrintInt(p.batchSize))
    ensures Has(server, "--cache-type-k", TextOf(p.kvTypeK)) && Has(server, "--cache-type-v", TextOf(p.kvTypeV))
    ensures Has(server, "--host", "0.0.0.0") && Has(server, "--port", PrintInt(c.hostPort))
  {
    hide Has, TextOf, PrintInt;
    var f := FixedPairs(p, c);
    assert Has(server, f[0].0, f[0].1) && Has(server, f[1].0, f[1].1) && Has(server, f[2].0, f[2].1) && Has(server, f[3].0, f[3].1);
    assert Has(server, f[4].0, f[4].1) && Has(server, f[5].0, f[5].1) && Has(server, f[6].0, f[6].1) && Has(server, f[7].0, f[7].1);
  }

  lemma FieldsServe(r: Server, server: Server, p: Profile, c: Common, f: string)
    requires TuningRead(r, p, c, TUNING_SPECS) && f in NUMBERS + WORDS + {"cont_batching"}
    requires server.switches == r.switches && forall k | k in r.options :: Has(server, k, r.options[k])
    requires forall k | k in server.options :: k in r.options || k in FIXED_FLAGS
    ensures FieldRead(server, p, c, f)
  {
    var i := SpecsCover(f);
    SpecsSpelled();
    FixedApart();
    hide Spelled, FlagOf, FieldRead, TUNING_SPECS, FIXED_FLAGS;
    SpelledIs(f, TUNING_SPECS[i].1);
    FieldKept(r, server, p, c, f);
  }

  lemma FlagIsField(flag: string)
    returns (f: string)
    requires HasFlag(TUNING_SPECS, flag)
    ensures f in NUMBERS + WORDS && flag == FlagOf(f)
  {
    SpecsSpelled();
    hide FlagOf, TUNING_SPECS;
    var i :| 0 <= i < |TUNING_SPECS| && TUNING_SPECS[i].1 == ValueFlag(flag);
    f := TUNING_SPECS[i].0;
    SpelledIs(f, TUNING_SPECS[i].1);
    SpecsAmong(i);
  }

  lemma SpecsAmong(i: nat)
    requires i < |TUNING_SPECS| && TUNING_SPECS[i].0 != "cont_batching"
    ensures TUNING_SPECS[i].0 in NUMBERS + WORDS
  {
  }

  lemma SpecsAreProper()
    ensures Proper(TUNING_SPECS)
  {
    SpecsSpelled();
    SpecsDiffer();
    hide Spelled, TUNING_SPECS;
  }

  lemma ServerReads(p: Profile, c: Common)
    returns (server: Server)
    ensures ReadServer(Flat(FixedPairs(p, c)) + TuningArgs(p, c, TUNING_SPECS)) == Some(server) && Serves(server, p, c)
  {
    SpecsAreProper();
    FixedDiffer();
    FixedApart();
    hide ReadServer, FlagOf, FieldRead, HasFlag, TuningArgs, TUNING_SPECS, FixedPairs, Flat, TextOf, PrintInt, FIXED_FLAGS, Proper, Has;
    var pairs, rest := FixedPairs(p, c), TuningArgs(p, c, TUNING_SPECS);
    TuningReads(p, c, TUNING_SPECS);
    server := PairsRead(pairs, rest);
    FixedServe(server, p, c);
    forall f | f in NUMBERS + WORDS + {"cont_batching"}
      ensures FieldRead(server, p, c, f)
    {
      FieldsServe(ReadServer(rest).value, server, p, c, f);
    }
    forall k | k in server.options && k !in FIXED_FLAGS
      ensures exists f | f in NUMBERS + WORDS :: k == FlagOf(f)
    {
      var f := FlagIsField(k);
    }
  }

  lemma SuffixTexts(head: seq<string>, a: seq<Atom>, b: seq<Atom>)
    ensures var words := head + Texts(a) + Texts(b);
      && |words| == |head| + |a| + |b|
      && words[..|words| - |b| - |a|] == head
      && (forall i | 0 <= i < |a| :: words[|words| - |b| - |a| + i] == TextOf(a[i]))
      && forall i | 0 <= i < |b| :: words[|words| - |b| + i] == TextOf(b[i])
  {
    hide TextOf;
  }

  lemma ServerCommands(p: Profile, c: Common)
    ensures Commands(ServerArgs(p, c), p, c)
  {
    ServerParts(p, c);
    hide ServerArgs, ReadServer, Serves, TuningArgs, TUNING_SPECS, FixedPairs, Flat, TextOf, Texts;
    var server := ServerReads(p, c);
    SuffixTexts(Flat(FixedPairs(p, c)) + TuningArgs(p, c, TUNING_SPECS), c.extraArgs, p.extraArgs);
  }

  /**
   * What any launch tells the server, wherever its label went: the words behind
   * the flags, the label and the image are a command of the profile. It is the
   * command that podman reads when the image is told apart from the flags.
   */
  lemma LaunchCommands(p: Profile, c: Common, name: string)
    ensures var words := L.LaunchArgs(p, c, name); |words| >= 18 && Commands(words[18..], p, c)
    ensures LaunchFidelity.ImageApart(p, c) ==>
      var spec := L.ParseRun(L.LaunchArgs(p, c, name));
      spec.Some? && spec.value.image == TextOf(p.image) && Commands(spec.value.command, p, c)
  {
    hide *;
    ServerCommands(p, c);
    LaunchFidelity.LaunchParses(p, c, name);
    var i := LaunchFidelity.LaunchedAt(p, c, name);
    BehindLabel(RunFlags(c), i, ["--label", LaunchFidelity.LabelText(name)], TextOf(p.image), ServerArgs(p, c));
  }

  lemma BehindLabel(flags: seq<string>, i: nat, tag: seq<string>, image: string, server: seq<string>)
    requires |flags| == 15 && i <= 15 && |tag| == 2
    ensures (flags[..i] + (tag + (flags[i..] + ([image] + server))))[18..] == server
  {
  }

  /** The server's options are what a table says: sizes as the numbers they are, names as they stand. */
  ghost predicate TellsTable(server: Server, table: map<string, Value>) {
    && SIZES + TEXTS <= table.Keys && (forall k | k in TEXTS :: table[k].Scalar?)
    && HasNumber(server, "--ctx-size", IntOf(table["ctx_size"])) && HasNumber(server, "--parallel", IntOf(table["parallel"]))
    && HasNumber(server, "--batch-size", IntOf(table["batch_size"]))
    && Has(server, "--model", "/models/" + TextOf(table["model"].atom))
    && Has(server, "--cache-type-k", TextOf(table["kv_cache_type_k"].atom))
    && Has(server, "--cache-type-v", TextOf(table["kv_cache_type_v"].atom))
  }

  predicate HasNumber(server: Server, flag: string, n: Option<int>) {
    flag in server.options && n.Some? && IntOf(Scalar(Str(server.options[flag]))) == n
  }

  lemma ServesTable(server: Server, p: Profile, c: Common, name: string, table: map<string, Value>)
    requires Serves(server, p, c) && ProfileSaid(p, name, table, c.image)
    ensures TellsTable(server, table)
  {
    IntTextBack(p.ctxSize);
    IntTextBack(p.parallel);
    IntTextBack(p.batchSize);
    hide IntOf, TextOf, PrintInt, FieldRead, TuningSaid, ArgsSaid, FlagOf, OptionalSaid;
  }

  /** What a client writes in a table is what the server is told. */
  lemma TableReachesServer(name: string, table: map<string, Value>, c: Common, tag: string)
    requires LoadProfile(name, table, c.image).Some?
    ensures var p := LoadProfile(name, table, c.image).value;
      var words, n := L.LaunchArgs(p, c, tag), |c.extraArgs| + |p.extraArgs|;
      && |words| >= 18 + n
      && var server := ReadServer(words[18..|words| - n]); server.Some? && TellsTable(server.value, table)
  {
    hide *;
    var p := LoadProfile(name, table, c.image).value;
    LoadsExactly(name, table, c.image);
    LaunchCommands(p, c, tag);
    var words := L.LaunchArgs(p, c, tag);
    var server := CommandServes(words[18..], p, c);
    var n := |c.extraArgs| + |p.extraArgs|;
    assert words[18..][..|words[18..]| - n] == words[18..|words| - n];
    ServesTable(server, p, c, name, table);
  }

  lemma CommandServes(words: seq<string>, p: Profile, c: Common)
    returns (server: Server)
    requires Commands(words, p, c)
    ensures var n := |c.extraArgs| + |p.extraArgs|;
      |words| >= n && ReadServer(words[..|words| - n]) == Some(server) && Serves(server, p, c)
  {
    hide Serves, ReadServer, TextOf;
    var n, m := |c.extraArgs|, |p.extraArgs|;
    server := ReadServer(words[..|words| - m - n]).value;
  }

  // ---------------------------------------------------------------- what podman is told

  /** The flags that podman reads before the image, with their values; a switch has none. */
  function PodmanFlags(words: seq<string>): seq<(string, string)>
    decreases |words|
  {
    if words == [] then []
    else if words[0] in L.SWITCHES then [(words[0], "")] + PodmanFlags(words[1..])
    else if words[0] in L.OPTIONS && |words| >= 2 then [(words[0], words[1])] + PodmanFlags(words[2..])
    else []
  }

  lemma {:induction false} PodmanPairsRead(pairs: seq<(string, string)>, rest: seq<string>)
    requires forall i | 0 <= i < |pairs| :: pairs[i].0 in L.OPTIONS && pairs[i].0 !in L.SWITCHES
    ensures PodmanFlags(Flat(pairs) + rest) == pairs + PodmanFlags(rest)
    decreases |pairs|
  {
    hide L.OPTIONS, L.SWITCHES;
    if pairs == [] {
      assert Flat(pairs) + rest == rest;
    } else {
      var words := Flat(pairs) + rest;
      assert words == [pairs[0].0, pairs[0].1] + (Flat(pairs[1..]) + rest);
      assert words[2..] == Flat(pairs[1..]) + rest;
      PodmanPairsRead(pairs[1..], rest);
      assert pairs == [pairs[0]] + pairs[1..];
    }
  }

  /** The flags of `podman run` behind its two switches, with the label behind them. */
  function FlagPairs(c: Common, name: string): seq<(string, string)> {
    [("--name", c.containerName), ("--device", "/dev/dri"), ("--device", "/dev/kfd"), ("--group-add", "keep-groups"),
     ("--publish", PrintInt(c.hostPort) + ":" + PrintInt(c.hostPort)), ("--volume", c.modelsDir + ":/models:z"),
     ("--label", "llamactl.profile=" + name)]
  }

  lemma LabelIs(name: string)
    ensures LaunchFidelity.LabelText(name) == "llamactl.profile=" + name
  {
    assert "llamactl.profile" + "=" == "llamactl.profile=";
  }

  lemma FlagsAre(c: Common, name: string)
    ensures RunFlags(c) + ["--label", "llamactl.profile=" + name] == ["run", "--rm", "--detach"] + Flat(FlagPairs(c, name))
  {
    hide Flat, PrintInt;
    var f := FlagPairs(c, name);
    FlatFour(f[0], f[1], f[2], f[3], [f[4], f[5], f[6]]);
    FlatThree(f[4], f[5], f[6]);
    assert f == [f[0], f[1], f[2], f[3]] + [f[4], f[5], f[6]];
  }

  /**
   * What a launch tells podman, when the image is told apart from the flags: to
   * run detached and clean up, the container's name, the devices and their
   * group, one port for host and server, the models, and the profile's name.
   */
  lemma LaunchFlags(p: Profile, c: Common, name: string)
    requires LaunchFidelity.ImageApart(p, c)
    ensures var words := L.LaunchArgs(p, c, name);
      && |words| >= 1 && words[0] == "run"
      && PodmanFlags(words[1..]) == [("--rm", ""), ("--detach", "")] + FlagPairs(c, name)
  {
    LaunchFidelity.LabelBeforeImage(p, c, name);
    hide RunFlags, ServerArgs, PrintInt, TextOf, L.LaunchArgs, PodmanFlags, Flat, LaunchFidelity.LabelText;
    LabelIs(name);
    FlagsAre(c, name);
    var words, rest := L.LaunchArgs(p, c, name), [TextOf(p.image)] + ServerArgs(p, c);
    var pairs := FlagPairs(c, name);
    assert words == (RunFlags(c) + ["--label", "llamactl.profile=" + name]) + rest;
    PodmanPairsRead(pairs, rest);
    ImageEnds(TextOf(p.image), ServerArgs(p, c));
    SwitchesRead(Flat(pairs) + rest);
    assert words[1..] == ["--rm", "--detach"] + (Flat(pairs) + rest);
  }

  lemma FlatThree(a: (string, string), b: (string, string), c: (string, string))
    ensures Flat([a, b, c]) == [a.0, a.1, b.0, b.1, c.0, c.1]
  {
    hide Flat;
    FlatNone();
    FlatStep(c, []);
    FlatStep(b, [c] + []);
    FlatStep(a, [b] + ([c] + []));
    assert [a, b, c] == [a] + ([b] + ([c] + []));
  }

  lemma ImageEnds(image: string, rest: seq<string>)
    requires !StartsWith(image, "-")
    ensures PodmanFlags([image] + rest) == []
  {
    assert forall w | w in L.SWITCHES + L.OPTIONS :: w[0] == '-';
  }

  lemma SwitchesRead(rest: seq<string>)
    ensures PodmanFlags(["--rm", "--detach"] + rest) == [("--rm", ""), ("--detach", "")] + PodmanFlags(rest)
  {
    assert (["--rm", "--detach"] + rest)[1..] == ["--detach"] + rest && (["--detach"] + rest)[1..] == rest;
  }
}
