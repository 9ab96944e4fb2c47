/**
 * What a start hands to podman: where the label goes, what a later manager
 * reads from it, and that the running container keeps matching its profile.
 */
module LaunchFidelity {
  import opened Wrappers
  import opened TomlValue
  import opened PyText
  import opened Tracker
  import opened Config
  import L = Lifecycle

  // ---------------------------------------------------------------- the label

  function LabelText(name: string): string {
    L.PROFILE_LABEL + "=" + name
  }

  lemma {:induction false} IndexIs(words: seq<string>, word: string, i: nat)
    requires i < |words| && words[i] == word && word !in words[..i]
    ensures word in words && L.IndexOf(words, word) == i
  {
    if i > 0 {
      assert words[0] == words[..i][0] && words[1..][..i - 1] == words[..i][1..];
      IndexIs(words[1..], word, i - 1);
    }
  }

  /** The words that can be misread as the label's place are told from their neighbours. */
  lemma FlagAfterLabel(c: Common, i: nat, name: string)
    requires i < 15 && RunFlags(c)[i] == "--label"
    ensures i < 14 ==> RunFlags(c)[i + 1] != LabelText(name)
  {
    var n := LabelText(name);
    assert n[0] == 'l' && n[1] == 'l';
    if i < 14 {
      assert RunFlags(c)[i + 1][..2] != n[..2] by {
        assert n[..2] == "ll";
      }
    }
  }

  /** The label stands directly before the image, with everything else in order, exactly when no earlier word is the image's. */
  lemma LabelBeforeImage(p: Profile, c: Common, name: string)
    ensures L.LaunchArgs(p, c, name) == RunFlags(c) + ["--label", LabelText(name)] + [TextOf(p.image)] + ServerArgs(p, c)
        <==> TextOf(p.image) !in RunFlags(c)
  {
    var image, flags := TextOf(p.image), RunFlags(c);
    var args := PodmanArgs(p, c);
    hide RunFlags, ServerArgs, TextOf;
    assert args == flags + [image] + ServerArgs(p, c);
    assert args[15] == image;
    var i := L.IndexOf(args, image);
    var tag := ["--label", LabelText(name)];
    assert L.LaunchArgs(p, c, name) == args[..i] + tag + args[i..];
    if image !in flags {
      assert args[..15] == flags;
      IndexIs(args, image, 15);
      assert args[15..] == [image] + ServerArgs(p, c);
    } else {
      var k :| 0 <= k < 15 && flags[k] == image;
      assert args[k] == image && forall j | 0 <= j < i :: args[..i][j] != args[k];
      assert i <= k;
      var launched, wanted := args[..i] + tag + args[i..], flags + tag + [image] + ServerArgs(p, c);
      assert launched[i] == tag[0] && launched[i + 1] == tag[1];
      assert wanted[i] == flags[i] && wanted[i + 1] == if i < 14 then flags[i + 1] else tag[0];
      assert tag[0][0] != tag[1][0];
      if flags[i] == "--label" {
        FlagAfterLabel(c, i, name);
      }
    }
  }

  // ---------------------------------------------------------------- reading the label back

  /** An image podman can tell from the words before it. */
  predicate ImageApart(p: Profile, c: Common) {
    TextOf(p.image) !in RunFlags(c) && !StartsWith(TextOf(p.image), "-")
  }

  lemma {:induction false} SplitBack(key: string, value: string)
    requires '=' !in key
    ensures L.SplitLabel(key + "=" + value) == (key, value)
  {
    var text := key + "=" + value;
    if key == [] {
      assert text == "=" + value;
      assert text[1..] == value;
    } else {
      assert text[0] == key[0] && text[0] != '=' && text[1..] == key[1..] + "=" + value;
      SplitBack(key[1..], value);
      assert [key[0]] + key[1..] == key;
    }
  }

  lemma SwitchStep(word: string, rest: seq<string>, labels: map<string, string>)
    requires word in L.SWITCHES
    ensures L.ParseFlags([word] + rest, labels) == L.ParseFlags(rest, labels)
  {
    assert ([word] + rest)[1..] == rest;
  }

  lemma OptionStep(word: string, value: string, rest: seq<string>, labels: map<string, string>)
    requires word in L.OPTIONS && word !in L.SWITCHES && word != "--label"
    ensures L.ParseFlags([word, value] + rest, labels) == L.ParseFlags(rest, labels)
  {
    hide L.SplitLabel;
    assert ([word, value] + rest)[2..] == rest;
  }

  lemma LabelStep(name: string, rest: seq<string>)
    ensures L.ParseFlags(["--label", LabelText(name)] + rest, map[]) == L.ParseFlags(rest, map[L.PROFILE_LABEL := name])
  {
    SplitBack(L.PROFILE_LABEL, name);
    hide L.SplitLabel;
    assert (["--label", LabelText(name)] + rest)[2..] == rest;
  }

  lemma ImageStep(image: string, rest: seq<string>, labels: map<string, string>)
    requires !StartsWith(image, "-")
    ensures L.ParseFlags([image] + rest, labels) == Some(L.RunSpec(labels, image, rest))
  {
    assert forall w | w in L.SWITCHES + L.OPTIONS :: w[0] == '-';
    assert ([image] + rest)[1..] == rest;
  }

  // ---------------------------------------------------------------- the fixed flags

  /** Where one flag ends and the next begins. */
  predicate Boundary(i: nat) {
    i == 1 || i == 2 || i == 15 || (3 <= i <= 13 && i % 2 == 1)
  }

  function NextBoundary(i: nat): nat {
    if i <= 2 then i + 1 else i + 2
  }

  lemma FlagAt(c: Common, i: nat)
    requires Boundary(i) && i < 15
    ensures i <= 2 ==> RunFlags(c)[i] in L.SWITCHES
    ensures i >= 3 ==> RunFlags(c)[i] in L.OPTIONS && RunFlags(c)[i] !in L.SWITCHES && RunFlags(c)[i] != "--label"
  {
  }

  lemma OneFlagRead(c: Common, i: nat, rest: seq<string>, labels: map<string, string>)
    requires Boundary(i) && i < 15
    ensures Boundary(NextBoundary(i)) && NextBoundary(i) <= 15
    ensures L.ParseFlags(RunFlags(c)[i..NextBoundary(i)] + rest, labels) == L.ParseFlags(rest, labels)
  {
    FlagAt(c, i);
    hide RunFlags, L.ParseFlags;
    var flags := RunFlags(c);
    if i <= 2 {
      assert flags[i..i + 1] == [flags[i]];
      SwitchStep(flags[i], rest, labels);
    } else {
      assert flags[i..i + 2] == [flags[i], flags[i + 1]];
      OptionStep(flags[i], flags[i + 1], rest, labels);
    }
  }

  /** The fixed flags between two boundaries are read over, whatever names, ports and paths they carry. */
  lemma {:induction false} FlagsRead(c: Common, i: nat, j: nat, rest: seq<string>, labels: map<string, string>)
    requires Boundary(i) && Boundary(j) && i <= j
    ensures L.ParseFlags(RunFlags(c)[i..j] + rest, labels) == L.ParseFlags(rest, labels)
    decreases j - i
  {
    hide RunFlags, L.ParseFlags;
    var flags := RunFlags(c);
    if i == j {
      assert flags[i..j] + rest == rest;
    } else {
      var k := NextBoundary(i);
      OneFlagRead(c, i, flags[k..j] + rest, labels);
      FlagsRead(c, k, j, rest, labels);
      assert flags[i..j] + rest == flags[i..k] + (flags[k..j] + rest);
    }
  }

  lemma RunComesFirst(c: Common)
    ensures RunFlags(c)[0] == "run"
  {
  }

  lemma RunRead(c: Common, i: nat, rest: seq<string>)
    requires Boundary(i)
    ensures L.ParseRun(RunFlags(c)[..i] + rest) == L.ParseFlags(rest, map[])
  {
    RunComesFirst(c);
    hide RunFlags, L.ParseFlags;
    var flags := RunFlags(c);
    assert (flags[..i] + rest)[1..] == flags[1..i] + rest && (flags[..i] + rest)[0] == flags[0];
    FlagsRead(c, 1, i, rest, map[]);
  }

  // ---------------------------------------------------------------- what podman reads

  /** A launched command line, taken apart at the place of the label. */
  lemma LaunchedAt(p: Profile, c: Common, name: string)
    returns (i: nat)
    ensures i <= 15 && TextOf(p.image) !in RunFlags(c)[..i] && (i < 15 ==> RunFlags(c)[i] == TextOf(p.image))
    ensures L.LaunchArgs(p, c, name)
         == RunFlags(c)[..i] + (["--label", LabelText(name)] + (RunFlags(c)[i..] + ([TextOf(p.image)] + ServerArgs(p, c))))
  {
    hide RunFlags, ServerArgs, TextOf;
    var image, flags := TextOf(p.image), RunFlags(c);
    var args := PodmanArgs(p, c);
    assert args == flags + [image] + ServerArgs(p, c) && args[15] == image;
    i := L.IndexOf(args, image);
    assert forall j | 0 <= j < i :: args[j] == args[..i][j] && args[..i][j] != image;
    assert i <= 15;
    assert args[..i] == flags[..i] && args[i..] == flags[i..] + ([image] + ServerArgs(p, c));
    var tag := ["--label", LabelText(name)];
    assert args[..i] + tag + args[i..] == flags[..i] + (tag + (flags[i..] + ([image] + ServerArgs(p, c))));
  }

  /** A label between two flags is read, and all flags with it. */
  lemma BetweenFlags(c: Common, name: string, i: nat, rest: seq<string>)
    requires Boundary(i)
    ensures L.ParseRun(RunFlags(c)[..i] + (["--label", LabelText(name)] + (RunFlags(c)[i..] + rest)))
         == L.ParseFlags(rest, map[L.PROFILE_LABEL := name])
  {
    hide RunFlags, L.ParseFlags, L.ParseRun;
    var flags := RunFlags(c);
    RunRead(c, i, ["--label", LabelText(name)] + (flags[i..] + rest));
    LabelStep(name, flags[i..] + rest);
    assert flags[i..15] == flags[i..];
    FlagsRead(c, i, 15, rest, map[L.PROFILE_LABEL := name]);
  }

  lemma LabelTextIsWord(name: string)
    ensures !StartsWith(LabelText(name), "-")
  {
    assert LabelText(name)[0] == 'l';
  }

  /** A label between a flag and its value is taken for the value, and its text for the image. */
  lemma InsideFlag(c: Common, name: string, i: nat, rest: seq<string>)
    requires 4 <= i <= 14 && i % 2 == 0
    ensures L.ParseRun(RunFlags(c)[..i] + (["--label", LabelText(name)] + rest)) == Some(L.RunSpec(map[], LabelText(name), rest))
  {
    FlagAt(c, i - 1);
    hide RunFlags, L.ParseFlags, L.ParseRun;
    var flags := RunFlags(c);
    var tail := [LabelText(name)] + rest;
    assert flags[..i] + (["--label", LabelText(name)] + rest) == flags[..i - 1] + ([flags[i - 1], "--label"] + tail);
    RunRead(c, i - 1, [flags[i - 1], "--label"] + tail);
    OptionStep(flags[i - 1], "--label", tail, map[]);
    LabelTextIsWord(name);
    ImageStep(LabelText(name), rest, map[]);
  }

  lemma LabelFirst(rest: seq<string>, name: string)
    ensures L.ParseRun(["--label", LabelText(name)] + rest) == None
  {
  }

  /** What podman makes of the image and the server's arguments. */
  lemma EndRead(image: string, server: seq<string>, labels: map<string, string>)
    requires |server| >= 2 && server[0] == "--model" && !StartsWith(server[1], "-")
    ensures var r := L.ParseFlags([image] + server, labels);
      if !StartsWith(image, "-") then r == Some(L.RunSpec(labels, image, server))
      else if image == "--label" then r == Some(L.RunSpec(labels["--model" := ""], server[1], server[2..]))
      else if image in L.OPTIONS then r == Some(L.RunSpec(labels, server[1], server[2..]))
      else r == None
  {
    var words := [image] + server;
    assert words[1..] == server && server[1..] == [server[1]] + server[2..] && words[2..] == server[1..];
    if !StartsWith(image, "-") {
      ImageStep(image, server, labels);
    } else if image in L.OPTIONS {
      assert image !in L.SWITCHES;
      ImageStep(server[1], server[2..], labels);
      ImageStep(server[1], server[2..], labels["--model" := ""]);
      if image == "--label" {
        NoSign("--model");
      }
    } else {
      assert "--model" !in L.SWITCHES && "--model" !in L.OPTIONS && StartsWith("--model", "-");
    }
  }

  lemma {:induction false} NoSign(text: string)
    requires '=' !in text
    ensures L.SplitLabel(text) == (text, "")
  {
    if text != [] {
      assert text[0] in text;
      NoSign(text[1..]);
      assert [text[0]] + text[1..] == text;
    }
  }

  lemma ServerBegins(p: Profile, c: Common)
    ensures |ServerArgs(p, c)| >= 2 && ServerArgs(p, c)[0] == "--model" && !StartsWith(ServerArgs(p, c)[1], "-")
  {
    assert ServerArgs(p, c)[1][0] == '/';
  }

  // ---------------------------------------------------------------- when the label is read back

  /**
   * When a later manager can read the label: the image is told apart from the
   * flags, or it is itself an option with a value, and the container is not named
   * like it.
   */
  predicate LabelIsRead(p: Profile, c: Common) {
    || ImageApart(p, c)
    || (TextOf(p.image) in L.OPTIONS && (TextOf(p.image) == "--name" || TextOf(p.image) != c.containerName))
  }

  predicate HasLabel(spec: Option<L.RunSpec>, name: string) {
    spec.Some? && L.PROFILE_LABEL in spec.value.labels && spec.value.labels[L.PROFILE_LABEL] == name
  }

  lemma NoOption(c: Common)
    ensures RunFlags(c)[12] !in L.OPTIONS && RunFlags(c)[14] !in L.OPTIONS
  {
    var ports, volume := PrintInt(c.hostPort) + ":" + PrintInt(c.hostPort), c.modelsDir + ":/models:z";
    assert RunFlags(c)[12] == ports && RunFlags(c)[14] == volume;
    hide RunFlags, L.OPTIONS, PrintInt;
    assert ports[|PrintInt(c.hostPort)|] == ':';
    assert volume[|volume| - 1] == 'z';
    OptionsAreWords();
  }

  lemma FlagWords(c: Common)
    ensures var f := RunFlags(c);
      && f[1] == "--rm" && f[2] == "--detach" && f[3] == "--name" && f[4] == c.containerName && f[6] == "/dev/dri"
      && f[8] == "/dev/kfd" && f[10] == "keep-groups"
  {
    hide PrintInt;
  }

  lemma OptionsAreWords()
    ensures forall w | w in L.OPTIONS :: ':' !in w && w != "" && w[|w| - 1] != 'z'
  {
  }

  lemma OptionsBeginSo()
    ensures forall w | w in L.OPTIONS :: StartsWith(w, "-")
    ensures "--rm" !in L.OPTIONS && "--detach" !in L.OPTIONS && "/dev/dri" !in L.OPTIONS && "/dev/kfd" !in L.OPTIONS
    ensures "keep-groups" !in L.OPTIONS && "run" !in L.OPTIONS && StartsWith("--rm", "-") && StartsWith("--detach", "-")
  {
    assert forall w | w in L.OPTIONS :: w[..1] == "-";
    assert "--rm"[..1] == "-" && "--detach"[..1] == "-";
  }

  /** Where the label goes decides whether it is read. */
  lemma PlaceDecides(p: Profile, c: Common, i: nat)
    requires i <= 15 && TextOf(p.image) !in RunFlags(c)[..i] && (i < 15 ==> RunFlags(c)[i] == TextOf(p.image))
    ensures ImageApart(p, c) <==> i == 15 && !StartsWith(TextOf(p.image), "-")
    ensures LabelIsRead(p, c) <==> Boundary(i) && (!StartsWith(TextOf(p.image), "-") || TextOf(p.image) in L.OPTIONS)
  {
    FlagWords(c);
    NoOption(c);
    OptionsBeginSo();
    RunComesFirst(c);
    if Boundary(i) && i < 15 {
      FlagAt(c, i);
    }
    hide RunFlags, TextOf, L.OPTIONS, L.SWITCHES, StartsWith;
    var flags, image := RunFlags(c), TextOf(p.image);
    assert i == 15 ==> flags[..i] == flags;
    assert forall j | 0 <= j < i :: flags[..i][j] == flags[j];
    assert i < 15 ==> image in flags;
    assert i > 4 ==> image != flags[4];
    assert i > 3 ==> image != flags[3];
  }

  /** What podman reads from any launch, by the place of the label. */
  lemma LaunchReads(p: Profile, c: Common, name: string)
    returns (i: nat)
    ensures i <= 15 && TextOf(p.image) !in RunFlags(c)[..i] && (i < 15 ==> RunFlags(c)[i] == TextOf(p.image))
    ensures var spec, server := L.ParseRun(L.LaunchArgs(p, c, name)), ServerArgs(p, c);
      && (Boundary(i) ==> spec == L.ParseFlags([TextOf(p.image)] + server, map[L.PROFILE_LABEL := name]))
      && (!Boundary(i) ==> spec.Some? ==> spec.value.labels == map[])
  {
    i := LaunchedAt(p, c, name);
    hide RunFlags, ServerArgs, TextOf, L.ParseRun, L.ParseFlags, L.LaunchArgs;
    var flags, rest := RunFlags(c), [TextOf(p.image)] + ServerArgs(p, c);
    if Boundary(i) {
      BetweenFlags(c, name, i, rest);
    } else if i == 0 {
      LabelFirst(flags[i..] + rest, name);
      assert flags[..0] + (["--label", LabelText(name)] + (flags[0..] + rest)) == ["--label", LabelText(name)] + (flags[0..] + rest);
    } else {
      InsideFlag(c, name, i, flags[i..] + rest);
    }
  }

  /**
   * Podman reads from a launch exactly one label, the profile's image and the
   * server's arguments if and only if the image is no word of the fixed flags
   * and does not begin with a dash.
   */
  lemma LaunchParses(p: Profile, c: Common, name: string)
    ensures L.ParseRun(L.LaunchArgs(p, c, name))
         == Some(L.RunSpec(map[L.PROFILE_LABEL := name], TextOf(p.image), ServerArgs(p, c)))
        <==> ImageApart(p, c)
  {
    hide RunFlags, ServerArgs, TextOf, L.ParseRun, L.ParseFlags, L.LaunchArgs, L.OPTIONS, StartsWith, ImageApart, LabelIsRead;
    var i := LaunchReads(p, c, name);
    PlaceDecides(p, c, i);
    ServerBegins(p, c);
    EndRead(TextOf(p.image), ServerArgs(p, c), map[L.PROFILE_LABEL := name]);
    if Boundary(i) && i < 15 {
      NotInFlags(p, c, i);
    }
    assert |ServerArgs(p, c)[2..]| < |ServerArgs(p, c)|;
    var none: map<string, string> := map[];
    assert L.PROFILE_LABEL in map[L.PROFILE_LABEL := name] && L.PROFILE_LABEL !in none;
  }

  lemma NotInFlags(p: Profile, c: Common, i: nat)
    requires Boundary(i) && i < 15 && RunFlags(c)[i] == TextOf(p.image)
    ensures StartsWith(TextOf(p.image), "-")
  {
    FlagAt(c, i);
  }

  /** Podman reads the profile's name back from the label exactly under the condition above. */
  lemma LabelReadExactly(p: Profile, c: Common, name: string)
    ensures HasLabel(L.ParseRun(L.LaunchArgs(p, c, name)), name) <==> LabelIsRead(p, c)
  {
    assert "--model" != L.PROFILE_LABEL && "--label" in L.OPTIONS;
    hide RunFlags, ServerArgs, TextOf, L.ParseRun, L.ParseFlags, L.LaunchArgs, L.OPTIONS, StartsWith, ImageApart, LabelIsRead;
    var i := LaunchReads(p, c, name);
    PlaceDecides(p, c, i);
    ServerBegins(p, c);
    EndRead(TextOf(p.image), ServerArgs(p, c), map[L.PROFILE_LABEL := name]);
  }

  /** A manager that finds the container running learns the profile that launched it. */
  lemma ReconcileRecovers(c: L.Core, name: string, p: Profile, now: int)
    requires c.world.Running? && c.world.args == L.LaunchArgs(p, c.common, name) && LabelIsRead(p, c.common) && name in c.profiles
    ensures L.Reconcile(c, true, now)
         == (c.(status := Moved(c.status, Loading,
                NO_FIELDS.(profile := Set(Some(name)), containerId := Set(Some(c.world.id)), message := Set(None)), now)), L.Fine)
  {
    hide L.LaunchArgs, L.ParseRun, LabelIsRead, ServerArgs;
    LabelReadExactly(p, c.common, name);
  }
}
