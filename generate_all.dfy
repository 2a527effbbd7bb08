/** The batch command (generate-all.js): its argument parser, the command line it
    runs for each article of a series, and its count of successes and failures. */
module BatchCli {
  import opened Wrappers
  import opened JsString
  import opened SiteConfig
  import CoverCli

  // ---------------------------------------------------------------------------
  // parseArgs

  /** The options object: every field starts out as `null`. */
  datatype BatchOptions = BatchOptions(series: Option<string>, template: Option<string>, format: Option<string>)

  const NoOptions := BatchOptions(None, None, None)

  /** What the loop of `parseArgs` does from position `i` on, with options `o`. */
  function ParseFrom(args: seq<string>, i: nat, o: BatchOptions): BatchOptions
    requires i <= |args|
    decreases |args| - i
  {
    if i == |args| then o
    else
      var arg := args[i];
      if arg == "--template" && CoverCli.HasValue(args, i) then ParseFrom(args, i + 2, o.(template := Some(args[i + 1])))
      else if arg == "--format" && CoverCli.HasValue(args, i) then ParseFrom(args, i + 2, o.(format := Some(args[i + 1])))
      else if !StartsWith(arg, "--") && !CoverCli.Truthy(o.series) then ParseFrom(args, i + 1, o.(series := Some(arg)))
      else ParseFrom(args, i + 1, o)
  }

  /** `parseArgs(args)`. */
  method ParseArgs(args: seq<string>) returns (o: BatchOptions)
    ensures o == ParseFrom(args, 0, NoOptions)
  {
    o := NoOptions;
    var i := 0;
    while i < |args|
      invariant i <= |args|
      invariant ParseFrom(args, i, o) == ParseFrom(args, 0, NoOptions)
      decreases |args| - i
    {
      var arg := args[i];
      if arg == "--template" && i + 1 < |args| && args[i + 1] != "" {
        o := o.(template := Some(args[i + 1]));
        i := i + 2;
      } else if arg == "--format" && i + 1 < |args| && args[i + 1] != "" {
        o := o.(format := Some(args[i + 1]));
        i := i + 2;
      } else if !StartsWith(arg, "--") && !CoverCli.Truthy(o.series) {
        o := o.(series := Some(arg));
        i := i + 1;
      } else {
        i := i + 1;
      }
    }
  }

  /** A template or format that is set is the argument after its flag, as written
      (not lower-cased), and never empty. */
  lemma {:induction false} FlagValuesVerbatim(args: seq<string>, i: nat, o: BatchOptions)
    requires i <= |args|
    ensures var r := ParseFrom(args, i, o);
            && (r.template == o.template ||
                exists k | i <= k && k + 1 < |args| :: args[k] == "--template" && r.template == Some(args[k + 1]) && args[k + 1] != "")
            && (r.format == o.format ||
                exists k | i <= k && k + 1 < |args| :: args[k] == "--format" && r.format == Some(args[k + 1]) && args[k + 1] != "")
    decreases |args| - i
  {
    if i < |args| {
      var arg := args[i];
      if arg == "--template" && CoverCli.HasValue(args, i) {
        FlagValuesVerbatim(args, i + 2, o.(template := Some(args[i + 1])));
      } else if arg == "--format" && CoverCli.HasValue(args, i) {
        FlagValuesVerbatim(args, i + 2, o.(format := Some(args[i + 1])));
      } else if !StartsWith(arg, "--") && !CoverCli.Truthy(o.series) {
        FlagValuesVerbatim(args, i + 1, o.(series := Some(arg)));
      } else {
        FlagValuesVerbatim(args, i + 1, o);
      }
    }
  }

  /** The series is an argument that does not start with `--`, if any. */
  lemma {:induction false} SeriesIsPositional(args: seq<string>, i: nat, o: BatchOptions)
    requires i <= |args|
    ensures var r := ParseFrom(args, i, o).series;
            r == o.series || exists k | i <= k < |args| :: r == Some(args[k]) && !StartsWith(args[k], "--")
    decreases |args| - i
  {
    if i < |args| {
      var arg := args[i];
      if arg == "--template" && CoverCli.HasValue(args, i) {
        SeriesIsPositional(args, i + 2, o.(template := Some(args[i + 1])));
      } else if arg == "--format" && CoverCli.HasValue(args, i) {
        SeriesIsPositional(args, i + 2, o.(format := Some(args[i + 1])));
      } else if !StartsWith(arg, "--") && !CoverCli.Truthy(o.series) {
        SeriesIsPositional(args, i + 1, o.(series := Some(arg)));
      } else {
        SeriesIsPositional(args, i + 1, o);
      }
    }
  }

  /** Unlike the single-article command, the batch keeps the case of the values, and
      has no `--output` flag: it is skipped, and its value becomes the series. */
  lemma BatchKeepsCase()
    ensures ParseFrom(["--output", "kafka", "--template", "DARK", "--format", "Blog"], 0, NoOptions) ==
              BatchOptions(Some("kafka"), Some("DARK"), Some("Blog"))
  {
    var args := ["--output", "kafka", "--template", "DARK", "--format", "Blog"];
    assert StartsWith("--output", "--") && "kafka"[..2] == "ka";
    assert ParseFrom(args, 0, NoOptions) == ParseFrom(args, 1, NoOptions);
    assert ParseFrom(args, 1, NoOptions) == ParseFrom(args, 2, NoOptions.(series := Some("kafka")));
  }

  // ---------------------------------------------------------------------------
  // The command run for one article

  /** The words a flag adds to the command: the flag and its value when the value
      is truthy, nothing otherwise. */
  function FlagWords(flag: string, v: Option<string>): seq<string>
  {
    if CoverCli.Truthy(v) then [flag, v.value] else []
  }

  /** `node "<INDEX_SCRIPT>" <article>`, then ` --template T` and ` --format F` when
      they are set. */
  function Command(indexScript: string, article: string, o: BatchOptions): string
  {
    var cmd := "node \"" + indexScript + "\" " + article;
    var cmd := if CoverCli.Truthy(o.template) then cmd + " --template " + o.template.value else cmd;
    if CoverCli.Truthy(o.format) then cmd + " --format " + o.format.value else cmd
  }

  /** The words of the command, for a script, an article and values without spaces:
      `node`, the quoted script, the article, then the flags that are set, template
      first. */
  function CommandWords(indexScript: string, article: string, o: BatchOptions): seq<string>
  {
    ["node", "\"" + indexScript + "\"", article] + FlagWords("--template", o.template) + FlagWords("--format", o.format)
  }

  /** The text holds no space character, so splitting at spaces keeps it whole. */
  predicate NoBlank(s: string)
  {
    ' ' !in s
  }

  /** The command is its words separated by single spaces. */
  lemma CommandIsJoinedWords(indexScript: string, article: string, o: BatchOptions)
    ensures Command(indexScript, article, o) == Join(CommandWords(indexScript, article, o), " ")
  {
    var q := "\"" + indexScript + "\"";
    var t := FlagWords("--template", o.template);
    var f := FlagWords("--format", o.format);
    var tail := [article] + t + f;
    var tp := if t == [] then "" else " --template " + t[1];
    var fp := if f == [] then "" else " --format " + f[1];
    assert CommandWords(indexScript, article, o) == ["node"] + ([q] + tail);
    JoinCons("node", [q] + tail, " ");
    JoinCons(q, tail, " ");
    JoinTail(article, t, f);
    CommandShape(indexScript, article, o);
    NodePrefix(indexScript, article + tp + fp);
  }

  /** The command is its fixed head followed by the article and the flags set. */
  lemma CommandShape(indexScript: string, article: string, o: BatchOptions)
    ensures var t := FlagWords("--template", o.template);
            var f := FlagWords("--format", o.format);
            Command(indexScript, article, o) ==
              "node \"" + indexScript + "\" " + (article + (if t == [] then "" else " --template " + t[1])
                                                      + (if f == [] then "" else " --format " + f[1]))
  {
    var head := "node \"" + indexScript + "\" ";
    var t := FlagWords("--template", o.template);
    var f := FlagWords("--format", o.format);
    var tp := if t == [] then "" else " --template " + t[1];
    var fp := if f == [] then "" else " --format " + f[1];
    assert Command(indexScript, article, o) == head + article + tp + fp;
    assert head + article + tp + fp == head + (article + tp + fp);
  }

  lemma NodePrefix(indexScript: string, x: string)
    ensures "node" + " " + (("\"" + indexScript + "\"") + " " + x) == "node \"" + indexScript + "\" " + x
  {
  }

  /** The words after the script, joined. */
  lemma JoinTail(article: string, t: seq<string>, f: seq<string>)
    requires (t == [] || (|t| == 2 && t[0] == "--template")) && (f == [] || (|f| == 2 && f[0] == "--format"))
    ensures Join([article] + t + f, " ") ==
              article + (if t == [] then "" else " --template " + t[1]) + (if f == [] then "" else " --format " + f[1])
  {
    if t == [] && f == [] {
      JoinNoFlag(article, t, f);
    } else if t == [] {
      JoinOnlyFormat(article, t, f);
    } else if f == [] {
      JoinOnlyTemplate(article, t, f);
    } else {
      JoinTwoFlags(article, t, f);
    }
  }

  lemma JoinNoFlag(article: string, t: seq<string>, f: seq<string>)
    requires t == [] && f == []
    ensures Join([article] + t + f, " ") == (article + "") + ""
  {
    assert [article] + t + f == [article];
    assert (article + "") + "" == article;
  }

  lemma JoinOnlyFormat(article: string, t: seq<string>, f: seq<string>)
    requires t == [] && |f| == 2 && f[0] == "--format"
    ensures Join([article] + t + f, " ") == (article + "") + (" --format " + f[1])
  {
    assert [article] + t + f == [article] + f;
    JoinOneFlag(article, f);
    assert " " + f[0] + " " == " --format ";
    assert (article + "") + (" --format " + f[1]) == article + " --format " + f[1];
  }

  lemma JoinOnlyTemplate(article: string, t: seq<string>, f: seq<string>)
    requires |t| == 2 && t[0] == "--template" && f == []
    ensures Join([article] + t + f, " ") == (article + (" --template " + t[1])) + ""
  {
    assert [article] + t + f == [article] + t;
    JoinOneFlag(article, t);
    assert " " + t[0] + " " == " --template ";
    assert (article + (" --template " + t[1])) + "" == article + " --template " + t[1];
  }

  lemma JoinOneFlag(article: string, f: seq<string>)
    requires |f| == 2
    ensures Join([article] + f, " ") == article + (" " + f[0] + " ") + f[1]
  {
    assert [article] + f == [article, f[0], f[1]] + [];
    JoinPair(article, f[0], f[1], [], " ");
    assert [f[1]] + [] == [f[1]];
  }

  lemma JoinTwoFlags(article: string, t: seq<string>, f: seq<string>)
    requires |t| == 2 && t[0] == "--template" && |f| == 2 && f[0] == "--format"
    ensures Join([article] + t + f, " ") == article + " --template " + t[1] + " --format " + f[1]
  {
    assert [article] + t + f == [article, "--template", t[1]] + f;
    JoinPair(article, "--template", t[1], f, " ");
    assert [t[1]] + f == [t[1], "--format", f[1]] + [];
    JoinPair(t[1], "--format", f[1], [], " ");
    assert [f[1]] + [] == [f[1]];
  }

  /** Splitting the command at its spaces gives back its words: the article and the
      values reach the single-article command as separate arguments. */
  lemma CommandSplitsIntoWords(indexScript: string, article: string, o: BatchOptions)
    requires NoBlank(indexScript) && NoBlank(article)
    requires o.template.Some? ==> NoBlank(o.template.value)
    requires o.format.Some? ==> NoBlank(o.format.value)
    ensures Split(Command(indexScript, article, o), ' ') == CommandWords(indexScript, article, o)
  {
    CommandIsJoinedWords(indexScript, article, o);
    var ws := CommandWords(indexScript, article, o);
    forall k | 0 <= k < |ws| ensures ' ' !in ws[k] {
      assert ws[1] == "\"" + indexScript + "\"";
    }
    SplitJoin(ws, ' ');
  }

  /** The single-article command reads back what the batch meant: the article as
      its directory, and the batch's template and format (lower-cased), each
      defaulting as configured when the batch did not set it. */
  lemma IndexReadsCommand(indexScript: string, article: string, o: BatchOptions, d: Defaults)
    requires article != "" && !StartsWith(article, "--")
    ensures var argv := CommandWords(indexScript, article, o)[2..];
            CoverCli.ParseFrom(argv, 0, CoverCli.InitialOptions(d)) ==
              CoverCli.Options(Some(article),
                               if CoverCli.Truthy(o.template) then Lower(o.template.value) else d.template,
                               if CoverCli.Truthy(o.format) then Lower(o.format.value) else d.format,
                               d.outputDir)
  {
    var argv := CommandWords(indexScript, article, o)[2..];
    var t := FlagWords("--template", o.template);
    var f := FlagWords("--format", o.format);
    assert argv == [article] + t + f;
    assert StartsWith("--template", "--") && StartsWith("--format", "--") && StartsWith("--output", "--");
    var o0 := CoverCli.InitialOptions(d);
    var o1 := o0.(postDir := Some(article));
    assert CoverCli.ParseFrom(argv, 0, o0) == CoverCli.ParseFrom(argv, 1, o1);
    if t != [] {
      ReadFlagsAfterTemplate(argv, o1, t[1], f);
    } else {
      ReadFormat(argv, 1, o1, f);
    }
  }

  lemma ReadFlagsAfterTemplate(argv: seq<string>, o1: CoverCli.Options, v: string, f: seq<string>)
    requires |argv| >= 3 && argv[1..] == ["--template", v] + f && v != ""
    requires f == [] || (|f| == 2 && f[0] == "--format" && f[1] != "")
    ensures CoverCli.ParseFrom(argv, 1, o1) ==
              if f == [] then o1.(template := Lower(v)) else o1.(template := Lower(v), format := Lower(f[1]))
  {
    assert argv[1] == "--template" && argv[2] == v;
    assert CoverCli.ParseFrom(argv, 1, o1) == CoverCli.ParseFrom(argv, 3, o1.(template := Lower(v)));
    ReadFormat(argv, 3, o1.(template := Lower(v)), f);
  }

  lemma ReadFormat(argv: seq<string>, i: nat, o: CoverCli.Options, f: seq<string>)
    requires i <= |argv| && argv[i..] == f
    requires f == [] || (|f| == 2 && f[0] == "--format" && f[1] != "")
    ensures CoverCli.ParseFrom(argv, i, o) == if f == [] then o else o.(format := Lower(f[1]))
  {
    if f != [] {
      assert argv[i] == "--format" && argv[i + 1] == f[1] && i + 2 == |argv|;
      assert CoverCli.ParseFrom(argv, i, o) == CoverCli.ParseFrom(argv, i + 2, o.(format := Lower(f[1])));
    }
  }

  // ---------------------------------------------------------------------------
  // The loop over the articles

  /** How many runs succeeded. */
  function Successes(exitOk: seq<bool>): (n: nat)
    ensures n <= |exitOk|
  {
    if exitOk == [] then 0 else Successes(exitOk[..|exitOk| - 1]) + (if exitOk[|exitOk| - 1] then 1 else 0)
  }

  /** Runs the command of every article in order; `exitOk[k]` says whether the k-th
      run exited normally. A failing run is counted and the loop goes on. */
  method RunAll(indexScript: string, articles: seq<string>, o: BatchOptions, exitOk: seq<bool>)
    returns (commands: seq<string>, success: nat, failed: nat)
    requires |exitOk| == |articles|
    ensures |commands| == |articles|
    ensures forall k | 0 <= k < |articles| :: commands[k] == Command(indexScript, articles[k], o)
    ensures success == Successes(exitOk)
    ensures success + failed == |articles|
  {
    commands := [];
    success, failed := 0, 0;
    for k := 0 to |articles|
      invariant |commands| == k
      invariant forall j | 0 <= j < k :: commands[j] == Command(indexScript, articles[j], o)
      invariant success == Successes(exitOk[..k])
      invariant success + failed == k
    {
      var cmd := Command(indexScript, articles[k], o);
      commands := commands + [cmd];
      assert exitOk[..k + 1][..k] == exitOk[..k];
      if exitOk[k] {
        success := success + 1;
      } else {
        failed := failed + 1;
      }
    }
    assert exitOk[..|articles|] == exitOk;
  }

  /** No run fails exactly when every run succeeds. */
  lemma {:induction false} AllSucceedIff(exitOk: seq<bool>)
    ensures Successes(exitOk) == |exitOk| <==> forall k | 0 <= k < |exitOk| :: exitOk[k]
  {
    if exitOk != [] {
      var init := exitOk[..|exitOk| - 1];
      AllSucceedIff(init);
      if Successes(exitOk) == |exitOk| {
        assert exitOk[|exitOk| - 1];
        assert forall k | 0 <= k < |init| :: exitOk[k] == init[k];
      }
      if forall k | 0 <= k < |exitOk| :: exitOk[k] {
        assert forall k | 0 <= k < |init| :: init[k] == exitOk[k];
      }
    }
  }

  /** What running the batch does: show the usage without a series, stop when the
      series has no articles, or run them all. */
  datatype BatchOutcome = Usage | NoArticles(series: string) | Ran(commands: seq<string>, success: nat, failed: nat)

  /** `main()`, with the articles found for the series and the exit status of each
      run given. */
  method Batch(args: seq<string>, indexScript: string, articles: seq<string>, exitOk: seq<bool>)
    returns (out: BatchOutcome)
    requires |exitOk| == |articles|
    ensures var o := ParseFrom(args, 0, NoOptions);
            && (out == Usage <==> !CoverCli.Truthy(o.series))
            && (out.NoArticles? <==> CoverCli.Truthy(o.series) && articles == [])
            && (out.Ran? ==>
                  && out.success + out.failed == |articles|
                  && out.success == Successes(exitOk)
                  && out.commands == seq(|articles|, k requires 0 <= k < |articles| => Command(indexScript, articles[k], o)))
  {
    var o := ParseArgs(args);
    if !CoverCli.Truthy(o.series) {
      return Usage;
    }
    if |articles| == 0 {
      return NoArticles(o.series.value);
    }
    var commands, success, failed := RunAll(indexScript, articles, o, exitOk);
    out := Ran(commands, success, failed);
  }
}
