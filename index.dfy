/** The single-article command (index.js): its argument parser, and the decisions
    `generateCover` takes before and around rendering — the template lookup, the
    title check, the title clean-up, the list of formats, the viewport size and the
    file name of each format, and the data handed to the generator. */
module CoverCli {
  import opened Wrappers
  import opened JsString
  import opened SiteConfig
  import FrontMatter
  import Categories
  import opened Templates
  import TemplateRegistry

  // ---------------------------------------------------------------------------
  // parseArgs

  /** The options object; `postDir` starts out as `null`. */
  datatype Options = Options(postDir: Option<string>, template: string, format: string, outputDir: string)

  /** The options before any argument is read: no directory, and the configured
      template, format and output directory. */
  function InitialOptions(d: Defaults): Options
  {
    Options(None, d.template, d.format, d.outputDir)
  }

  /** A JavaScript string value is truthy when it is present and not empty. */
  predicate Truthy(v: Option<string>)
  {
    v.Some? && v.value != ""
  }

  /** `args[i + 1]` is truthy: it exists and is not the empty string. */
  predicate HasValue(args: seq<string>, i: nat)
  {
    i + 1 < |args| && args[i + 1] != ""
  }

  /** What the loop of `parseArgs` does from position `i` on, with options `o`. */
  function ParseFrom(args: seq<string>, i: nat, o: Options): Options
    requires i <= |args|
    decreases |args| - i
  {
    if i == |args| then o
    else
      var arg := args[i];
      if arg == "--template" && HasValue(args, i) then ParseFrom(args, i + 2, o.(template := Lower(args[i + 1])))
      else if arg == "--format" && HasValue(args, i) then ParseFrom(args, i + 2, o.(format := Lower(args[i + 1])))
      else if arg == "--output" && HasValue(args, i) then ParseFrom(args, i + 2, o.(outputDir := args[i + 1]))
      else if !StartsWith(arg, "--") && !Truthy(o.postDir) then ParseFrom(args, i + 1, o.(postDir := Some(arg)))
      else ParseFrom(args, i + 1, o)
  }

  /** `parseArgs(args)`, with the configured defaults `d`. */
  method ParseArgs(args: seq<string>, d: Defaults) returns (o: Options)
    ensures o == ParseFrom(args, 0, InitialOptions(d))
  {
    o := InitialOptions(d);
    var i := 0;
    while i < |args|
      invariant i <= |args|
      invariant ParseFrom(args, i, o) == ParseFrom(args, 0, InitialOptions(d))
      decreases |args| - i
    {
      var arg := args[i];
      if arg == "--template" && i + 1 < |args| && args[i + 1] != "" {
        o := o.(template := Lower(args[i + 1]));
        i := i + 2;
      } else if arg == "--format" && i + 1 < |args| && args[i + 1] != "" {
        o := o.(format := Lower(args[i + 1]));
        i := i + 2;
      } else if arg == "--output" && i + 1 < |args| && args[i + 1] != "" {
        o := o.(outputDir := args[i + 1]);
        i := i + 2;
      } else if !StartsWith(arg, "--") && !Truthy(o.postDir) {
        o := o.(postDir := Some(arg));
        i := i + 1;
      } else {
        i := i + 1;
      }
    }
  }

  /** Once a truthy directory is set, later arguments never replace it. */
  lemma {:induction false} PostDirKept(args: seq<string>, i: nat, o: Options)
    requires i <= |args| && Truthy(o.postDir)
    ensures ParseFrom(args, i, o).postDir == o.postDir
    decreases |args| - i
  {
    if i < |args| {
      var arg := args[i];
      if arg == "--template" && HasValue(args, i) {
        PostDirKept(args, i + 2, o.(template := Lower(args[i + 1])));
      } else if arg == "--format" && HasValue(args, i) {
        PostDirKept(args, i + 2, o.(format := Lower(args[i + 1])));
      } else if arg == "--output" && HasValue(args, i) {
        PostDirKept(args, i + 2, o.(outputDir := args[i + 1]));
      } else {
        PostDirKept(args, i + 1, o);
      }
    }
  }

  /** The directory is the one given at the start, or an argument that does not
      start with `--`. */
  lemma {:induction false} PostDirIsPositional(args: seq<string>, i: nat, o: Options)
    requires i <= |args|
    ensures var r := ParseFrom(args, i, o).postDir;
            r == o.postDir || exists k | i <= k < |args| :: r == Some(args[k]) && !StartsWith(args[k], "--")
    decreases |args| - i
  {
    if i < |args| {
      var arg := args[i];
      if arg == "--template" && HasValue(args, i) {
        PostDirIsPositional(args, i + 2, o.(template := Lower(args[i + 1])));
      } else if arg == "--format" && HasValue(args, i) {
        PostDirIsPositional(args, i + 2, o.(format := Lower(args[i + 1])));
      } else if arg == "--output" && HasValue(args, i) {
        PostDirIsPositional(args, i + 2, o.(outputDir := args[i + 1]));
      } else if !StartsWith(arg, "--") && !Truthy(o.postDir) {
        PostDirIsPositional(args, i + 1, o.(postDir := Some(arg)));
      } else {
        PostDirIsPositional(args, i + 1, o);
      }
    }
  }

  /** The template is the one given at the start, or the lower-cased argument
      after some `--template`. */
  lemma {:induction false} TemplateFromFlag(args: seq<string>, i: nat, o: Options)
    requires i <= |args|
    ensures var r := ParseFrom(args, i, o).template;
            || r == o.template
            || exists k | i <= k && k + 1 < |args| :: args[k] == "--template" && args[k + 1] != "" && r == Lower(args[k + 1])
    decreases |args| - i
  {
    if i < |args| {
      var arg := args[i];
      if arg == "--template" && HasValue(args, i) {
        TemplateFromFlag(args, i + 2, o.(template := Lower(args[i + 1])));
      } else if arg == "--format" && HasValue(args, i) {
        TemplateFromFlag(args, i + 2, o.(format := Lower(args[i + 1])));
      } else if arg == "--output" && HasValue(args, i) {
        TemplateFromFlag(args, i + 2, o.(outputDir := args[i + 1]));
      } else if !StartsWith(arg, "--") && !Truthy(o.postDir) {
        TemplateFromFlag(args, i + 1, o.(postDir := Some(arg)));
      } else {
        TemplateFromFlag(args, i + 1, o);
      }
    }
  }

  /** A template given on the command line is in lower case. */
  lemma TemplateIsLower(args: seq<string>, o: Options)
    ensures var r := ParseFrom(args, 0, o).template; r == o.template || IsLower(r)
  {
    TemplateFromFlag(args, 0, o);
    var r := ParseFrom(args, 0, o).template;
    if r != o.template {
      var k :| 0 <= k && k + 1 < |args| && args[k] == "--template" && args[k + 1] != "" && r == Lower(args[k + 1]);
      LowerIsLower(args[k + 1]);
    }
  }

  /** The output directory is the one given at the start, or the argument after
      some `--output`, kept as written. */
  lemma {:induction false} OutputFromFlag(args: seq<string>, i: nat, o: Options)
    requires i <= |args|
    ensures var r := ParseFrom(args, i, o).outputDir;
            || r == o.outputDir
            || exists k | i <= k && k + 1 < |args| :: args[k] == "--output" && r == args[k + 1] != ""
    decreases |args| - i
  {
    if i < |args| {
      var arg := args[i];
      if arg == "--template" && HasValue(args, i) {
        OutputFromFlag(args, i + 2, o.(template := Lower(args[i + 1])));
      } else if arg == "--format" && HasValue(args, i) {
        OutputFromFlag(args, i + 2, o.(format := Lower(args[i + 1])));
      } else if arg == "--output" && HasValue(args, i) {
        OutputFromFlag(args, i + 2, o.(outputDir := args[i + 1]));
      } else if !StartsWith(arg, "--") && !Truthy(o.postDir) {
        OutputFromFlag(args, i + 1, o.(postDir := Some(arg)));
      } else {
        OutputFromFlag(args, i + 1, o);
      }
    }
  }

  /** Without arguments every option keeps its configured default. */
  lemma NoArgumentsGiveDefaults()
    ensures ParseFrom([], 0, InitialOptions(SiteDefaults)) == Options(None, "gen-random", "both", "scripts/cover-generator/output")
  {
  }

  /** A flag takes the next argument even when that one looks like a flag: the
      template becomes `--format`, and `blog` is then the directory. */
  lemma FlagValueMayLookLikeFlag(d: Defaults)
    ensures ParseFrom(["--template", "--format", "blog"], 0, InitialOptions(d)) ==
              Options(Some("blog"), "--format", d.format, d.outputDir)
  {
    var args := ["--template", "--format", "blog"];
    assert "blog"[..2] == "bl";
    assert ParseFrom(args, 0, InitialOptions(d)) == ParseFrom(args, 2, InitialOptions(d).(template := Lower("--format")));
  }

  /** An empty value is not taken: the flag is skipped, the empty string becomes the
      (falsy) directory, and the next positional replaces it. */
  lemma EmptyValueSkipped(d: Defaults)
    ensures ParseFrom(["--template", "", "posts/a"], 0, InitialOptions(d)) ==
              Options(Some("posts/a"), d.template, d.format, d.outputDir)
  {
    var args := ["--template", "", "posts/a"];
    assert StartsWith("--template", "--");
    assert "posts/a"[..2] == "po";
    assert ParseFrom(args, 1, InitialOptions(d)) == ParseFrom(args, 2, InitialOptions(d).(postDir := Some("")));
  }

  /** Template and format are lower-cased, the output directory is not, and a second
      positional is ignored. */
  lemma FlagsAndPositionals(d: Defaults)
    ensures ParseFrom(["posts/a", "--template", "DARK", "--output", "Out", "posts/b", "--format", "Blog"], 0, InitialOptions(d)) ==
              Options(Some("posts/a"), "dark", "blog", "Out")
  {
    var args := ["posts/a", "--template", "DARK", "--output", "Out", "posts/b", "--format", "Blog"];
    var o1 := InitialOptions(d).(postDir := Some("posts/a"));
    var o3 := o1.(template := "dark");
    var o5 := o3.(outputDir := "Out");
    LowerDarkBlog();
    assert "posts/a"[..2] == "po" && "posts/b"[..2] == "po";
    assert ParseFrom(args, 0, InitialOptions(d)) == ParseFrom(args, 1, o1);
    assert ParseFrom(args, 1, o1) == ParseFrom(args, 3, o3);
    assert ParseFrom(args, 3, o3) == ParseFrom(args, 5, o5);
    SecondPositionalIgnored(args, o5);
  }

  /** The tail of the example above: the second positional is skipped and the format
      is lower-cased. */
  lemma SecondPositionalIgnored(args: seq<string>, o: Options)
    requires args == ["posts/a", "--template", "DARK", "--output", "Out", "posts/b", "--format", "Blog"]
    requires o.postDir == Some("posts/a")
    ensures ParseFrom(args, 5, o) == o.(format := "blog")
  {
    LowerDarkBlog();
    assert "posts/b"[..2] == "po";
    assert ParseFrom(args, 5, o) == ParseFrom(args, 6, o);
    assert ParseFrom(args, 6, o) == ParseFrom(args, 8, o.(format := "blog"));
  }

  lemma LowerDarkBlog()
    ensures Lower("DARK") == "dark" && Lower("Blog") == "blog"
  {
  }

  // ---------------------------------------------------------------------------
  // The pure decisions of generateCover

  /** `formatOption === 'both' ? ['linkedin', 'blog'] : [formatOption]` */
  function Formats(format: string): (r: seq<string>)
    ensures 1 <= |r| <= 2
    ensures |r| == 2 <==> format == "both"
  {
    if format == "both" then ["linkedin", "blog"] else [format]
  }

  /** The viewport: 1200 by 627 for LinkedIn, 1280 by 720 for anything else. */
  function Dimensions(format: string): (nat, nat)
  {
    if format == "linkedin" then (1200, 627) else (1280, 720)
  }

  /** `<slug>-linkedin.png` for LinkedIn, `<slug>-blog.png` for anything else. */
  function FileName(slug: string, format: string): string
  {
    if format == "linkedin" then slug + "-linkedin.png" else slug + "-blog.png"
  }

  /** Two formats get the same file exactly when they get the same viewport: only
      `linkedin` is told apart, every other format is treated as the blog one. */
  lemma FormatsShareFileIffSameSize(slug: string, f: string, g: string)
    ensures FileName(slug, f) == FileName(slug, g) <==> Dimensions(f) == Dimensions(g)
    ensures Dimensions(f) == Dimensions(g) <==> (f == "linkedin" <==> g == "linkedin")
  {
    if f == "linkedin" && g != "linkedin" {
      assert FileName(slug, f)[|slug|..] == "-linkedin.png";
      assert FileName(slug, g)[|slug|..] == "-blog.png";
    }
    if g == "linkedin" && f != "linkedin" {
      assert FileName(slug, g)[|slug|..] == "-linkedin.png";
      assert FileName(slug, f)[|slug|..] == "-blog.png";
    }
  }

  /** `both` makes two different files, the LinkedIn one first. */
  lemma BothMakesTwoFiles(slug: string)
    ensures var fs := Formats("both");
            && Dimensions(fs[0]) == (1200, 627) && Dimensions(fs[1]) == (1280, 720)
            && FileName(slug, fs[0]) == slug + "-linkedin.png" && FileName(slug, fs[1]) == slug + "-blog.png"
            && FileName(slug, fs[0]) != FileName(slug, fs[1])
  {
    FormatsShareFileIffSameSize(slug, "linkedin", "blog");
  }

  /** `path.basename` of a POSIX path: what follows the last `/` once trailing `/`s
      are dropped. */
  function Basename(p: string): (r: string)
    ensures '/' !in r
  {
    var t := DropTrailingSlashes(p);
    var parts := Split(t, '/');
    parts[|parts| - 1]
  }

  function DropTrailingSlashes(p: string): (r: string)
    ensures |r| <= |p| && r == p[..|r|]
    ensures r == [] || r[|r| - 1] != '/'
    ensures forall k | |r| <= k < |p| :: p[k] == '/'
  {
    if |p| > 0 && p[|p| - 1] == '/' then DropTrailingSlashes(p[..|p| - 1]) else p
  }

  /** Slashes at the end make no difference. */
  lemma {:induction false} DropSlashesOf(q: string, n: nat)
    requires q == [] || q[|q| - 1] != '/'
    ensures DropTrailingSlashes(q + seq(n, _ => '/')) == q
  {
    if n == 0 {
      assert q + seq(n, _ => '/') == q;
    } else {
      var p := q + seq(n, _ => '/');
      assert p[|p| - 1] == '/';
      assert p[..|p| - 1] == q + seq(n - 1, _ => '/');
      DropSlashesOf(q, n - 1);
    }
  }

  /** The slug is the last directory name of the post's path. */
  lemma BasenameOfPath(dir: string, name: string, slashes: nat)
    requires name != [] && '/' !in name
    ensures Basename(dir + "/" + name + seq(slashes, _ => '/')) == name
  {
    var q := dir + "/" + name;
    assert q[|q| - 1] == name[|name| - 1];
    DropSlashesOf(q, slashes);
    var parts := Split(dir, '/');
    SplitJoin(parts + [name], '/');
    JoinSplit(dir, '/');
    JoinAppend(parts, name, "/");
    assert Split(q, '/') == parts + [name];
  }

  predicate IsQuote(c: char)
  {
    c == '"' || c == '\''
  }

  /** `replace(/^["']|["']$/g, '')`: one quote at the start and one at the end go. */
  function StripQuotes(t: string): (r: string)
    ensures |t| - 2 <= |r| <= |t|
  {
    var a := if |t| > 0 && IsQuote(t[0]) then t[1..] else t;
    if |a| > 0 && IsQuote(a[|a| - 1]) then a[..|a| - 1] else a
  }

  /** The title as the generator receives it: quotes stripped, then trimmed. */
  function CleanTitle(t: string): string
  {
    Trim(StripQuotes(t))
  }

  /** A quote on each side is removed, whatever the two quotes are, and only one on
      each side. */
  lemma StripQuotePair(q1: char, s: string, q2: char)
    requires IsQuote(q1) && IsQuote(q2)
    ensures StripQuotes([q1] + s + [q2]) == s
  {
    var t := [q1] + s + [q2];
    assert t[1..] == s + [q2];
    assert (s + [q2])[..|s|] == s;
  }

  /** A title without a quote at either end is left alone. */
  lemma StripQuotesUnquoted(s: string)
    requires s == [] || (!IsQuote(s[0]) && !IsQuote(s[|s| - 1]))
    ensures StripQuotes(s) == s
  {
  }

  /** A quote on one side only is removed too; a lone quote leaves nothing. */
  lemma StripOneSidedQuote(q: char, s: string)
    requires IsQuote(q) && (s == [] || (!IsQuote(s[0]) && !IsQuote(s[|s| - 1])))
    ensures StripQuotes([q] + s) == s
    ensures StripQuotes(s + [q]) == s
  {
    assert ([q] + s)[1..] == s;
    assert (s + [q])[..|s|] == s;
  }

  /** Quotes are stripped before trimming, so a quote behind a leading space stays. */
  lemma QuoteBehindSpaceStays()
    ensures CleanTitle(" \"Kafka\"") == "\"Kafka"
  {
    var t := " \"Kafka\"";
    assert StripQuotes(t) == t[..|t| - 1];
    assert t[..|t| - 1] == " \"Kafka";
  }

  /** `!frontMatter.title`: absent, or the empty string; any list, even an empty
      one, is truthy. */
  predicate TitleGiven(v: Option<FrontMatter.Value>)
  {
    v.Some? && (v.value.List? || v.value.text != "")
  }

  /** How a label prints in the template: `undefined` when the entry has none. */
  function LabelOrUndefined(l: Option<string>): string
  {
    if l.Some? then l.value else "undefined"
  }

  /** The object handed to the generator. */
  function CoverData(title: string, e: Entry, config: Config, readTime: nat): (d: RenderData)
  {
    RenderData(CleanTitle(title), LabelOrUndefined(e.labelText), e.icon, e.colors, config.brand, config.social, readTime)
  }

  /** One screenshot: the file name, the viewport and the page shown in it. */
  datatype Cover = Cover(fileName: string, width: nat, height: nat, html: string)

  function MakeCover(g: Generator, d: RenderData, slug: string, format: string): Cover
  {
    var (w, h) := Dimensions(format);
    Cover(FileName(slug, format), w, h, Render(g, d, w, h))
  }

  /** Why `generateCover` stops: an unknown template, no `index.md`, a front matter
      whose list is not JSON, no title, a category failure, or a title that is a
      list (its `replace` is not a function). */
  datatype CoverError =
    | TemplateNotFound(name: string)
    | IndexMissing
    | FrontMatterInvalid
    | NoTitle
    | CategoryFailed(reason: Categories.CategoryError)
    | TitleIsList

  /** Everything `generateCover` settles before its loop over the formats: the
      generator and the data it is given, or the reason it stops. */
  function Prepared(postDir: string, template: string, content: Option<string>,
                    config: Config, registry: map<string, TemplateRegistry.Registered>): Result<(Generator, RenderData), CoverError>
  {
    if template !in registry then Err(TemplateNotFound(template))
    else if content.None? then Err(IndexMissing)
    else
      match FrontMatter.Parsed(content.value)
      case Err(_) => Err(FrontMatterInvalid)
      case Ok(fm) =>
        if !TitleGiven(Categories.Field(fm, "title")) then Err(NoTitle)
        else
          match Categories.Resolve(fm, postDir, config)
          case Err(e) => Err(CategoryFailed(e))
          case Ok(entry) =>
            // the `replace` of the loop's first round throws for a list
            if fm["title"].List? then Err(TitleIsList)
            else Ok((registry[template].generate,
                     CoverData(fm["title"].text, entry, config, FrontMatter.EstimateReadingTime(content.value))))
  }

  /** The covers of the loop over the formats, in order. */
  function CoverList(g: Generator, d: RenderData, slug: string, formats: seq<string>): seq<Cover>
  {
    seq(|formats|, k requires 0 <= k < |formats| => MakeCover(g, d, slug, formats[k]))
  }

  /** `generateCover`, with the file's text given (`None`: there is no `index.md`)
      and the registry and configuration as parameters. */
  function Covers(postDir: string, template: string, format: string, content: Option<string>,
                  config: Config, registry: map<string, TemplateRegistry.Registered>): Result<seq<Cover>, CoverError>
  {
    match Prepared(postDir, template, content, config, registry)
    case Err(e) => Err(e)
    case Ok(p) => Ok(CoverList(p.0, p.1, Basename(postDir), Formats(format)))
  }

  /** The order of the checks: the template is looked up first, the title checked
      before the category, and each failure is reported as such. */
  lemma CoversFailures(postDir: string, template: string, format: string, content: Option<string>,
                       config: Config, registry: map<string, TemplateRegistry.Registered>)
    ensures var r := Covers(postDir, template, format, content, config, registry);
            && (r == Err(TemplateNotFound(template)) <==> template !in registry)
            && (r == Err(IndexMissing) <==> template in registry && content.None?)
            && (r == Err(FrontMatterInvalid) <==> template in registry && content.Some? && FrontMatter.Parsed(content.value).Err?)
            && (r == Err(NoTitle) <==>
                  template in registry && content.Some? && FrontMatter.Parsed(content.value).Ok?
                  && !TitleGiven(Categories.Field(FrontMatter.Parsed(content.value).value, "title")))
  {
  }

  /** A title that is a list never gets rendered. */
  lemma ListTitleFails(postDir: string, template: string, format: string, content: string,
                       config: Config, registry: map<string, TemplateRegistry.Registered>)
    requires "default" in config.categories
    requires FrontMatter.Parsed(content).Ok?
    requires var fm := FrontMatter.Parsed(content).value; "title" in fm && fm["title"].List?
    ensures Covers(postDir, template, format, Some(content), config, registry).Err?
  {
  }

  /** On success the chosen generator is given the cleaned title, the resolved
      entry's label, icon and colours, the configured brand and links, and the
      reading time of the whole file. */
  lemma PreparedData(postDir: string, template: string, content: string,
                     config: Config, registry: map<string, TemplateRegistry.Registered>)
    requires Prepared(postDir, template, Some(content), config, registry).Ok?
    ensures var fm := FrontMatter.Parsed(content).value;
            var entry := Categories.Resolve(fm, postDir, config).value;
            var (g, d) := Prepared(postDir, template, Some(content), config, registry).value;
            && template in registry && g == registry[template].generate
            && "title" in fm && fm["title"].Str?
            && d.title == CleanTitle(fm["title"].text)
            && d.categoryLabel == LabelOrUndefined(entry.labelText)
            && d.icon == entry.icon && d.colors == entry.colors
            && d.brand == config.brand && d.social == config.social
            && d.readTime == FrontMatter.EstimateReadingTime(content)
  {
  }

  /** One cover per format, in order, each with its format's viewport and file
      name and the page the generator renders at that size. */
  lemma CoverListShape(g: Generator, d: RenderData, slug: string, formats: seq<string>)
    ensures |CoverList(g, d, slug, formats)| == |formats|
    ensures forall k | 0 <= k < |formats| ::
              var c := CoverList(g, d, slug, formats)[k];
              && (c.width, c.height) == Dimensions(formats[k])
              && c.fileName == FileName(slug, formats[k])
              && c.html == Render(g, d, c.width, c.height)
  {
  }

  /** `generateCover` up to its loop over the formats. */
  method Prepare(postDir: string, template: string, content: Option<string>,
                 config: Config, registry: map<string, TemplateRegistry.Registered>)
    returns (r: Result<(Generator, RenderData), CoverError>)
    ensures r == Prepared(postDir, template, content, config, registry)
  {
    if template !in registry {
      return Err(TemplateNotFound(template));
    }
    if content.None? {
      return Err(IndexMissing);
    }
    var parsed := FrontMatter.ParseFrontMatter(content.value);
    if parsed.Err? {
      return Err(FrontMatterInvalid);
    }
    var fm := parsed.value;
    if !TitleGiven(Categories.Field(fm, "title")) {
      return Err(NoTitle);
    }
    var cat := Categories.Resolve(fm, postDir, config);
    if cat.Err? {
      return Err(CategoryFailed(cat.error));
    }
    var readTime := FrontMatter.EstimateReadingTime(content.value);
    if fm["title"].List? {
      return Err(TitleIsList);
    }
    return Ok((registry[template].generate, CoverData(fm["title"].text, cat.value, config, readTime)));
  }

  /** The loop over the formats: one cover per format, in order. */
  method RenderCovers(g: Generator, d: RenderData, slug: string, formats: seq<string>) returns (covers: seq<Cover>)
    ensures covers == CoverList(g, d, slug, formats)
  {
    covers := [];
    for k := 0 to |formats|
      invariant covers == CoverList(g, d, slug, formats[..k])
    {
      CoverListStep(g, d, slug, formats, k);
      covers := covers + [MakeCover(g, d, slug, formats[k])];
    }
    assert formats[..|formats|] == formats;
  }

  lemma CoverListStep(g: Generator, d: RenderData, slug: string, formats: seq<string>, k: nat)
    requires k < |formats|
    ensures CoverList(g, d, slug, formats[..k + 1]) == CoverList(g, d, slug, formats[..k]) + [MakeCover(g, d, slug, formats[k])]
  {
    assert formats[..k + 1] == formats[..k] + [formats[k]];
    CoverListSnoc(g, d, slug, formats[..k], formats[k]);
  }

  lemma CoverListSnoc(g: Generator, d: RenderData, slug: string, formats: seq<string>, f: string)
    ensures CoverList(g, d, slug, formats + [f]) == CoverList(g, d, slug, formats) + [MakeCover(g, d, slug, f)]
  {
    var fs := formats + [f];
    assert forall j | 0 <= j < |formats| :: fs[j] == formats[j];
  }

  /** `generateCover(options)`. */
  method GenerateCover(postDir: string, template: string, format: string, content: Option<string>,
                       config: Config, registry: map<string, TemplateRegistry.Registered>)
    returns (r: Result<seq<Cover>, CoverError>)
    ensures r == Covers(postDir, template, format, content, config, registry)
  {
    var p := Prepare(postDir, template, content, config, registry);
    if p.Err? {
      return Err(p.error);
    }
    var covers := RenderCovers(p.value.0, p.value.1, Basename(postDir), Formats(format));
    return Ok(covers);
  }

  /** With the site's registry, every generator but `code` shows the cleaned title on
      each cover. */
  lemma SiteCoversShowTitle(postDir: string, template: string, format: string, content: string, k: nat)
    requires template != "code"
    requires Prepared(postDir, template, Some(content), Site, TemplateRegistry.Registry).Ok?
    requires k < |Formats(format)|
    ensures Includes(Covers(postDir, template, format, Some(content), Site, TemplateRegistry.Registry).value[k].html,
                     CleanTitle(FrontMatter.Parsed(content).value["title"].text))
  {
    PreparedData(postDir, template, content, Site, TemplateRegistry.Registry);
    var (g, d) := Prepared(postDir, template, Some(content), Site, TemplateRegistry.Registry).value;
    var cs := CoverList(g, d, Basename(postDir), Formats(format));
    CoverListShape(g, d, Basename(postDir), Formats(format));
    TemplateRegistry.RenderIncludesTitle(template, d, cs[k].width, cs[k].height);
  }

  /** What running the command does: show the usage when no directory is given, or
      generate the covers for it. */
  datatype Outcome = Usage | Failed(error: CoverError) | Generated(covers: seq<Cover>)

  function Run(args: seq<string>, content: Option<string>): (r: Outcome)
  {
    var o := ParseFrom(args, 0, InitialOptions(Site.defaults));
    if !Truthy(o.postDir) then Usage
    else
      match Covers(o.postDir.value, o.template, o.format, content, Site, TemplateRegistry.Registry)
      case Err(e) => Failed(e)
      case Ok(cs) => Generated(cs)
  }

  /** The configured default template is not registered: a run without `--template`
      fails on the lookup whatever the article. */
  lemma DefaultTemplateFails(dir: string, content: Option<string>)
    requires dir != "" && !StartsWith(dir, "--")
    ensures Run([dir], content) == Failed(TemplateNotFound("gen-random"))
  {
    TemplateRegistry.DefaultTemplateUnregistered();
    assert ParseFrom([dir], 0, InitialOptions(Site.defaults)) == Options(Some(dir), "gen-random", "both", Site.defaults.outputDir);
  }

  /** A run with no directory argument only shows the usage. */
  lemma NoDirectoryShowsUsage(args: seq<string>, content: Option<string>)
    requires forall k | 0 <= k < |args| :: StartsWith(args[k], "--") || args[k] == ""
    ensures Run(args, content) == Usage
  {
    PostDirIsPositional(args, 0, InitialOptions(Site.defaults));
  }
}
