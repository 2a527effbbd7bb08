/** The category resolver (lib/categories.js): picks the colours, icon and label of a
    cover from the article's directory, its tags, its title and its categories, in
    that order of priority, falling back to the `default` entry. */
module Categories {
  import opened Wrappers
  import opened JsString
  import opened SiteConfig
  import FrontMatter

  /** Why no entry can be given: the title is a list (its `toLowerCase` is not a
      function), or the table has no `default` entry to fall back to. */
  datatype CategoryError = TitleNotText | NoDefaultEntry

  /** What `for (const t of v || [])` visits: nothing for an absent or empty value,
      the characters of a text value one by one, the items of a list. */
  function Terms(v: Option<FrontMatter.Value>): (r: seq<string>)
    ensures v.Some? && v.value.Str? ==> |r| == |v.value.text| && forall i | 0 <= i < |r| :: r[i] == [v.value.text[i]]
    ensures v.Some? && v.value.List? ==> r == v.value.items
    ensures v.None? ==> r == []
  {
    match v
    case None => []
    case Some(Str(s)) => seq(|s|, i requires 0 <= i < |s| => [s[i]])
    case Some(List(items)) => items
  }

  /** The first position of `x` in `parts` (`indexOf`). */
  function IndexOf(parts: seq<string>, x: string): (r: Option<nat>)
    ensures r.Some? ==> r.value < |parts| && parts[r.value] == x && forall j | 0 <= j < r.value :: parts[j] != x
    ensures r.None? ==> forall j | 0 <= j < |parts| :: parts[j] != x
  {
    if parts == [] then None
    else if parts[0] == x then Some(0)
    else
      match IndexOf(parts[1..], x)
      case None => None
      case Some(i) => Some(i + 1)
  }

  /** The lower-cased directory name after the first `posts` segment, if there is one. */
  function SeriesFromPath(postDir: string): Option<string>
  {
    var parts := Split(postDir, '/');
    match IndexOf(parts, "posts")
    case None => None
    case Some(i) => if i + 1 < |parts| then Some(Lower(parts[i + 1])) else None
  }

  /** The slug with its first letter in upper case. */
  function Capitalize(s: string): (r: string)
    ensures |r| == |s| && (s != [] ==> r[0] == UpperChar(s[0]) && r[1..] == s[1..])
  {
    if s == [] then [] else [UpperChar(s[0])] + s[1..]
  }

  /** Priority 1: the series directory names an entry; its label, or else the
      capitalised slug. */
  function PathTier(postDir: string, cats: map<string, Entry>): Option<Entry>
  {
    match SeriesFromPath(postDir)
    case None => None
    case Some(slug) =>
      if slug == [] || slug !in cats then None
      else
        var e := cats[slug];
        var name := if e.labelText.Some? && e.labelText.value != [] then e.labelText.value else Capitalize(slug);
        Some(Entry(e.colors, e.icon, Some(name)))
  }

  /** The entry of the first term whose lower-case form is a key (priorities 2 and 4). */
  function FirstTermMatch(terms: seq<string>, cats: map<string, Entry>): (r: Option<Entry>)
    ensures r.Some? ==> exists i | 0 <= i < |terms| ::
                          && Lower(terms[i]) in cats && r.value == cats[Lower(terms[i])]
                          && forall j | 0 <= j < i :: Lower(terms[j]) !in cats
    ensures r.None? ==> forall i | 0 <= i < |terms| :: Lower(terms[i]) !in cats
  {
    if terms == [] then None
    else if Lower(terms[0]) in cats then
      Some(cats[Lower(terms[0])])
    else
      var r := FirstTermMatch(terms[1..], cats);
      assert forall i | 0 <= i < |terms| - 1 :: terms[1..][i] == terms[i + 1];
      r
  }

  /** The lower-cased title, or the empty text when there is none. */
  function TitleText(title: Option<FrontMatter.Value>): Result<string, CategoryError>
  {
    match title
    case None => Ok("")
    case Some(Str(t)) => Ok(Lower(t))
    case Some(List(_)) => Err(TitleNotText)
  }

  /** Priority 3: the entry of the first keyword, in table order, that occurs in the
      title and whose target is a key. */
  function KeywordMatch(title: string, keywords: seq<(string, string)>, cats: map<string, Entry>): (r: Option<Entry>)
    ensures r.Some? ==> exists i | 0 <= i < |keywords| ::
                          && Includes(title, keywords[i].0) && keywords[i].1 in cats && r.value == cats[keywords[i].1]
                          && forall j | 0 <= j < i :: !(Includes(title, keywords[j].0) && keywords[j].1 in cats)
    ensures r.None? ==> forall i | 0 <= i < |keywords| :: !(Includes(title, keywords[i].0) && keywords[i].1 in cats)
  {
    if keywords == [] then None
    else if Includes(title, keywords[0].0) && keywords[0].1 in cats then
      Some(cats[keywords[0].1])
    else
      var r := KeywordMatch(title, keywords[1..], cats);
      assert forall i | 0 <= i < |keywords| - 1 :: keywords[1..][i] == keywords[i + 1];
      r
  }

  function Field(fm: map<string, FrontMatter.Value>, k: string): Option<FrontMatter.Value>
  {
    if k in fm then Some(fm[k]) else None
  }

  /** `getCategoryConfig`. */
  function Resolve(fm: map<string, FrontMatter.Value>, postDir: string, config: Config): Result<Entry, CategoryError>
  {
    var cats := config.categories;
    match PathTier(postDir, cats)
    case Some(e) => Ok(e)
    case None =>
      match FirstTermMatch(Terms(Field(fm, "tags")), cats)
      case Some(e) => Ok(e)
      case None =>
        match TitleText(Field(fm, "title"))
        case Err(err) => Err(err)
        case Ok(title) =>
          match KeywordMatch(title, config.titleKeywords, cats)
          case Some(e) => Ok(e)
          case None =>
            match FirstTermMatch(Terms(Field(fm, "categories")), cats)
            case Some(e) => Ok(e)
            case None => if "default" in cats then Ok(cats["default"]) else Err(NoDefaultEntry)
  }

  // ---------------------------------------------------------------------------
  // The directory

  /** The directory name after the first `posts` segment of a path is the series. */
  lemma SeriesAfterPosts(pre: seq<string>, slug: string, rest: seq<string>)
    requires forall i | 0 <= i < |pre| :: pre[i] != "posts" && '/' !in pre[i]
    requires '/' !in slug && forall i | 0 <= i < |rest| :: '/' !in rest[i]
    ensures SeriesFromPath(Join(pre + ["posts", slug] + rest, "/")) == Some(Lower(slug))
  {
    var parts := pre + ["posts", slug] + rest;
    SplitOfParts(pre, slug, rest);
    IndexOfPosts(pre, slug, rest);
    assert parts[|pre| + 1] == slug;
    SeriesOfParts(Join(parts, "/"), parts, |pre|);
  }

  lemma SplitOfParts(pre: seq<string>, slug: string, rest: seq<string>)
    requires forall i | 0 <= i < |pre| :: '/' !in pre[i]
    requires '/' !in slug && forall i | 0 <= i < |rest| :: '/' !in rest[i]
    ensures Split(Join(pre + ["posts", slug] + rest, "/"), '/') == pre + ["posts", slug] + rest
  {
    NoSeparatorInParts(pre, slug, rest);
    SplitJoin(pre + ["posts", slug] + rest, '/');
  }

  lemma IndexOfPosts(pre: seq<string>, slug: string, rest: seq<string>)
    requires forall i | 0 <= i < |pre| :: pre[i] != "posts"
    ensures IndexOf(pre + ["posts", slug] + rest, "posts") == Some(|pre|)
  {
    assert pre + ["posts", slug] + rest == pre + ["posts"] + ([slug] + rest);
    IndexOfAfter(pre, "posts", [slug] + rest);
  }

  lemma SeriesOfParts(postDir: string, parts: seq<string>, i: nat)
    requires Split(postDir, '/') == parts && IndexOf(parts, "posts") == Some(i) && i + 1 < |parts|
    ensures SeriesFromPath(postDir) == Some(Lower(parts[i + 1]))
  {
  }

  lemma NoSeparatorInParts(pre: seq<string>, slug: string, rest: seq<string>)
    requires forall i | 0 <= i < |pre| :: '/' !in pre[i]
    requires '/' !in slug && forall i | 0 <= i < |rest| :: '/' !in rest[i]
    ensures var parts := pre + ["posts", slug] + rest; forall i | 0 <= i < |parts| :: '/' !in parts[i]
  {
    var parts := pre + ["posts", slug] + rest;
    forall i | 0 <= i < |parts| ensures '/' !in parts[i] {
      if i < |pre| {
        assert parts[i] == pre[i];
      } else if i >= |pre| + 2 {
        assert parts[i] == rest[i - |pre| - 2];
      }
    }
  }

  lemma {:induction false} IndexOfAfter(pre: seq<string>, x: string, tail: seq<string>)
    requires forall i | 0 <= i < |pre| :: pre[i] != x
    ensures IndexOf(pre + [x] + tail, x) == Some(|pre|)
  {
    if pre != [] {
      assert (pre + [x] + tail)[1..] == pre[1..] + [x] + tail;
      IndexOfAfter(pre[1..], x, tail);
    }
  }

  /** A path without a `posts` segment has no series. */
  lemma NoPostsNoSeries(postDir: string)
    requires forall i | 0 <= i < |Split(postDir, '/')| :: Split(postDir, '/')[i] != "posts"
    ensures SeriesFromPath(postDir) == None
  {
  }

  // ---------------------------------------------------------------------------
  // First matches

  /** The first matching term decides. */
  lemma {:induction false} FirstTermMatchAt(terms: seq<string>, cats: map<string, Entry>, i: nat)
    requires i < |terms| && Lower(terms[i]) in cats
    requires forall j | 0 <= j < i :: Lower(terms[j]) !in cats
    ensures FirstTermMatch(terms, cats) == Some(cats[Lower(terms[i])])
  {
    if i > 0 {
      assert terms[1..][i - 1] == terms[i];
      assert forall j | 0 <= j < i - 1 :: terms[1..][j] == terms[j + 1];
      FirstTermMatchAt(terms[1..], cats, i - 1);
    }
  }

  /** The first keyword that occurs in the title and leads to a key decides. */
  lemma {:induction false} KeywordMatchAt(title: string, keywords: seq<(string, string)>, cats: map<string, Entry>, i: nat)
    requires i < |keywords| && Includes(title, keywords[i].0) && keywords[i].1 in cats
    requires forall j | 0 <= j < i :: !(Includes(title, keywords[j].0) && keywords[j].1 in cats)
    ensures KeywordMatch(title, keywords, cats) == Some(cats[keywords[i].1])
  {
    if i > 0 {
      assert keywords[1..][i - 1] == keywords[i];
      assert forall j | 0 <= j < i - 1 :: keywords[1..][j] == keywords[j + 1];
      KeywordMatchAt(title, keywords[1..], cats, i - 1);
    }
  }

  // ---------------------------------------------------------------------------
  // The four tiers

  /** Priority 1: a series directory that names an entry wins over everything else;
      the result has that entry's colours and icon, and its label or else the
      capitalised slug. */
  lemma PathTierWins(fm: map<string, FrontMatter.Value>, postDir: string, config: Config, slug: string)
    requires SeriesFromPath(postDir) == Some(slug) && slug != [] && slug in config.categories
    ensures var e := config.categories[slug];
            var name := if e.labelText.Some? && e.labelText.value != [] then e.labelText.value else Capitalize(slug);
            Resolve(fm, postDir, config) == Ok(Entry(e.colors, e.icon, Some(name)))
  {
  }

  /** Priority 2: without a series entry, the first tag that names an entry decides,
      whatever the title and the categories say. */
  lemma TagTierWins(fm: map<string, FrontMatter.Value>, postDir: string, config: Config, i: nat)
    requires PathTier(postDir, config.categories).None?
    requires var tags := Terms(Field(fm, "tags"));
             && i < |tags| && Lower(tags[i]) in config.categories
             && forall j | 0 <= j < i :: Lower(tags[j]) !in config.categories
    ensures Resolve(fm, postDir, config) == Ok(config.categories[Lower(Terms(Field(fm, "tags"))[i])])
  {
    FirstTermMatchAt(Terms(Field(fm, "tags")), config.categories, i);
  }

  /** Priority 3: without a series or tag match, the first keyword in table order that
      the lower-cased title contains, and whose target is a key, decides. */
  lemma KeywordTierWins(fm: map<string, FrontMatter.Value>, postDir: string, config: Config, title: string, i: nat)
    requires PathTier(postDir, config.categories).None?
    requires FirstTermMatch(Terms(Field(fm, "tags")), config.categories).None?
    requires TitleText(Field(fm, "title")) == Ok(title)
    requires var kw := config.titleKeywords;
             && i < |kw| && Includes(title, kw[i].0) && kw[i].1 in config.categories
             && forall j | 0 <= j < i :: !(Includes(title, kw[j].0) && kw[j].1 in config.categories)
    ensures Resolve(fm, postDir, config) == Ok(config.categories[config.titleKeywords[i].1])
  {
    KeywordMatchAt(title, config.titleKeywords, config.categories, i);
  }

  /** Priority 4: the categories field is consulted last, first match in list order. */
  lemma CategoryTierWins(fm: map<string, FrontMatter.Value>, postDir: string, config: Config, title: string, i: nat)
    requires PathTier(postDir, config.categories).None?
    requires FirstTermMatch(Terms(Field(fm, "tags")), config.categories).None?
    requires TitleText(Field(fm, "title")) == Ok(title)
    requires KeywordMatch(title, config.titleKeywords, config.categories).None?
    requires var cs := Terms(Field(fm, "categories"));
             && i < |cs| && Lower(cs[i]) in config.categories
             && forall j | 0 <= j < i :: Lower(cs[j]) !in config.categories
    ensures Resolve(fm, postDir, config) == Ok(config.categories[Lower(Terms(Field(fm, "categories"))[i])])
  {
    FirstTermMatchAt(Terms(Field(fm, "categories")), config.categories, i);
  }

  /** With no match at all, the `default` entry is the result. */
  lemma DefaultWhenNothingMatches(fm: map<string, FrontMatter.Value>, postDir: string, config: Config, title: string)
    requires PathTier(postDir, config.categories).None?
    requires forall t | t in Terms(Field(fm, "tags")) :: Lower(t) !in config.categories
    requires TitleText(Field(fm, "title")) == Ok(title)
    requires forall i | 0 <= i < |config.titleKeywords| ::
               !(Includes(title, config.titleKeywords[i].0) && config.titleKeywords[i].1 in config.categories)
    requires forall t | t in Terms(Field(fm, "categories")) :: Lower(t) !in config.categories
    ensures "default" in config.categories ==> Resolve(fm, postDir, config) == Ok(config.categories["default"])
    ensures "default" !in config.categories ==> Resolve(fm, postDir, config) == Err(NoDefaultEntry)
  {
  }

  /** A table with a `default` entry always gives an entry, unless the resolver has
      to lower-case a title that is a list. */
  lemma ResolveTotal(fm: map<string, FrontMatter.Value>, postDir: string, config: Config)
    requires "default" in config.categories
    ensures Resolve(fm, postDir, config).Err? <==>
              && PathTier(postDir, config.categories).None?
              && FirstTermMatch(Terms(Field(fm, "tags")), config.categories).None?
              && "title" in fm && fm["title"].List?
    ensures Resolve(fm, postDir, config).Err? ==> Resolve(fm, postDir, config).error == TitleNotText
  {
  }

  // ---------------------------------------------------------------------------
  // With the site's own tables

  /** Every entry of the table has a non-empty label. */
  predicate Labelled(cats: map<string, Entry>)
  {
    forall k | k in cats :: cats[k].labelText.Some? && cats[k].labelText.value != []
  }

  /** In a labelled table a series directory yields its entry unchanged. */
  lemma LabelledSeriesGivesEntry(fm: map<string, FrontMatter.Value>, postDir: string, config: Config, slug: string)
    requires Labelled(config.categories)
    requires SeriesFromPath(postDir) == Some(slug) && slug != [] && slug in config.categories
    ensures Resolve(fm, postDir, config) == Ok(config.categories[slug])
  {
  }

  /** With a labelled table every result is one of the table's entries. */
  lemma LabelledResultIsTableEntry(fm: map<string, FrontMatter.Value>, postDir: string, config: Config)
    requires Labelled(config.categories)
    requires Resolve(fm, postDir, config).Ok?
    ensures exists k | k in config.categories :: Resolve(fm, postDir, config).value == config.categories[k]
  {
    var cats := config.categories;
    var slug := SeriesFromPath(postDir);
    if slug.Some? && slug.value != [] && slug.value in cats {
      LabelledSeriesGivesEntry(fm, postDir, config, slug.value);
    } else {
      var tags := FirstTermMatch(Terms(Field(fm, "tags")), cats);
      if tags.None? {
        var title := TitleText(Field(fm, "title"));
        if KeywordMatch(title.value, config.titleKeywords, cats).None? &&
           FirstTermMatch(Terms(Field(fm, "categories")), cats).None? {
          assert Resolve(fm, postDir, config).value == cats["default"];
        }
      }
    }
  }

  /** When no key is a single character, a text value (visited character by
      character) never matches. */
  lemma TextTermsNeverMatch(s: string, cats: map<string, Entry>)
    requires forall k | k in cats :: |k| >= 2
    ensures FirstTermMatch(Terms(Some(FrontMatter.Str(s))), cats).None?
  {
    var terms := Terms(Some(FrontMatter.Str(s)));
    forall i | 0 <= i < |terms| ensures Lower(terms[i]) !in cats {
      assert |Lower(terms[i])| == 1;
    }
  }

  /** The site's table labels every entry, so a series directory yields its entry
      unchanged: the capitalised-slug fallback never fires. */
  lemma SiteSeriesGivesEntry(fm: map<string, FrontMatter.Value>, postDir: string, slug: string)
    requires SeriesFromPath(postDir) == Some(slug) && slug in Site.categories
    ensures Resolve(fm, postDir, Site) == Ok(Site.categories[slug])
  {
    EntriesWellFormed();
    KeysAreLong();
    LabelledSeriesGivesEntry(fm, postDir, Site, slug);
  }

  /** With the site's tables every result is one of the table's entries. */
  lemma SiteResultIsTableEntry(fm: map<string, FrontMatter.Value>, postDir: string)
    requires Resolve(fm, postDir, Site).Ok?
    ensures exists k | k in Site.categories :: Resolve(fm, postDir, Site).value == Site.categories[k]
  {
    EntriesWellFormed();
    LabelledResultIsTableEntry(fm, postDir, Site);
  }

  /** A text `tags` value is visited character by character, and no key of the site's
      table is a single character: such tags never match. */
  lemma SiteTextTagsNeverMatch(s: string)
    ensures FirstTermMatch(Terms(Some(FrontMatter.Str(s))), Site.categories).None?
  {
    KeysAreLong();
    TextTermsNeverMatch(s, Site.categories);
  }

  /** A title naming both Kafka and Kubernetes resolves to the Kafka entry, because
      `kafka` is the first keyword. */
  lemma KafkaBeforeKubernetes(fm: map<string, FrontMatter.Value>, postDir: string, t: string)
    requires PathTier(postDir, Site.categories).None?
    requires FirstTermMatch(Terms(Field(fm, "tags")), Site.categories).None?
    requires Field(fm, "title") == Some(FrontMatter.Str(t)) && Includes(Lower(t), "kafka")
    ensures Resolve(fm, postDir, Site) == Ok(Site.categories["kafka"])
  {
    KeywordOrder();
    KeywordMatchAt(Lower(t), Site.titleKeywords, Site.categories, 0);
  }

  /** An article under `content/posts/kafka/` gets the Kafka entry, whatever its
      front matter says. */
  lemma KafkaSeriesPath(fm: map<string, FrontMatter.Value>)
    ensures Resolve(fm, "content/posts/kafka/01-intro", Site) ==
              Ok(Entry(["#8B5CF6", "#F59E0B"], "\U{1F4E1}", Some("Kafka Series")))
  {
    KafkaPathSeries();
    KafkaEntry();
    SiteSeriesGivesEntry(fm, "content/posts/kafka/01-intro", "kafka");
  }

  lemma KafkaEntry()
    ensures "kafka" in Site.categories
    ensures Site.categories["kafka"] == Entry(["#8B5CF6", "#F59E0B"], "\U{1F4E1}", Some("Kafka Series"))
  {
  }

  lemma KafkaPathSeries()
    ensures SeriesFromPath("content/posts/kafka/01-intro") == Some("kafka")
  {
    KafkaPathJoined();
    assert '/' !in "content" && '/' !in "kafka" && '/' !in "01-intro";
    SeriesAfterPosts(["content"], "kafka", ["01-intro"]);
    assert Lower("kafka") == "kafka";
  }

  lemma KafkaPathJoined()
    ensures Join(["content"] + ["posts", "kafka"] + ["01-intro"], "/") == "content/posts/kafka/01-intro"
  {
    var parts := ["content", "posts", "kafka", "01-intro"];
    assert ["content"] + ["posts", "kafka"] + ["01-intro"] == parts;
    assert parts[1..][1..][1..] == ["01-intro"];
    assert Join(parts[1..][1..], "/") == "kafka" + "/" + "01-intro";
    assert Join(parts[1..], "/") == "posts" + "/" + ("kafka" + "/" + "01-intro");
    assert Join(parts, "/") == "content" + "/" + ("posts" + "/" + ("kafka" + "/" + "01-intro"));
    assert "kafka" + "/" + "01-intro" == "kafka/01-intro";
    assert "posts" + "/" + "kafka/01-intro" == "posts/kafka/01-intro";
    assert "content" + "/" + "posts/kafka/01-intro" == "content/posts/kafka/01-intro";
  }
}
