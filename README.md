# Cover generator — a Dafny model

This project models the pipeline that turns a blog article into the HTML page of its
cover image. Once the browser and the file system are removed, every stage is
sequential and deterministic:

- **Front matter** (`FrontMatter`, `JsonStrings`). The `---` block at the top of an
  article is read as `key: value` lines. A line that does not start with a key
  continues the current key's value. Bracketed values are replaced by the string
  arrays `JSON.parse` reads from them. The reading time is the whitespace-split
  word count divided by 200 and rounded up.
- **Category resolution** (`Categories` over the tables of `SiteConfig`). The
  colours, icon and label of a cover come from the first match among four tiers,
  in order: the directory after `posts`, the tags, the title keywords, and the
  categories. With no match the `default` entry is used.
- **Templates** (`Templates`, `TemplateBodies`, `TemplateRegistry`).
  - `hexToRgb` and the social footer.
  - The sixteen page generators. Each is written out as the literal text of its
    template, with holes for the title, label, icon, colours, viewport size,
    brand, reading time and footer.
  - The `TEMPLATES` registry.
- **Command-line logic** (`CoverCli`, `BatchCli`).
  - The two argument parsers.
  - What `generateCover` decides before and around rendering: the template lookup,
    the title check, the title clean-up, the formats, the viewport sizes, the file
    names, and the data given to the generator.
  - The batch's per-article command line and its success/failure counters.

`JsString` holds the pieces of JavaScript string behaviour the program relies on:
`\s` and `trim`, `\w`, `split` and `join` on one character, `includes`, and the
decimal printing of numbers. `Wrappers` holds `Option` and `Result`.

Where the source changes state step by step, the model does too:
- `ScanLines` is the key/continuation loop of `parseFrontMatter`.
- `ConvertArrays` is its array pass.
- `RenderSocialFooter` pushes the footer items one by one.
- `ParseArgs` (in both command modules) mutates the options record.
- `RunAll` counts successes and failures.

Each of these methods is proved equal to a specification function. The properties
are then proved about those functions.

Behaviour of the code that this model follows, and that a reader might expect to
work otherwise:
- The reading time is never 0. `"".split(/\s+/)` has one element, so empty
  content reads for one minute.
- A `tags` or `categories` value that is plain text is visited one character at a
  time by `for…of`. No key of the site's table is a single character, so such a
  value never matches.
- A category entry with fewer than two colours does not make rendering fail. The
  missing colour prints as `undefined`, and `hexToRgb` of that gives white.
- No text is escaped before it is interpolated into the markup.
- The configured default template `gen-random` is not a registry id. A run of the
  single-article command without `--template` therefore stops with "template not
  found".
- `---\n---\n` does not match the block pattern, because the closing delimiter
  needs a newline of its own. The result is the empty front matter either way.

## Model

| member | source | states |
|---|---|---|
| `FrontMatter.BlockMatchMeaning` | lib/frontmatter.js:13-15 | the block is found exactly when the text starts with `---`, then whitespace and a newline, followed later by `\n---`, whitespace and a newline |
| `FrontMatter.BlockMatchSound` | lib/frontmatter.js:13 | a found block is the text between an opening newline and the first closing delimiter after it; no later opening newline has a closing delimiter after it (greedy `\s*`, lazy body) |
| `FrontMatter.NoBlockNoFrontMatter` | lib/frontmatter.js:13-15 | content without a block parses to the empty map |
| `FrontMatter.EmptyBlockNotMatched` | lib/frontmatter.js:13 | `---\n---\n` has no block, so it gives the empty map |
| `FrontMatter.KeyMatch` | lib/frontmatter.js:21 | a key line is a non-empty word, a colon, whitespace, then a value that does not start with whitespace and holds no line terminator |
| `FrontMatter.KeyLineRoundTrip` | lib/frontmatter.js:21 | `k:<spaces>v` is read back as key `k` and value `v` |
| `FrontMatter.CarriageReturnValueIsNoKey` | lib/frontmatter.js:21 | a key line ending in `\r` (CRLF files) is not a key line |
| `FrontMatter.ScanLines` | lib/frontmatter.js:16-35 | the line loop stores exactly the section-by-section values: each key line with its continuation lines, joined by `\n` and trimmed, later sections overriding earlier ones |
| `FrontMatter.SectionsIgnoreLeadingLines` | lib/frontmatter.js:28-30 | lines before the first key line change nothing |
| `FrontMatter.KeyStoredIff` | lib/frontmatter.js:22-35 | a key is stored exactly when some line is a key line with that key |
| `FrontMatter.StoreAllLastWins` | lib/frontmatter.js:23-27 | a key repeated in several sections holds the value of its last one |
| `FrontMatter.LastOccurrenceWins` | lib/frontmatter.js:20-35 | the value of a key is that of its last key line: its text after the colon and the continuation lines up to the next key line, joined by newlines and trimmed |
| `FrontMatter.ConvertArrays` | lib/frontmatter.js:37-42 | the loop over the entries, in whatever order it picks them, computes the specification `ConvertAll`: a failure if some bracketed value is not a JSON string array, otherwise every bracketed value replaced by its array and every other value kept as text |
| `FrontMatter.ParseFrontMatter` | lib/frontmatter.js:11-46 | `parseFrontMatter` equals the specification `Parsed`: no block gives the empty map, otherwise the stored values after the array pass |
| `FrontMatter.ParsedKeys` | lib/frontmatter.js:20-35 | after a successful parse, the keys are exactly those of the block's key lines |
| `FrontMatter.ParsedValue` | lib/frontmatter.js:20-42 | after a successful parse, each key holds the value of its last key line; it is a list exactly when that value starts with `[` and ends with `]`, and then it is the array the JSON text spells |
| `FrontMatter.ParsedFailsIff` | lib/frontmatter.js:38-42 | parsing fails exactly when some key's value is bracketed but is not a JSON array of strings |
| `FrontMatter.UnquotedListFails` | lib/frontmatter.js:40 | a value `[a, b]` makes the whole parse fail rather than staying text |
| `FrontMatter.EstimateReadingTime` | lib/frontmatter.js:53-56 | the reading time is at least 1, and it is the least number of minutes whose 200-word blocks cover the word count |
| `FrontMatter.WordCountIsRunsPlusOne` | lib/frontmatter.js:54 | the pieces of `split(/\s+/)` are one more than the maximal whitespace runs |
| `FrontMatter.SplitJoinedWords` | lib/frontmatter.js:54 | words joined by single spaces are split back into the same words |
| `FrontMatter.ReadingTimeOfWords` | lib/frontmatter.js:53-56 | n single-space-separated words read for ceil(n/200) minutes, so 400 words give 2 and one word gives 1 |
| `FrontMatter.LeadingSpaceCountsAsWord` | lib/frontmatter.js:54 | leading whitespace adds an empty first piece |
| `FrontMatter.BlankContentReadsOneMinute` | lib/frontmatter.js:53-56 | empty or all-whitespace content reads for one minute, and non-empty whitespace splits into two empty pieces |
| `JsonStrings.DecodeArray` | lib/frontmatter.js:40 | `JSON.parse` of a bracketed value, read as an array of JSON string literals; `ArrayRoundTrip`, `QuotedPairDecodes` and `UnquotedPairFails` state what it accepts and rejects |
| `JsonStrings.ArrayRoundTrip` | lib/frontmatter.js:40 | the JSON reader gives back every array of strings written as JSON |
| `JsonStrings.QuotedPairDecodes` | lib/frontmatter.js:40 | `["a", "b"]` parses to the two strings `a` and `b` |
| `JsonStrings.UnquotedPairFails` | lib/frontmatter.js:40 | `[a, b]` is not JSON |
| `JsString.TrimIsInfix` | lib/frontmatter.js:24 | `trim` keeps exactly the part between the leading and trailing whitespace |
| `JsString.Lower` | lib/categories.js:42 | lower-casing keeps the length and maps each character |
| `JsString.LowerIsLower` | lib/categories.js:42 | a lower-cased string is lower case, and lower-casing a lower-case string changes nothing |
| `JsString.DecimalRoundTrip` | lib/templates.js:12 | the decimal text of a number reads back as that number |
| `JsString.SplitJoin` | lib/categories.js:23 | splitting pieces joined with a separator they do not contain gives the pieces back |
| `JsString.JoinSplit` | lib/categories.js:23 | joining the pieces of a split with its separator gives the string back |
| `Categories.Terms` | lib/categories.js:18-19 | an absent `tags`/`categories` value visits nothing, a list visits its items, and a text visits its characters one by one |
| `Categories.IndexOf` | lib/categories.js:24 | `indexOf` finds the first position of the segment, or reports that there is none |
| `Categories.SeriesFromPath` | lib/categories.js:23-28 | the series slug of a path, if any; `SeriesAfterPosts` and `NoPostsNoSeries` state its value |
| `Categories.SeriesAfterPosts` | lib/categories.js:23-28 | the series of a path is the lower-cased segment after its first `posts` segment |
| `Categories.Capitalize` | lib/categories.js:36 | the first character is upper-cased and the rest is kept |
| `Categories.NoPostsNoSeries` | lib/categories.js:24-28 | a path without a `posts` segment has no series |
| `Categories.FirstTermMatch` | lib/categories.js:41-46 | the first term, in list order, whose lower-case form is a key gives its entry; there is no result exactly when no term is a key |
| `Categories.KeywordMatch` | lib/categories.js:49-54 | the first keyword, in table order, that the title contains and whose target is a key gives that target's entry; other keywords are skipped |
| `Categories.FirstTermMatchAt` | lib/categories.js:41-46 | the first term that is a key, in list order, gives that key's entry |
| `Categories.KeywordMatchAt` | lib/categories.js:49-54 | the first keyword the title contains whose target is a key gives that target's entry |
| `Categories.PathTier` | lib/categories.js:31-38 | priority 1, the series entry with its label or the capitalised slug; `PathTierWins` states its result |
| `Categories.Resolve` | lib/categories.js:17-65 | `getCategoryConfig`; the tier lemmas `PathTierWins`, `TagTierWins`, `KeywordTierWins`, `CategoryTierWins` and `DefaultWhenNothingMatches`, and `ResolveTotal`, state its result |
| `Categories.PathTierWins` | lib/categories.js:31-38 | when the series names an entry, the result has that entry's colours and icon, and its label or else the capitalised slug, whatever the tags, title and categories say |
| `Categories.TagTierWins` | lib/categories.js:41-46 | without a series entry, the first matching tag decides |
| `Categories.KeywordTierWins` | lib/categories.js:49-54 | without a series or tag match, the first matching title keyword decides |
| `Categories.CategoryTierWins` | lib/categories.js:57-62 | the categories field is used last, first match in list order |
| `Categories.DefaultWhenNothingMatches` | lib/categories.js:64 | with no match the `default` entry is the result, and a table without one gives an error |
| `Categories.ResolveTotal` | lib/categories.js:17-65 | with a `default` entry, resolution fails only when it must lower-case a title that is a list |
| `Categories.LabelledSeriesGivesEntry` | lib/categories.js:31-38 | when every entry has a label, a series entry is returned unchanged |
| `Categories.LabelledResultIsTableEntry` | lib/categories.js:31-64 | when every entry has a label, every result is one of the table's entries |
| `Categories.TextTermsNeverMatch` | lib/categories.js:41-46 | when no key is a single character, a text tag value never matches |
| `Categories.SiteSeriesGivesEntry` | lib/categories.js:31-38 | with the site's table a series entry is returned unchanged; the capitalised-slug fallback never fires |
| `Categories.SiteResultIsTableEntry` | lib/categories.js:17-65 | with the site's table every result is one of its entries |
| `Categories.SiteTextTagsNeverMatch` | lib/categories.js:41 | with the site's table, tags written as plain text never match |
| `Categories.KafkaBeforeKubernetes` | config.js:161-173 | without a path or tag match, a title that contains "kafka" resolves to the Kafka entry, even if it also names Kubernetes |
| `Categories.KafkaSeriesPath` | lib/categories.js:23-38 | `content/posts/kafka/01-intro` resolves to the Kafka entry, whatever the front matter says |
| `SiteConfig.Brand` | config.js:8 | the brand `montelli.dev`, shown first in every footer (`Templates.FooterItemsShape`) |
| `SiteConfig.SiteSocial` | config.js:12-16 | the GitHub, LinkedIn and e-mail handles; `Templates.SiteFooterLinks` states that all three are shown, in that order |
| `SiteConfig.SiteDefaults` | config.js:19-24 | template `gen-random`, format `both` and the output directory; `CoverCli.NoArgumentsGiveDefaults` and `TemplateRegistry.DefaultTemplateUnregistered` state their use |
| `SiteConfig.Categories` | config.js:27-158 | the category table; `DefaultEntry`, `EntriesWellFormed`, `KeysAreLong` and `TablesAreLowerCase` state its properties |
| `SiteConfig.TitleKeywords` | config.js:161-173 | the ordered keyword table; `KeywordOrder` and `KeywordTargetsAreKeys` state its order and targets |
| `SiteConfig.DefaultEntry` | config.js:153-157 | the `default` entry exists, with colours `#475569`/`#94A3B8`, icon 📝 and label `Article` |
| `SiteConfig.EntriesWellFormed` | config.js:27-158 | every category entry has exactly two colours and a non-empty label |
| `SiteConfig.KeywordTargetsAreKeys` | config.js:161-173 | every title keyword leads to a key of the category table |
| `SiteConfig.KeysAreLong` | config.js:27-158 | every category key has at least four characters |
| `SiteConfig.TablesAreLowerCase` | config.js:27-173 | category keys and keywords have no upper-case letters |
| `SiteConfig.KeywordOrder` | config.js:161-173 | there are eleven keywords, `kafka` first and `vue` last |
| `Templates.HexToRgb` | lib/templates.js:9-14 | a colour the pattern rejects gives `255, 255, 255`; an accepted one gives three decimal byte values |
| `Templates.HexDigits` | lib/templates.js:10 | what the pattern accepts yields six hexadecimal digits |
| `Templates.HexToRgbRoundTrip` | lib/templates.js:9-14 | a colour written as `#rrggbb`, or as `rrggbb`, is read back as its three byte values |
| `Templates.HexToRgbIgnoresCase` | lib/templates.js:10 | upper-case and lower-case digits read the same |
| `Templates.HexToRgbRejects` | lib/templates.js:10-13 | 3-digit, 8-digit, empty and `undefined` colours give white |
| `Templates.RenderSocialFooter` | lib/templates.js:29-51 | the footer is the brand, the shown links and the reading time, each wrapped in its outer span, joined with nothing between |
| `Templates.LinkIfShown` | lib/templates.js:37-45 | a link is shown exactly when its field is truthy |
| `Templates.FooterItemsShape` | lib/templates.js:32-48 | the footer has 2 + (number of shown links) items, brand first and reading time last |
| `Templates.FooterWithoutSocial` | lib/templates.js:36 | without social data the footer is only the brand and the reading time |
| `Templates.SiteFooterLinks` | config.js:12-16 | the site's GitHub, LinkedIn and e-mail links are all shown, in that order |
| `Templates.FooterDependsOnlyOnIconColor` | lib/templates.js:30-31 | the theme only chooses the icon fill; the other colour computed is unused |
| `Templates.NonDarkThemesAgree` | lib/templates.js:31 | every theme other than `dark` gives the same footer as `light` |
| `Templates.WrapAllIncludes` | lib/templates.js:50 | every item appears in the footer inside its outer span |
| `Templates.FooterHtml` | lib/templates.js:29-51 | the footer `renderSocialFooter` builds; `FooterItemsShape`, `LinkIfShown`, `FooterWithoutSocial`, `FooterDependsOnlyOnIconColor` and `WrapAllIncludes` state its items |
| `Templates.TruncatedTitle` | lib/templates.js:677 | the code template shows the first 40 characters, then `...` exactly when the title is longer |
| `Templates.Render` | lib/templates.js:55-1718 | what every generator returns: the shared head, the viewport rule and its filled template; `RenderStartsWithViewport` and `RenderIncludesHole` state its shape |
| `Templates.RenderStartsWithViewport` | lib/templates.js:58-64 | every page starts with the shared head and `html, body { width: Wpx; height: Hpx; overflow: hidden; }` for the size it is given |
| `Templates.RenderIncludesHole` | lib/templates.js:55-1718 | whatever a generator interpolates appears in its page |
| `Templates.FillIgnoresIcon` | lib/templates.js:55-1718 | a template without an icon hole does not depend on the icon |
| `Templates.FillIgnoresColors` | lib/templates.js:55-1718 | a template without colour holes does not depend on the colours |
| `Templates.FillUsesFirstColorOnly` | lib/templates.js:55-1718 | a template without second-colour holes depends only on the first colour |
| `Templates.FillUsesTruncatedTitle` | lib/templates.js:677 | a template whose only title hole is the truncated one depends only on the truncated title |
| `Templates.FillIncludesHole` | lib/templates.js:55-1718 | a template's filled text contains the text of each of its holes |
| `TemplateBodies.MinimalHoles` | lib/templates.js:55-129 | the minimal page has one dark footer, the label, and the whole title once |
| `TemplateBodies.DarkHoles` | lib/templates.js:131-224 | the dark page has one dark footer, the label, and the whole title once |
| `TemplateBodies.SplitHoles` | lib/templates.js:226-317 | the split page has one dark footer, the label, and the whole title once |
| `TemplateBodies.GlassHoles` | lib/templates.js:319-398 | the glass page has one dark footer, the label, and the whole title once |
| `TemplateBodies.NeonHoles` | lib/templates.js:400-499 | the neon page has one dark footer, the label, and the whole title once |
| `TemplateBodies.MagazineHoles` | lib/templates.js:501-584 | the magazine page has one light footer, the label, and the whole title once |
| `TemplateBodies.CodeHoles` | lib/templates.js:586-688 | the code page has one dark footer and the label, and shows the title only truncated |
| `TemplateBodies.MeshHoles` | lib/templates.js:690-782 | the mesh page has one dark footer, the label, and the whole title once |
| `TemplateBodies.TerminalHoles` | lib/templates.js:786-899 | the terminal page has one dark footer, the label, and the whole title once |
| `TemplateBodies.PolaroidHoles` | lib/templates.js:901-999 | the polaroid page has one light footer, the label, and the whole title once |
| `TemplateBodies.BlueprintHoles` | lib/templates.js:1001-1132 | the blueprint page has one dark footer, the label, and the whole title once |
| `TemplateBodies.DuotoneHoles` | lib/templates.js:1134-1239 | the duotone page has one dark footer, the label, and the whole title once |
| `TemplateBodies.RetroHoles` | lib/templates.js:1241-1368 | the retro page has one dark footer, the label, and the whole title once |
| `TemplateBodies.WaveHoles` | lib/templates.js:1370-1497 | the wave page has one dark footer, the label, and the whole title once |
| `TemplateBodies.OutlineHoles` | lib/templates.js:1499-1615 | the outline page has one light footer, the label, and the whole title once |
| `TemplateBodies.StackHoles` | lib/templates.js:1617-1718 | the stack page has one dark footer, the label, and the whole title once |
| `TemplateBodies.GlassIgnoresIcon` | lib/templates.js:319-398 | the glass page does not depend on the icon |
| `TemplateBodies.MeshIgnoresColors` | lib/templates.js:690-782 | the mesh page does not depend on the colours |
| `TemplateBodies.MagazineUsesFirstColorOnly` | lib/templates.js:501-584 | the magazine page depends only on the first colour |
| `TemplateBodies.CodeUsesFirstColorOnly` | lib/templates.js:586-688 | the code page depends only on the first colour |
| `TemplateBodies.BlueprintUsesFirstColorOnly` | lib/templates.js:1001-1132 | the blueprint page depends only on the first colour |
| `TemplateBodies.CodeShowsTruncatedTitle` | lib/templates.js:677 | the code page shows the truncated title and depends on nothing else of the title |
| `TemplateBodies.Minimal` | lib/templates.js:55-129 | the text of `generateMinimalTemplate` with its holes; `TemplateBodies.MinimalHoles` states its footer, label and title holes |
| `TemplateBodies.Dark` | lib/templates.js:131-224 | the text of `generateDarkTemplate` with its holes; `TemplateBodies.DarkHoles` states its footer, label and title holes |
| `TemplateBodies.Split` | lib/templates.js:226-317 | the text of `generateSplitTemplate` with its holes; `TemplateBodies.SplitHoles` states its footer, label and title holes |
| `TemplateBodies.Glass` | lib/templates.js:319-398 | the text of `generateGlassTemplate` with its holes; `TemplateBodies.GlassHoles` states its footer, label and title holes |
| `TemplateBodies.Neon` | lib/templates.js:400-499 | the text of `generateNeonTemplate` with its holes; `TemplateBodies.NeonHoles` states its footer, label and title holes |
| `TemplateBodies.Magazine` | lib/templates.js:501-584 | the text of `generateMagazineTemplate` with its holes; `TemplateBodies.MagazineHoles` states its footer, label and title holes |
| `TemplateBodies.Code` | lib/templates.js:586-688 | the text of `generateCodeTemplate` with its holes; `TemplateBodies.CodeHoles` states its footer, label and title holes |
| `TemplateBodies.Mesh` | lib/templates.js:690-782 | the text of `generateMeshTemplate` with its holes; `TemplateBodies.MeshHoles` states its footer, label and title holes |
| `TemplateBodies.Terminal` | lib/templates.js:786-899 | the text of `generateTerminalTemplate` with its holes; `TemplateBodies.TerminalHoles` states its footer, label and title holes |
| `TemplateBodies.Polaroid` | lib/templates.js:901-999 | the text of `generatePolaroidTemplate` with its holes; `TemplateBodies.PolaroidHoles` states its footer, label and title holes |
| `TemplateBodies.Blueprint` | lib/templates.js:1001-1132 | the text of `generateBlueprintTemplate` with its holes; `TemplateBodies.BlueprintHoles` states its footer, label and title holes |
| `TemplateBodies.Duotone` | lib/templates.js:1134-1239 | the text of `generateDuotoneTemplate` with its holes; `TemplateBodies.DuotoneHoles` states its footer, label and title holes |
| `TemplateBodies.Retro` | lib/templates.js:1241-1368 | the text of `generateRetroTemplate` with its holes; `TemplateBodies.RetroHoles` states its footer, label and title holes |
| `TemplateBodies.Wave` | lib/templates.js:1370-1497 | the text of `generateWaveTemplate` with its holes; `TemplateBodies.WaveHoles` states its footer, label and title holes |
| `TemplateBodies.Outline` | lib/templates.js:1499-1615 | the text of `generateOutlineTemplate` with its holes; `TemplateBodies.OutlineHoles` states its footer, label and title holes |
| `TemplateBodies.Stack` | lib/templates.js:1617-1718 | the text of `generateStackTemplate` with its holes; `TemplateBodies.StackHoles` states its footer, label and title holes |
| `TemplateRegistry.Lookup` | lib/templates.js:1722-1739 | an id has an entry exactly when it is one of the sixteen registered ids |
| `TemplateRegistry.RegistryIds` | lib/templates.js:1722-1739 | the registry has sixteen distinct ids, `minimal` to `stack` |
| `TemplateRegistry.DefaultTemplateUnregistered` | config.js:20 | the configured default template `gen-random` is not a registry id |
| `TemplateRegistry.FooterOnce` | lib/templates.js:1722-1739 | every registered generator has one footer, light for magazine, polaroid and outline and dark otherwise, and shows the label |
| `TemplateRegistry.TitleOnce` | lib/templates.js:1722-1739 | every registered generator except `code` has one hole for the whole title |
| `TemplateRegistry.RenderIncludesFooter` | lib/templates.js:1722-1739 | every registered page contains its footer |
| `TemplateRegistry.RenderIncludesTitle` | lib/templates.js:1722-1739 | every registered page except the code one contains the title |
| `TemplateRegistry.RenderShowsLabelAndReadTime` | lib/templates.js:1722-1739 | every registered page contains the category label and the reading-time item |
| `TemplateRegistry.MinimalRegistered` | lib/templates.js:1723 | `minimal` is "Minimal Gradient" with the minimal generator |
| `TemplateRegistry.StackRegistered` | lib/templates.js:1738 | `stack` is "Stack" with the stack generator |
| `TemplateRegistry.Registry` | lib/templates.js:1722-1739 | the `TEMPLATES` literal; `Lookup`, `RegistryIds`, `FooterOnce` and `TitleOnce` state its ids and generators |
| `CoverCli.ParseArgs` | index.js:25-55 | the loop equals the specification `ParseFrom`, starting from the configured defaults |
| `CoverCli.PostDirKept` | index.js:46-48 | once a directory is set, later arguments never replace it |
| `CoverCli.PostDirIsPositional` | index.js:46-51 | the directory is an argument that does not start with `--`, if any |
| `CoverCli.TemplateFromFlag` | index.js:37-39 | the template is the default or the lower-cased value after some `--template` |
| `CoverCli.TemplateIsLower` | index.js:38 | a template given on the command line is in lower case |
| `CoverCli.OutputFromFlag` | index.js:43-45 | the output directory is the default or the value after some `--output`, kept as written |
| `CoverCli.NoArgumentsGiveDefaults` | index.js:26-31 | no arguments give no directory, `gen-random`, `both` and the default output directory |
| `CoverCli.FlagValueMayLookLikeFlag` | index.js:37-39 | a flag takes the next argument even when it starts with `--` |
| `CoverCli.EmptyValueSkipped` | index.js:37-51 | a flag whose value is empty is skipped one step at a time |
| `CoverCli.FlagsAndPositionals` | index.js:37-51 | template and format are lower-cased, output is not, and a second positional is ignored |
| `CoverCli.Formats` | index.js:97-99 | `both` gives two formats and everything else gives one |
| `CoverCli.FormatsShareFileIffSameSize` | index.js:104-106 | two formats share a file name exactly when they share a viewport, and only `linkedin` differs from the rest |
| `CoverCli.BothMakesTwoFiles` | index.js:97-127 | `both` makes `<slug>-linkedin.png` at 1200×627 first, then `<slug>-blog.png` at 1280×720 |
| `CoverCli.Basename` | index.js:96 | the slug holds no `/` |
| `CoverCli.BasenameOfPath` | index.js:96 | the slug is the last directory name of the path, whatever trailing slashes follow |
| `CoverCli.StripQuotes` | index.js:114 | at most one character is removed at each end |
| `CoverCli.StripQuotePair` | index.js:114 | one quote at each end is removed, and the two need not match |
| `CoverCli.StripQuotesUnquoted` | index.js:114 | a title without an outer quote is unchanged |
| `CoverCli.StripOneSidedQuote` | index.js:114 | a quote on one side only is removed too |
| `CoverCli.QuoteBehindSpaceStays` | index.js:114 | quotes are stripped before trimming, so a quote behind a space stays |
| `CoverCli.CoversFailures` | index.js:64-82 | the template is checked first, then `index.md`, then the front matter, then the title, each failure reported before any rendering |
| `CoverCli.ListTitleFails` | index.js:84-114 | a title that is a list never gets rendered |
| `CoverCli.PreparedData` | index.js:112-121 | the generator receives the cleaned title, the entry's label, icon and colours, the brand, the links and the reading time of the whole file |
| `CoverCli.CoverListShape` | index.js:103-135 | one cover per format, in order, each with its viewport, file name and page |
| `CoverCli.Prepare` | index.js:57-99 | computes exactly the specification `Prepared` |
| `CoverCli.RenderCovers` | index.js:103-140 | the loop over the formats produces exactly the covers of `CoverList` |
| `CoverCli.GenerateCover` | index.js:57-144 | `generateCover` equals the specification `Covers` |
| `CoverCli.SiteCoversShowTitle` | index.js:112-121 | with the site's registry, every cover of a template other than `code` shows the cleaned title |
| `CoverCli.DefaultTemplateFails` | index.js:64-68 | a run with only a directory argument fails on the template lookup |
| `CoverCli.NoDirectoryShowsUsage` | index.js:151-171 | a run without a directory argument only shows the usage |
| `CoverCli.Run` | index.js:146-176 | the command: usage without a directory, otherwise the covers or the error of `generateCover`; `NoDirectoryShowsUsage` and `DefaultTemplateFails` state its outcomes |
| `BatchCli.ParseArgs` | generate-all.js:52-78 | the loop equals the specification `ParseFrom`, starting from all-null options |
| `BatchCli.FlagValuesVerbatim` | generate-all.js:63-68 | a template or format that is set is the non-empty argument after its flag, not lower-cased |
| `BatchCli.SeriesIsPositional` | generate-all.js:69-71 | the series is an argument that does not start with `--`, if any |
| `BatchCli.BatchKeepsCase` | generate-all.js:63-74 | values keep their case, and `--output` is skipped with its value taken as the series |
| `BatchCli.Command` | generate-all.js:128-136 | the per-article command; `CommandIsJoinedWords`, `CommandSplitsIntoWords` and `IndexReadsCommand` state its words and how the single-article parser reads it |
| `BatchCli.CommandIsJoinedWords` | generate-all.js:128-136 | the command is `node "<script>" <article>`, then `--template T` and `--format F` when they are set, separated by single spaces |
| `BatchCli.CommandSplitsIntoWords` | generate-all.js:128-136 | for values without spaces, splitting the command at its spaces gives back its words |
| `BatchCli.IndexReadsCommand` | generate-all.js:128-138 | the single-article parser reads the command back as the article, and the batch's template and format, lower-cased or defaulted |
| `BatchCli.Successes` | generate-all.js:139 | no more successes than runs |
| `BatchCli.RunAll` | generate-all.js:123-145 | one command per article, in article order; `success` is the number of runs that exited normally, and `success + failed` is the number of articles |
| `BatchCli.AllSucceedIff` | generate-all.js:139-142 | nothing fails exactly when every run succeeds |
| `BatchCli.Batch` | generate-all.js:80-149 | no series shows the usage, no articles stop the batch, and otherwise `success + failed` is the number of articles |

## Left out

- Browser work (index.js:101-142): launching Chromium, opening pages, `setContent` and
  screenshots. They are an external, asynchronous service. A cover is modelled as
  its file name, viewport and HTML.
- File-system work: `existsSync`, `readFileSync`, `mkdirSync`, and the directory walk
  `findArticles`/`walkDir` (generate-all.js:21-50). Whether `index.md` exists, the
  text it holds, and the list of articles in discovery order are parameters. The
  walk's order depends on `readdirSync`, which is unspecified.
- `execSync` (generate-all.js:138): whether each run exits normally is a parameter,
  `exitOk`.
- `process.exit`, console output and the help text of both commands.
- export-templates.js, which only writes sample pages and an index page.
- The SVG drawing data of the social icons is kept as opaque constant strings.
- `JsonStrings.DecodeArray`: only JSON arrays of string literals are read. Valid
  JSON of any other shape (numbers, objects, nested arrays, `null`) counts as a
  parse failure, whereas `JSON.parse` would store it. `\u` escapes in the surrogate
  range are not read, because a Dafny `char` is a Unicode scalar value.
- `JsString.Lower`: `toLowerCase` and `toUpperCase` map ASCII letters only.
- `Templates.TruncatedTitle`: `substring(0, 40)` counts Unicode scalar values
  rather than UTF-16 code units.
- `Categories.SeriesFromPath`: `path.sep` is taken to be `/` (POSIX).
- Objects are modelled as maps of their own keys. Keys that JavaScript objects inherit
  or treat specially are not modelled, as the lines below say.
- `Categories.Resolve`: a lookup such as `catMap["constructor"]` finds an inherited
  value in JavaScript; the model sees only the table's own keys.
- `FrontMatter.StoreAll`: assigning to the key `__proto__` stores nothing in
  JavaScript, so that key is never listed and its value never reaches `JSON.parse`.
  The model stores it like any other key, so `FrontMatter.ParsedKeys`,
  `FrontMatter.KeyStoredIff` and `FrontMatter.ParsedFailsIff` also count a
  `__proto__` line (`---\n__proto__: [a]\n---\n` fails in the model and gives `{}`
  in JavaScript).
- `TemplateRegistry.Lookup`: `TEMPLATES[name]` finds inherited values such as
  `constructor` or `__proto__`. The model reports those ids as not found.
- `CoverCli.Prepared`: for such an inherited id, JavaScript passes the template check
  and fails later, at `template.generate`, after the `index.md`, title and category
  steps. The model reports `TemplateNotFound` first.
- `Templates.Render`: `parseInt` on a two-digit hexadecimal capture is written as
  the digit values directly.
- `TemplateRegistry.Lookup`: `Object.keys` enumeration is the sequence `Ids`, in
  the order of the literal.
