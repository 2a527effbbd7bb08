/** The shared part of the cover templates (lib/templates.js): the data a generator
    receives, `hexToRgb`, the social footer, and templates as literal text with holes
    that a generator fills from the data and the viewport size. */
module Templates {
  import opened Wrappers
  import opened JsString
  import opened SiteConfig
  import JsonStrings

  /** What every generator receives: the title, the category's label and icon, its
      colours, the brand, the social links and the reading time in minutes. */
  datatype RenderData = RenderData(
    title: string,
    categoryLabel: string,
    icon: string,
    colors: seq<string>,
    brand: string,
    social: Option<Social>,
    readTime: nat)

  /** `colors[i]` as a template literal prints it: `undefined` past the end. */
  function ColorAt(colors: seq<string>, i: nat): string
  {
    if i < |colors| then colors[i] else "undefined"
  }

  // ---------------------------------------------------------------------------
  // hexToRgb: `^#?([a-f\d]{2})([a-f\d]{2})([a-f\d]{2})$`, case-insensitive

  predicate AllHex(s: string)
  {
    forall k | 0 <= k < |s| :: IsHexDigit(s[k])
  }

  /** The six digits the pattern captures, when it matches. */
  function HexDigits(hex: string): (r: Option<string>)
    ensures r.Some? ==> |r.value| == 6 && AllHex(r.value)
  {
    var t := if |hex| == 7 && hex[0] == '#' then hex[1..] else hex;
    if |t| == 6 && AllHex(t) then Some(t) else None
  }

  function HexByte(hi: char, lo: char): (v: nat)
    requires IsHexDigit(hi) && IsHexDigit(lo)
    ensures v < 256
  {
    HexValue(hi) * 16 + HexValue(lo)
  }

  /** Three byte values as `hexToRgb` prints them. */
  function RgbText(r: nat, g: nat, b: nat): string
  {
    Decimal(r) + ", " + Decimal(g) + ", " + Decimal(b)
  }

  const White := "255, 255, 255"

  /** `hexToRgb`: the three byte values of a six-digit colour, or white for anything
      the pattern rejects. */
  function HexToRgb(hex: string): (r: string)
    ensures HexDigits(hex).None? ==> r == White
    ensures HexDigits(hex).Some? ==> exists x, y, z | x < 256 && y < 256 && z < 256 :: r == RgbText(x, y, z)
  {
    match HexDigits(hex)
    case None => White
    case Some(d) =>
      var x, y, z := HexByte(d[0], d[1]), HexByte(d[2], d[3]), HexByte(d[4], d[5]);
      assert RgbText(x, y, z) == Decimal(x) + ", " + Decimal(y) + ", " + Decimal(z);
      RgbText(x, y, z)
  }

  /** Two lower-case hexadecimal digits for a byte. */
  function ByteHex(v: nat): string
    requires v < 256
  {
    [JsonStrings.HexDigitChar(v / 16), JsonStrings.HexDigitChar(v % 16)]
  }

  /** The colour `#rrggbb` of three byte values. */
  function RgbToHex(r: nat, g: nat, b: nat): string
    requires r < 256 && g < 256 && b < 256
  {
    "#" + ByteHex(r) + ByteHex(g) + ByteHex(b)
  }

  /** `hexToRgb` reads the byte values of a written colour back. */
  lemma HexToRgbRoundTrip(r: nat, g: nat, b: nat)
    requires r < 256 && g < 256 && b < 256
    ensures HexToRgb(RgbToHex(r, g, b)) == RgbText(r, g, b)
    ensures HexToRgb(RgbToHex(r, g, b)[1..]) == RgbText(r, g, b)
  {
    var s := RgbToHex(r, g, b);
    var d := s[1..];
    assert d == ByteHex(r) + ByteHex(g) + ByteHex(b);
    assert HexDigits(s) == Some(d);
    assert HexDigits(d) == Some(d);
    assert HexByte(d[0], d[1]) == r && HexByte(d[2], d[3]) == g && HexByte(d[4], d[5]) == b;
  }

  /** Upper-case digits read as the lower-case ones. */
  lemma HexToRgbIgnoresCase(hex: string)
    ensures HexToRgb(Lower(hex)) == HexToRgb(hex)
  {
    var l := Lower(hex);
    var t := if |hex| == 7 && hex[0] == '#' then hex[1..] else hex;
    var u := if |l| == 7 && l[0] == '#' then l[1..] else l;
    assert u == Lower(t) by {
      if |hex| == 7 && hex[0] == '#' {
        assert l[0] == '#';
        LowerOfTail(hex);
      }
    }
    LowerKeepsHex(t);
    if |t| == 6 && AllHex(t) {
      assert HexDigits(hex) == Some(t) && HexDigits(l) == Some(u);
      LowerKeepsBytes(t, u);
    } else {
      assert HexDigits(hex).None? && HexDigits(l).None?;
    }
  }

  /** Six digits and their lower-case forms read as the same three bytes. */
  lemma LowerKeepsBytes(t: string, u: string)
    requires |t| == 6 && AllHex(t) && u == Lower(t)
    ensures AllHex(u)
    ensures HexByte(u[0], u[1]) == HexByte(t[0], t[1])
    ensures HexByte(u[2], u[3]) == HexByte(t[2], t[3])
    ensures HexByte(u[4], u[5]) == HexByte(t[4], t[5])
  {
    forall k | 0 <= k < 6 ensures IsHexDigit(u[k]) && HexValue(u[k]) == HexValue(t[k]) {
      LowerCharHexValue(t[k]);
    }
  }

  lemma LowerOfTail(s: string)
    requires s != []
    ensures Lower(s)[1..] == Lower(s[1..])
  {
  }

  lemma LowerCharHexValue(c: char)
    requires IsHexDigit(c)
    ensures IsHexDigit(LowerChar(c)) && HexValue(LowerChar(c)) == HexValue(c)
  {
  }

  /** Lower-casing keeps a text of hexadecimal digits one. */
  lemma LowerKeepsHex(s: string)
    ensures AllHex(Lower(s)) <==> AllHex(s)
  {
    var l := Lower(s);
    forall k | 0 <= k < |s| ensures IsHexDigit(l[k]) <==> IsHexDigit(s[k]) {
      assert l[k] == LowerChar(s[k]);
    }
  }

  /** Short, long, empty and missing colours give white. */
  lemma HexToRgbRejects()
    ensures HexToRgb("#fff") == White
    ensures HexToRgb("#ffffffff") == White
    ensures HexToRgb("") == White
    ensures HexToRgb("undefined") == White
  {
    assert !IsHexDigit("undefined"[0]);
  }

  // ---------------------------------------------------------------------------
  // renderSocialFooter

  datatype Network = GitHub | LinkedIn | Email

  /** The drawing data of the three icons. */
  const GitHubPath := "M12 0C5.37 0 0 5.37 0 12c0 5.31 3.435 9.795 8.205 11.385.6.105.825-.255.825-.57 0-.285-.015-1.23-.015-2.235-3.015.555-3.795-.735-4.035-1.41-.135-.345-.72-1.41-1.23-1.695-.42-.225-1.02-.78-.015-.795.945-.015 1.62.87 1.845 1.23 1.08 1.815 2.805 1.305 3.495.99.105-.78.42-1.305.765-1.605-2.67-.3-5.46-1.335-5.46-5.925 0-1.305.465-2.385 1.23-3.225-.12-.3-.54-1.53.12-3.18 0 0 1.005-.315 3.3 1.23.96-.27 1.98-.405 3-.405s2.04.135 3 .405c2.295-1.56 3.3-1.23 3.3-1.23.66 1.65.24 2.88.12 3.18.765.84 1.23 1.905 1.23 3.225 0 4.605-2.805 5.625-5.475 5.925.435.375.81 1.095.81 2.22 0 1.605-.015 2.895-.015 3.3 0 .315.225.69.825.57A12.02 12.02 0 0024 12c0-6.63-5.37-12-12-12z"
  const LinkedInPath := "M20.447 20.452h-3.554v-5.569c0-1.328-.027-3.037-1.852-3.037-1.853 0-2.136 1.445-2.136 2.939v5.667H9.351V9h3.414v1.561h.046c.477-.9 1.637-1.85 3.37-1.85 3.601 0 4.267 2.37 4.267 5.455v6.286zM5.337 7.433a2.062 2.062 0 01-2.063-2.065 2.064 2.064 0 112.063 2.065zm1.782 13.019H3.555V9h3.564v11.452zM22.225 0H1.771C.792 0 0 .774 0 1.729v20.542C0 23.227.792 24 1.771 24h20.451C23.2 24 24 23.227 24 22.271V1.729C24 .774 23.2 0 22.222 0h.003z"
  const EmailPath := "M20 4H4c-1.1 0-2 .9-2 2v12c0 1.1.9 2 2 2h16c1.1 0 2-.9 2-2V6c0-1.1-.9-2-2-2zm0 4l-8 5-8-5V6l8 5 8-5v2z"

  /** The 14-pixel icon of a network, filled with `color`. */
  function SocialSvg(n: Network, color: string): string
  {
    var path := match n case GitHub => GitHubPath case LinkedIn => LinkedInPath case Email => EmailPath;
    "<svg width=\"14\" height=\"14\" viewBox=\"0 0 24 24\" fill=\"" + color
      + "\" xmlns=\"http://www.w3.org/2000/svg\"><path d=\"" + path + "\"/></svg>"
  }

  /** A JavaScript value that is truthy: present and not the empty text. */
  predicate Shown(v: Option<string>)
  {
    v.Some? && v.value != []
  }

  /** The icon fill of a theme: only `dark` differs. */
  function IconColor(theme: string): string
  {
    if theme == "dark" then "#aaa" else "#64748b"
  }

  function BrandItem(brand: string): string
  {
    "<span>" + brand + "</span>"
  }

  function LinkItem(n: Network, color: string, handle: string): string
  {
    "<span style=\"display:inline-flex;align-items:center;gap:5px;\">" + SocialSvg(n, color) + " " + handle + "</span>"
  }

  function ReadTimeItem(minutes: nat): string
  {
    "<span>\U{23F1}\U{FE0F} " + Decimal(minutes) + " min</span>"
  }

  /** The item of one link, if it is shown. */
  function LinkIfShown(n: Network, color: string, handle: Option<string>): (r: seq<string>)
    ensures |r| == (if Shown(handle) then 1 else 0)
  {
    if Shown(handle) then [LinkItem(n, color, handle.value)] else []
  }

  /** The items of the links shown, in the order GitHub, LinkedIn, e-mail. */
  function LinkItems(social: Option<Social>, color: string): seq<string>
  {
    if social.None? then []
    else
      var s := social.value;
      LinkIfShown(GitHub, color, s.github) + LinkIfShown(LinkedIn, color, s.linkedin) + LinkIfShown(Email, color, s.email)
  }

  /** The footer's items: the brand, the links shown, the reading time. */
  function FooterItems(d: RenderData, theme: string): seq<string>
  {
    [BrandItem(d.brand)] + LinkItems(d.social, IconColor(theme)) + [ReadTimeItem(d.readTime)]
  }

  function Wrap(item: string): string
  {
    "<span style=\"display:inline-flex;align-items:center;\">" + item + "</span>"
  }

  /** Each item wrapped in its outer span, joined with nothing between. */
  function WrapAll(items: seq<string>): string
  {
    if items == [] then "" else Wrap(items[0]) + WrapAll(items[1..])
  }

  /** The footer a generator embeds. */
  function FooterHtml(d: RenderData, theme: string): string
  {
    WrapAll(FooterItems(d, theme))
  }

  /** `renderSocialFooter`: pushes the brand, each link present and the reading time,
      then wraps and joins the items. */
  method RenderSocialFooter(d: RenderData, theme: string) returns (html: string)
    ensures html == FooterHtml(d, theme)
  {
    var iconColor := if theme == "dark" then "#aaa" else "#64748b";
    assert iconColor == IconColor(theme);
    var items: seq<string> := [];
    items := items + [BrandItem(d.brand)];
    if d.social.Some? {
      var s := d.social.value;
      if Shown(s.github) {
        items := items + [LinkItem(GitHub, iconColor, s.github.value)];
      }
      assert items == [BrandItem(d.brand)] + LinkIfShown(GitHub, iconColor, s.github);
      if Shown(s.linkedin) {
        items := items + [LinkItem(LinkedIn, iconColor, s.linkedin.value)];
      }
      assert items == [BrandItem(d.brand)] + LinkIfShown(GitHub, iconColor, s.github)
                      + LinkIfShown(LinkedIn, iconColor, s.linkedin);
      if Shown(s.email) {
        items := items + [LinkItem(Email, iconColor, s.email.value)];
      }
      assert items == [BrandItem(d.brand)] + LinkItems(d.social, iconColor);
    }
    items := items + [ReadTimeItem(d.readTime)];
    assert items == FooterItems(d, theme);
    html := WrapAll(items);
  }

  /** How many social fields are present and not empty (none when `social` is null). */
  function ShownCount(social: Option<Social>): nat
  {
    if social.None? then 0
    else
      (if Shown(social.value.github) then 1 else 0)
      + (if Shown(social.value.linkedin) then 1 else 0)
      + (if Shown(social.value.email) then 1 else 0)
  }

  /** The footer has the brand first, the reading time last, and one item per link
      shown in between. */
  lemma FooterItemsShape(d: RenderData, theme: string)
    ensures var items := FooterItems(d, theme);
            && |items| == 2 + ShownCount(d.social)
            && items[0] == BrandItem(d.brand)
            && items[|items| - 1] == ReadTimeItem(d.readTime)
  {
  }

  /** Without social links the footer is the brand and the reading time. */
  lemma FooterWithoutSocial(d: RenderData, theme: string)
    requires d.social.None?
    ensures FooterHtml(d, theme) == Wrap(BrandItem(d.brand)) + Wrap(ReadTimeItem(d.readTime))
  {
    var items := FooterItems(d, theme);
    assert items == [BrandItem(d.brand), ReadTimeItem(d.readTime)];
    assert WrapAll(items[1..]) == Wrap(ReadTimeItem(d.readTime)) + WrapAll([]);
  }

  /** The site's own links are all shown, in order. */
  lemma SiteFooterLinks(color: string)
    ensures LinkItems(Some(SiteSocial), color) ==
              [LinkItem(GitHub, color, "monte97"), LinkItem(LinkedIn, color, "francesco-montelli"),
               LinkItem(Email, color, "francesco@montelli.dev")]
  {
  }

  /** The theme only chooses the icon fill: two themes with the same fill give the
      same footer, and every theme other than `dark` gives the light one. */
  lemma FooterDependsOnlyOnIconColor(d: RenderData, t1: string, t2: string)
    requires IconColor(t1) == IconColor(t2)
    ensures FooterHtml(d, t1) == FooterHtml(d, t2)
  {
    assert FooterItems(d, t1) == FooterItems(d, t2);
  }

  lemma NonDarkThemesAgree(d: RenderData, theme: string)
    requires theme != "dark"
    ensures FooterHtml(d, theme) == FooterHtml(d, "light")
  {
    FooterDependsOnlyOnIconColor(d, theme, "light");
  }

  /** Every item appears in the footer inside its outer span. */
  lemma {:induction false} WrapAllIncludes(items: seq<string>, i: nat)
    requires i < |items|
    ensures Includes(WrapAll(items), Wrap(items[i]))
  {
    if i == 0 {
      var w := WrapAll(items);
      assert w[..|Wrap(items[0])|] == Wrap(items[0]);
      assert OccursAt(w, Wrap(items[0]), 0);
    } else {
      assert items[1..][i - 1] == items[i];
      WrapAllIncludes(items[1..], i - 1);
      IncludesAfter(Wrap(items[0]), WrapAll(items[1..]), Wrap(items[i]));
    }
  }

  lemma IncludesAfter(a: string, b: string, sub: string)
    requires Includes(b, sub)
    ensures Includes(a + b, sub)
  {
    var i :| 0 <= i <= |b| && OccursAt(b, sub, i);
    assert (a + b)[|a| + i..|a| + i + |sub|] == b[i..i + |sub|];
    assert OccursAt(a + b, sub, |a| + i);
  }

  // ---------------------------------------------------------------------------
  // Templates with holes

  /** A place where a generator interpolates a value. */
  datatype Hole =
    | Title          // `${title}`
    | TitleTrunc40   // `${title.substring(0, 40)}${title.length > 40 ? '...' : ''}`
    | Label          // `${categoryLabel}`
    | Icon           // `${icon}`
    | Color0         // `${colors[0]}`
    | Color1         // `${colors[1]}`
    | Rgb0           // `${hexToRgb(colors[0])}`
    | Rgb1           // `${hexToRgb(colors[1])}`
    | Width          // `${width}`
    | Height         // `${height}`
    | Brand          // `${data.brand}`
    | ReadTime       // `${data.readTime}`
    | Footer(theme: string)  // `${renderSocialFooter(data, theme)}`

  /** Literal text (source lines joined by newlines) and holes, in order. */
  datatype Template = Chunk(lines: seq<string>, hole: Hole, rest: Template) | End(lines: seq<string>)

  /** A generator: the style sheet after the viewport rule, then the markup from
      `</style>` on. */
  datatype Generator = Generator(style: Template, markup: Template)

  /** The first 40 characters of the title, then `...` if it was longer. */
  function TruncatedTitle(title: string): (r: string)
    ensures |title| <= 40 ==> r == title
    ensures |title| > 40 ==> r == title[..40] + "..."
  {
    if |title| > 40 then title[..40] + "..." else title
  }

  /** What a hole prints. */
  function HoleText(h: Hole, d: RenderData, width: nat, height: nat): string
  {
    match h
    case Title => d.title
    case TitleTrunc40 => TruncatedTitle(d.title)
    case Label => d.categoryLabel
    case Icon => d.icon
    case Color0 => ColorAt(d.colors, 0)
    case Color1 => ColorAt(d.colors, 1)
    case Rgb0 => HexToRgb(ColorAt(d.colors, 0))
    case Rgb1 => HexToRgb(ColorAt(d.colors, 1))
    case Width => Decimal(width)
    case Height => Decimal(height)
    case Brand => d.brand
    case ReadTime => Decimal(d.readTime)
    case Footer(theme) => FooterHtml(d, theme)
  }

  /** The text of a template with its holes filled. */
  function Fill(t: Template, d: RenderData, width: nat, height: nat): string
  {
    match t
    case End(lines) => Join(lines, "\n")
    case Chunk(lines, h, rest) => Join(lines, "\n") + HoleText(h, d, width, height) + Fill(rest, d, width, height)
  }

  /** How many times hole `h` occurs. */
  function Count(t: Template, h: Hole): nat
  {
    match t
    case End(_) => 0
    case Chunk(_, h', rest) => (if h' == h then 1 else 0) + Count(rest, h)
  }

  /** How many footers, of any theme, occur. */
  function FooterCount(t: Template): nat
  {
    match t
    case End(_) => 0
    case Chunk(_, h, rest) => (if h.Footer? then 1 else 0) + FooterCount(rest)
  }

  /** The text every generator starts with, up to its viewport rule. */
  const PreambleLines: seq<string> := [
      "<!DOCTYPE html>",
      "<html lang=\"it\">",
      "<head>",
      "    <meta charset=\"UTF-8\">",
      "    <style>",
      "        * { margin: 0; padding: 0; box-sizing: border-box; }",
      "        "]

  /** `html, body { width: Wpx; height: Hpx; overflow: hidden; }` */
  function ViewportRule(width: nat, height: nat): string
  {
    "html, body { width: " + Decimal(width) + "px; height: " + Decimal(height) + "px; overflow: hidden; }"
  }

  /** A generator's HTML for the data and the viewport size. */
  function Render(g: Generator, d: RenderData, width: nat, height: nat): string
  {
    Join(PreambleLines, "\n") + ViewportRule(width, height) + Fill(g.style, d, width, height) + Fill(g.markup, d, width, height)
  }

  // ---------------------------------------------------------------------------
  // What a rendering is made of

  /** Every rendering begins with the shared head and then the viewport rule for the
      size it was given. */
  lemma RenderStartsWithViewport(g: Generator, d: RenderData, width: nat, height: nat)
    ensures StartsWith(Render(g, d, width, height), Join(PreambleLines, "\n") + ViewportRule(width, height))
    ensures Includes(Render(g, d, width, height), ViewportRule(width, height))
  {
    var head, rule := Join(PreambleLines, "\n"), ViewportRule(width, height);
    var st, mk := Fill(g.style, d, width, height), Fill(g.markup, d, width, height);
    PrefixOfConcat(head + rule, st, mk);
    IncludesOfConcat(head, rule, st);
    IncludesBefore(head + rule + st, mk, rule);
  }

  lemma PrefixOfConcat(a: string, b: string, c: string)
    ensures StartsWith(a + b + c, a)
  {
    assert (a + b + c)[..|a|] == a;
  }

  lemma IncludesBefore(a: string, b: string, sub: string)
    requires Includes(a, sub)
    ensures Includes(a + b, sub)
  {
    var i :| 0 <= i <= |a| && OccursAt(a, sub, i);
    assert (a + b)[i..i + |sub|] == a[i..i + |sub|];
    assert OccursAt(a + b, sub, i);
  }

  /** A hole of a template shows up in its text. */
  lemma {:induction false} FillIncludesHole(t: Template, h: Hole, d: RenderData, width: nat, height: nat)
    requires Count(t, h) > 0
    ensures Includes(Fill(t, d, width, height), HoleText(h, d, width, height))
  {
    var text := HoleText(h, d, width, height);
    var lit := Join(t.lines, "\n");
    var rest := Fill(t.rest, d, width, height);
    if t.hole == h {
      IncludesOfConcat(lit, text, rest);
    } else {
      FillIncludesHole(t.rest, h, d, width, height);
      IncludesAfter(lit + HoleText(t.hole, d, width, height), rest, text);
    }
    assert Fill(t, d, width, height) == lit + HoleText(t.hole, d, width, height) + rest;
  }

  /** A hole of a generator shows up in its rendering. */
  lemma RenderIncludesHole(g: Generator, h: Hole, d: RenderData, width: nat, height: nat)
    requires Count(g.style, h) + Count(g.markup, h) > 0
    ensures Includes(Render(g, d, width, height), HoleText(h, d, width, height))
  {
    var head := Join(PreambleLines, "\n") + ViewportRule(width, height);
    var st, mk := Fill(g.style, d, width, height), Fill(g.markup, d, width, height);
    assert Render(g, d, width, height) == head + st + mk;
    if Count(g.style, h) > 0 {
      FillIncludesHole(g.style, h, d, width, height);
      IncludesAfter(head, st, HoleText(h, d, width, height));
      IncludesBefore(head + st, mk, HoleText(h, d, width, height));
    } else {
      FillIncludesHole(g.markup, h, d, width, height);
      IncludesAfter(head + st, mk, HoleText(h, d, width, height));
    }
  }

  /** A generator without an icon hole does not depend on the icon. */
  lemma RenderIgnoresIcon(g: Generator, d: RenderData, icon: string, width: nat, height: nat)
    requires Count(g.style, Icon) == 0 && Count(g.markup, Icon) == 0
    ensures Render(g, d, width, height) == Render(g, d.(icon := icon), width, height)
  {
    FillIgnoresIcon(g.style, d, icon, width, height);
    FillIgnoresIcon(g.markup, d, icon, width, height);
  }

  /** A generator without colour holes does not depend on the colours. */
  lemma RenderIgnoresColors(g: Generator, d: RenderData, colors: seq<string>, width: nat, height: nat)
    requires Count(g.style, Color0) == 0 && Count(g.style, Color1) == 0 && Count(g.style, Rgb0) == 0 && Count(g.style, Rgb1) == 0
    requires Count(g.markup, Color0) == 0 && Count(g.markup, Color1) == 0 && Count(g.markup, Rgb0) == 0 && Count(g.markup, Rgb1) == 0
    ensures Render(g, d, width, height) == Render(g, d.(colors := colors), width, height)
  {
    FillIgnoresColors(g.style, d, colors, width, height);
    FillIgnoresColors(g.markup, d, colors, width, height);
  }

  /** A generator without second-colour holes depends on the first colour only. */
  lemma RenderUsesFirstColorOnly(g: Generator, d: RenderData, colors: seq<string>, width: nat, height: nat)
    requires Count(g.style, Color1) == 0 && Count(g.style, Rgb1) == 0
    requires Count(g.markup, Color1) == 0 && Count(g.markup, Rgb1) == 0
    requires ColorAt(colors, 0) == ColorAt(d.colors, 0)
    ensures Render(g, d, width, height) == Render(g, d.(colors := colors), width, height)
  {
    FillUsesFirstColorOnly(g.style, d, colors, width, height);
    FillUsesFirstColorOnly(g.markup, d, colors, width, height);
  }

  /** A generator without a whole-title hole depends on the truncated title only. */
  lemma RenderUsesTruncatedTitle(g: Generator, d: RenderData, title: string, width: nat, height: nat)
    requires Count(g.style, Title) == 0 && Count(g.markup, Title) == 0
    requires TruncatedTitle(title) == TruncatedTitle(d.title)
    ensures Render(g, d, width, height) == Render(g, d.(title := title), width, height)
  {
    FillUsesTruncatedTitle(g.style, d, title, width, height);
    FillUsesTruncatedTitle(g.markup, d, title, width, height);
  }

  /** A template without an icon hole does not depend on the icon. */
  lemma {:induction false} FillIgnoresIcon(t: Template, d: RenderData, icon: string, width: nat, height: nat)
    requires Count(t, Icon) == 0
    ensures Fill(t, d, width, height) == Fill(t, d.(icon := icon), width, height)
  {
    if t.Chunk? {
      FillIgnoresIcon(t.rest, d, icon, width, height);
      HoleIgnoresIcon(t.hole, d, icon, width, height);
    }
  }

  lemma HoleIgnoresIcon(h: Hole, d: RenderData, icon: string, width: nat, height: nat)
    requires h != Icon
    ensures HoleText(h, d, width, height) == HoleText(h, d.(icon := icon), width, height)
  {
    if h.Footer? {
      assert FooterItems(d, h.theme) == FooterItems(d.(icon := icon), h.theme);
    }
  }

  /** A template without colour holes does not depend on the colours. */
  lemma {:induction false} FillIgnoresColors(t: Template, d: RenderData, colors: seq<string>, width: nat, height: nat)
    requires Count(t, Color0) == 0 && Count(t, Color1) == 0 && Count(t, Rgb0) == 0 && Count(t, Rgb1) == 0
    ensures Fill(t, d, width, height) == Fill(t, d.(colors := colors), width, height)
  {
    if t.Chunk? {
      FillIgnoresColors(t.rest, d, colors, width, height);
    }
  }

  /** A template without holes for the second colour depends on the first colour only. */
  lemma {:induction false} FillUsesFirstColorOnly(t: Template, d: RenderData, colors: seq<string>, width: nat, height: nat)
    requires Count(t, Color1) == 0 && Count(t, Rgb1) == 0 && ColorAt(colors, 0) == ColorAt(d.colors, 0)
    ensures Fill(t, d, width, height) == Fill(t, d.(colors := colors), width, height)
  {
    if t.Chunk? {
      FillUsesFirstColorOnly(t.rest, d, colors, width, height);
    }
  }

  /** A template whose only title hole is the truncated one depends on the first 40
      characters of the title and on whether it is longer. */
  lemma {:induction false} FillUsesTruncatedTitle(t: Template, d: RenderData, title: string, width: nat, height: nat)
    requires Count(t, Title) == 0 && TruncatedTitle(title) == TruncatedTitle(d.title)
    ensures Fill(t, d, width, height) == Fill(t, d.(title := title), width, height)
  {
    if t.Chunk? {
      FillUsesTruncatedTitle(t.rest, d, title, width, height);
    }
  }
}
