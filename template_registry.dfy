/** The `TEMPLATES` registry of lib/templates.js: sixteen ids, each with its display
    name and its generator. */
module TemplateRegistry {
  import opened Wrappers
  import JsString
  import opened Templates
  import opened TemplateBodies
  import SiteConfig

  /** A registry entry: the display name and the generator. */
  datatype Registered = Registered(name: string, generate: Generator)

  /** The ids, in the order of the registry's literal. */
  const Ids: seq<string> := ["minimal", "dark", "split", "glass", "neon", "magazine", "code", "mesh", "terminal", "polaroid", "blueprint", "duotone", "retro", "wave", "outline", "stack"]

  const Registry: map<string, Registered> := map[
    "minimal" := Registered("Minimal Gradient", Minimal),
    "dark" := Registered("Dark Geometric", Dark),
    "split" := Registered("Split Color", Split),
    "glass" := Registered("Glassmorphism", Glass),
    "neon" := Registered("Neon Cyber", Neon),
    "magazine" := Registered("Magazine Style", Magazine),
    "code" := Registered("Code Editor", Code),
    "mesh" := Registered("Gradient Mesh", Mesh),
    "terminal" := Registered("Terminal", Terminal),
    "polaroid" := Registered("Polaroid", Polaroid),
    "blueprint" := Registered("Blueprint", Blueprint),
    "duotone" := Registered("Duotone", Duotone),
    "retro" := Registered("Retro CRT", Retro),
    "wave" := Registered("Wave", Wave),
    "outline" := Registered("Outline", Outline),
    "stack" := Registered("Stack", Stack)]

  /** `TEMPLATES[id]`: the entry of a registered id, nothing for any other string. */
  function Lookup(id: string): (r: Option<Registered>)
    ensures r.Some? <==> id in Ids
    ensures r.Some? ==> r.value == Registry[id]
  {
    if id in Registry then Some(Registry[id]) else None
  }

  /** The footer theme a registered generator passes to `renderSocialFooter`. */
  function ThemeOf(id: string): string
  {
    if id == "magazine" || id == "polaroid" || id == "outline" then "light" else "dark"
  }

  /** Sixteen distinct ids, exactly the keys of the registry. */
  lemma RegistryIds()
    ensures |Ids| == 16
    ensures forall i, j | 0 <= i < j < |Ids| :: Ids[i] != Ids[j]
    ensures Registry.Keys == set id | id in Ids
  {
  }

  /** The configured default template is not a registry id, so a run without
      `--template` finds no template. */
  lemma DefaultTemplateUnregistered()
    ensures SiteConfig.Site.defaults.template !in Registry
    ensures Lookup(SiteConfig.Site.defaults.template) == None
  {
  }

  /** One footer, in the markup, with the given theme. */
  predicate FooterOnceIn(g: Generator, theme: string)
  {
    FooterCount(g.style) == 0 && FooterCount(g.markup) == 1 && Count(g.markup, Footer(theme)) == 1
  }

  /** One hole for the whole title, in the markup. */
  predicate TitleOnceIn(g: Generator)
  {
    Count(g.style, Title) == 0 && Count(g.markup, Title) == 1
  }

  lemma MinimalRegistered()
    ensures Registry["minimal"] == Registered("Minimal Gradient", Minimal)
  {
  }

  lemma DarkRegistered()
    ensures Registry["dark"] == Registered("Dark Geometric", Dark)
  {
  }

  lemma SplitRegistered()
    ensures Registry["split"] == Registered("Split Color", Split)
  {
  }

  lemma GlassRegistered()
    ensures Registry["glass"] == Registered("Glassmorphism", Glass)
  {
  }

  lemma NeonRegistered()
    ensures Registry["neon"] == Registered("Neon Cyber", Neon)
  {
  }

  lemma MagazineRegistered()
    ensures Registry["magazine"] == Registered("Magazine Style", Magazine)
  {
  }

  lemma CodeRegistered()
    ensures Registry["code"] == Registered("Code Editor", Code)
  {
  }

  lemma MeshRegistered()
    ensures Registry["mesh"] == Registered("Gradient Mesh", Mesh)
  {
  }

  lemma TerminalRegistered()
    ensures Registry["terminal"] == Registered("Terminal", Terminal)
  {
  }

  lemma PolaroidRegistered()
    ensures Registry["polaroid"] == Registered("Polaroid", Polaroid)
  {
  }

  lemma BlueprintRegistered()
    ensures Registry["blueprint"] == Registered("Blueprint", Blueprint)
  {
  }

  lemma DuotoneRegistered()
    ensures Registry["duotone"] == Registered("Duotone", Duotone)
  {
  }

  lemma RetroRegistered()
    ensures Registry["retro"] == Registered("Retro CRT", Retro)
  {
  }

  lemma WaveRegistered()
    ensures Registry["wave"] == Registered("Wave", Wave)
  {
  }

  lemma OutlineRegistered()
    ensures Registry["outline"] == Registered("Outline", Outline)
  {
  }

  lemma StackRegistered()
    ensures Registry["stack"] == Registered("Stack", Stack)
  {
  }

  /** Every registered generator has exactly one footer, in its markup, with the
      light theme for magazine, polaroid and outline and the dark theme otherwise;
      its markup also shows the category label. */
  lemma FooterOnce(id: string)
    requires id in Registry
    ensures FooterOnceIn(Registry[id].generate, ThemeOf(id))
    ensures Count(Registry[id].generate.markup, Label) > 0
  {
    if id == "minimal" || id == "dark" || id == "split" || id == "glass" {
      FooterOnceFromMinimal(id);
    } else if id == "neon" || id == "magazine" || id == "code" || id == "mesh" {
      FooterOnceFromNeon(id);
    } else if id == "terminal" || id == "polaroid" || id == "blueprint" || id == "duotone" {
      FooterOnceFromTerminal(id);
    } else {
      FooterOnceFromRetro(id);
    }
  }

  lemma FooterOnceFromMinimal(id: string)
    requires id == "minimal" || id == "dark" || id == "split" || id == "glass"
    ensures FooterOnceIn(Registry[id].generate, ThemeOf(id))
    ensures Count(Registry[id].generate.markup, Label) > 0
  {
    if id == "minimal" {
      MinimalRegistered();
      MinimalHoles();
    } else if id == "dark" {
      DarkRegistered();
      DarkHoles();
    } else if id == "split" {
      SplitRegistered();
      SplitHoles();
    } else {
      GlassRegistered();
      GlassHoles();
    }
  }

  lemma FooterOnceFromNeon(id: string)
    requires id == "neon" || id == "magazine" || id == "code" || id == "mesh"
    ensures FooterOnceIn(Registry[id].generate, ThemeOf(id))
    ensures Count(Registry[id].generate.markup, Label) > 0
  {
    if id == "neon" {
      NeonRegistered();
      NeonHoles();
    } else if id == "magazine" {
      MagazineRegistered();
      MagazineHoles();
    } else if id == "code" {
      CodeRegistered();
      CodeHoles();
    } else {
      MeshRegistered();
      MeshHoles();
    }
  }

  lemma FooterOnceFromTerminal(id: string)
    requires id == "terminal" || id == "polaroid" || id == "blueprint" || id == "duotone"
    ensures FooterOnceIn(Registry[id].generate, ThemeOf(id))
    ensures Count(Registry[id].generate.markup, Label) > 0
  {
    if id == "terminal" {
      TerminalRegistered();
      TerminalHoles();
    } else if id == "polaroid" {
      PolaroidRegistered();
      PolaroidHoles();
    } else if id == "blueprint" {
      BlueprintRegistered();
      BlueprintHoles();
    } else {
      DuotoneRegistered();
      DuotoneHoles();
    }
  }

  lemma FooterOnceFromRetro(id: string)
    requires id == "retro" || id == "wave" || id == "outline" || id == "stack"
    ensures FooterOnceIn(Registry[id].generate, ThemeOf(id))
    ensures Count(Registry[id].generate.markup, Label) > 0
  {
    if id == "retro" {
      RetroRegistered();
      RetroHoles();
    } else if id == "wave" {
      WaveRegistered();
      WaveHoles();
    } else if id == "outline" {
      OutlineRegistered();
      OutlineHoles();
    } else {
      StackRegistered();
      StackHoles();
    }
  }

  /** Every registered generator but `code` has one hole for the whole title. */
  lemma TitleOnce(id: string)
    requires id in Registry && id != "code"
    ensures TitleOnceIn(Registry[id].generate)
  {
    if id == "minimal" || id == "dark" || id == "split" || id == "glass" {
      TitleOnceFromMinimal(id);
    } else if id == "neon" || id == "magazine" || id == "mesh" || id == "terminal" {
      TitleOnceFromNeon(id);
    } else if id == "polaroid" || id == "blueprint" || id == "duotone" || id == "retro" {
      TitleOnceFromPolaroid(id);
    } else {
      TitleOnceFromWave(id);
    }
  }

  lemma TitleOnceFromMinimal(id: string)
    requires id == "minimal" || id == "dark" || id == "split" || id == "glass"
    ensures TitleOnceIn(Registry[id].generate)
  {
    if id == "minimal" {
      MinimalRegistered();
      MinimalHoles();
    } else if id == "dark" {
      DarkRegistered();
      DarkHoles();
    } else if id == "split" {
      SplitRegistered();
      SplitHoles();
    } else {
      GlassRegistered();
      GlassHoles();
    }
  }

  lemma TitleOnceFromNeon(id: string)
    requires id == "neon" || id == "magazine" || id == "mesh" || id == "terminal"
    ensures TitleOnceIn(Registry[id].generate)
  {
    if id == "neon" {
      NeonRegistered();
      NeonHoles();
    } else if id == "magazine" {
      MagazineRegistered();
      MagazineHoles();
    } else if id == "mesh" {
      MeshRegistered();
      MeshHoles();
    } else {
      TerminalRegistered();
      TerminalHoles();
    }
  }

  lemma TitleOnceFromPolaroid(id: string)
    requires id == "polaroid" || id == "blueprint" || id == "duotone" || id == "retro"
    ensures TitleOnceIn(Registry[id].generate)
  {
    if id == "polaroid" {
      PolaroidRegistered();
      PolaroidHoles();
    } else if id == "blueprint" {
      BlueprintRegistered();
      BlueprintHoles();
    } else if id == "duotone" {
      DuotoneRegistered();
      DuotoneHoles();
    } else {
      RetroRegistered();
      RetroHoles();
    }
  }

  lemma TitleOnceFromWave(id: string)
    requires id == "wave" || id == "outline" || id == "stack"
    ensures TitleOnceIn(Registry[id].generate)
  {
    if id == "wave" {
      WaveRegistered();
      WaveHoles();
    } else if id == "outline" {
      OutlineRegistered();
      OutlineHoles();
    } else {
      StackRegistered();
      StackHoles();
    }
  }

  /** Every registered generator's page holds its footer. */
  lemma RenderIncludesFooter(id: string, d: RenderData, width: nat, height: nat)
    requires id in Registry
    ensures JsString.Includes(Render(Registry[id].generate, d, width, height), FooterHtml(d, ThemeOf(id)))
  {
    FooterOnce(id);
    RenderIncludesHole(Registry[id].generate, Footer(ThemeOf(id)), d, width, height);
  }

  /** The page of every registered generator but `code` contains the title. */
  lemma RenderIncludesTitle(id: string, d: RenderData, width: nat, height: nat)
    requires id in Registry && id != "code"
    ensures JsString.Includes(Render(Registry[id].generate, d, width, height), d.title)
  {
    TitleOnce(id);
    RenderIncludesHole(Registry[id].generate, Title, d, width, height);
  }

  /** The page of every registered generator shows the category label, and its
      footer shows the reading time in minutes. */
  lemma RenderShowsLabelAndReadTime(id: string, d: RenderData, width: nat, height: nat)
    requires id in Registry
    ensures JsString.Includes(Render(Registry[id].generate, d, width, height), d.categoryLabel)
    ensures JsString.Includes(Render(Registry[id].generate, d, width, height), ReadTimeItem(d.readTime))
  {
    var page := Render(Registry[id].generate, d, width, height);
    FooterOnce(id);
    RenderIncludesHole(Registry[id].generate, Label, d, width, height);
    RenderIncludesFooter(id, d, width, height);
    var items := FooterItems(d, ThemeOf(id));
    FooterItemsShape(d, ThemeOf(id));
    WrapAllIncludes(items, |items| - 1);
    var w := Wrap(ReadTimeItem(d.readTime));
    JsString.IncludesOfConcat("<span style=\"display:inline-flex;align-items:center;\">", ReadTimeItem(d.readTime), "</span>");
    JsString.IncludesTransitive(page, FooterHtml(d, ThemeOf(id)), w);
    JsString.IncludesTransitive(page, w, ReadTimeItem(d.readTime));
  }
}
