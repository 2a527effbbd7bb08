/** The site configuration (config.js): the brand, the social links of the cover
    footer, the command-line defaults, the category table and the ordered table of
    title keywords. */
module SiteConfig {
  import opened Wrappers
  import opened JsString

  /** A category: its two gradient colours, its icon and its label. A label may be
      absent in a table in general; in this one every entry has one. */
  datatype Entry = Entry(colors: seq<string>, icon: string, labelText: Option<string>)

  /** The social links; a link set to `null` is `None` and is not shown. */
  datatype Social = Social(github: Option<string>, linkedin: Option<string>, email: Option<string>)

  datatype Defaults = Defaults(template: string, format: string, outputDir: string, contentDir: string)

  /** The configuration object handed to the category resolver and the renderers. */
  datatype Config = Config(
    brand: string,
    social: Option<Social>,
    defaults: Defaults,
    categories: map<string, Entry>,
    titleKeywords: seq<(string, string)>)

  const Brand := "montelli.dev"

  const SiteSocial := Social(Some("monte97"), Some("francesco-montelli"), Some("francesco@montelli.dev"))

  const SiteDefaults := Defaults("gen-random", "both", "scripts/cover-generator/output", "content/posts")

  const Categories: map<string, Entry> := map[
      "kafka" := Entry(["#8B5CF6", "#F59E0B"], "\U{1F4E1}", Some("Kafka Series")),
      "keycloak" := Entry(["#DC2626", "#EC4899"], "\U{1F511}", Some("Security")),
      "security" := Entry(["#7F1D1D", "#DC2626"], "\U{1F512}", Some("Security")),
      "kubernetes" := Entry(["#2563EB", "#06B6D4"], "\U{2638}\U{FE0F}", Some("Cloud Native")),
      "cloud native" := Entry(["#2563EB", "#06B6D4"], "\U{2601}\U{FE0F}", Some("Cloud Native")),
      "testing" := Entry(["#059669", "#10B981"], "\U{1F9EA}", Some("Testing")),
      "e2e testing" := Entry(["#059669", "#10B981"], "\U{1F3AF}", Some("E2E Testing")),
      "quality engineering" := Entry(["#059669", "#10B981"], "\U{2705}", Some("Quality Engineering")),
      "devops" := Entry(["#4F46E5", "#7C3AED"], "\U{1F680}", Some("DevOps")),
      "cicd" := Entry(["#4F46E5", "#7C3AED"], "\U{1F504}", Some("CI/CD")),
      "ci/cd" := Entry(["#4F46E5", "#7C3AED"], "\U{1F504}", Some("CI/CD")),
      "web development" := Entry(["#0891B2", "#14B8A6"], "\U{1F310}", Some("Web Development")),
      "frontend" := Entry(["#0891B2", "#14B8A6"], "\U{269B}\U{FE0F}", Some("Frontend")),
      "backend" := Entry(["#0891B2", "#14B8A6"], "\U{2699}\U{FE0F}", Some("Backend")),
      "observability" := Entry(["#0E7490", "#06B6D4"], "\U{1F4CA}", Some("Observability")),
      "monitoring" := Entry(["#0E7490", "#06B6D4"], "\U{1F4C8}", Some("Monitoring")),
      "platform engineering" := Entry(["#6D28D9", "#A855F7"], "\U{1F3D7}\U{FE0F}", Some("Platform Engineering")),
      "homelab" := Entry(["#047857", "#34D399"], "\U{1F3E0}", Some("Homelab")),
      "infrastruttura" := Entry(["#64748B", "#94A3B8"], "\U{1F5A5}\U{FE0F}", Some("Infrastructure")),
      "infrastructure" := Entry(["#64748B", "#94A3B8"], "\U{1F5A5}\U{FE0F}", Some("Infrastructure")),
      "performance engineering" := Entry(["#EA580C", "#FB923C"], "\U{26A1}", Some("Performance")),
      "event-driven" := Entry(["#8B5CF6", "#F59E0B"], "\U{1F4E1}", Some("Event-Driven")),
      "identity management" := Entry(["#DC2626", "#EC4899"], "\U{1F194}", Some("Identity")),
      "automazione" := Entry(["#4F46E5", "#7C3AED"], "\U{1F916}", Some("Automation")),
      "automation" := Entry(["#4F46E5", "#7C3AED"], "\U{1F916}", Some("Automation")),
      "default" := Entry(["#475569", "#94A3B8"], "\U{1F4DD}", Some("Article"))
    ]

  /** Keyword to category key, in the order the resolver tries them. */
  const TitleKeywords: seq<(string, string)> := [
      ("kafka", "kafka"),
      ("keycloak", "keycloak"),
      ("kubernetes", "kubernetes"),
      ("k8s", "kubernetes"),
      ("playwright", "testing"),
      ("testing", "testing"),
      ("opentelemetry", "observability"),
      ("otel", "observability"),
      ("cluster api", "kubernetes"),
      ("capi", "kubernetes"),
      ("vue", "web development")
    ]

  const Site := Config(Brand, Some(SiteSocial), SiteDefaults, Categories, TitleKeywords)

  /** The fallback entry exists. */
  lemma DefaultEntry()
    ensures "default" in Site.categories
    ensures Site.categories["default"] == Entry(["#475569", "#94A3B8"], "\U{1F4DD}", Some("Article"))
  {
  }

  /** Every entry has two colours and a non-empty label. */
  lemma EntriesWellFormed()
    ensures forall k | k in Site.categories ::
              |Site.categories[k].colors| == 2 && Site.categories[k].labelText.Some? && Site.categories[k].labelText.value != ""
  {
  }

  /** Every keyword leads to a key of the category table. */
  lemma KeywordTargetsAreKeys()
    ensures forall i | 0 <= i < |Site.titleKeywords| :: Site.titleKeywords[i].1 in Site.categories
  {
  }

  /** The category keys in table order. */
  const CategoryKeys: seq<string> := [
      "kafka", "keycloak", "security", "kubernetes", "cloud native",
      "testing", "e2e testing", "quality engineering", "devops", "cicd",
      "ci/cd", "web development", "frontend", "backend", "observability",
      "monitoring", "platform engineering", "homelab", "infrastruttura", "infrastructure",
      "performance engineering", "event-driven", "identity management", "automazione", "automation",
      "default"]

  lemma KeysListed()
    ensures forall k | k in Site.categories :: k in CategoryKeys
  {
  }

  lemma FirstKeysLowerCase()
    ensures forall i | 0 <= i < 9 :: IsLower(CategoryKeys[i])
  {
  }

  lemma MiddleKeysLowerCase()
    ensures forall i | 9 <= i < 18 :: IsLower(CategoryKeys[i])
  {
  }

  lemma LastKeysLowerCase()
    ensures forall i | 18 <= i < |CategoryKeys| :: IsLower(CategoryKeys[i])
  {
  }

  /** No category key is a single character. */
  lemma KeysAreLong()
    ensures forall k | k in Site.categories :: |k| >= 4
  {
    KeysListed();
    assert forall i | 0 <= i < |CategoryKeys| :: |CategoryKeys[i]| >= 4;
  }

  /** Category keys and keywords have no upper-case letters, so lookups of lower-cased
      text can find them. */
  lemma TablesAreLowerCase()
    ensures forall k | k in Site.categories :: IsLower(k)
    ensures forall i | 0 <= i < |Site.titleKeywords| :: IsLower(Site.titleKeywords[i].0)
  {
    KeysListed();
    FirstKeysLowerCase();
    MiddleKeysLowerCase();
    LastKeysLowerCase();
  }

  /** The keyword order: `kafka` is tried first and `vue` last. */
  lemma KeywordOrder()
    ensures |Site.titleKeywords| == 11
    ensures Site.titleKeywords[0] == ("kafka", "kafka")
    ensures Site.titleKeywords[10] == ("vue", "web development")
  {
  }
}
