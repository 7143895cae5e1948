/**
 * The overlap analyzer: plugins are sorted into functional categories by
 * keywords in their name and description; a category with more than one
 * plugin is an overlap. A second analysis pairs plugins whose hook lists
 * share many entries.
 */
module OverlapAnalyzer {
  import opened Common
  import opened WpcmCommon

  /** The `name` and `description` headers of one plugin. */
  datatype PluginData = PluginData(name: string, description: string)

  /** One plugin of the input array: the plugin file and its headers. */
  type PluginEntry = (string, PluginData)

  /** A category name and its keywords. */
  type Category = (string, seq<string>)

  /** One reported overlap. */
  datatype Overlap = Overlap(category: string, plugins: seq<string>, count: nat, severity: Severity, recommendation: string)

  /** `$categories`: the twelve categories and their keywords, in declaration order. */
  function Categories(): seq<Category>
  {
    [("seo", ["seo", "search engine", "meta", "sitemap", "schema", "robots", "yoast", "rank math"]),
     ("cache", ["cache", "caching", "performance", "speed", "optimization", "minify", "cdn"]),
     ("security", ["security", "firewall", "malware", "login", "protect", "wordfence", "sucuri"]),
     ("backup", ["backup", "restore", "migration", "duplicate", "updraft"]),
     ("forms", ["form", "contact", "survey", "gravity", "ninja forms", "wpforms"]),
     ("ecommerce", ["woocommerce", "shop", "cart", "product", "payment", "ecommerce", "store"]),
     ("social", ["social", "share", "facebook", "twitter", "instagram", "linkedin"]),
     ("analytics", ["analytics", "statistics", "tracking", "google analytics", "stats"]),
     ("media", ["gallery", "image", "video", "media", "photo", "slider"]),
     ("email", ["email", "newsletter", "subscription", "mailchimp", "smtp"]),
     ("builder", ["builder", "elementor", "gutenberg", "editor", "page builder", "divi"]),
     ("spam", ["spam", "antispam", "akismet", "recaptcha", "captcha"])]
  }

  // ---------------------------------------------------------------------
  // Categorising a plugin
  // ---------------------------------------------------------------------

  /** `strtolower($name . ' ' . $description)`. */
  function SearchText(d: PluginData): string
  {
    ToLower(d.name + " " + d.description)
  }

  /** Some keyword, lower-cased, occurs in the text. */
  predicate HasKeyword(text: string, keywords: seq<string>)
  {
    exists i :: 0 <= i < |keywords| && Contains(text, ToLower(keywords[i]))
  }

  /** The categories with a matching keyword, in table order, before `array_unique`. */
  function Matched(text: string, cats: seq<Category>): seq<string>
  {
    if cats == [] then []
    else
      var last := cats[|cats| - 1];
      Matched(text, cats[..|cats| - 1]) + (if HasKeyword(text, last.1) then [last.0] else [])
  }

  /** `categorize_plugin`. */
  function CategoriesOf(d: PluginData, cats: seq<Category>): seq<string>
  {
    Unique(Matched(SearchText(d), cats))
  }

  lemma {:induction false} MatchedMembers(text: string, cats: seq<Category>, c: string)
    ensures c in Matched(text, cats) <==> exists i :: 0 <= i < |cats| && cats[i].0 == c && HasKeyword(text, cats[i].1)
  {
    if cats != [] {
      var init := cats[..|cats| - 1];
      MatchedMembers(text, init, c);
      assert forall i :: 0 <= i < |init| ==> init[i] == cats[i];
    }
  }

  /**
   * A plugin is in a category iff one of the category's keywords is a
   * case-insensitive substring of its name and description; no category is
   * listed twice.
   */
  lemma CategoriesOfMeaning(d: PluginData, cats: seq<Category>, c: string)
    ensures NoRepeats(CategoriesOf(d, cats))
    ensures c in CategoriesOf(d, cats) <==>
      exists i :: 0 <= i < |cats| && cats[i].0 == c && HasKeyword(SearchText(d), cats[i].1)
  {
    var m := Matched(SearchText(d), cats);
    var u := CategoriesOf(d, cats);
    MatchedMembers(SearchText(d), cats, c);
    if c in m {
      var k :| 0 <= k < |m| && m[k] == c;
      assert m[k] in u;
    }
    if c in u {
      var k :| 0 <= k < |u| && u[k] == c;
      assert u[k] in m;
    }
  }

  /** `categorize_plugin`: the first matching keyword of each category adds it. */
  method CategorizePlugin(d: PluginData, cats: seq<Category>) returns (found: seq<string>)
    ensures found == CategoriesOf(d, cats)
  {
    var text := ToLower(d.name + " " + d.description);
    var matched: seq<string> := [];
    var i := 0;
    while i < |cats|
      invariant 0 <= i <= |cats|
      invariant matched == Matched(text, cats[..i])
    {
      var (category, keywords) := cats[i];
      assert cats[..i + 1][..i] == cats[..i];
      var j := 0;
      var hit := false;
      while j < |keywords|
        invariant 0 <= j <= |keywords|
        invariant !hit ==> forall k :: 0 <= k < j ==> !Contains(text, ToLower(keywords[k]))
        invariant hit ==> HasKeyword(text, keywords)
      {
        if Contains(text, ToLower(keywords[j])) {
          hit := true;
          break;
        }
        j := j + 1;
      }
      if hit {
        matched := matched + [category];
      }
      i := i + 1;
    }
    assert cats[..i] == cats;
    found := Unique(matched);
  }

  // ---------------------------------------------------------------------
  // Overlaps
  // ---------------------------------------------------------------------

  const HighRiskCategories: seq<string> := ["cache", "security", "seo", "backup"]

  /** `calculate_overlap_severity`. */
  function OverlapSeverity(category: string, count: nat): (s: Severity)
    ensures s == High || s == Medium || s == Low
  {
    if category in HighRiskCategories && count > 1 then High
    else if count > 2 then Medium
    else Low
  }

  /** Cache, security, SEO and backup overlaps are always high; for the others, three or more plugins make it medium. */
  lemma OverlapSeverityLevels(category: string, count: nat)
    requires count > 1
    ensures category in HighRiskCategories ==> OverlapSeverity(category, count) == High
    ensures category !in HighRiskCategories ==> (OverlapSeverity(category, count) == Medium <==> count > 2)
    ensures category !in HighRiskCategories ==> OverlapSeverity(category, count) != High
  {
  }

  /** `get_category_recommendation` for `count` plugins. */
  function Recommendation(category: string, count: nat): string
  {
    var n := NatToString(count);
    if category == "cache" then "You have " + n + " caching plugins active. This can cause conflicts and reduce performance. Keep only one caching plugin."
    else if category == "security" then "Multiple security plugins (" + n + ") may conflict. Choose one comprehensive security solution."
    else if category == "seo" then n + " SEO plugins detected. Multiple SEO plugins can create duplicate meta tags. Use only one SEO plugin."
    else if category == "backup" then n + " backup plugins found. Multiple backup solutions waste resources. Choose one reliable backup plugin."
    else if category == "forms" then n + " form plugins active. Consider consolidating to one form solution to reduce overhead."
    else if category == "social" then "You have " + n + " social sharing plugins. These often have overlapping features - one should be sufficient."
    else if category == "spam" then n + " anti-spam plugins detected. One good anti-spam solution is usually enough."
    else "You have " + n + " plugins in the " + category + " category. Review if all are necessary."
  }

  /** The categories with a dedicated recommendation. */
  const DedicatedCategories: seq<string> := ["cache", "security", "seo", "backup", "forms", "social", "spam"]

  lemma Infix(a: string, x: string, b: string)
    ensures Contains(a + x + b, x)
  {
    ContainsInfix(a, x, b);
  }

  lemma Prefix(x: string, b: string)
    ensures Contains(x + b, x)
  {
    ContainsInfix("", x, b);
    assert "" + x + b == x + b;
  }

  /** Every recommendation states the number of plugins. */
  lemma RecommendationStatesCount(category: string, count: nat)
    ensures Contains(Recommendation(category, count), NatToString(count))
  {
    var n := NatToString(count);
    if category == "cache" {
      Infix("You have ", n, " caching plugins active. This can cause conflicts and reduce performance. Keep only one caching plugin.");
    } else if category == "security" {
      Infix("Multiple security plugins (", n, ") may conflict. Choose one comprehensive security solution.");
    } else if category == "seo" {
      Prefix(n, " SEO plugins detected. Multiple SEO plugins can create duplicate meta tags. Use only one SEO plugin.");
    } else if category == "backup" {
      Prefix(n, " backup plugins found. Multiple backup solutions waste resources. Choose one reliable backup plugin.");
    } else if category == "forms" {
      Prefix(n, " form plugins active. Consider consolidating to one form solution to reduce overhead.");
    } else if category == "social" {
      Infix("You have ", n, " social sharing plugins. These often have overlapping features - one should be sufficient.");
    } else if category == "spam" {
      Prefix(n, " anti-spam plugins detected. One good anti-spam solution is usually enough.");
    } else {
      var tail := " plugins in the " + category + " category. Review if all are necessary.";
      assert Recommendation(category, count) == "You have " + n + tail;
      Infix("You have ", n, tail);
    }
  }

  /** A category without its own text gets the generic one, which names the category. */
  lemma RecommendationFallback(category: string, count: nat)
    requires category !in DedicatedCategories
    ensures Recommendation(category, count) ==
      "You have " + NatToString(count) + " plugins in the " + category + " category. Review if all are necessary."
    ensures Contains(Recommendation(category, count), category)
  {
    var head := "You have " + NatToString(count) + " plugins in the ";
    Infix(head, category, " category. Review if all are necessary.");
  }

  function OverlapOf(e: (string, seq<string>)): Overlap
  {
    Overlap(e.0, e.1, |e.1|, OverlapSeverity(e.0, |e.1|), Recommendation(e.0, |e.1|))
  }

  function OverlapMaker(): ((string, seq<string>)) -> Overlap
  {
    e => OverlapOf(e)
  }

  /** The entries of `groups` with more than one member, each turned into a report by `mk`, in group order. */
  function SharedWith<R>(groups: Groups<string, string>, mk: ((string, seq<string>)) -> R): seq<R>
  {
    if groups == [] then []
    else
      var last := groups[|groups| - 1];
      SharedWith(groups[..|groups| - 1], mk) + (if |last.1| > 1 then [mk(last)] else [])
  }

  /** The report loop of `analyze_overlaps`: the categories with more than one plugin, in group order. */
  function OverlapReports(groups: Groups<string, string>): seq<Overlap>
  {
    SharedWith(groups, OverlapMaker())
  }

  function CategoriesFor(cats: seq<Category>): PluginEntry -> seq<string>
  {
    (e: PluginEntry) => CategoriesOf(e.1, cats)
  }

  function NameOf(): PluginEntry -> string
  {
    (e: PluginEntry) => e.1.name
  }

  /** `$category_groups`: category => names of the plugins in it, categories in first-seen order. */
  function CategoryGroups(plugins: seq<PluginEntry>, cats: seq<Category>): Groups<string, string>
  {
    UsageOf(plugins, CategoriesFor(cats), NameOf(), KeepAll())
  }

  /** `analyze_overlaps` against the category table `cats`. */
  function OverlapsOf(plugins: seq<PluginEntry>, cats: seq<Category>): seq<Overlap>
  {
    OverlapReports(CategoryGroups(plugins, cats))
  }

  lemma {:induction false} SharedWithMembers<R>(groups: Groups<string, string>, mk: ((string, seq<string>)) -> R, o: R)
    ensures o in SharedWith(groups, mk) <==> exists i :: 0 <= i < |groups| && |groups[i].1| > 1 && o == mk(groups[i])
  {
    if groups != [] {
      var init := groups[..|groups| - 1];
      SharedWithMembers(init, mk, o);
      assert forall i :: 0 <= i < |init| ==> init[i] == groups[i];
    }
  }

  lemma OverlapReportsMembers(groups: Groups<string, string>, o: Overlap)
    ensures o in OverlapReports(groups) <==> exists i :: 0 <= i < |groups| && |groups[i].1| > 1 && o == OverlapOf(groups[i])
  {
    SharedWithMembers(groups, OverlapMaker(), o);
  }

  /**
   * A category is reported iff at least two plugins are in it; the entry
   * lists exactly those plugins, in input order, with `count` their number.
   */
  lemma OverlapsIff(plugins: seq<PluginEntry>, cats: seq<Category>, c: string)
    ensures (exists o :: o in OverlapsOf(plugins, cats) && o.category == c) <==>
      CountIf(plugins, Uses(CategoriesFor(cats), c)) >= 2
    ensures forall o :: o in OverlapsOf(plugins, cats) ==>
      (o.plugins == Users(plugins, CategoriesFor(cats), NameOf(), o.category) && o.count == |o.plugins| && o.count > 1)
  {
    var g := CategoryGroups(plugins, cats);
    assert forall i :: 0 <= i < |plugins| ==> NoRepeats(CategoriesFor(cats)(plugins[i]));
    UsageMeaning(plugins, CategoriesFor(cats), NameOf(), KeepAll(), c);
    UsersAreHolders(plugins, CategoriesFor(cats), NameOf(), c);
    SharedIff(g, c);
    forall o | o in OverlapsOf(plugins, cats)
      ensures o.plugins == Users(plugins, CategoriesFor(cats), NameOf(), o.category) && o.count == |o.plugins| && o.count > 1
    {
      OverlapReportsMembers(g, o);
      var i :| 0 <= i < |g| && |g[i].1| > 1 && o == OverlapOf(g[i]);
      LookupEntry(g, i);
      UsageMeaning(plugins, CategoriesFor(cats), NameOf(), KeepAll(), o.category);
    }
    if exists o :: o in OverlapsOf(plugins, cats) && o.category == c {
      var o :| o in OverlapsOf(plugins, cats) && o.category == c;
      OverlapReportsMembers(g, o);
      var i :| 0 <= i < |g| && |g[i].1| > 1 && o == OverlapOf(g[i]);
      assert g[i].0 == c;
    }
    if CountIf(plugins, Uses(CategoriesFor(cats), c)) >= 2 {
      var i :| 0 <= i < |g| && g[i].0 == c && |g[i].1| > 1;
      OverlapReportsMembers(g, OverlapOf(g[i]));
      assert OverlapOf(g[i]) in OverlapsOf(plugins, cats);
    }
  }

  /** Every overlap has severity low, medium or high and a recommendation that states its count. */
  lemma OverlapFacts(plugins: seq<PluginEntry>, cats: seq<Category>, o: Overlap)
    requires o in OverlapsOf(plugins, cats)
    ensures o.severity == High || o.severity == Medium || o.severity == Low
    ensures o.severity == OverlapSeverity(o.category, o.count)
    ensures Contains(o.recommendation, NatToString(o.count))
  {
    var g := CategoryGroups(plugins, cats);
    OverlapReportsMembers(g, o);
    var i :| 0 <= i < |g| && |g[i].1| > 1 && o == OverlapOf(g[i]);
    RecommendationStatesCount(o.category, o.count);
  }

  /** The first loop of `analyze_overlaps`: each plugin's name and categories. */
  method CategorizeAll(plugins: seq<PluginEntry>, cats: seq<Category>) returns (pluginCategories: seq<(string, seq<string>)>)
    ensures |pluginCategories| == |plugins|
    ensures forall k :: 0 <= k < |plugins| ==>
      pluginCategories[k] == (NameOf()(plugins[k]), CategoriesFor(cats)(plugins[k]))
  {
    pluginCategories := [];
    var i := 0;
    while i < |plugins|
      invariant 0 <= i <= |plugins|
      invariant |pluginCategories| == i
      invariant forall k :: 0 <= k < i ==> pluginCategories[k] == (NameOf()(plugins[k]), CategoriesFor(cats)(plugins[k]))
    {
      var found := CategorizePlugin(plugins[i].1, cats);
      pluginCategories := pluginCategories + [(plugins[i].1.name, found)];
      i := i + 1;
    }
  }

  /** The second loop of `analyze_overlaps`: each plugin is appended to each of its categories. */
  method GroupCategories(plugins: seq<PluginEntry>, cats: seq<Category>, pluginCategories: seq<(string, seq<string>)>)
    returns (groups: Groups<string, string>)
    requires |pluginCategories| == |plugins|
    requires forall k :: 0 <= k < |plugins| ==>
      pluginCategories[k] == (NameOf()(plugins[k]), CategoriesFor(cats)(plugins[k]))
    ensures groups == CategoryGroups(plugins, cats)
  {
    groups := [];
    var i := 0;
    while i < |plugins|
      invariant 0 <= i <= |plugins|
      invariant groups == CategoryGroups(plugins[..i], cats)
    {
      var (name, categories) := pluginCategories[i];
      assert plugins[..i + 1][..i] == plugins[..i];
      groups := AddEach(groups, categories, name, KeepAll());
      i := i + 1;
    }
    assert plugins[..i] == plugins;
  }

  /** The report loop of `analyze_overlaps`. */
  method ReportOverlaps(groups: Groups<string, string>) returns (overlaps: seq<Overlap>)
    ensures overlaps == OverlapReports(groups)
  {
    overlaps := [];
    var i := 0;
    while i < |groups|
      invariant 0 <= i <= |groups|
      invariant overlaps == OverlapReports(groups[..i])
    {
      assert groups[..i + 1][..i] == groups[..i];
      var (category, list) := groups[i];
      if |list| > 1 {
        overlaps := overlaps + [Overlap(category, list, |list|, OverlapSeverity(category, |list|), Recommendation(category, |list|))];
      }
      i := i + 1;
    }
    assert groups[..i] == groups;
  }

  /** `analyze_overlaps`: categorise, group, report. */
  method AnalyzeOverlaps(plugins: seq<PluginEntry>) returns (overlaps: seq<Overlap>)
    ensures overlaps == OverlapsOf(plugins, Categories())
  {
    var cats := Categories();
    var pluginCategories := CategorizeAll(plugins, cats);
    var groups := GroupCategories(plugins, cats, pluginCategories);
    overlaps := ReportOverlaps(groups);
  }

  // ---------------------------------------------------------------------
  // Alternatives
  // ---------------------------------------------------------------------

  /** The categories that have suggested alternatives. */
  const AlternativeCategories: seq<string> := ["seo", "cache", "security", "backup", "forms"]

  /** The plugins `get_category_alternatives` suggests. */
  datatype Alternative =
    | YoastSeo | RankMath | SeoFramework
    | WpRocket | W3TotalCache | WpSuperCache
    | Wordfence | Sucuri | IThemesSecurity
    | UpdraftPlus | BackWPup | Duplicator
    | WPForms | GravityForms | ContactForm7
  {
    /** The key of the entry. */
    function Name(): string
    {
      match this
      case YoastSeo => "Yoast SEO"
      case RankMath => "Rank Math"
      case SeoFramework => "The SEO Framework"
      case WpRocket => "WP Rocket"
      case W3TotalCache => "W3 Total Cache"
      case WpSuperCache => "WP Super Cache"
      case Wordfence => "Wordfence Security"
      case Sucuri => "Sucuri Security"
      case IThemesSecurity => "iThemes Security"
      case UpdraftPlus => "UpdraftPlus"
      case BackWPup => "BackWPup"
      case Duplicator => "Duplicator"
      case WPForms => "WPForms"
      case GravityForms => "Gravity Forms"
      case ContactForm7 => "Contact Form 7"
    }

    /** The value of the entry. */
    function Description(): string
    {
      match this
      case YoastSeo => "Comprehensive SEO solution with excellent documentation"
      case RankMath => "Feature-rich SEO plugin with built-in advanced features"
      case SeoFramework => "Lightweight and fast SEO plugin"
      case WpRocket => "Premium caching solution with excellent support"
      case W3TotalCache => "Free, comprehensive caching plugin"
      case WpSuperCache => "Simple and reliable caching solution"
      case Wordfence => "Comprehensive security with firewall and malware scanner"
      case Sucuri => "Security auditing, malware scanning, and hardening"
      case IThemesSecurity => "Easy-to-use security hardening plugin"
      case UpdraftPlus => "Popular backup and restoration plugin"
      case BackWPup => "Complete backup solution with multiple destinations"
      case Duplicator => "Backup and migration tool"
      case WPForms => "User-friendly drag-and-drop form builder"
      case GravityForms => "Powerful forms with advanced features"
      case ContactForm7 => "Simple and flexible contact form"
    }
  }

  /** `get_category_alternatives`: the suggested plugins, in the order of the returned array. */
  function CategoryAlternatives(category: string): (r: seq<Alternative>)
    ensures |r| == if category in AlternativeCategories then 3 else 0
  {
    if category == "seo" then [YoastSeo, RankMath, SeoFramework]
    else if category == "cache" then [WpRocket, W3TotalCache, WpSuperCache]
    else if category == "security" then [Wordfence, Sucuri, IThemesSecurity]
    else if category == "backup" then [UpdraftPlus, BackWPup, Duplicator]
    else if category == "forms" then [WPForms, GravityForms, ContactForm7]
    else []
  }

  /** No plugin is suggested twice for one category. */
  lemma AlternativesDistinct(category: string)
    ensures forall i, j :: 0 <= i < j < |CategoryAlternatives(category)| ==>
      CategoryAlternatives(category)[i] != CategoryAlternatives(category)[j]
  {
  }

  /** Every high-risk category has alternatives to offer. */
  lemma HighRiskHaveAlternatives(category: string)
    requires category in HighRiskCategories
    ensures CategoryAlternatives(category) != []
  {
    assert category in AlternativeCategories;
  }

  // ---------------------------------------------------------------------
  // Hook patterns
  // ---------------------------------------------------------------------

  /** A plugin with the hooks the plugin scanner found in it. */
  datatype HookPlugin = HookPlugin(file: string, name: string, actions: seq<string>, filters: seq<string>)

  datatype Pattern = Pattern(plugin1: string, plugin2: string, commonHooks: nat, similarity: real)

  /** `array_merge($hooks['actions'], $hooks['filters'])`. */
  function AllHooks(p: HookPlugin): seq<string>
  {
    p.actions + p.filters
  }

  function InList(s: seq<string>): string -> bool
  {
    x => x in s
  }

  /** `array_intersect($all_hooks, $other_all_hooks)`: the first list's entries that the second has. */
  function CommonHooks(p: HookPlugin, q: HookPlugin): seq<string>
  {
    Filter(AllHooks(p), InList(AllHooks(q)))
  }

  function Max(a: nat, b: nat): nat
  {
    if a >= b then a else b
  }

  /** The share of common hooks, in percent of the longer list. */
  function Similarity(p: HookPlugin, q: HookPlugin): (r: real)
    requires |CommonHooks(p, q)| > 5
    ensures 0.0 < r <= 100.0
  {
    var longest := Max(|AllHooks(p)|, |AllHooks(q)|);
    RatioBound(|CommonHooks(p, q)|, longest);
    (|CommonHooks(p, q)| as real / longest as real) * 100.0
  }

  lemma RatioBound(part: nat, whole: nat)
    requires 0 < part <= whole
    ensures 0.0 < (part as real / whole as real) * 100.0 <= 100.0
  {
    var q := part as real / whole as real;
    assert q * whole as real == part as real;
    assert q <= 1.0;
  }

  /** The pair is reported: more than five common hooks and more than 20 % similarity. */
  predicate Similar(p: HookPlugin, q: HookPlugin)
  {
    |CommonHooks(p, q)| > 5 && Similarity(p, q) > 20.0
  }

  function PatternOf(p: HookPlugin, q: HookPlugin): Pattern
    requires |CommonHooks(p, q)| > 5
  {
    Pattern(p.name, q.name, |CommonHooks(p, q)|, Round2(Similarity(p, q)))
  }

  /** The inner loop for `p` over `others`. */
  function Row(p: HookPlugin, others: seq<HookPlugin>): seq<Pattern>
  {
    if others == [] then []
    else
      var q := others[|others| - 1];
      Row(p, others[..|others| - 1]) + (if p.file != q.file && Similar(p, q) then [PatternOf(p, q)] else [])
  }

  function RowOf(ps: seq<HookPlugin>): HookPlugin -> seq<Pattern>
  {
    p => Row(p, ps)
  }

  /** `analyze_hook_patterns`. */
  function Patterns(ps: seq<HookPlugin>): seq<Pattern>
  {
    FlatMap(ps, RowOf(ps))
  }

  lemma {:induction false} RowMembers(p: HookPlugin, others: seq<HookPlugin>, x: Pattern)
    ensures x in Row(p, others) <==> exists j :: 0 <= j < |others| && p.file != others[j].file && Similar(p, others[j]) && x == PatternOf(p, others[j])
  {
    if others != [] {
      var init := others[..|others| - 1];
      RowMembers(p, init, x);
      assert forall j :: 0 <= j < |init| ==> init[j] == others[j];
    }
  }

  /**
   * A pattern comes from two entries with different plugin files, more than
   * five common hooks and more than 20 % similarity, and every such ordered
   * pair gives one.
   */
  lemma PatternsIff(ps: seq<HookPlugin>, x: Pattern)
    ensures x in Patterns(ps) <==> exists i, j :: (0 <= i < |ps| && 0 <= j < |ps| && ps[i].file != ps[j].file &&
      Similar(ps[i], ps[j]) && x == PatternOf(ps[i], ps[j]))
  {
    FlatMapMember(ps, RowOf(ps), x);
    if x in Patterns(ps) {
      var i :| 0 <= i < |ps| && x in RowOf(ps)(ps[i]);
      RowMembers(ps[i], ps, x);
    }
    if exists i, j :: 0 <= i < |ps| && 0 <= j < |ps| && ps[i].file != ps[j].file && Similar(ps[i], ps[j]) && x == PatternOf(ps[i], ps[j]) {
      var i, j :| 0 <= i < |ps| && 0 <= j < |ps| && ps[i].file != ps[j].file && Similar(ps[i], ps[j]) && x == PatternOf(ps[i], ps[j]);
      RowMembers(ps[i], ps, x);
      assert x in RowOf(ps)(ps[i]);
    }
  }

  /**
   * Every reported pattern has more than five common hooks and a similarity,
   * rounded to two places, in [20, 100].
   */
  lemma PatternBounds(ps: seq<HookPlugin>, x: Pattern)
    requires x in Patterns(ps)
    ensures x.commonHooks > 5 && 20.0 <= x.similarity <= 100.0
  {
    PatternsIff(ps, x);
    var i, j :| 0 <= i < |ps| && 0 <= j < |ps| && ps[i].file != ps[j].file && Similar(ps[i], ps[j]) && x == PatternOf(ps[i], ps[j]);
    SimilarRounded(Similarity(ps[i], ps[j]));
  }

  /** A similarity above 20 percent stays in [20, 100] once rounded to two places. */
  lemma SimilarRounded(sim: real)
    requires 20.0 < sim <= 100.0
    ensures 20.0 <= Round2(sim) <= 100.0
  {
    RoundMonotone(2000.0, sim * 100.0);
    Round2Range(sim);
  }

  /** `analyze_hook_patterns`: every ordered pair of different plugin files. */
  method AnalyzeHookPatterns(ps: seq<HookPlugin>) returns (patterns: seq<Pattern>)
    ensures patterns == Patterns(ps)
  {
    patterns := [];
    var i := 0;
    while i < |ps|
      invariant 0 <= i <= |ps|
      invariant patterns == FlatMap(ps[..i], RowOf(ps))
    {
      var p := ps[i];
      var all := p.actions + p.filters;
      var base := patterns;
      var j := 0;
      while j < |ps|
        invariant 0 <= j <= |ps|
        invariant patterns == base + Row(p, ps[..j])
      {
        var q := ps[j];
        assert ps[..j + 1][..j] == ps[..j];
        if p.file == q.file {
          j := j + 1;
          continue;
        }
        var other := q.actions + q.filters;
        var common := Filter(all, InList(other));
        if |common| > 5 {
          var similarity := (|common| as real / Max(|all|, |other|) as real) * 100.0;
          if similarity > 20.0 {
            patterns := patterns + [Pattern(p.name, q.name, |common|, Round2(similarity))];
          }
        }
        j := j + 1;
      }
      assert ps[..j] == ps;
      FlatMapSnoc(ps, i, RowOf(ps));
      i := i + 1;
    }
    assert ps[..i] == ps;
  }
}
