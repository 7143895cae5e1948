/**
 * The conflict detector: hooks, functions, globals and database tables that
 * more than one active plugin uses. The plugin scanner's per-plugin findings
 * (its regex matches over the plugin's files) are the input; the detector
 * builds "name => plugin names" usage dictionaries and reports every name
 * used more than once.
 */
module ConflictDetector {
  import opened Common
  import opened WpcmCommon

  /** What the plugin scanner reports for one active plugin (each list without repeats). */
  datatype ScannedPlugin = ScannedPlugin(
    file: string,
    name: string,
    actions: seq<string>,
    filters: seq<string>,
    functions: seq<string>,
    globals: seq<string>,
    tables: seq<string>)

  /** The two halves of `$hook_usage`. */
  datatype HookType = Actions | Filters

  /** Which detector reported a conflict; it decides the entry's name key (`hook`, `function`, ...). */
  datatype ConflictKind = Hook(hookType: HookType) | FunctionKind | GlobalKind | TableKind

  /** One reported conflict: the shared name, the plugins using it, and its severity. */
  datatype DetectedConflict = DetectedConflict(kind: ConflictKind, name: string, plugins: seq<string>, severity: Severity)

  /** A usage dictionary: name => names of the plugins that use it, once per use. */
  type Usage = Groups<string, string>

  // ---------------------------------------------------------------------
  // WordPress names and severities
  // ---------------------------------------------------------------------

  const WpPrefixes: seq<string> := ["wp_", "get_", "add_", "remove_", "do_", "apply_", "is_", "has_"]

  const WpGlobals: seq<string> := ["wpdb", "wp_query", "wp_rewrite", "wp", "post", "wp_the_query",
    "wp_version", "wp_db_version", "tinymce_version", "required_php_version",
    "required_mysql_version", "wp_local_package"]

  const HighPriorityHooks: seq<string> := ["init", "wp_head", "wp_footer", "admin_init", "admin_menu"]

  /**
   * `is_wordpress_function`: a WordPress prefix, else whatever
   * `function_exists` (a parameter here) says.
   */
  predicate IsWordPressFunction(name: string, functionExists: string -> bool)
  {
    (exists i :: 0 <= i < |WpPrefixes| && StartsWith(name, WpPrefixes[i])) || functionExists(name)
  }

  /** A `wp_`, `get_`, ... function is a WordPress one whatever `function_exists` says. */
  lemma PrefixedIsWordPress(name: string, i: int, functionExists: string -> bool)
    requires 0 <= i < |WpPrefixes| && StartsWith(name, WpPrefixes[i])
    ensures IsWordPressFunction(name, functionExists)
  {
  }

  /** `is_wordpress_global`. */
  predicate IsWordPressGlobal(name: string)
  {
    name in WpGlobals
  }

  /** `calculate_hook_severity`. */
  function HookSeverity(hook: string, count: nat): (s: Severity)
    ensures s == High || s == Medium || s == Low
    ensures s == High ==> hook in HighPriorityHooks
  {
    if hook in HighPriorityHooks && count > 3 then High
    else if count > 5 then Medium
    else Low
  }

  /** The order of the three levels: low 0, medium 1, high 2. */
  function Level(s: Severity): nat
  {
    match s
    case High => 2
    case Medium => 1
    case _ => 0
  }

  /** More plugins on a hook never make its severity lower. */
  lemma HookSeverityMonotone(hook: string, m: nat, n: nat)
    requires m <= n
    ensures Level(HookSeverity(hook, m)) <= Level(HookSeverity(hook, n))
  {
  }

  /** The severity a detector gives a name shared by `count` plugins. */
  function SeverityFor(kind: ConflictKind, name: string, count: nat): Severity
  {
    match kind
    case Hook(_) => HookSeverity(name, count)
    case FunctionKind => High
    case GlobalKind => Medium
    case TableKind => High
  }

  // ---------------------------------------------------------------------
  // Usage dictionaries
  // ---------------------------------------------------------------------

  /** The scanner output a detector reads. */
  function Items(kind: ConflictKind): ScannedPlugin -> seq<string>
  {
    (p: ScannedPlugin) => match kind
      case Hook(Actions) => p.actions
      case Hook(Filters) => p.filters
      case FunctionKind => p.functions
      case GlobalKind => p.globals
      case TableKind => p.tables
  }

  function NotWordPressFunction(functionExists: string -> bool): string -> bool
  {
    k => !IsWordPressFunction(k, functionExists)
  }

  function NotWordPressGlobal(): string -> bool
  {
    k => !IsWordPressGlobal(k)
  }

  /** The names a detector records (the others it skips with `continue`). */
  function Keep(kind: ConflictKind, functionExists: string -> bool): string -> bool
  {
    match kind
    case FunctionKind => NotWordPressFunction(functionExists)
    case GlobalKind => NotWordPressGlobal()
    case _ => KeepAll()
  }

  function PluginName(): ScannedPlugin -> string
  {
    (p: ScannedPlugin) => p.name
  }

  // ---------------------------------------------------------------------
  // Reports
  // ---------------------------------------------------------------------

  function ReportOf(kind: ConflictKind, e: (string, seq<string>)): DetectedConflict
  {
    DetectedConflict(kind, e.0, e.1, SeverityFor(kind, e.0, |e.1|))
  }

  /** The second loop of a detector: one entry per name with more than one user, in dictionary order. */
  function Reports(u: Usage, kind: ConflictKind): seq<DetectedConflict>
  {
    if u == [] then []
    else
      var last := u[|u| - 1];
      Reports(u[..|u| - 1], kind) + (if |last.1| > 1 then [ReportOf(kind, last)] else [])
  }

  lemma {:induction false} ReportsMembers(u: Usage, kind: ConflictKind, c: DetectedConflict)
    ensures c in Reports(u, kind) <==> exists i :: 0 <= i < |u| && |u[i].1| > 1 && c == ReportOf(kind, u[i])
  {
    if u != [] {
      var init := u[..|u| - 1];
      ReportsMembers(init, kind, c);
      assert forall i :: 0 <= i < |init| ==> init[i] == u[i];
    }
  }

  /** A report names `k` iff the dictionary holds more than one user for it, and then lists exactly those. */
  lemma ReportsIff(u: Usage, kind: ConflictKind, k: string)
    requires DistinctKeys(u)
    ensures (exists c :: c in Reports(u, kind) && c.name == k) <==> |Lookup(u, k)| > 1
    ensures forall c :: c in Reports(u, kind) ==>
      (c.kind == kind && c.plugins == Lookup(u, c.name) &&
       |c.plugins| > 1 && c.severity == SeverityFor(kind, c.name, |c.plugins|))
  {
    forall c | c in Reports(u, kind)
      ensures c.kind == kind && c.plugins == Lookup(u, c.name) && |c.plugins| > 1 &&
        c.severity == SeverityFor(kind, c.name, |c.plugins|)
    {
      ReportsMembers(u, kind, c);
      var i :| 0 <= i < |u| && |u[i].1| > 1 && c == ReportOf(kind, u[i]);
      LookupEntry(u, i);
    }
    SharedIff(u, k);
    if |Lookup(u, k)| > 1 {
      var i :| 0 <= i < |u| && u[i].0 == k && |u[i].1| > 1;
      ReportsMembers(u, kind, ReportOf(kind, u[i]));
      assert ReportOf(kind, u[i]) in Reports(u, kind);
    }
  }

  /** The usage dictionary of a detector. */
  function UsageFor(ps: seq<ScannedPlugin>, kind: ConflictKind, functionExists: string -> bool): Usage
  {
    UsageOf(ps, Items(kind), PluginName(), Keep(kind, functionExists))
  }

  /** `detect_function_conflicts`, `detect_global_conflicts`, `detect_table_conflicts`, and one half of the hooks. */
  function ConflictsFor(ps: seq<ScannedPlugin>, kind: ConflictKind, functionExists: string -> bool): seq<DetectedConflict>
  {
    Reports(UsageFor(ps, kind, functionExists), kind)
  }

  /**
   * A detector reports a name iff it does not skip it and more than one
   * plugin uses it; the entry lists those plugins in input order and carries
   * the detector's severity.
   */
  lemma ConflictsForIff(ps: seq<ScannedPlugin>, kind: ConflictKind, functionExists: string -> bool, k: string)
    ensures (exists c :: c in ConflictsFor(ps, kind, functionExists) && c.name == k) <==>
      Keep(kind, functionExists)(k) && |Users(ps, Items(kind), PluginName(), k)| > 1
    ensures forall c :: c in ConflictsFor(ps, kind, functionExists) ==>
      (c.kind == kind && Keep(kind, functionExists)(c.name) && c.plugins == Users(ps, Items(kind), PluginName(), c.name) &&
       |c.plugins| > 1 && c.severity == SeverityFor(kind, c.name, |c.plugins|))
  {
    var u := UsageFor(ps, kind, functionExists);
    UsageMeaning(ps, Items(kind), PluginName(), Keep(kind, functionExists), k);
    ReportsIff(u, kind, k);
    forall c | c in ConflictsFor(ps, kind, functionExists)
      ensures Keep(kind, functionExists)(c.name) && c.plugins == Users(ps, Items(kind), PluginName(), c.name)
    {
      UsageMeaning(ps, Items(kind), PluginName(), Keep(kind, functionExists), c.name);
    }
  }

  /**
   * With the scanner's repeat-free lists, a name is reported iff the detector
   * keeps it and at least two plugin entries use it.
   */
  lemma ConflictsForEntries(ps: seq<ScannedPlugin>, kind: ConflictKind, functionExists: string -> bool, k: string)
    requires forall i :: 0 <= i < |ps| ==> NoRepeats(Items(kind)(ps[i]))
    ensures (exists c :: c in ConflictsFor(ps, kind, functionExists) && c.name == k) <==>
      Keep(kind, functionExists)(k) && CountIf(ps, Uses(Items(kind), k)) >= 2
  {
    ConflictsForIff(ps, kind, functionExists, k);
    UsersAreHolders(ps, Items(kind), PluginName(), k);
  }

  /** Function conflicts: never a WordPress function, always high. */
  lemma FunctionConflictFacts(ps: seq<ScannedPlugin>, functionExists: string -> bool, c: DetectedConflict)
    requires c in ConflictsFor(ps, FunctionKind, functionExists)
    ensures !IsWordPressFunction(c.name, functionExists) && c.severity == High
  {
    ConflictsForIff(ps, FunctionKind, functionExists, c.name);
    assert NotWordPressFunction(functionExists)(c.name);
  }

  /** Global conflicts: never a WordPress global, always medium. */
  lemma GlobalConflictFacts(ps: seq<ScannedPlugin>, functionExists: string -> bool, c: DetectedConflict)
    requires c in ConflictsFor(ps, GlobalKind, functionExists)
    ensures !IsWordPressGlobal(c.name) && c.severity == Medium
  {
    ConflictsForIff(ps, GlobalKind, functionExists, c.name);
    assert NotWordPressGlobal()(c.name);
  }

  /** Table conflicts: always high, and every shared table is reported. */
  lemma TableConflictFacts(ps: seq<ScannedPlugin>, functionExists: string -> bool, c: DetectedConflict)
    requires c in ConflictsFor(ps, TableKind, functionExists)
    ensures c.severity == High && |c.plugins| > 1
  {
    ConflictsForIff(ps, TableKind, functionExists, c.name);
  }

  // ---------------------------------------------------------------------
  // Hooks
  // ---------------------------------------------------------------------

  /** Records `t` as the next key of `$hook_usage` when the plugin has a hook of that type and the key is new. */
  function NoteType(order: seq<HookType>, t: HookType, hooks: seq<string>): seq<HookType>
  {
    if hooks != [] && t !in order then order + [t] else order
  }

  /** The keys of `$hook_usage` in creation order. */
  function TypeOrder(ps: seq<ScannedPlugin>): seq<HookType>
  {
    if ps == [] then []
    else
      var last := ps[|ps| - 1];
      NoteType(NoteType(TypeOrder(ps[..|ps| - 1]), Actions, last.actions), Filters, last.filters)
  }

  /** A hook type is a key iff some plugin has a hook of that type; no type is a key twice. */
  lemma {:induction false} TypeOrderMeaning(ps: seq<ScannedPlugin>, t: HookType)
    ensures t in TypeOrder(ps) <==> exists i :: 0 <= i < |ps| && Items(Hook(t))(ps[i]) != []
    ensures |TypeOrder(ps)| <= 2 && (|TypeOrder(ps)| == 2 ==> TypeOrder(ps)[0] != TypeOrder(ps)[1])
  {
    if ps != [] {
      var init := ps[..|ps| - 1];
      TypeOrderMeaning(init, t);
      assert forall i :: 0 <= i < |init| ==> init[i] == ps[i];
      var last := ps[|ps| - 1];
      assert Items(Hook(t))(last) == if t == Actions then last.actions else last.filters;
      var o := TypeOrder(init);
      NoteTypeShape(o, Actions, last.actions);
      NoteTypeShape(NoteType(o, Actions, last.actions), Filters, last.filters);
    }
  }

  lemma NoteTypeShape(order: seq<HookType>, t: HookType, hooks: seq<string>)
    requires |order| <= 2 && (|order| == 2 ==> order[0] != order[1])
    ensures var o := NoteType(order, t, hooks); |o| <= 2 && (|o| == 2 ==> o[0] != o[1])
  {
    if |order| == 2 {
      assert order[0] == t || order[1] == t;
    }
  }

  function HookUsage(ps: seq<ScannedPlugin>, t: HookType): Usage
  {
    UsageOf(ps, Items(Hook(t)), PluginName(), KeepAll())
  }

  function HookReports(ps: seq<ScannedPlugin>): HookType -> seq<DetectedConflict>
  {
    t => Reports(HookUsage(ps, t), Hook(t))
  }

  /** `detect_hook_conflicts`: the shared actions and filters, the type first created first. */
  function HookConflicts(ps: seq<ScannedPlugin>): seq<DetectedConflict>
  {
    FlatMap(TypeOrder(ps), HookReports(ps))
  }

  /**
   * A hook of type `t` is reported iff more than one plugin registers it as
   * that type; the entry lists those plugins in input order.
   */
  lemma HookConflictsIff(ps: seq<ScannedPlugin>, t: HookType, k: string)
    ensures (exists c :: c in HookConflicts(ps) && c.kind == Hook(t) && c.name == k) <==> |Users(ps, Items(Hook(t)), PluginName(), k)| > 1
    ensures forall c :: c in HookConflicts(ps) && c.kind == Hook(t) ==>
      (c.plugins == Users(ps, Items(Hook(t)), PluginName(), c.name) && c.severity == HookSeverity(c.name, |c.plugins|))
  {
    var f := HookReports(ps);
    var order := TypeOrder(ps);
    assert f(t) == ConflictsFor(ps, Hook(t), KeepAll());
    ConflictsForIff(ps, Hook(t), KeepAll(), k);
    forall c | c in HookConflicts(ps) && c.kind == Hook(t)
      ensures c in f(t)
    {
      FlatMapMember(order, f, c);
      var i :| 0 <= i < |order| && c in f(order[i]);
      assert f(order[i]) == ConflictsFor(ps, Hook(order[i]), KeepAll());
      ConflictsForIff(ps, Hook(order[i]), KeepAll(), c.name);
    }
    if |Users(ps, Items(Hook(t)), PluginName(), k)| > 1 {
      UsersNonEmpty(ps, Items(Hook(t)), PluginName(), k);
      TypeOrderMeaning(ps, t);
      var c :| c in f(t) && c.name == k;
      var i :| 0 <= i < |order| && order[i] == t;
      FlatMapMember(order, f, c);
      ConflictsForIff(ps, Hook(t), KeepAll(), k);
    }
  }

  // ---------------------------------------------------------------------
  // detect_conflicts and the summary
  // ---------------------------------------------------------------------

  /** The four lists of `detect_conflicts`, under their keys. */
  type ConflictReport = seq<(string, seq<DetectedConflict>)>

  function ReportFor(ps: seq<ScannedPlugin>, functionExists: string -> bool): (r: ConflictReport)
    ensures |r| == 4
    ensures r[0].0 == "hook_conflicts" && r[1].0 == "function_conflicts"
    ensures r[2].0 == "global_conflicts" && r[3].0 == "table_conflicts"
  {
    [("hook_conflicts", HookConflicts(ps)),
     ("function_conflicts", ConflictsFor(ps, FunctionKind, functionExists)),
     ("global_conflicts", ConflictsFor(ps, GlobalKind, functionExists)),
     ("table_conflicts", ConflictsFor(ps, TableKind, functionExists))]
  }

  datatype ByType = ByType(hooks: nat, functions: nat, globals: nat, tables: nat)

  datatype ConflictSummary = ConflictSummary(total: nat, high: nat, medium: nat, low: nat, byType: ByType)

  /** `$summary['by_type'][$key] = $n` when the key exists. */
  function SetByType(b: ByType, key: string, n: nat): ByType
  {
    if key == "hooks" then b.(hooks := n)
    else if key == "functions" then b.(functions := n)
    else if key == "globals" then b.(globals := n)
    else if key == "tables" then b.(tables := n)
    else b
  }

  function SeverityIs(s: Severity): DetectedConflict -> bool
  {
    (c: DetectedConflict) => c.severity == s
  }

  /** `get_conflict_summary` with the way the `by_type` key is derived from a list's key as a parameter. */
  function SummaryWith(report: ConflictReport, typeKey: string -> string): ConflictSummary
  {
    if report == [] then ConflictSummary(0, 0, 0, 0, ByType(0, 0, 0, 0))
    else
      var s := SummaryWith(report[..|report| - 1], typeKey);
      var (t, list) := report[|report| - 1];
      ConflictSummary(s.total + |list|,
        s.high + CountIf(list, SeverityIs(High)),
        s.medium + CountIf(list, SeverityIs(Medium)),
        s.low + CountIf(list, SeverityIs(Low)),
        SetByType(s.byType, typeKey(t), |list|))
  }

  /** The key as the source derives it: drop `_conflicts`, then trailing `s`. */
  function TypeKeyAsWritten(t: string): string
  {
    RTrimChar(ReplaceAll(t, "_conflicts", ""), 's')
  }

  /** The key the `by_type` table uses: `hook_conflicts` becomes `hooks`. */
  function TypeKey(t: string): string
  {
    ReplaceAll(t, "_conflicts", "s")
  }

  /** Every `by_type` key ends in `s`, and the derived key as written never does, so nothing is ever counted. */
  lemma {:induction false} ByTypeAlwaysZero(report: ConflictReport)
    ensures SummaryWith(report, TypeKeyAsWritten).byType == ByType(0, 0, 0, 0)
  {
    if report != [] {
      ByTypeAlwaysZero(report[..|report| - 1]);
      var key := TypeKeyAsWritten(report[|report| - 1].0);
      assert key == [] || key[|key| - 1] != 's';
      assert "hooks"[4] == 's' && "functions"[8] == 's' && "globals"[6] == 's' && "tables"[5] == 's';
    }
  }

  /** So the detector's own report, with shared tables, shows zero tables. */
  lemma ByTypeMissesDetectedTables(ps: seq<ScannedPlugin>, functionExists: string -> bool)
    requires ConflictsFor(ps, TableKind, functionExists) != []
    ensures SummaryWith(ReportFor(ps, functionExists), TypeKeyAsWritten).byType.tables == 0
    ensures |ReportFor(ps, functionExists)[3].1| > 0
  {
    ByTypeAlwaysZero(ReportFor(ps, functionExists));
  }

  lemma {:induction false} ReplaceSuffix(x: string, pat: string, rep: string)
    requires |pat| > 0 && pat[0] !in x
    ensures ReplaceAll(x + pat, pat, rep) == x + rep
  {
    var s := x + pat;
    if x == [] {
      assert s == pat;
      assert s[|pat|..] == [];
      assert ReplaceAll(s, pat, rep) == rep + ReplaceAll([], pat, rep);
    } else {
      assert s[..|pat|][0] == x[0];
      assert s[..|pat|] != pat;
      var t := x[1..];
      assert s[1..] == t + pat;
      assert ReplaceAll(s, pat, rep) == [x[0]] + ReplaceAll(t + pat, pat, rep);
      assert pat[0] !in t;
      ReplaceSuffix(t, pat, rep);
      assert [x[0]] + (t + rep) == x + rep;
    }
  }

  lemma HookKey()
    ensures TypeKey("hook_conflicts") == "hooks"
  {
    assert "hook_conflicts" == "hook" + "_conflicts";
    ReplaceSuffix("hook", "_conflicts", "s");
  }

  lemma FunctionKey()
    ensures TypeKey("function_conflicts") == "functions"
  {
    assert "function_conflicts" == "function" + "_conflicts";
    ReplaceSuffix("function", "_conflicts", "s");
  }

  lemma GlobalKey()
    ensures TypeKey("global_conflicts") == "globals"
  {
    assert "global_conflicts" == "global" + "_conflicts";
    ReplaceSuffix("global", "_conflicts", "s");
  }

  lemma TableKey()
    ensures TypeKey("table_conflicts") == "tables"
  {
    assert "table_conflicts" == "table" + "_conflicts";
    ReplaceSuffix("table", "_conflicts", "s");
  }

  /** With the corrected key, `by_type` holds the length of each of the four lists. */
  lemma ByTypeOfReport(ps: seq<ScannedPlugin>, functionExists: string -> bool)
    ensures var r := ReportFor(ps, functionExists);
      SummaryWith(r, TypeKey).byType == ByType(|r[0].1|, |r[1].1|, |r[2].1|, |r[3].1|)
  {
    var r := ReportFor(ps, functionExists);
    HookKey();
    assert r[..1][..0] == [];
    assert SummaryWith(r[..1], TypeKey).byType == ByType(|r[0].1|, 0, 0, 0);
    FunctionKey();
    assert r[..2][..1] == r[..1];
    assert SummaryWith(r[..2], TypeKey).byType == ByType(|r[0].1|, |r[1].1|, 0, 0);
    GlobalKey();
    assert r[..3][..2] == r[..2];
    assert SummaryWith(r[..3], TypeKey).byType == ByType(|r[0].1|, |r[1].1|, |r[2].1|, 0);
    TableKey();
    assert r[..4][..3] == r[..3] && r[..4] == r;
  }

  function ListOf(e: (string, seq<DetectedConflict>)): seq<DetectedConflict>
  {
    e.1
  }

  predicate ThreeLevels(c: DetectedConflict)
  {
    c.severity == High || c.severity == Medium || c.severity == Low
  }

  /**
   * `total_conflicts` is the number of listed conflicts; when every severity
   * is high, medium or low, the three counters add up to it.
   */
  lemma {:induction false} SummaryTotals(report: ConflictReport, typeKey: string -> string)
    ensures SummaryWith(report, typeKey).total == |FlatMap(report, ListOf)|
    ensures (forall c :: c in FlatMap(report, ListOf) ==> ThreeLevels(c)) ==>
      (var s := SummaryWith(report, typeKey); s.high + s.medium + s.low == s.total)
  {
    if report != [] {
      var init := report[..|report| - 1];
      var list := report[|report| - 1].1;
      SummaryTotals(init, typeKey);
      assert FlatMap(report, ListOf) == FlatMap(init, ListOf) + list;
      if forall c :: c in FlatMap(report, ListOf) ==> ThreeLevels(c) {
        assert forall c :: c in list ==> ThreeLevels(c);
        LevelsAddUp(list);
      }
    }
  }

  lemma {:induction false} LevelsAddUp(list: seq<DetectedConflict>)
    requires forall c :: c in list ==> ThreeLevels(c)
    ensures CountIf(list, SeverityIs(High)) + CountIf(list, SeverityIs(Medium)) + CountIf(list, SeverityIs(Low)) == |list|
  {
    if list != [] {
      var init := list[..|list| - 1];
      assert forall c :: c in init ==> c in list;
      LevelsAddUp(init);
      assert ThreeLevels(list[|list| - 1]);
    }
  }

  /** Every conflict the detector reports is high, medium or low, so its summary counters add up. */
  lemma ReportLevels(ps: seq<ScannedPlugin>, functionExists: string -> bool)
    ensures var s := SummaryWith(ReportFor(ps, functionExists), TypeKey); s.high + s.medium + s.low == s.total
  {
    var r := ReportFor(ps, functionExists);
    forall c | c in FlatMap(r, ListOf)
      ensures ThreeLevels(c)
    {
      FlatMapMember(r, ListOf, c);
      var i :| 0 <= i < |r| && c in ListOf(r[i]);
      if i == 0 {
        FlatMapMember(TypeOrder(ps), HookReports(ps), c);
        var j :| 0 <= j < |TypeOrder(ps)| && c in HookReports(ps)(TypeOrder(ps)[j]);
        var t := TypeOrder(ps)[j];
        assert HookReports(ps)(t) == ConflictsFor(ps, Hook(t), KeepAll());
        ConflictsForIff(ps, Hook(t), KeepAll(), c.name);
      } else {
        var kind := if i == 1 then FunctionKind else if i == 2 then GlobalKind else TableKind;
        assert r[i].1 == ConflictsFor(ps, kind, functionExists);
        ConflictsForIff(ps, kind, functionExists, c.name);
      }
    }
    SummaryTotals(r, TypeKey);
  }

  // ---------------------------------------------------------------------
  // The detector's loops
  // ---------------------------------------------------------------------

  /** The first loop of `detect_function/global/table_conflicts`. */
  method BuildUsage(ps: seq<ScannedPlugin>, kind: ConflictKind, functionExists: string -> bool) returns (usage: Usage)
    ensures usage == UsageFor(ps, kind, functionExists)
  {
    var keep := Keep(kind, functionExists);
    usage := [];
    var i := 0;
    while i < |ps|
      invariant 0 <= i <= |ps|
      invariant usage == UsageOf(ps[..i], Items(kind), PluginName(), keep)
    {
      var p := ps[i];
      var names := Items(kind)(p);
      assert ps[..i + 1][..i] == ps[..i];
      usage := AddEach(usage, names, p.name, keep);
      i := i + 1;
    }
    assert ps[..i] == ps;
  }

  /** The second loop of a detector. */
  method ReportShared(usage: Usage, kind: ConflictKind) returns (conflicts: seq<DetectedConflict>)
    ensures conflicts == Reports(usage, kind)
  {
    conflicts := [];
    var i := 0;
    while i < |usage|
      invariant 0 <= i <= |usage|
      invariant conflicts == Reports(usage[..i], kind)
    {
      assert usage[..i + 1][..i] == usage[..i];
      var (name, plugins) := usage[i];
      if |plugins| > 1 {
        conflicts := conflicts + [DetectedConflict(kind, name, plugins, SeverityFor(kind, name, |plugins|))];
      }
      i := i + 1;
    }
    assert usage[..i] == usage;
  }

  method DetectFunctionConflicts(ps: seq<ScannedPlugin>, functionExists: string -> bool) returns (conflicts: seq<DetectedConflict>)
    ensures conflicts == ConflictsFor(ps, FunctionKind, functionExists)
  {
    var usage := BuildUsage(ps, FunctionKind, functionExists);
    conflicts := ReportShared(usage, FunctionKind);
  }

  method DetectGlobalConflicts(ps: seq<ScannedPlugin>, functionExists: string -> bool) returns (conflicts: seq<DetectedConflict>)
    ensures conflicts == ConflictsFor(ps, GlobalKind, functionExists)
  {
    var usage := BuildUsage(ps, GlobalKind, functionExists);
    conflicts := ReportShared(usage, GlobalKind);
  }

  method DetectTableConflicts(ps: seq<ScannedPlugin>, functionExists: string -> bool) returns (conflicts: seq<DetectedConflict>)
    ensures conflicts == ConflictsFor(ps, TableKind, functionExists)
  {
    var usage := BuildUsage(ps, TableKind, functionExists);
    conflicts := ReportShared(usage, TableKind);
  }

  /** `detect_hook_conflicts`: both halves of `$hook_usage` in one pass, then the shared hooks per half. */
  method DetectHookConflicts(ps: seq<ScannedPlugin>) returns (conflicts: seq<DetectedConflict>)
    ensures conflicts == HookConflicts(ps)
  {
    var actions: Usage := [];
    var filters: Usage := [];
    var order: seq<HookType> := [];
    var i := 0;
    while i < |ps|
      invariant 0 <= i <= |ps|
      invariant actions == HookUsage(ps[..i], Actions)
      invariant filters == HookUsage(ps[..i], Filters)
      invariant order == TypeOrder(ps[..i])
    {
      var p := ps[i];
      assert ps[..i + 1][..i] == ps[..i];
      assert Items(Hook(Actions))(p) == p.actions && Items(Hook(Filters))(p) == p.filters;
      var order0 := order;
      var j := 0;
      while j < |p.actions|
        invariant 0 <= j <= |p.actions|
        invariant actions == AddAll(HookUsage(ps[..i], Actions), p.actions[..j], p.name, KeepAll())
        invariant order == NoteType(order0, Actions, p.actions[..j])
      {
        assert p.actions[..j + 1][..j] == p.actions[..j];
        if Actions !in order {
          order := order + [Actions];
        }
        actions := AddTo(actions, p.actions[j], p.name);
        j := j + 1;
      }
      assert p.actions[..j] == p.actions;
      var order1 := order;
      j := 0;
      while j < |p.filters|
        invariant 0 <= j <= |p.filters|
        invariant filters == AddAll(HookUsage(ps[..i], Filters), p.filters[..j], p.name, KeepAll())
        invariant order == NoteType(order1, Filters, p.filters[..j])
      {
        assert p.filters[..j + 1][..j] == p.filters[..j];
        if Filters !in order {
          order := order + [Filters];
        }
        filters := AddTo(filters, p.filters[j], p.name);
        j := j + 1;
      }
      assert p.filters[..j] == p.filters;
      i := i + 1;
    }
    assert ps[..i] == ps;
    conflicts := [];
    var k := 0;
    while k < |order|
      invariant 0 <= k <= |order|
      invariant conflicts == FlatMap(order[..k], HookReports(ps))
    {
      var t := order[k];
      var part := ReportShared(if t == Actions then actions else filters, Hook(t));
      FlatMapSnoc(order, k, HookReports(ps));
      conflicts := conflicts + part;
      k := k + 1;
    }
    assert order[..k] == order;
  }

  /** `detect_conflicts` over the given plugins. */
  method DetectConflicts(ps: seq<ScannedPlugin>, functionExists: string -> bool) returns (report: ConflictReport)
    ensures report == ReportFor(ps, functionExists)
  {
    var hooks := DetectHookConflicts(ps);
    var functions := DetectFunctionConflicts(ps, functionExists);
    var globals := DetectGlobalConflicts(ps, functionExists);
    var tables := DetectTableConflicts(ps, functionExists);
    report := [("hook_conflicts", hooks), ("function_conflicts", functions),
      ("global_conflicts", globals), ("table_conflicts", tables)];
  }

  /** `get_conflict_summary`, with the `by_type` key corrected. */
  method GetConflictSummary(report: ConflictReport) returns (summary: ConflictSummary)
    ensures summary == SummaryWith(report, TypeKey)
  {
    summary := ConflictSummary(0, 0, 0, 0, ByType(0, 0, 0, 0));
    var i := 0;
    while i < |report|
      invariant 0 <= i <= |report|
      invariant summary == SummaryWith(report[..i], TypeKey)
    {
      assert report[..i + 1][..i] == report[..i];
      var (t, list) := report[i];
      var high, medium, low := CountLevels(list);
      summary := ConflictSummary(summary.total + |list|, summary.high + high, summary.medium + medium,
        summary.low + low, SetByType(summary.byType, TypeKey(t), |list|));
      i := i + 1;
    }
    assert report[..i] == report;
  }

  /** The inner loop of `get_conflict_summary`: one count per severity. */
  method CountLevels(list: seq<DetectedConflict>) returns (high: nat, medium: nat, low: nat)
    ensures high == CountIf(list, SeverityIs(High))
    ensures medium == CountIf(list, SeverityIs(Medium))
    ensures low == CountIf(list, SeverityIs(Low))
  {
    high, medium, low := 0, 0, 0;
    var j := 0;
    while j < |list|
      invariant 0 <= j <= |list|
      invariant high == CountIf(list[..j], SeverityIs(High))
      invariant medium == CountIf(list[..j], SeverityIs(Medium))
      invariant low == CountIf(list[..j], SeverityIs(Low))
    {
      assert list[..j + 1][..j] == list[..j];
      match list[j].severity {
        case High => high := high + 1;
        case Medium => medium := medium + 1;
        case Low => low := low + 1;
        case _ =>
      }
      j := j + 1;
    }
    assert list[..j] == list;
  }
}
