/**
 * The lightweight scanner: it matches the installed plugins against the
 * known-conflicts table, and summarises, filters and sorts what it finds.
 * `get_plugins()`, the `active_plugins` option and `current_time('mysql')`
 * are parameters.
 */
module MinimalScanner {
  import opened Common
  import opened WpcmCommon
  import opened KnownConflicts

  /** The header fields `get_plugins()` reports for one plugin file. */
  datatype PluginHeader = PluginHeader(name: string, version: string, textDomain: Option<string>)

  /** What the scanner records per installed plugin slug. */
  datatype PluginInfo = PluginInfo(file: string, name: string, version: string, isActive: bool)

  /** `$plugin_slugs`: slug => info, in insertion order. */
  type SlugTable = seq<(string, PluginInfo)>

  /** One record of `scan`. */
  datatype Detected = Detected(conflict: Conflict, pluginAInfo: Option<PluginInfo>, pluginBInfo: Option<PluginInfo>, detectedAt: string)

  // ---------------------------------------------------------------------
  // Slugs
  // ---------------------------------------------------------------------

  /** `extract_plugin_slug`: the text domain, else the directory, else the file name without `.php`. */
  function ExtractPluginSlug(file: string, header: PluginHeader): (slug: string)
    ensures !EmptyText(header.textDomain) ==> slug == header.textDomain.value
  {
    if !EmptyText(header.textDomain) then header.textDomain.value
    else
      var parts := Explode('/', file);
      if |parts| > 1 then parts[0] else ReplaceAll(file, ".php", "")
  }

  /** A plugin in a directory, without a text domain, is known by the directory name. */
  lemma SlugOfDirectory(dir: string, rest: string, header: PluginHeader)
    requires EmptyText(header.textDomain) && '/' !in dir
    ensures ExtractPluginSlug(dir + "/" + rest, header) == dir
  {
    ExplodeSplit('/', dir, rest);
    assert dir + "/" + rest == dir + ['/'] + rest;
  }

  lemma {:induction false} ReplacePhpSuffix(name: string)
    requires '.' !in name
    ensures ReplaceAll(name + ".php", ".php", "") == name
  {
    if name == [] {
      assert [] + ".php" == ".php";
      assert ".php"[4..] == [];
    } else {
      var s := name + ".php";
      assert s[0] == name[0] && s[0] != '.';
      assert s[1..] == name[1..] + ".php";
      assert '.' !in name[1..];
      ReplacePhpSuffix(name[1..]);
      assert [name[0]] + name[1..] == name;
    }
  }

  /** A single-file plugin, without a text domain, is known by its file name without `.php`. */
  lemma SlugOfSingleFile(name: string, header: PluginHeader)
    requires EmptyText(header.textDomain) && '/' !in name && '.' !in name
    ensures ExtractPluginSlug(name + ".php", header) == name
  {
    assert '/' !in name + ".php" by {
      forall i | 0 <= i < |name + ".php"|
        ensures (name + ".php")[i] != '/'
      {
        if i < |name| {
          assert (name + ".php")[i] == name[i];
        }
      }
    }
    ExplodeNone('/', name + ".php");
    ReplacePhpSuffix(name);
  }

  function InfoOf(file: string, header: PluginHeader, active: seq<string>): PluginInfo
  {
    PluginInfo(file, header.name, header.version, file in active)
  }

  function SlugOf(p: (string, PluginHeader)): string
  {
    ExtractPluginSlug(p.0, p.1)
  }

  /** The slug table the load loop of `get_installed_plugin_slugs` builds from `get_plugins()`. */
  function SlugsOf(plugins: seq<(string, PluginHeader)>, active: seq<string>): SlugTable
  {
    if plugins == [] then []
    else
      var last := plugins[|plugins| - 1];
      Assign(SlugsOf(plugins[..|plugins| - 1], active), SlugOf(last), InfoOf(last.0, last.1, active))
  }

  /** The info of the last plugin whose slug is `slug`. */
  function LastWithSlug(plugins: seq<(string, PluginHeader)>, active: seq<string>, slug: string): (r: Option<PluginInfo>)
    ensures r.Some? <==> exists i :: 0 <= i < |plugins| && SlugOf(plugins[i]) == slug
  {
    if plugins == [] then None
    else
      var last := plugins[|plugins| - 1];
      if SlugOf(last) == slug then Some(InfoOf(last.0, last.1, active))
      else
        var r := LastWithSlug(plugins[..|plugins| - 1], active, slug);
        assert forall i :: 0 <= i < |plugins| - 1 ==> plugins[..|plugins| - 1][i] == plugins[i];
        r
  }

  /** Two plugins with the same slug share one entry, and the later one's info wins. */
  lemma {:induction false} SlugsOfMeaning(plugins: seq<(string, PluginHeader)>, active: seq<string>, slug: string)
    ensures Find(SlugsOf(plugins, active), slug) == LastWithSlug(plugins, active, slug)
  {
    if plugins != [] {
      var last := plugins[|plugins| - 1];
      SlugsOfMeaning(plugins[..|plugins| - 1], active, slug);
      FindAssign(SlugsOf(plugins[..|plugins| - 1], active), SlugOf(last), InfoOf(last.0, last.1, active), slug);
    }
  }

  predicate ActiveEntry(e: (string, PluginInfo))
  {
    e.1.isActive
  }

  /** What `scan` checks against: every installed slug, or only the active ones. */
  function Installed(activeOnly: bool, t: SlugTable): SlugTable
  {
    if activeOnly then Filter(t, ActiveEntry) else t
  }

  // ---------------------------------------------------------------------
  // Matching
  // ---------------------------------------------------------------------

  /** One slug contains the other (the "slug variations" match). */
  predicate SlugsOverlap(slug: string, search: string)
  {
    Contains(slug, search) || Contains(search, slug)
  }

  /** `plugin_matches($search, $slugs)`. */
  predicate Matches(search: string, slugs: seq<string>)
  {
    search in slugs || exists i :: 0 <= i < |slugs| && SlugsOverlap(slugs[i], search)
  }

  lemma ContainsSelf(s: string)
    ensures Contains(s, s)
  {
    ContainsInfix("", s, "");
    assert "" + s + "" == s;
  }

  /** An exact match is a special case of the overlap match. */
  lemma MatchesMeaning(search: string, slugs: seq<string>)
    ensures Matches(search, slugs) <==> exists i :: 0 <= i < |slugs| && SlugsOverlap(slugs[i], search)
  {
    if search in slugs {
      var i :| 0 <= i < |slugs| && slugs[i] == search;
      ContainsSelf(search);
      assert SlugsOverlap(slugs[i], search);
    }
  }

  method PluginMatches(search: string, slugs: seq<string>) returns (found: bool)
    ensures found == Matches(search, slugs)
  {
    if search in slugs {
      return true;
    }
    var i := 0;
    while i < |slugs|
      invariant 0 <= i <= |slugs|
      invariant forall j :: 0 <= j < i ==> !SlugsOverlap(slugs[j], search)
    {
      if SlugsOverlap(slugs[i], search) {
        return true;
      }
      i := i + 1;
    }
    return false;
  }

  /** The info of the first entry that overlaps `search`. */
  function FirstOverlap(t: SlugTable, search: string): (r: Option<PluginInfo>)
    ensures r.Some? <==> exists i :: 0 <= i < |t| && SlugsOverlap(t[i].0, search)
    ensures r.Some? ==> exists i :: 0 <= i < |t| && SlugsOverlap(t[i].0, search) && t[i].1 == r.value
  {
    if t == [] then None
    else if SlugsOverlap(t[0].0, search) then Some(t[0].1)
    else
      assert forall i :: 1 <= i < |t| ==> t[i] == t[1..][i - 1];
      FirstOverlap(t[1..], search)
  }

  /** `get_plugin_info`: the entry of `search` itself, else the first overlapping one. */
  function InfoFor(search: string, t: SlugTable): Option<PluginInfo>
  {
    if Find(t, search).Some? then Find(t, search) else FirstOverlap(t, search)
  }

  /** A conflict `scan` reports always comes with the info of both plugins. */
  lemma InfoForMatches(search: string, t: SlugTable)
    ensures InfoFor(search, t).Some? <==> Matches(search, Keys(t))
  {
    FindSome(t, search);
    MatchesMeaning(search, Keys(t));
    if search in Keys(t) {
      var i :| 0 <= i < |t| && Keys(t)[i] == search;
      assert t[i].0 == search;
    }
  }

  method GetPluginInfo(search: string, t: SlugTable) returns (info: Option<PluginInfo>)
    ensures info == InfoFor(search, t)
  {
    if Find(t, search).Some? {
      return Find(t, search);
    }
    var i := 0;
    while i < |t|
      invariant 0 <= i <= |t|
      invariant FirstOverlap(t, search) == FirstOverlap(t[i..], search)
    {
      if SlugsOverlap(t[i].0, search) {
        return Some(t[i].1);
      }
      assert t[i..][1..] == t[i + 1..];
      i := i + 1;
    }
    return None;
  }

  // ---------------------------------------------------------------------
  // Scanning
  // ---------------------------------------------------------------------

  /** Both plugins of the entry are among `slugs`. */
  predicate BothInstalled(c: Conflict, slugs: seq<string>)
  {
    Matches(c.pluginA, slugs) && Matches(c.pluginB, slugs)
  }

  function InstalledIn(slugs: seq<string>): Conflict -> bool
  {
    c => BothInstalled(c, slugs)
  }

  function DetectedOf(c: Conflict, t: SlugTable, now: string): Detected
  {
    Detected(c, InfoFor(c.pluginA, t), InfoFor(c.pluginB, t), now)
  }

  /** The records `scan` emits for the entries of `db`, given the slug table it checks against. */
  function Detect(db: seq<Conflict>, t: SlugTable, now: string): seq<Detected>
  {
    if db == [] then []
    else
      var last := db[|db| - 1];
      Detect(db[..|db| - 1], t, now) + (if BothInstalled(last, Keys(t)) then [DetectedOf(last, t, now)] else [])
  }

  /** One round of `scan`'s loop over the table: the entry at `i` is checked and maybe reported. */
  method DetectOne(db: seq<Conflict>, i: nat, t: SlugTable, keys: seq<string>, now: string, detected: seq<Detected>)
    returns (r: seq<Detected>)
    requires i < |db| && keys == Keys(t)
    requires detected == Detect(db[..i], t, now)
    ensures r == Detect(db[..i + 1], t, now)
  {
    var c := db[i];
    assert db[..i + 1][..i] == db[..i];
    var hasA := PluginMatches(c.pluginA, keys);
    var hasB := PluginMatches(c.pluginB, keys);
    r := detected;
    if hasA && hasB {
      var infoA := GetPluginInfo(c.pluginA, t);
      var infoB := GetPluginInfo(c.pluginB, t);
      r := detected + [Detected(c, infoA, infoB, now)];
    }
  }

  function ConflictsOf(ds: seq<Detected>): (r: seq<Conflict>)
    ensures |r| == |ds| && forall i :: 0 <= i < |ds| ==> r[i] == ds[i].conflict
  {
    seq(|ds|, i requires 0 <= i < |ds| => ds[i].conflict)
  }

  /**
   * `scan` reports exactly the entries whose two plugins are both installed,
   * in table order, each with the info of its two plugins.
   */
  lemma {:induction false} DetectMeaning(db: seq<Conflict>, t: SlugTable, now: string)
    ensures ConflictsOf(Detect(db, t, now)) == Filter(db, InstalledIn(Keys(t)))
    ensures forall i :: 0 <= i < |Detect(db, t, now)| ==> Detect(db, t, now)[i] == DetectedOf(Detect(db, t, now)[i].conflict, t, now)
  {
    if db != [] {
      var last := db[|db| - 1];
      DetectMeaning(db[..|db| - 1], t, now);
      var prev := Detect(db[..|db| - 1], t, now);
      var p := InstalledIn(Keys(t));
      assert p(last) == BothInstalled(last, Keys(t));
      var d := Detect(db, t, now);
      assert d == prev + (if p(last) then [DetectedOf(last, t, now)] else []);
      assert ConflictsOf(d) == ConflictsOf(prev) + (if p(last) then [last] else []);
    }
  }

  /** Every reported record carries the info of both of its plugins. */
  lemma DetectedHaveInfo(db: seq<Conflict>, t: SlugTable, now: string, i: int)
    requires 0 <= i < |Detect(db, t, now)|
    ensures Detect(db, t, now)[i].pluginAInfo.Some? && Detect(db, t, now)[i].pluginBInfo.Some?
  {
    DetectMeaning(db, t, now);
    var c := Detect(db, t, now)[i].conflict;
    assert c == ConflictsOf(Detect(db, t, now))[i];
    assert c in Filter(db, InstalledIn(Keys(t)));
    FilterMembers(db, InstalledIn(Keys(t)), c);
    assert BothInstalled(c, Keys(t));
    InfoForMatches(c.pluginA, t);
    InfoForMatches(c.pluginB, t);
  }

  // ---------------------------------------------------------------------
  // Counting
  // ---------------------------------------------------------------------

  /** `$conflict['severity'] ?? 'low'`. */
  function EffectiveSeverity(c: Conflict): Severity
  {
    if c.severity.Some? then c.severity.value else Low
  }

  /** `$conflict['type'] ?? 'conflict'`. */
  function EffectiveKind(c: Conflict): ConflictType
  {
    if c.kind.Some? then c.kind.value else Conflicting
  }

  function SeverityIs(s: Severity): Detected -> bool
  {
    (d: Detected) => EffectiveSeverity(d.conflict) == s
  }

  function KindIs(k: ConflictType): Detected -> bool
  {
    (d: Detected) => EffectiveKind(d.conflict) == k
  }

  datatype TypeCounts = TypeCounts(overlap: nat, conflict: nat, incompatible: nat, performance: nat)

  datatype QuickSummary = QuickSummary(
    total: nat,
    critical: nat,
    high: nat,
    medium: nat,
    low: nat,
    byType: TypeCounts,
    conflicts: seq<Detected>,
    scanTime: string,
    pluginsChecked: nat,
    knownConflictsDb: nat)

  /**
   * The counters of `quick_scan` over `ds`. A severity text "total" bumps
   * `total_conflicts` through the `$severity . '_conflicts'` key.
   */
  function SummaryOf(ds: seq<Detected>, now: string, pluginsChecked: nat, dbSize: nat): QuickSummary
  {
    QuickSummary(
      |ds| + CountIf(ds, SeverityIs(Unrecognised("total"))),
      CountIf(ds, SeverityIs(Critical)),
      CountIf(ds, SeverityIs(High)),
      CountIf(ds, SeverityIs(Medium)),
      CountIf(ds, SeverityIs(Low)),
      TypeCounts(CountIf(ds, KindIs(Overlap)), CountIf(ds, KindIs(Conflicting)),
        CountIf(ds, KindIs(Incompatible)), CountIf(ds, KindIs(Performance))),
      ds, now, pluginsChecked, dbSize)
  }

  predicate FourSeverities(c: Conflict)
  {
    EffectiveSeverity(c) in [Critical, High, Medium, Low]
  }

  /** When every severity is one of the four levels, the four counters add up to the total. */
  lemma {:induction false} SeverityCountersAddUp(ds: seq<Detected>, now: string, n: nat, m: nat)
    requires forall i :: 0 <= i < |ds| ==> FourSeverities(ds[i].conflict)
    ensures var s := SummaryOf(ds, now, n, m);
      s.critical + s.high + s.medium + s.low == s.total == |ds|
  {
    if ds != [] {
      var prev := ds[..|ds| - 1];
      SeverityCountersAddUp(prev, now, n, m);
      assert EffectiveSeverity(ds[|ds| - 1].conflict) != Unrecognised("total");
    }
  }

  /** The four type counters never exceed the number of conflicts. */
  lemma {:induction false} TypeCountersBounded(ds: seq<Detected>, now: string, n: nat, m: nat)
    ensures var t := SummaryOf(ds, now, n, m).byType;
      t.overlap + t.conflict + t.incompatible + t.performance <= |ds|
  {
    if ds != [] {
      TypeCountersBounded(ds[..|ds| - 1], now, n, m);
    }
  }

  // ---------------------------------------------------------------------
  // Pairs
  // ---------------------------------------------------------------------

  /** The entry is about the unordered pair {a, b}. */
  predicate PairIs(c: Conflict, a: string, b: string)
  {
    (c.pluginA == a && c.pluginB == b) || (c.pluginA == b && c.pluginB == a)
  }

  /** Entry `i` is about the pair and no earlier entry is. */
  predicate FirstPairAt(db: seq<Conflict>, i: int, a: string, b: string)
  {
    0 <= i < |db| && PairIs(db[i], a, b) && forall j :: 0 <= j < i ==> !PairIs(db[j], a, b)
  }

  /** `check_pair`: the first entry about the pair, in either order. */
  function FirstPair(db: seq<Conflict>, a: string, b: string): (r: Option<Conflict>)
    ensures r.Some? ==> exists i :: FirstPairAt(db, i, a, b) && db[i] == r.value
    ensures r.None? ==> forall i :: 0 <= i < |db| ==> !PairIs(db[i], a, b)
  {
    if db == [] then None
    else if PairIs(db[0], a, b) then Some(db[0])
    else
      var r := FirstPair(db[1..], a, b);
      assert forall i :: 1 <= i < |db| ==> db[i] == db[1..][i - 1];
      if r.Some? then
        var i :| FirstPairAt(db[1..], i, a, b) && db[1..][i] == r.value;
        assert db[i + 1] == r.value;
        assert FirstPairAt(db, i + 1, a, b);
        r
      else r
  }

  /** The order of the two plugins does not matter. */
  lemma {:induction false} CheckPairSymmetric(db: seq<Conflict>, a: string, b: string)
    ensures FirstPair(db, a, b) == FirstPair(db, b, a)
  {
    if db != [] {
      CheckPairSymmetric(db[1..], a, b);
    }
  }

  // ---------------------------------------------------------------------
  // Recommendations
  // ---------------------------------------------------------------------

  datatype Recommendation = Recommendation(
    pluginA: string,
    pluginB: string,
    kind: Option<ConflictType>,
    severity: Option<Severity>,
    action: string,
    description: string)

  const DefaultAction := "Review plugin compatibility."

  function RecommendationOf(c: Conflict): (r: Recommendation)
    ensures c.resolution.Some? ==> r.action == c.resolution.value
    ensures c.resolution.None? ==> r.action == DefaultAction
  {
    Recommendation(c.pluginA, c.pluginB, c.kind, c.severity,
      if c.resolution.Some? then c.resolution.value else DefaultAction, c.description)
  }

  /** The position of a severity in the report: critical, high, medium, low, then the rest. */
  function SeverityKey(r: Recommendation): real
  {
    match r.severity
    case Some(Critical) => 0.0
    case Some(High) => 1.0
    case Some(Medium) => 2.0
    case Some(Low) => 3.0
    case _ => 4.0
  }

  function Unsorted(ds: seq<Detected>): (r: seq<Recommendation>)
    ensures |r| == |ds| && forall i :: 0 <= i < |ds| ==> r[i] == RecommendationOf(ds[i].conflict)
  {
    seq(|ds|, i requires 0 <= i < |ds| => RecommendationOf(ds[i].conflict))
  }

  // ---------------------------------------------------------------------
  // Database statistics
  // ---------------------------------------------------------------------

  datatype SeverityCounts = SeverityCounts(critical: nat, high: nat, medium: nat, low: nat)

  datatype DatabaseStats = DatabaseStats(
    totalEntries: nat,
    bySeverity: SeverityCounts,
    byType: TypeCounts,
    verifiedCount: nat,
    uniquePlugins: nat)

  function EntrySeverityIs(s: Severity): Conflict -> bool
  {
    c => EffectiveSeverity(c) == s
  }

  function EntryKindIs(k: ConflictType): Conflict -> bool
  {
    c => EffectiveKind(c) == k
  }

  predicate IsVerified(c: Conflict)
  {
    c.verified
  }

  /** What `get_database_stats` reports about `db`. */
  function StatsOf(db: seq<Conflict>): DatabaseStats
  {
    DatabaseStats(|db|, SeverityCountsOf(db), TypeCountsOf(db), CountIf(db, IsVerified), |PluginSet(db)|)
  }

  /** The `by_severity` counters: entries per recognised severity. */
  function SeverityCountsOf(db: seq<Conflict>): SeverityCounts
  {
    SeverityCounts(CountIf(db, EntrySeverityIs(Critical)), CountIf(db, EntrySeverityIs(High)),
      CountIf(db, EntrySeverityIs(Medium)), CountIf(db, EntrySeverityIs(Low)))
  }

  /** The `by_type` counters: entries per recognised type. */
  function TypeCountsOf(db: seq<Conflict>): TypeCounts
  {
    TypeCounts(CountIf(db, EntryKindIs(Overlap)), CountIf(db, EntryKindIs(Conflicting)),
      CountIf(db, EntryKindIs(Incompatible)), CountIf(db, EntryKindIs(Performance)))
  }

  /** The severity `switch` of `get_database_stats`'s loop, for entry `i`. */
  method TallySeverity(db: seq<Conflict>, i: int, counts: SeverityCounts) returns (r: SeverityCounts)
    requires 0 <= i < |db| && counts == SeverityCountsOf(db[..i])
    ensures r == SeverityCountsOf(db[..i + 1])
  {
    CountIfSnoc(db, i, EntrySeverityIs(Critical));
    CountIfSnoc(db, i, EntrySeverityIs(High));
    CountIfSnoc(db, i, EntrySeverityIs(Medium));
    CountIfSnoc(db, i, EntrySeverityIs(Low));
    r := counts;
    match EffectiveSeverity(db[i]) {
      case Critical => r := r.(critical := r.critical + 1);
      case High => r := r.(high := r.high + 1);
      case Medium => r := r.(medium := r.medium + 1);
      case Low => r := r.(low := r.low + 1);
      case Unrecognised(_) =>
    }
  }

  /** The type `switch` of `get_database_stats`'s loop, for entry `i`. */
  method TallyType(db: seq<Conflict>, i: int, counts: TypeCounts) returns (r: TypeCounts)
    requires 0 <= i < |db| && counts == TypeCountsOf(db[..i])
    ensures r == TypeCountsOf(db[..i + 1])
  {
    CountIfSnoc(db, i, EntryKindIs(Overlap));
    CountIfSnoc(db, i, EntryKindIs(Conflicting));
    CountIfSnoc(db, i, EntryKindIs(Incompatible));
    CountIfSnoc(db, i, EntryKindIs(Performance));
    r := counts;
    match EffectiveKind(db[i]) {
      case Overlap => r := r.(overlap := r.overlap + 1);
      case Conflicting => r := r.(conflict := r.conflict + 1);
      case Incompatible => r := r.(incompatible := r.incompatible + 1);
      case Performance => r := r.(performance := r.performance + 1);
      case UnknownType(_) =>
    }
  }

  /** The counters of `get_database_stats`'s loop, with the set of plugin slugs seen so far. */
  datatype Tally = Tally(bySeverity: SeverityCounts, byType: TypeCounts, verified: nat, unique: set<string>)

  function TallyOf(db: seq<Conflict>): Tally
  {
    Tally(SeverityCountsOf(db), TypeCountsOf(db), CountIf(db, IsVerified), PluginSet(db))
  }

  /** One round of `get_database_stats`'s loop, for entry `i`. */
  method TallyEntry(db: seq<Conflict>, i: int, t: Tally) returns (r: Tally)
    requires 0 <= i < |db| && t == TallyOf(db[..i])
    ensures r == TallyOf(db[..i + 1])
  {
    var c := db[i];
    var bySeverity := TallySeverity(db, i, t.bySeverity);
    var byType := TallyType(db, i, t.byType);
    CountIfSnoc(db, i, IsVerified);
    var verified := if c.verified then t.verified + 1 else t.verified;
    PluginSetStep(db, i);
    r := Tally(bySeverity, byType, verified, t.unique + {c.pluginA, c.pluginB});
  }

  lemma {:induction false} CountsOfWellFormed(db: seq<Conflict>)
    requires AllWellFormed(db)
    ensures var s := StatsOf(db);
      s.bySeverity.critical + s.bySeverity.high + s.bySeverity.medium + s.bySeverity.low == |db| &&
      s.byType.overlap + s.byType.conflict + s.byType.incompatible + s.byType.performance == |db| &&
      s.verifiedCount == |db|
  {
    if db != [] {
      var prev := db[..|db| - 1];
      assert AllWellFormed(prev) by {
        forall i | 0 <= i < |prev|
          ensures WellFormed(prev[i])
        {
          assert prev[i] == db[i];
        }
      }
      CountsOfWellFormed(prev);
      assert WellFormed(db[|db| - 1]);
    }
  }

  /**
   * The shipped table: 48 entries, all verified, with every entry counted
   * under exactly one of the four severities and one of the four types.
   */
  lemma TableStats(d: seq<string>, r: seq<string>)
    ensures var s := StatsOf(TableWith(d, r));
      s.totalEntries == 48 && s.verifiedCount == 48 &&
      s.bySeverity.critical + s.bySeverity.high + s.bySeverity.medium + s.bySeverity.low == 48 &&
      s.byType.overlap + s.byType.conflict + s.byType.incompatible + s.byType.performance == 48
  {
    TableWithWellFormed(d, r);
    CountsOfWellFormed(TableWith(d, r));
  }

  /** The shipped table names more than one plugin (the test asks for at least one). */
  lemma TableUniquePlugins(d: seq<string>, r: seq<string>)
    ensures StatsOf(TableWith(d, r)).uniquePlugins >= 2
  {
    CacheListed(d, r);
    SeoListed(d, r);
    CacheAndSeoListed(TableWith(d, r));
  }

  lemma CacheAndSeoListed(t: seq<Conflict>)
    requires "w3-total-cache" in PluginSet(t) && "wordpress-seo" in PluginSet(t)
    ensures StatsOf(t).uniquePlugins >= 2
  {
    assert "w3-total-cache"[1] != "wordpress-seo"[1];
    TwoListed(t, "w3-total-cache", "wordpress-seo");
  }

  lemma TwoListed(t: seq<Conflict>, a: string, b: string)
    requires a in PluginSet(t) && b in PluginSet(t) && a != b
    ensures StatsOf(t).uniquePlugins >= 2
  {
    SubsetCard({a, b}, PluginSet(t));
  }

  lemma {:induction false} SubsetCard<T>(a: set<T>, b: set<T>)
    requires a <= b
    ensures |a| <= |b|
  {
    if a != {} {
      var x :| x in a;
      SubsetCard(a - {x}, b - {x});
    }
  }

  /** `check_pair` finds the SEO entry in either order. */
  lemma SeoPairFound(d: seq<string>, r: seq<string>)
    ensures FirstPair(TableWith(d, r), "wordpress-seo", "all-in-one-seo-pack") == Some(TableWith(d, r)[4])
    ensures FirstPair(TableWith(d, r), "all-in-one-seo-pack", "wordpress-seo") == Some(TableWith(d, r)[4])
  {
    TableHead(d, r);
    SeoFirstInHead(d, r);
    FirstPairInHead(TableWith(d, r), Part0(d, r) + Part1(d, r)[..1], 4, "wordpress-seo", "all-in-one-seo-pack");
  }

  lemma SeoFirstInHead(d: seq<string>, r: seq<string>)
    ensures FirstPairAt(Part0(d, r) + Part1(d, r)[..1], 4, "wordpress-seo", "all-in-one-seo-pack")
  {
    var h := Part0(d, r) + Part1(d, r)[..1];
    Part0WellFormed(d, r);
    Part1WellFormed(d, r);
    assert PairIs(h[4], "wordpress-seo", "all-in-one-seo-pack");
  }

  /** When the table starts with `h`, the first entry of `h` about the pair is the one `check_pair` finds. */
  lemma FirstPairInHead(t: seq<Conflict>, h: seq<Conflict>, k: int, a: string, b: string)
    requires |h| <= |t| && t[..|h|] == h && FirstPairAt(h, k, a, b)
    ensures FirstPair(t, a, b) == Some(t[k]) && FirstPair(t, b, a) == Some(t[k])
  {
    assert t[k] == h[k];
    assert forall j :: 0 <= j < k ==> t[j] == h[j];
    assert FirstPairAt(t, k, a, b);
    var p := FirstPair(t, a, b);
    assert PairIs(t[k], a, b);
    assert p.Some?;
    var i :| FirstPairAt(t, i, a, b) && t[i] == p.value;
    assert i >= k;
    assert i <= k;
    CheckPairSymmetric(t, a, b);
  }

  /** The severity counters of `quick_scan`'s loop; "total" lands in `total_conflicts`. */
  method CountSeverities(ds: seq<Detected>) returns (total: nat, critical: nat, high: nat, medium: nat, low: nat)
    ensures var s := SummaryOf(ds, "", 0, 0);
      total == s.total && critical == s.critical && high == s.high && medium == s.medium && low == s.low
  {
    total, critical, high, medium, low := |ds|, 0, 0, 0, 0;
    var i := 0;
    while i < |ds|
      invariant 0 <= i <= |ds|
      invariant total == |ds| + CountIf(ds[..i], SeverityIs(Unrecognised("total")))
      invariant critical == CountIf(ds[..i], SeverityIs(Critical))
      invariant high == CountIf(ds[..i], SeverityIs(High))
      invariant medium == CountIf(ds[..i], SeverityIs(Medium))
      invariant low == CountIf(ds[..i], SeverityIs(Low))
    {
      assert ds[..i + 1][..i] == ds[..i];
      match EffectiveSeverity(ds[i].conflict) {
        case Critical => critical := critical + 1;
        case High => high := high + 1;
        case Medium => medium := medium + 1;
        case Low => low := low + 1;
        case Unrecognised(text) =>
          if text == "total" {
            total := total + 1;
          }
      }
      i := i + 1;
    }
    assert ds[..i] == ds;
  }

  /** The type counters of `quick_scan`'s loop; other types are not counted. */
  method CountTypes(ds: seq<Detected>) returns (counts: TypeCounts)
    ensures counts == SummaryOf(ds, "", 0, 0).byType
  {
    var overlap, conflict, incompatible, performance := 0, 0, 0, 0;
    var i := 0;
    while i < |ds|
      invariant 0 <= i <= |ds|
      invariant overlap == CountIf(ds[..i], KindIs(Overlap))
      invariant conflict == CountIf(ds[..i], KindIs(Conflicting))
      invariant incompatible == CountIf(ds[..i], KindIs(Incompatible))
      invariant performance == CountIf(ds[..i], KindIs(Performance))
    {
      assert ds[..i + 1][..i] == ds[..i];
      match EffectiveKind(ds[i].conflict) {
        case Overlap => overlap := overlap + 1;
        case Conflicting => conflict := conflict + 1;
        case Incompatible => incompatible := incompatible + 1;
        case Performance => performance := performance + 1;
        case UnknownType(_) =>
      }
      i := i + 1;
    }
    assert ds[..i] == ds;
    counts := TypeCounts(overlap, conflict, incompatible, performance);
  }

  // ---------------------------------------------------------------------
  // The scanner object
  // ---------------------------------------------------------------------

  class Scanner {
    /** `$known_conflicts`: what the data file returned, or nothing. */
    var knownConflicts: seq<Conflict>
    /** `$plugin_slugs`: filled on first use. */
    var pluginSlugs: SlugTable

    /** `load_known_conflicts`: `loaded` is what including the data file returns, `None` when it does not exist. */
    constructor (loaded: Option<seq<Conflict>>)
      ensures knownConflicts == (if loaded.Some? then loaded.value else [])
      ensures pluginSlugs == []
    {
      knownConflicts := if loaded.Some? then loaded.value else [];
      pluginSlugs := [];
    }

    /** `get_installed_plugin_slugs`: the cached table, or the table built from `get_plugins()`. */
    method GetInstalledPluginSlugs(plugins: seq<(string, PluginHeader)>, active: seq<string>) returns (slugs: SlugTable)
      modifies this
      ensures knownConflicts == old(knownConflicts)
      ensures pluginSlugs == (if old(pluginSlugs) != [] then old(pluginSlugs) else SlugsOf(plugins, active))
      ensures slugs == pluginSlugs
    {
      if pluginSlugs != [] {
        return pluginSlugs;
      }
      var i := 0;
      while i < |plugins|
        invariant 0 <= i <= |plugins|
        invariant knownConflicts == old(knownConflicts)
        invariant pluginSlugs == SlugsOf(plugins[..i], active)
      {
        var (file, header) := plugins[i];
        var slug := ExtractPluginSlug(file, header);
        pluginSlugs := Assign(pluginSlugs, slug, PluginInfo(file, header.name, header.version, file in active));
        assert plugins[..i + 1][..i] == plugins[..i];
        i := i + 1;
      }
      assert plugins[..i] == plugins;
      return pluginSlugs;
    }

    /** `scan`. */
    method Scan(activeOnly: bool, plugins: seq<(string, PluginHeader)>, active: seq<string>, now: string)
      returns (detected: seq<Detected>)
      modifies this
      ensures knownConflicts == old(knownConflicts)
      ensures pluginSlugs == (if old(pluginSlugs) != [] then old(pluginSlugs) else SlugsOf(plugins, active))
      ensures detected == Detect(knownConflicts, Installed(activeOnly, pluginSlugs), now)
    {
      var installed := GetInstalledPluginSlugs(plugins, active);
      if activeOnly {
        installed := Filter(installed, ActiveEntry);
      }
      var keys := Keys(installed);
      detected := [];
      var i := 0;
      while i < |knownConflicts|
        modifies {}
        invariant 0 <= i <= |knownConflicts|
        invariant detected == Detect(knownConflicts[..i], installed, now)
      {
        detected := DetectOne(knownConflicts, i, installed, keys, now, detected);
        i := i + 1;
      }
      assert knownConflicts[..i] == knownConflicts;
    }

    /** `quick_scan`. */
    method QuickScan(activeOnly: bool, plugins: seq<(string, PluginHeader)>, active: seq<string>, now: string)
      returns (summary: QuickSummary)
      modifies this
      ensures knownConflicts == old(knownConflicts)
      ensures pluginSlugs == (if old(pluginSlugs) != [] then old(pluginSlugs) else SlugsOf(plugins, active))
      ensures summary == SummaryOf(Detect(knownConflicts, Installed(activeOnly, pluginSlugs), now), now, |pluginSlugs|, |knownConflicts|)
    {
      var conflicts := Scan(activeOnly, plugins, active, now);
      var total, critical, high, medium, low := CountSeverities(conflicts);
      var byType := CountTypes(conflicts);
      summary := QuickSummary(total, critical, high, medium, low, byType,
        conflicts, now, |pluginSlugs|, |knownConflicts|);
    }

    /** `get_conflicts_for_plugin`: the entries naming `slug`, in table order. */
    method GetConflictsForPlugin(slug: string) returns (conflicts: seq<Conflict>)
      ensures conflicts == Filter(knownConflicts, c => Names(c, slug))
      ensures forall c :: c in conflicts <==> c in knownConflicts && Names(c, slug)
    {
      conflicts := [];
      var i := 0;
      while i < |knownConflicts|
        invariant 0 <= i <= |knownConflicts|
        invariant conflicts == Filter(knownConflicts[..i], c => Names(c, slug))
      {
        assert knownConflicts[..i + 1][..i] == knownConflicts[..i];
        var c := knownConflicts[i];
        if c.pluginA == slug || c.pluginB == slug {
          conflicts := conflicts + [c];
        }
        i := i + 1;
      }
      assert knownConflicts[..i] == knownConflicts;
      forall c
        ensures c in conflicts <==> c in knownConflicts && Names(c, slug)
      {
        FilterMembers(knownConflicts, c => Names(c, slug), c);
      }
    }

    /** `check_pair`. */
    method CheckPair(a: string, b: string) returns (found: Option<Conflict>)
      ensures found == FirstPair(knownConflicts, a, b)
    {
      var i := 0;
      while i < |knownConflicts|
        invariant 0 <= i <= |knownConflicts|
        invariant FirstPair(knownConflicts, a, b) == FirstPair(knownConflicts[i..], a, b)
      {
        var c := knownConflicts[i];
        var forward := c.pluginA == a && c.pluginB == b;
        var reverse := c.pluginA == b && c.pluginB == a;
        if forward || reverse {
          return Some(c);
        }
        assert knownConflicts[i..][1..] == knownConflicts[i + 1..];
        i := i + 1;
      }
      return None;
    }

    /**
     * `get_recommendations`: one item per detected conflict, ordered
     * critical, high, medium, low, other, and in input order within a level.
     */
    method GetRecommendations(conflicts: seq<Detected>) returns (recs: seq<Recommendation>)
      ensures recs == SortBy(Unsorted(conflicts), SeverityKey)
      ensures SortedBy(recs, SeverityKey)
      ensures multiset(recs) == multiset(Unsorted(conflicts))
      ensures forall k :: Filter(recs, KeyEquals(SeverityKey, k)) == Filter(Unsorted(conflicts), KeyEquals(SeverityKey, k))
    {
      recs := [];
      var i := 0;
      while i < |conflicts|
        invariant 0 <= i <= |conflicts|
        invariant recs == Unsorted(conflicts[..i])
      {
        recs := recs + [RecommendationOf(conflicts[i].conflict)];
        i := i + 1;
      }
      assert conflicts[..i] == conflicts;
      recs := SortBy(recs, SeverityKey);
      SortByFacts(Unsorted(conflicts), SeverityKey);
    }

    /** `get_database_stats`. */
    method GetDatabaseStats() returns (stats: DatabaseStats)
      ensures stats == StatsOf(knownConflicts)
    {
      var tally := Tally(SeverityCounts(0, 0, 0, 0), TypeCounts(0, 0, 0, 0), 0, {});
      var i := 0;
      while i < |knownConflicts|
        invariant 0 <= i <= |knownConflicts|
        invariant tally == TallyOf(knownConflicts[..i])
      {
        tally := TallyEntry(knownConflicts, i, tally);
        i := i + 1;
      }
      assert knownConflicts[..i] == knownConflicts;
      stats := DatabaseStats(|knownConflicts|, tally.bySeverity, tally.byType, tally.verified, |tally.unique|);
    }
  }
}
