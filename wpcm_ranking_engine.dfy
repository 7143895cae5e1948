/**
 * The ranking engine: every plugin starts at 100 points and loses points for
 * the conflicts and overlaps that name it, for its code size and complexity
 * and for a missing version; the plugins are then sorted by score.
 */
module RankingEngine {
  import opened Common
  import opened WpcmCommon

  /** A conflict or overlap record as the engine reads it: the optional `plugins` and `severity` keys. */
  datatype Listed = Listed(plugins: Option<seq<string>>, severity: Option<Severity>)

  /** The conflict report: a list of records per conflict type. */
  type ConflictLists = seq<(string, seq<Listed>)>

  /**
   * A plugin to rank: its file, its `name` and `version` headers, and the
   * plugin scanner's complexity and size (in bytes) for it.
   */
  datatype PluginInput = PluginInput(file: string, name: string, version: Option<string>, complexity: nat, size: nat)

  datatype Breakdown = Breakdown(conflicts: int, overlaps: int, complexity: int, size: int, maintenance: int)

  /** An entry of `issues`; the text `sprintf` renders from it is not modelled. */
  datatype Issue = ConflictIssue(points: nat) | OverlapIssue(points: nat) | SizeIssue(sizeMb: real, points: nat) | NoVersionIssue

  datatype ScoreData = ScoreData(total: real, breakdown: Breakdown, issues: seq<Issue>)

  datatype RecommendationType = SuccessType | WarningType | ErrorType | InfoType

  /** The five recommendations `get_recommendations` can give. */
  datatype Advice = WellBehaved | MinorIssues | SignificantIssues | HighConflictPotential | FunctionalOverlap
  {
    /** The entry's `type`. */
    function Kind(): RecommendationType
    {
      match this
      case WellBehaved => SuccessType
      case MinorIssues => WarningType
      case SignificantIssues => ErrorType
      case HighConflictPotential => WarningType
      case FunctionalOverlap => InfoType
    }

    /** The entry's `message`. */
    function Message(): string
    {
      match this
      case WellBehaved => "This plugin appears to be well-behaved with minimal conflicts."
      case MinorIssues => "This plugin has some minor issues that should be monitored."
      case SignificantIssues => "This plugin has significant issues. Consider finding an alternative."
      case HighConflictPotential => "High conflict potential. Review conflicting plugins and consider deactivating one."
      case FunctionalOverlap => "Functional overlap detected. You may be able to consolidate functionality."
    }
  }

  datatype RankedPlugin = RankedPlugin(file: string, name: string, version: Option<string>, score: real,
                                       breakdown: Breakdown, issues: seq<Issue>, recommendations: seq<Advice>)

  datatype Comparative = Comparative(file: string, rank: nat, percentile: real, totalPlugins: nat)

  datatype PriorityAction = PriorityAction(priority: string, plugin: string, action: string, reason: string, score: real)

  const MaxScore: int := 100
  const ConflictCap: nat := 40
  const OverlapCap: nat := 30

  // ---------------------------------------------------------------------
  // Penalties
  // ---------------------------------------------------------------------

  /** The record lists the plugin: `isset($c['plugins']) && in_array($name, $c['plugins'])`. */
  predicate Names(name: string, c: Listed)
  {
    c.plugins.Some? && name in c.plugins.value
  }

  /** The `switch` of `calculate_conflict_penalty`; a missing severity counts as low, any other adds nothing. */
  function ConflictWeight(s: Option<Severity>): nat
  {
    match s
    case None => 3
    case Some(High) => 15
    case Some(Medium) => 8
    case Some(Low) => 3
    case Some(_) => 0
  }

  /** The `switch` of `calculate_overlap_penalty`. */
  function OverlapWeight(s: Option<Severity>): nat
  {
    match s
    case None => 2
    case Some(High) => 12
    case Some(Medium) => 6
    case Some(Low) => 2
    case Some(_) => 0
  }

  /** The points the records naming the plugin add, before the cap. */
  function Points(name: string, list: seq<Listed>, weight: Option<Severity> -> nat): nat
  {
    if list == [] then 0
    else
      var last := list[|list| - 1];
      Points(name, list[..|list| - 1], weight) + (if Names(name, last) then weight(last.severity) else 0)
  }

  /** The points of all conflict lists, before the cap. */
  function ConflictPoints(name: string, conflicts: ConflictLists): nat
  {
    if conflicts == [] then 0
    else ConflictPoints(name, conflicts[..|conflicts| - 1]) + Points(name, conflicts[|conflicts| - 1].1, ConflictWeight)
  }

  /** `calculate_conflict_penalty`. */
  function ConflictPenalty(name: string, conflicts: ConflictLists): nat
  {
    Min(ConflictCap, ConflictPoints(name, conflicts))
  }

  /** `calculate_overlap_penalty`. */
  function OverlapPenalty(name: string, overlaps: seq<Listed>): nat
  {
    Min(OverlapCap, Points(name, overlaps, OverlapWeight))
  }

  /** No points exactly when no record naming the plugin has a weighted severity. */
  lemma {:induction false} PointsZero(name: string, list: seq<Listed>, weight: Option<Severity> -> nat)
    ensures Points(name, list, weight) == 0 <==>
      forall i :: 0 <= i < |list| && Names(name, list[i]) ==> weight(list[i].severity) == 0
  {
    if list != [] {
      var init := list[..|list| - 1];
      PointsZero(name, init, weight);
      assert forall i :: 0 <= i < |init| ==> init[i] == list[i];
    }
  }

  /** Points add up over concatenated lists, so more records never lower a penalty. */
  lemma {:induction false} PointsConcat(name: string, a: seq<Listed>, b: seq<Listed>, weight: Option<Severity> -> nat)
    ensures Points(name, a + b, weight) == Points(name, a, weight) + Points(name, b, weight)
    decreases |b|
  {
    if b == [] {
      assert a + b == a;
    } else {
      var b0 := b[..|b| - 1];
      assert (a + b)[..|a + b| - 1] == a + b0;
      PointsConcat(name, a, b0, weight);
    }
  }

  /** The conflict penalty is at most 40 and zero exactly when no listed conflict with a counted severity names the plugin. */
  lemma {:induction false} ConflictPenaltyMeaning(name: string, conflicts: ConflictLists)
    ensures ConflictPenalty(name, conflicts) <= 40
    ensures ConflictPenalty(name, conflicts) == 0 <==>
      forall t, i :: 0 <= t < |conflicts| && 0 <= i < |conflicts[t].1| && Names(name, conflicts[t].1[i]) ==>
        ConflictWeight(conflicts[t].1[i].severity) == 0
  {
    if conflicts != [] {
      var init := conflicts[..|conflicts| - 1];
      var last := conflicts[|conflicts| - 1].1;
      ConflictPenaltyMeaning(name, init);
      PointsZero(name, last, ConflictWeight);
      assert forall t :: 0 <= t < |init| ==> init[t] == conflicts[t];
    }
  }

  /** The overlap penalty is at most 30 and zero exactly when no overlap with a counted severity names the plugin. */
  lemma OverlapPenaltyMeaning(name: string, overlaps: seq<Listed>)
    ensures OverlapPenalty(name, overlaps) <= 30
    ensures OverlapPenalty(name, overlaps) == 0 <==>
      forall i :: 0 <= i < |overlaps| && Names(name, overlaps[i]) ==> OverlapWeight(overlaps[i].severity) == 0
  {
    PointsZero(name, overlaps, OverlapWeight);
  }

  /** A single conflict naming the plugin costs its weight: 15 for high, 0 for critical. */
  lemma SingleConflict(name: string, t: string, c: Listed)
    requires Names(name, c)
    ensures ConflictPenalty(name, [(t, [c])]) == ConflictWeight(c.severity)
    ensures c.severity == Some(High) ==> ConflictPenalty(name, [(t, [c])]) == 15
    ensures c.severity == Some(Critical) ==> ConflictPenalty(name, [(t, [c])]) == 0
  {
    var list := [c];
    var lists: ConflictLists := [(t, list)];
    assert list[..0] == [];
    assert lists[..0] == [];
    assert Points(name, list, ConflictWeight) == ConflictWeight(c.severity);
    assert ConflictPoints(name, lists) == Points(name, list, ConflictWeight);
  }

  /** More overlap records never lower the overlap penalty. */
  lemma OverlapPenaltyMonotone(name: string, a: seq<Listed>, b: seq<Listed>)
    ensures OverlapPenalty(name, a) <= OverlapPenalty(name, a + b)
  {
    PointsConcat(name, a, b, OverlapWeight);
  }

  /** `calculate_conflict_penalty`: both loops, then the cap. */
  method CalculateConflictPenalty(name: string, conflicts: ConflictLists) returns (penalty: nat)
    ensures penalty == ConflictPenalty(name, conflicts)
  {
    var sum: nat := 0;
    var t := 0;
    while t < |conflicts|
      invariant 0 <= t <= |conflicts|
      invariant sum == ConflictPoints(name, conflicts[..t])
    {
      var list := conflicts[t].1;
      assert conflicts[..t + 1][..t] == conflicts[..t];
      var base := sum;
      var i := 0;
      while i < |list|
        invariant 0 <= i <= |list|
        invariant sum == base + Points(name, list[..i], ConflictWeight)
      {
        assert list[..i + 1][..i] == list[..i];
        var c := list[i];
        if c.plugins.Some? && name in c.plugins.value {
          var severity := if c.severity.Some? then c.severity.value else Low;
          match severity {
            case High => sum := sum + 15;
            case Medium => sum := sum + 8;
            case Low => sum := sum + 3;
            case _ =>
          }
        }
        i := i + 1;
      }
      assert list[..i] == list;
      t := t + 1;
    }
    assert conflicts[..t] == conflicts;
    penalty := Min(40, sum);
  }

  /** `calculate_overlap_penalty`. */
  method CalculateOverlapPenalty(name: string, overlaps: seq<Listed>) returns (penalty: nat)
    ensures penalty == OverlapPenalty(name, overlaps)
  {
    var sum: nat := 0;
    var i := 0;
    while i < |overlaps|
      invariant 0 <= i <= |overlaps|
      invariant sum == Points(name, overlaps[..i], OverlapWeight)
    {
      assert overlaps[..i + 1][..i] == overlaps[..i];
      var o := overlaps[i];
      if o.plugins.Some? && name in o.plugins.value {
        var severity := if o.severity.Some? then o.severity.value else Low;
        match severity {
          case High => sum := sum + 12;
          case Medium => sum := sum + 6;
          case Low => sum := sum + 2;
          case _ =>
        }
      }
      i := i + 1;
    }
    assert overlaps[..i] == overlaps;
    penalty := Min(30, sum);
  }

  // ---------------------------------------------------------------------
  // Score
  // ---------------------------------------------------------------------

  /** `min(20, $complexity / 1000)`. */
  function ComplexityPenalty(complexity: nat): (r: real)
    ensures 0.0 <= r <= 20.0
  {
    MinReal(20.0, complexity as real / 1000.0)
  }

  /** `$size / 1024 / 1024`. */
  function SizeMb(size: nat): real
  {
    size as real / 1024.0 / 1024.0
  }

  /** Ten megabytes are free; beyond that half a point per megabyte, at most 10. */
  function SizePenalty(size: nat): (r: real)
    ensures 0.0 <= r <= 10.0
    ensures r > 0.0 <==> SizeMb(size) > 10.0
  {
    if SizeMb(size) > 10.0 then MinReal(10.0, (SizeMb(size) - 10.0) / 2.0) else 0.0
  }

  /** The score before the clamp at 0 and the rounding. */
  function RawScore(p: PluginInput, conflicts: ConflictLists, overlaps: seq<Listed>): real
  {
    MaxScore as real - ConflictPenalty(p.name, conflicts) as real - OverlapPenalty(p.name, overlaps) as real
      - ComplexityPenalty(p.complexity) - SizePenalty(p.size) - (if EmptyText(p.version) then 20.0 else 0.0)
  }

  function BreakdownOf(p: PluginInput, conflicts: ConflictLists, overlaps: seq<Listed>): Breakdown
  {
    Breakdown(MaxScore - ConflictPenalty(p.name, conflicts), MaxScore - OverlapPenalty(p.name, overlaps),
              MaxScore - Round(ComplexityPenalty(p.complexity)), MaxScore - Round(SizePenalty(p.size)),
              if EmptyText(p.version) then 80 else 100)
  }

  function IssuesOf(p: PluginInput, conflicts: ConflictLists, overlaps: seq<Listed>): seq<Issue>
  {
    var cp := ConflictPenalty(p.name, conflicts);
    var op := OverlapPenalty(p.name, overlaps);
    (if cp > 0 then [ConflictIssue(cp)] else [])
      + (if op > 0 then [OverlapIssue(op)] else [])
      + (if SizeMb(p.size) > 10.0 then [SizeIssue(SizeMb(p.size), Round(SizePenalty(p.size)))] else [])
      + (if EmptyText(p.version) then [NoVersionIssue] else [])
  }

  /** `calculate_plugin_score`. */
  function ScoreOf(p: PluginInput, conflicts: ConflictLists, overlaps: seq<Listed>): ScoreData
  {
    ScoreData(Round2(MaxReal(0.0, RawScore(p, conflicts, overlaps))), BreakdownOf(p, conflicts, overlaps), IssuesOf(p, conflicts, overlaps))
  }

  /** The total lies in [0, 100] and each part of the breakdown in its band. */
  lemma ScoreRange(p: PluginInput, conflicts: ConflictLists, overlaps: seq<Listed>)
    ensures 0.0 <= ScoreOf(p, conflicts, overlaps).total <= 100.0
    ensures 60 <= ScoreOf(p, conflicts, overlaps).breakdown.conflicts <= 100
    ensures 70 <= ScoreOf(p, conflicts, overlaps).breakdown.overlaps <= 100
    ensures 80 <= ScoreOf(p, conflicts, overlaps).breakdown.complexity <= 100
    ensures 90 <= ScoreOf(p, conflicts, overlaps).breakdown.size <= 100
  {
    ConflictPenaltyMeaning(p.name, conflicts);
    OverlapPenaltyMeaning(p.name, overlaps);
    Round2Range(MaxReal(0.0, RawScore(p, conflicts, overlaps)));
    assert Round(ComplexityPenalty(p.complexity)) <= 20;
    assert Round(SizePenalty(p.size)) <= 10;
  }

  /**
   * A missing (or empty) version costs exactly 20 points and a maintenance
   * mark of 80 instead of 100; when the lower score is not clamped at 0 the
   * totals differ by exactly 20.
   */
  lemma MissingVersionCosts(p: PluginInput, conflicts: ConflictLists, overlaps: seq<Listed>, version: string)
    requires EmptyText(p.version) && !EmptyText(Some(version))
    ensures RawScore(p, conflicts, overlaps) == RawScore(p.(version := Some(version)), conflicts, overlaps) - 20.0
    ensures ScoreOf(p, conflicts, overlaps).breakdown.maintenance == 80
    ensures ScoreOf(p.(version := Some(version)), conflicts, overlaps).breakdown.maintenance == 100
    ensures NoVersionIssue in ScoreOf(p, conflicts, overlaps).issues
    ensures NoVersionIssue !in ScoreOf(p.(version := Some(version)), conflicts, overlaps).issues
    ensures RawScore(p, conflicts, overlaps) >= 0.0 ==>
      ScoreOf(p, conflicts, overlaps).total == ScoreOf(p.(version := Some(version)), conflicts, overlaps).total - 20.0
  {
    var q := p.(version := Some(version));
    if RawScore(p, conflicts, overlaps) >= 0.0 {
      Round2Shift(RawScore(q, conflicts, overlaps), 20);
    }
  }

  /** `calculate_plugin_score`: start at 100 and take each penalty off in turn. */
  method CalculatePluginScore(p: PluginInput, conflicts: ConflictLists, overlaps: seq<Listed>) returns (data: ScoreData)
    ensures data == ScoreOf(p, conflicts, overlaps)
  {
    var issues: seq<Issue> := [];
    var score: real := MaxScore as real;
    var conflictPenalty := CalculateConflictPenalty(p.name, conflicts);
    score := score - conflictPenalty as real;
    if conflictPenalty > 0 {
      issues := issues + [ConflictIssue(conflictPenalty)];
    }
    var overlapPenalty := CalculateOverlapPenalty(p.name, overlaps);
    score := score - overlapPenalty as real;
    if overlapPenalty > 0 {
      issues := issues + [OverlapIssue(overlapPenalty)];
    }
    var complexityPenalty := MinReal(20.0, p.complexity as real / 1000.0);
    score := score - complexityPenalty;
    var sizeMb := p.size as real / 1024.0 / 1024.0;
    var sizePenalty := 0.0;
    if sizeMb > 10.0 {
      sizePenalty := MinReal(10.0, (sizeMb - 10.0) / 2.0);
      issues := issues + [SizeIssue(sizeMb, Round(sizePenalty))];
    }
    score := score - sizePenalty;
    var maintenance := 100;
    if EmptyText(p.version) {
      maintenance := 80;
      score := score - 20.0;
      issues := issues + [NoVersionIssue];
    }
    assert sizeMb == SizeMb(p.size) && sizePenalty == SizePenalty(p.size);
    assert score == RawScore(p, conflicts, overlaps);
    assert issues == IssuesOf(p, conflicts, overlaps);
    score := MaxReal(0.0, score);
    var breakdown := Breakdown(MaxScore - conflictPenalty, MaxScore - overlapPenalty, MaxScore - Round(complexityPenalty),
                               MaxScore - Round(sizePenalty), maintenance);
    data := ScoreData(Round2(score), breakdown, issues);
  }

  // ---------------------------------------------------------------------
  // Recommendations
  // ---------------------------------------------------------------------

  /** `get_recommendations`. */
  function RecommendationsOf(s: ScoreData): seq<Advice>
  {
    var first :=
      if s.total >= 80.0 then WellBehaved
      else if s.total >= 60.0 then MinorIssues
      else SignificantIssues;
    [first]
      + (if s.breakdown.conflicts < 70 then [HighConflictPotential] else [])
      + (if s.breakdown.overlaps < 70 then [FunctionalOverlap] else [])
  }

  /**
   * The first recommendation grades the total, the conflict warning follows
   * exactly when the conflicts mark is under 70, and the overlap advice
   * exactly when the overlaps mark is.
   */
  lemma RecommendationsShape(s: ScoreData)
    ensures RecommendationsOf(s) != []
    ensures RecommendationsOf(s)[0].Kind() == (if s.total >= 80.0 then SuccessType else if s.total >= 60.0 then WarningType else ErrorType)
    ensures |RecommendationsOf(s)| == 1 + (if s.breakdown.conflicts < 70 then 1 else 0) + (if s.breakdown.overlaps < 70 then 1 else 0)
    ensures (exists a :: a in RecommendationsOf(s) && a.Kind() == InfoType) <==> s.breakdown.overlaps < 70
    ensures HighConflictPotential in RecommendationsOf(s) <==> s.breakdown.conflicts < 70
    ensures FunctionalOverlap in RecommendationsOf(s) <==> s.breakdown.overlaps < 70
  {
    var r := RecommendationsOf(s);
    var head := [r[0]] + (if s.breakdown.conflicts < 70 then [HighConflictPotential] else []);
    if s.breakdown.overlaps < 70 {
      assert r == head + [FunctionalOverlap];
      assert r[|r| - 1] in r;
    } else {
      assert r == head;
      assert forall a :: a in r ==> a.Kind() != InfoType;
    }
  }

  /**
   * For a computed score the conflict warning follows exactly when the
   * conflict penalty exceeds 30; since the overlap penalty is capped at 30
   * the overlap advice is never given.
   */
  lemma RecommendationsMeaning(p: PluginInput, conflicts: ConflictLists, overlaps: seq<Listed>)
    ensures |RecommendationsOf(ScoreOf(p, conflicts, overlaps))| == (if ConflictPenalty(p.name, conflicts) > 30 then 2 else 1)
    ensures forall a :: a in RecommendationsOf(ScoreOf(p, conflicts, overlaps)) ==> a.Kind() != InfoType
    ensures HighConflictPotential in RecommendationsOf(ScoreOf(p, conflicts, overlaps)) <==> ConflictPenalty(p.name, conflicts) > 30
    ensures FunctionalOverlap !in RecommendationsOf(ScoreOf(p, conflicts, overlaps))
  {
    var s := ScoreOf(p, conflicts, overlaps);
    ScoreRange(p, conflicts, overlaps);
    RecommendationsShape(s);
    assert s.breakdown.conflicts == 100 - ConflictPenalty(p.name, conflicts);
  }

  // ---------------------------------------------------------------------
  // Ranking
  // ---------------------------------------------------------------------

  function RankedOf(p: PluginInput, conflicts: ConflictLists, overlaps: seq<Listed>): RankedPlugin
  {
    var s := ScoreOf(p, conflicts, overlaps);
    RankedPlugin(p.file, p.name, p.version, s.total, s.breakdown, s.issues, RecommendationsOf(s))
  }

  /** The first loop of `rank_plugins`, in input order. */
  function Unranked(plugins: seq<PluginInput>, conflicts: ConflictLists, overlaps: seq<Listed>): seq<RankedPlugin>
  {
    seq(|plugins|, i requires 0 <= i < |plugins| => RankedOf(plugins[i], conflicts, overlaps))
  }

  /** The `uasort` comparator `$b['score'] <=> $a['score']` as an ascending key. */
  function ScoreKey(): RankedPlugin -> real
  {
    (r: RankedPlugin) => -r.score
  }

  /** `rank_plugins`. */
  function Ranked(plugins: seq<PluginInput>, conflicts: ConflictLists, overlaps: seq<Listed>): seq<RankedPlugin>
  {
    SortBy(Unranked(plugins, conflicts, overlaps), ScoreKey())
  }

  /**
   * One entry per input plugin, each scored for it, highest score first, in
   * [0, 100]; plugins with equal scores stay in input order.
   */
  lemma RankedFacts(plugins: seq<PluginInput>, conflicts: ConflictLists, overlaps: seq<Listed>)
    ensures multiset(Ranked(plugins, conflicts, overlaps)) == multiset(Unranked(plugins, conflicts, overlaps))
    ensures |Ranked(plugins, conflicts, overlaps)| == |plugins|
    ensures forall i, j :: 0 <= i < j < |Ranked(plugins, conflicts, overlaps)| ==>
      Ranked(plugins, conflicts, overlaps)[i].score >= Ranked(plugins, conflicts, overlaps)[j].score
    ensures forall r :: r in Ranked(plugins, conflicts, overlaps) ==> 0.0 <= r.score <= 100.0
    ensures forall k :: (Filter(Ranked(plugins, conflicts, overlaps), KeyEquals(ScoreKey(), k)) ==
      Filter(Unranked(plugins, conflicts, overlaps), KeyEquals(ScoreKey(), k)))
  {
    var u := Unranked(plugins, conflicts, overlaps);
    var r := Ranked(plugins, conflicts, overlaps);
    SortByFacts(u, ScoreKey());
    assert |r| == |multiset(r)| == |multiset(u)| == |u|;
    forall i, j | 0 <= i < j < |r|
      ensures r[i].score >= r[j].score
    {
      assert ScoreKey()(r[i]) <= ScoreKey()(r[j]);
    }
    forall x | x in r
      ensures 0.0 <= x.score <= 100.0
    {
      assert x in multiset(u);
      var i :| 0 <= i < |u| && u[i] == x;
      ScoreRange(plugins[i], conflicts, overlaps);
    }
  }

  /** `rank_plugins`: score each plugin, then sort by score, highest first. */
  method RankPlugins(plugins: seq<PluginInput>, conflicts: ConflictLists, overlaps: seq<Listed>) returns (ranked: seq<RankedPlugin>)
    ensures ranked == Ranked(plugins, conflicts, overlaps)
  {
    var unsorted: seq<RankedPlugin> := [];
    var i := 0;
    while i < |plugins|
      invariant 0 <= i <= |plugins|
      invariant |unsorted| == i
      invariant forall k :: 0 <= k < i ==> unsorted[k] == RankedOf(plugins[k], conflicts, overlaps)
    {
      var p := plugins[i];
      var score := CalculatePluginScore(p, conflicts, overlaps);
      unsorted := unsorted + [RankedPlugin(p.file, p.name, p.version, score.total, score.breakdown, score.issues, RecommendationsOf(score))];
      i := i + 1;
    }
    assert unsorted == Unranked(plugins, conflicts, overlaps);
    ranked := SortBy(unsorted, ScoreKey());
  }

  // ---------------------------------------------------------------------
  // Comparative ranking and priority actions
  // ---------------------------------------------------------------------

  /** `(($total - $index) / $total) * 100`. */
  function Percentile(total: nat, rank: nat): real
    requires 1 <= rank <= total
  {
    ((total - rank) as real / total as real) * 100.0
  }

  /** `get_comparative_ranking`: the position in the given order, from 1. */
  function ComparativeOf(ranked: seq<RankedPlugin>): seq<Comparative>
  {
    seq(|ranked|, i requires 0 <= i < |ranked| =>
      Comparative(ranked[i].file, i + 1, Round1(Percentile(|ranked|, i + 1)), |ranked|))
  }

  lemma PercentileRange(total: nat, rank: nat)
    requires 1 <= rank <= total
    ensures 0.0 <= Percentile(total, rank) < 100.0
  {
    var q := (total - rank) as real / total as real;
    assert q * total as real == (total - rank) as real;
  }

  lemma PercentileOrder(total: nat, a: nat, b: nat)
    requires 1 <= a <= b <= total
    ensures Percentile(total, b) <= Percentile(total, a)
  {
    var qa := (total - a) as real / total as real;
    var qb := (total - b) as real / total as real;
    assert qa * total as real == (total - a) as real;
    assert qb * total as real == (total - b) as real;
  }

  /**
   * The ranks are 1..n in the given order, every percentile is in [0, 100]
   * and never rises down the list, and each entry counts all n plugins.
   */
  lemma ComparativeFacts(ranked: seq<RankedPlugin>)
    ensures |ComparativeOf(ranked)| == |ranked|
    ensures forall i :: 0 <= i < |ranked| ==>
      ComparativeOf(ranked)[i].rank == i + 1 && ComparativeOf(ranked)[i].file == ranked[i].file &&
      ComparativeOf(ranked)[i].totalPlugins == |ranked| && 0.0 <= ComparativeOf(ranked)[i].percentile <= 100.0
    ensures forall i, j :: 0 <= i < j < |ranked| ==> ComparativeOf(ranked)[j].percentile <= ComparativeOf(ranked)[i].percentile
  {
    var n := |ranked|;
    var c := ComparativeOf(ranked);
    forall i | 0 <= i < n
      ensures 0.0 <= c[i].percentile <= 100.0
    {
      PercentileRange(n, i + 1);
      assert Round(Percentile(n, i + 1) * 10.0) <= 1000;
    }
    forall i, j | 0 <= i < j < n
      ensures c[j].percentile <= c[i].percentile
    {
      PercentileOrder(n, i + 1, j + 1);
      PercentileRange(n, j + 1);
      RoundMonotone(Percentile(n, j + 1) * 10.0, Percentile(n, i + 1) * 10.0);
    }
  }

  /** `get_comparative_ranking`. */
  method GetComparativeRanking(ranked: seq<RankedPlugin>) returns (comparative: seq<Comparative>)
    ensures comparative == ComparativeOf(ranked)
  {
    var total := |ranked|;
    var index := 0;
    comparative := [];
    while index < total
      invariant 0 <= index <= total
      invariant comparative == ComparativeOf(ranked)[..index]
    {
      index := index + 1;
      var percentile := ((total - index) as real / total as real) * 100.0;
      comparative := comparative + [Comparative(ranked[index - 1].file, index, Round1(percentile), total)];
    }
  }

  function ActionFor(r: RankedPlugin): PriorityAction
  {
    PriorityAction("high", r.name, "review", "Low compatibility score", r.score)
  }

  predicate LowScore(r: RankedPlugin)
  {
    r.score < 50.0
  }

  /** `get_priority_actions`. */
  function PriorityActions(ranked: seq<RankedPlugin>): seq<PriorityAction>
  {
    if ranked == [] then []
    else
      var last := ranked[|ranked| - 1];
      PriorityActions(ranked[..|ranked| - 1]) + (if LowScore(last) then [ActionFor(last)] else [])
  }

  /**
   * One high-priority review action per plugin scoring under 50, in the
   * given order, and no other.
   */
  lemma {:induction false} PriorityActionsMeaning(ranked: seq<RankedPlugin>)
    ensures |PriorityActions(ranked)| == CountIf(ranked, LowScore)
    ensures forall a :: a in PriorityActions(ranked) <==> exists i :: 0 <= i < |ranked| && LowScore(ranked[i]) && a == ActionFor(ranked[i])
    ensures forall a :: a in PriorityActions(ranked) ==> a.score < 50.0 && a.priority == "high"
  {
    if ranked != [] {
      var init := ranked[..|ranked| - 1];
      PriorityActionsMeaning(init);
      assert forall i :: 0 <= i < |init| ==> init[i] == ranked[i];
    }
  }

  /** `get_priority_actions`. */
  method GetPriorityActions(ranked: seq<RankedPlugin>) returns (actions: seq<PriorityAction>)
    ensures actions == PriorityActions(ranked)
  {
    actions := [];
    var i := 0;
    while i < |ranked|
      invariant 0 <= i <= |ranked|
      invariant actions == PriorityActions(ranked[..i])
    {
      assert ranked[..i + 1][..i] == ranked[..i];
      var data := ranked[i];
      if data.score < 50.0 {
        actions := actions + [PriorityAction("high", data.name, "review", "Low compatibility score", data.score)];
      }
      i := i + 1;
    }
    assert ranked[..i] == ranked;
  }
}
