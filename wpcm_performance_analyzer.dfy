/**
 * The performance analyzer: five measurements of a plugin (size,
 * complexity, database tables, asset files, hooks), each rated on a
 * threshold ladder and scored out of 100, and a report that averages the
 * five scores.
 */
module PerformanceAnalyzer {
  import opened Common
  import opened WpcmCommon

  datatype Rating = Excellent | Good | Fair | Poor
  {
    /** 0 for excellent up to 3 for poor. */
    function Rank(): nat
    {
      match this
      case Excellent => 0
      case Good => 1
      case Fair => 2
      case Poor => 3
    }
  }

  datatype SizeAnalysis = SizeAnalysis(bytes: nat, megabytes: real, rating: Rating, score: real)
  datatype ComplexityAnalysis = ComplexityAnalysis(scoreValue: nat, rating: Rating, score: real)
  datatype DatabaseImpact = DatabaseImpact(tableCount: nat, tables: seq<string>, rating: Rating, score: real)
  datatype AssetImpact = AssetImpact(cssFiles: nat, jsFiles: nat, total: nat, rating: Rating, score: real)
  datatype HooksCount = HooksCount(actions: nat, filters: nat, total: nat, rating: Rating, score: real)

  /** The analysis array; `overallRating` is absent until `generate_report` sets it. */
  datatype PerformanceData = PerformanceData(size: SizeAnalysis, complexity: ComplexityAnalysis, databaseImpact: DatabaseImpact,
                                             assetImpact: AssetImpact, hooksCount: HooksCount,
                                             overallScore: real, overallRating: Option<Rating>)

  /**
   * What the plugin scanner and the directory walk report for a plugin:
   * size in bytes, complexity, tables, the walk's entries (`isDir` false
   * when the directory is missing) and the action and filter hooks.
   */
  datatype Metrics = Metrics(size: nat, complexity: nat, tables: seq<string>, isDir: bool, entries: seq<DirEntry>,
                             actions: seq<string>, filters: seq<string>)

  // ---------------------------------------------------------------------
  // Ratings and scores
  // ---------------------------------------------------------------------

  /** The ladder every analysis uses: above `poor` is poor, above `fair` fair, above `good` good. */
  function Ladder(x: real, good: real, fair: real, poor: real): Rating
  {
    if x > poor then Poor else if x > fair then Fair else if x > good then Good else Excellent
  }

  /** On an ordered ladder a larger measurement never gets a better rating. */
  lemma LadderMonotone(x: real, y: real, good: real, fair: real, poor: real)
    requires good <= fair <= poor && x <= y
    ensures Ladder(x, good, fair, poor).Rank() <= Ladder(y, good, fair, poor).Rank()
  {
  }

  /** `max(0, 100 - $x * $k)`. */
  function Score(x: real, k: real): (r: real)
    requires x >= 0.0 && k >= 0.0
    ensures 0.0 <= r <= 100.0
  {
    MaxReal(0.0, 100.0 - x * k)
  }

  lemma ScoreMonotone(x: real, y: real, k: real)
    requires 0.0 <= x <= y && k >= 0.0
    ensures Score(y, k) <= Score(x, k)
  {
    var d := y - x;
    assert d >= 0.0;
    assert d * k >= 0.0;
    assert y * k == x * k + d * k;
  }

  function Megabytes(bytes: nat): real
  {
    bytes as real / 1024.0 / 1024.0
  }

  /** `analyze_size`. */
  function AnalyzeSize(bytes: nat): (r: SizeAnalysis)
    ensures r.bytes == bytes && 0.0 <= r.score <= 100.0
    ensures r.rating == Excellent <==> Megabytes(bytes) <= 5.0
    ensures r.rating == Poor <==> Megabytes(bytes) > 20.0
  {
    var mb := Megabytes(bytes);
    SizeAnalysis(bytes, Round2(mb), Ladder(mb, 5.0, 10.0, 20.0), Score(mb, 2.0))
  }

  /** `analyze_complexity`. */
  function AnalyzeComplexity(complexity: nat): (r: ComplexityAnalysis)
    ensures r.scoreValue == complexity && 0.0 <= r.score <= 100.0
    ensures r.rating == Excellent <==> complexity <= 2000
    ensures r.rating == Poor <==> complexity > 10000
  {
    ComplexityAnalysis(complexity, Ladder(complexity as real, 2000.0, 5000.0, 10000.0), Score(complexity as real, 0.01))
  }

  /** `analyze_database_impact`. */
  function AnalyzeDatabaseImpact(tables: seq<string>): (r: DatabaseImpact)
    ensures r.tableCount == |tables| && r.tables == tables && 0.0 <= r.score <= 100.0
    ensures r.rating == Excellent <==> |tables| <= 2
    ensures r.rating == Poor <==> |tables| > 10
  {
    DatabaseImpact(|tables|, tables, Ladder(|tables| as real, 2.0, 5.0, 10.0), Score(|tables| as real, 5.0))
  }

  /** `analyze_asset_impact` from the two file counts. */
  function AssetImpactOf(css: nat, js: nat): (r: AssetImpact)
    ensures r.total == css + js && 0.0 <= r.score <= 100.0
    ensures r.rating == Excellent <==> css + js <= 5
    ensures r.rating == Poor <==> css + js > 20
  {
    var total := css + js;
    AssetImpact(css, js, total, Ladder(total as real, 5.0, 10.0, 20.0), Score(total as real, 3.0))
  }

  /** `analyze_hooks_count`. */
  function AnalyzeHooksCount(actions: seq<string>, filters: seq<string>): (r: HooksCount)
    ensures r.total == |actions| + |filters| && 0.0 <= r.score <= 100.0
    ensures r.rating == Excellent <==> |actions| + |filters| <= 25
    ensures r.rating == Poor <==> |actions| + |filters| > 100
  {
    var total := |actions| + |filters|;
    HooksCount(|actions|, |filters|, total, Ladder(total as real, 25.0, 50.0, 100.0), Score(total as real, 0.5))
  }

  /**
   * A bigger plugin, a more complex one, one with more tables, assets or
   * hooks never gets a better rating or a higher score.
   */
  lemma AnalysesMonotone(a: nat, b: nat)
    requires a <= b
    ensures AnalyzeSize(a).rating.Rank() <= AnalyzeSize(b).rating.Rank() && AnalyzeSize(b).score <= AnalyzeSize(a).score
    ensures AnalyzeComplexity(a).rating.Rank() <= AnalyzeComplexity(b).rating.Rank()
    ensures AnalyzeComplexity(b).score <= AnalyzeComplexity(a).score
    ensures AssetImpactOf(a, 0).rating.Rank() <= AssetImpactOf(b, 0).rating.Rank() && AssetImpactOf(b, 0).score <= AssetImpactOf(a, 0).score
  {
    assert Megabytes(a) <= Megabytes(b);
    LadderMonotone(Megabytes(a), Megabytes(b), 5.0, 10.0, 20.0);
    ScoreMonotone(Megabytes(a), Megabytes(b), 2.0);
    LadderMonotone(a as real, b as real, 2000.0, 5000.0, 10000.0);
    ScoreMonotone(a as real, b as real, 0.01);
    LadderMonotone(a as real, b as real, 5.0, 10.0, 20.0);
    ScoreMonotone(a as real, b as real, 3.0);
  }

  /** More tables or more hooks never improve the rating or the score. */
  lemma CountsMonotone(t1: seq<string>, t2: seq<string>, h1: seq<string>, h2: seq<string>)
    requires |t1| <= |t2| && |h1| <= |h2|
    ensures AnalyzeDatabaseImpact(t1).rating.Rank() <= AnalyzeDatabaseImpact(t2).rating.Rank()
    ensures AnalyzeDatabaseImpact(t2).score <= AnalyzeDatabaseImpact(t1).score
    ensures AnalyzeHooksCount(h1, []).rating.Rank() <= AnalyzeHooksCount(h2, []).rating.Rank()
    ensures AnalyzeHooksCount(h2, []).score <= AnalyzeHooksCount(h1, []).score
  {
    LadderMonotone(|t1| as real, |t2| as real, 2.0, 5.0, 10.0);
    ScoreMonotone(|t1| as real, |t2| as real, 5.0);
    LadderMonotone(|h1| as real, |h2| as real, 25.0, 50.0, 100.0);
    ScoreMonotone(|h1| as real, |h2| as real, 0.5);
  }

  // ---------------------------------------------------------------------
  // Counting asset files
  // ---------------------------------------------------------------------

  function HasExtension(ext: string): DirEntry -> bool
  {
    (e: DirEntry) => e.isFile && e.extension == ext
  }

  /** `count_files`: the files of the walk with the given extension, none when the directory is missing. */
  function FileCount(isDir: bool, entries: seq<DirEntry>, ext: string): nat
  {
    if isDir then CountIf(entries, HasExtension(ext)) else 0
  }

  /** `count_files`. */
  method CountFiles(isDir: bool, entries: seq<DirEntry>, ext: string) returns (count: nat)
    ensures count == FileCount(isDir, entries, ext)
    ensures count <= |entries|
  {
    count := 0;
    if !isDir {
      return;
    }
    var i := 0;
    while i < |entries|
      invariant 0 <= i <= |entries|
      invariant count == CountIf(entries[..i], HasExtension(ext))
    {
      assert entries[..i + 1][..i] == entries[..i];
      if entries[i].isFile && entries[i].extension == ext {
        count := count + 1;
      }
      i := i + 1;
    }
    assert entries[..i] == entries;
  }

  /** `analyze_asset_impact`. */
  function AnalyzeAssetImpact(isDir: bool, entries: seq<DirEntry>): AssetImpact
  {
    AssetImpactOf(FileCount(isDir, entries, "css"), FileCount(isDir, entries, "js"))
  }

  // ---------------------------------------------------------------------
  // The report
  // ---------------------------------------------------------------------

  /** `analyze_plugin`: the five analyses, with `overall_score` still 0. */
  function AnalyzePlugin(m: Metrics): (r: PerformanceData)
    ensures r.overallScore == 0.0 && r.overallRating.None?
  {
    PerformanceData(AnalyzeSize(m.size), AnalyzeComplexity(m.complexity), AnalyzeDatabaseImpact(m.tables),
                    AnalyzeAssetImpact(m.isDir, m.entries), AnalyzeHooksCount(m.actions, m.filters), 0.0, None)
  }

  /** `get_overall_rating`. */
  function OverallRating(score: real): Rating
  {
    if score >= 90.0 then Excellent else if score >= 75.0 then Good else if score >= 60.0 then Fair else Poor
  }

  /** A lower overall score never gets a better rating. */
  lemma OverallRatingMonotone(s: real, t: real)
    requires s <= t
    ensures OverallRating(t).Rank() <= OverallRating(s).Rank()
  {
  }

  /** The rating bands of `get_overall_rating`. */
  lemma OverallRatingBands(score: real)
    ensures OverallRating(score) == Excellent <==> score >= 90.0
    ensures OverallRating(score) == Good <==> 75.0 <= score < 90.0
    ensures OverallRating(score) == Fair <==> 60.0 <= score < 75.0
    ensures OverallRating(score) == Poor <==> score < 60.0
  {
  }

  /** `array_sum($scores) / count($scores)` over the five component scores. */
  function MeanScore(d: PerformanceData): real
  {
    (d.size.score + d.complexity.score + d.databaseImpact.score + d.assetImpact.score + d.hooksCount.score) / 5.0
  }

  predicate ScoresInRange(d: PerformanceData)
  {
    0.0 <= d.size.score <= 100.0 && 0.0 <= d.complexity.score <= 100.0 && 0.0 <= d.databaseImpact.score <= 100.0
    && 0.0 <= d.assetImpact.score <= 100.0 && 0.0 <= d.hooksCount.score <= 100.0
  }

  /**
   * `generate_report`: the components are kept as they are; the overall
   * score is the mean of the five scores rounded to two places, and the
   * rating is taken from the unrounded mean.
   */
  function GenerateReport(d: PerformanceData): (r: PerformanceData)
    requires ScoresInRange(d)
    ensures r.size == d.size && r.complexity == d.complexity && r.databaseImpact == d.databaseImpact
    ensures r.assetImpact == d.assetImpact && r.hooksCount == d.hooksCount
    ensures 0.0 <= r.overallScore <= 100.0
    ensures r.overallScore - 0.005 <= MeanScore(d) < r.overallScore + 0.005
    ensures r.overallRating == Some(OverallRating(MeanScore(d)))
  {
    var mean := MeanScore(d);
    Round2Range(mean);
    d.(overallScore := Round2(mean), overallRating := Some(OverallRating(mean)))
  }

  /** Every analysis `analyze_plugin` produces can be reported on. */
  lemma AnalysisInRange(m: Metrics)
    ensures ScoresInRange(AnalyzePlugin(m))
  {
  }

  /**
   * The overall score of a report lies between the lowest and the highest
   * component score (up to rounding): when every component lies in
   * [lo, hi] so does the overall score, give or take 0.005; five excellent
   * scores give an excellent rating, five scores under 60 a poor one.
   */
  lemma ReportBetweenComponents(d: PerformanceData, lo: real, hi: real)
    requires ScoresInRange(d)
    ensures (lo <= d.size.score <= hi && lo <= d.complexity.score <= hi && lo <= d.databaseImpact.score <= hi &&
             lo <= d.assetImpact.score <= hi && lo <= d.hooksCount.score <= hi) ==>
              lo - 0.005 < GenerateReport(d).overallScore <= hi + 0.005
    ensures (d.size.score >= 90.0 && d.complexity.score >= 90.0 && d.databaseImpact.score >= 90.0 &&
             d.assetImpact.score >= 90.0 && d.hooksCount.score >= 90.0) ==> GenerateReport(d).overallRating == Some(Excellent)
    ensures (d.size.score < 60.0 && d.complexity.score < 60.0 && d.databaseImpact.score < 60.0 &&
             d.assetImpact.score < 60.0 && d.hooksCount.score < 60.0) ==> GenerateReport(d).overallRating == Some(Poor)
  {
  }
}
