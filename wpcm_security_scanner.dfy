/**
 * The security scanner: every PHP file of a plugin is searched for calls of
 * dangerous functions, SQL built from variables or request input, echoed
 * request input and file operations on request input; each match becomes
 * an issue with its line number, and the issues decide a risk level.
 *
 * The regular-expression search itself is an input: `offsets(f, content)`
 * are the byte offsets at which the pattern of finding kind `f` matches.
 */
module SecurityScanner {
  import opened Common
  import opened WpcmCommon

  /** The kind of a finding, one per pattern the scanner searches for. */
  datatype Finding =
    | DangerousFunction(name: string)  // `\bNAME\s*\(`, case-insensitive
    | DirectQuery                          // `$wpdb->query(...)` and friends with a variable inside the quotes
    | InputInQuery                         // `$_GET[...]` etc. followed by an SQL keyword
    | EchoInput                            // `echo $_GET[`
    | FileWithInput                        // `fopen($_GET` etc.
  {
    /** The issue's `type`. */
    function Type(): string
    {
      match this
      case DangerousFunction(_) => "dangerous_function"
      case DirectQuery => "sql_injection"
      case InputInQuery => "sql_injection"
      case EchoInput => "xss"
      case FileWithInput => "file_operation"
    }

    /** The issue's `severity`: request input in SQL is critical, everything else high. */
    function Level(): (s: Severity)
      ensures s == High || s == Critical
    {
      if this == InputInQuery then Critical else High
    }

    /** The issue's `message`. */
    function Message(): string
    {
      match this
      case DangerousFunction(f) => "Potentially dangerous function '" + f + "' found"
      case DirectQuery => "Possible SQL injection: direct variable in query without prepare()"
      case InputInQuery => "Critical: User input directly in SQL query"
      case EchoInput => "Possible XSS: unescaped user input in echo"
      case FileWithInput => "Insecure file operation with user input"
    }
  }

  /** One issue; `type`, `severity`, `function` and `message` follow from the finding. */
  datatype Issue = Issue(finding: Finding, file: string, line: nat)

  datatype RiskLevel = Safe | LowRisk | MediumRisk | HighRisk | CriticalRisk

  datatype ScanResult = ScanResult(totalIssues: nat, issues: seq<Issue>, riskLevel: RiskLevel)

  /** `$dangerous_functions`. */
  const DangerousFunctions: seq<string> := ["eval", "base64_decode", "system", "exec", "shell_exec", "passthru",
    "proc_open", "popen", "curl_exec", "curl_multi_exec", "parse_str", "file_get_contents", "file_put_contents"]

  /** At most this many PHP files are scanned. */
  const FileLimit: nat := 100

  // ---------------------------------------------------------------------
  // Line numbers
  // ---------------------------------------------------------------------

  /** `substr_count($s, "\n")`. */
  function Newlines(s: string): (n: nat)
    ensures n <= |s|
  {
    if s == [] then 0 else Newlines(s[..|s| - 1]) + (if s[|s| - 1] == '\n' then 1 else 0)
  }

  /** `substr_count(substr($content, 0, $offset), "\n") + 1`. */
  function LineAt(content: string, offset: nat): nat
  {
    Newlines(content[..if offset <= |content| then offset else |content|]) + 1
  }

  lemma {:induction false} NewlinesPrefix(s: string, i: nat, j: nat)
    requires i <= j <= |s|
    ensures Newlines(s[..i]) <= Newlines(s[..j])
    decreases j - i
  {
    if i < j {
      NewlinesPrefix(s, i, j - 1);
      assert s[..j][..j - 1] == s[..j - 1];
    }
  }

  /**
   * A line number is at least 1 and at most the file's line count, and a
   * later offset never has an earlier line.
   */
  lemma LineAtBounds(content: string, a: nat, b: nat)
    requires a <= b
    ensures 1 <= LineAt(content, a) <= Newlines(content) + 1
    ensures LineAt(content, a) <= LineAt(content, b)
  {
    var ia := if a <= |content| then a else |content|;
    var ib := if b <= |content| then b else |content|;
    NewlinesPrefix(content, ia, ib);
    NewlinesPrefix(content, ib, |content|);
    assert content[..|content|] == content;
  }

  /** A match on the first line, before any newline, is on line 1. */
  lemma LineOfFirstLine(content: string, offset: nat)
    requires offset <= |content| && '\n' !in content[..offset]
    ensures LineAt(content, offset) == 1
  {
    NoNewlines(content[..offset]);
  }

  lemma {:induction false} NoNewlines(s: string)
    requires '\n' !in s
    ensures Newlines(s) == 0
  {
    if s != [] {
      assert '\n' !in s[..|s| - 1];
      NoNewlines(s[..|s| - 1]);
    }
  }

  // ---------------------------------------------------------------------
  // Scanning one file
  // ---------------------------------------------------------------------

  /** `basename($path)` for a path that does not end in a slash: the part after the last `/`. */
  function Basename(path: string): string
  {
    if path == [] || path[|path| - 1] == '/' then []
    else Basename(path[..|path| - 1]) + [path[|path| - 1]]
  }

  /** The base name is the longest suffix without a slash: a slash precedes it unless it is the whole path. */
  lemma {:induction false} BasenameMeaning(path: string)
    ensures |Basename(path)| <= |path| && path[|path| - |Basename(path)|..] == Basename(path)
    ensures '/' !in Basename(path)
    ensures |Basename(path)| < |path| ==> path[|path| - |Basename(path)| - 1] == '/'
  {
    if path != [] && path[|path| - 1] != '/' {
      var init := path[..|path| - 1];
      BasenameMeaning(init);
      var b := Basename(init);
      assert Basename(path) == b + [path[|path| - 1]];
      assert init[|init| - |b|..] == b;
      assert path[|path| - |b| - 1..] == init[|init| - |b|..] + [path[|path| - 1]];
      if |b| < |init| {
        assert path[|path| - |b| - 2] == init[|init| - |b| - 1];
      }
    }
  }

  /** The issues of one pattern: one per match, in match order. */
  function IssuesFor(f: Finding, file: string, content: string, matches: seq<nat>): (r: seq<Issue>)
    ensures |r| == |matches|
  {
    if matches == [] then []
    else IssuesFor(f, file, content, matches[..|matches| - 1]) + [Issue(f, Basename(file), LineAt(content, matches[|matches| - 1]))]
  }

  lemma {:induction false} IssuesForAt(f: Finding, file: string, content: string, matches: seq<nat>, k: int)
    requires 0 <= k < |matches|
    ensures IssuesFor(f, file, content, matches)[k] == Issue(f, Basename(file), LineAt(content, matches[k]))
  {
    var init := matches[..|matches| - 1];
    var last := Issue(f, Basename(file), LineAt(content, matches[|matches| - 1]));
    assert IssuesFor(f, file, content, matches) == IssuesFor(f, file, content, init) + [last];
    if k < |matches| - 1 {
      IssuesForAt(f, file, content, init, k);
      assert init[k] == matches[k];
    }
  }

  /** One pattern per dangerous function, in list order. */
  function DangerousFindings(functions: seq<string>): (r: seq<Finding>)
    ensures |r| == |functions|
    ensures forall i :: 0 <= i < |functions| ==> r[i] == DangerousFunction(functions[i])
  {
    seq(|functions|, i requires 0 <= i < |functions| => DangerousFunction(functions[i]))
  }

  /** The patterns of `scan_sql_injection`, `scan_xss_risks` and `scan_file_operations`, in that order. */
  const FixedFindings: seq<Finding> := [DirectQuery, InputInQuery, EchoInput, FileWithInput]

  /** The patterns in the order the four `scan_*` methods try them. */
  function Findings(functions: seq<string>): seq<Finding>
  {
    DangerousFindings(functions) + FixedFindings
  }

  function IssuesOfFinding(file: string, content: string, offsets: (Finding, string) -> seq<nat>): Finding -> seq<Issue>
  {
    f => IssuesFor(f, file, content, offsets(f, content))
  }

  /** The issues of one file: each function of `functions`, then SQL, XSS, file operations. */
  function FileIssues(functions: seq<string>, file: string, content: string, offsets: (Finding, string) -> seq<nat>): seq<Issue>
  {
    FlatMap(Findings(functions), IssuesOfFinding(file, content, offsets))
  }

  /**
   * An issue of a file comes from one match of one pattern, carries the
   * file's base name and the match's line, and every match gives one.
   */
  lemma FileIssuesMeaning(functions: seq<string>, file: string, content: string, offsets: (Finding, string) -> seq<nat>, x: Issue)
    ensures x in FileIssues(functions, file, content, offsets) <==>
      exists f, k :: f in Findings(functions) && 0 <= k < |offsets(f, content)| &&
        x == Issue(f, Basename(file), LineAt(content, offsets(f, content)[k]))
  {
    var fs := Findings(functions);
    var g := IssuesOfFinding(file, content, offsets);
    FlatMapMember(fs, g, x);
    if x in FileIssues(functions, file, content, offsets) {
      var i :| 0 <= i < |fs| && x in g(fs[i]);
      var k :| 0 <= k < |g(fs[i])| && g(fs[i])[k] == x;
      IssuesForAt(fs[i], file, content, offsets(fs[i], content), k);
      assert x == Issue(fs[i], Basename(file), LineAt(content, offsets(fs[i], content)[k]));
    }
    if exists f, k :: f in fs && 0 <= k < |offsets(f, content)| && x == Issue(f, Basename(file), LineAt(content, offsets(f, content)[k])) {
      var f, k :| f in fs && 0 <= k < |offsets(f, content)| && x == Issue(f, Basename(file), LineAt(content, offsets(f, content)[k]));
      var i :| 0 <= i < |fs| && fs[i] == f;
      IssuesForAt(f, file, content, offsets(f, content), k);
      assert g(fs[i])[k] == x;
    }
  }

  /** A file's issues: the dangerous functions' first, then the four fixed patterns in turn. */
  lemma FileIssuesSplit(functions: seq<string>, file: string, content: string, offsets: (Finding, string) -> seq<nat>)
    ensures FileIssues(functions, file, content, offsets) ==
      FlatMap(DangerousFindings(functions), IssuesOfFinding(file, content, offsets))
      + IssuesFor(DirectQuery, file, content, offsets(DirectQuery, content))
      + IssuesFor(InputInQuery, file, content, offsets(InputInQuery, content))
      + IssuesFor(EchoInput, file, content, offsets(EchoInput, content))
      + IssuesFor(FileWithInput, file, content, offsets(FileWithInput, content))
  {
    var g := IssuesOfFinding(file, content, offsets);
    FlatMapConcat(DangerousFindings(functions), FixedFindings, g);
    FlatMapFour(DirectQuery, InputInQuery, EchoInput, FileWithInput, g);
  }

  /** The issues of a whole plugin, file after file (`array_merge` in `scan_plugin`). */
  function PluginIssues(functions: seq<string>, files: seq<string>, read: string -> string, offsets: (Finding, string) -> seq<nat>): seq<Issue>
  {
    if files == [] then []
    else
      var last := files[|files| - 1];
      PluginIssues(functions, files[..|files| - 1], read, offsets) + FileIssues(functions, last, read(last), offsets)
  }

  /** Every issue has a line of at least 1. */
  lemma {:induction false} PluginIssuesLines(functions: seq<string>, files: seq<string>, read: string -> string, offsets: (Finding, string) -> seq<nat>)
    ensures forall x :: x in PluginIssues(functions, files, read, offsets) ==> x.line >= 1
  {
    if files != [] {
      var init := files[..|files| - 1];
      var last := files[|files| - 1];
      PluginIssuesLines(functions, init, read, offsets);
      forall x | x in FileIssues(functions, last, read(last), offsets)
        ensures x.line >= 1
      {
        FileIssuesMeaning(functions, last, read(last), offsets, x);
      }
    }
  }

  // ---------------------------------------------------------------------
  // Risk level
  // ---------------------------------------------------------------------

  function IsLevel(s: Severity): Issue -> bool
  {
    (x: Issue) => x.finding.Level() == s
  }

  /** `calculate_risk_level`. */
  function RiskOf(issues: seq<Issue>): RiskLevel
  {
    var critical := CountIf(issues, IsLevel(Critical));
    var high := CountIf(issues, IsLevel(High));
    if critical > 0 then CriticalRisk
    else if high > 2 then HighRisk
    else if high > 0 then MediumRisk
    else if |issues| > 0 then LowRisk
    else Safe
  }

  lemma {:induction false} CountIfWitnessed<T>(s: seq<T>, p: T -> bool)
    ensures CountIf(s, p) > 0 <==> exists i :: 0 <= i < |s| && p(s[i])
  {
    if s != [] {
      var init := s[..|s| - 1];
      CountIfWitnessed(init, p);
      assert forall i :: 0 <= i < |init| ==> init[i] == s[i];
    }
  }

  /** Every issue is high or critical, so the two counters cover the list. */
  lemma {:induction false} CountIfSplit(s: seq<Issue>)
    ensures CountIf(s, IsLevel(High)) + CountIf(s, IsLevel(Critical)) == |s|
  {
    if s != [] {
      CountIfSplit(s[..|s| - 1]);
    }
  }

  /**
   * The risk is critical exactly when request input reaches SQL somewhere,
   * safe exactly when there is no issue, and never low, because every issue
   * is high or critical.
   */
  lemma RiskMeaning(issues: seq<Issue>)
    ensures RiskOf(issues) == CriticalRisk <==> exists i :: 0 <= i < |issues| && issues[i].finding == InputInQuery
    ensures RiskOf(issues) == Safe <==> issues == []
    ensures RiskOf(issues) != LowRisk
    ensures RiskOf(issues) == HighRisk ==> |issues| > 2
  {
    CountIfWitnessed(issues, IsLevel(Critical));
    CountIfSplit(issues);
  }

  // ---------------------------------------------------------------------
  // The directory walk
  // ---------------------------------------------------------------------

  predicate IsPhpFile(e: DirEntry)
  {
    e.isFile && e.extension == "php"
  }

  /** The paths of the first `n` PHP files of `entries`. */
  function TakePhp(entries: seq<DirEntry>, n: nat): (r: seq<string>)
    ensures |r| <= n
  {
    if entries == [] || n == 0 then []
    else if IsPhpFile(entries[0]) then [entries[0].path] + TakePhp(entries[1..], n - 1)
    else TakePhp(entries[1..], n)
  }

  /** `get_php_files`: the first 100 PHP files of the walk, none when the directory does not exist. */
  function PhpFiles(isDir: bool, entries: seq<DirEntry>): (r: seq<string>)
    ensures |r| <= FileLimit
  {
    if !isDir then [] else TakePhp(entries, FileLimit)
  }

  function PathOf(): DirEntry -> seq<string>
  {
    (e: DirEntry) => [e.path]
  }

  /** The paths of all PHP files of the walk, in walk order. */
  function PhpPaths(entries: seq<DirEntry>): seq<string>
  {
    FlatMap(Filter(entries, IsPhpFile), PathOf())
  }

  lemma {:induction false} CountIfCons<T>(x: T, s: seq<T>, p: T -> bool)
    ensures CountIf([x] + s, p) == (if p(x) then 1 else 0) + CountIf(s, p)
    decreases |s|
  {
    if s != [] {
      var s0 := s[..|s| - 1];
      assert ([x] + s)[..|[x] + s| - 1] == [x] + s0;
      CountIfCons(x, s0, p);
    } else {
      assert ([x] + s)[..0] == [];
    }
  }

  /** The PHP paths of a walk: its first entry's, then the rest's. */
  lemma PhpPathsCons(x: DirEntry, s: seq<DirEntry>)
    ensures PhpPaths([x] + s) == (if IsPhpFile(x) then [x.path] else []) + PhpPaths(s)
  {
    FilterCons(x, s, IsPhpFile);
    if IsPhpFile(x) {
      FlatMapConcat([x], Filter(s, IsPhpFile), PathOf());
      assert [x][..0] == [];
      assert FlatMap([x], PathOf()) == [x.path];
    } else {
      assert Filter([x] + s, IsPhpFile) == Filter(s, IsPhpFile);
    }
  }

  /** With room for all of them, `TakePhp` returns every PHP file of the walk, in walk order. */
  lemma {:induction false} TakePhpAll(entries: seq<DirEntry>, n: nat)
    requires CountIf(entries, IsPhpFile) <= n
    ensures TakePhp(entries, n) == PhpPaths(entries)
  {
    if entries == [] {
      assert Filter(entries, IsPhpFile) == [];
    } else if n == 0 {
      FilterCount(entries, IsPhpFile);
      assert Filter(entries, IsPhpFile) == [];
    } else {
      var tail := entries[1..];
      assert entries == [entries[0]] + tail;
      CountIfCons(entries[0], tail, IsPhpFile);
      PhpPathsCons(entries[0], tail);
      if IsPhpFile(entries[0]) {
        TakePhpAll(tail, n - 1);
        assert TakePhp(entries, n) == [entries[0].path] + TakePhp(tail, n - 1);
      } else {
        TakePhpAll(tail, n);
        assert TakePhp(entries, n) == TakePhp(tail, n);
      }
    }
  }

  /** A plugin with at most 100 PHP files has all of them scanned. */
  lemma PhpFilesSmallPlugin(entries: seq<DirEntry>)
    requires CountIf(entries, IsPhpFile) <= FileLimit
    ensures PhpFiles(true, entries) == PhpPaths(entries)
  {
    TakePhpAll(entries, FileLimit);
  }

  // ---------------------------------------------------------------------
  // The whole scan
  // ---------------------------------------------------------------------

  /** `scan_plugin` over the files the walk found; `read` stands for `file_get_contents`. */
  function ScanOf(functions: seq<string>, isDir: bool, entries: seq<DirEntry>, read: string -> string,
                  offsets: (Finding, string) -> seq<nat>): ScanResult
  {
    var issues := PluginIssues(functions, PhpFiles(isDir, entries), read, offsets);
    ScanResult(|issues|, issues, RiskOf(issues))
  }

  /**
   * `total_issues` counts the issue list, every issue is high or critical and
   * has a line of at least 1, and the risk is safe exactly when nothing was
   * found and never low.
   */
  lemma ScanFacts(functions: seq<string>, isDir: bool, entries: seq<DirEntry>, read: string -> string,
                  offsets: (Finding, string) -> seq<nat>)
    ensures ScanOf(functions, isDir, entries, read, offsets).totalIssues == |ScanOf(functions, isDir, entries, read, offsets).issues|
    ensures forall x :: x in ScanOf(functions, isDir, entries, read, offsets).issues ==>
      (x.finding.Level() == High || x.finding.Level() == Critical) && x.line >= 1
    ensures ScanOf(functions, isDir, entries, read, offsets).riskLevel == Safe <==> ScanOf(functions, isDir, entries, read, offsets).issues == []
    ensures ScanOf(functions, isDir, entries, read, offsets).riskLevel != LowRisk
  {
    var issues := PluginIssues(functions, PhpFiles(isDir, entries), read, offsets);
    PluginIssuesLines(functions, PhpFiles(isDir, entries), read, offsets);
    RiskMeaning(issues);
  }

  // ---------------------------------------------------------------------
  // The scanner
  // ---------------------------------------------------------------------

  /** `WPCM_Security_Scanner`; its list of dangerous functions never changes. */
  class Scanner {
    const dangerousFunctions: seq<string>

    constructor()
      ensures dangerousFunctions == DangerousFunctions
    {
      dangerousFunctions := DangerousFunctions;
    }

    /** `scan_plugin`. */
    method ScanPlugin(isDir: bool, entries: seq<DirEntry>, read: string -> string, offsets: (Finding, string) -> seq<nat>)
      returns (result: ScanResult)
      ensures result == ScanOf(dangerousFunctions, isDir, entries, read, offsets)
    {
      var files := GetPhpFiles(isDir, entries);
      var issues: seq<Issue> := [];
      var i := 0;
      while i < |files|
        invariant 0 <= i <= |files|
        invariant issues == PluginIssues(dangerousFunctions, files[..i], read, offsets)
      {
        assert files[..i + 1][..i] == files[..i];
        var content := read(files[i]);
        var found := ScanFile(content, files[i], offsets);
        issues := issues + found;
        i := i + 1;
      }
      assert files[..i] == files;
      var level := CalculateRiskLevel(issues);
      result := ScanResult(|issues|, issues, level);
    }

    /** The four scans of one file, in the order `scan_plugin` merges them. */
    method ScanFile(content: string, file: string, offsets: (Finding, string) -> seq<nat>) returns (issues: seq<Issue>)
      ensures issues == FileIssues(dangerousFunctions, file, content, offsets)
    {
      var dangerous := ScanDangerousFunctions(content, file, offsets);
      var sql := ScanSqlInjection(content, file, offsets);
      var xss := ScanXssRisks(content, file, offsets);
      var fileOps := ScanFileOperations(content, file, offsets);
      issues := dangerous + sql + xss + fileOps;
      FileIssuesSplit(dangerousFunctions, file, content, offsets);
    }

    /** `scan_dangerous_functions`: each function in list order, each match in order. */
    method ScanDangerousFunctions(content: string, file: string, offsets: (Finding, string) -> seq<nat>) returns (issues: seq<Issue>)
      ensures issues == FlatMap(DangerousFindings(dangerousFunctions), IssuesOfFinding(file, content, offsets))
    {
      var fs := DangerousFindings(dangerousFunctions);
      var g := IssuesOfFinding(file, content, offsets);
      issues := [];
      var i := 0;
      while i < |dangerousFunctions|
        invariant 0 <= i <= |dangerousFunctions|
        invariant issues == FlatMap(fs[..i], g)
      {
        var f := DangerousFunction(dangerousFunctions[i]);
        var found := ReportMatches(f, file, content, offsets(f, content));
        FlatMapSnoc(fs, i, g);
        issues := issues + found;
        i := i + 1;
      }
      assert fs[..i] == fs;
    }

    /** `scan_sql_injection`: variables in queries, then request input in SQL. */
    method ScanSqlInjection(content: string, file: string, offsets: (Finding, string) -> seq<nat>) returns (issues: seq<Issue>)
      ensures issues == IssuesFor(DirectQuery, file, content, offsets(DirectQuery, content))
                        + IssuesFor(InputInQuery, file, content, offsets(InputInQuery, content))
    {
      var direct := ReportMatches(DirectQuery, file, content, offsets(DirectQuery, content));
      var input := ReportMatches(InputInQuery, file, content, offsets(InputInQuery, content));
      issues := direct + input;
    }

    /** `scan_xss_risks`. */
    method ScanXssRisks(content: string, file: string, offsets: (Finding, string) -> seq<nat>) returns (issues: seq<Issue>)
      ensures issues == IssuesFor(EchoInput, file, content, offsets(EchoInput, content))
    {
      issues := ReportMatches(EchoInput, file, content, offsets(EchoInput, content));
    }

    /** `scan_file_operations`. */
    method ScanFileOperations(content: string, file: string, offsets: (Finding, string) -> seq<nat>) returns (issues: seq<Issue>)
      ensures issues == IssuesFor(FileWithInput, file, content, offsets(FileWithInput, content))
    {
      issues := ReportMatches(FileWithInput, file, content, offsets(FileWithInput, content));
    }

    /** The `foreach ($matches[0] as $match)` loop shared by the `scan_*` methods. */
    method ReportMatches(f: Finding, file: string, content: string, matches: seq<nat>) returns (issues: seq<Issue>)
      ensures issues == IssuesFor(f, file, content, matches)
    {
      issues := [];
      var base := Basename(file);
      var i := 0;
      while i < |matches|
        invariant 0 <= i <= |matches|
        invariant issues == IssuesFor(f, file, content, matches[..i])
      {
        assert matches[..i + 1][..i] == matches[..i];
        var offset := matches[i];
        var line := Newlines(content[..if offset <= |content| then offset else |content|]) + 1;
        ghost var step := IssuesFor(f, file, content, matches[..i + 1]);
        assert step == IssuesFor(f, file, content, matches[..i]) + [Issue(f, base, LineAt(content, offset))];
        assert line == LineAt(content, offset);
        issues := issues + [Issue(f, base, line)];
        i := i + 1;
      }
      assert matches[..i] == matches;
    }

    /** `calculate_risk_level`: count critical and high issues, then decide. */
    method CalculateRiskLevel(issues: seq<Issue>) returns (level: RiskLevel)
      ensures level == RiskOf(issues)
    {
      var critical := 0;
      var high := 0;
      var i := 0;
      while i < |issues|
        invariant 0 <= i <= |issues|
        invariant critical == CountIf(issues[..i], IsLevel(Critical))
        invariant high == CountIf(issues[..i], IsLevel(High))
      {
        assert issues[..i + 1][..i] == issues[..i];
        if issues[i].finding.Level() == Critical {
          critical := critical + 1;
        } else if issues[i].finding.Level() == High {
          high := high + 1;
        }
        i := i + 1;
      }
      assert issues[..i] == issues;
      if critical > 0 {
        level := CriticalRisk;
      } else if high > 2 {
        level := HighRisk;
      } else if high > 0 {
        level := MediumRisk;
      } else if |issues| > 0 {
        level := LowRisk;
      } else {
        level := Safe;
      }
    }

    /** `get_php_files`: walk the entries, keep PHP files, stop at 100. */
    method GetPhpFiles(isDir: bool, entries: seq<DirEntry>) returns (files: seq<string>)
      ensures files == PhpFiles(isDir, entries)
    {
      files := [];
      if !isDir {
        return;
      }
      var i := 0;
      while i < |entries|
        invariant 0 <= i <= |entries|
        invariant |files| < FileLimit
        invariant files + TakePhp(entries[i..], FileLimit - |files|) == TakePhp(entries, FileLimit)
      {
        assert entries[i..][1..] == entries[i + 1..];
        var e := entries[i];
        if e.isFile && e.extension == "php" {
          files := files + [e.path];
          if |files| >= FileLimit {
            assert TakePhp(entries[i + 1..], 0) == [];
            break;
          }
        }
        i := i + 1;
      }
    }
  }
}
