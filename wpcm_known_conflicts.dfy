/**
 * The curated table of known conflicts between popular WordPress plugins,
 * and the shape of one entry as the scanner reads it.
 */
module KnownConflicts {
  import opened Common
  import opened WpcmCommon

  /** The `type` of an entry; `UnknownType` stands for any other text. */
  datatype ConflictType = Overlap | Conflicting | Incompatible | Performance | UnknownType(text: string)

  /**
   * One entry. `kind` and `severity` are `None` when the key is missing;
   * `affectedVersions` maps a plugin slug to a version constraint.
   */
  datatype Conflict = Conflict(
    pluginA: string,
    pluginB: string,
    kind: Option<ConflictType>,
    severity: Option<Severity>,
    description: string,
    affectedVersions: seq<(string, string)>,
    resolution: Option<string>,
    verified: bool,
    reportedDate: Option<string>)

  /** The entry names `slug` on either side. */
  predicate Names(c: Conflict, slug: string)
  {
    c.pluginA == slug || c.pluginB == slug
  }

  predicate KnownKind(c: Conflict)
  {
    c.kind.Some? && !c.kind.value.UnknownType?
  }

  predicate KnownSeverity(c: Conflict)
  {
    c.severity.Some? && !c.severity.value.Unrecognised?
  }

  /** `s[i]`, or the empty text past the end. */
  function At(s: seq<string>, i: nat): string
  {
    if i < |s| then s[i] else ""
  }

  predicate WellFormed(c: Conflict)
  {
    KnownKind(c) && KnownSeverity(c) && c.resolution.Some? && c.reportedDate.Some? && c.verified
  }

  predicate AllWellFormed(t: seq<Conflict>)
  {
    forall i :: 0 <= i < |t| ==> WellFormed(t[i])
  }

  function Part0(d: seq<string>, r: seq<string>): seq<Conflict>
  {
    [
      // lines 37-46
      Conflict("w3-total-cache", "wp-super-cache", Some(Overlap), Some(Critical),
        At(d, 0), [], Some(At(r, 0)), true, Some("2020-01-15")),
      // lines 47-56
      Conflict("w3-total-cache", "litespeed-cache", Some(Overlap), Some(Critical),
        At(d, 1), [], Some(At(r, 1)), true, Some("2021-03-10")),
      // lines 57-66
      Conflict("wp-super-cache", "wp-fastest-cache", Some(Overlap), Some(Critical),
        At(d, 2), [], Some(At(r, 2)), true, Some("2019-08-22")),
      // lines 67-76
      Conflict("autoptimize", "wp-rocket", Some(Overlap), Some(High),
        At(d, 3), [], Some(At(r, 3)), true, Some("2020-06-14"))
    ]
  }

  function Part1(d: seq<string>, r: seq<string>): seq<Conflict>
  {
    [
      // lines 79-88
      Conflict("wordpress-seo", "all-in-one-seo-pack", Some(Overlap), Some(Critical),
        At(d, 4), [], Some(At(r, 4)), true, Some("2018-01-01")),
      // lines 89-98
      Conflict("wordpress-seo", "the-seo-framework", Some(Overlap), Some(Critical),
        At(d, 5), [], Some(At(r, 5)), true, Some("2019-05-20")),
      // lines 99-108
      Conflict("all-in-one-seo-pack", "rank-math", Some(Overlap), Some(Critical),
        At(d, 6), [], Some(At(r, 6)), true, Some("2020-02-28")),
      // lines 111-120
      Conflict("wordfence", "sucuri-scanner", Some(Overlap), Some(High),
        At(d, 7), [], Some(At(r, 7)), true, Some("2019-11-05"))
    ]
  }

  function Part2(d: seq<string>, r: seq<string>): seq<Conflict>
  {
    [
      // lines 121-130
      Conflict("wordfence", "ithemes-security", Some(Overlap), Some(High),
        At(d, 8), [], Some(At(r, 8)), true, Some("2020-04-12")),
      // lines 131-140
      Conflict("all-in-one-wp-security-and-firewall", "wordfence", Some(Overlap), Some(High),
        At(d, 9), [], Some(At(r, 9)), true, Some("2021-01-18")),
      // lines 143-153
      Conflict("woocommerce", "jetpack", Some(Conflicting), Some(Medium),
        At(d, 10), [("jetpack", "<10.0")], Some(At(r, 10)), true, Some("2020-08-30")),
      // lines 154-163
      Conflict("woocommerce", "wp-mail-smtp", Some(Conflicting), Some(Medium),
        At(d, 11), [], Some(At(r, 11)), true, Some("2019-07-14"))
    ]
  }

  function Part3(d: seq<string>, r: seq<string>): seq<Conflict>
  {
    [
      // lines 164-173
      Conflict("woocommerce", "wp-super-cache", Some(Conflicting), Some(High),
        At(d, 12), [], Some(At(r, 12)), true, Some("2018-12-01")),
      // lines 176-185
      Conflict("elementor", "js_composer", Some(Conflicting), Some(High),
        At(d, 13), [], Some(At(r, 13)), true, Some("2019-09-22")),
      // lines 186-195
      Conflict("elementor", "beaver-builder", Some(Overlap), Some(High),
        At(d, 14), [], Some(At(r, 14)), true, Some("2020-03-17")),
      // lines 196-205
      Conflict("elementor", "divi-builder", Some(Overlap), Some(High),
        At(d, 15), [], Some(At(r, 15)), true, Some("2020-05-08"))
    ]
  }

  function Part4(d: seq<string>, r: seq<string>): seq<Conflict>
  {
    [
      // lines 208-217
      Conflict("updraftplus", "duplicator", Some(Overlap), Some(Medium),
        At(d, 16), [], Some(At(r, 16)), true, Some("2020-07-25")),
      // lines 218-227
      Conflict("updraftplus", "backwpup", Some(Overlap), Some(Medium),
        At(d, 17), [], Some(At(r, 17)), true, Some("2019-04-30")),
      // lines 230-239
      Conflict("contact-form-7", "wpforms-lite", Some(Overlap), Some(Low),
        At(d, 18), [], Some(At(r, 18)), true, Some("2021-02-14")),
      // lines 240-249
      Conflict("contact-form-7", "wp-mail-smtp", Some(Conflicting), Some(Medium),
        At(d, 19), [], Some(At(r, 19)), true, Some("2018-06-10"))
    ]
  }

  function Part5(d: seq<string>, r: seq<string>): seq<Conflict>
  {
    [
      // lines 252-261
      Conflict("smush", "shortpixel-image-optimiser", Some(Overlap), Some(High),
        At(d, 20), [], Some(At(r, 20)), true, Some("2020-09-05")),
      // lines 262-271
      Conflict("imagify", "ewww-image-optimizer", Some(Overlap), Some(High),
        At(d, 21), [], Some(At(r, 21)), true, Some("2019-12-20")),
      // lines 272-281
      Conflict("smush", "imagify", Some(Overlap), Some(High),
        At(d, 22), [], Some(At(r, 22)), true, Some("2020-11-12")),
      // lines 284-293
      Conflict("a3-lazy-load", "wp-rocket", Some(Overlap), Some(Medium),
        At(d, 23), [], Some(At(r, 23)), true, Some("2020-01-28"))
    ]
  }

  function Part6(d: seq<string>, r: seq<string>): seq<Conflict>
  {
    [
      // lines 294-303
      Conflict("jetpack", "autoptimize", Some(Conflicting), Some(Medium),
        At(d, 24), [], Some(At(r, 24)), true, Some("2021-04-03")),
      // lines 306-315
      Conflict("polylang", "wpml", Some(Overlap), Some(Critical),
        At(d, 25), [], Some(At(r, 25)), true, Some("2019-02-15")),
      // lines 316-325
      Conflict("translatepress-multilingual", "polylang", Some(Overlap), Some(Critical),
        At(d, 26), [], Some(At(r, 26)), true, Some("2020-10-08")),
      // lines 328-337
      Conflict("revslider", "smartslider3", Some(Overlap), Some(Low),
        At(d, 27), [], Some(At(r, 27)), true, Some("2021-05-20"))
    ]
  }

  function Part7(d: seq<string>, r: seq<string>): seq<Conflict>
  {
    [
      // lines 340-349
      Conflict("google-analytics-for-wordpress", "google-site-kit", Some(Overlap), Some(High),
        At(d, 28), [], Some(At(r, 28)), true, Some("2020-12-01")),
      // lines 350-359
      Conflict("wordpress-seo", "google-site-kit", Some(Conflicting), Some(Medium),
        At(d, 29), [], Some(At(r, 29)), true, Some("2021-03-25")),
      // lines 362-371
      Conflict("wp-optimize", "wp-sweep", Some(Overlap), Some(Low),
        At(d, 30), [], Some(At(r, 30)), true, Some("2020-04-18")),
      // lines 374-383
      Conflict("akismet", "antispam-bee", Some(Overlap), Some(Low),
        At(d, 31), [], Some(At(r, 31)), true, Some("2019-08-10"))
    ]
  }

  function Part8(d: seq<string>, r: seq<string>): seq<Conflict>
  {
    [
      // lines 384-393
      Conflict("disqus-comment-system", "akismet", Some(Conflicting), Some(Low),
        At(d, 32), [], Some(At(r, 32)), true, Some("2018-11-22")),
      // lines 396-405
      Conflict("redirection", "wordpress-seo", Some(Overlap), Some(Medium),
        At(d, 33), [], Some(At(r, 33)), true, Some("2020-06-30")),
      // lines 406-415
      Conflict("redirection", "rank-math", Some(Overlap), Some(Medium),
        At(d, 34), [], Some(At(r, 34)), true, Some("2021-01-05")),
      // lines 418-427
      Conflict("jetpack", "cloudflare", Some(Conflicting), Some(Medium),
        At(d, 35), [], Some(At(r, 35)), true, Some("2020-02-14"))
    ]
  }

  function Part9(d: seq<string>, r: seq<string>): seq<Conflict>
  {
    [
      // lines 430-439
      Conflict("cookie-notice", "gdpr-cookie-compliance", Some(Overlap), Some(Medium),
        At(d, 36), [], Some(At(r, 36)), true, Some("2020-08-12")),
      // lines 440-449
      Conflict("complianz-gdpr", "cookie-law-info", Some(Overlap), Some(Medium),
        At(d, 37), [], Some(At(r, 37)), true, Some("2021-02-28")),
      // lines 452-461
      Conflict("social-warfare", "shareaholic", Some(Overlap), Some(Low),
        At(d, 38), [], Some(At(r, 38)), true, Some("2019-10-15")),
      // lines 462-471
      Conflict("jetpack", "social-warfare", Some(Overlap), Some(Low),
        At(d, 39), [], Some(At(r, 39)), true, Some("2020-05-22"))
    ]
  }

  function Part10(d: seq<string>, r: seq<string>): seq<Conflict>
  {
    [
      // lines 474-483
      Conflict("theme-my-login", "wps-hide-login", Some(Conflicting), Some(High),
        At(d, 40), [], Some(At(r, 40)), true, Some("2020-09-18")),
      // lines 486-495
      Conflict("memberpress", "paid-memberships-pro", Some(Overlap), Some(Critical),
        At(d, 41), [], Some(At(r, 41)), true, Some("2019-06-28")),
      // lines 498-507
      Conflict("heartbeat-control", "perfmatters", Some(Overlap), Some(Low),
        At(d, 42), [], Some(At(r, 42)), true, Some("2021-04-10")),
      // lines 508-517
      Conflict("wp-rocket", "perfmatters", Some(Overlap), Some(Medium),
        At(d, 43), [], Some(At(r, 43)), true, Some("2020-11-30"))
    ]
  }

  function Part11(d: seq<string>, r: seq<string>): seq<Conflict>
  {
    [
      // lines 520-529
      Conflict("classic-editor", "gutenberg", Some(Conflicting), Some(High),
        At(d, 44), [], Some(At(r, 44)), true, Some("2018-12-15")),
      // lines 532-541
      Conflict("fast-velocity-minify", "autoptimize", Some(Overlap), Some(High),
        At(d, 45), [], Some(At(r, 45)), true, Some("2020-03-05")),
      // lines 542-551
      Conflict("w3-total-cache", "autoptimize", Some(Overlap), Some(Medium),
        At(d, 46), [], Some(At(r, 46)), true, Some("2019-07-20")),
      // lines 554-563
      Conflict("query-monitor", "w3-total-cache", Some(Conflicting), Some(Low),
        At(d, 47), [], Some(At(r, 47)), true, Some("2020-07-08"))
    ]
  }

  /** The value `data/known-conflicts.php` returns, in file order (each entry cites its lines). */
  function TableWith(d: seq<string>, r: seq<string>): seq<Conflict>
  {
    Part0(d, r) + Part1(d, r) + Part2(d, r) + Part3(d, r) + Part4(d, r) + Part5(d, r) + Part6(d, r) + Part7(d, r) + Part8(d, r) + Part9(d, r) + Part10(d, r) + Part11(d, r)
  }

  lemma Part0WellFormed(d: seq<string>, r: seq<string>)
    ensures |Part0(d, r)| == 4 && AllWellFormed(Part0(d, r))
  {
  }

  lemma Part1WellFormed(d: seq<string>, r: seq<string>)
    ensures |Part1(d, r)| == 4 && AllWellFormed(Part1(d, r))
  {
  }

  lemma Part2WellFormed(d: seq<string>, r: seq<string>)
    ensures |Part2(d, r)| == 4 && AllWellFormed(Part2(d, r))
  {
  }

  lemma Part3WellFormed(d: seq<string>, r: seq<string>)
    ensures |Part3(d, r)| == 4 && AllWellFormed(Part3(d, r))
  {
  }

  lemma Part4WellFormed(d: seq<string>, r: seq<string>)
    ensures |Part4(d, r)| == 4 && AllWellFormed(Part4(d, r))
  {
  }

  lemma Part5WellFormed(d: seq<string>, r: seq<string>)
    ensures |Part5(d, r)| == 4 && AllWellFormed(Part5(d, r))
  {
  }

  lemma Part6WellFormed(d: seq<string>, r: seq<string>)
    ensures |Part6(d, r)| == 4 && AllWellFormed(Part6(d, r))
  {
  }

  lemma Part7WellFormed(d: seq<string>, r: seq<string>)
    ensures |Part7(d, r)| == 4 && AllWellFormed(Part7(d, r))
  {
  }

  lemma Part8WellFormed(d: seq<string>, r: seq<string>)
    ensures |Part8(d, r)| == 4 && AllWellFormed(Part8(d, r))
  {
  }

  lemma Part9WellFormed(d: seq<string>, r: seq<string>)
    ensures |Part9(d, r)| == 4 && AllWellFormed(Part9(d, r))
  {
  }

  lemma Part10WellFormed(d: seq<string>, r: seq<string>)
    ensures |Part10(d, r)| == 4 && AllWellFormed(Part10(d, r))
  {
  }

  lemma Part11WellFormed(d: seq<string>, r: seq<string>)
    ensures |Part11(d, r)| == 4 && AllWellFormed(Part11(d, r))
  {
  }

  lemma AllWellFormedConcat(a: seq<Conflict>, b: seq<Conflict>)
    requires AllWellFormed(a) && AllWellFormed(b)
    ensures AllWellFormed(a + b)
  {
    forall i | 0 <= i < |a + b|
      ensures WellFormed((a + b)[i])
    {
      if i >= |a| {
        assert (a + b)[i] == b[i - |a|];
      }
    }
  }

  /**
   * Every entry carries a type and a severity from the fixed vocabularies,
   * a resolution and a report date, and is marked verified.
   */
  lemma TableWithWellFormed(d: seq<string>, r: seq<string>)
    ensures |TableWith(d, r)| == 48 && AllWellFormed(TableWith(d, r))
  {
    Part0WellFormed(d, r);
    Part1WellFormed(d, r);
    AllWellFormedConcat(Part0(d, r), Part1(d, r));
    Part2WellFormed(d, r);
    AllWellFormedConcat(Part0(d, r) + Part1(d, r), Part2(d, r));
    Part3WellFormed(d, r);
    AllWellFormedConcat(Part0(d, r) + Part1(d, r) + Part2(d, r), Part3(d, r));
    Part4WellFormed(d, r);
    AllWellFormedConcat(Part0(d, r) + Part1(d, r) + Part2(d, r) + Part3(d, r), Part4(d, r));
    Part5WellFormed(d, r);
    AllWellFormedConcat(Part0(d, r) + Part1(d, r) + Part2(d, r) + Part3(d, r) + Part4(d, r), Part5(d, r));
    Part6WellFormed(d, r);
    AllWellFormedConcat(Part0(d, r) + Part1(d, r) + Part2(d, r) + Part3(d, r) + Part4(d, r) + Part5(d, r), Part6(d, r));
    Part7WellFormed(d, r);
    AllWellFormedConcat(Part0(d, r) + Part1(d, r) + Part2(d, r) + Part3(d, r) + Part4(d, r) + Part5(d, r) + Part6(d, r), Part7(d, r));
    Part8WellFormed(d, r);
    AllWellFormedConcat(Part0(d, r) + Part1(d, r) + Part2(d, r) + Part3(d, r) + Part4(d, r) + Part5(d, r) + Part6(d, r) + Part7(d, r), Part8(d, r));
    Part9WellFormed(d, r);
    AllWellFormedConcat(Part0(d, r) + Part1(d, r) + Part2(d, r) + Part3(d, r) + Part4(d, r) + Part5(d, r) + Part6(d, r) + Part7(d, r) + Part8(d, r), Part9(d, r));
    Part10WellFormed(d, r);
    AllWellFormedConcat(Part0(d, r) + Part1(d, r) + Part2(d, r) + Part3(d, r) + Part4(d, r) + Part5(d, r) + Part6(d, r) + Part7(d, r) + Part8(d, r) + Part9(d, r), Part10(d, r));
    Part11WellFormed(d, r);
    AllWellFormedConcat(Part0(d, r) + Part1(d, r) + Part2(d, r) + Part3(d, r) + Part4(d, r) + Part5(d, r) + Part6(d, r) + Part7(d, r) + Part8(d, r) + Part9(d, r) + Part10(d, r), Part11(d, r));
  }

  /** The table opens with the four caching entries and then the first SEO entry. */
  lemma TableHead(d: seq<string>, r: seq<string>)
    ensures |TableWith(d, r)| == 48 && TableWith(d, r)[..5] == Part0(d, r) + Part1(d, r)[..1]
  {
    TableWithWellFormed(d, r);
    Part0WellFormed(d, r);
    Part1WellFormed(d, r);
  }

  /** The Yoast SEO / All in One SEO entry is a critical overlap. */
  lemma SeoPluginsOverlap(d: seq<string>, r: seq<string>)
    ensures TableWith(d, r)[4].pluginA == "wordpress-seo" && TableWith(d, r)[4].pluginB == "all-in-one-seo-pack"
    ensures TableWith(d, r)[4].kind == Some(Overlap) && TableWith(d, r)[4].severity == Some(Critical)
  {
    Part0WellFormed(d, r);
    Part1WellFormed(d, r);
  }

  /** Every slug named on either side of some entry (the keys of `unique_plugins`). */
  function PluginSet(t: seq<Conflict>): (ps: set<string>)
    ensures forall slug :: slug in ps <==> exists i :: 0 <= i < |t| && Names(t[i], slug)
  {
    (set i | 0 <= i < |t| :: t[i].pluginA) + (set i | 0 <= i < |t| :: t[i].pluginB)
  }

  /** Adding an entry adds its two slugs. */
  lemma PluginSetSnoc(t: seq<Conflict>, c: Conflict)
    ensures PluginSet(t + [c]) == PluginSet(t) + {c.pluginA, c.pluginB}
  {
    var u := t + [c];
    assert u[|t|] == c;
    forall slug | slug in PluginSet(t)
      ensures slug in PluginSet(u)
    {
      var i :| 0 <= i < |t| && Names(t[i], slug);
      assert u[i] == t[i];
    }
    forall slug | slug in PluginSet(u)
      ensures slug in PluginSet(t) + {c.pluginA, c.pluginB}
    {
      var i :| 0 <= i < |u| && Names(u[i], slug);
      if i < |t| {
        assert u[i] == t[i];
      }
    }
  }

  /** Extending a prefix of the table by one entry adds that entry's two slugs. */
  lemma PluginSetStep(t: seq<Conflict>, i: int)
    requires 0 <= i < |t|
    ensures PluginSet(t[..i + 1]) == PluginSet(t[..i]) + {t[i].pluginA, t[i].pluginB}
  {
    assert t[..i + 1] == t[..i] + [t[i]];
    PluginSetSnoc(t[..i], t[i]);
  }

  /** The major plugins of the SEO, shop, security, cache, builder, backup and form categories all appear. */
  lemma MajorPluginsCovered(d: seq<string>, r: seq<string>)
    ensures "wordpress-seo" in PluginSet(TableWith(d, r)) && "woocommerce" in PluginSet(TableWith(d, r))
    ensures "wordfence" in PluginSet(TableWith(d, r)) && "w3-total-cache" in PluginSet(TableWith(d, r))
    ensures "elementor" in PluginSet(TableWith(d, r)) && "updraftplus" in PluginSet(TableWith(d, r))
    ensures "contact-form-7" in PluginSet(TableWith(d, r))
  {
    CacheListed(d, r);
    SeoListed(d, r);
    SecurityListed(d, r);
    ShopListed(d, r);
    BuilderListed(d, r);
    BackupListed(d, r);
    FormListed(d, r);
  }

  lemma CacheListed(d: seq<string>, r: seq<string>)
    ensures "w3-total-cache" in PluginSet(TableWith(d, r))
  {
    Part0WellFormed(d, r);
    ListedAt(TableWith(d, r), 0, "w3-total-cache");
  }

  lemma SeoListed(d: seq<string>, r: seq<string>)
    ensures "wordpress-seo" in PluginSet(TableWith(d, r))
  {
    Part0WellFormed(d, r);
    Part1WellFormed(d, r);
    ListedAt(TableWith(d, r), 4, "wordpress-seo");
  }

  lemma SecurityListed(d: seq<string>, r: seq<string>)
    ensures "wordfence" in PluginSet(TableWith(d, r))
  {
    Part0WellFormed(d, r);
    Part1WellFormed(d, r);
    ListedAt(TableWith(d, r), 7, "wordfence");
  }

  lemma ShopListed(d: seq<string>, r: seq<string>)
    ensures "woocommerce" in PluginSet(TableWith(d, r))
  {
    Part0WellFormed(d, r);
    Part1WellFormed(d, r);
    Part2WellFormed(d, r);
    ListedAt(TableWith(d, r), 10, "woocommerce");
  }

  lemma BuilderListed(d: seq<string>, r: seq<string>)
    ensures "elementor" in PluginSet(TableWith(d, r))
  {
    Part0WellFormed(d, r);
    Part1WellFormed(d, r);
    Part2WellFormed(d, r);
    Part3WellFormed(d, r);
    ListedAt(TableWith(d, r), 13, "elementor");
  }

  lemma BackupListed(d: seq<string>, r: seq<string>)
    ensures "updraftplus" in PluginSet(TableWith(d, r))
  {
    Part0WellFormed(d, r);
    Part1WellFormed(d, r);
    Part2WellFormed(d, r);
    Part3WellFormed(d, r);
    Part4WellFormed(d, r);
    ListedAt(TableWith(d, r), 16, "updraftplus");
  }

  lemma FormListed(d: seq<string>, r: seq<string>)
    ensures "contact-form-7" in PluginSet(TableWith(d, r))
  {
    Part0WellFormed(d, r);
    Part1WellFormed(d, r);
    Part2WellFormed(d, r);
    Part3WellFormed(d, r);
    Part4WellFormed(d, r);
    ListedAt(TableWith(d, r), 18, "contact-form-7");
  }

  lemma ListedAt(t: seq<Conflict>, i: int, slug: string)
    requires 0 <= i < |t| && Names(t[i], slug)
    ensures slug in PluginSet(t)
  {
  }

  /** The `description` of each entry, in table order. */
  function Descriptions(): seq<string>
  {
    [
      "Multiple caching plugins cause double caching and cache invalidation issues",
      "Running multiple cache plugins causes cache conflicts and performance degradation",
      "Duplicate caching functionality leads to serving stale content",
      "Both plugins minify CSS/JS causing double minification and broken assets",
      "Duplicate meta tags, sitemaps, and SEO functionality",
      "Conflicting meta tags and schema markup output",
      "Multiple SEO plugins output duplicate meta tags harming SEO",
      "Multiple firewall plugins can conflict and cause performance issues",
      "Conflicting brute force protection and login security rules",
      "Multiple security plugins increase server load and may block legitimate traffic",
      "Jetpack image CDN can break WooCommerce product images",
      "WooCommerce emails may not send if SMTP not configured correctly",
      "Cart and checkout pages may show cached content causing checkout issues",
      "Multiple page builders cause editor conflicts and content corruption",
      "Page builders conflict when editing the same content",
      "Multiple visual editors cause JavaScript conflicts and broken layouts",
      "Running multiple backup plugins wastes server resources",
      "Multiple backup schedules can overload server during execution",
      "Loading multiple form plugin assets affects page performance",
      "CF7 emails may fail without proper SMTP configuration",
      "Multiple image optimizers cause over-compression and quality loss",
      "Double optimization degrades image quality unnecessarily",
      "Running multiple image optimizers wastes resources",
      "Duplicate lazy loading causes images not to load properly",
      "Jetpack lazy load and Autoptimize may conflict on image loading",
      "Multiple translation plugins cause content duplication and URL conflicts",
      "Different translation approaches conflict with each other",
      "Multiple slider plugins load unnecessary assets",
      "Double tracking code causes inflated analytics data",
      "Both plugins may add duplicate verification meta tags",
      "Multiple database optimizers provide redundant functionality",
      "Running multiple spam filters may cause false positives",
      "Akismet does not filter Disqus comments",
      "Both plugins offer redirect management causing confusion",
      "Duplicate redirect functionality",
      "Jetpack CDN and Cloudflare may conflict on asset delivery",
      "Multiple cookie consent banners confuse users",
      "Conflicting cookie consent implementations",
      "Multiple social sharing buttons clutter the interface",
      "Jetpack sharing and Social Warfare provide duplicate features",
      "Custom login plugins may conflict on URL handling",
      "Multiple membership plugins cause access control conflicts",
      "Both plugins control WordPress Heartbeat API",
      "Overlapping optimization features may conflict",
      "Classic Editor disables Gutenberg, both active causes confusion",
      "Multiple minification plugins cause broken scripts and styles",
      "W3TC minification conflicts with Autoptimize",
      "Query Monitor may not show accurate data with page caching enabled"
    ]
  }

  /** The `resolution` of each entry, in table order. */
  function Resolutions(): seq<string>
  {
    [
      "Use only one caching plugin. Disable or uninstall the other.",
      "Choose one caching solution. LiteSpeed Cache requires LiteSpeed server.",
      "Use only one caching plugin at a time.",
      "Disable file optimization in Autoptimize when using WP Rocket.",
      "Use only one SEO plugin. Migrate settings before switching.",
      "Choose one SEO plugin and fully uninstall the other.",
      "Use a single SEO plugin. Rank Math offers import from AIOSEO.",
      "Use one security plugin or disable firewall in one of them.",
      "Choose one comprehensive security plugin.",
      "Select one security solution based on your needs.",
      "Disable Jetpack Site Accelerator for images or update Jetpack.",
      "Ensure WP Mail SMTP is configured before activating WooCommerce.",
      "Exclude cart, checkout, and my-account pages from caching.",
      "Use one page builder per site. Migrate content before switching.",
      "Choose one page builder for your site.",
      "Use only one page builder.",
      "Choose one backup solution. UpdraftPlus for backups, Duplicator for migrations.",
      "Use one backup plugin or stagger backup schedules significantly.",
      "Use one form plugin or load scripts only on pages with forms.",
      "Configure WP Mail SMTP before using Contact Form 7.",
      "Use only one image optimization plugin.",
      "Choose one image optimizer based on your needs.",
      "Select one image optimization solution.",
      "Disable lazy load in a3 Lazy Load when using WP Rocket.",
      "Disable lazy load in one of the plugins.",
      "Use only one translation plugin. Migration tools available.",
      "Choose one translation method and plugin.",
      "Use one slider plugin and remove unused ones.",
      "Use Site Kit for Google services or MonsterInsights, not both.",
      "Remove site verification from one plugin.",
      "Use one database optimization tool.",
      "Choose one anti-spam solution based on privacy needs.",
      "Use Disqus built-in moderation when using Disqus.",
      "Use Yoast redirects or Redirection plugin, not both.",
      "Choose one plugin for redirect management.",
      "Disable Jetpack Site Accelerator when using Cloudflare.",
      "Use one GDPR/cookie consent plugin.",
      "Select one comprehensive GDPR solution.",
      "Use one social sharing solution.",
      "Disable Jetpack Sharing or use only Jetpack for social.",
      "Test thoroughly or use one login customization plugin.",
      "Use only one membership plugin.",
      "Configure Heartbeat in one plugin only.",
      "Disable overlapping features in Perfmatters when using WP Rocket.",
      "Choose one editor. Classic Editor for old editor, remove Gutenberg.",
      "Use one minification solution.",
      "Disable minification in W3TC when using Autoptimize.",
      "Disable page cache when debugging with Query Monitor."
    ]
  }

  /** The value `data/known-conflicts.php` returns. */
  function Table(): seq<Conflict>
  {
    TableWith(Descriptions(), Resolutions())
  }
}
