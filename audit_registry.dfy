/**
 * The fixed tables of the Live SEO Audit page: its check registry, with the proof that no
 * two checks share an id, and the sample report a run installs.
 */
module AuditRegistry {
  import opened Collections

  datatype AuditCheck = AuditCheck(id: string, labelText: string, category: string)

  /** One row of the report; `details` is HTML. */
  datatype ReportItem = ReportItem(test: string, extraInfo: string, details: string)

  const MetaAndHead := "Meta & Head"
  const ContentAndKeywords := "Content & Keywords"
  const Links := "Links"
  const AdvancedAndTechnical := "Advanced & Technical"

  /** The check registry, in the order the page lists it. */
  function AuditChecks(): (checks: seq<AuditCheck>)
    ensures |checks| == 38
  {
    seq(38, CheckAt)
  }

  /** The registry's entry at position `k`. */
  function CheckAt(k: int): AuditCheck {
    match k
    case 0 => AuditCheck("header-status", "Header Status", MetaAndHead)
    case 1 => AuditCheck("meta-charset", "Meta Charset", MetaAndHead)
    case 2 => AuditCheck("html-lang", "HTML Lang", MetaAndHead)
    case 3 => AuditCheck("meta-viewport", "Meta Viewport", MetaAndHead)
    case 4 => AuditCheck("favicon-link", "Favicon Link", MetaAndHead)
    case 5 => AuditCheck("preconnect-google-fonts", "Preconnect Google Fonts", MetaAndHead)
    case 6 => AuditCheck("shortlink-link", "Shortlink Link", MetaAndHead)
    case 7 => AuditCheck("edituri-link", "EditURI Link", MetaAndHead)
    case 8 => AuditCheck("api-link", "API Link", MetaAndHead)
    case 9 => AuditCheck("hreflang-link", "Hreflang Link", MetaAndHead)
    case 10 => AuditCheck("rss-link", "RSS Link", MetaAndHead)
    case 11 => AuditCheck("empty-meta-tags", "Empty Meta Tags", MetaAndHead)
    case 12 => AuditCheck("meta-title", "Meta Title Tag", MetaAndHead)
    case 13 => AuditCheck("meta-description", "Meta Description", MetaAndHead)
    case 14 => AuditCheck("canonical-tag", "Canonical Tag", MetaAndHead)
    case 15 => AuditCheck("opengraph-meta", "OpenGraph Meta", MetaAndHead)
    case 16 => AuditCheck("robots-meta", "Robots Meta Tag", MetaAndHead)
    case 17 => AuditCheck("top-keywords", "Top Keywords", ContentAndKeywords)
    case 18 => AuditCheck("h1", "H1 Headings", ContentAndKeywords)
    case 19 => AuditCheck("h2", "H2 Headings", ContentAndKeywords)
    case 20 => AuditCheck("h3", "H3 Headings", ContentAndKeywords)
    case 21 => AuditCheck("h4", "H4 Headings", ContentAndKeywords)
    case 22 => AuditCheck("h5", "H5 Headings", ContentAndKeywords)
    case 23 => AuditCheck("h6", "H6 Headings", ContentAndKeywords)
    case 24 => AuditCheck("paragraphs", "Paragraphs", ContentAndKeywords)
    case 25 => AuditCheck("spans", "Spans", ContentAndKeywords)
    case 26 => AuditCheck("ul-li-list", "Unorered UL/LI List", ContentAndKeywords)
    case 27 => AuditCheck("image-alt", "Image ALT Attributes", ContentAndKeywords)
    case 28 => AuditCheck("link-profile", "Link Profile", Links)
    case 29 => AuditCheck("internal-links", "Internal Links", Links)
    case 30 => AuditCheck("external-links", "External Links", Links)
    case 31 => AuditCheck("http-links", "HTTP Links", Links)
    case 32 => AuditCheck("js-type", "JavaScript Type", AdvancedAndTechnical)
    case 33 => AuditCheck("json-ld", "JSON-LD Schema Markup", AdvancedAndTechnical)
    case 34 => AuditCheck("technologies", "Technologies Detected", AdvancedAndTechnical)
    case 35 => AuditCheck("pagespeed-score", "Google PageSpeed Score", AdvancedAndTechnical)
    case 36 => AuditCheck("sitemap-check", "XML Sitemap Index and URLs", AdvancedAndTechnical)
    case _ => AuditCheck("robots-txt-check", "robots.txt Check", AdvancedAndTechnical)
  }

  /** `AUDIT_CHECKS_DATA.map(c => c.id)`. */
  function IdsOf(checks: seq<AuditCheck>): (ids: seq<string>)
    ensures |ids| == |checks|
    ensures forall k :: 0 <= k < |checks| ==> ids[k] == checks[k].id
  {
    seq(|checks|, k requires 0 <= k < |checks| => checks[k].id)
  }

  /** `new Set(AUDIT_CHECKS_DATA.map(c => c.id))`: the set every check starts selected in. */
  function RegistryIds(): set<string> {
    set id | id in IdsOf(AuditChecks())
  }

  /**
   * A fingerprint of an id: its length and its second and last characters. It differs
   * between any two registry ids, which is how their distinctness is shown.
   */
  function Sig(s: string): int {
    if |s| < 2 then 0 else |s| * 1000000 + (s[1] as int) * 1000 + (s[|s| - 1] as int)
  }

  /** The registry position of the id with fingerprint `n`, by binary search over the fingerprints. */
  function Rank(n: int): int {
    if n < 12100107 then
      if n < 8112107 then
        if n < 2053053 then
          if n < 2051051 then
            if n < 2050050 then
              if n == 2049049 then 18 else -1
            else
              if n == 2050050 then 19 else -1
          else
            if n < 2052052 then
              if n == 2051051 then 20 else -1
            else
              if n == 2052052 then 21 else -1
        else
          if n < 5112115 then
            if n < 2054054 then
              if n == 2053053 then 22 else -1
            else
              if n == 2054054 then 23 else -1
          else
            if n < 7115100 then
              if n == 5112115 then 25 else -1
            else
              if n < 7115101 then
                if n == 7115100 then 33 else -1
              else
                if n == 7115101 then 32 else -1
      else
        if n < 10101101 then
          if n < 9109116 then
            if n < 8115107 then
              if n == 8112107 then 8 else -1
            else
              if n == 8115107 then 10 else -1
          else
            if n < 9116103 then
              if n == 9109116 then 27 else -1
            else
              if n < 10097115 then
                if n == 9116103 then 2 else -1
              else
                if n == 10097115 then 24 else -1
        else
          if n < 10116115 then
            if n < 10108116 then
              if n == 10101101 then 12 else -1
            else
              if n == 10108116 then 26 else -1
          else
            if n < 11111097 then
              if n == 10116115 then 31 else -1
            else
              if n < 12097107 then
                if n == 11111097 then 16 else -1
              else
                if n == 12097107 then 4 else -1
    else
      if n < 13114107 then
        if n < 12111115 then
          if n < 12101116 then
            if n < 12101115 then
              if n == 12100107 then 7 else -1
            else
              if n == 12101115 then 34 else -1
          else
            if n < 12105101 then
              if n == 12101116 then 1 else -1
            else
              if n == 12105101 then 28 else -1
        else
          if n < 13101115 then
            if n < 13097103 then
              if n == 12111115 then 17 else -1
            else
              if n == 13097103 then 14 else -1
          else
            if n < 13101116 then
              if n == 13101115 then 0 else -1
            else
              if n < 13105107 then
                if n == 13101116 then 3 else -1
              else
                if n == 13105107 then 36 else -1
      else
        if n < 15097101 then
          if n < 14110115 then
            if n < 14104107 then
              if n == 13114107 then 9 else -1
            else
              if n == 14104107 then 6 else -1
          else
            if n < 14112097 then
              if n == 14110115 then 29 else -1
            else
              if n < 14120115 then
                if n == 14112097 then 15 else -1
              else
                if n == 14120115 then 30 else -1
        else
          if n < 16101110 then
            if n < 15109115 then
              if n == 15097101 then 35 else -1
            else
              if n == 15109115 then 11 else -1
          else
            if n < 16111107 then
              if n == 16101110 then 13 else -1
            else
              if n < 23114115 then
                if n == 16111107 then 37 else -1
              else
                if n == 23114115 then 5 else -1
  }

  /** The checks at positions 0 to 3 have ranks 0 to 3. */
  lemma {:induction false} RankOfChecksFrom0()
    ensures forall k :: 0 <= k < 4 ==> Rank(Sig(CheckAt(k).id)) == k
  {
  }

  /** The checks at positions 4 to 7 have ranks 4 to 7. */
  lemma {:induction false} RankOfChecksFrom4()
    ensures forall k :: 4 <= k < 8 ==> Rank(Sig(CheckAt(k).id)) == k
  {
  }

  /** The checks at positions 8 to 11 have ranks 8 to 11. */
  lemma {:induction false} RankOfChecksFrom8()
    ensures forall k :: 8 <= k < 12 ==> Rank(Sig(CheckAt(k).id)) == k
  {
  }

  /** The checks at positions 12 to 16 have ranks 12 to 16. */
  lemma {:induction false} RankOfChecksFrom12()
    ensures forall k :: 12 <= k < 17 ==> Rank(Sig(CheckAt(k).id)) == k
  {
  }

  /** The checks at positions 17 to 20 have ranks 17 to 20. */
  lemma {:induction false} RankOfChecksFrom17()
    ensures forall k :: 17 <= k < 21 ==> Rank(Sig(CheckAt(k).id)) == k
  {
  }

  /** The checks at positions 21 to 24 have ranks 21 to 24. */
  lemma {:induction false} RankOfChecksFrom21()
    ensures forall k :: 21 <= k < 25 ==> Rank(Sig(CheckAt(k).id)) == k
  {
  }

  /** The checks at positions 25 to 27 have ranks 25 to 27. */
  lemma {:induction false} RankOfChecksFrom25()
    ensures forall k :: 25 <= k < 28 ==> Rank(Sig(CheckAt(k).id)) == k
  {
  }

  /** The checks at positions 28 to 31 have ranks 28 to 31. */
  lemma {:induction false} RankOfChecksFrom28()
    ensures forall k :: 28 <= k < 32 ==> Rank(Sig(CheckAt(k).id)) == k
  {
  }

  /** The checks at positions 32 to 34 have ranks 32 to 34. */
  lemma {:induction false} RankOfChecksFrom32()
    ensures forall k :: 32 <= k < 35 ==> Rank(Sig(CheckAt(k).id)) == k
  {
  }

  /** The checks at positions 35 to 37 have ranks 35 to 37. */
  lemma {:induction false} RankOfChecksFrom35()
    ensures forall k :: 35 <= k < 38 ==> Rank(Sig(CheckAt(k).id)) == k
  {
  }

  /** No two checks of the registry share an id. */
  lemma {:induction false} RegistryIdsDistinct()
    ensures NoDuplicates(IdsOf(AuditChecks()))
  {
    RankOfChecksFrom0();
    RankOfChecksFrom4();
    RankOfChecksFrom8();
    RankOfChecksFrom12();
    RankOfChecksFrom17();
    RankOfChecksFrom21();
    RankOfChecksFrom25();
    RankOfChecksFrom28();
    RankOfChecksFrom32();
    RankOfChecksFrom35();
  }

  /** The registry holds 38 checks with 38 different ids. */
  lemma {:induction false} RegistryIdCount()
    ensures |AuditChecks()| == 38 && |RegistryIds()| == 38
  {
    RegistryIdsDistinct();
    DistinctCardinality(IdsOf(AuditChecks()));
  }

  /**
   * The sample report a run installs. Each HTML detail is written as the concatenation of
   * short pieces, word by word, which keeps the verifier's work on these literals small.
   */
  function MockReport(): seq<ReportItem> {
    [
      ReportItem(
        "Header Status",
        "Number of Header Status found: 1",
        "\n"
        + "          " + "<p>Input " + "URL: " + "https://rankmath.com</p>\n"
        + "          " + "<p>Final " + "URL: " + "https://rankmath.com</p>\n"
        + "          " + "<p>Final " + "Status: " + "Fetch " + "Failed " + "Failed to " + "fetch</p>\n"
        + "          " + "<a " + "href=\"#\" " + "class=\"text-orange-600 " + "dark:text-orange-400 " + "hover:underline " + "mt-2 " + "inline-block\">View " + "Response " + "Headers</a>\n"
        + "        "
      ),
      ReportItem(
        "HTML Lang",
        "Number of HTML Lang found: 5",
        "en-US"
      ),
      ReportItem(
        "Meta Title Tag",
        "Number of Meta Title Tag found: 49",
        "\n"
        + "          " + "<p>\U{F8FF}\U{FC}\U{EC}\U{FA} " + "Title:Rank " + "Math - " + "Best Free " + "WordPress " + "SEO Tools " + "in " + "2025</p>\n"
        + "          " + "<p>\U{F8FF}\U{FC}\U{EE}\U{A2} " + "Length: " + "49 " + "characters</p>\n"
        + "          " + "<p>\U{F8FF}\U{FC}\U{F6}\U{B4} " + "Contains " + "bad " + "keywords: " + "free, " + "best</p>\n"
        + "        "
      ),
      ReportItem(
        "Meta Description",
        "Number of Meta Description found: 184",
        "\n"
        + "          " + "<p>\U{F8FF}\U{FC}\U{EC}\U{D1} " + "Meta " + "Description " + "(MetaD):Rank " + "Math " + "WordPress " + "SEO " + "plugin " + "will help " + "you rank " + "higher in " + "search " + "engines. " + "DOWNLOAD " + "for FREE " + "this " + "plugin " + "today to " + "optimize " + "your " + "WordPress " + "website " + "for " + "higher " + "rankings " + "and more " + "traffic.</p>\n"
        + "          " + "<p>\U{F8FF}\U{FC}\U{EE}\U{A2} " + "Length: " + "184 " + "characters</p>\n"
        + "          " + "<p>\U{201A}\U{F6}\U{2020}\U{D4}\U{220F}\U{E8} " + "Description " + "is too " + "long " + "(limit: " + "160 " + "characters)</p>\n"
        + "          " + "<p>\U{F8FF}\U{FC}\U{F6}\U{B4} " + "Contains " + "bad " + "keywords: " + "free</p>\n"
        + "          " + "<p>\U{201A}\U{F9}\U{F3} " + "Brand " + "\"Best " + "Free " + "WordPress " + "SEO Tools " + "in 2025\" " + "not found " + "in the " + "Meta " + "Description " + "(MetaD)</p>\n"
        + "        "
      ),
      ReportItem(
        "H1 Headings",
        "Number of H1 Headings found: 1",
        "\n"
        + "          " + "<p>H1 1 " + "SEO for " + "WordPress " + "Made " + "Easy</p>\n"
        + "          " + "<p>Status: " + "Errors " + "\U{F8FF}\U{FC}\U{EE}\U{A5} " + "Contains " + "banned or " + "harmful " + "keywords</p>\n"
        + "          " + "<br>\n"
        + "          " + "<p>Total " + "H1 tags: " + "1</p>\n"
        + "        "
      ),
      ReportItem(
        "H2 Headings",
        "Number of H2 Headings found: 7",
        "\n"
        + "          " + "<p>\U{201A}\U{FA}\U{D6} " + "#1: " + "Powering " + "SEO " + "optimization " + "for " + "businesses " + "around " + "the world " + "(57 " + "chars)</p>\n"
        + "          " + "<p>\U{201A}\U{FA}\U{D6} " + "#2: What " + "is Rank " + "Math? (18 " + "chars)</p>\n"
        + "          " + "<p>\U{201A}\U{FA}\U{D6} " + "#3: " + "Recommended " + "By The " + "Best SEOs " + "On The " + "Planet " + "(42 " + "chars)</p>\n"
        + "          " + "<p>\U{201A}\U{FA}\U{D6} " + "#4: What " + "you can " + "do with " + "Rank Math " + "(30 " + "chars)</p>\n"
        + "          " + "<p>\U{201A}\U{FA}\U{D6} " + "#5: Take " + "The " + "Guesswork " + "Out Of " + "SEO for " + "WordPress " + "(43 " + "chars)</p>\n"
        + "          " + "<p>\U{201A}\U{FA}\U{D6} " + "#6: Your " + "all-in-one " + "solution " + "for all " + "the SEO " + "needs (46 " + "chars)</p>\n"
        + "          " + "<p>\U{201A}\U{FA}\U{D6} " + "#7: " + "Leading " + "SEOs are " + "Loving " + "Rank " + "Math! (34 " + "chars)</p>\n"
        + "          " + "<p>Total " + "Headings: " + "7</p>\n"
        + "        "
      ),
      ReportItem(
        "H3 Headings",
        "Number of H3 Headings found: 6",
        "\n"
        + "          " + "<p>Rank " + "Math " + "Integrates " + "With Your " + "Favorite " + "Platforms</p>\n"
        + "          " + "<p>Easy " + "to Follow " + "Setup " + "Wizard</p>\n"
        + "          " + "<p>Clean, " + "& Simple " + "User " + "Interface</p>\n"
        + "        "
      )
      ]
  }
}
