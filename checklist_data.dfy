/**
 * The SEO audit checklist: 47 tasks in twelve categories, in the order the checklist page
 * shows them. Each category's tasks are a function of their own, so that a fact about one
 * category does not bring the whole table into a proof; long texts are written as
 * concatenations of short pieces.
 */
module ChecklistData {

  datatype ChecklistItem = ChecklistItem(id: string, category: string, task: string, details: string)

  const Basics := "Basics"
  const CrawlingIndexing := "Crawling & Indexing"
  const MetaStructuredData := "Meta & Structured Data"
  const Content := "Content"
  const LinksNavigation := "Links & Navigation"
  const WebsiteImages := "Website Images"
  const WebsiteVideos := "Website Videos"
  const WebsiteMobileVersion := "Website Mobile Version"
  const WebsitePageSpeed := "Website Page Speed"
  const WebsiteSecurity := "Website Security"
  const InternationalMultilingual := "International & Multilingual"
  const BacklinksOffPage := "Backlinks (Off-Page)"

  /** The whole checklist. */
  function ChecklistItems(): seq<ChecklistItem>
  {
    BasicsTasks()
    + CrawlingIndexingTasks()
    + MetaStructuredDataTasks()
    + ContentTasks()
    + LinksNavigationTasks()
    + WebsiteImagesTasks()
    + WebsiteVideosTasks()
    + WebsiteMobileVersionTasks()
    + WebsitePageSpeedTasks()
    + WebsiteSecurityTasks()
    + InternationalMultilingualTasks()
    + BacklinksOffPageTasks()
  }

  function BasicsTasks(): seq<ChecklistItem>
  {
    [
      ChecklistItem("setup-gsc", Basics, "Set up Google Search Console",
        "Verify site " + "ownership " + "and submit " + "sitemaps to " + "monitor " + "search " + "performance."),
      ChecklistItem("setup-analytics", Basics, "Set up Google Analytics",
        "Install " + "tracking " + "code to " + "monitor " + "website " + "traffic and " + "user " + "behavior."),
      ChecklistItem("check-manual-actions", Basics, "Check for Google manual actions",
        "Look in " + "Google " + "Search " + "Console for " + "any " + "penalties " + "that might " + "affect your " + "ranking."),
      ChecklistItem("define-http-https", Basics, "Ensure only one version of your site is browseable",
        "Check that " + "http, " + "https, www, " + "and non-www " + "versions " + "all " + "redirect to " + "a single " + "canonical " + "version.")
    ]
  }

  function CrawlingIndexingTasks(): seq<ChecklistItem>
  {
    [
      ChecklistItem("review-robots-txt", CrawlingIndexing, "Review robots.txt file",
        "Ensure you " + "aren't " + "blocking " + "important " + "content and " + "that your " + "sitemap is " + "referenced."),
      ChecklistItem("find-crawl-errors", CrawlingIndexing, "Find and fix crawl errors",
        "Use GSC\U{2019}s " + "Coverage " + "report to " + "identify " + "and resolve " + "crawling " + "issues."),
      ChecklistItem("check-index-status", CrawlingIndexing, "Check Google index status",
        "Use the " + "\"site:\" " + "search " + "operator " + "(e.g., " + "site:yourdomain.com) " + "to see how " + "many pages " + "are indexed."),
      ChecklistItem("use-sitemap", CrawlingIndexing, "Create and submit an XML sitemap",
        "Help search " + "engines " + "discover " + "all " + "important " + "pages on " + "your site.")
    ]
  }

  function MetaStructuredDataTasks(): seq<ChecklistItem>
  {
    [
      ChecklistItem("optimize-titles", MetaStructuredData, "Optimize title tags",
        "Ensure " + "every page " + "has a " + "unique, " + "descriptive " + "title tag " + "under 60 " + "characters."),
      ChecklistItem("optimize-metas", MetaStructuredData, "Optimize meta descriptions",
        "Write " + "unique, " + "compelling " + "meta " + "descriptions " + "(under 160 " + "characters) " + "for key " + "pages to " + "improve CTR."),
      ChecklistItem("use-canonicals", MetaStructuredData, "Use canonical tags for duplicate content",
        "Specify the " + "preferred " + "\"master\" " + "version of " + "a page to " + "consolidate " + "link equity " + "and avoid " + "duplicate " + "content " + "issues."),
      ChecklistItem("check-structured-data", MetaStructuredData, "Check for structured data opportunities",
        "Implement " + "schema " + "markup " + "(like " + "Article, " + "Product, " + "FAQ) to be " + "eligible " + "for rich " + "snippets.")
    ]
  }

  function ContentTasks(): seq<ChecklistItem>
  {
    [
      ChecklistItem("check-h1", Content, "Check for a single H1 tag",
        "Each page " + "should have " + "one, and " + "only one, " + "H1 tag that " + "describes " + "the page " + "content."),
      ChecklistItem("use-subheadings", Content, "Use header tags (H2-H6) correctly",
        "Structure " + "your " + "content " + "logically " + "with " + "subheadings " + "to improve " + "readability."),
      ChecklistItem("find-thin-content", Content, "Find and improve thin content",
        "Expand " + "pages with " + "little or " + "no content " + "to provide " + "more value " + "to users."),
      ChecklistItem("check-duplicate-content", Content, "Check for internal duplicate content",
        "Ensure you " + "don't have " + "multiple " + "pages " + "competing " + "for the " + "same " + "keywords."),
      ChecklistItem("optimize-content-quality", Content, "Ensure content is high-quality",
        "Content " + "should be " + "well-written, " + "informative, " + "and meet " + "user intent.")
    ]
  }

  function LinksNavigationTasks(): seq<ChecklistItem>
  {
    [
      ChecklistItem("check-site-structure", LinksNavigation, "Check for logical site structure and page depth",
        "Ensure your " + "site has a " + "clear " + "hierarchy " + "and key " + "pages are " + "reachable " + "within 3-4 " + "clicks from " + "the " + "homepage."),
      ChecklistItem("use-breadcrumbs", LinksNavigation, "Use breadcrumbs",
        "Implement " + "breadcrumbs " + "to help " + "users and " + "search " + "engines " + "understand " + "the page " + "hierarchy."),
      ChecklistItem("check-urls", LinksNavigation, "Ensure URLs are SEO-friendly",
        "Use simple, " + "descriptive, " + "and " + "readable " + "URLs with " + "keywords " + "where " + "appropriate."),
      ChecklistItem("fix-broken-links", LinksNavigation, "Fix broken internal and external links",
        "Broken " + "links " + "create a " + "poor user " + "experience " + "and waste " + "crawl " + "budget."),
      ChecklistItem("check-redirects", LinksNavigation, "Check for redirect chains and loops",
        "Use " + "permanent " + "(301) " + "redirects " + "for moved " + "content and " + "avoid long " + "redirect " + "chains.")
    ]
  }

  function WebsiteImagesTasks(): seq<ChecklistItem>
  {
    [
      ChecklistItem("optimize-images", WebsiteImages, "Optimize images",
        "Compress " + "images and " + "use " + "descriptive " + "alt text " + "for all " + "important " + "images."),
      ChecklistItem("image-filenames", WebsiteImages, "Use descriptive image filenames",
        "Use " + "filenames " + "that " + "describe " + "the image " + "content " + "(e.g., " + "\"blue-widget.jpg\" " + "instead of " + "\"IMG_123.jpg\")."),
      ChecklistItem("image-next-gen", WebsiteImages, "Serve images in next-gen formats",
        "Use formats " + "like WebP " + "or AVIF for " + "better " + "compression " + "and quality.")
    ]
  }

  function WebsiteVideosTasks(): seq<ChecklistItem>
  {
    [
      ChecklistItem("video-sitemap", WebsiteVideos, "Create a video sitemap",
        "Help search " + "engines " + "find and " + "understand " + "the video " + "content on " + "your site."),
      ChecklistItem("video-schema", WebsiteVideos, "Use VideoObject schema markup",
        "Provide " + "details " + "like the " + "video " + "thumbnail, " + "description, " + "and upload " + "date to " + "search " + "engines."),
      ChecklistItem("video-optimization", WebsiteVideos, "Optimize video loading",
        "Embed " + "videos " + "efficiently " + "and " + "consider " + "lazy-loading " + "to not " + "impact page " + "speed.")
    ]
  }

  function WebsiteMobileVersionTasks(): seq<ChecklistItem>
  {
    [
      ChecklistItem("mobile-friendly-test", WebsiteMobileVersion, "Run the Mobile-Friendly Test",
        "Use " + "Google\U{2019}s " + "test to " + "ensure your " + "pages are " + "easy to use " + "on mobile " + "devices."),
      ChecklistItem("check-viewport", WebsiteMobileVersion, "Check for viewport meta tag",
        "Ensure " + "`<meta " + "name=\"viewport\" " + "content=\"width=device-width, " + "initial-scale=1\">` " + "is present."),
      ChecklistItem("check-font-size", WebsiteMobileVersion, "Check mobile font sizes",
        "Text should " + "be readable " + "on a small " + "screen " + "without " + "needing to " + "zoom."),
      ChecklistItem("check-tap-targets", WebsiteMobileVersion, "Check tap targets",
        "Buttons and " + "links " + "should be " + "large " + "enough and " + "spaced out " + "enough to " + "be easily " + "tapped.")
    ]
  }

  function WebsitePageSpeedTasks(): seq<ChecklistItem>
  {
    [
      ChecklistItem("analyze-page-speed", WebsitePageSpeed, "Analyze page loading speed",
        "Use tools " + "like " + "PageSpeed " + "Insights to " + "check " + "performance " + "and Core " + "Web Vitals."),
      ChecklistItem("optimize-server-response", WebsitePageSpeed, "Improve server response time",
        "Aim for a " + "Time to " + "First Byte " + "(TTFB) " + "under 200ms."),
      ChecklistItem("enable-compression", WebsitePageSpeed, "Enable Gzip or Brotli compression",
        "Reduce the " + "size of " + "your CSS, " + "HTML, and " + "JavaScript " + "files."),
      ChecklistItem("minify-css-js", WebsitePageSpeed, "Minify CSS, JavaScript, and HTML",
        "Remove " + "unnecessary " + "characters " + "from code " + "without " + "changing " + "its " + "functionality."),
      ChecklistItem("leverage-caching", WebsitePageSpeed, "Leverage browser caching",
        "Instruct " + "browsers to " + "store " + "static " + "assets " + "locally to " + "speed up " + "repeat " + "visits."),
      ChecklistItem("use-cdn", WebsitePageSpeed, "Use a Content Delivery Network (CDN)",
        "Serve your " + "content " + "from " + "servers " + "closer to " + "your users " + "to reduce " + "latency.")
    ]
  }

  function WebsiteSecurityTasks(): seq<ChecklistItem>
  {
    [
      ChecklistItem("use-https", WebsiteSecurity, "Ensure your site uses HTTPS",
        "Secure your " + "website " + "with an SSL " + "certificate " + "to protect " + "user data " + "and improve " + "trust."),
      ChecklistItem("check-mixed-content", WebsiteSecurity, "Check for mixed content issues",
        "Ensure all " + "resources " + "(images, " + "scripts) on " + "an HTTPS " + "page are " + "also served " + "over HTTPS."),
      ChecklistItem("check-safe-browsing", WebsiteSecurity, "Check for security issues in GSC",
        "Review the " + "Security & " + "Manual " + "Actions " + "report for " + "any malware " + "or hacked " + "content " + "warnings.")
    ]
  }

  function InternationalMultilingualTasks(): seq<ChecklistItem>
  {
    [
      ChecklistItem("use-hreflang", InternationalMultilingual, "Use hreflang tags for language/region targeting",
        "Tell Google " + "about " + "localized " + "versions of " + "your page, " + "so it can " + "serve the " + "correct " + "version to " + "users."),
      ChecklistItem("use-lang-attribute", InternationalMultilingual, "Use the `lang` attribute in your HTML tag",
        "Specify the " + "language of " + "the page " + "content " + "(e.g., " + "`<html " + "lang=\"en\">`)."),
      ChecklistItem("local-url-structure", InternationalMultilingual, "Use a localized URL structure",
        "Use ccTLDs " + "(e.g., " + ".de), " + "subdomains " + "(e.g., " + "de.example.com), " + "or " + "subdirectories " + "(e.g., " + "example.com/de/).")
    ]
  }

  function BacklinksOffPageTasks(): seq<ChecklistItem>
  {
    [
      ChecklistItem("analyze-backlink-profile", BacklinksOffPage, "Analyze your backlink profile",
        "Use tools " + "to " + "understand " + "who links " + "to you and " + "what your " + "domain " + "authority " + "is."),
      ChecklistItem("disavow-toxic-links", BacklinksOffPage, "Disavow toxic or spammy links",
        "Submit a " + "disavow " + "file to " + "Google to " + "ask it to " + "ignore " + "low-quality " + "links."),
      ChecklistItem("competitor-backlink-analysis", BacklinksOffPage, "Analyze competitor backlink strategies",
        "Identify " + "where your " + "competitors " + "are getting " + "links to " + "find new " + "opportunities.")
    ]
  }
}
