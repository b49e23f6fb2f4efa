/**
 * The SEO glossary: terms and their definitions under their initial letter, letters in
 * the order the glossary lists them. Each letter's terms are a function of their own;
 * long texts are written as concatenations of short pieces.
 */
module GlossaryData {

  datatype GlossaryItem = GlossaryItem(term: string, definition: string)

  /** The glossary as an ordered dictionary from letter to terms. */
  function Glossary(): seq<(string, seq<GlossaryItem>)> {
    [
      ("A", TermsA()),
      ("B", TermsB()),
      ("C", TermsC()),
      ("D", TermsD()),
      ("E", TermsE()),
      ("H", TermsH()),
      ("I", TermsI()),
      ("J", TermsJ()),
      ("K", TermsK()),
      ("L", TermsL()),
      ("M", TermsM()),
      ("N", TermsN()),
      ("O", TermsO()),
      ("P", TermsP()),
      ("R", TermsR()),
      ("S", TermsS()),
      ("W", TermsW())
    ]
  }

  function TermsA(): seq<GlossaryItem> {
    [
      GlossaryItem("Above the Fold",
        "The content " + "that is " + "visible on " + "a webpage " + "without " + "scrolling. " + "Content in " + "this area " + "is often " + "considered " + "more " + "important " + "for user " + "engagement " + "and SEO."),
      GlossaryItem("Algorithm",
        "In the " + "context of " + "search " + "engines, a " + "complex " + "system used " + "to retrieve " + "data from " + "its search " + "index and " + "instantly " + "deliver the " + "best " + "possible " + "results for " + "a query."),
      GlossaryItem("Alt Text (Alternative Text)",
        "A word or " + "phrase that " + "can be " + "inserted as " + "an " + "attribute " + "in an HTML " + "document to " + "tell " + "website " + "visitors " + "the nature " + "or contents " + "of an " + "image. It " + "is also " + "used by " + "search " + "engines to " + "understand " + "image " + "content."),
      GlossaryItem("Anchor Text",
        "The " + "clickable " + "text in a " + "hyperlink. " + "SEO best " + "practices " + "suggest " + "that anchor " + "text should " + "be relevant " + "to the page " + "it's " + "linking to.")
    ]
  }

  function TermsB(): seq<GlossaryItem> {
    [
      GlossaryItem("Backlink",
        "An incoming " + "link from " + "one website " + "to another. " + "Backlinks " + "are a major " + "metric for " + "the ranking " + "of a " + "webpage, " + "often seen " + "as a \"vote\" " + "of " + "confidence " + "from one " + "site to " + "another."),
      GlossaryItem("Black Hat SEO",
        "A set of " + "practices " + "that are " + "used to " + "increase a " + "site or " + "page's rank " + "in search " + "engines " + "through " + "means that " + "violate the " + "search " + "engines' " + "terms of " + "service."),
      GlossaryItem("Bot (Spider, Crawler)",
        "A program " + "used by " + "search " + "engines to " + "crawl the " + "web and " + "index " + "websites. " + "They follow " + "links to " + "discover " + "new pages."),
      GlossaryItem("Bounce Rate",
        "The " + "percentage " + "of visitors " + "to a " + "particular " + "website who " + "navigate " + "away from " + "the site " + "after " + "viewing " + "only one " + "page.")
    ]
  }

  function TermsC(): seq<GlossaryItem> {
    [
      GlossaryItem("Canonical Tag",
        "A canonical " + "tag " + "(rel=\"canonical\") " + "is an HTML " + "element " + "that helps " + "prevent " + "duplicate " + "content " + "issues by " + "specifying " + "the " + "\"canonical\" " + "or " + "\"preferred\" " + "version of " + "a web page."),
      GlossaryItem("Click-Through Rate (CTR)",
        "The ratio " + "of users " + "who click " + "on a " + "specific " + "link to the " + "number of " + "total users " + "who view a " + "page, " + "email, or " + "advertisement. " + "It is " + "commonly " + "used to " + "measure the " + "success of " + "an online " + "advertising " + "campaign " + "for a " + "particular " + "website as " + "well as the " + "effectiveness " + "of email " + "campaigns."),
      GlossaryItem("Core Web Vitals",
        "A set of " + "specific " + "factors " + "that Google " + "considers " + "important " + "in a " + "webpage\U{2019}s " + "overall " + "user " + "experience. " + "Core Web " + "Vitals are " + "made up of " + "three " + "specific " + "page speed " + "and user " + "interaction " + "measurements: " + "Largest " + "Contentful " + "Paint " + "(LCP), " + "First Input " + "Delay " + "(FID), and " + "Cumulative " + "Layout " + "Shift (CLS)."),
      GlossaryItem("Crawl Budget",
        "The number " + "of pages a " + "search " + "engine bot " + "will crawl " + "on a site " + "within a " + "certain " + "timeframe.")
    ]
  }

  function TermsD(): seq<GlossaryItem> {
    [
      GlossaryItem("Disavow",
        "A tool in " + "Google " + "Search " + "Console " + "that allows " + "website " + "owners to " + "ask Google " + "to " + "disregard " + "low-quality " + "backlinks " + "pointing to " + "their site, " + "which can " + "help " + "prevent " + "penalties."),
      GlossaryItem("Domain Authority (DA)",
        "A search " + "engine " + "ranking " + "score " + "developed " + "by Moz that " + "predicts " + "how well a " + "website " + "will rank " + "on search " + "engine " + "result " + "pages " + "(SERPs). A " + "Domain " + "Authority " + "score " + "ranges from " + "one to 100, " + "with higher " + "scores " + "corresponding " + "to a " + "greater " + "ability to " + "rank."),
      GlossaryItem("Duplicate Content",
        "Content " + "that " + "appears on " + "the " + "Internet in " + "more than " + "one place. " + "This can be " + "problematic " + "for SEO and " + "can be " + "managed " + "with " + "canonical " + "tags.")
    ]
  }

  function TermsE(): seq<GlossaryItem> {
    [
      GlossaryItem("E-A-T (Expertise, Authoritativeness, Trustworthiness)",
        "A framework " + "used by " + "Google's " + "human " + "quality " + "raters to " + "assess the " + "quality of " + "a website. " + "High E-A-T " + "is " + "particularly " + "important " + "for sites " + "in the " + "\"Your Money " + "or Your " + "Life\" " + "(YMYL) " + "category."),
      GlossaryItem("External Link",
        "A link that " + "points to a " + "page on a " + "different " + "website.")
    ]
  }

  function TermsH(): seq<GlossaryItem> {
    [
      GlossaryItem("Hreflang",
        "An HTML " + "attribute " + "used to " + "specify the " + "language " + "and " + "geographical " + "targeting " + "of a " + "webpage. " + "It's used " + "when you " + "have " + "created " + "versions of " + "your " + "content for " + "different " + "languages " + "or regions.")
    ]
  }

  function TermsI(): seq<GlossaryItem> {
    [
      GlossaryItem("Indexing",
        "The process " + "by which " + "search " + "engines " + "organize " + "information " + "before a " + "search to " + "enable " + "super-fast " + "responses " + "to queries. " + "When a " + "search " + "engine " + "indexes a " + "website, it " + "adds it to " + "its " + "database of " + "known web " + "pages."),
      GlossaryItem("Internal Link",
        "A link from " + "one page to " + "another " + "page on the " + "same " + "website.")
    ]
  }

  function TermsJ(): seq<GlossaryItem> {
    [
      GlossaryItem("JSON-LD (JavaScript Object Notation for Linked Data)",
        "A method of " + "implementing " + "structured " + "data using " + "JSON. It is " + "Google's " + "recommended " + "format for " + "structured " + "data.")
    ]
  }

  function TermsK(): seq<GlossaryItem> {
    [
      GlossaryItem("Keyword",
        "A word or " + "phrase that " + "users type " + "into search " + "engines to " + "find " + "information. " + "Optimizing " + "content for " + "relevant " + "keywords is " + "a " + "fundamental " + "part of SEO."),
      GlossaryItem("Keyword Stuffing",
        "The " + "practice of " + "loading a " + "webpage " + "with " + "keywords or " + "numbers in " + "an attempt " + "to " + "manipulate " + "a site's " + "ranking in " + "Google " + "search " + "results. " + "This is " + "considered " + "a black hat " + "SEO tactic.")
    ]
  }

  function TermsL(): seq<GlossaryItem> {
    [
      GlossaryItem("Link Building",
        "The process " + "of " + "acquiring " + "backlinks " + "from other " + "websites to " + "your own. " + "It is a " + "crucial " + "part of " + "off-page " + "SEO."),
      GlossaryItem("Long-Tail Keyword",
        "A keyword " + "phrase that " + "is longer " + "and more " + "specific " + "than more " + "common " + "keywords. " + "Long-tail " + "keywords " + "get less " + "search " + "traffic, " + "but will " + "usually " + "have a " + "higher " + "conversion " + "value, as " + "they are " + "more " + "specific.")
    ]
  }

  function TermsM(): seq<GlossaryItem> {
    [
      GlossaryItem("Meta Description",
        "An HTML " + "attribute " + "that " + "provides a " + "brief " + "summary of " + "a web page. " + "Search " + "engines " + "like Google " + "often " + "display the " + "meta " + "description " + "in search " + "results, " + "which can " + "influence " + "click-through " + "rates."),
      GlossaryItem("Meta Title (Title Tag)",
        "An HTML " + "element " + "that " + "specifies " + "the title " + "of a web " + "page. It is " + "displayed " + "on search " + "engine " + "results " + "pages " + "(SERPs) as " + "the " + "clickable " + "headline " + "for a given " + "result.")
    ]
  }

  function TermsN(): seq<GlossaryItem> {
    [
      GlossaryItem("No-Follow Attribute",
        "An HTML " + "attribute " + "value used " + "to instruct " + "search " + "engine bots " + "that a " + "hyperlink " + "should not " + "influence " + "the link " + "target's " + "ranking in " + "the search " + "engine's " + "index.")
    ]
  }

  function TermsO(): seq<GlossaryItem> {
    [
      GlossaryItem("Off-Page SEO",
        "Actions " + "taken " + "outside of " + "your own " + "website to " + "impact your " + "rankings " + "within " + "search " + "engine " + "results " + "pages. " + "These are " + "often " + "related to " + "link " + "building " + "and brand " + "mentions."),
      GlossaryItem("On-Page SEO",
        "The " + "practice of " + "optimizing " + "individual " + "web pages " + "in order to " + "rank higher " + "and earn " + "more " + "relevant " + "traffic in " + "search " + "engines. " + "On-page SEO " + "refers to " + "both the " + "content and " + "HTML source " + "code of a " + "page."),
      GlossaryItem("Organic Traffic",
        "Visitors " + "that come " + "to your " + "website " + "from unpaid " + "search " + "results.")
    ]
  }

  function TermsP(): seq<GlossaryItem> {
    [
      GlossaryItem("PageRank",
        "An " + "algorithm " + "used by " + "Google " + "Search to " + "rank web " + "pages in " + "their " + "search " + "engine " + "results. " + "PageRank " + "works by " + "counting " + "the number " + "and quality " + "of links to " + "a page to " + "determine a " + "rough " + "estimate of " + "how " + "important " + "the website " + "is.")
    ]
  }

  function TermsR(): seq<GlossaryItem> {
    [
      GlossaryItem("Redirect",
        "A method to " + "send users " + "and search " + "engines to " + "a different " + "URL from " + "the one " + "they " + "originally " + "requested. " + "The most " + "common " + "types are " + "301 " + "(permanent) " + "and 302 " + "(temporary) " + "redirects."),
      GlossaryItem("Robots.txt",
        "A text file " + "webmasters " + "create to " + "instruct " + "web robots " + "(typically " + "search " + "engine " + "robots) how " + "to crawl " + "pages on " + "their " + "website.")
    ]
  }

  function TermsS(): seq<GlossaryItem> {
    [
      GlossaryItem("Schema Markup",
        "A form of " + "microdata. " + "Once added " + "to a " + "webpage, " + "schema " + "markup " + "creates an " + "enhanced " + "description " + "(commonly " + "known as a " + "rich " + "snippet), " + "which " + "appears in " + "search " + "results."),
      GlossaryItem("SERP (Search Engine Results Page)",
        "The page " + "displayed " + "by a search " + "engine in " + "response to " + "a query by " + "a user. The " + "main " + "component " + "of the SERP " + "is the " + "listing of " + "results " + "that are " + "returned by " + "the search " + "engine in " + "response to " + "a keyword " + "query."),
      GlossaryItem("Sitemap",
        "A file " + "where you " + "can list " + "the web " + "pages of " + "your site " + "to tell " + "Google and " + "other " + "search " + "engines " + "about the " + "organization " + "of your " + "site " + "content. " + "Search " + "engine web " + "crawlers " + "like " + "Googlebot " + "read this " + "file to " + "more " + "intelligently " + "crawl your " + "site.")
    ]
  }

  function TermsW(): seq<GlossaryItem> {
    [
      GlossaryItem("White Hat SEO",
        "The " + "practice of " + "optimizing " + "your search " + "engine " + "rankings on " + "a search " + "engine that " + "maintains " + "the " + "integrity " + "of your " + "website " + "with the " + "search " + "engine's " + "terms of " + "service.")
    ]
  }
}
