/**
 * The FAQ page: a fixed list of question/answer pairs with an open flag each, a
 * case-insensitive search over questions and answers, and a toggle addressed by position
 * in the searched view and applied to the first entry with the same question.
 */
module Faqs {
  import opened Text
  import opened Collections

  datatype FaqItem = FaqItem(question: string, answer: string, open: bool)

  /** The page's six entries; the last two are the same entry written twice. */
  function InitialFaqs(): seq<FaqItem> {
    [TechnicalSeo(), SiteSpeed(), CanonicalTag(), RobotsTxt(), StructuredData(), StructuredData()]
  }

  function TechnicalSeo(): FaqItem {
    FaqItem("What is technical SEO?",
            "Technical SEO refers to website and server optimizations that help search engine spiders crawl and index your site more effectively (to help improve organic rankings).",
            false)
  }

  function SiteSpeed(): FaqItem {
    FaqItem("Why is site speed important for SEO?",
            "Site speed is a critical ranking factor for Google. A faster site provides a better user experience, which can lead to higher engagement, conversions, and rankings.",
            false)
  }

  function CanonicalTag(): FaqItem {
    FaqItem("What is a canonical tag?",
            "A canonical tag (rel=\"canonical\") is a way of telling search engines that a specific URL represents the master copy of a page. Using it prevents problems caused by identical or \"duplicate\" content appearing on multiple URLs.",
            false)
  }

  function RobotsTxt(): FaqItem {
    FaqItem("What is a robots.txt file?",
            "A robots.txt file tells search engine crawlers which pages or files the crawler can or can't request from your site. It's used mainly to avoid overloading your site with requests.",
            false)
  }

  function StructuredData(): FaqItem {
    FaqItem("What is structured data (JSON-LD)?",
            "Structured data is a standardized format for providing information about a page and classifying the page content. JSON-LD is the recommended format by Google. It can help your site appear in rich results in search.",
            false)
  }

  /** The item test of the search: the lower-cased question or answer contains the term. */
  function Matches(term: string): FaqItem -> bool {
    (faq: FaqItem) => Contains(Lower(faq.question), term) || Contains(Lower(faq.answer), term)
  }

  /** `filteredFaqs`: the search term is lower-cased but not trimmed; an empty term shows everything. */
  function FilteredFaqs(faqs: seq<FaqItem>, searchTerm: string): seq<FaqItem> {
    var term := Lower(searchTerm);
    if term == "" then faqs else Filter(faqs, Matches(term))
  }

  /**
   * An empty search shows every entry; any other search shows, in order, exactly the
   * entries whose lower-cased question or answer contains the lower-cased term. A term
   * of spaces is not empty.
   */
  lemma {:induction false} FilteredFaqsCorrect(faqs: seq<FaqItem>, searchTerm: string, faq: FaqItem)
    ensures searchTerm == "" ==> FilteredFaqs(faqs, searchTerm) == faqs
    ensures searchTerm != "" ==>
      && (faq in FilteredFaqs(faqs, searchTerm) <==>
            faq in faqs && (Contains(Lower(faq.question), Lower(searchTerm)) || Contains(Lower(faq.answer), Lower(searchTerm))))
      && multiset(FilteredFaqs(faqs, searchTerm)) <= multiset(faqs)
  {
    if searchTerm != "" {
      assert |Lower(searchTerm)| == |searchTerm|;
      FilterMembership(faqs, Matches(Lower(searchTerm)), faq);
      FilterSubMultiset(faqs, Matches(Lower(searchTerm)));
    }
  }

  function HasQuestion(question: string): FaqItem -> bool {
    (faq: FaqItem) => faq.question == question
  }

  function Flipped(faq: FaqItem): FaqItem {
    faq.(open := !faq.open)
  }

  /**
   * `toggleFaq(index)`: flips the first entry whose question is that of entry `index` of
   * the searched view. An index outside the view makes the source throw before the list
   * changes; the list is then unchanged.
   */
  function ToggledFaqs(faqs: seq<FaqItem>, searchTerm: string, index: int): (r: seq<FaqItem>)
    ensures |r| == |faqs|
  {
    var view := FilteredFaqs(faqs, searchTerm);
    if !(0 <= index < |view|) then faqs
    else
      var original := FindIndex(faqs, HasQuestion(view[index].question));
      if original != -1 then faqs[original := Flipped(faqs[original])] else faqs
  }

  /**
   * For an index inside the view, exactly the first entry carrying the question shown at
   * that index is flipped, and it exists; every other entry stays as it was.
   */
  lemma {:induction false} ToggleFaqCorrect(faqs: seq<FaqItem>, searchTerm: string, index: nat)
    requires index < |FilteredFaqs(faqs, searchTerm)|
    ensures var q := FilteredFaqs(faqs, searchTerm)[index].question;
      exists j :: 0 <= j < |faqs| && faqs[j].question == q
        && (forall k :: 0 <= k < j ==> faqs[k].question != q)
        && ToggledFaqs(faqs, searchTerm, index) == faqs[j := Flipped(faqs[j])]
  {
    var view := FilteredFaqs(faqs, searchTerm);
    var q := view[index].question;
    assert view[index] in faqs;
    var m :| 0 <= m < |faqs| && faqs[m] == view[index];
    assert HasQuestion(q)(faqs[m]);
    var j := FindIndex(faqs, HasQuestion(q));
    assert HasQuestion(q)(faqs[j]);
  }

  /** Position by position, the same questions and answers; the open flags may differ. */
  predicate SameContents(a: seq<FaqItem>, b: seq<FaqItem>) {
    |a| == |b| && forall i :: 0 <= i < |a| ==> a[i].question == b[i].question && a[i].answer == b[i].answer
  }

  /** The search looks only at questions and answers, never at the open flags. */
  lemma {:induction false} FilterIgnoresOpen(a: seq<FaqItem>, b: seq<FaqItem>, searchTerm: string)
    requires SameContents(a, b)
    ensures SameContents(FilteredFaqs(a, searchTerm), FilteredFaqs(b, searchTerm))
  {
    var term := Lower(searchTerm);
    if term != "" {
      FilterContents(a, b, term);
    }
  }

  lemma {:induction false} FilterContents(a: seq<FaqItem>, b: seq<FaqItem>, term: string)
    requires SameContents(a, b)
    ensures SameContents(Filter(a, Matches(term)), Filter(b, Matches(term)))
  {
    var keep := Matches(term);
    if a != [] {
      assert SameContents(a[1..], b[1..]) by {
        forall i | 0 <= i < |a| - 1 ensures a[1..][i].question == b[1..][i].question && a[1..][i].answer == b[1..][i].answer {
          assert a[1..][i] == a[i + 1] && b[1..][i] == b[i + 1];
        }
      }
      FilterContents(a[1..], b[1..], term);
      var ra, rb := Filter(a[1..], keep), Filter(b[1..], keep);
      assert keep(a[0]) == keep(b[0]);
      if keep(a[0]) {
        ConsSameContents(a[0], ra, b[0], rb);
      }
    }
  }

  lemma {:induction false} ConsSameContents(x: FaqItem, a: seq<FaqItem>, y: FaqItem, b: seq<FaqItem>)
    requires x.question == y.question && x.answer == y.answer && SameContents(a, b)
    ensures SameContents([x] + a, [y] + b)
  {
    forall i | 0 < i < |a| + 1 ensures ([x] + a)[i] == a[i - 1] && ([y] + b)[i] == b[i - 1] {
    }
  }

  /** Toggling an entry in view twice restores the list. */
  lemma {:induction false} ToggleFaqTwice(faqs: seq<FaqItem>, searchTerm: string, index: int)
    ensures ToggledFaqs(ToggledFaqs(faqs, searchTerm, index), searchTerm, index) == faqs
  {
    var view := FilteredFaqs(faqs, searchTerm);
    if 0 <= index < |view| {
      ToggleFaqCorrect(faqs, searchTerm, index);
      var q := view[index].question;
      var j := FindIndex(faqs, HasQuestion(q));
      var once := faqs[j := Flipped(faqs[j])];
      assert SameContents(once, faqs);
      FilterIgnoresOpen(once, faqs, searchTerm);
      var view1 := FilteredFaqs(once, searchTerm);
      assert view1[index].question == q;
      FindIndexSame(once, faqs, HasQuestion(q));
      assert once[j := Flipped(once[j])] == faqs;
    }
  }

  /**
   * When two entries share a question, toggling the later one with an empty search flips
   * the first entry with that question and leaves the later one as it was. `InitialFaqs`
   * has such a pair at positions 4 and 5 (with no earlier entry asking the same).
   */
  lemma {:induction false} ToggleDuplicate(faqs: seq<FaqItem>, j: nat, k: nat)
    requires j < k < |faqs| && faqs[j].question == faqs[k].question
    requires forall m :: 0 <= m < j ==> faqs[m].question != faqs[j].question
    ensures ToggledFaqs(faqs, "", k) == faqs[j := Flipped(faqs[j])]
    ensures ToggledFaqs(faqs, "", k)[k] == faqs[k]
  {
    assert Lower("") == "";
    var q := faqs[k].question;
    assert HasQuestion(q)(faqs[j]);
    var i := FindIndex(faqs, HasQuestion(q));
    assert !(i < j) && !(i > j);
  }

  /** The FAQ page's state. */
  class FaqsPage {
    var searchTerm: string
    var faqs: seq<FaqItem>

    constructor(initial: seq<FaqItem>)
      ensures searchTerm == "" && faqs == initial
    {
      searchTerm := "";
      faqs := initial;
    }

    function Filtered(): seq<FaqItem>
      reads this
    {
      FilteredFaqs(faqs, searchTerm)
    }

    method ToggleFaq(index: int)
      modifies this
      ensures faqs == ToggledFaqs(old(faqs), searchTerm, index) && searchTerm == old(searchTerm)
    {
      var view := FilteredFaqs(faqs, searchTerm);
      if 0 <= index < |view| {
        var originalIndex := FindIndex(faqs, HasQuestion(view[index].question));
        if originalIndex != -1 {
          faqs := faqs[originalIndex := Flipped(faqs[originalIndex])];
        }
      }
    }
  }

  /** Opens the page over its six entries. */
  method OpenFaqsPage() returns (page: FaqsPage)
    ensures fresh(page) && page.faqs == InitialFaqs() && page.searchTerm == ""
  {
    page := new FaqsPage(InitialFaqs());
  }
}
