/**
 * The SEO glossary page: `slugify`, the search filter over the letter → terms
 * dictionary, the list of all terms longest first, the slug → letter index the
 * constructor fills, and the one-open-letter accordion.
 */
module SeoGlossary {
  import opened Common
  import opened Text
  import opened Collections
  import opened Grouping
  import opened GlossaryData

  // ---------------------------------------------------------------------------------
  // slugify: toLowerCase, drop [^\w\s-], trim, and turn each run of [\s_-] into one '-'.

  /** `\w` without the `u` flag: ASCII letters, digits and '_'. */
  predicate IsWordChar(c: char) {
    ('a' <= c <= 'z') || ('A' <= c <= 'Z') || ('0' <= c <= '9') || c == '_'
  }

  /** What `replace(/[^\w\s-]/g, '')` keeps. */
  predicate Kept(c: char) {
    IsWordChar(c) || IsWhitespace(c) || c == '-'
  }

  /** The characters of `[\s_-]`. */
  predicate IsSeparator(c: char) {
    IsWhitespace(c) || c == '_' || c == '-'
  }

  function StripNonWord(s: string): (r: string)
    ensures forall i :: 0 <= i < |r| ==> Kept(r[i]) && r[i] in s
  {
    if s == [] then []
    else if Kept(s[0]) then [s[0]] + StripNonWord(s[1..])
    else StripNonWord(s[1..])
  }

  /** Drops the separators at the front of `s`: the rest of a run. */
  function DropSeparators(s: string): (r: string)
    ensures |r| <= |s|
    ensures r != [] ==> !IsSeparator(r[0])
    ensures forall i :: 0 <= i < |r| ==> r[i] in s
  {
    if s != [] && IsSeparator(s[0]) then DropSeparators(s[1..]) else s
  }

  /** `replace(/[\s_-]+/g, '-')`. */
  function CollapseSeparators(s: string): (r: string)
    ensures forall i :: 0 <= i < |r| ==> r[i] == '-' || (r[i] in s && !IsSeparator(r[i]))
    ensures forall i :: 0 <= i < |r| - 1 ==> !(r[i] == '-' && r[i + 1] == '-')
    ensures s != [] && IsSeparator(s[0]) ==> r != [] && r[0] == '-'
    ensures s != [] && !IsSeparator(s[0]) ==> r != [] && r[0] == s[0]
    decreases |s|
  {
    if s == [] then []
    else if IsSeparator(s[0]) then "-" + CollapseSeparators(DropSeparators(s[1..]))
    else [s[0]] + CollapseSeparators(s[1..])
  }

  function Slugify(text: string): string {
    CollapseSeparators(Trim(StripNonWord(Lower(text))))
  }

  predicate IsSlugChar(c: char) {
    ('a' <= c <= 'z') || ('0' <= c <= '9') || c == '-'
  }

  /** Lower-case ASCII letters, digits and '-', never two '-' in a row. */
  predicate IsSlug(s: string) {
    && (forall i :: 0 <= i < |s| ==> IsSlugChar(s[i]))
    && (forall i :: 0 <= i < |s| - 1 ==> !(s[i] == '-' && s[i + 1] == '-'))
  }

  lemma {:induction false} TrimChars(s: string, c: char)
    requires c in Trim(s)
    ensures c in s
  {
    var i, j := TrimIsSlice(s);
    var k :| 0 <= k < |Trim(s)| && Trim(s)[k] == c;
    assert s[i + k] == c;
  }

  /** A slug holds only lower-case letters, digits and single dashes; in particular no white space. */
  lemma {:induction false} SlugifyIsSlug(text: string)
    ensures IsSlug(Slugify(text))
  {
    var lower := Lower(text);
    var kept := StripNonWord(lower);
    var trimmed := Trim(kept);
    var r := CollapseSeparators(trimmed);
    forall i | 0 <= i < |r| ensures IsSlugChar(r[i]) {
      if r[i] != '-' {
        TrimChars(kept, r[i]);
        var k :| 0 <= k < |kept| && kept[k] == r[i];
        var m :| 0 <= m < |lower| && lower[m] == kept[k];
        assert lower[m] == LowerChar(text[m]);
      }
    }
  }

  lemma {:induction false} CollapseSlugIdentity(s: string)
    requires IsSlug(s)
    ensures CollapseSeparators(s) == s
    decreases |s|
  {
    if s != [] {
      var t := s[1..];
      SlugTail(s);
      CollapseSlugIdentity(t);
      if IsSeparator(s[0]) {
        assert DropSeparators(t) == t by {
          if t != [] {
            assert s[0] == '-' && s[1] == t[0];
            assert IsSlugChar(t[0]) && t[0] != '-';
          }
        }
        assert CollapseSeparators(s) == "-" + t;
      } else {
        assert CollapseSeparators(s) == [s[0]] + t;
      }
    }
  }

  /** What follows the first character of a slug is a slug. */
  lemma {:induction false} SlugTail(s: string)
    requires IsSlug(s) && s != []
    ensures IsSlug(s[1..])
  {
    var t := s[1..];
    assert forall i :: 0 <= i < |t| ==> t[i] == s[i + 1];
  }

  lemma {:induction false} StripNonWordIdentity(s: string)
    requires forall i :: 0 <= i < |s| ==> Kept(s[i])
    ensures StripNonWord(s) == s
  {
    if s != [] {
      StripNonWordIdentity(s[1..]);
    }
  }

  /** A slug is its own slug, so `slugify` is idempotent. */
  lemma {:induction false} SlugifyIdempotent(text: string)
    ensures Slugify(Slugify(text)) == Slugify(text)
  {
    SlugifyIsSlug(text);
    SlugFixed(Slugify(text));
  }

  /** A slug is left as it is by every stage of `slugify`. */
  lemma {:induction false} SlugFixed(s: string)
    requires IsSlug(s)
    ensures Slugify(s) == s
  {
    assert Lower(s) == s by {
      assert forall i :: 0 <= i < |s| ==> IsSlugChar(s[i]) && LowerChar(s[i]) == s[i];
    }
    assert StripNonWord(s) == s by {
      StripNonWordIdentity(s);
    }
    assert Trim(s) == s by {
      TrimIdentity(s);
    }
    CollapseSlugIdentity(s);
  }

  // ---------------------------------------------------------------------------------
  // The search filter

  /** The item test of the search: the lower-cased term or definition contains the query. */
  function Matches(query: string): GlossaryItem -> bool {
    (item: GlossaryItem) => Contains(Lower(item.term), query) || Contains(Lower(item.definition), query)
  }

  /** `filteredGlossary`: the query is lower-cased and trimmed; an empty query shows everything. */
  function FilteredGlossary(glossary: Groups<GlossaryItem>, searchTerm: string): Groups<GlossaryItem> {
    var query := Trim(Lower(searchTerm));
    if query == "" then glossary else FilterGroups(glossary, Matches(query))
  }

  lemma {:induction false} LowerWhitespace(s: string)
    ensures AllWhitespace(Lower(s)) <==> AllWhitespace(s)
  {
    assert forall i :: 0 <= i < |s| ==> (IsWhitespace(Lower(s)[i]) <==> IsWhitespace(s[i]));
  }

  /**
   * A blank search shows the whole glossary. Any other search shows, under each letter,
   * exactly the items that match the query, in order, and only the letters with a match.
   */
  lemma {:induction false} FilteredGlossaryCorrect(glossary: Groups<GlossaryItem>, searchTerm: string, letter: string)
    requires NoDuplicates(Keys(glossary))
    ensures AllWhitespace(searchTerm) ==> FilteredGlossary(glossary, searchTerm) == glossary
    ensures !AllWhitespace(searchTerm) ==>
      var matches := Matches(Trim(Lower(searchTerm)));
      && Lookup(FilteredGlossary(glossary, searchTerm), letter) == Filter(Lookup(glossary, letter), matches)
      && (letter in Keys(FilteredGlossary(glossary, searchTerm)) <==> letter in Keys(glossary) && Filter(Lookup(glossary, letter), matches) != [])
  {
    LowerWhitespace(searchTerm);
    TrimEmptyIff(Lower(searchTerm));
    var query := Trim(Lower(searchTerm));
    if query != "" {
      FilterGroupsLookup(glossary, Matches(query), letter);
      FilterGroupsKeys(glossary, Matches(query), letter);
    }
  }

  // ---------------------------------------------------------------------------------
  // allTerms

  datatype TermLink = TermLink(term: string, slug: string)

  function LinkOf(item: GlossaryItem): TermLink {
    TermLink(item.term, Slugify(item.term))
  }

  /** The links of the glossary's items, letter by letter, in order. */
  function TermLinks(glossary: Groups<GlossaryItem>): seq<TermLink> {
    MapItems(glossary, LinkOf)
  }

  function TermLength(link: TermLink): int {
    |link.term|
  }

  /** `allTerms`: the links sorted by term length, longest first, ties in glossary order. */
  function AllTerms(glossary: Groups<GlossaryItem>): seq<TermLink> {
    SortDescending(TermLinks(glossary), TermLength)
  }

  ghost predicate InGlossary(glossary: Groups<GlossaryItem>, item: GlossaryItem) {
    InGroups(glossary, item)
  }

  /** The links are exactly those of the glossary's items. */
  lemma {:induction false} TermLinksMembers(glossary: Groups<GlossaryItem>, link: TermLink)
    ensures link in TermLinks(glossary) <==> exists item :: InGlossary(glossary, item) && link == LinkOf(item)
  {
    MapItemsMembers(glossary, LinkOf, link);
  }

  /**
   * Every item of every letter has its link among all terms, each as often as it occurs
   * in the glossary, and the list is ordered by term length, longest first.
   */
  lemma {:induction false} AllTermsCorrect(glossary: Groups<GlossaryItem>, link: TermLink)
    ensures multiset(AllTerms(glossary)) == multiset(TermLinks(glossary))
    ensures SortedDescending(AllTerms(glossary), TermLength)
    ensures link in AllTerms(glossary) <==> exists item :: InGlossary(glossary, item) && link == LinkOf(item)
  {
    TermLinksMembers(glossary, link);
    assert link in AllTerms(glossary) <==> link in multiset(AllTerms(glossary));
  }

  // ---------------------------------------------------------------------------------
  // slugToLetterMap

  /** The `(slug, letter)` pairs the constructor sets, in order, for one letter's items. */
  function LetterPairs(letter: string, items: seq<GlossaryItem>): (ps: seq<(string, string)>)
    ensures |ps| == |items|
  {
    if items == [] then []
    else LetterPairs(letter, items[..|items| - 1]) + [(Slugify(items[|items| - 1].term), letter)]
  }

  function SlugPairs(glossary: Groups<GlossaryItem>): seq<(string, string)> {
    if glossary == [] then []
    else
      var last := glossary[|glossary| - 1];
      SlugPairs(glossary[..|glossary| - 1]) + LetterPairs(last.0, last.1)
  }

  /** The map after `set(k, v)` for each pair in order: later pairs overwrite earlier ones. */
  function MapOf(ps: seq<(string, string)>): map<string, string> {
    if ps == [] then map[]
    else MapOf(ps[..|ps| - 1])[ps[|ps| - 1].0 := ps[|ps| - 1].1]
  }

  function SlugIndex(glossary: Groups<GlossaryItem>): map<string, string> {
    MapOf(SlugPairs(glossary))
  }

  /** Every key of the map was set, to the value of some pair, and every pair's key is set. */
  lemma {:induction false} MapOfPairs(ps: seq<(string, string)>, k: string)
    ensures k in MapOf(ps) <==> exists v :: (k, v) in ps
    ensures k in MapOf(ps) ==> (k, MapOf(ps)[k]) in ps
  {
    if ps != [] {
      var init := ps[..|ps| - 1];
      assert ps == init + [ps[|ps| - 1]];
      MapOfPairs(init, k);
      if k != ps[|ps| - 1].0 && exists v :: (k, v) in ps {
        var v :| (k, v) in ps;
        assert (k, v) in init;
      }
    }
  }

  predicate LetterHasSlug(items: seq<GlossaryItem>, slug: string) {
    exists item :: item in items && Slugify(item.term) == slug
  }

  lemma {:induction false} LetterPairsMembers(letter: string, items: seq<GlossaryItem>, p: (string, string))
    ensures p in LetterPairs(letter, items) <==> p.1 == letter && LetterHasSlug(items, p.0)
  {
    if items != [] {
      var init, last := items[..|items| - 1], items[|items| - 1];
      assert items == init + [last];
      LetterPairsMembers(letter, init, p);
      if p.1 == letter && LetterHasSlug(items, p.0) {
        var item :| item in items && Slugify(item.term) == p.0;
        if item != last {
          assert item in init;
        }
      }
    }
  }

  /** The entry is the pair's letter and holds a term with the pair's slug. */
  predicate LetterHolds(entry: (string, seq<GlossaryItem>), p: (string, string)) {
    entry.0 == p.1 && LetterHasSlug(entry.1, p.0)
  }

  function Holds(p: (string, string)): ((string, seq<GlossaryItem>)) -> bool {
    entry => LetterHolds(entry, p)
  }

  predicate SomeLetterHolds(glossary: Groups<GlossaryItem>, p: (string, string)) {
    exists entry :: entry in glossary && Holds(p)(entry)
  }

  lemma {:induction false} SlugPairsMembers(glossary: Groups<GlossaryItem>, p: (string, string))
    ensures p in SlugPairs(glossary) <==> SomeLetterHolds(glossary, p)
  {
    if glossary != [] {
      var init, last := glossary[..|glossary| - 1], glossary[|glossary| - 1];
      assert SlugPairs(glossary) == SlugPairs(init) + LetterPairs(last.0, last.1);
      SlugPairsMembers(init, p);
      LetterPairsMembers(last.0, last.1, p);
      ExistsSnoc(glossary, Holds(p));
    }
  }

  /**
   * Every glossary term's slug is in the index, and the index maps each slug only to a
   * letter that holds a term with that slug.
   */
  lemma {:induction false} SlugIndexCorrect(glossary: Groups<GlossaryItem>, slug: string)
    ensures slug in SlugIndex(glossary) <==> exists i :: 0 <= i < |glossary| && LetterHasSlug(glossary[i].1, slug)
    ensures slug in SlugIndex(glossary) ==>
      exists i :: 0 <= i < |glossary| && glossary[i].0 == SlugIndex(glossary)[slug] && LetterHasSlug(glossary[i].1, slug)
  {
    var ps := SlugPairs(glossary);
    MapOfPairs(ps, slug);
    if slug in SlugIndex(glossary) {
      var p := (slug, SlugIndex(glossary)[slug]);
      SlugPairsMembers(glossary, p);
      var entry :| entry in glossary && Holds(p)(entry);
      var i :| 0 <= i < |glossary| && glossary[i] == entry;
    }
    if exists i :: 0 <= i < |glossary| && LetterHasSlug(glossary[i].1, slug) {
      var i :| 0 <= i < |glossary| && LetterHasSlug(glossary[i].1, slug);
      var p := (slug, glossary[i].0);
      assert glossary[i] in glossary && Holds(p)(glossary[i]);
      SlugPairsMembers(glossary, p);
    }
  }

  /** The glossary page over a letter → terms dictionary (`Glossary()` in the application). */
  class GlossaryPage {
    const fullGlossary: Groups<GlossaryItem>
    var openAccordion: Option<string>
    var searchTerm: string
    var slugToLetterMap: map<string, string>

    /** Fills the slug → letter index, letter by letter and term by term. */
    constructor(glossary: Groups<GlossaryItem>)
      ensures fullGlossary == glossary && openAccordion == None && searchTerm == ""
      ensures slugToLetterMap == SlugIndex(glossary)
    {
      fullGlossary := glossary;
      openAccordion := None;
      searchTerm := "";
      var index: map<string, string> := map[];
      for i := 0 to |glossary|
        invariant index == MapOf(SlugPairs(glossary[..i]))
      {
        var (letter, items) := glossary[i];
        index := IndexLetter(index, SlugPairs(glossary[..i]), letter, items);
        SlugPairsStep(glossary, i);
      }
      assert glossary[..|glossary|] == glossary;
      slugToLetterMap := index;
    }

    method ToggleAccordion(letter: string)
      modifies this
      ensures openAccordion == ToggleSection(old(openAccordion), letter)
      ensures searchTerm == old(searchTerm) && slugToLetterMap == old(slugToLetterMap)
    {
      openAccordion := ToggleSection(openAccordion, letter);
    }
  }

  /** The constructor's inner loop: sets each of the letter's slugs to the letter, in order. */
  method IndexLetter(index: map<string, string>, ghost before: seq<(string, string)>, letter: string, items: seq<GlossaryItem>)
    returns (r: map<string, string>)
    requires index == MapOf(before)
    ensures r == MapOf(before + LetterPairs(letter, items[..|items|]))
  {
    r := index;
    assert before + LetterPairs(letter, items[..0]) == before;
    for j := 0 to |items|
      invariant r == MapOf(before + LetterPairs(letter, items[..j]))
    {
      r := r[Slugify(items[j].term) := letter];
      PairsStep(before, letter, items, j);
    }
  }

  lemma {:induction false} PairsStep(before: seq<(string, string)>, letter: string, items: seq<GlossaryItem>, j: nat)
    requires j < |items|
    ensures MapOf(before + LetterPairs(letter, items[..j + 1]))
         == MapOf(before + LetterPairs(letter, items[..j]))[Slugify(items[j].term) := letter]
  {
    var a := LetterPairs(letter, items[..j]);
    var pair := (Slugify(items[j].term), letter);
    assert LetterPairs(letter, items[..j + 1]) == a + [pair] by {
      var t := items[..j + 1];
      assert t[..|t| - 1] == items[..j] && t[|t| - 1] == items[j];
    }
    MapOfSnoc(before, a, pair);
  }

  /** Setting one more pair after `before + a`. */
  lemma {:induction false} MapOfSnoc(before: seq<(string, string)>, a: seq<(string, string)>, pair: (string, string))
    ensures MapOf(before + (a + [pair])) == MapOf(before + a)[pair.0 := pair.1]
  {
    var ps := before + (a + [pair]);
    assert ps[..|ps| - 1] == before + a && ps[|ps| - 1] == pair;
  }

  lemma {:induction false} SlugPairsStep(glossary: Groups<GlossaryItem>, i: nat)
    requires i < |glossary|
    ensures SlugPairs(glossary[..i + 1]) == SlugPairs(glossary[..i]) + LetterPairs(glossary[i].0, glossary[i].1[..|glossary[i].1|])
  {
    var g := glossary[..i + 1];
    assert g[..|g| - 1] == glossary[..i] && g[|g| - 1] == glossary[i];
    assert glossary[i].1[..|glossary[i].1|] == glossary[i].1;
  }

  /** Opens the page over the real glossary. */
  method OpenGlossaryPage() returns (page: GlossaryPage)
    ensures fresh(page) && page.fullGlossary == Glossary() && page.openAccordion == None
  {
    page := new GlossaryPage(Glossary());
  }
}
