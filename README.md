# SEO Audit Pro — a verified model of the page logic

SEO Audit Pro is an Angular single-page application with a set of SEO tools. This
project models, in Dafny, the logic behind those tools and proves what the pages and
services promise.

- **Live SEO audit page.**
  - The 38-check registry, grouped by category.
  - Check selection, select-all, the category accordion and the audit request.
  - The CSV export of the audit report, with its HTML cleaning and field escaping.
- **SEO audit checklist.**
  - The checklist grouped by category and the completed-task map.
  - The completed / incomplete / all filter over the grouping (a loop, kept as a method).
  - The progress percentage, task toggling and reset.
- **AI assistant service.**
  - The domain list: trimmed, newest first, no repeats.
  - The saved-chat store: upsert by id, lookup, delete and sort by last update.
- **SEO glossary.**
  - The slug of a term.
  - The slug-to-letter index the constructor builds in a loop, kept as a method.
  - The search over letters and definitions, and the longest-first list of term links.
- **JSON-LD generator.**
  - The four schema forms and their field updates, and the editable FAQ list.
  - The JSON-LD object tree for each schema type.
- **FAQ page.**
  - The case-insensitive search.
  - The toggle, which acts on the first entry with the same question.
- **Content analyzer.**
  - The request state machine around the AI analysis, split at its `await` so a reset can come in between.
  - The CSV report and the score colour.
- **Page speed analyzer.**
  - The request state machine and the rotating loading messages.
  - The score, rating and priority classes.
- **Breadcrumb service.** The trail rebuilt after every navigation.

Pages and services whose signals are updated in place are classes whose methods state
their whole new state. Computed signals and helpers are functions. Loops in the source
(`filteredGroupedChecklist`, the glossary constructor) are methods proved against a
specification function. Every round trip and invariant is a lemma.

Three partner definitions exist only in the model:
- a CSV reader (`Csv.ParseDocument`), used to prove that every export reads back as its table;
- a path lookup on the JSON tree (`JsonLdGenerator.At`);
- an explicit slug grammar (`SeoGlossary.IsSlug`).

Module layout, one file each:
- `Common`, `Text`, `Collections`, `Grouping` and `Csv` are the shared helpers: optional values, trimming and lower-casing, `filter`, `findIndex`, sorting, reduce-into-groups, CSV.
- `AuditRegistry` and `LiveSeoAudit`: the live audit.
- `ChecklistData` and `SeoAuditChecklist`: the checklist.
- `AiAssistant`: the assistant service.
- `GlossaryData` and `SeoGlossary`: the glossary.
- `JsonLdGenerator`, `Faqs`, `ContentAnalyzer`, `PageSpeedAnalyzer` and `Breadcrumbs`: one page or service each.

## Model

| member | source | states |
|---|---|---|
| Common.CaughtMessage | src/pages/content-analyzer/content-analyzer.component.ts:63-65 | the message shown for a failed call is the thrown error's message when there is one, and the fixed fallback otherwise |
| Common.ToggleSection | src/pages/live-seo-audit/live-seo-audit.component.ts:111-113 | after a toggle the section is open exactly when it was not open before; otherwise nothing is open |
| Common.ToggleSectionTwice | src/pages/seo-glossary/seo-glossary.component.ts:141-143 | from a closed accordion, or one showing that section, toggling the same section twice restores the state |
| Text.TrimIsSlice | src/services/ai-assistant.service.ts:47 | `trim` returns a contiguous slice of the input; only whitespace is cut on either side; the result neither starts nor ends with whitespace |
| Text.TrimEmptyIff | src/pages/live-seo-audit/live-seo-audit.component.ts:125 | a string trims to empty exactly when it is all whitespace |
| Text.TrimIdentity | src/services/ai-assistant.service.ts:47 | a string without outer whitespace is its own trim |
| Text.TrimIdempotent | src/services/ai-assistant.service.ts:47 | trimming twice is trimming once |
| Text.Lower | src/pages/faqs/faqs.component.ts:31 | lower-casing keeps the length and maps each character on its own, `A`–`Z` to `a`–`z`, everything else unchanged |
| Text.ContainsAt | src/pages/faqs/faqs.component.ts:36 | `includes` holds whenever the term occurs at some position |
| Text.ContainsWitness | src/pages/faqs/faqs.component.ts:36 | when `includes` holds there is a position at which the term occurs |
| Collections.Filter | src/services/ai-assistant.service.ts:54 | `filter` is never longer than its input, and everything it returns is an input element that passes the test |
| Collections.FilterMembership | src/services/ai-assistant.service.ts:54 | an element is in the filtered list exactly when it is in the input and passes the test |
| Collections.FilterSubMultiset | src/pages/faqs/faqs.component.ts:35-37 | filtering never repeats an element more often than the input does |
| Collections.FilterPartition | src/pages/seo-audit-checklist/seo-audit-checklist.component.ts:46-49 | filtering by a test and by its negation splits the input: together the two results are exactly the input's elements, with multiplicity |
| Collections.FilterAppend | src/pages/seo-audit-checklist/seo-audit-checklist.component.ts:43-56 | filtering a concatenation is concatenating the filtered parts |
| Collections.FindIndex | src/services/ai-assistant.service.ts:73 | `findIndex` is -1 exactly when no element matches, and otherwise the position of the first match |
| Collections.FindIndexFiltered | src/services/ai-assistant.service.ts:84-85 | filtering out only non-matching elements keeps the first match: found after filtering exactly when found before, and the same element |
| Collections.FilterNoDuplicates | src/services/ai-assistant.service.ts:53-55 | filtering a list without repeats gives a list without repeats |
| Collections.InsertDescending | src/services/ai-assistant.service.ts:59 | inserting into a list sorted by descending key gives a sorted list holding exactly the old elements plus the new one |
| Collections.SortDescending | src/services/ai-assistant.service.ts:59 | the sort `(a, b) => b.key - a.key` returns the same elements, with multiplicity, in non-increasing key order |
| Grouping.AddToGroup | src/pages/live-seo-audit/live-seo-audit.component.ts:88 | pushing into `acc[key]` keeps the key order, adding a new key at the end; the key's items gain the new item last; every other key is unchanged |
| Grouping.GroupByLookup | src/pages/live-seo-audit/live-seo-audit.component.ts:87-90 | after the reduce, each key holds exactly the items with that key, in input order |
| Grouping.GroupByKeys | src/pages/live-seo-audit/live-seo-audit.component.ts:87-92 | every item's key is a key of the grouping, and every key of the grouping belongs to some item |
| Grouping.GroupByDistinctKeys | src/pages/live-seo-audit/live-seo-audit.component.ts:87-92 | no key appears twice in the grouping |
| Grouping.GroupByKeyOrder | src/pages/live-seo-audit/live-seo-audit.component.ts:92 | `Object.keys` lists the keys in the order in which their first item appears |
| Grouping.KeptEntry | src/pages/seo-audit-checklist/seo-audit-checklist.component.ts:46-53 | one category after filtering: kept, with its filtered tasks, exactly when some task passes; dropped otherwise |
| Grouping.FilterGroups | src/pages/seo-audit-checklist/seo-audit-checklist.component.ts:43-56 | the filtered grouping has no more categories than the grouping, and none of them is empty |
| Grouping.FilterGroupsStep | src/pages/seo-audit-checklist/seo-audit-checklist.component.ts:44-55 | one loop iteration appends exactly the kept entry of the current category |
| Grouping.FilterGroupsLookup | src/pages/seo-audit-checklist/seo-audit-checklist.component.ts:44-53 | in the filtered grouping each category holds exactly its tasks that pass the test |
| Grouping.FilterGroupsKeys | src/pages/seo-audit-checklist/seo-audit-checklist.component.ts:51-53 | a category survives filtering exactly when it existed and at least one of its tasks passes |
| Grouping.FilterGroupsDistinct | src/pages/seo-audit-checklist/seo-audit-checklist.component.ts:43-56 | filtering never repeats a category |
| Grouping.MapItemsMembers | src/pages/seo-glossary/seo-glossary.component.ts:63-67 | the flattened, mapped list holds exactly the images of the items of all groups |
| Csv.DoubleQuotesMembers | src/pages/live-seo-audit/live-seo-audit.component.ts:235 | doubling quotes adds no new kind of character and loses none |
| Csv.EscapeField | src/pages/live-seo-audit/live-seo-audit.component.ts:234-240 | a field without comma, quote or line feed is written as is; any other field is wrapped in quotes and changed |
| Csv.HalveDoubleQuotes | src/pages/live-seo-audit/live-seo-audit.component.ts:235 | collapsing doubled quotes undoes the `"` to `""` replacement |
| Csv.EscapeRoundTrip | src/pages/live-seo-audit/live-seo-audit.component.ts:234-240 | unescaping an escaped field gives the field back, so escaping loses nothing |
| Csv.CollapseWhitespace | src/pages/live-seo-audit/live-seo-audit.component.ts:231 | collapsing whitespace keeps a non-empty text non-empty and keeps a non-whitespace first character |
| Csv.StripTagsTagFree | src/pages/live-seo-audit/live-seo-audit.component.ts:231 | after `replace(/<[^>]*>/g, ' ')` no complete tag is left |
| Csv.StripTagsIdentity | src/pages/live-seo-audit/live-seo-audit.component.ts:231 | text with no tag is left as is |
| Csv.CollapseNoAdjacent | src/pages/live-seo-audit/live-seo-audit.component.ts:231 | after `replace(/\s\s+/g, ' ')` no two whitespace characters are adjacent; a single tab or line feed stays |
| Csv.CollapseIdentity | src/pages/live-seo-audit/live-seo-audit.component.ts:231 | text without adjacent whitespace is left as is |
| Csv.CleanHtmlShape | src/pages/live-seo-audit/live-seo-audit.component.ts:229-232 | cleaned HTML has no tag, no run of whitespace, and no leading or trailing whitespace |
| Csv.CleanHtmlIdempotent | src/pages/live-seo-audit/live-seo-audit.component.ts:229-232 | cleaning already-cleaned text changes nothing |
| Csv.EscapeAllPlain | src/pages/live-seo-audit/live-seo-audit.component.ts:249-250 | header fields that need no quoting are written unchanged |
| Csv.ParseFieldRoundTrip | src/pages/live-seo-audit/live-seo-audit.component.ts:234-240 | a CSV reader reads any escaped field back as the original field, stopping at the following comma, line feed or end |
| Csv.ParseRecordRoundTrip | src/pages/live-seo-audit/live-seo-audit.component.ts:258 | a line of escaped fields joined by commas reads back as exactly those fields |
| Csv.DocumentOfRecordsRoundTrip | src/pages/live-seo-audit/live-seo-audit.component.ts:261 | lines joined by line feeds read back as their rows, in order |
| Csv.DocumentRoundTrip | src/pages/content-analyzer/content-analyzer.component.ts:142 | any non-empty table written as escaped CSV reads back as exactly that table |
| AuditRegistry.AuditChecks | src/pages/live-seo-audit/live-seo-audit.component.ts:19-65 | the registry holds 38 checks |
| AuditRegistry.RegistryIdsDistinct | src/pages/live-seo-audit/live-seo-audit.component.ts:19-65 | no two checks of the registry share an id |
| AuditRegistry.RegistryIdCount | src/pages/live-seo-audit/live-seo-audit.component.ts:81 | the set of check ids has 38 members, one per check |
| LiveSeoAudit.GroupedChecksMembers | src/pages/live-seo-audit/live-seo-audit.component.ts:87-90 | `groupedChecks[category]` is exactly the registry's checks of that category, in registry order |
| LiveSeoAudit.CheckCategoriesComplete | src/pages/live-seo-audit/live-seo-audit.component.ts:92 | every check's category is listed, and every listed category has a check |
| LiveSeoAudit.CheckCategoriesOrder | src/pages/live-seo-audit/live-seo-audit.component.ts:92 | categories are listed once each, in order of first appearance in the registry |
| LiveSeoAudit.AllSelected | src/pages/live-seo-audit/live-seo-audit.component.ts:94-96 | for a selection of registry ids, comparing its size with the registry size is the same as comparing the selection with the full id set |
| LiveSeoAudit.InitiallyAllSelected | src/pages/live-seo-audit/live-seo-audit.component.ts:81 | the initial selection counts as all selected |
| LiveSeoAudit.ItemRecord | src/pages/live-seo-audit/live-seo-audit.component.ts:253-258 | each report line is the CSV record of the item's test, extra info and cleaned details |
| LiveSeoAudit.LinesAreRecords | src/pages/live-seo-audit/live-seo-audit.component.ts:249-259 | the header line and every item line are CSV records of the corresponding rows |
| LiveSeoAudit.ReadsBackWith | src/pages/live-seo-audit/live-seo-audit.component.ts:249-261 | the header plus item lines, joined by line feeds, read back as the header row followed by one row per item |
| LiveSeoAudit.ExportCsvReadsBack | src/pages/live-seo-audit/live-seo-audit.component.ts:242-261 | there is no export exactly when the report is empty; otherwise the export reads back as the header and the rows of the report, whatever commas, quotes, line feeds or tags the cells hold |
| LiveSeoAudit.LiveSeoAuditPage.constructor | src/pages/live-seo-audit/live-seo-audit.component.ts:75-84 | the page starts idle with no URL and no report; every check is selected; the `Meta & Head` section is open |
| LiveSeoAudit.LiveSeoAuditPage.ToggleCheck | src/pages/live-seo-audit/live-seo-audit.component.ts:98-109 | the check is selected exactly when the box is now checked; other selections and the rest of the page are unchanged; the selection stays within the registry |
| LiveSeoAudit.LiveSeoAuditPage.ToggleAccordion | src/pages/live-seo-audit/live-seo-audit.component.ts:111-113 | the open section toggles; nothing else changes |
| LiveSeoAudit.LiveSeoAuditPage.ToggleAllChecks | src/pages/live-seo-audit/live-seo-audit.component.ts:115-122 | select-all clears a full selection and otherwise selects every check, so `allChecksSelected` flips |
| LiveSeoAudit.LiveSeoAuditPage.AnalyzeUrl | src/pages/live-seo-audit/live-seo-audit.component.ts:124-211 | a blank URL or an empty selection changes nothing; otherwise the audit succeeds with the fixed report |
| LiveSeoAudit.LiveSeoAuditPage.OpenReportModal | src/pages/live-seo-audit/live-seo-audit.component.ts:214-216 | the modal is shown; nothing else changes |
| LiveSeoAudit.LiveSeoAuditPage.CloseReportModal | src/pages/live-seo-audit/live-seo-audit.component.ts:218-220 | the modal is hidden; nothing else changes |
| LiveSeoAudit.LiveSeoAuditPage.Reset | src/pages/live-seo-audit/live-seo-audit.component.ts:222-227 | back to idle with no URL, no report and the modal closed; the selection and the open section are kept |
| LiveSeoAudit.LiveSeoAuditPage.ExportToCsv | src/pages/live-seo-audit/live-seo-audit.component.ts:242-261 | the export is the CSV of the current report, which reads back by `ExportCsvReadsBack` |
| SeoAuditChecklist.FilteredViewCorrect | src/pages/seo-audit-checklist/seo-audit-checklist.component.ts:34-57 | the `all` filter shows the grouping unchanged; any other filter shows under each category exactly its tasks of the wanted status, and only the categories that have one |
| SeoAuditChecklist.FilteredGroupingLookup | src/pages/seo-audit-checklist/seo-audit-checklist.component.ts:27-57 | a category of the filtered view holds exactly the checklist's tasks of that category and of the wanted status, in checklist order |
| SeoAuditChecklist.ViewsPartition | src/pages/seo-audit-checklist/seo-audit-checklist.component.ts:46-49 | in each category the completed view and the incomplete view together hold exactly the category's tasks |
| SeoAuditChecklist.Toggled | src/pages/seo-audit-checklist/seo-audit-checklist.component.ts:98-103 | toggling flips the task's completion and leaves every other entry of the map as it was |
| SeoAuditChecklist.ToggleTwice | src/pages/seo-audit-checklist/seo-audit-checklist.component.ts:98-103 | toggling a task twice restores every task's completion |
| SeoAuditChecklist.ToggleCount | src/pages/seo-audit-checklist/seo-audit-checklist.component.ts:61-63 | toggling a completed task lowers the completed count by one; toggling any other task raises it by one |
| SeoAuditChecklist.PercentageRounds | src/pages/seo-audit-checklist/seo-audit-checklist.component.ts:65-68 | the percentage is the exact quotient completed/total × 100 rounded to the nearest whole number, halves up (see Left out on floating point); it is 0 with nothing done, 100 with everything done, and never above 100 |
| SeoAuditChecklist.PercentageClearOfHalf | src/pages/seo-audit-checklist/seo-audit-checklist.component.ts:65-68 | with an odd number of tasks, as on the page's 47-task list, the exact quotient never lies on a half; it is at least 1/(2·total) from both rounding boundaries |
| SeoAuditChecklist.ResetClearsProgress | src/pages/seo-audit-checklist/seo-audit-checklist.component.ts:105-107 | after a reset no task is completed and the progress is 0% |
| SeoAuditChecklist.ChecklistPage.constructor | src/pages/seo-audit-checklist/seo-audit-checklist.component.ts:20-32 | the page starts with nothing completed, the `all` filter, the task count and the checklist grouped by category |
| SeoAuditChecklist.ChecklistPage.ToggleTask | src/pages/seo-audit-checklist/seo-audit-checklist.component.ts:98-103 | the completion map becomes the toggled map; the filter is kept |
| SeoAuditChecklist.ChecklistPage.ResetProgress | src/pages/seo-audit-checklist/seo-audit-checklist.component.ts:105-107 | the completion map is emptied, so progress is 0; the filter is kept |
| SeoAuditChecklist.ChecklistPage.SetFilter | src/pages/seo-audit-checklist/seo-audit-checklist.component.ts:109-111 | the filter is set; progress is kept |
| SeoAuditChecklist.ChecklistPage.FilteredGroupedChecklist | src/pages/seo-audit-checklist/seo-audit-checklist.component.ts:34-57 | the loop over categories computes the filtered view, whose meaning is `FilteredViewCorrect` |
| SeoAuditChecklist.OpenChecklistPage | src/pages/seo-audit-checklist/seo-audit-checklist.component.ts:24 | the page opened on the site's checklist counts all of its tasks, none of them completed |
| AiAssistant.WithDomain | src/services/ai-assistant.service.ts:46-51 | the trimmed domain is put in front exactly when it is non-empty and not yet listed; otherwise the list is unchanged |
| AiAssistant.WithDomainValid | src/services/ai-assistant.service.ts:46-51 | adding a domain keeps the list free of repeats, of empty entries and of untrimmed entries |
| AiAssistant.RemoveDomainCorrect | src/services/ai-assistant.service.ts:53-55 | removal drops every copy of the domain, keeps every other domain, and keeps the list valid |
| AiAssistant.FindChat | src/services/ai-assistant.service.ts:62-64 | a lookup finds nothing exactly when no chat has the id, and otherwise the first stored chat with that id |
| AiAssistant.Upserted | src/services/ai-assistant.service.ts:72-80 | the saved chat is stored and the list grows by at most one; a new id goes in front |
| AiAssistant.UpsertedReplacesFirst | src/services/ai-assistant.service.ts:73-77 | an existing id replaces the first chat with that id, in place |
| AiAssistant.SaveThenFind | src/services/ai-assistant.service.ts:66-82 | looking up a chat right after saving it finds exactly what was saved |
| AiAssistant.SaveKeepsOthers | src/services/ai-assistant.service.ts:72-80 | saving a chat does not change what a lookup of any other id finds |
| AiAssistant.DeleteThenFind | src/services/ai-assistant.service.ts:84-86 | after deleting an id no chat with it is found |
| AiAssistant.DeleteKeepsOthers | src/services/ai-assistant.service.ts:84-86 | deleting an id does not change what a lookup of any other id finds |
| AiAssistant.AiAssistantService.constructor | src/services/ai-assistant.service.ts:18-19 | the store starts with no domains and no chats |
| AiAssistant.AiAssistantService.AddDomain | src/services/ai-assistant.service.ts:46-51 | the domain list becomes `WithDomain` of the old one and stays valid; chats are untouched |
| AiAssistant.AiAssistantService.RemoveDomain | src/services/ai-assistant.service.ts:53-55 | the domain list is filtered and stays valid; chats are untouched |
| AiAssistant.AiAssistantService.GetSortedChats | src/services/ai-assistant.service.ts:58-60 | the stored chats are sorted in place, most recently updated first, and returned |
| AiAssistant.AiAssistantService.SaveChat | src/services/ai-assistant.service.ts:66-82 | the chat is stamped with the given time, upserted and returned, and `getChat` then finds it |
| AiAssistant.AiAssistantService.DeleteChat | src/services/ai-assistant.service.ts:84-86 | every chat with the id is removed and `getChat` then finds none |
| SeoGlossary.StripNonWord | src/pages/seo-glossary/seo-glossary.component.ts:94 | removing non-word characters leaves only word characters, spaces and hyphens, all taken from the input |
| SeoGlossary.CollapseSeparators | src/pages/seo-glossary/seo-glossary.component.ts:96 | runs of spaces, underscores and hyphens become one hyphen: the result holds hyphens and input characters that are not separators, never two hyphens in a row |
| SeoGlossary.SlugifyIsSlug | src/pages/seo-glossary/seo-glossary.component.ts:92-97 | every slug consists of lower-case ASCII letters, digits and hyphens, never two hyphens in a row and no whitespace; a leading or trailing hyphen can remain (`a -` gives `a-`) |
| SeoGlossary.SlugifyIdempotent | src/pages/seo-glossary/seo-glossary.component.ts:92-97 | slugifying a slug gives the same slug |
| SeoGlossary.SlugFixed | src/pages/seo-glossary/seo-glossary.component.ts:92-97 | a string that is already a slug is its own slug |
| SeoGlossary.FilteredGlossaryCorrect | src/pages/seo-glossary/seo-glossary.component.ts:33-57 | a blank search shows the whole glossary; otherwise each letter shows exactly its terms whose lower-cased term or definition contains the trimmed, lower-cased query, and only letters with a match are shown |
| SeoGlossary.TermLinksMembers | src/pages/seo-glossary/seo-glossary.component.ts:60-67 | the term links are exactly the (term, slug) links of the glossary's items |
| SeoGlossary.AllTermsCorrect | src/pages/seo-glossary/seo-glossary.component.ts:60-69 | `allTerms` holds the same links, with multiplicity, sorted longest term first |
| SeoGlossary.MapOfPairs | src/pages/seo-glossary/seo-glossary.component.ts:26 | the map built by successive `set` calls has a key exactly when some pair has it, and maps it to a value of one of its pairs |
| SeoGlossary.LetterPairsMembers | src/pages/seo-glossary/seo-glossary.component.ts:25-27 | one letter's inner loop records exactly its items' slugs, each mapped to that letter |
| SeoGlossary.SlugPairsMembers | src/pages/seo-glossary/seo-glossary.component.ts:23-29 | the outer loop records a pair exactly when some letter has an item with that slug |
| SeoGlossary.SlugIndexCorrect | src/pages/seo-glossary/seo-glossary.component.ts:20-30 | a slug is indexed exactly when some term has it, and it is mapped to a letter that holds such a term |
| SeoGlossary.IndexLetter | src/pages/seo-glossary/seo-glossary.component.ts:25-27 | the inner loop's map updates build the map of the pairs recorded so far plus this letter's pairs |
| SeoGlossary.GlossaryPage.constructor | src/pages/seo-glossary/seo-glossary.component.ts:14-30 | the page starts on the glossary, with no open letter and an empty search, and its slug index is `SlugIndex` of the glossary |
| SeoGlossary.GlossaryPage.ToggleAccordion | src/pages/seo-glossary/seo-glossary.component.ts:141-143 | the open letter toggles; the search and the index are kept |
| SeoGlossary.OpenGlossaryPage | src/pages/seo-glossary/seo-glossary.component.ts:14 | the page opened on the site's glossary starts with no open letter |
| JsonLdGenerator.WithArticleField | src/pages/json-ld-generator/json-ld-generator.component.ts:102-104 | updating one article field sets that field and keeps every other one |
| JsonLdGenerator.WithProductField | src/pages/json-ld-generator/json-ld-generator.component.ts:106-108 | updating one product field sets that field and keeps every other one |
| JsonLdGenerator.WithBusinessField | src/pages/json-ld-generator/json-ld-generator.component.ts:110-112 | updating one business field sets that field and keeps every other one |
| JsonLdGenerator.AddedFaq | src/pages/json-ld-generator/json-ld-generator.component.ts:114-116 | adding a FAQ appends one empty question and keeps the others in place |
| JsonLdGenerator.RemoveFaqCorrect | src/pages/json-ld-generator/json-ld-generator.component.ts:118-120 | removing at a valid position deletes exactly that entry and keeps the order; any other position changes nothing |
| JsonLdGenerator.UpdatedFaq | src/pages/json-ld-generator/json-ld-generator.component.ts:122-128 | updating one field of one FAQ sets it, keeps its other field and every other FAQ |
| JsonLdGenerator.ContextAndType | src/pages/json-ld-generator/json-ld-generator.component.ts:34-38 | every generated object has `@context` `https://schema.org` and `@type` the selected schema's name |
| JsonLdGenerator.ArticleAuthor | src/pages/json-ld-generator/json-ld-generator.component.ts:41-52 | an Article carries the headline and a `Person` author with the form's author name |
| JsonLdGenerator.ProductOffer | src/pages/json-ld-generator/json-ld-generator.component.ts:54-73 | a Product's offer links to the page URL and carries the form's currency, the form's price and in-stock availability |
| JsonLdGenerator.ProductBrand | src/pages/json-ld-generator/json-ld-generator.component.ts:54-65 | a Product carries the SKU and a `Brand` with the form's brand name |
| JsonLdGenerator.FaqMainEntity | src/pages/json-ld-generator/json-ld-generator.component.ts:75-83 | a FAQPage's main entity has one `Question` per FAQ, in order, each with its question as name and its answer as accepted answer text |
| JsonLdGenerator.LocalBusinessAddress | src/pages/json-ld-generator/json-ld-generator.component.ts:85-96 | a LocalBusiness carries a `PostalAddress` with the form's street address, and the form's price range |
| JsonLdGenerator.JsonLdGeneratorPage.constructor | src/pages/json-ld-generator/json-ld-generator.component.ts:22-29 | the page starts on Article with empty forms, currency `USD`, price range `$$` and one empty FAQ |
| JsonLdGenerator.JsonLdGeneratorPage.UpdateArticle | src/pages/json-ld-generator/json-ld-generator.component.ts:102-104 | only the article form changes, by one field |
| JsonLdGenerator.JsonLdGeneratorPage.UpdateProduct | src/pages/json-ld-generator/json-ld-generator.component.ts:106-108 | only the product form changes, by one field |
| JsonLdGenerator.JsonLdGeneratorPage.UpdateLocalBusiness | src/pages/json-ld-generator/json-ld-generator.component.ts:110-112 | only the business form changes, by one field |
| JsonLdGenerator.JsonLdGeneratorPage.AddFaq | src/pages/json-ld-generator/json-ld-generator.component.ts:114-116 | only the FAQ list changes, gaining an empty entry at the end |
| JsonLdGenerator.JsonLdGeneratorPage.RemoveFaq | src/pages/json-ld-generator/json-ld-generator.component.ts:118-120 | the FAQ at a valid position is deleted, and nothing changes for any other position |
| JsonLdGenerator.JsonLdGeneratorPage.UpdateFaq | src/pages/json-ld-generator/json-ld-generator.component.ts:122-128 | one field of one FAQ is updated; the forms are kept |
| Faqs.FilteredFaqsCorrect | src/pages/faqs/faqs.component.ts:30-38 | an empty search shows every entry; any other search shows exactly the entries whose lower-cased question or answer contains the lower-cased term, never more often than they occur |
| Faqs.ToggledFaqs | src/pages/faqs/faqs.component.ts:40-50 | toggling keeps the number of entries |
| Faqs.ToggleFaqCorrect | src/pages/faqs/faqs.component.ts:40-50 | for a position in the view, the first entry carrying the question shown there exists and is the only entry flipped |
| Faqs.FilterIgnoresOpen | src/pages/faqs/faqs.component.ts:35-37 | the search looks only at questions and answers, so open flags never change what is shown |
| Faqs.ToggleFaqTwice | src/pages/faqs/faqs.component.ts:40-50 | toggling the same position twice restores the list |
| Faqs.ToggleDuplicate | src/pages/faqs/faqs.component.ts:26-27 | with two entries sharing a question, toggling the later one flips the earlier one and leaves the later one as it was |
| Faqs.FaqsPage.constructor | src/pages/faqs/faqs.component.ts:19-28 | the page starts with an empty search on the given list |
| Faqs.FaqsPage.ToggleFaq | src/pages/faqs/faqs.component.ts:40-50 | the list becomes `ToggledFaqs` of the current list, search and position |
| Faqs.OpenFaqsPage | src/pages/faqs/faqs.component.ts:21-28 | the page opens on its six fixed entries with an empty search |
| ContentAnalyzer.ScoreColor | src/pages/content-analyzer/content-analyzer.component.ts:206-210 | green from 70, yellow from 40 below 70, red below 40, each exactly on its range |
| ContentAnalyzer.ScoreColorMonotone | src/pages/content-analyzer/content-analyzer.component.ts:206-210 | a higher score never gets a worse colour |
| ContentAnalyzer.CsvReportReadsBack | src/pages/content-analyzer/content-analyzer.component.ts:130-156 | without a report the export is empty; otherwise it reads back as exactly the content report's table, or else the comparative one's |
| ContentAnalyzer.ContentAnalyzerPage.constructor | src/pages/content-analyzer/content-analyzer.component.ts:19-33 | the page starts idle with empty inputs, no reports and competitor mode off |
| ContentAnalyzer.ContentAnalyzerPage.Analyze | src/pages/content-analyzer/content-analyzer.component.ts:35-47 | the part of `analyze` before its `await`: loading starts with reports and error cleared; competitor mode with a blank URL fails at once and loading ends; otherwise the call the mode makes is returned, pending, and inputs are kept |
| ContentAnalyzer.ContentAnalyzerPage.ReceiveContentResult | src/pages/content-analyzer/content-analyzer.component.ts:55-69 | whenever the content analysis settles, whatever happened meanwhile: a report is stored with success, no data gives the content no-data error, a thrown error shows its message; loading ends; the comparative report and the inputs are kept |
| ContentAnalyzer.ContentAnalyzerPage.ReceiveComparativeResult | src/pages/content-analyzer/content-analyzer.component.ts:47-69 | the same for the comparative analysis, with its own no-data message; the content report and the inputs are kept |
| ContentAnalyzer.ContentAnalyzerPage.AnalyzeToCompletion | src/pages/content-analyzer/content-analyzer.component.ts:35-70 | a whole `analyze` with nothing in between: loading always ends, in success with exactly the mode's one report, or in error with no report and the message of the failing step |
| ContentAnalyzer.ContentAnalyzerPage.ResetWhilePending | src/pages/content-analyzer/content-analyzer.component.ts:35-82 | a `reset` during the `await` does not cancel the call: the arriving report is shown with success on the cleared form |
| ContentAnalyzer.ContentAnalyzerPage.Reset | src/pages/content-analyzer/content-analyzer.component.ts:72-82 | everything is cleared, so the CSV export is empty |
| PageSpeedAnalyzer.ScoreColor | src/pages/page-speed-analyzer/page-speed-analyzer.component.ts:80-84 | green from 90, yellow from 50 below 90, red below 50, each exactly on its range |
| PageSpeedAnalyzer.ScoreColorMonotone | src/pages/page-speed-analyzer/page-speed-analyzer.component.ts:80-84 | a higher score never gets a worse colour |
| PageSpeedAnalyzer.RatingBadgeClass | src/pages/page-speed-analyzer/page-speed-analyzer.component.ts:86-93 | each of the three ratings gets its badge; any other text gets the grey default |
| PageSpeedAnalyzer.PriorityClass | src/pages/page-speed-analyzer/page-speed-analyzer.component.ts:95-102 | each of the three priorities gets its class; any other text gets the grey default |
| PageSpeedAnalyzer.LoadingMessagesRotate | src/pages/page-speed-analyzer/page-speed-analyzer.component.ts:58-65 | the rotation starts at the first message, shows the five messages in order, and repeats every five ticks |
| PageSpeedAnalyzer.PageSpeedAnalyzerPage.constructor | src/pages/page-speed-analyzer/page-speed-analyzer.component.ts:18-30 | the page starts idle with no URL, report or error, showing the first message, with no interval running |
| PageSpeedAnalyzer.PageSpeedAnalyzerPage.AnalyzeUrl | src/pages/page-speed-analyzer/page-speed-analyzer.component.ts:33-39 | a blank URL changes nothing; otherwise loading starts with report and error cleared and the first message shown |
| PageSpeedAnalyzer.PageSpeedAnalyzerPage.StartLoadingMessages | src/pages/page-speed-analyzer/page-speed-analyzer.component.ts:58-65 | the first message is shown and the interval starts counting |
| PageSpeedAnalyzer.PageSpeedAnalyzerPage.Tick | src/pages/page-speed-analyzer/page-speed-analyzer.component.ts:61-64 | while the interval runs each tick shows the next message of the rotation; once it is cleared nothing changes |
| PageSpeedAnalyzer.PageSpeedAnalyzerPage.ReceiveResult | src/pages/page-speed-analyzer/page-speed-analyzer.component.ts:41-55 | a report means success with that report; no data means the no-data error; a thrown error shows its message or the fallback; the interval is cleared in every case |
| PageSpeedAnalyzer.PageSpeedAnalyzerPage.Reset | src/pages/page-speed-analyzer/page-speed-analyzer.component.ts:73-78 | back to idle with no URL, report or error |
| Breadcrumbs.TrailCorrect | src/services/breadcrumb.service.ts:19-38 | with no child route the trail is empty. Otherwise the Dashboard crumb comes first exactly when the path is neither `dashboard` nor empty, and the label crumb at `/` + path comes last exactly when the route has a label. At most two crumbs, every url absolute, no url twice |
| Breadcrumbs.BreadcrumbService.constructor | src/services/breadcrumb.service.ts:13 | the trail starts empty |
| Breadcrumbs.BreadcrumbService.OnNavigationEnd | src/services/breadcrumb.service.ts:18-39 | after a navigation the published trail is `Trail` of the first child route |

## Left out

- I/O is not modelled:
  - `localStorage` loading and saving in the checklist and the assistant service;
  - downloads (`Blob`, object URLs, anchors), `window.print`, `alert` and the clipboard;
  - `window.open` and scrolling into view.
  - These have no logic beyond the browser call.
- Timers become explicit steps:
  - The live audit's `setTimeout` delay is not modelled; its request goes straight to the result.
  - The page speed page's `setInterval` is modelled as explicit `Tick` calls.
  - The JSON-LD page's copy-button timeout is not modelled.
- The AI service calls (`GeminiService`) are not part of this model. Their outcome (a report, no data, or a thrown error) is a parameter of the methods that resume after the `await` (`ReceiveContentResult`, `ReceiveComparativeResult`, `ReceiveResult`). The page speed report's shape is a type parameter.
- The live audit's `alert` for an empty selection is not modelled; that path changes no state and the model shows that.
- Number formatting (`toFixed`) in the content report is not modelled; report numbers are carried as the text the page prints.
- `JSON.stringify` and JSON member order are not modelled; the generated JSON-LD is an object tree, checked by path.
- `window.location.href`, used in the Product offer, is the parameter `pageUrl`.
- `linkifyDefinition` and `processedGlossary`'s HTML rewriting are not modelled: the regular-expression replacement over HTML is out of scope. The link list it relies on (`allTerms`) is modelled.
- The content analyzer's plain-text report, `getSentimentClass` and `getProminenceClass` are not modelled. They only build display strings and class names.
- SeoAuditChecklist.Percentage: computed on exact rationals. The page computes `Math.round((c / t) * 100)` in binary floating point, which can land just below an exact half and round down. For example, 23 of 40 gives 57.49999999999999, so the page shows 57 where the model gives 58. With the page's 47 tasks, `PercentageClearOfHalf` keeps every exact quotient at least 1/94 away from a half, so this case cannot arise there. The floating-point error bound itself is not modelled.
- PageSpeedAnalyzer.PageSpeedAnalyzerPage.AnalyzeUrl: one interval at a time. A second `analyzeUrl` while one is loading replaces the stored interval handle without clearing the first interval, which keeps rotating the message. The single tick counter cannot show two overlapping intervals.
- SeoGlossary.TermLength: counts characters, while JavaScript's `length` counts UTF-16 code units. They differ only for characters outside the Basic Multilingual Plane, which no glossary term contains.
- Text.Lower: `toLowerCase` is modelled on ASCII letters only; other characters are unchanged.
- Faqs.ToggledFaqs: an index outside the view makes the source throw before the list changes; the model returns the list unchanged.
- Faqs.ToggleDuplicate: stated for any list with a repeated question. It is not instantiated on the page's own six entries, because evaluating the long literal answers is too costly for the solver.
- JsonLdGenerator.JsonLdGeneratorPage.UpdateFaq: requires an index inside the list. For any other index the source writes a partial FAQ object or leaves holes, which the FAQ type cannot represent.
- AiAssistant.AiAssistantService.GetSortedChats: the in-place `Array.prototype.sort` is modelled by reassigning the chat list with a sorted copy. Which of two chats with the same stamp comes first is not specified.
- Angular's signal and change-detection machinery, routing configuration and templates are not modelled.
