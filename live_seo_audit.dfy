/**
 * The Live SEO Audit page: a fixed registry of audit checks grouped by category, the
 * set of selected checks, an accordion over the categories, the run state (the run
 * installs a fixed sample report after a delay) and the CSV export of the report.
 */
module LiveSeoAudit {
  import opened Common
  import opened Text
  import opened Collections
  import opened Grouping
  import Csv
  import opened AuditRegistry

  datatype AuditStatus = Idle | Loading | Success | Error

  function CategoryOf(c: AuditCheck): string { c.category }

  // ---------------------------------------------------------------------------------
  // Grouping by category

  /** `groupedChecks`: the registry reduced into an object keyed by category. */
  function GroupedChecks(): Groups<AuditCheck> {
    GroupBy(AuditChecks(), CategoryOf)
  }

  /** `checkCategories = Object.keys(groupedChecks)`. */
  function CheckCategories(): seq<string> {
    Keys(GroupedChecks())
  }

  /** Every check sits in the group of its category, and each group lists its checks in registry order. */
  lemma {:induction false} GroupedChecksMembers(category: string)
    ensures Lookup(GroupedChecks(), category) == Filter(AuditChecks(), HasKey(CategoryOf, category))
  {
    GroupByLookup(AuditChecks(), CategoryOf, category);
  }

  /** The categories are exactly those of the checks. */
  lemma {:induction false} CheckCategoriesComplete()
    ensures forall c :: c in AuditChecks() ==> c.category in CheckCategories()
    ensures forall k :: k in CheckCategories() ==> exists c :: c in AuditChecks() && c.category == k
  {
    GroupByKeys(AuditChecks(), CategoryOf);
  }

  /** The categories are distinct and listed in the order of their first check. */
  lemma {:induction false} CheckCategoriesOrder()
    ensures NoDuplicates(CheckCategories())
    ensures OrderedByFirstItem(AuditChecks(), CategoryOf, CheckCategories())
  {
    GroupByDistinctKeys(AuditChecks(), CategoryOf);
    GroupByKeyOrder(AuditChecks(), CategoryOf);
  }

  // ---------------------------------------------------------------------------------
  // Selection

  /** `allChecksSelected`: the selection is as large as the registry. */
  function AllSelected(selected: set<string>): (all: bool)
    ensures selected <= RegistryIds() ==> (all <==> selected == RegistryIds())
  {
    RegistryIdCount();
    SubsetOfSameSize(selected, RegistryIds());
    |selected| == |AuditChecks()|
  }

  /** A subset as large as its superset is the superset. */
  lemma {:induction false} SubsetOfSameSize<T>(a: set<T>, b: set<T>)
    ensures a <= b ==> (|a| == |b| <==> a == b)
  {
    if a <= b && a != b {
      assert !(b <= a);
      var x :| x in b && x !in a;
      SubsetCardinality(a, b - {x});
    }
  }

  /** The selection the page starts with selects everything. */
  lemma {:induction false} InitiallyAllSelected()
    ensures AllSelected(RegistryIds())
  {
  }

  // ---------------------------------------------------------------------------------
  // CSV export

  const Header: seq<string> := ["Test", "Extra Info", "Details"]

  /** The cells of one exported row: the HTML details are reduced to plain text. */
  function ItemRow(item: ReportItem): seq<string> {
    [item.test, item.extraInfo, Csv.CleanHtml(item.details)]
  }

  /** The line the export writes for one item is the CSV record of its cells. */
  lemma {:induction false} ItemRecord(item: ReportItem)
    ensures Join(",", [Csv.EscapeField(item.test), Csv.EscapeField(item.extraInfo), Csv.EscapeField(Csv.CleanHtml(item.details))])
      == Csv.Record(ItemRow(item))
  {
    var cells := ItemRow(item);
    var escaped := [Csv.EscapeField(cells[0]), Csv.EscapeField(cells[1]), Csv.EscapeField(cells[2])];
    assert Csv.EscapeAll(cells[3..]) == [];
    assert Csv.EscapeAll(cells[2..]) == escaped[2..];
    assert Csv.EscapeAll(cells[1..]) == escaped[1..];
    assert Csv.EscapeAll(cells) == escaped;
    assert Join(",", escaped[1..]) == escaped[1] + "," + escaped[2];
  }

  /** The cells of the items, one row per item, in report order. */
  function ItemRows(items: seq<ReportItem>): (rows: seq<seq<string>>)
    ensures |rows| == |items|
    ensures forall k :: 0 <= k < |items| ==> rows[k] == ItemRow(items[k]) && |rows[k]| == 3
  {
    seq(|items|, k requires 0 <= k < |items| => ItemRow(items[k]))
  }

  /** The CSV record of each item, in report order. */
  function ItemLines(items: seq<ReportItem>): (lines: seq<string>)
    ensures |lines| == |items|
    ensures forall k :: 0 <= k < |items| ==> lines[k] == Csv.Record(ItemRow(items[k]))
  {
    seq(|items|, k requires 0 <= k < |items| => Csv.Record(ItemRow(items[k])))
  }

  /** The table the export writes: the header followed by one row per report item. */
  function ExportRows(items: seq<ReportItem>): seq<seq<string>> {
    [Header] + ItemRows(items)
  }

  /** The lines of the exported file: the joined header, then one CSV record per item. */
  function ExportLines(items: seq<ReportItem>): seq<string> {
    [Join(",", Header)] + ItemLines(items)
  }

  /** The exported file: nothing for an empty report, else its lines joined by line feeds. */
  function ExportCsv(items: seq<ReportItem>): Option<string> {
    if items == [] then None else Some(Join("\n", ExportLines(items)))
  }

  /** Each line of the file is the CSV record of the matching row of the table. */
  lemma {:induction false} LinesAreRecords(header: seq<string>, items: seq<ReportItem>)
    requires forall f :: f in header ==> !Csv.NeedsQuoting(f)
    ensures var lines, rows := [Join(",", header)] + ItemLines(items), [header] + ItemRows(items);
      |lines| == |rows| && forall i :: 0 <= i < |rows| ==> lines[i] == Csv.Record(rows[i])
  {
    assert Join(",", header) == Csv.Record(header) by {
      Csv.EscapeAllPlain(header);
    }
    var lines, rows := ItemLines(items), ItemRows(items);
    assert forall k :: 0 <= k < |rows| ==> lines[k] == Csv.Record(rows[k]);
    Csv.RecordsCons(Join(",", header), header, lines, rows);
  }

  /** Any header that needs no quoting reads back as itself, ahead of the items' cells. */
  lemma {:induction false} ReadsBackWith(header: seq<string>, items: seq<ReportItem>)
    requires |header| >= 1 && forall f :: f in header ==> !Csv.NeedsQuoting(f)
    ensures Csv.ParseDocument(Join("\n", [Join(",", header)] + ItemLines(items))) == Some([header] + ItemRows(items))
  {
    var lines, rows := [Join(",", header)] + ItemLines(items), [header] + ItemRows(items);
    assert forall i :: 0 <= i < |rows| ==> |rows[i]| >= 1;
    LinesAreRecords(header, items);
    Csv.DocumentOfRecordsRoundTrip(lines, rows);
  }

  /** Reading the exported file back gives the header and each item's cells, in report order. */
  lemma {:induction false} ExportCsvReadsBack(items: seq<ReportItem>)
    ensures ExportCsv(items).None? <==> items == []
    ensures items != [] ==> Csv.ParseDocument(ExportCsv(items).value) == Some(ExportRows(items))
  {
    if items != [] {
      assert forall f :: f in Header ==> !Csv.NeedsQuoting(f);
      ReadsBackWith(Header, items);
    }
  }

  // ---------------------------------------------------------------------------------
  // The page

  class LiveSeoAuditPage {
    var url: string
    var status: AuditStatus
    var showReportModal: bool
    var auditReportData: seq<ReportItem>
    var selectedChecks: set<string>
    var openAccordion: Option<string>

    /** Every check starts selected and the first category starts open. */
    constructor()
      ensures url == "" && status == Idle && !showReportModal && auditReportData == []
      ensures selectedChecks == RegistryIds() && openAccordion == Some("Meta & Head")
      ensures AllChecksSelected()
    {
      url := "";
      status := Idle;
      showReportModal := false;
      auditReportData := [];
      selectedChecks := RegistryIds();
      openAccordion := Some("Meta & Head");
    }

    predicate AllChecksSelected()
      reads this
    {
      AllSelected(selectedChecks)
    }

    /** Only registry ids are selected. */
    predicate SelectionValid()
      reads this
    {
      selectedChecks <= RegistryIds()
    }

    /** Checking a box adds its id, unchecking removes it; no other id changes. */
    method ToggleCheck(checkId: string, isChecked: bool)
      modifies this
      ensures checkId in selectedChecks <==> isChecked
      ensures forall x :: x != checkId ==> (x in selectedChecks <==> x in old(selectedChecks))
      ensures checkId in RegistryIds() && old(SelectionValid()) ==> SelectionValid()
      ensures url == old(url) && status == old(status) && showReportModal == old(showReportModal)
      ensures auditReportData == old(auditReportData) && openAccordion == old(openAccordion)
    {
      if isChecked {
        selectedChecks := selectedChecks + {checkId};
      } else {
        selectedChecks := selectedChecks - {checkId};
      }
    }

    method ToggleAccordion(category: string)
      modifies this
      ensures openAccordion == ToggleSection(old(openAccordion), category)
      ensures url == old(url) && status == old(status) && showReportModal == old(showReportModal)
      ensures auditReportData == old(auditReportData) && selectedChecks == old(selectedChecks)
    {
      openAccordion := ToggleSection(openAccordion, category);
    }

    /** Deselects everything when everything is selected, and selects every check otherwise. */
    method ToggleAllChecks()
      modifies this
      ensures old(AllChecksSelected()) ==> selectedChecks == {}
      ensures !old(AllChecksSelected()) ==> selectedChecks == RegistryIds()
      ensures AllChecksSelected() == !old(AllChecksSelected()) && SelectionValid()
      ensures url == old(url) && status == old(status) && showReportModal == old(showReportModal)
      ensures auditReportData == old(auditReportData) && openAccordion == old(openAccordion)
    {
      var shouldSelectAll := !AllChecksSelected();
      if shouldSelectAll {
        selectedChecks := RegistryIds();
      } else {
        selectedChecks := {};
        RegistryIdCount();
      }
    }

    /**
     * Runs the audit: nothing happens for a blank URL or an empty selection; otherwise the
     * page passes through `Loading` with an empty report and ends with the sample report,
     * whichever checks are selected.
     */
    method AnalyzeUrl()
      modifies this
      ensures IsBlank(old(url)) || old(selectedChecks) == {} ==>
        status == old(status) && auditReportData == old(auditReportData)
      ensures !IsBlank(old(url)) && old(selectedChecks) != {} ==>
        status == Success && auditReportData == MockReport()
      ensures url == old(url) && showReportModal == old(showReportModal)
      ensures selectedChecks == old(selectedChecks) && openAccordion == old(openAccordion)
    {
      if IsBlank(url) {
        return;
      }
      if selectedChecks == {} {
        return;
      }
      status := Loading;
      auditReportData := [];
      auditReportData := MockReport();
      status := Success;
    }

    method OpenReportModal()
      modifies this
      ensures showReportModal
      ensures url == old(url) && status == old(status) && auditReportData == old(auditReportData)
      ensures selectedChecks == old(selectedChecks) && openAccordion == old(openAccordion)
    {
      showReportModal := true;
    }

    method CloseReportModal()
      modifies this
      ensures !showReportModal
      ensures url == old(url) && status == old(status) && auditReportData == old(auditReportData)
      ensures selectedChecks == old(selectedChecks) && openAccordion == old(openAccordion)
    {
      showReportModal := false;
    }

    /** Back to an empty, idle page; the selection and the accordion are kept. */
    method Reset()
      modifies this
      ensures url == "" && status == Idle && auditReportData == [] && !showReportModal
      ensures selectedChecks == old(selectedChecks) && openAccordion == old(openAccordion)
    {
      url := "";
      status := Idle;
      auditReportData := [];
      CloseReportModal();
    }

    /** Builds the CSV file of the current report, row by row. */
    method ExportToCsv() returns (csv: Option<string>)
      ensures csv == ExportCsv(auditReportData)
    {
      var reportData := auditReportData;
      if |reportData| == 0 {
        return None;
      }
      var csvRows := [Join(",", Header)];
      var i := 0;
      while i < |reportData|
        invariant 0 <= i <= |reportData|
        invariant |csvRows| == i + 1 && csvRows[0] == Join(",", Header)
        invariant forall k :: 0 <= k < i ==> csvRows[k + 1] == Csv.Record(ItemRow(reportData[k]))
      {
        var item := reportData[i];
        var row := [Csv.EscapeField(item.test), Csv.EscapeField(item.extraInfo), Csv.EscapeField(Csv.CleanHtml(item.details))];
        ItemRecord(item);
        csvRows := csvRows + [Join(",", row)];
        i := i + 1;
      }
      assert csvRows == [Join(",", Header)] + ItemLines(reportData);
      return Some(Join("\n", csvRows));
    }
  }
}
