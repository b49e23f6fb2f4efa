/**
 * The content analyzer page: a request state machine around an AI analysis of the
 * user's text (optionally against a competitor's page), the CSV export of the report
 * and the score colour. The AI service's outcome is a parameter; report numbers are
 * carried as the text the page prints for them.
 */
module ContentAnalyzer {
  import opened Common
  import opened Text
  import opened Csv

  datatype AnalysisStatus = Idle | Loading | Success | Error

  /** The service call `analyze` awaits, if any. */
  datatype PendingCall = NoCall | ContentCall | ComparativeCall

  /** A content report's cells, numbers as the page formats them. */
  datatype ContentReport = ContentReport(
    overallScore: string, readabilityScore: string, readabilityLevel: string,
    sentimentLabel: string, sentimentScore: string,
    keyword: string, keywordCount: string, keywordDensity: string)

  datatype SideAnalysis = SideAnalysis(readabilityScore: string, sentimentLabel: string, keywordDensity: string)
  datatype ComparativeReport = ComparativeReport(user: SideAnalysis, competitor: SideAnalysis)

  const CompetitorUrlRequired := "Competitor URL is required for comparative analysis."
  const NoComparativeData := "The comparative analysis returned no data."
  const NoContentData := "The content analysis returned no data."
  const UnknownError := "An unknown error occurred during analysis."

  // ---------------------------------------------------------------------------------
  // Score colour

  /** `getScoreColor`: green from 70, yellow from 40, red below. */
  function ScoreColor(score: real): (c: string)
    ensures c == TextGreen <==> score >= 70.0
    ensures c == TextYellow <==> 40.0 <= score < 70.0
    ensures c == TextRed <==> score < 40.0
  {
    if score >= 70.0 then TextGreen
    else if score >= 40.0 then TextYellow
    else TextRed
  }

  /** A higher score never gets a worse colour. */
  lemma {:induction false} ScoreColorMonotone(a: real, b: real)
    requires a <= b
    ensures ColorRank(ScoreColor(a)) <= ColorRank(ScoreColor(b))
  {
  }

  // ---------------------------------------------------------------------------------
  // CSV report

  function ContentRows(r: ContentReport): seq<seq<string>> {
    [["Metric", "Value", "Details"],
     ["Overall Score", r.overallScore, ""],
     ["Readability Score", r.readabilityScore, r.readabilityLevel],
     ["Sentiment Label", r.sentimentLabel, "Score: " + r.sentimentScore],
     ["Target Keyword", r.keyword, ""],
     ["Keyword Count", r.keywordCount, ""],
     ["Keyword Density (%)", r.keywordDensity, ""]]
  }

  function ComparativeRows(r: ComparativeReport): seq<seq<string>> {
    [["Metric", "Your Content", "Competitor Content"],
     ["Readability Score", r.user.readabilityScore, r.competitor.readabilityScore],
     ["Sentiment", r.user.sentimentLabel, r.competitor.sentimentLabel],
     ["Keyword Density (%)", r.user.keywordDensity, r.competitor.keywordDensity]]
  }

  /** `generateCsvReport`: the content report if there is one, else the comparative one, else nothing. */
  function CsvReport(content: Option<ContentReport>, comparative: Option<ComparativeReport>): string {
    if content.Some? then Document(ContentRows(content.value))
    else if comparative.Some? then Document(ComparativeRows(comparative.value))
    else ""
  }

  /**
   * Without a report the export is empty. With one, reading the export back as CSV gives
   * exactly the report's table, whatever commas, quotes or line feeds its cells hold.
   */
  lemma {:induction false} CsvReportReadsBack(content: Option<ContentReport>, comparative: Option<ComparativeReport>)
    ensures content.None? && comparative.None? ==> CsvReport(content, comparative) == ""
    ensures content.Some? ==> ParseDocument(CsvReport(content, comparative)) == Some(ContentRows(content.value))
    ensures content.None? && comparative.Some? ==>
      ParseDocument(CsvReport(content, comparative)) == Some(ComparativeRows(comparative.value))
  {
    if content.Some? {
      DocumentRoundTrip(ContentRows(content.value));
    } else if comparative.Some? {
      DocumentRoundTrip(ComparativeRows(comparative.value));
    }
  }

  // ---------------------------------------------------------------------------------
  // The page

  class ContentAnalyzerPage {
    var status: AnalysisStatus
    var isLoading: bool
    var errorMessage: string
    var showCompetitorAnalysis: bool
    var contentText: string
    var contentKeyword: string
    var competitorUrl: string
    var contentReport: Option<ContentReport>
    var comparativeReport: Option<ComparativeReport>

    predicate Cleared()
      reads this
    {
      && status == Idle && !isLoading && errorMessage == ""
      && contentReport == None && comparativeReport == None
      && contentText == "" && contentKeyword == "" && competitorUrl == "" && !showCompetitorAnalysis
    }

    constructor()
      ensures Cleared()
    {
      status := Idle;
      isLoading := false;
      errorMessage := "";
      showCompetitorAnalysis := false;
      contentText := "";
      contentKeyword := "";
      competitorUrl := "";
      contentReport := None;
      comparativeReport := None;
    }

    function GenerateCsvReport(): string
      reads this
    {
      CsvReport(contentReport, comparativeReport)
    }

    /**
     * The synchronous part of `analyze`, up to its `await`: loading starts with reports and
     * error cleared. A blank competitor URL in competitor mode fails at once, and loading
     * ends; otherwise the call the current mode makes is returned, still pending.
     */
    method Analyze() returns (call: PendingCall)
      modifies this
      ensures showCompetitorAnalysis == old(showCompetitorAnalysis) && contentText == old(contentText)
      ensures contentKeyword == old(contentKeyword) && competitorUrl == old(competitorUrl)
      ensures contentReport == None && comparativeReport == None
      ensures call == NoCall <==> showCompetitorAnalysis && IsBlank(competitorUrl)
      ensures call == ComparativeCall <==> showCompetitorAnalysis && !IsBlank(competitorUrl)
      ensures call == ContentCall <==> !showCompetitorAnalysis
      ensures call == NoCall ==> status == Error && !isLoading && errorMessage == CompetitorUrlRequired
      ensures call != NoCall ==> status == Loading && isLoading && errorMessage == ""
    {
      status := Loading;
      isLoading := true;
      contentReport := None;
      comparativeReport := None;
      errorMessage := "";
      if showCompetitorAnalysis {
        if IsBlank(competitorUrl) {
          status := Error;
          errorMessage := CompetitorUrlRequired;
          isLoading := false;
          call := NoCall;
        } else {
          call := ComparativeCall;
        }
      } else {
        call := ContentCall;
      }
    }

    /**
     * The rest of `analyze` once the content analysis settles. It runs whatever happened
     * during the `await`, a `reset` included: a report is stored with success, no data or a
     * thrown error sets the error, and loading ends either way. Inputs are not read.
     */
    method ReceiveContentResult(outcome: ServiceResult<ContentReport>)
      modifies this
      ensures !isLoading && comparativeReport == old(comparativeReport)
      ensures showCompetitorAnalysis == old(showCompetitorAnalysis) && contentText == old(contentText)
      ensures contentKeyword == old(contentKeyword) && competitorUrl == old(competitorUrl)
      ensures match outcome
        case Resolved(Some(report)) =>
          status == Success && contentReport == Some(report) && errorMessage == old(errorMessage)
        case Resolved(None) =>
          status == Error && contentReport == old(contentReport) && errorMessage == NoContentData
        case Threw(thrown) =>
          status == Error && contentReport == old(contentReport) && errorMessage == CaughtMessage(thrown, UnknownError)
    {
      match outcome {
        case Resolved(Some(report)) =>
          contentReport := Some(report);
          status := Success;
        case Resolved(None) =>
          status := Error;
          errorMessage := NoContentData;
        case Threw(thrown) =>
          status := Error;
          errorMessage := CaughtMessage(thrown, UnknownError);
      }
      isLoading := false;
    }

    /** The rest of `analyze` once the comparative analysis settles; as `ReceiveContentResult`. */
    method ReceiveComparativeResult(outcome: ServiceResult<ComparativeReport>)
      modifies this
      ensures !isLoading && contentReport == old(contentReport)
      ensures showCompetitorAnalysis == old(showCompetitorAnalysis) && contentText == old(contentText)
      ensures contentKeyword == old(contentKeyword) && competitorUrl == old(competitorUrl)
      ensures match outcome
        case Resolved(Some(report)) =>
          status == Success && comparativeReport == Some(report) && errorMessage == old(errorMessage)
        case Resolved(None) =>
          status == Error && comparativeReport == old(comparativeReport) && errorMessage == NoComparativeData
        case Threw(thrown) =>
          status == Error && comparativeReport == old(comparativeReport) && errorMessage == CaughtMessage(thrown, UnknownError)
    {
      match outcome {
        case Resolved(Some(report)) =>
          comparativeReport := Some(report);
          status := Success;
        case Resolved(None) =>
          status := Error;
          errorMessage := NoComparativeData;
        case Threw(thrown) =>
          status := Error;
          errorMessage := CaughtMessage(thrown, UnknownError);
      }
      isLoading := false;
    }

    /**
     * A whole `analyze` with nothing else happening during the `await`: the start, then the
     * result of the call the mode made. Loading always ends, in success with exactly one
     * report or in error with none.
     */
    method AnalyzeToCompletion(contentOutcome: ServiceResult<ContentReport>, comparativeOutcome: ServiceResult<ComparativeReport>)
      modifies this
      ensures !isLoading && (status == Success || status == Error)
      ensures showCompetitorAnalysis == old(showCompetitorAnalysis) && contentText == old(contentText)
      ensures contentKeyword == old(contentKeyword) && competitorUrl == old(competitorUrl)
      ensures status == Success ==> errorMessage == "" && (contentReport.Some? != comparativeReport.Some?)
      ensures status == Error ==> contentReport == None && comparativeReport == None
      ensures showCompetitorAnalysis && IsBlank(competitorUrl) ==> status == Error && errorMessage == CompetitorUrlRequired
      ensures showCompetitorAnalysis && !IsBlank(competitorUrl) ==>
        match comparativeOutcome
        case Resolved(Some(report)) => status == Success && comparativeReport == Some(report)
        case Resolved(None) => status == Error && errorMessage == NoComparativeData
        case Threw(thrown) => status == Error && errorMessage == CaughtMessage(thrown, UnknownError)
      ensures !showCompetitorAnalysis ==>
        match contentOutcome
        case Resolved(Some(report)) => status == Success && contentReport == Some(report)
        case Resolved(None) => status == Error && errorMessage == NoContentData
        case Threw(thrown) => status == Error && errorMessage == CaughtMessage(thrown, UnknownError)
    {
      var call := Analyze();
      if call == ContentCall {
        ReceiveContentResult(contentOutcome);
      } else if call == ComparativeCall {
        ReceiveComparativeResult(comparativeOutcome);
      }
    }

    /**
     * A `reset` while a call is pending does not cancel it: when the report then arrives,
     * it is shown with success on the cleared form.
     */
    method ResetWhilePending(content: ContentReport, comparative: ComparativeReport)
      modifies this
      ensures !(old(showCompetitorAnalysis) && IsBlank(old(competitorUrl))) ==>
        status == Success && (contentReport == Some(content) || comparativeReport == Some(comparative))
      ensures contentText == "" && contentKeyword == "" && competitorUrl == "" && !showCompetitorAnalysis
    {
      var call := Analyze();
      Reset();
      if call == ContentCall {
        ReceiveContentResult(Resolved(Some(content)));
      } else if call == ComparativeCall {
        ReceiveComparativeResult(Resolved(Some(comparative)));
      }
    }

    /** `reset`: idle, no reports, empty inputs, competitor mode off; the export is then empty. */
    method Reset()
      modifies this
      ensures Cleared() && GenerateCsvReport() == ""
    {
      status := Idle;
      isLoading := false;
      errorMessage := "";
      contentReport := None;
      comparativeReport := None;
      contentText := "";
      contentKeyword := "";
      competitorUrl := "";
      showCompetitorAnalysis := false;
    }
  }
}
