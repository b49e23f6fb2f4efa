/**
 * The page speed analyzer page: a request state machine around the AI's page speed
 * report, the rotating loading message shown while the request is pending, and the
 * class names the page gives scores, ratings and priorities. The report's own shape
 * belongs to the AI service and is a type parameter here.
 */
module PageSpeedAnalyzer {
  import opened Common
  import opened Text

  datatype AnalysisStatus = Idle | Loading | Success | Error

  const NoData := "The analysis returned no data. Please try another URL or check the browser console for errors."
  const UnknownError := "An unknown error occurred during analysis."

  // ---------------------------------------------------------------------------------
  // Class names

  /** `getScoreColor`: green from 90, yellow from 50, red below. */
  function ScoreColor(score: real): (c: string)
    ensures c == TextGreen <==> score >= 90.0
    ensures c == TextYellow <==> 50.0 <= score < 90.0
    ensures c == TextRed <==> score < 50.0
  {
    if score >= 90.0 then TextGreen
    else if score >= 50.0 then TextYellow
    else TextRed
  }

  /** A higher score never gets a worse colour. */
  lemma {:induction false} ScoreColorMonotone(a: real, b: real)
    requires a <= b
    ensures ColorRank(ScoreColor(a)) <= ColorRank(ScoreColor(b))
  {
  }

  const GoodBadge := "bg-green-100 text-green-800 dark:bg-green-900 dark:text-green-300"
  const NeedsImprovementBadge := "bg-yellow-100 text-yellow-800 dark:bg-yellow-900 dark:text-yellow-300"
  const PoorBadge := "bg-red-100 text-red-800 dark:bg-red-900 dark:text-red-300"
  const DefaultBadge := "bg-gray-100 text-gray-800 dark:bg-gray-700 dark:text-gray-300"

  /**
   * `getRatingBadgeClass`. The rating comes from the AI's JSON, so any text can arrive;
   * a value other than the three named ones gets the grey default.
   */
  function RatingBadgeClass(rating: string): (c: string)
    ensures rating == "good" ==> c == GoodBadge
    ensures rating == "needs-improvement" ==> c == NeedsImprovementBadge
    ensures rating == "poor" ==> c == PoorBadge
    ensures rating !in {"good", "needs-improvement", "poor"} ==> c == DefaultBadge
  {
    match rating
    case "good" => GoodBadge
    case "needs-improvement" => NeedsImprovementBadge
    case "poor" => PoorBadge
    case _ => DefaultBadge
  }

  const HighPriority := "bg-red-500 text-red-100"
  const MediumPriority := "bg-yellow-500 text-yellow-100"
  const LowPriority := "bg-blue-500 text-blue-100"
  const DefaultPriority := "bg-gray-500 text-gray-100"

  /** `getPriorityClass`, with the grey default for any other value. */
  function PriorityClass(priority: string): (c: string)
    ensures priority == "high" ==> c == HighPriority
    ensures priority == "medium" ==> c == MediumPriority
    ensures priority == "low" ==> c == LowPriority
    ensures priority !in {"high", "medium", "low"} ==> c == DefaultPriority
  {
    match priority
    case "high" => HighPriority
    case "medium" => MediumPriority
    case "low" => LowPriority
    case _ => DefaultPriority
  }

  // ---------------------------------------------------------------------------------
  // Loading messages

  const LoadingMessages: seq<string> := [
    "Warming up the analysis engines...",
    "Scanning for performance bottlenecks...",
    "Measuring Core Web Vitals...",
    "Crafting optimization strategies...",
    "Almost there, just polishing the report!"
  ]

  /** The message on screen after `ticks` ticks of the 2.5-second interval. */
  function LoadingMessageAt(ticks: nat): string {
    LoadingMessages[ticks % |LoadingMessages|]
  }

  /** The rotation starts at the first message, shows each message in turn and repeats every five ticks. */
  lemma {:induction false} LoadingMessagesRotate(ticks: nat)
    ensures LoadingMessageAt(0) == LoadingMessages[0]
    ensures ticks < |LoadingMessages| ==> LoadingMessageAt(ticks) == LoadingMessages[ticks]
    ensures LoadingMessageAt(ticks + |LoadingMessages|) == LoadingMessageAt(ticks)
  {
    assert (ticks + |LoadingMessages|) % |LoadingMessages| == ticks % |LoadingMessages|;
  }

  // ---------------------------------------------------------------------------------
  // The page

  /**
   * The page's signals. `loadingTick` is the interval callback's counter `i` and
   * `loadingActive` whether the interval is set; `analyzeUrl` is split at its `await`
   * into `AnalyzeUrl` and `ReceiveResult`, so the page can tick in between.
   */
  class PageSpeedAnalyzerPage<Report> {
    var url: string
    var status: AnalysisStatus
    var report: Option<Report>
    var errorMessage: string
    var currentLoadingMessage: string
    var loadingTick: nat
    var loadingActive: bool

    /** The message on screen is the one for the ticks counted so far. */
    predicate Valid()
      reads this
    {
      loadingTick >= 1 && currentLoadingMessage == LoadingMessageAt(loadingTick - 1)
    }

    constructor()
      ensures Valid() && url == "" && status == Idle && report == None && errorMessage == ""
      ensures !loadingActive
    {
      url := "";
      status := Idle;
      report := None;
      errorMessage := "";
      currentLoadingMessage := LoadingMessages[0];
      loadingTick := 1;
      loadingActive := false;
    }

    /**
     * The synchronous part of `analyzeUrl`: a blank URL changes nothing; otherwise the
     * page starts loading with the report and error cleared and the first message shown.
     */
    method AnalyzeUrl() returns (started: bool)
      requires Valid()
      modifies this
      ensures Valid() && url == old(url)
      ensures started <==> !IsBlank(url)
      ensures !started ==>
        (status == old(status) && report == old(report) && errorMessage == old(errorMessage)
         && currentLoadingMessage == old(currentLoadingMessage) && loadingTick == old(loadingTick)
         && loadingActive == old(loadingActive))
      ensures started ==>
        (status == Loading && report == None && errorMessage == ""
         && currentLoadingMessage == LoadingMessages[0] && loadingTick == 1 && loadingActive)
    {
      if IsBlank(url) {
        return false;
      }
      status := Loading;
      report := None;
      errorMessage := "";
      StartLoadingMessages();
      started := true;
    }

    method StartLoadingMessages()
      modifies this
      ensures currentLoadingMessage == LoadingMessages[0] && loadingTick == 1 && loadingActive
      ensures Valid()
      ensures url == old(url) && status == old(status) && report == old(report) && errorMessage == old(errorMessage)
    {
      currentLoadingMessage := LoadingMessages[0];
      loadingTick := 1;
      loadingActive := true;
    }

    /** One firing of the interval: the next message in the rotation; nothing once the interval is cleared. */
    method Tick()
      requires Valid()
      modifies this
      ensures Valid()
      ensures loadingActive == old(loadingActive)
      ensures old(loadingActive) ==> currentLoadingMessage == LoadingMessageAt(old(loadingTick)) && loadingTick == old(loadingTick) + 1
      ensures !old(loadingActive) ==> currentLoadingMessage == old(currentLoadingMessage) && loadingTick == old(loadingTick)
      ensures url == old(url) && status == old(status) && report == old(report) && errorMessage == old(errorMessage)
    {
      if loadingActive {
        currentLoadingMessage := LoadingMessages[loadingTick % |LoadingMessages|];
        loadingTick := loadingTick + 1;
      }
    }

    /**
     * The rest of `analyzeUrl` once the AI call settles: a report means success, a null
     * result is thrown as the no-data error, a thrown error shows its message; the
     * interval is cleared either way.
     */
    method ReceiveResult(result: ServiceResult<Report>)
      requires Valid()
      modifies this
      ensures Valid() && !loadingActive
      ensures url == old(url) && currentLoadingMessage == old(currentLoadingMessage)
      ensures match result
        case Resolved(Some(r)) => status == Success && report == Some(r) && errorMessage == old(errorMessage)
        case Resolved(None) => status == Error && report == old(report) && errorMessage == NoData
        case Threw(thrown) => status == Error && report == old(report) && errorMessage == CaughtMessage(thrown, UnknownError)
    {
      match result {
        case Resolved(Some(r)) =>
          report := Some(r);
          status := Success;
        case Resolved(None) =>
          status := Error;
          errorMessage := CaughtMessage(Some(NoData), UnknownError);
        case Threw(thrown) =>
          status := Error;
          errorMessage := CaughtMessage(thrown, UnknownError);
      }
      loadingActive := false;
    }

    /** `reset`: back to idle with no URL, report or error. */
    method Reset()
      modifies this
      ensures url == "" && status == Idle && report == None && errorMessage == ""
      ensures currentLoadingMessage == old(currentLoadingMessage) && loadingTick == old(loadingTick)
      ensures loadingActive == old(loadingActive)
    {
      url := "";
      status := Idle;
      report := None;
      errorMessage := "";
    }
  }
}
