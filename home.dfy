/**
 * The food-log dashboard: the meal text box and its submission, the recent
 * history with rating badges, the weekly statistics, and the admin link.
 * Every request is recorded in `sent`; its response arrives later through a
 * separate transition that takes the request's outcome.
 */
module Home {
  import opened Wrappers
  import App
  import Palette
  import WeeklyTrendGraph

  /** A logged meal as the history endpoint returns it; nutrition fields are computed by the server. */
  datatype FoodLog = FoodLog(
    id: int, createdAt: string, messageText: string,
    calories: real, fat: real, protein: real, fiber: real,
    rating: real, note: Option<string>)

  datatype WeeklyStats = WeeklyStats(graphData: seq<WeeklyTrendGraph.DailySample>, weeklyScorePercentage: real)

  /** The requests this page issues. */
  datatype Request = LogFood(messageText: string) | GetHistory(limit: nat) | GetWeeklyStats

  const HistoryLimit: nat := 10
  const LogFoodFallback := "Failed to log food"

  // ---------------------------------------------------------------------
  // Rating badges
  // ---------------------------------------------------------------------

  /** `getRatingLabel`: 8 and 4 belong to the higher tier. */
  function RatingLabel(rating: real): (name: string)
    ensures name == "Excellent" <==> rating >= 8.0
    ensures name == "Moderate" <==> 4.0 <= rating < 8.0
    ensures name == "Unhealthy" <==> rating < 4.0
  {
    if rating >= 8.0 then "Excellent"
    else if rating >= 4.0 then "Moderate"
    else "Unhealthy"
  }

  /** `getRatingColor` */
  function RatingColor(rating: real): (color: string)
    ensures color == Palette.Green <==> rating >= 8.0
    ensures color == Palette.Orange <==> 4.0 <= rating < 8.0
    ensures color == Palette.Red <==> rating < 4.0
  {
    if rating >= 8.0 then Palette.Green
    else if rating >= 4.0 then Palette.Orange
    else Palette.Red
  }

  /** Excellent is green, Moderate orange, Unhealthy red. */
  lemma RatingColorMatchesLabel(rating: real)
    ensures RatingLabel(rating) == "Excellent" <==> RatingColor(rating) == Palette.Green
    ensures RatingLabel(rating) == "Moderate" <==> RatingColor(rating) == Palette.Orange
    ensures RatingLabel(rating) == "Unhealthy" <==> RatingColor(rating) == Palette.Red
  {
  }

  /** The Admin Panel link is shown exactly to the users the admin route lets in. */
  predicate ShowsAdminLink(user: App.Profile) {
    user.role == App.AdminRole
  }

  lemma AdminLinkIffAdminRouteRenders(user: App.Profile)
    ensures ShowsAdminLink(user) <==> App.Route(Some(user), App.AdminPath) == App.Render(App.AdminDashboardPage)
  {
  }

  // ---------------------------------------------------------------------
  // The blank-message guard: `!message.trim()`
  // ---------------------------------------------------------------------

  /** The characters JavaScript's `trim` removes: white space and line terminators. */
  predicate IsWhitespace(c: char) {
    c == '\t' || c == '\n' || c == '\U{000B}' || c == '\U{000C}' || c == '\r' || c == ' '
    || c == '\U{00A0}' || c == '\U{1680}' || ('\U{2000}' <= c <= '\U{200A}')
    || c == '\U{2028}' || c == '\U{2029}' || c == '\U{202F}' || c == '\U{205F}'
    || c == '\U{3000}' || c == '\U{FEFF}'
  }

  /** Drops leading white space: the result is the suffix after a white prefix. */
  function TrimStart(s: string): (r: string)
    ensures |r| <= |s| && r == s[|s| - |r|..]
    ensures forall i :: 0 <= i < |s| - |r| ==> IsWhitespace(s[i])
    ensures r != [] ==> !IsWhitespace(r[0])
  {
    if s != [] && IsWhitespace(s[0]) then TrimStart(s[1..]) else s
  }

  /** Drops trailing white space: the result is the prefix before a white suffix. */
  function TrimEnd(s: string): (r: string)
    ensures |r| <= |s| && r == s[..|r|]
    ensures forall i :: |r| <= i < |s| ==> IsWhitespace(s[i])
    ensures r != [] ==> !IsWhitespace(r[|r| - 1])
  {
    if s != [] && IsWhitespace(s[|s| - 1]) then TrimEnd(s[..|s| - 1]) else s
  }

  predicate IsBlank(s: string) {
    TrimEnd(TrimStart(s)) == []
  }

  /** A message is blank exactly when every character of it is white space. */
  lemma BlankIffAllWhitespace(s: string)
    ensures IsBlank(s) <==> forall i :: 0 <= i < |s| ==> IsWhitespace(s[i])
  {
  }

  // ---------------------------------------------------------------------
  // Page state and its transitions
  // ---------------------------------------------------------------------

  datatype DashboardState = DashboardState(
    message: string, foodLogs: seq<FoodLog>, weeklyStats: WeeklyStats,
    loading: bool, error: string, sent: seq<Request>)

  /** After mounting: empty state, and both fetches issued. */
  function Mounted(): DashboardState {
    DashboardState("", [], WeeklyStats([], 0.0), false, "", [GetHistory(HistoryLimit), GetWeeklyStats])
  }

  /** Typing into the text box. */
  function Edited(s: DashboardState, text: string): DashboardState {
    s.(message := text)
  }

  /** The part of `handleSubmit` before the request is awaited. */
  function SubmitStarted(s: DashboardState): DashboardState {
    if IsBlank(s.message) then s
    else s.(loading := true, error := "", sent := s.sent + [LogFood(s.message)])
  }

  /** The rest of `handleSubmit`, once the log request settles. */
  function SubmitSettled(s: DashboardState, outcome: Outcome<FoodLog>): DashboardState {
    match outcome
    case Success(_) =>
      s.(message := "", sent := s.sent + [GetHistory(HistoryLimit), GetWeeklyStats], loading := false)
    case Failure(serverMessage) =>
      s.(error := OrElse(serverMessage, LogFoodFallback), loading := false)
  }

  /** `fetchFoodHistory` settling: a body without `data` yields an empty list; a failure is swallowed. */
  function HistoryReceived(s: DashboardState, outcome: Outcome<Option<seq<FoodLog>>>): DashboardState {
    match outcome
    case Success(data) => s.(foodLogs := data.GetOr([]))
    case Failure(_) => s
  }

  /** `fetchWeeklyStats` settling: the body replaces the statistics; a failure is swallowed. */
  function StatsReceived(s: DashboardState, outcome: Outcome<WeeklyStats>): DashboardState {
    match outcome
    case Success(stats) => s.(weeklyStats := stats)
    case Failure(_) => s
  }

  /** A blank or white-space-only message issues no request and changes nothing. */
  lemma BlankSubmitDoesNothing(s: DashboardState)
    requires forall i :: 0 <= i < |s.message| ==> IsWhitespace(s.message[i])
    ensures SubmitStarted(s) == s
  {
  }

  /** A message with some visible character is sent as typed, untrimmed, with loading on and the error cleared. */
  lemma SubmitSendsMessage(s: DashboardState, k: int)
    requires 0 <= k < |s.message| && !IsWhitespace(s.message[k])
    ensures SubmitStarted(s).sent == s.sent + [LogFood(s.message)]
    ensures SubmitStarted(s).loading && SubmitStarted(s).error == ""
    ensures SubmitStarted(s).message == s.message && SubmitStarted(s).foodLogs == s.foodLogs
  {
  }

  /** A settled statistics fetch replaces exactly the statistics; a failed one changes nothing. */
  lemma StatsReplacedOnSuccess(s: DashboardState, outcome: Outcome<WeeklyStats>)
    ensures outcome.Success? ==> StatsReceived(s, outcome) == s.(weeklyStats := outcome.body)
    ensures outcome.Failure? ==> StatsReceived(s, outcome) == s
    ensures StatsReceived(s, outcome).sent == s.sent && StatsReceived(s, outcome).foodLogs == s.foodLogs
  {
  }

  /** A whole submission: loading ends false; success clears the text and re-fetches both lists; failure keeps the text and reports an error. */
  lemma SubmitCycle(s: DashboardState, outcome: Outcome<FoodLog>)
    requires !IsBlank(s.message)
    ensures var r := SubmitSettled(SubmitStarted(s), outcome);
      && !r.loading
      && (r.error == "" <==> outcome.Success?)
      && (r.message == "" <==> outcome.Success?)
      && (outcome.Success? ==> r.sent == s.sent + [LogFood(s.message), GetHistory(HistoryLimit), GetWeeklyStats])
      && (outcome.Failure? ==> r.sent == s.sent + [LogFood(s.message)] && r.message == s.message)
      && (outcome.Failure? ==> r.error == OrElse(outcome.serverMessage, LogFoodFallback))
      && r.foodLogs == s.foodLogs && r.weeklyStats == s.weeklyStats
  {
    assert s.message != "";
    var started := SubmitStarted(s);
    assert started == s.(loading := true, error := "", sent := s.sent + [LogFood(s.message)]);
  }

  /** The history list is always a list: the response's data, else empty; a failed fetch keeps the old one. */
  lemma HistoryFallsBackToEmpty(s: DashboardState, outcome: Outcome<Option<seq<FoodLog>>>)
    ensures outcome == Success(None) ==> HistoryReceived(s, outcome).foodLogs == []
    ensures outcome.Success? && outcome.body.Some? ==> HistoryReceived(s, outcome).foodLogs == outcome.body.value
    ensures outcome.Failure? ==> HistoryReceived(s, outcome) == s
  {
  }

  /** The page as a whole: the dashboard state and the methods React's setters drive. */
  class Dashboard {
    var message: string
    var foodLogs: seq<FoodLog>
    var weeklyStats: WeeklyStats
    var loading: bool
    var error: string
    var sent: seq<Request>

    function State(): DashboardState
      reads this
    {
      DashboardState(message, foodLogs, weeklyStats, loading, error, sent)
    }

    /** Mounting, including the effect that issues both fetches. */
    constructor ()
      ensures State() == Mounted()
    {
      message := "";
      foodLogs := [];
      weeklyStats := WeeklyStats([], 0.0);
      loading := false;
      error := "";
      sent := [GetHistory(HistoryLimit), GetWeeklyStats];
    }

    method Edit(text: string)
      modifies this
      ensures State() == Edited(old(State()), text)
    {
      message := text;
    }

    /** `handleSubmit` up to the awaited request; `requested` says whether it was sent. */
    method HandleSubmit() returns (requested: bool)
      modifies this
      ensures State() == SubmitStarted(old(State()))
      ensures requested <==> !IsBlank(old(message))
    {
      if IsBlank(message) {
        return false;
      }
      loading := true;
      error := "";
      sent := sent + [LogFood(message)];
      requested := true;
    }

    /** The try/catch/finally after the log request settles. */
    method OnLogFoodSettled(outcome: Outcome<FoodLog>)
      modifies this
      ensures State() == SubmitSettled(old(State()), outcome)
    {
      match outcome {
        case Success(_) =>
          message := "";
          sent := sent + [GetHistory(HistoryLimit), GetWeeklyStats];
        case Failure(serverMessage) =>
          error := OrElse(serverMessage, LogFoodFallback);
      }
      loading := false;
    }

    method OnHistory(outcome: Outcome<Option<seq<FoodLog>>>)
      modifies this
      ensures State() == HistoryReceived(old(State()), outcome)
    {
      if outcome.Success? {
        foodLogs := outcome.body.GetOr([]);
      }
    }

    method OnWeeklyStats(outcome: Outcome<WeeklyStats>)
      modifies this
      ensures State() == StatsReceived(old(State()), outcome)
    {
      if outcome.Success? {
        weeklyStats := outcome.body;
      }
    }
  }
}
