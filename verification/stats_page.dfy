/**
 * The statistics dashboard's data shaping: the no-data guard, the defaults
 * applied to a statistics response, and the conversion of one question's
 * answer distribution into pie-chart data.
 */
module StatsPage {
  import opened Js
  import opened Seqs

  /** Answer value (1..5) to the number of responses; a missing key reads as undefined. */
  type Distribution = map<int, int>

  /** The answer values in the order the chart lists them. */
  const ResponseOrder: seq<int> := [1, 2, 3, 4, 5]

  /** Slice colours, annotated in the page as never, rarely, sometimes, often, always. */
  const Colors: seq<string> := [
    "rgba(255, 99, 132, 0.8)", "rgba(255, 159, 64, 0.8)", "rgba(255, 205, 86, 0.8)",
    "rgba(75, 192, 192, 0.8)", "rgba(54, 162, 235, 0.8)"]

  const BorderColors: seq<string> := [
    "rgba(255, 99, 132, 1)", "rgba(255, 159, 64, 1)", "rgba(255, 205, 86, 1)",
    "rgba(75, 192, 192, 1)", "rgba(54, 162, 235, 1)"]

  /** The translation key of an answer value's label (the `labelMap`). */
  function AnswerLabel(answer: int): (key: string)
    requires 1 <= answer <= 5
  {
    if answer == 1 then "statsPage.never"
    else if answer == 2 then "statsPage.rarely"
    else if answer == 3 then "statsPage.sometimes"
    else if answer == 4 then "statsPage.often"
    else "statsPage.always"
  }

  /** `distribution[key] > 0`: undefined compares false. */
  predicate Answered(distribution: Distribution, answer: int) {
    answer in distribution && distribution[answer] > 0
  }

  /** The `labels` array before translation: answers with a positive count. */
  function Answers(distribution: Distribution): (r: seq<int>)
    ensures forall i :: 0 <= i < |r| ==> 1 <= r[i] <= 5 && Answered(distribution, r[i])
  {
    Filter(ResponseOrder, a => Answered(distribution, a))
  }

  /** The answers listed are exactly those answered, each once, in ascending order. */
  lemma AnswersExact(distribution: Distribution)
    ensures forall a :: a in Answers(distribution) <==> 1 <= a <= 5 && Answered(distribution, a)
    ensures StrictlyIncreasing(Answers(distribution))
  {
    assert StrictlyIncreasing(ResponseOrder);
    FilterStrictlyIncreasing(ResponseOrder, a => Answered(distribution, a));
    forall a ensures a in ResponseOrder <==> 1 <= a <= 5 {
      if 1 <= a <= 5 {
        assert ResponseOrder[a - 1] == a;
      }
    }
  }

  datatype PieChart = PieChart(
    labels: seq<string>,
    title: string,
    data: seq<int>,
    backgroundColor: seq<string>,
    borderColor: seq<string>,
    borderWidth: int)

  /**
   * `formatPieChartData`: one slice per answered value, in ascending order,
   * with the count as its datum and the palette's colours taken by position.
   */
  function FormatPieChartData(distribution: Distribution, questionKey: string): (r: PieChart)
    ensures var answers := Answers(distribution);
      && |r.labels| == |r.data| == |r.backgroundColor| == |r.borderColor| == |answers|
      && (forall i :: 0 <= i < |answers| ==>
            r.labels[i] == AnswerLabel(answers[i]) && r.data[i] == distribution[answers[i]] && r.data[i] > 0)
      && r.backgroundColor == Colors[..|answers|]
      && r.borderColor == BorderColors[..|answers|]
      && r.title == "statsPage." + questionKey + "_title"
  {
    var answers := Answers(distribution);
    PieChart(
      seq(|answers|, i requires 0 <= i < |answers| => AnswerLabel(answers[i])),
      "statsPage." + questionKey + "_title",
      seq(|answers|, i requires 0 <= i < |answers| => distribution[answers[i]]),
      Colors[..|answers|],
      BorderColors[..|answers|],
      1)
  }

  /** A distribution with keys but no positive count gives a pie with no slices. */
  lemma AllZeroGivesEmptyPie(distribution: Distribution, questionKey: string)
    requires forall a :: a in distribution ==> distribution[a] <= 0
    ensures FormatPieChartData(distribution, questionKey).labels == []
    ensures FormatPieChartData(distribution, questionKey).data == []
  {
    assert Answers(distribution) == [];
  }

  /**
   * Colours follow the slice's position, not its answer: a distribution in
   * which only "always" (5) was answered colours that slice with the first
   * palette entry, the one annotated "never".
   */
  lemma ColorsFollowPosition()
    ensures FormatPieChartData(map[5 := 3], "q1").backgroundColor == [Colors[0]]
    ensures FormatPieChartData(map[5 := 3], "q1").labels == [AnswerLabel(5)]
  {
    var d: Distribution := map[5 := 3];
    assert Answers(d) == [5] by {
      assert ResponseOrder == [1, 2, 3, 4] + [5];
      FilterConcat([1, 2, 3, 4], [5], a => Answered(d, a));
    }
  }

  // ---------------------------------------------------------------------
  // The statistics response
  // ---------------------------------------------------------------------

  /** The `data` object of the statistics response; None is an absent property. */
  datatype Stats = Stats(
    totalSurveys: JsValue,
    dailyCount: Option<seq<Object>>,
    hourlyCount: Option<seq<Object>>,
    ageDistribution: Option<seq<Object>>,
    questionDistributions: Option<map<string, Distribution>>,
    heatmapData: Option<seq<Object>>)

  /** The query's data: the response body, whose `data` property may be absent. */
  datatype StatsResponse = StatsResponse(data: Option<Stats>)

  /** `!data || !data.data || !data.data.totalSurveys` */
  predicate NoData(response: Option<StatsResponse>) {
    response.None? || response.value.data.None? || !Truthy(response.value.data.value.totalSurveys)
  }

  const QuestionDistributionKeys: seq<string> := [
    "question1Distribution", "question2Distribution", "question3Distribution", "question4Distribution",
    "question5Distribution", "question6Distribution", "question7Distribution", "question8Distribution"]

  /** The statistics with every missing array or map replaced by an empty one. */
  datatype StatsView = StatsView(
    totalSurveys: JsValue,
    dailyCounts: seq<Object>,
    hourlyCounts: seq<Object>,
    ageDistributions: seq<Object>,
    questions: seq<Distribution>,
    heatmapData: seq<Object>)

  /** `x || []` for an array property. */
  function OrEmpty<T>(x: Option<seq<T>>): (r: seq<T>)
    ensures x.None? ==> r == []
    ensures x.Some? ==> r == x.value
  {
    if x.Some? then x.value else []
  }

  /** `questionDistributions.questionNDistribution || {}` */
  function QuestionDistribution(distributions: Option<map<string, Distribution>>, key: string): (r: Distribution)
    ensures distributions.None? || key !in distributions.value ==> r == map[]
    ensures distributions.Some? && key in distributions.value ==> r == distributions.value[key]
  {
    if distributions.Some? && key in distributions.value then distributions.value[key] else map[]
  }

  /** The defaults the page applies before drawing anything. */
  function Extract(stats: Stats): (v: StatsView)
    ensures v.totalSurveys == stats.totalSurveys
    ensures v.dailyCounts == OrEmpty(stats.dailyCount)
    ensures v.hourlyCounts == OrEmpty(stats.hourlyCount)
    ensures v.ageDistributions == OrEmpty(stats.ageDistribution)
    ensures v.heatmapData == OrEmpty(stats.heatmapData)
    ensures |v.questions| == 8
    ensures forall i :: 0 <= i < 8 ==>
              v.questions[i] == QuestionDistribution(stats.questionDistributions, QuestionDistributionKeys[i])
    ensures stats.questionDistributions.None? ==> forall i :: 0 <= i < 8 ==> v.questions[i] == map[]
  {
    StatsView(
      stats.totalSurveys,
      OrEmpty(stats.dailyCount),
      OrEmpty(stats.hourlyCount),
      OrEmpty(stats.ageDistribution),
      seq(8, i requires 0 <= i < 8 => QuestionDistribution(stats.questionDistributions, QuestionDistributionKeys[i])),
      OrEmpty(stats.heatmapData))
  }

  /** What the page shows. */
  datatype Screen =
    | LoadingMessage
    | ErrorMessage
    | NoDataMessage
    | Dashboard(view: StatsView, pies: seq<Option<PieChart>>)

  /** A question's pie is drawn iff its distribution has at least one key. */
  function QuestionPie(distribution: Distribution, index: nat): (r: Option<PieChart>)
    ensures r.Some? <==> |distribution.Keys| > 0
    ensures r.Some? ==> r.value == FormatPieChartData(distribution, "q" + NatToDigits(index + 1))
  {
    if |distribution.Keys| > 0 then Some(FormatPieChartData(distribution, "q" + NatToDigits(index + 1)))
    else None
  }

  /** The page: loading, then error, then the no-data guard, then the charts. */
  function Render(isLoading: bool, hasError: bool, response: Option<StatsResponse>): (s: Screen)
    ensures isLoading ==> s == LoadingMessage
    ensures !isLoading && hasError ==> s == ErrorMessage
    ensures !isLoading && !hasError && NoData(response) ==> s == NoDataMessage
    ensures !isLoading && !hasError && !NoData(response) ==>
              s.Dashboard? && s.view == Extract(response.value.data.value) && |s.pies| == 8 &&
              forall i :: 0 <= i < 8 ==> (s.pies[i].Some? <==> |s.view.questions[i].Keys| > 0)
    ensures !isLoading && !hasError && !NoData(response) ==>
              s.Dashboard? && |s.pies| == 8 &&
              forall i :: 0 <= i < 8 && s.pies[i].Some? ==>
                s.pies[i].value == FormatPieChartData(s.view.questions[i], "q" + NatToDigits(i + 1))
  {
    if isLoading then LoadingMessage
    else if hasError then ErrorMessage
    else if NoData(response) then NoDataMessage
    else
      var view := Extract(response.value.data.value);
      Dashboard(view, seq(8, i requires 0 <= i < 8 => QuestionPie(view.questions[i], i)))
  }

  /** A statistics response with zero surveys shows the no-data message. */
  lemma ZeroSurveysShowsNoData(stats: Stats)
    requires stats.totalSurveys == Num(0)
    ensures Render(false, false, Some(StatsResponse(Some(stats)))) == NoDataMessage
  {
  }
}
