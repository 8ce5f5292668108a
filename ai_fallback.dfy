// The event-performance recommendations for club owners (aiService.
// generateEventRecommendations): the language model's answer with its
// missing fields defaulted, and, when the model cannot be used, the
// rule-based fallback built from the sales and audience figures.
//
// The figures are real numbers (the source's floating point is not
// modelled).  A line that quotes a figure keeps the figure as a value
// instead of its decimal rendering.

module AiFallback {
  import opened Basics

  /** One entry of a percentage table: the group and its share. */
  datatype Share = Share(group: string, percent: real)

  datatype Analytics = Analytics(
    conversionRate: real,
    totalRevenue: real,
    averageSpentPerCustomer: real,
    totalTicketsSold: real,
    ageGroups: seq<Share>,
    genders: seq<Share>)

  datatype Line = Said(text: string) | AudienceAge(group: string, percent: real) | GenderDominance(gender: string, percent: real)

  datatype Advice = Advice(
    shouldCreateEvent: bool,
    confidence: real,
    recommendations: seq<Line>,
    insights: seq<Line>,
    nextSteps: seq<Line>)

  /** The model's parsed JSON, each field possibly missing. */
  datatype ModelAnswer = ModelAnswer(
    shouldCreateEvent: Option<bool>,
    confidence: Option<real>,
    recommendations: Option<seq<string>>,
    insights: Option<seq<string>>,
    nextSteps: Option<seq<string>>)

  function Lines(s: seq<string>): (r: seq<Line>)
    ensures |r| == |s| && forall i :: 0 <= i < |s| ==> r[i] == Said(s[i])
  {
    Map(s, (t: string) => Said(t))
  }

  /**
   * The model path: `x || default` on each field, so a missing or false
   * flag is false, a missing or zero confidence is 50 and a missing list is
   * empty.
   */
  function FromModel(a: ModelAnswer): (r: Advice)
    ensures a.shouldCreateEvent.None? ==> !r.shouldCreateEvent
    ensures (a.confidence.None? || a.confidence.value == 0.0) ==> r.confidence == 50.0
    ensures a.confidence.Some? && a.confidence.value != 0.0 ==> r.confidence == a.confidence.value
    ensures a.recommendations.None? ==> r.recommendations == []
    ensures a.insights.None? ==> r.insights == []
    ensures a.nextSteps.None? ==> r.nextSteps == []
    ensures a.shouldCreateEvent.Some? ==> r.shouldCreateEvent == a.shouldCreateEvent.value
    ensures a.recommendations.Some? ==> r.recommendations == Lines(a.recommendations.value)
    ensures a.insights.Some? ==> r.insights == Lines(a.insights.value)
    ensures a.nextSteps.Some? ==> r.nextSteps == Lines(a.nextSteps.value)
  {
    Advice(
      a.shouldCreateEvent.GetOr(false),
      match a.confidence
        case Some(c) => if c != 0.0 then c else 50.0
        case None => 50.0,
      Lines(a.recommendations.GetOr([])),
      Lines(a.insights.GetOr([])),
      Lines(a.nextSteps.GetOr([])))
  }

  /** The first entry of largest share: what a stable descending sort puts first. */
  function Top(shares: seq<Share>): (r: Option<Share>)
    ensures shares == [] <==> r.None?
    ensures r.Some? ==> r.value in shares && forall s :: s in shares ==> s.percent <= r.value.percent
    ensures r.Some? ==> exists i :: 0 <= i < |shares| && shares[i] == r.value
                          && forall j :: 0 <= j < i ==> shares[j].percent < r.value.percent
  {
    if shares == [] then None
    else
      var rest := Top(shares[1..]);
      if rest.None? || shares[0].percent >= rest.value.percent then Some(shares[0])
      else
        assert forall s :: s in shares ==> s == shares[0] || s in shares[1..];
        var k :| 0 <= k < |shares[1..]| && shares[1..][k] == rest.value
                 && forall j :: 0 <= j < k ==> shares[1..][j].percent < rest.value.percent;
        assert shares[k + 1] == rest.value;
        assert forall j :: 0 <= j < k + 1 ==> shares[j].percent < rest.value.percent by {
          forall j | 0 <= j < k + 1 ensures shares[j].percent < rest.value.percent {
            if j > 0 { assert shares[j] == shares[1..][j - 1]; }
          }
        }
        rest
  }

  const LowConversion := "Your conversion rate is low - focus on improving payment completion and reducing cart abandonment"
  const HighConversion := "Excellent conversion rate! Consider increasing ticket prices or adding premium options"
  const LowSpending := "Average spending per customer is low - consider upselling strategies or premium ticket tiers"
  const HighSpending := "High customer spending indicates strong demand - consider expanding capacity or adding more events"
  const LowSales := "Low ticket sales suggest marketing improvements needed - focus on social media and influencer partnerships"
  const StrongSales := "Strong ticket sales performance - consider scaling up with larger venues or multiple events"
  const FollowUp := "Plan a follow-up event within 2-3 months to capitalize on success"
  const Surveys := "Conduct customer surveys to understand barriers to attendance"
  const PeakSales := "Analyze peak sales periods to optimize future event timing"
  const ReviewPricing := "Review ticket pricing strategy based on conversion rates"

  const DefaultRecommendations: seq<Line> := [
    Said("Focus on improving conversion rate through better marketing"),
    Said("Consider offering early bird discounts"),
    Said("Analyze competitor pricing strategies")]

  const DefaultInsights: seq<Line> := [
    Said("Your event shows potential for growth"),
    Said("Consider targeting your most engaged demographic")]

  /** The create-another-event verdict of the fallback. */
  predicate ShouldCreate(a: Analytics) {
    a.conversionRate > 70.0 && a.totalRevenue > 1000.0 && a.totalTicketsSold > 10.0
  }

  /** `Math.min(95, Math.max(40, rate + bonus))`, before rounding. */
  function RawConfidence(a: Analytics): (r: real)
    ensures 40.0 <= r <= 95.0
  {
    var boosted := a.conversionRate + (if a.totalRevenue > 5000.0 then 20.0 else 0.0);
    var floor := if boosted >= 40.0 then boosted else 40.0;
    if floor <= 95.0 then floor else 95.0
  }

  /**
   * The fallback: the recommendations, insights and next steps are pushed
   * one by one as the figures decide, and a list left empty is replaced by
   * its default lines.
   */
  method Fallback(a: Analytics) returns (r: Advice)
    ensures r.shouldCreateEvent <==> ShouldCreate(a)
    ensures 40.0 <= r.confidence <= 95.0 && r.confidence == Round(RawConfidence(a)) as real
    ensures 1 <= |r.recommendations| <= 3 && |r.insights| >= 1
    ensures r.nextSteps == [Said(if a.totalRevenue > 5000.0 then FollowUp else Surveys), Said(PeakSales), Said(ReviewPricing)]
    ensures a.conversionRate < 50.0 ==> r.recommendations[0] == Said(LowConversion)
    ensures a.conversionRate > 80.0 ==> r.recommendations[0] == Said(HighConversion)
    ensures (50.0 <= a.conversionRate <= 80.0 && 100.0 <= a.averageSpentPerCustomer <= 300.0
      && 20.0 <= a.totalTicketsSold <= 100.0) ==> r.recommendations == DefaultRecommendations
    ensures r.insights[0].AudienceAge? <==> exists s :: s in a.ageGroups && s.percent > 0.0
    ensures r.insights[0].AudienceAge? ==> forall s :: s in a.ageGroups ==> s.percent <= r.insights[0].percent
  {
    var shouldCreateEvent := ShouldCreate(a);
    var confidence := RawConfidence(a);
    var recommendations := Recommend(a);
    var insights := Insights(a);
    var nextSteps := NextSteps(a);

    r := Advice(
      shouldCreateEvent,
      Round(confidence) as real,
      if |recommendations| > 0 then recommendations else DefaultRecommendations,
      if |insights| > 0 then insights else DefaultInsights,
      nextSteps);
  }

  /** The recommendations pushed for the conversion rate, the spending and the sales, in that order. */
  method Recommend(a: Analytics) returns (recommendations: seq<Line>)
    ensures |recommendations| <= 3
    ensures a.conversionRate < 50.0 ==> recommendations != [] && recommendations[0] == Said(LowConversion)
    ensures a.conversionRate > 80.0 ==> recommendations != [] && recommendations[0] == Said(HighConversion)
    ensures (50.0 <= a.conversionRate <= 80.0 && 100.0 <= a.averageSpentPerCustomer <= 300.0
      && 20.0 <= a.totalTicketsSold <= 100.0) <==> recommendations == []
  {
    recommendations := [];
    if a.conversionRate < 50.0 {
      recommendations := recommendations + [Said(LowConversion)];
    } else if a.conversionRate > 80.0 {
      recommendations := recommendations + [Said(HighConversion)];
    }
    if a.averageSpentPerCustomer < 100.0 {
      recommendations := recommendations + [Said(LowSpending)];
    } else if a.averageSpentPerCustomer > 300.0 {
      recommendations := recommendations + [Said(HighSpending)];
    }
    if a.totalTicketsSold < 20.0 {
      recommendations := recommendations + [Said(LowSales)];
    } else if a.totalTicketsSold > 100.0 {
      recommendations := recommendations + [Said(StrongSales)];
    }
  }

  /** The insights pushed for the largest age group and the dominant gender, when their share is positive. */
  method Insights(a: Analytics) returns (insights: seq<Line>)
    ensures |insights| <= 2
    ensures insights != [] ==> insights[0].AudienceAge? || insights[0].GenderDominance?
    ensures (insights != [] && insights[0].AudienceAge?) <==> exists s :: s in a.ageGroups && s.percent > 0.0
    ensures insights != [] && insights[0].AudienceAge? ==>
      forall s :: s in a.ageGroups ==> s.percent <= insights[0].percent
  {
    insights := [];
    var topAgeGroup := Top(a.ageGroups);
    var topGender := Top(a.genders);
    if topAgeGroup.Some? && topAgeGroup.value.percent > 0.0 {
      insights := insights + [AudienceAge(topAgeGroup.value.group, topAgeGroup.value.percent)];
    }
    if topGender.Some? && topGender.value.percent > 0.0 {
      insights := insights + [GenderDominance(topGender.value.group, topGender.value.percent)];
    }
  }

  /** The three next steps: the follow-up or the surveys, then the two reviews. */
  method NextSteps(a: Analytics) returns (nextSteps: seq<Line>)
    ensures nextSteps == [Said(if a.totalRevenue > 5000.0 then FollowUp else Surveys), Said(PeakSales), Said(ReviewPricing)]
  {
    nextSteps := [];
    if a.totalRevenue > 5000.0 {
      nextSteps := nextSteps + [Said(FollowUp)];
    } else {
      nextSteps := nextSteps + [Said(Surveys)];
    }
    nextSteps := nextSteps + [Said(PeakSales)];
    nextSteps := nextSteps + [Said(ReviewPricing)];
  }
}
