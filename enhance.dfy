/** `POST /contacts` after validation and the insert: the stored contact
    with its score, forecast, three insight labels and three
    recommendation texts. */
module Enhance {

  import opened Contacts
  import opened Scoring

  datatype Result<T> = Ok(value: T) | Err(message: string)

  datatype ContactInsights = ContactInsights(priority: string, category: string, potential: string)

  datatype Enhanced = Enhanced(
    contact: Contact,
    aiScore: nat,
    predictedRevenue: nat,
    insights: ContactInsights,
    recommendations: seq<string>)

  /** `revenue > 5000 ? 'high' : 'medium'`. */
  function PriorityOf(c: Contact): string {
    if c.revenue > 5000 then "high" else "medium"
  }

  function CategoryOf(c: Contact): string {
    if IsTech(c) then "tech" else "general"
  }

  /** `predictRevenue(data) > data.revenue ? 'upsell' : 'maintain'`. */
  function PotentialOf(c: Contact): (p: string)
    ensures p == "upsell" || p == "maintain"
    ensures c.revenue == 0 ==> p == "maintain"
  {
    if PredictRevenue(c) > c.revenue then "upsell" else "maintain"
  }

  function RecommendationsOf(c: Contact): seq<string> {
    [if IsHighScore(c) then "High-value contact - prioritize follow-up" else "Standard contact",
     if IsTech(c) then "Tech industry - consider technical demos" else "General approach",
     if c.revenue > 0 then "Existing customer - focus on retention" else "New prospect - qualification needed"]
  }

  /** The handler for a request body (name, email, company, revenue), where
      an absent company is "" and an absent revenue 0, and `id` is the key
      the database assigns to the new row. Without a name or an email the
      request is refused; otherwise the stored row is scored and labelled. */
  function AddContact(id: Id, name: string, email: string, company: string, revenue: nat): (r: Result<Enhanced>)
    ensures r.Err? <==> name == "" || email == ""
    ensures r.Err? ==> r.message == "name and email required"
    ensures r.Ok? ==> (r.value.contact == Contact(id, name, email, company, revenue)
                       && 15 <= r.value.aiScore <= 100
                       && (r.value.predictedRevenue == 0 <==> revenue == 0)
                       && |r.value.recommendations| == 3)
  {
    if name == "" || email == "" then Err("name and email required")
    else
      var c := Contact(id, name, email, company, revenue);
      Ok(Enhanced(c, Score(c), PredictRevenue(c),
                  ContactInsights(PriorityOf(c), CategoryOf(c), PotentialOf(c)),
                  RecommendationsOf(c)))
  }

  /** A contact without revenue has nothing to upsell and is a new
      prospect. */
  lemma NoRevenueIsMaintained(c: Contact)
    requires c.revenue == 0
    ensures PotentialOf(c) == "maintain"
    ensures RecommendationsOf(c)[2] == "New prospect - qualification needed"
  {
  }

  /** From a revenue of 2 on, the forecast always exceeds the revenue, so
      every such contact is an upsell. */
  lemma RevenueIsUpsell(c: Contact)
    requires c.revenue >= 2
    ensures PotentialOf(c) == "upsell"
  {
    PredictionExceedsRevenue(c);
  }

  /** High priority implies an upsell. */
  lemma HighPriorityIsUpsell(c: Contact)
    requires PriorityOf(c) == "high"
    ensures PotentialOf(c) == "upsell"
  {
    RevenueIsUpsell(c);
  }

  /** A high-value contact always has a revenue above 10000: it is also a
      high-priority, existing upsell customer. */
  lemma HighValueIsEstablished(c: Contact)
    requires IsHighScore(c)
    ensures PriorityOf(c) == "high" && PotentialOf(c) == "upsell"
    ensures RecommendationsOf(c)[2] == "Existing customer - focus on retention"
  {
    HighScoreNeedsRevenue(c);
    RevenueIsUpsell(c);
  }
}
