/** `generateAIResponse`: the chat assistant's reply to a question. The
    lower-cased question is matched against an ordered list of rules, each
    a set of words or phrases it must contain; the first rule that matches
    answers from the contact list, the top-clients list or fixed texts. */
module Chat {

  import opened Options
  import opened Text
  import opened Contacts
  import opened Scoring
  import opened Sorting
  import opened Insights

  /** The rules, in the order they are tried. */
  datatype Rule =
    | TechList | MostProfitable | LeastProfitable | CountQuery | ContactQuery | AnalyticsQuery
    | RecommendQuery | RevenueQuery | CompanyQuery | HelpQuery | Greeting | Fallback

  const RuleOrder: seq<Rule> := [TechList, MostProfitable, LeastProfitable, CountQuery, ContactQuery,
    AnalyticsQuery, RecommendQuery, RevenueQuery, CompanyQuery, HelpQuery, Greeting, Fallback]

  const ProfitPhrases: seq<string> := ["most profitable", "highest revenue", "best client", "top earner",
    "biggest client", "most valuable", "best person", "do business", "best to work", "top performer",
    "highest earner", "best customer"]

  const LossPhrases: seq<string> := ["most losing", "lowest revenue", "worst client", "least profitable",
    "smallest client", "least valuable", "poorest client", "lowest earner"]

  const CountWords: seq<string> := ["count", "how many", "total"]
  const ContactWords: seq<string> := ["contact", "client"]
  const AnalyticsWords: seq<string> := ["analytics", "insights", "analysis"]
  const RecommendWords: seq<string> := ["recommend", "suggest", "what should"]
  const RevenueWords: seq<string> := ["revenue", "income", "money"]
  const CompanyWords: seq<string> := ["company", "business"]
  const HelpWords: seq<string> := ["help", "what can"]
  const GreetingWords: seq<string> := ["yo", "hey", "hi"]

  /** The first rule's test: "tech" together with "top" or "client". */
  predicate TechAsked(q: string) {
    Contains(q, "tech") && (Contains(q, "top") || Contains(q, "client"))
  }

  /** The test of each rule on its own, whatever the rules before it say. */
  predicate Matches(r: Rule, q: string) {
    match r
    case TechList => TechAsked(q)
    case MostProfitable => MentionsAny(q, ProfitPhrases)
    case LeastProfitable => MentionsAny(q, LossPhrases)
    case CountQuery => MentionsAny(q, CountWords)
    case ContactQuery => MentionsAny(q, ContactWords)
    case AnalyticsQuery => MentionsAny(q, AnalyticsWords)
    case RecommendQuery => MentionsAny(q, RecommendWords)
    case RevenueQuery => MentionsAny(q, RevenueWords)
    case CompanyQuery => MentionsAny(q, CompanyWords)
    case HelpQuery => MentionsAny(q, HelpWords)
    case Greeting => MentionsAny(q, GreetingWords)
    case Fallback => true
  }

  /** The position of a rule in the order. */
  function Rank(r: Rule): (k: nat)
    ensures k < |RuleOrder| && RuleOrder[k] == r
  {
    match r
    case TechList => 0
    case MostProfitable => 1
    case LeastProfitable => 2
    case CountQuery => 3
    case ContactQuery => 4
    case AnalyticsQuery => 5
    case RecommendQuery => 6
    case RevenueQuery => 7
    case CompanyQuery => 8
    case HelpQuery => 9
    case Greeting => 10
    case Fallback => 11
  }

  /** The chain of `if`s of the reply function, on the lower-cased question. */
  function Classify(q: string): (r: Rule)
    ensures Matches(r, q)
  {
    if Contains(q, "tech") && (Contains(q, "top") || Contains(q, "client")) then TechList
    else if MentionsAny(q, ProfitPhrases) then MostProfitable
    else if MentionsAny(q, LossPhrases) then LeastProfitable
    else if MentionsAny(q, CountWords) then CountQuery
    else if MentionsAny(q, ContactWords) then ContactQuery
    else if MentionsAny(q, AnalyticsWords) then AnalyticsQuery
    else if MentionsAny(q, RecommendWords) then RecommendQuery
    else if MentionsAny(q, RevenueWords) then RevenueQuery
    else if MentionsAny(q, CompanyWords) then CompanyQuery
    else if MentionsAny(q, HelpWords) then HelpQuery
    else if MentionsAny(q, GreetingWords) then Greeting
    else Fallback
  }

  /** First match wins: the chosen rule matches the question, and no rule
      before it in the order does. */
  lemma {:induction false} Precedence(q: string)
    ensures Matches(Classify(q), q)
    ensures forall k :: 0 <= k < Rank(Classify(q)) ==> !Matches(RuleOrder[k], q)
  {
    var r := Classify(q);
    forall k | 0 <= k < Rank(r) ensures !Matches(RuleOrder[k], q) {
      assert Rank(RuleOrder[k]) == k;
    }
  }

  /** Phrases of later rules that also trigger the tech list. */
  const TechOverlaps: seq<string> := ["best client", "biggest client", "top earner", "top performer",
    "worst client", "smallest client", "poorest client", "client"]

  /** A question naming "tech" and one of those phrases gets the tech list,
      whatever else it asks for. */
  lemma TechOverridesLaterRules(q: string, k: nat)
    requires k < |TechOverlaps|
    requires Contains(q, "tech") && Contains(q, TechOverlaps[k])
    ensures Classify(q) == TechList
  {
    var p := TechOverlaps[k];
    if k in {2, 3} {
      assert p == "top" + p[3..];
      ContainsInfix([], "top", p[3..], "top");
      ContainsTrans(q, p, "top");
    } else {
      var i := |p| - 6;
      assert p == p[..i] + "client";
      ContainsSuffix(p[..i], "client");
      ContainsTrans(q, p, "client");
    }
  }

  /** The oracle for `Math.floor(Math.random() * responses.length)`: which
      of the four fallback texts is chosen. */
  type Pick = k: nat | k < 4

  /** `${x}` in a template literal. */
  function NumberText(x: Number): string {
    match x
    case Finite(n) => NatToString(n)
    case NotANumber => "NaN"
    case MinusInfinity => "-Infinity"
  }

  function RevenueKey(c: Contact): int {
    c.revenue
  }

  function ScoreKey(c: Contact): int {
    Score(c)
  }

  function Min(a: nat, b: nat): nat {
    if a < b then a else b
  }

  // Rule 1: the tech list.

  /** The number the question asks for, 10 when it holds no digit. */
  function RequestedCount(q: string): nat {
    match FirstNumber(q)
    case Some(n) => n
    case None => 10
  }

  /** The first n of a list by descending revenue: a top n of the list. */
  lemma TopNByRevenue(s: seq<Contact>, n: nat)
    ensures var top := Take(SortDesc(s, RevenueKey), n);
      |top| == Min(|s|, n) &&
      (forall c | c in top :: c in s) &&
      SortedDesc(top, RevenueKey) &&
      multiset(top) <= multiset(s) &&
      forall x, y | x in multiset(s) - multiset(top) && y in top :: y.revenue >= x.revenue
  {
    var sorted := SortDesc(s, RevenueKey);
    var top := Take(sorted, n);
    TakeSortedIsTop(s, RevenueKey, n);
    forall c | c in top ensures c in s {
      assert c in multiset(top);
    }
    forall i, j | 0 <= i < j < |top| ensures RevenueKey(top[i]) >= RevenueKey(top[j]) {
      assert top[i] == sorted[i] && top[j] == sorted[j];
    }
  }

  /** The tech contacts by descending revenue, cut to the requested count. */
  function TechTop(q: string, cs: seq<Contact>): (top: seq<Contact>)
    ensures |top| == Min(|Filter(cs, IsTech)|, RequestedCount(q))
    ensures forall c | c in top :: c in cs && IsTech(c)
    ensures SortedDesc(top, RevenueKey)
    ensures multiset(top) <= multiset(Filter(cs, IsTech))
    ensures forall x, y | x in multiset(Filter(cs, IsTech)) - multiset(top) && y in top :: y.revenue >= x.revenue
  {
    TopNByRevenue(Filter(cs, IsTech), RequestedCount(q));
    Take(SortDesc(Filter(cs, IsTech), RevenueKey), RequestedCount(q))
  }

  /** `${index + 1}. ${client.name} - $${revenue}` and a line break. */
  function TechLine(k: nat, c: Contact, fmt: Number -> string): string {
    NatToString(k) + ". " + c.name + " - $" + fmt(Finite(c.revenue)) + "\n"
  }

  /** The numbered lines of a list, from 1. */
  function TechLines(top: seq<Contact>, fmt: Number -> string): string {
    if top == [] then ""
    else TechLines(top[..|top| - 1], fmt) + TechLine(|top|, top[|top| - 1], fmt)
  }

  const NoTechText: string := "\U{1F50D} No tech clients found in your CRM!"

  const TechHeadText: string := "\U{1F680} Your top "

  lemma TechHeadHasNoDigit()
    ensures forall i :: 0 <= i < |TechHeadText| ==> !IsDigit(TechHeadText[i])
  {
  }

  function TechHeader(k: nat): string {
    TechHeadText + Counted(k, "tech clients:\n\n")
  }

  function TechReply(q: string, cs: seq<Contact>, fmt: Number -> string): string {
    var top := TechTop(q, cs);
    if top == [] then NoTechText
    else TechHeader(Min(|top|, RequestedCount(q))) + TechLines(top, fmt)
  }

  /** The tech branch as written: the header, then one `+=` per client. */
  method TechListReply(q: string, cs: seq<Contact>, fmt: Number -> string) returns (response: string)
    ensures response == TechReply(q, cs, fmt)
  {
    var techClients := Filter(cs, IsTech);
    var requestedCount := RequestedCount(q);
    var topTechClients := Take(SortDesc(techClients, RevenueKey), requestedCount);
    if |topTechClients| == 0 {
      return NoTechText;
    }
    response := AppendLines(TechHeader(Min(|topTechClients|, requestedCount)), topTechClients, fmt);
  }

  /** `topTechClients.forEach((client, index) => response += ...)`. */
  method AppendLines(header: string, top: seq<Contact>, fmt: Number -> string) returns (response: string)
    ensures response == header + TechLines(top, fmt)
  {
    response := header;
    var index := 0;
    while index < |top|
      invariant 0 <= index <= |top|
      invariant response == header + TechLines(top[..index], fmt)
    {
      assert top[..index + 1][..index] == top[..index];
      response := response + TechLine(index + 1, top[index], fmt);
      index := index + 1;
    }
    assert top[..index] == top;
  }

  /** The tech list is empty exactly when there is no tech contact or the
      question asks for none; otherwise the header's count is the number
      of clients listed, the first number of the reply. */
  lemma TechReplyFacts(q: string, cs: seq<Contact>, fmt: Number -> string)
    ensures TechTop(q, cs) == [] <==> Filter(cs, IsTech) == [] || RequestedCount(q) == 0
    ensures TechTop(q, cs) == [] ==> TechReply(q, cs, fmt) == NoTechText
    ensures TechTop(q, cs) != [] ==> FirstNumber(TechReply(q, cs, fmt)) == Some(|TechTop(q, cs)|)
  {
    var top := TechTop(q, cs);
    if top != [] {
      assert Min(|top|, RequestedCount(q)) == |top|;
      TechHeadHasNoDigit();
      var rest := "tech clients:\n\n" + TechLines(top, fmt);
      assert TechReply(q, cs, fmt) == TechHeadText + Counted(|top|, rest);
      CountedFirst(TechHeadText, |top|, rest);
    }
  }

  // Rules 2 and 3: the most and the least profitable contact.

  function ProfitReply(topClients: seq<Contact>, fmt: Number -> string): string {
    if topClients == [] then "\U{1F4B0} No profitable clients data available yet. Add some contacts to see rankings!"
    else "\U{1F4B0} Your most profitable person is " + topClients[0].name + " with $"
         + fmt(Finite(topClients[0].revenue)) + " in revenue!"
  }

  /** The first contact by ascending revenue: one with the least revenue. */
  function Lowest(cs: seq<Contact>): (c: Contact)
    requires cs != []
    ensures c in cs && forall d | d in cs :: c.revenue <= d.revenue
  {
    var sorted := SortAsc(cs, RevenueKey);
    assert sorted[0] in multiset(cs);
    forall d | d in cs ensures sorted[0].revenue <= d.revenue {
      assert d in multiset(sorted);
      var k :| 0 <= k < |sorted| && sorted[k] == d;
      assert k == 0 || RevenueKey(sorted[0]) <= RevenueKey(sorted[k]);
    }
    sorted[0]
  }

  function LossReply(cs: seq<Contact>, fmt: Number -> string): string {
    if cs == [] then "\U{1F4C9} No client data available yet. Add some contacts to see rankings!"
    else "\U{1F4C9} Your most losing person is " + Lowest(cs).name + " with $"
         + fmt(Finite(Lowest(cs).revenue)) + " in revenue!"
  }

  // Rules 4 and 5: counting and contact questions.

  const YouHave: string := "\U{1F4CA} You have "

  /** Both branches of the count rule give the same text. */
  function CountReply(q: string, n: nat): string {
    if MentionsAny(q, ["contact", "client", "crm"]) then YouHave + Counted(n, "contacts in your CRM!")
    else YouHave + Counted(n, "contacts in your CRM!")
  }

  /** The four sub-cases of the contact rule, tried in this order. */
  datatype Topic = TotalTopic | TopTopic | RevenueTopic | OtherTopic

  function ContactTopic(q: string): Topic {
    if MentionsAny(q, ["total", "how many"]) then TotalTopic
    else if MentionsAny(q, ["top", "best"]) then TopTopic
    else if MentionsAny(q, ["revenue", "money"]) then RevenueTopic
    else OtherTopic
  }

  const TeamHave: string := "\U{1F465} You have "

  function ContactReply(q: string, cs: seq<Contact>, topClients: seq<Contact>, fmt: Number -> string): string {
    match ContactTopic(q)
    case TotalTopic => YouHave + Counted(|cs|, "total contacts in your CRM!")
    case TopTopic =>
      if topClients == [] then "\U{1F3C6} No top clients data available yet. Add some contacts to see rankings!"
      else "\U{1F3C6} Your top client is " + topClients[0].name + " with $"
           + fmt(Finite(topClients[0].revenue)) + " in revenue!"
    case RevenueTopic => "\U{1F4B0} Total revenue across all contacts: $" + fmt(Finite(TotalRevenue(cs))) + "!"
    case OtherTopic => TeamHave + Counted(|cs|, "contacts in your CRM!")
  }

  /** A question reaching the contact rule holds neither "total" nor "how
      many": those go to the count rule first, so the contact rule's own
      total sub-case never answers. */
  lemma ContactTotalUnreachable(q: string)
    requires Classify(q) == ContactQuery
    ensures !Contains(q, "total") && !Contains(q, "how many")
    ensures ContactTopic(q) != TotalTopic
  {
    MentionsAnyIff(q, CountWords);
    assert CountWords[1] == "how many" && CountWords[2] == "total";
    var words := ["total", "how many"];
    MentionsAnyIff(q, words);
    assert words[0] == "total" && words[1] == "how many";
  }

  // Rules 6 and 7: analytics and recommendations.

  /** `reduce` of `calculateScore` over the contacts. */
  function ScoreTotal(cs: seq<Contact>): (t: nat)
    ensures 15 * |cs| <= t <= 100 * |cs|
  {
    if cs == [] then 0 else ScoreTotal(cs[..|cs| - 1]) + Score(cs[|cs| - 1])
  }

  /** `Math.round(total / contacts.length)`: NaN without contacts. */
  function AverageScore(cs: seq<Contact>): (a: Number)
    ensures cs == [] <==> a.NotANumber?
    ensures a.Finite? ==> 15 <= a.value <= 100
  {
    if cs == [] then NotANumber
    else
      var a := RoundedMean(ScoreTotal(cs), |cs|);
      MeanWithin(ScoreTotal(cs), |cs|, a);
      Finite(a)
  }

  /** A rounded mean of values between 15 and 100 lies between them. */
  lemma MeanWithin(t: nat, n: nat, a: nat)
    requires n > 0 && 15 * n <= t <= 100 * n && a == (2 * t + n) / (2 * n)
    ensures 15 <= a <= 100
  {
    MeanBounds(t, n, a);
    assert (a + 1) * n == a * n + n && 101 * n == 100 * n + n;
    FactorLess(15, a + 1, n);
    FactorLess(a, 101, n);
  }

  /** Comparing two multiples of the same positive number. */
  lemma FactorLess(x: int, y: int, n: int)
    requires n > 0 && x * n < y * n
    ensures x < y
  {
    assert (y - x) * n == y * n - x * n;
  }

  /** The first contact by descending score: one with the highest score. */
  function TopPerformer(cs: seq<Contact>): (c: Contact)
    requires cs != []
    ensures c in cs && forall d | d in cs :: Score(d) <= Score(c)
  {
    SortDescFirstIsMax(cs, ScoreKey);
    var sorted := SortDesc(cs, ScoreKey);
    assert sorted[0] in multiset(cs);
    sorted[0]
  }

  /** `topPerformer?.name || 'N/A'`. */
  function PerformerName(cs: seq<Contact>): string {
    if cs == [] || TopPerformer(cs).name == "" then "N/A" else TopPerformer(cs).name
  }

  function AnalyticsReply(cs: seq<Contact>): string {
    "\U{1F9E0} AI Insights: " + Counted(|cs|, "contacts analyzed. Average AI score: ")
      + NumberText(AverageScore(cs)) + "/100. Top performer: " + PerformerName(cs) + "!"
  }

  function RecommendReply(cs: seq<Contact>): string {
    var k := |Filter(cs, IsHighScore)|;
    if k > 0 then "\U{1F3AF} Top recommendation: Focus on your "
                  + Counted(k, "high-value contacts! They have AI scores above 70.")
    else "\U{1F4A1} I recommend checking your top clients and focusing on high-revenue contacts!"
  }

  // Rules 8 and 9: revenue and company analysis.

  /** The mean and the largest revenue, NaN and minus infinity without
      contacts. */
  function RevenueAverage(cs: seq<Contact>): Number {
    if cs == [] then NotANumber else Finite(AverageRevenue(cs))
  }

  function RevenueMax(cs: seq<Contact>): Number {
    if cs == [] then MinusInfinity else Finite(MaxRevenue(cs))
  }

  function RevenueReply(cs: seq<Contact>, fmt: Number -> string): string {
    "\U{1F4B0} Revenue Analysis:\n\U{2022} Total Revenue: $" + fmt(Finite(TotalRevenue(cs)))
      + "\n\U{2022} Average per Contact: $" + fmt(RevenueAverage(cs))
      + "\n\U{2022} Highest Single Revenue: $" + fmt(RevenueMax(cs))
  }

  function CompanyReply(cs: seq<Contact>): string {
    var companies := |CompanySet(cs)|;
    "\U{1F3E2} Company Analysis:\n\U{2022} Total Companies: " + NatToString(companies)
      + "\n\U{2022} Tech Companies: " + NatToString(|Filter(cs, IsTech)|)
      + "\n\U{2022} Unique Industries: " + Counted(companies, "different companies")
  }

  // Rules 10 to 12: help, greetings and the fallback texts.

  const HelpText: string :=
    "\U{1F916} I can help you with:\n"
    + "\U{2022} Contact information and statistics\n"
    + "\U{2022} Revenue analysis and predictions  \n"
    + "\U{2022} AI insights and recommendations\n"
    + "\U{2022} Analytics and trends\n"
    + "\U{2022} General CRM questions\n\n"
    + "Try asking: \"How many contacts do I have?\" or \"Who is my top client?\""

  const HeyHave: string := "\U{1F44B} Hey! You have "

  const GreetingTail: string := "contacts in your CRM! What else would you like to know?"

  function GreetingReply(n: nat): string {
    HeyHave + Counted(n, GreetingTail)
  }

  /** The text leading up to the count in each fallback text. */
  function FallbackLead(pick: Pick): string {
    match pick
    case 0 => "\U{1F914} I'm not sure what you're asking." + " You have "
    case 1 => "\U{1F4AD} You have "
    case 2 => "\U{1F9E0} You have "
    case 3 => "\U{2728} You have "
  }

  /** The text after the count in each fallback text. */
  function FallbackTail(pick: Pick): string {
    match pick
    case 0 => "contacts. Try asking \"how many contacts\" or \"who is my top client\"!"
    case 1 => "contacts in your CRM. Ask me about revenue, top clients, or analytics!"
    case 2 => "contacts. I can help with revenue analysis, top clients, or AI insights!"
    case 3 => "contacts! Try asking about totals, revenue, or recommendations!"
  }

  function FallbackReply(pick: Pick, n: nat): string {
    FallbackLead(pick) + Counted(n, FallbackTail(pick))
  }

  /** The reply of rule r to the lower-cased question q. */
  function Answer(r: Rule, q: string, cs: seq<Contact>, topClients: seq<Contact>, pick: Pick,
                  fmt: Number -> string): string {
    match r
    case TechList => TechReply(q, cs, fmt)
    case MostProfitable => ProfitReply(topClients, fmt)
    case LeastProfitable => LossReply(cs, fmt)
    case CountQuery => CountReply(q, |cs|)
    case ContactQuery => ContactReply(q, cs, topClients, fmt)
    case AnalyticsQuery => AnalyticsReply(cs)
    case RecommendQuery => RecommendReply(cs)
    case RevenueQuery => RevenueReply(cs, fmt)
    case CompanyQuery => CompanyReply(cs)
    case HelpQuery => HelpText
    case Greeting => GreetingReply(|cs|)
    case Fallback => FallbackReply(pick, |cs|)
  }

  /** The reply to `input`, given the contacts, the top clients by revenue
      and the fallback pick; `fmt` stands for `toLocaleString`. */
  function Respond(input: string, cs: seq<Contact>, topClients: seq<Contact>, pick: Pick,
                   fmt: Number -> string): (reply: string)
    ensures TechAsked(Lower(input)) ==> reply == TechReply(Lower(input), cs, fmt)
  {
    var q := Lower(input);
    Answer(Classify(q), q, cs, topClients, pick, fmt)
  }

  /** `generateAIResponse`: classify the lower-cased question, then answer
      by the chosen rule; the tech list is built line by line. */
  method GenerateAIResponse(userInput: string, contacts: seq<Contact>, topClients: seq<Contact>, pick: Pick,
                            fmt: Number -> string) returns (reply: string)
    ensures reply == Respond(userInput, contacts, topClients, pick, fmt)
  {
    var input := Lower(userInput);
    var rule := Classify(input);
    if rule == TechList {
      reply := TechListReply(input, contacts, fmt);
    } else {
      reply := Answer(rule, input, contacts, topClients, pick, fmt);
    }
  }

  lemma YouHaveHasNoDigit()
    ensures forall i :: 0 <= i < |YouHave| ==> !IsDigit(YouHave[i])
  {
  }

  lemma TeamHaveHasNoDigit()
    ensures forall i :: 0 <= i < |TeamHave| ==> !IsDigit(TeamHave[i])
  {
  }

  lemma HeyHaveHasNoDigit()
    ensures forall i :: 0 <= i < |HeyHave| ==> !IsDigit(HeyHave[i])
  {
  }

  lemma FallbackLeadHasNoDigit(pick: Pick)
    ensures forall i :: 0 <= i < |FallbackLead(pick)| ==> !IsDigit(FallbackLead(pick)[i])
  {
  }

  /** Each fallback text states the number of contacts as its first number. */
  lemma FallbackCount(pick: Pick, n: nat)
    ensures FirstNumber(FallbackReply(pick, n)) == Some(n)
  {
    FallbackLeadHasNoDigit(pick);
    var rest := FallbackTail(pick);
    assert FallbackReply(pick, n) == FallbackLead(pick) + Counted(n, rest);
    CountedFirst(FallbackLead(pick), n, rest);
  }

  /** A count question, caught before the contact rule whether or not it
      names contacts, is answered with the number of contacts. */
  lemma CountRuleReply(input: string, cs: seq<Contact>, topClients: seq<Contact>, pick: Pick,
                       fmt: Number -> string)
    requires Classify(Lower(input)) == CountQuery
    ensures Respond(input, cs, topClients, pick, fmt) == YouHave + Counted(|cs|, "contacts in your CRM!")
    ensures FirstNumber(Respond(input, cs, topClients, pick, fmt)) == Some(|cs|)
  {
    YouHaveHasNoDigit();
    CountedFirst(YouHave, |cs|, "contacts in your CRM!");
  }

  /** The contact rule's last sub-case also answers with the count. */
  lemma ContactRuleReply(input: string, cs: seq<Contact>, topClients: seq<Contact>, pick: Pick,
                         fmt: Number -> string)
    requires Classify(Lower(input)) == ContactQuery && ContactTopic(Lower(input)) == OtherTopic
    ensures FirstNumber(Respond(input, cs, topClients, pick, fmt)) == Some(|cs|)
  {
    assert Respond(input, cs, topClients, pick, fmt) == ContactReply(Lower(input), cs, topClients, fmt);
    assert ContactReply(Lower(input), cs, topClients, fmt) == TeamHave + Counted(|cs|, "contacts in your CRM!");
    TeamHaveHasNoDigit();
    CountedFirst(TeamHave, |cs|, "contacts in your CRM!");
  }

  /** So do the greeting and every fallback text, whichever is picked. */
  lemma GreetingRuleReply(input: string, cs: seq<Contact>, topClients: seq<Contact>, pick: Pick,
                          fmt: Number -> string)
    requires Classify(Lower(input)) == Greeting
    ensures FirstNumber(Respond(input, cs, topClients, pick, fmt)) == Some(|cs|)
  {
    assert Respond(input, cs, topClients, pick, fmt) == GreetingReply(|cs|);
    HeyHaveHasNoDigit();
    CountedFirst(HeyHave, |cs|, GreetingTail);
  }

  lemma FallbackRuleReply(input: string, cs: seq<Contact>, topClients: seq<Contact>, pick: Pick,
                          fmt: Number -> string)
    requires Classify(Lower(input)) == Fallback
    ensures FirstNumber(Respond(input, cs, topClients, pick, fmt)) == Some(|cs|)
  {
    FallbackCount(pick, |cs|);
  }
}
