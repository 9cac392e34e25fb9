# Contact intelligence engine of the CRM server

This project models the contact-intelligence core of the CRM back end in
`server.js`, and proves properties of that model. The model covers:

- the lead score (`calculateScore`) and the revenue forecast (`predictRevenue`);
- the relationship detector (`findConnections`);
- the `/ai-insights`, `/relationship-map`, `/analytics` and
  `/recommendations` reports;
- the rule-based chat responder (`generateAIResponse`);
- the enrichment of a new contact in `POST /contacts`.

Each handler becomes a function from the list of contacts to the report it
returns. A loop in the source that pushes onto a list becomes a `method`
with a `while` loop. That method is proved equal to the function that
specifies it, and the properties are proved as lemmas about the function.

The modules are:

- `Options`: the `Option` type;
- `Text`: ASCII lower-casing, `includes`, the decimal text of a number, and
  the first number in a text;
- `Sorting`: the stable descending and ascending sorts and `slice(0, n)`;
- `Contacts`: the contact record, `filter`, revenue sums and `Math.round`;
- `Scoring`: the score and the forecast;
- `Graph`: the five pair rules and the pair loop of `findConnections`;
- `Insights`: `/ai-insights` and the per-company dictionary;
- `RelationshipMap`: `/relationship-map`;
- `Analytics`: `/analytics`;
- `Recommendations`: `/recommendations`;
- `Enhance`: `POST /contacts`;
- `Chat`: the chat responder.

These things are parameters of the model, because they are not part of the
engine:

- The database rows are a `seq<Contact>`. A missing company, email or
  name is the empty text, and a missing revenue is 0. Every test in the
  engine treats a missing value and an empty one alike; the chat texts
  that print a name differ (see "## Left out").
- `Math.random()` in the "strategic" rule of `findConnections` is an
  oracle `draw(i, j)`, one answer per pair of positions. `Math.random()` in
  the chat fallback is a `Pick` in 0..3.
- `toLocaleString()` is a formatter `fmt` from a `Number` to text. A
  `Number` is a finite value, `NaN` or `-Infinity`; the chat report
  prints the last two for an empty contact list.
- The `topClients` list that the chat route fetches with its own query is a
  parameter of `Chat.Respond`.

## Model

| member | source | states |
|---|---|---|
| Text.Lower | server.js:427 | same length; each character is mapped by the ASCII lower-case map; no upper-case letter is left |
| Text.LowerIdempotent | server.js:427 | lower-casing twice equals lower-casing once |
| Text.ContainsIff | server.js:430 | the recursive `includes` holds exactly when the needle occurs at some position |
| Text.ContainsInfix | server.js:430 | a text containing t still contains t after text is added on either side |
| Text.ContainsTrans | server.js:430 | containment is transitive |
| Text.FirstNumber | server.js:434-435 | it finds no number exactly when the text has no digit |
| Text.ParseNatToString | server.js:435 | reading back the decimal text of n gives n |
| Text.FirstNumberAfter | server.js:434-435 | the first number in prefix + digits of n + rest is n, when the prefix has no digit and rest does not start with one |
| Text.CountedFirst | server.js:476 | the first number in a digit-free prefix followed by "n text" is n |
| Sorting.InsertDesc | server.js:252-253 | inserting into a descending list gives a descending list with the element added |
| Sorting.SortDesc | server.js:252-253 | the result is a permutation of the input and is descending by key |
| Sorting.SortAsc | server.js:348 | the result is a permutation of the input and is ascending by key |
| Sorting.SortDescStable | server.js:252-253 | the descending sort is stable: the elements with any one key keep their input order |
| Sorting.SortAscStable | server.js:348 | the ascending sort is stable in the same sense |
| Sorting.Take | server.js:365 | `slice(0, n)` gives the first min(n, length) elements |
| Sorting.SortDescFirstIsMax | server.js:502-504 | the head of the descending sort has the largest key |
| Sorting.TakeSortedIsTop | server.js:365-366 | the first n of the descending sort are a sub-multiset in descending order, and every element left out has a key no larger than any kept |
| Contacts.RoundedMean | server.js:205 | `Math.round(total / n)` equals (2·total + n) div 2n |
| Contacts.Filter | server.js:211-213 | the filtered list is no longer than the input and holds exactly the members that satisfy the predicate |
| Contacts.FilterConcat | server.js:211-213 | filtering distributes over concatenation |
| Contacts.FilterSplit | server.js:642-647 | a predicate and its negation together count every contact |
| Contacts.FilterTwice | server.js:211-213 | filtering by p and then q equals filtering by p and q |
| Contacts.FilterPermutation | server.js:365-374 | filtering a reordering gives a reordering of the filtered list |
| Contacts.TotalRevenueConcat | server.js:204 | the revenue sum distributes over concatenation |
| Contacts.TotalRevenuePermutation | server.js:365-374 | the revenue sum does not depend on the order of the contacts |
| Contacts.MaxRevenue | server.js:522 | the maximum is at least every revenue and is the revenue of some contact |
| Scoring.MentionsAnyIff | server.js:55-66 | the `some(...)` keyword test holds exactly when some keyword occurs |
| Scoring.Score | server.js:48-74 | every score is between 15 and 100; a contact maxing every factor scores 100 |
| Scoring.CalculateScore | server.js:48-74 | the imperative score equals `Score` |
| Scoring.RoundRevenueTerm | server.js:51-73 | rounding the sum of the capped revenue term and whole points gives rounded revenue points plus those points |
| Scoring.HighScoreNeedsRevenue | server.js:48-74 | a score above 70 needs at least 10500 of revenue |
| Scoring.PredictRevenue | server.js:34-45 | the forecast is 0 exactly when the revenue is 0 |
| Scoring.PredictionIsQuadratic | server.js:34-45 | the forecast lies between 0.96·r² and 2.808·r² for revenue r, up to rounding: it grows with the square of the revenue |
| Scoring.PredictionExceedsRevenue | server.js:34-45 | a revenue of 2 or more is always forecast to grow |
| Graph.DomainOfAddress | server.js:96-97 | `split('@')[1]` of local@domain is the domain |
| Graph.UpToAtNoAt | server.js:96-97 | a part without '@' is kept whole |
| Graph.DomainOf | server.js:96-97 | the domain holds no '@'; it is empty for an address without '@', and otherwise it is the text after the first '@' up to the next one |
| Graph.EmitRules | server.js:85-147 | every emitted edge joins the two contacts with its kind's strength and its rule fired; every rule that fired emitted an edge |
| Graph.EmitOrdered | server.js:85-147 | edges come out in the source's rule order |
| Graph.EmitCount | server.js:85-147 | at most one edge per rule; without a strategic draw one fewer |
| Graph.PairEdges | server.js:84-147 | every edge of a pair goes from the earlier to the later contact with its kind's strength and its rule fired; at most 5 edges, 4 without the strategic draw |
| Graph.PairEdgesRules | server.js:81-147 | a pair has an edge of kind k exactly when rule k fires; edges are ordered by rule; at most 5, or 4 without the strategic draw |
| Graph.ColleagueEdge | server.js:84-93 | for two contacts at the same company (case-insensitively) the pair yields exactly one colleague edge, first among its edges, from the earlier to the later contact with strength 0.9; the test is symmetric |
| Graph.CaseInsensitiveCompany | server.js:85-86 | "Acme Inc" and "ACME INC" count as the same company |
| Graph.PairConnections | server.js:84-147 | the five guarded pushes produce `PairEdges` |
| Graph.SourceOrder | server.js:84-147 | pushing rule by rule in source order gives `PairEdges` |
| Graph.PairEdgesInOrder | server.js:84-147 | the edges of a pair are the colleague, domain, high-value, tech-network and strategic edges, each present exactly when its test holds, in that order |
| Graph.RowPairsMembers | server.js:80 | the inner loop visits exactly the pairs (i, j) with i < j < n |
| Graph.PairsBelowMembers | server.js:79-80 | the first m outer rounds visit exactly the pairs i < m, i < j < n |
| Graph.PairListMembers | server.js:79-80 | the nested loops visit every unordered pair once: n(n-1)/2 pairs |
| Graph.PairCountClosed | server.js:79-80 | the number of pairs after m rounds is m(2n-m-1)/2 |
| Graph.PairListSorted | server.js:79-80 | pairs are visited in lexicographic order |
| Graph.EdgesOfConcat | server.js:79-148 | the edges of two runs of pairs concatenate |
| Graph.ConnectRow | server.js:80-148 | the inner loop appends the edges of row i |
| Graph.FindConnections | server.js:77-151 | the nested loops return `Connections` |
| Graph.Connections | server.js:77-151 | every edge's strength is its kind's fixed strength, in (0, 1] |
| Graph.EdgesOfStrengths | server.js:79-148 | the edges of any run of pairs carry their kinds' strengths, in (0, 1] |
| Graph.OriginsJoin | server.js:79-148 | each edge joins the two contacts of the pair that emitted it |
| Graph.OriginsOrder | server.js:79-148 | edges appear in pair order, and by rule within a pair |
| Graph.ConnectionsOrdered | server.js:77-151 | every edge comes from a pair i < j; edges are ordered by pair and then by rule |
| Graph.NoSelfEdges | server.js:79-148 | with distinct ids no edge joins a contact to itself |
| Graph.EdgesOfCount | server.js:79-148 | at most 5 edges per pair, 4 with no strategic draw |
| Graph.ConnectionsCount | server.js:77-151 | at most 5·n(n-1)/2 edges, 4·n(n-1)/2 with no strategic draw |
| Insights.Find | server.js:220 | the lookup returns the first entry of the company, or the length when there is none |
| Insights.Rollup | server.js:218-226 | the corrected dictionary has distinct keys and at most one entry per contact |
| Insights.RollupAsWritten | server.js:218-226 | the dictionary as written has distinct keys: the contacts' companies, less the names an object inherits |
| Insights.CompanyRollup | server.js:218-226 | the `forEach` loop, run with the corrected lookup, builds `Rollup`: one entry per company counting its contacts and summing their revenue |
| Insights.CreditKeys | server.js:219-224 | crediting one contact adds at most its company as a new key and keeps keys distinct |
| Insights.RollupKeys | server.js:218-226 | the dictionary has distinct keys, and they are exactly the contacts' companies |
| Insights.CreditEntry | server.js:219-224 | crediting a contact adds 1 and its revenue to its company's entry and leaves the other entries alone |
| Insights.RollupEntry | server.js:218-226 | a company's entry counts the contacts naming it and sums their revenue; it exists exactly when one does |
| Insights.CreditFindOther | server.js:219-224 | crediting one company does not create an entry for another |
| Insights.CreditTotals | server.js:219-224 | crediting a contact with a company adds 1 to the count sum and its revenue to the revenue sum |
| Insights.RollupTotals | server.js:218-226 | the counts add up to the contacts with a company, and the revenues to their revenue |
| Insights.RollupSize | server.js:218-226 | one entry per distinct company |
| Insights.InheritedCompanyIsLost | server.js:219-224 | the code as written: a contact whose company is "constructor" is not counted |
| Insights.FactorsAgainstScore | server.js:242-247 | the displayed name factor equals the scored one; the rounded revenue factor equals the revenue points; the company factor never exceeds the scored one |
| Insights.DomainFactorDiffers | server.js:245 | for an address with no "@g", "@c" or "@e", the displayed domain factor is 20 although the score counts 10 |
| Insights.FactorsOf | server.js:242-247 | the revenue factor lies in 0..40; the company factor is 0 exactly without a company and at most 30; the domain factor is 10 or 20; the name factor is 10 exactly for names longer than ten characters |
| Insights.TechContactExample | server.js:48-74 | a tech contact with 12000 in revenue, a name longer than ten characters and an address at a provider starting with none of "g", "c", "e" scores 62, with a displayed company factor of 30 and domain factor of 20 |
| Insights.NoMarker | server.js:245 | a text where '@' is never followed by a given letter contains no marker starting with '@' and that letter |
| Insights.TrendsOf | server.js:210-214 | each trend counter is at most the number of contacts and is 0 exactly when no contact passes its test; the high-value counter is the number of contacts above 10000 |
| Insights.AverageRevenue | server.js:205 | 0 for no contacts; otherwise the nearest whole number to the mean, halves rounded up |
| Insights.PredictAndScore | server.js:229-249 | the loop pushes one prediction and one score record per contact, in order |
| Insights.BuildInsights | server.js:202-253 | the report's totals, average, dictionary, trends and connections; its scores and predictions are permutations sorted by score and by forecast |
| RelationshipMap.Nodes | server.js:310-317 | one node per contact, in order |
| RelationshipMap.NodeOf | server.js:310-317 | a node keeps the contact's id, name, company and revenue, has a score in 15..100, and a non-empty group that is the company exactly when there is one |
| RelationshipMap.NodeFacts | server.js:310-317 | every node's score is between 15 and 100 and its group is non-empty; the group is the company exactly when the contact has one |
| RelationshipMap.BuildRelationshipMap | server.js:309-326 | nodes, connections, and stats counting nodes, connections and distinct companies |
| Analytics.SortedRevenues | server.js:348 | the sorted revenues are a permutation of the revenues, ascending |
| Analytics.Median | server.js:348 | 0 without contacts, otherwise one of the revenues |
| Analytics.CountIf | server.js:348 | the count is 0 exactly when no element passes, and the length exactly when all do |
| Analytics.MedianSplits | server.js:348 | the median is some contact's revenue; at most ⌊n/2⌋ revenues lie below it and at most n-⌊n/2⌋-1 above |
| Analytics.CountIfPermutation | server.js:348 | counting does not depend on order |
| Analytics.RangesPartition | server.js:351-356 | the four revenue ranges count every contact exactly once |
| Analytics.OtherIsTheRest | server.js:357-362 | "other" plus the contacts of some type is the total; a contact without a company is "other" |
| Analytics.CompanyTotals | server.js:367-374 | one (company, revenue) pair per dictionary entry, in key order |
| Analytics.TopPerformersOf | server.js:364-375 | `byRevenue` and `byScore` hold min(n, 5) entries; `byCompany` at most 5 and at most n |
| Analytics.TopByRevenue | server.js:365 | `byRevenue` holds min(n, 5) contacts of the list in descending order of revenue, and none left out has more revenue than one kept |
| Analytics.TopByScore | server.js:366 | `byScore` holds min(n, 5) contacts of the list with their own scores, in descending order of score, and none left out scores higher than one kept |
| Analytics.TopByCompany | server.js:365-374 | `byCompany` holds min(companies, 5) entries in descending order of total, each a company of the list with its total revenue, and no company left out has a larger total than one kept |
| Analytics.ByCompanyTotals | server.js:365-374 | each company's figure is the total revenue of its contacts, despite the sort in front |
| Analytics.OpportunitiesMatchRanges | server.js:351-381 | new opportunities plus upsells equal the two lowest ranges; high-value contacts are among the 10K+ range |
| Analytics.AnalyticsOf | server.js:343-382 | the report counts and totals every contact; its four ranges count each contact once; "other" is what the three company types leave; new opportunities plus upsells are the two lowest ranges |
| Analytics.EmptyReport | server.js:343-382 | with no contacts every figure is 0 and every list is empty |
| Recommendations.ImmediateOfAtMostOne | server.js:590-608 | a contact gets at most one immediate action, and gets one exactly when its revenue is below 2000 |
| Recommendations.Immediate | server.js:589-608 | the immediate list has one item per contact below 2000, each an outreach or an upsell |
| Recommendations.ImmediateIsLowRevenue | server.js:589-608 | the immediate list is one action per contact below 2000, in order: outreach at 0, upsell otherwise |
| Recommendations.ImmediateCount | server.js:589-608 | the immediate count is the no-revenue count plus the small-revenue count |
| Recommendations.WeeklyNotImmediate | server.js:590-619 | a contact in the weekly list is never in the immediate list |
| Recommendations.BucketIsFilter | server.js:611-630 | a bucket is one item per contact that passes its test, in order |
| Recommendations.ActiveAndIdle | server.js:642-647 | active customers plus contacts with no revenue make up every contact |
| Recommendations.InsightsOf | server.js:634-650 | three insights; the first number in the growth message is the active count, and in the opportunity message the no-revenue count |
| Recommendations.Recommend | server.js:578-650 | the loop builds the immediate list, the weekly list of scores above 70, the monthly list of tech companies, and the three insights |
| Enhance.AddContact | server.js:696-729 | a missing name or email is refused with "name and email required"; otherwise the stored contact, a score in 15..100, a forecast that is 0 exactly for no revenue, and three recommendations |
| Enhance.PotentialOf | server.js:711 | the potential is "upsell" or "maintain", and "maintain" for a contact without revenue |
| Enhance.NoRevenueIsMaintained | server.js:711-728 | a contact without revenue has "maintain" potential and is a new prospect |
| Enhance.RevenueIsUpsell | server.js:711 | a revenue of 2 or more always gives "upsell" potential |
| Enhance.HighPriorityIsUpsell | server.js:709-711 | a "high" priority contact always has "upsell" potential |
| Enhance.HighValueIsEstablished | server.js:709-728 | a contact scoring above 70 has high priority, upsell potential and is an existing customer |
| Chat.Precedence | server.js:426-566 | the rule chosen matches the lowered input, and no earlier rule in the chain does |
| Chat.Classify | server.js:430-566 | the rule chosen by the `if` chain matches the question |
| Chat.TechOverridesLaterRules | server.js:430-482 | an input naming "tech" together with "top" or "client" always gets the tech list, even when it also asks for profit, loss or clients |
| Chat.ContactTotalUnreachable | server.js:474-496 | the "total" branch of the contact rule is dead: the count rule takes every such input first |
| Chat.TopNByRevenue | server.js:434-437 | the first n by revenue are min(n, length) contacts of the list, descending, and none left out has more revenue than one kept |
| Chat.TechTop | server.js:431-437 | the tech list holds min(tech contacts, N) tech contacts by descending revenue, with no bigger tech contact left out |
| Chat.AppendLines | server.js:443-446 | the `+=` loop appends one line per contact |
| Chat.TechListReply | server.js:430-448 | the tech branch returns `TechReply` |
| Chat.TechReplyFacts | server.js:434-447 | the reply is the "no tech" text exactly when there is no tech contact or N is 0; otherwise its first number is the list length |
| Chat.Lowest | server.js:466-467 | the head of the ascending sort is a contact of least revenue |
| Chat.ScoreTotal | server.js:501 | the score sum lies between 15n and 100n |
| Chat.AverageScore | server.js:501 | `NaN` exactly for no contacts, otherwise between 15 and 100 |
| Chat.TopPerformer | server.js:502-504 | the performer named is a contact of maximal score |
| Chat.GenerateAIResponse | server.js:426-567 | the responder returns `Respond`, the reply of the rule `Classify` picks |
| Chat.Respond | server.js:426-567 | a question naming "tech" with "top" or "client" is answered by the tech list, whatever else it contains |
| Chat.CountRuleReply | server.js:474-479 | the count reply is "You have n contacts in your CRM!" and its first number is n |
| Chat.ContactRuleReply | server.js:482-496 | the general contact reply's first number is the number of contacts |
| Chat.GreetingRuleReply | server.js:554-556 | the greeting's first number is the number of contacts |
| Chat.FallbackCount | server.js:559-566 | each of the four fallback texts has the number of contacts as its first number |
| Chat.FallbackRuleReply | server.js:559-566 | the fallback reply's first number is the number of contacts, whichever text is picked |

## Left out

- Lower-casing covers ASCII letters only. Lengths count code points, whereas JavaScript strings count UTF-16 units, so an emoji counts once here.
- Arithmetic is on exact reals and unbounded integers, not IEEE doubles. `Math.round` is modelled as floor(x + 0.5).
- Revenue is a `nat`. A negative or fractional revenue, and the failure of `topClient.revenue.toLocaleString()` on a `null` revenue in the chat branches, are not modelled.
- `toLocaleString` is the parameter `fmt`. Its grouping separators are not modelled.
- `parseInt` on the chat input is exact on any run of digits; the rounding of very long digit runs to a double is not modelled.
- The 15% probability of the strategic edge is not modelled: `draw` may answer anything.
- The chat fallback's random choice is the parameter `pick`.
- The random `confidence` of a forecast in `/ai-insights` (server.js:235) is not modelled.
- Supabase queries, their ordering and limits, the row id the insert assigns, and the error path of a failing query are not modelled. `topClients` and the new id are parameters.
- WebSocket broadcasting (`notifyClients`), timestamps, logging and the HTTP status codes are not modelled, apart from the 400 refusal in `Enhance.AddContact`.
- The `GET /contacts`, `GET /predict-revenue/:contactId` (with its random confidence at server.js:279), `GET /top-clients`, `GET /search` and `GET /health` handlers, the chat route's 400 for a missing message, and a `null` data set from the database are not modelled.
- The JSON response envelopes are not modelled: each handler returns its report as a datatype.
- The in-place sorts at server.js:365 and 466 are modelled as sorted copies. Their effect on the later `byScore` and `byCompany` figures is modelled; no later code sees the sort at 466.
- `Object.entries` yields keys in insertion order here. JavaScript puts integer-like keys first; that order is not modelled.
- Analytics.CompanyTotals: computes the `byCompany` totals with the corrected per-company dictionary, so a company named like an `Object.prototype` member ("constructor", "toString") is totalled. The code would instead concatenate that inherited member's text with the revenue.
- Insights.FactorsAgainstScore: the displayed factors are modelled as the source writes them, with a company factor of 30/15/0 and a domain factor of 10/20 keyed on "@gmail.com". The score itself uses other keywords and domains, so the lemma relates the two only where they agree.
- A contact whose name is `null` is printed as "null" by the template strings of the tech list, the most profitable and the most losing chat answers (server.js:445, 456 and 468). `Chat.TechLine`, `Chat.ProfitReply` and `Chat.LossReply` print the empty name instead, since a missing name is the empty text here.
- Insights.CompanyRollup: builds the corrected per-company dictionary `Rollup`, in which every company gets its own entry. The `forEach` at server.js:218-226 builds `RollupAsWritten`, which gives no entry to a company named like an `Object.prototype` member ("constructor", "toString"); see "## Findings".
- Insights.BuildInsights: its `topPerformingCompanies` is the corrected `Rollup`, not the `RollupAsWritten` that server.js:218-226 builds; the two differ only for companies named like an `Object.prototype` member.
- The front end (`App.js`) is not part of this model.

## Findings

| source | as written | input that shows it | evidently intended | confidence | as-written member | corrected member |
|---|---|---|---|---|---|---|
| server.js:218-226 | `if (!insights.topPerformingCompanies[contact.company])` looks the company up on a plain object, so a name such as "constructor" finds `Object.prototype`'s member and no entry is created | one contact with company "constructor" and revenue 5000: the dictionary gets no own entry for it, and the counts add up to 0 instead of 1 | every company gets its own entry counting its contacts and summing their revenue | not executed | Insights.InheritedCompanyIsLost | Insights.RollupTotals |
