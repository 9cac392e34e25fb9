/** The `/ai-insights` handler: totals, the per-company rollup that the
    first `forEach` builds in the `topPerformingCompanies` object, the score
    and forecast entries that the second `forEach` pushes and then sorts,
    the relationship edges and three trend counters. */
module Insights {

  import opened Text
  import opened Contacts
  import opened Scoring
  import opened Sorting
  import opened Graph

  /** One value of `topPerformingCompanies`, with the key it is stored under. */
  datatype CompanyStat = CompanyStat(company: string, revenue: nat, count: nat)

  /** The position of the entry for `company`, or |stats| when there is none. */
  function Find(stats: seq<CompanyStat>, company: string): (k: nat)
    ensures k <= |stats|
    ensures k < |stats| ==> stats[k].company == company
    ensures forall i :: 0 <= i < k ==> stats[i].company != company
  {
    if stats == [] then 0
    else if stats[0].company == company then 0
    else 1 + Find(stats[1..], company)
  }

  /** The first position holding `company` is unique. */
  lemma FindIs(stats: seq<CompanyStat>, company: string, k: nat)
    requires k <= |stats|
    requires k < |stats| ==> stats[k].company == company
    requires forall i :: 0 <= i < k ==> stats[i].company != company
    ensures Find(stats, company) == k
  {
  }

  /** The body of the first `forEach` for one contact: a contact with a
      company creates its company's entry at the end of the key order if
      there is none yet, then adds its revenue and one to the count. */
  function Credit(stats: seq<CompanyStat>, c: Contact): seq<CompanyStat> {
    if !HasCompany(c) then stats
    else
      var k := Find(stats, c.company);
      if k == |stats| then stats + [CompanyStat(c.company, c.revenue, 1)]
      else stats[k := CompanyStat(c.company, stats[k].revenue + c.revenue, stats[k].count + 1)]
  }

  /** `topPerformingCompanies` after the first `forEach`, entries in the
      order their keys were created. */
  function Rollup(cs: seq<Contact>): (r: seq<CompanyStat>)
    ensures DistinctKeys(r) && |r| <= |cs|
  {
    if cs == [] then []
    else
      var stats := Rollup(cs[..|cs| - 1]);
      CreditKeys(stats, cs[|cs| - 1]);
      Credit(stats, cs[|cs| - 1])
  }

  /** The first `forEach` of the handler, updating the dictionary in place. */
  method CompanyRollup(cs: seq<Contact>) returns (companies: seq<CompanyStat>)
    ensures companies == Rollup(cs)
  {
    companies := [];
    var i := 0;
    while i < |cs|
      invariant 0 <= i <= |cs|
      invariant companies == Rollup(cs[..i])
    {
      var contact := cs[i];
      assert cs[..i + 1][..i] == cs[..i];
      if contact.company != "" {
        var k := Find(companies, contact.company);
        if k == |companies| {
          companies := companies + [CompanyStat(contact.company, 0, 0)];
        }
        companies := companies[k := companies[k].(revenue := companies[k].revenue + contact.revenue)];
        companies := companies[k := companies[k].(count := companies[k].count + 1)];
      }
      i := i + 1;
    }
    assert cs[..i] == cs;
  }

  predicate DistinctKeys(stats: seq<CompanyStat>) {
    forall i, j :: 0 <= i < j < |stats| ==> stats[i].company != stats[j].company
  }

  /** The companies named by the contacts (`filter(Boolean)` drops the
      missing and empty ones). */
  function CompanySet(cs: seq<Contact>): set<string> {
    set c | c in cs && HasCompany(c) :: c.company
  }

  ghost function KeySet(stats: seq<CompanyStat>): set<string> {
    set e | e in stats :: e.company
  }

  lemma CreditKeys(stats: seq<CompanyStat>, c: Contact)
    requires DistinctKeys(stats)
    ensures DistinctKeys(Credit(stats, c))
    ensures KeySet(Credit(stats, c)) == KeySet(stats) + (if HasCompany(c) then {c.company} else {})
  {
    if HasCompany(c) {
      var k := Find(stats, c.company);
      var r := Credit(stats, c);
      if k == |stats| {
        assert forall e | e in r :: e in stats || e == CompanyStat(c.company, c.revenue, 1);
        assert r[|stats|] in r;
      } else {
        assert stats[k] in stats;
        forall x | x in KeySet(r) ensures x in KeySet(stats) {
          var e :| e in r && e.company == x;
          var m :| 0 <= m < |r| && r[m] == e;
          if m != k {
            assert stats[m] in stats;
          }
        }
        forall x | x in KeySet(stats) ensures x in KeySet(r) {
          var e :| e in stats && e.company == x;
          var m :| 0 <= m < |stats| && stats[m] == e;
          assert r[m] in r;
        }
      }
    }
  }

  /** Each company has one entry, each entry a company, and the keys are
      exactly the companies the contacts name. */
  lemma {:induction false} RollupKeys(cs: seq<Contact>)
    ensures DistinctKeys(Rollup(cs))
    ensures KeySet(Rollup(cs)) == CompanySet(cs)
    decreases |cs|
  {
    if cs != [] {
      var init, last := cs[..|cs| - 1], cs[|cs| - 1];
      RollupKeys(init);
      CreditKeys(Rollup(init), last);
      assert cs == init + [last];
      assert CompanySet(cs) == CompanySet(init) + (if HasCompany(last) then {last.company} else {});
    }
  }

  /** `Rollup` with the company's entry located at a position. */
  function EntryFor(stats: seq<CompanyStat>, company: string): (e: CompanyStat) {
    var k := Find(stats, company);
    if k < |stats| then stats[k] else CompanyStat(company, 0, 0)
  }

  lemma CreditEntry(stats: seq<CompanyStat>, c: Contact, w: string)
    requires w != ""
    ensures var e, f := EntryFor(stats, w), EntryFor(Credit(stats, c), w);
      if c.company == w then f.count == e.count + 1 && f.revenue == e.revenue + c.revenue
      else f == e
  {
    if HasCompany(c) {
      var k := Find(stats, c.company);
      var r := Credit(stats, c);
      var kw := Find(stats, w);
      if c.company == w {
        FindIs(r, w, k);
      } else if k == |stats| {
        assert kw < |stats| ==> r[kw] == stats[kw];
        FindIs(r, w, if kw < |stats| then kw else |r|);
      } else {
        assert kw < |stats| ==> r[kw] == stats[kw];
        FindIs(r, w, kw);
      }
    }
  }

  /** The entry of a company counts exactly the contacts naming it, and adds
      exactly their revenue; a company no contact names has no entry. */
  lemma {:induction false} RollupEntry(cs: seq<Contact>, w: string, names: Contact -> bool)
    requires w != ""
    requires forall c :: names(c) == (c.company == w)
    ensures EntryFor(Rollup(cs), w).count == |Filter(cs, names)|
    ensures EntryFor(Rollup(cs), w).revenue == TotalRevenue(Filter(cs, names))
    ensures Find(Rollup(cs), w) < |Rollup(cs)| <==> Filter(cs, names) != []
    decreases |cs|
  {
    if cs != [] {
      var init, last := cs[..|cs| - 1], cs[|cs| - 1];
      RollupEntry(init, w, names);
      CreditEntry(Rollup(init), last, w);
      assert Rollup(cs) == Credit(Rollup(init), last);
      if names(last) {
        TotalRevenueConcat(Filter(init, names), [last]);
        assert [last][..0] == [];
        CreditFindSelf(Rollup(init), last);
      } else {
        CreditFindOther(Rollup(init), last, w);
      }
    }
  }

  /** After crediting a contact with a company, that company has an entry. */
  lemma CreditFindSelf(stats: seq<CompanyStat>, c: Contact)
    requires HasCompany(c)
    ensures Find(Credit(stats, c), c.company) < |Credit(stats, c)|
  {
    var k := Find(stats, c.company);
    var r := Credit(stats, c);
    assert r[k].company == c.company;
  }

  lemma CreditFindOther(stats: seq<CompanyStat>, c: Contact, w: string)
    requires c.company != w
    ensures Find(Credit(stats, c), w) < |Credit(stats, c)| <==> Find(stats, w) < |stats|
  {
    if HasCompany(c) {
      var r := Credit(stats, c);
      var kw := Find(stats, w);
      if kw < |stats| {
        assert r[kw].company == w;
      } else {
        assert forall i :: 0 <= i < |r| ==> r[i].company != w;
      }
    }
  }

  /** Totals over the entries of the dictionary. */
  function CountSum(s: seq<CompanyStat>): nat {
    if s == [] then 0 else CountSum(s[..|s| - 1]) + s[|s| - 1].count
  }

  function RevenueSum(s: seq<CompanyStat>): nat {
    if s == [] then 0 else RevenueSum(s[..|s| - 1]) + s[|s| - 1].revenue
  }

  lemma SumsAppend(s: seq<CompanyStat>, x: CompanyStat)
    ensures CountSum(s + [x]) == CountSum(s) + x.count
    ensures RevenueSum(s + [x]) == RevenueSum(s) + x.revenue
  {
    assert (s + [x])[..|s|] == s;
  }

  lemma {:induction false} SumsUpdate(s: seq<CompanyStat>, k: nat, x: CompanyStat)
    requires k < |s|
    ensures CountSum(s[k := x]) + s[k].count == CountSum(s) + x.count
    ensures RevenueSum(s[k := x]) + s[k].revenue == RevenueSum(s) + x.revenue
    decreases |s|
  {
    var init := s[..|s| - 1];
    if k == |s| - 1 {
      assert s[k := x][..|s| - 1] == init;
    } else {
      assert s[k := x][..|s| - 1] == init[k := x];
      SumsUpdate(init, k, x);
    }
  }

  /** One contact with a company adds one to the counts and its revenue to
      the revenues; one without changes nothing. */
  lemma CreditTotals(stats: seq<CompanyStat>, c: Contact)
    ensures CountSum(Credit(stats, c)) == CountSum(stats) + (if HasCompany(c) then 1 else 0)
    ensures RevenueSum(Credit(stats, c)) == RevenueSum(stats) + (if HasCompany(c) then c.revenue else 0)
  {
    if HasCompany(c) {
      var k := Find(stats, c.company);
      if k == |stats| {
        SumsAppend(stats, CompanyStat(c.company, c.revenue, 1));
      } else {
        SumsUpdate(stats, k, CompanyStat(c.company, stats[k].revenue + c.revenue, stats[k].count + 1));
      }
    }
  }

  /** The counts add up to the number of contacts with a company, and the
      revenues to those contacts' total revenue. */
  lemma {:induction false} RollupTotals(cs: seq<Contact>)
    ensures CountSum(Rollup(cs)) == |Filter(cs, HasCompany)|
    ensures RevenueSum(Rollup(cs)) == TotalRevenue(Filter(cs, HasCompany))
    decreases |cs|
  {
    if cs != [] {
      var init, last := cs[..|cs| - 1], cs[|cs| - 1];
      RollupTotals(init);
      CreditTotals(Rollup(init), last);
      if HasCompany(last) {
        TotalRevenueConcat(Filter(init, HasCompany), [last]);
        assert [last][..0] == [];
      }
    }
  }

  /** A distinct list of keys has as many entries as its set. */
  lemma {:induction false} DistinctKeyCount(stats: seq<CompanyStat>)
    requires DistinctKeys(stats)
    ensures |KeySet(stats)| == |stats|
    decreases |stats|
  {
    if stats != [] {
      var init, last := stats[..|stats| - 1], stats[|stats| - 1];
      assert stats == init + [last];
      assert DistinctKeys(init);
      DistinctKeyCount(init);
      KeySetSnoc(init, last);
      forall e | e in init ensures e.company != last.company {
        var m :| 0 <= m < |init| && init[m] == e;
        assert stats[m] == e;
      }
      assert last.company !in KeySet(init);
    }
  }

  lemma KeySetSnoc(init: seq<CompanyStat>, last: CompanyStat)
    ensures KeySet(init + [last]) == KeySet(init) + {last.company}
  {
  }

  /** The dictionary has one entry per distinct company. */
  lemma RollupSize(cs: seq<Contact>)
    ensures |Rollup(cs)| == |CompanySet(cs)|
  {
    RollupKeys(cs);
    DistinctKeyCount(Rollup(cs));
  }

  /** The keys of the source's dictionary that an empty object literal
      already inherits from `Object.prototype`. */
  const InheritedNames: set<string> := {
    "constructor", "__proto__", "toString", "toLocaleString", "valueOf",
    "hasOwnProperty", "isPrototypeOf", "propertyIsEnumerable",
    "__defineGetter__", "__defineSetter__", "__lookupGetter__", "__lookupSetter__"}

  /** The first `forEach` as the source writes it: `!obj[company]` is false
      for an inherited name, so no own entry is created and the updates go
      to the inherited value instead of the result. */
  function RollupAsWritten(cs: seq<Contact>): (r: seq<CompanyStat>)
    ensures DistinctKeys(r)
    ensures KeySet(r) == CompanySet(cs) - InheritedNames
  {
    if cs == [] then []
    else
      var init, last := cs[..|cs| - 1], cs[|cs| - 1];
      var stats := RollupAsWritten(init);
      CreditKeys(stats, last);
      CompanySetSnoc(init, last);
      if last.company in InheritedNames then stats else Credit(stats, last)
  }

  lemma CompanySetSnoc(init: seq<Contact>, last: Contact)
    ensures CompanySet(init + [last]) == CompanySet(init) + (if HasCompany(last) then {last.company} else {})
  {
  }

  /** A contact of the company "constructor" is missing from the source's
      rollup: its counts add up to less than the contacts with a company. */
  lemma InheritedCompanyIsLost()
    ensures var cs := [Contact(1, "Ada", "ada@example.com", "constructor", 5000)];
      RollupAsWritten(cs) == [] && CountSum(RollupAsWritten(cs)) == 0 &&
      |Filter(cs, HasCompany)| == 1 && CountSum(Rollup(cs)) == 1
  {
    var cs := [Contact(1, "Ada", "ada@example.com", "constructor", 5000)];
    assert cs[..0] == [];
    assert "constructor" in InheritedNames;
    RollupTotals(cs);
  }

  /** Every contact's forecast entry (the random confidence is left out). */
  datatype Prediction = Prediction(contactId: Id, name: string, currentRevenue: nat, predictedRevenue: nat)

  /** The `factors` shown beside each score, as the source computes them. */
  datatype Factors = Factors(revenue: real, company: nat, domain: nat, nameLength: nat)

  datatype ContactScore = ContactScore(contactId: Id, name: string, score: nat, factors: Factors)

  function PredictionOf(c: Contact): Prediction {
    Prediction(c.id, c.name, c.revenue, PredictRevenue(c))
  }

  function FactorsOf(c: Contact): (f: Factors)
    ensures 0.0 <= f.revenue <= 40.0
    ensures (f.company == 0) == !HasCompany(c) && f.company <= 30
    ensures f.domain == 10 || f.domain == 20
    ensures (f.nameLength == 10) == (|c.name| > 10) && (f.nameLength == 5) == (|c.name| <= 10)
  {
    Factors(MinReal(c.revenue as real / 1000.0, 40.0),
            if !HasCompany(c) then 0 else if CompanyMentions(c, "tech") then 30 else 15,
            if EmailMentions(c, "@gmail.com") then 10 else 20,
            if |c.name| > 10 then 10 else 5)
  }

  function ScoreOf(c: Contact): ContactScore {
    ContactScore(c.id, c.name, Score(c), FactorsOf(c))
  }

  /** The shown factors are not the score's own terms: the revenue factor
      is unrounded, the company factor only looks for "tech" and the domain
      factor only for "@gmail.com". The name factor agrees with the score,
      the revenue factor rounds to the score's revenue term, and a company
      factor of 30 implies the score's company term of 30. */
  lemma FactorsAgainstScore(c: Contact)
    ensures var f := FactorsOf(c);
      f.nameLength == NamePoints(c) &&
      Round(f.revenue) == RevenuePoints(c.revenue) &&
      f.company <= CompanyPoints(c) &&
      (f.company == 30 ==> CompanyPoints(c) == 30)
  {
    RoundRevenueTerm(c.revenue, 0);
    if HasCompany(c) && CompanyMentions(c, "tech") {
      assert CompanyKeywords[0] == "tech";
      MentionsAnyIff(Lower(c.company), CompanyKeywords);
    }
  }

  /** The domain factor disagrees with the score's domain term for every
      address at a provider whose name starts with none of 'g', 'c' and 'e':
      the factor shows 20 and the score counts 10. */
  lemma DomainFactorDiffers(c: Contact)
    requires forall i :: 0 <= i < |c.email| - 1 && c.email[i] == '@' ==>
      c.email[i + 1] != 'g' && c.email[i + 1] != 'c' && c.email[i + 1] != 'e'
    ensures FactorsOf(c).domain == 20 && DomainPoints(c) == 10
  {
    NoMarker(c.email, "@gmail.com");
    MentionsAnyIff(c.email, PremiumDomains);
    NoMarker(c.email, PremiumDomains[0]);
    NoMarker(c.email, PremiumDomains[1]);
    NoMarker(c.email, PremiumDomains[2]);
  }

  /** A tech contact with 12000 in revenue, a name longer than ten
      characters and an address `local@domain` at a provider whose name
      starts with none of 'g', 'c' and 'e': 12 revenue points, 30 for the
      company, 10 for the domain and 10 for the name make 62, while the
      displayed domain factor reads 20. */
  lemma TechContactExample(c: Contact, local: string, domain: string)
    requires IsTech(c) && c.revenue == 12000 && |c.name| > 10
    requires c.email == local + "@" + domain && '@' !in local && '@' !in domain
    requires domain != [] && domain[0] != 'g' && domain[0] != 'c' && domain[0] != 'e'
    ensures Score(c) == 62 && FactorsOf(c).company == 30 && FactorsOf(c).domain == 20
  {
    assert Lower("") == "";
    assert CompanyKeywords[0] == "tech";
    assert CompanyPoints(c) == 30;
    SingleAt(local, domain);
    DomainFactorDiffers(c);
  }

  /** In `local@domain` with no other '@', every '@' is followed by the
      first character of the domain. */
  lemma SingleAt(local: string, domain: string)
    requires '@' !in local && '@' !in domain && domain != []
    ensures var s := local + "@" + domain;
      forall i :: 0 <= i < |s| - 1 && s[i] == '@' ==> s[i + 1] == domain[0]
  {
    var s := local + "@" + domain;
    assert forall i :: 0 <= i < |local| ==> s[i] == local[i];
    assert forall i :: |local| < i < |s| ==> s[i] == domain[i - |local| - 1];
  }

  /** A marker starting with '@' is absent from a text in which no '@' is
      followed by the marker's second character. */
  lemma NoMarker(s: string, t: string)
    requires |t| >= 2 && t[0] == '@'
    requires forall i :: 0 <= i < |s| - 1 && s[i] == '@' ==> s[i + 1] != t[1]
    ensures !Contains(s, t)
  {
    ContainsIff(s, t);
    forall i | 0 <= i <= |s| - |t| ensures !OccursAt(s, t, i) {
      assert s[i..i + |t|][0] == s[i] && s[i..i + |t|][1] == s[i + 1];
    }
  }

  /** The three trend counters. */
  datatype Trends = Trends(highValueContacts: nat, techCompanies: nat, enterpriseDomains: nat)

  predicate IsHighValue(c: Contact) {
    c.revenue > 10000
  }

  predicate IsEnterprise(c: Contact) {
    !EmailMentions(c, "@gmail.com")
  }

  function TrendsOf(cs: seq<Contact>): (t: Trends)
    ensures t.highValueContacts <= |cs| && t.techCompanies <= |cs| && t.enterpriseDomains <= |cs|
    ensures t.highValueContacts == 0 <==> forall c | c in cs :: !IsHighValue(c)
    ensures t.techCompanies == 0 <==> forall c | c in cs :: !IsTech(c)
    ensures t.enterpriseDomains == 0 <==> forall c | c in cs :: !IsEnterprise(c)
    ensures t.highValueContacts == |Filter(cs, IsHighValue)|
  {
    var h, k, e := Filter(cs, IsHighValue), Filter(cs, IsTech), Filter(cs, IsEnterprise);
    assert h != [] ==> h[0] in h;
    assert k != [] ==> k[0] in k;
    assert e != [] ==> e[0] in e;
    Trends(|h|, |k|, |e|)
  }

  /** `averageRevenue`: the rounded mean, 0 without contacts. */
  function AverageRevenue(cs: seq<Contact>): (a: nat)
    ensures cs == [] ==> a == 0
    ensures cs != [] ==> a * |cs| <= TotalRevenue(cs) + |cs| / 2 && TotalRevenue(cs) < a * |cs| + (|cs| + 1) / 2
  {
    if cs == [] then 0
    else
      var a := RoundedMean(TotalRevenue(cs), |cs|);
      MeanBounds(TotalRevenue(cs), |cs|, a);
      a
  }

  lemma MeanBounds(t: nat, n: nat, a: nat)
    requires n > 0 && a == (2 * t + n) / (2 * n)
    ensures a * n <= t + n / 2 && t < a * n + (n + 1) / 2
  {
    assert 2 * n * a <= 2 * t + n < 2 * n * a + 2 * n;
  }

  datatype AIInsights = AIInsights(
    totalContacts: nat,
    totalRevenue: nat,
    averageRevenue: nat,
    topPerformingCompanies: seq<CompanyStat>,
    revenuePredictions: seq<Prediction>,
    contactScores: seq<ContactScore>,
    relationshipMap: seq<Edge>,
    trends: Trends)

  /** One forecast and one score entry per contact, in contact order. */
  function Predictions(cs: seq<Contact>): (r: seq<Prediction>)
    ensures |r| == |cs| && forall k :: 0 <= k < |cs| ==> r[k] == PredictionOf(cs[k])
  {
    seq(|cs|, k requires 0 <= k < |cs| => PredictionOf(cs[k]))
  }

  function Scores(cs: seq<Contact>): (r: seq<ContactScore>)
    ensures |r| == |cs| && forall k :: 0 <= k < |cs| ==> r[k] == ScoreOf(cs[k])
  {
    seq(|cs|, k requires 0 <= k < |cs| => ScoreOf(cs[k]))
  }

  /** The second `forEach`: push one forecast and one score per contact. */
  method PredictAndScore(cs: seq<Contact>) returns (predictions: seq<Prediction>, scores: seq<ContactScore>)
    ensures predictions == Predictions(cs)
    ensures scores == Scores(cs)
  {
    predictions, scores := [], [];
    var i := 0;
    while i < |cs|
      invariant 0 <= i <= |cs|
      invariant predictions == Predictions(cs[..i])
      invariant scores == Scores(cs[..i])
    {
      var contact := cs[i];
      predictions := predictions + [Prediction(contact.id, contact.name, contact.revenue, PredictRevenue(contact))];
      var score := CalculateScore(contact);
      scores := scores + [ContactScore(contact.id, contact.name, score, FactorsOf(contact))];
      i := i + 1;
    }
    assert cs[..i] == cs;
  }

  /** The `/ai-insights` handler on the fetched contacts, for the strategic
      draws `draw`. The score and forecast lists hold one entry per contact
      (a permutation of the contact order) sorted by descending score and
      forecast; the rollup, edges and trends are those above. */
  method BuildInsights(cs: seq<Contact>, draw: (nat, nat) -> bool) returns (ins: AIInsights)
    ensures ins.totalContacts == |cs| && ins.totalRevenue == TotalRevenue(cs)
    ensures ins.averageRevenue == AverageRevenue(cs)
    ensures ins.topPerformingCompanies == Rollup(cs)
    ensures multiset(ins.contactScores) == multiset(Scores(cs))
    ensures SortedDesc(ins.contactScores, (e: ContactScore) => e.score as int)
    ensures multiset(ins.revenuePredictions) == multiset(Predictions(cs))
    ensures SortedDesc(ins.revenuePredictions, (p: Prediction) => p.predictedRevenue as int)
    ensures ins.relationshipMap == Connections(cs, draw)
    ensures ins.trends == TrendsOf(cs)
  {
    var connections := FindConnections(cs, draw);
    var companies := CompanyRollup(cs);
    var predictions, scores := PredictAndScore(cs);
    var byScore := SortDesc(scores, (e: ContactScore) => e.score as int);
    var byForecast := SortDesc(predictions, (p: Prediction) => p.predictedRevenue as int);
    ins := AIInsights(|cs|, TotalRevenue(cs), AverageRevenue(cs), companies,
                      byForecast, byScore, connections, TrendsOf(cs));
  }
}
