/** The `/analytics` handler: overview figures, revenue ranges, company
    types, three top-5 lists and four opportunity counters, all computed by
    `filter`, `reduce`, `map` and `sort` expressions over the contacts. */
module Analytics {

  import opened Text
  import opened Contacts
  import opened Scoring
  import opened Sorting
  import opened Insights

  datatype Overview = Overview(totalContacts: nat, totalRevenue: nat, averageRevenue: nat, medianRevenue: nat)

  datatype RevenueRanges = RevenueRanges(under1K: nat, from1Kto5K: nat, from5Kto10K: nat, from10K: nat)

  datatype CompanyTypes = CompanyTypes(tech: nat, ai: nat, software: nat, other: nat)

  /** `{ ...c, score }`. */
  datatype ScoredContact = ScoredContact(contact: Contact, score: nat)

  datatype TopPerformers = TopPerformers(byRevenue: seq<Contact>, byScore: seq<ScoredContact>, byCompany: seq<(string, nat)>)

  datatype Opportunities = Opportunities(highValueContacts: nat, potentialUpsells: nat, newOpportunities: nat, enterpriseClients: nat)

  datatype Report = Report(overview: Overview, ranges: RevenueRanges, companyTypes: CompanyTypes,
                           topPerformers: TopPerformers, insights: Opportunities)

  /** `contacts.map(c => c.revenue || 0)`. */
  function Revenues(cs: seq<Contact>): (r: seq<nat>)
    ensures |r| == |cs| && forall k :: 0 <= k < |cs| ==> r[k] == cs[k].revenue
  {
    seq(|cs|, k requires 0 <= k < |cs| => cs[k].revenue)
  }

  /** The revenues in ascending order. */
  function SortedRevenues(cs: seq<Contact>): (r: seq<nat>)
    ensures multiset(r) == multiset(Revenues(cs)) && |r| == |cs|
    ensures forall i, j :: 0 <= i < j < |r| ==> r[i] <= r[j]
  {
    var r := SortAsc(Revenues(cs), (x: nat) => x as int);
    assert forall i, j :: 0 <= i < j < |r| ==> r[i] as int <= r[j] as int;
    r
  }

  /** `medianRevenue`: the element at position ⌊n/2⌋ of the ascending
      revenues, 0 without contacts. */
  function Median(cs: seq<Contact>): (m: nat)
    ensures cs == [] ==> m == 0
    ensures cs != [] ==> m in Revenues(cs)
  {
    if cs == [] then 0
    else
      var s := SortedRevenues(cs);
      assert s[|cs| / 2] in multiset(Revenues(cs));
      s[|cs| / 2]
  }

  /** The number of elements satisfying p. */
  function CountIf(s: seq<nat>, p: nat -> bool): (k: nat)
    ensures k <= |s|
    ensures k == 0 <==> forall i :: 0 <= i < |s| ==> !p(s[i])
    ensures k == |s| <==> forall i :: 0 <= i < |s| ==> p(s[i])
  {
    if s == [] then 0 else CountIf(s[..|s| - 1], p) + (if p(s[|s| - 1]) then 1 else 0)
  }

  lemma {:induction false} CountIfConcat(a: seq<nat>, b: seq<nat>, p: nat -> bool)
    ensures CountIf(a + b, p) == CountIf(a, p) + CountIf(b, p)
    decreases |b|
  {
    if b == [] {
      assert a + b == a;
    } else {
      assert (a + b)[..|a + b| - 1] == a + b[..|b| - 1];
      CountIfConcat(a, b[..|b| - 1], p);
    }
  }

  lemma {:induction false} CountIfNone(s: seq<nat>, p: nat -> bool)
    requires forall i :: 0 <= i < |s| ==> !p(s[i])
    ensures CountIf(s, p) == 0
    decreases |s|
  {
    if s != [] {
      CountIfNone(s[..|s| - 1], p);
    }
  }

  lemma {:induction false} CountIfPermutation(a: seq<nat>, b: seq<nat>, p: nat -> bool)
    requires multiset(a) == multiset(b)
    ensures CountIf(a, p) == CountIf(b, p)
    decreases |a|
  {
    if a != [] {
      var x := a[|a| - 1];
      var a' := a[..|a| - 1];
      assert a == a' + [x];
      assert x in multiset(b);
      var k :| 0 <= k < |b| && b[k] == x;
      var b' := b[..k] + b[k + 1..];
      assert b == b[..k] + [x] + b[k + 1..];
      assert multiset(b') == multiset(b) - multiset{x};
      assert multiset(a') == multiset(a) - multiset{x};
      CountIfPermutation(a', b', p);
      CountIfConcat(b[..k] + [x], b[k + 1..], p);
      CountIfConcat(b[..k], [x], p);
      CountIfConcat(b[..k], b[k + 1..], p);
      assert [x][..0] == [];
    }
  }

  /** Only elements from position k on can satisfy p. */
  lemma CountIfFrom(s: seq<nat>, k: nat, p: nat -> bool)
    requires k <= |s| && forall i :: 0 <= i < k ==> !p(s[i])
    ensures CountIf(s, p) <= |s| - k
  {
    var lo, hi := s[..k], s[k..];
    assert s == lo + hi;
    CountIfConcat(lo, hi, p);
    assert forall i :: 0 <= i < |lo| ==> lo[i] == s[i];
    CountIfNone(lo, p);
  }

  /** Only elements before position k can satisfy p. */
  lemma CountIfBefore(s: seq<nat>, k: nat, p: nat -> bool)
    requires k <= |s| && forall i :: k <= i < |s| ==> !p(s[i])
    ensures CountIf(s, p) <= k
  {
    var lo, hi := s[..k], s[k..];
    assert s == lo + hi;
    CountIfConcat(lo, hi, p);
    assert forall i :: 0 <= i < |hi| ==> hi[i] == s[k + i];
    CountIfNone(hi, p);
  }

  /** In an ascending list, fewer than h elements lie below the one at h. */
  lemma SortedBelow(s: seq<nat>, h: nat, p: nat -> bool)
    requires forall i, j :: 0 <= i < j < |s| ==> s[i] <= s[j]
    requires h < |s| && forall x: nat :: p(x) == (x < s[h])
    ensures CountIf(s, p) <= h
  {
    assert forall i :: h <= i < |s| ==> s[h] <= s[i];
    CountIfBefore(s, h, p);
  }

  /** In an ascending list, fewer than |s| - h elements lie above the one at h. */
  lemma SortedAbove(s: seq<nat>, h: nat, p: nat -> bool)
    requires forall i, j :: 0 <= i < j < |s| ==> s[i] <= s[j]
    requires h < |s| && forall x: nat :: p(x) == (x > s[h])
    ensures CountIf(s, p) <= |s| - h - 1
  {
    assert forall i :: 0 <= i <= h ==> s[i] <= s[h];
    CountIfFrom(s, h + 1, p);
  }

  /** The median is one of the revenues; at most ⌊n/2⌋ revenues lie below
      it and at most n - ⌊n/2⌋ - 1 above it. */
  lemma MedianSplits(cs: seq<Contact>, below: nat -> bool, above: nat -> bool)
    requires cs != []
    requires forall x: nat :: below(x) == (x < Median(cs))
    requires forall x: nat :: above(x) == (x > Median(cs))
    ensures Median(cs) in Revenues(cs)
    ensures CountIf(Revenues(cs), below) <= |cs| / 2
    ensures CountIf(Revenues(cs), above) <= |cs| - |cs| / 2 - 1
  {
    var s, h := SortedRevenues(cs), |cs| / 2;
    assert s[h] in multiset(Revenues(cs));
    CountIfPermutation(Revenues(cs), s, below);
    CountIfPermutation(Revenues(cs), s, above);
    SortedBelow(s, h, below);
    SortedAbove(s, h, above);
  }

  function OverviewOf(cs: seq<Contact>): Overview {
    Overview(|cs|, TotalRevenue(cs), AverageRevenue(cs), Median(cs))
  }

  /** The four revenue ranges. */
  predicate Under1K(c: Contact) { c.revenue < 1000 }
  predicate From1Kto5K(c: Contact) { c.revenue >= 1000 && c.revenue < 5000 }
  predicate From5Kto10K(c: Contact) { c.revenue >= 5000 && c.revenue < 10000 }
  predicate From10K(c: Contact) { c.revenue >= 10000 }

  function RangesOf(cs: seq<Contact>): RevenueRanges {
    RevenueRanges(|Filter(cs, Under1K)|, |Filter(cs, From1Kto5K)|, |Filter(cs, From5Kto10K)|, |Filter(cs, From10K)|)
  }

  /** Each contact falls in exactly one range, so the ranges count every
      contact once. */
  lemma {:induction false} RangesPartition(cs: seq<Contact>)
    ensures var r := RangesOf(cs); r.under1K + r.from1Kto5K + r.from5Kto10K + r.from10K == |cs|
    decreases |cs|
  {
    if cs != [] {
      RangesPartition(cs[..|cs| - 1]);
    }
  }

  predicate MentionsAi(c: Contact) { CompanyMentions(c, "ai") }
  predicate MentionsSoftware(c: Contact) { CompanyMentions(c, "software") }

  /** `other`: none of the three words, a missing company included. */
  predicate OtherType(c: Contact) { !IsTech(c) && !MentionsAi(c) && !MentionsSoftware(c) }

  predicate AnyType(c: Contact) { IsTech(c) || MentionsAi(c) || MentionsSoftware(c) }

  function CompanyTypesOf(cs: seq<Contact>): CompanyTypes {
    CompanyTypes(|Filter(cs, IsTech)|, |Filter(cs, MentionsAi)|, |Filter(cs, MentionsSoftware)|, |Filter(cs, OtherType)|)
  }

  /** `other` counts exactly the contacts that none of the three columns
      counts; a contact without a company is one of them. */
  lemma OtherIsTheRest(cs: seq<Contact>)
    ensures CompanyTypesOf(cs).other + |Filter(cs, AnyType)| == |cs|
    ensures forall c | c in cs && !HasCompany(c) :: c in Filter(cs, OtherType)
  {
    FilterSplit(cs, AnyType, OtherType);
    forall c | c in cs && !HasCompany(c) ensures OtherType(c) {
      assert Lower(c.company) == "";
    }
  }

  function ScoredOf(c: Contact): ScoredContact {
    ScoredContact(c, Score(c))
  }

  function Scored(cs: seq<Contact>): (r: seq<ScoredContact>)
    ensures |r| == |cs| && forall k :: 0 <= k < |cs| ==> r[k] == ScoredOf(cs[k])
  {
    seq(|cs|, k requires 0 <= k < |cs| => ScoredOf(cs[k]))
  }

  /** `Object.entries` of the per-company revenue totals. */
  function CompanyTotals(cs: seq<Contact>): (r: seq<(string, nat)>)
    ensures var stats := Rollup(cs);
      |r| == |stats| && forall k :: 0 <= k < |r| ==> r[k] == (stats[k].company, stats[k].revenue)
  {
    var stats := Rollup(cs);
    seq(|stats|, k requires 0 <= k < |stats| => (stats[k].company, stats[k].revenue))
  }

  /** `contacts.sort` reorders the shared list before `byScore` and
      `byCompany` read it, so both see the contacts by descending revenue. */
  function ByRevenue(cs: seq<Contact>): seq<Contact> {
    SortDesc(cs, (c: Contact) => c.revenue as int)
  }

  function TopPerformersOf(cs: seq<Contact>): (r: TopPerformers)
    ensures |r.byRevenue| == |r.byScore| == (if |cs| < 5 then |cs| else 5)
    ensures |r.byCompany| <= 5 && |r.byCompany| <= |cs|
  {
    var sorted := ByRevenue(cs);
    TopPerformers(
      Take(sorted, 5),
      Take(SortDesc(Scored(sorted), (s: ScoredContact) => s.score as int), 5),
      Take(SortDesc(CompanyTotals(sorted), (e: (string, nat)) => e.1 as int), 5))
  }

  /** Top lists are at most as long as the list and at most five. */
  lemma TopCompanyBound(cs: seq<Contact>)
    ensures |Take(SortDesc(CompanyTotals(ByRevenue(cs)), (e: (string, nat)) => e.1 as int), 5)| <= |cs|
  {
    RollupSize(ByRevenue(cs));
  }

  /** `byRevenue` is a top five by revenue: at most five contacts of the
      list, and every contact it leaves out has no more revenue than any it
      keeps. */
  lemma TopByRevenue(cs: seq<Contact>)
    ensures var t := TopPerformersOf(cs).byRevenue;
      |t| == (if |cs| < 5 then |cs| else 5) &&
      multiset(t) <= multiset(cs) &&
      (forall i, j :: 0 <= i < j < |t| ==> t[i].revenue >= t[j].revenue) &&
      forall x, y | x in multiset(cs) - multiset(t) && y in t :: y.revenue >= x.revenue
  {
    TakeSortedIsTop(cs, (c: Contact) => c.revenue as int, 5);
  }

  /** `byScore` is a top five by score: at most five scored contacts of the
      list, each with its own score, and any contact left out scores no
      higher than any kept. */
  lemma TopByScore(cs: seq<Contact>)
    ensures var t := TopPerformersOf(cs).byScore;
      |t| == (if |cs| < 5 then |cs| else 5) &&
      (forall i, j :: 0 <= i < j < |t| ==> t[i].score >= t[j].score) &&
      (forall y | y in t :: y.contact in cs && y.score == Score(y.contact)) &&
      (forall x, y | x in cs && ScoredOf(x) !in t && y in t :: y.score >= Score(x))
  {
    var sorted := ByRevenue(cs);
    ScoredMembers(sorted, cs);
    TakeSortedIsTop(Scored(sorted), (s: ScoredContact) => s.score as int, 5);
  }

  /** The scored copy of a reordering of cs holds exactly the scored
      contacts of cs. */
  lemma ScoredMembers(sorted: seq<Contact>, cs: seq<Contact>)
    requires multiset(sorted) == multiset(cs)
    ensures forall y | y in multiset(Scored(sorted)) :: y.contact in cs && y.score == Score(y.contact)
    ensures forall x | x in cs :: ScoredOf(x) in multiset(Scored(sorted))
  {
    var scored := Scored(sorted);
    forall y: ScoredContact | y in multiset(scored) ensures y.contact in cs && y.score == Score(y.contact) {
      var k :| 0 <= k < |scored| && scored[k] == y;
      assert sorted[k] in multiset(cs);
    }
    forall x | x in cs ensures ScoredOf(x) in multiset(scored) {
      assert x in multiset(sorted);
      var k :| 0 <= k < |sorted| && sorted[k] == x;
      assert scored[k] == ScoredOf(x);
    }
  }

  /** Each `byCompany` figure is the company's total revenue; the sort in
      front of it changes only the order of the contacts, not the totals. */
  lemma ByCompanyTotals(cs: seq<Contact>, w: string, names: Contact -> bool)
    requires w != ""
    requires forall c :: names(c) == (c.company == w)
    ensures var sorted := ByRevenue(cs);
      EntryFor(Rollup(sorted), w).revenue == TotalRevenue(Filter(cs, names))
  {
    var sorted := ByRevenue(cs);
    RollupEntry(sorted, w, names);
    FilterPermutation(sorted, cs, names);
    TotalRevenuePermutation(Filter(sorted, names), Filter(cs, names));
  }

  /** The total revenue of the contacts naming company w. */
  function CompanyRevenue(cs: seq<Contact>, w: string): nat {
    TotalRevenue(Filter(cs, (c: Contact) => c.company == w))
  }

  /** Reordering the contacts does not change the set of companies. */
  lemma SameCompanies(a: seq<Contact>, b: seq<Contact>)
    requires multiset(a) == multiset(b)
    ensures CompanySet(a) == CompanySet(b)
  {
    forall w | w in CompanySet(a) ensures w in CompanySet(b) {
      var c :| c in a && HasCompany(c) && c.company == w;
      assert c in multiset(b);
    }
    forall w | w in CompanySet(b) ensures w in CompanySet(a) {
      var c :| c in b && HasCompany(c) && c.company == w;
      assert c in multiset(a);
    }
  }

  /** Entry k of the per-company totals names a company of the list and
      carries that company's revenue. */
  lemma TotalsEntry(cs: seq<Contact>, k: nat)
    requires k < |Rollup(ByRevenue(cs))|
    ensures var e := CompanyTotals(ByRevenue(cs))[k];
      e.0 == Rollup(ByRevenue(cs))[k].company && e.0 in CompanySet(cs) && e.1 == CompanyRevenue(cs, e.0)
  {
    var sorted := ByRevenue(cs);
    var stats := Rollup(sorted);
    RollupKeys(sorted);
    SameCompanies(sorted, cs);
    var w := stats[k].company;
    assert stats[k] in stats;
    assert w in CompanySet(sorted);
    FindIs(stats, w, k);
    ByCompanyTotals(cs, w, (c: Contact) => c.company == w);
  }

  /** `byCompany` is a top five of the companies by total revenue: as many
      entries as companies, up to five, each a company with its own total,
      and no company left out has a larger total than one kept. */
  lemma TopByCompany(cs: seq<Contact>)
    ensures var t := TopPerformersOf(cs).byCompany;
      |t| == (if |CompanySet(cs)| < 5 then |CompanySet(cs)| else 5) &&
      (forall i, j :: 0 <= i < j < |t| ==> t[i].1 >= t[j].1) &&
      (forall e | e in t :: e.0 in CompanySet(cs) && e.1 == CompanyRevenue(cs, e.0)) &&
      (forall w, y | w in CompanySet(cs) && y in t && (forall e | e in t :: e.0 != w) :: y.1 >= CompanyRevenue(cs, w))
  {
    TopCompanyCount(cs);
    TakeSortedIsTop(CompanyTotals(ByRevenue(cs)), (e: (string, nat)) => e.1 as int, 5);
    TopCompanyEntries(cs);
    TopCompanyLeftOut(cs);
  }

  lemma TopCompanyCount(cs: seq<Contact>)
    ensures |TopPerformersOf(cs).byCompany| == (if |CompanySet(cs)| < 5 then |CompanySet(cs)| else 5)
  {
    var sorted := ByRevenue(cs);
    RollupSize(sorted);
    SameCompanies(sorted, cs);
  }

  lemma TopCompanyEntries(cs: seq<Contact>)
    ensures forall e | e in TopPerformersOf(cs).byCompany :: e.0 in CompanySet(cs) && e.1 == CompanyRevenue(cs, e.0)
  {
    var totals := CompanyTotals(ByRevenue(cs));
    var t := TopPerformersOf(cs).byCompany;
    TakeSortedIsTop(totals, (e: (string, nat)) => e.1 as int, 5);
    forall e | e in t ensures e.0 in CompanySet(cs) && e.1 == CompanyRevenue(cs, e.0) {
      assert e in multiset(t);
      assert e in multiset(totals);
      var k :| 0 <= k < |totals| && totals[k] == e;
      TotalsEntry(cs, k);
    }
  }

  lemma TopCompanyLeftOut(cs: seq<Contact>)
    ensures var t := TopPerformersOf(cs).byCompany;
      forall w, y | w in CompanySet(cs) && y in t && (forall e | e in t :: e.0 != w) :: y.1 >= CompanyRevenue(cs, w)
  {
    var sorted := ByRevenue(cs);
    var stats := Rollup(sorted);
    var t := TopPerformersOf(cs).byCompany;
    RollupKeys(sorted);
    SameCompanies(sorted, cs);
    forall w, y | w in CompanySet(cs) && y in t && (forall e | e in t :: e.0 != w)
      ensures y.1 >= CompanyRevenue(cs, w)
    {
      assert w in KeySet(stats);
      var s :| s in stats && s.company == w;
      var k :| 0 <= k < |stats| && stats[k] == s;
      TotalsEntry(cs, k);
      LeftOutBelow(CompanyTotals(sorted), k);
    }
  }

  /** An entry that the first five by total leave out has a total no larger
      than any of the five. */
  lemma LeftOutBelow(totals: seq<(string, nat)>, k: nat)
    requires k < |totals|
    ensures var t := Take(SortDesc(totals, (e: (string, nat)) => e.1 as int), 5);
      totals[k] !in t ==> forall y | y in t :: y.1 >= totals[k].1
  {
    var t := Take(SortDesc(totals, (e: (string, nat)) => e.1 as int), 5);
    TakeSortedIsTop(totals, (e: (string, nat)) => e.1 as int, 5);
    if totals[k] !in t {
      assert totals[k] in multiset(totals) - multiset(t);
    }
  }

  predicate IsUpsell(c: Contact) { c.revenue > 0 && c.revenue < 5000 }
  predicate IsNew(c: Contact) { c.revenue == 0 }

  function OpportunitiesOf(cs: seq<Contact>): Opportunities {
    Opportunities(|Filter(cs, IsHighValue)|, |Filter(cs, IsUpsell)|, |Filter(cs, IsNew)|, |Filter(cs, IsEnterprise)|)
  }

  /** New contacts and upsell candidates are together the contacts below
      5000, that is the two lowest revenue ranges. */
  lemma {:induction false} OpportunitiesMatchRanges(cs: seq<Contact>)
    ensures var o, r := OpportunitiesOf(cs), RangesOf(cs);
      o.newOpportunities + o.potentialUpsells == r.under1K + r.from1Kto5K &&
      o.highValueContacts <= r.from10K
    decreases |cs|
  {
    if cs != [] {
      OpportunitiesMatchRanges(cs[..|cs| - 1]);
    }
  }

  /** The whole report: the ranges count every contact once, and "other"
      is what the three company types leave. */
  function AnalyticsOf(cs: seq<Contact>): (r: Report)
    ensures r.overview.totalContacts == |cs| && r.overview.totalRevenue == TotalRevenue(cs)
    ensures r.ranges.under1K + r.ranges.from1Kto5K + r.ranges.from5Kto10K + r.ranges.from10K == |cs|
    ensures r.companyTypes.other + |Filter(cs, AnyType)| == |cs|
    ensures r.insights.newOpportunities + r.insights.potentialUpsells == r.ranges.under1K + r.ranges.from1Kto5K
  {
    RangesPartition(cs);
    OtherIsTheRest(cs);
    OpportunitiesMatchRanges(cs);
    Report(OverviewOf(cs), RangesOf(cs), CompanyTypesOf(cs), TopPerformersOf(cs), OpportunitiesOf(cs))
  }

  /** Without contacts every figure is 0 and every list empty. */
  lemma EmptyReport()
    ensures AnalyticsOf([]) == Report(Overview(0, 0, 0, 0), RevenueRanges(0, 0, 0, 0), CompanyTypes(0, 0, 0, 0),
                                      TopPerformers([], [], []), Opportunities(0, 0, 0, 0))
  {
    assert ByRevenue([]) == [];
  }
}
