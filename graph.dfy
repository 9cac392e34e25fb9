/** `AI_INSIGHTS.findConnections`: the typed, weighted relationship edges
    between every pair of contacts `i < j`. The one random choice of the
    source, the 15% draw for a "strategic" edge, is an oracle `draw(i, j)`
    giving the outcome of the draw made for the pair at positions i and j
    (each pair draws exactly once, in pair order). */
module Graph {

  import opened Text
  import opened Contacts

  datatype EdgeKind = Colleague | Domain | HighValue | TechNetwork | Strategic

  /** The position of each kind among the rules of one pair. */
  function Rank(k: EdgeKind): nat {
    match k
    case Colleague => 0
    case Domain => 1
    case HighValue => 2
    case TechNetwork => 3
    case Strategic => 4
  }

  /** The fixed strength of each kind of edge. */
  function Strength(k: EdgeKind): real {
    match k
    case Colleague => 0.9
    case Domain => 0.7
    case HighValue => 0.6
    case TechNetwork => 0.5
    case Strategic => 0.3
  }

  datatype Edge = Edge(from: Id, to: Id, kind: EdgeKind, strength: real)

  /** `email?.split('@')[1]`: the text after the first '@' up to the next
      '@' or the end; the empty text stands for `undefined`. */
  function DomainOf(email: string): (d: string)
    ensures '@' !in d
    ensures '@' !in email ==> d == ""
    ensures '@' in email ==> exists k :: 0 <= k < |email| && email[k] == '@' && '@' !in email[..k] && d == UpToAt(email[k + 1..])
  {
    if email == [] then ""
    else if email[0] == '@' then UpToAt(email[1..])
    else DomainOf(email[1..])
  }

  function UpToAt(s: string): (r: string)
    ensures |r| <= |s| && r == s[..|r|]
    ensures '@' !in r
  {
    if s == [] || s[0] == '@' then "" else [s[0]] + UpToAt(s[1..])
  }

  /** For an address `local@domain` with one '@', the domain is what follows it. */
  lemma {:induction false} DomainOfAddress(local: string, domain: string)
    requires '@' !in local && '@' !in domain
    ensures DomainOf(local + "@" + domain) == domain
    decreases |local|
  {
    if local == [] {
      assert (local + "@" + domain)[1..] == domain;
      UpToAtNoAt(domain);
    } else {
      assert (local + "@" + domain)[1..] == local[1..] + "@" + domain;
      DomainOfAddress(local[1..], domain);
    }
  }

  lemma {:induction false} UpToAtNoAt(s: string)
    requires '@' !in s
    ensures UpToAt(s) == s
    decreases |s|
  {
    if s != [] {
      UpToAtNoAt(s[1..]);
    }
  }

  /** Same company, compared case-insensitively; both present. */
  predicate SameCompany(c1: Contact, c2: Contact) {
    HasCompany(c1) && HasCompany(c2) && Lower(c1.company) == Lower(c2.company)
  }

  /** Same non-empty email domain, other than the personal "gmail.com". */
  predicate SameDomain(c1: Contact, c2: Contact) {
    var d1, d2 := DomainOf(c1.email), DomainOf(c2.email);
    d1 != "" && d2 != "" && d1 == d2 && d1 != "gmail.com"
  }

  /** Average revenue above 10000 and revenues within 30% of that average. */
  predicate SimilarHighValue(c1: Contact, c2: Contact) {
    var r1, r2 := c1.revenue as real, c2.revenue as real;
    var diff := if r1 >= r2 then r1 - r2 else r2 - r1;
    var avg := (r1 + r2) / 2.0;
    avg > 10000.0 && diff < avg * 0.3
  }

  /** A company naming "tech", "ai" or "lab". */
  predicate IsTechNetwork(c: Contact) {
    CompanyMentions(c, "tech") || CompanyMentions(c, "ai") || CompanyMentions(c, "lab")
  }

  /** The condition under which each rule emits its edge for a pair. */
  predicate Fires(k: EdgeKind, c1: Contact, c2: Contact, strategic: bool) {
    match k
    case Colleague => SameCompany(c1, c2)
    case Domain => SameDomain(c1, c2)
    case HighValue => SimilarHighValue(c1, c2)
    case TechNetwork => IsTechNetwork(c1) && IsTechNetwork(c2)
    case Strategic => strategic
  }

  /** The rules of one pair in the order the source applies them. */
  const RuleOrder: seq<EdgeKind> := [Colleague, Domain, HighValue, TechNetwork, Strategic]

  function EdgeIf(cond: bool, c1: Contact, c2: Contact, k: EdgeKind): seq<Edge> {
    if cond then [Edge(c1.id, c2.id, k, Strength(k))] else []
  }

  /** The edges the rules ks emit for a pair, rule after rule. */
  function Emit(c1: Contact, c2: Contact, strategic: bool, ks: seq<EdgeKind>): seq<Edge> {
    if ks == [] then []
    else
      var k := ks[|ks| - 1];
      Emit(c1, c2, strategic, ks[..|ks| - 1]) + EdgeIf(Fires(k, c1, c2, strategic), c1, c2, k)
  }

  /** The edges of one pair. */
  function PairEdges(c1: Contact, c2: Contact, strategic: bool): (r: seq<Edge>)
    ensures forall e | e in r :: e.from == c1.id && e.to == c2.id && e.strength == Strength(e.kind) && Fires(e.kind, c1, c2, strategic)
    ensures |r| <= 5 && (!strategic ==> |r| <= 4)
  {
    EmitRules(c1, c2, strategic, RuleOrder);
    EmitCount(c1, c2, strategic, RuleOrder);
    Emit(c1, c2, strategic, RuleOrder)
  }

  /** Appending one rule to a rule list appends that rule's edge, if any. */
  lemma EmitSnoc(c1: Contact, c2: Contact, strategic: bool, ks: seq<EdgeKind>, k: EdgeKind)
    ensures Emit(c1, c2, strategic, ks + [k]) ==
      Emit(c1, c2, strategic, ks) + EdgeIf(Fires(k, c1, c2, strategic), c1, c2, k)
  {
    assert (ks + [k])[..|ks|] == ks;
  }

  /** Each emitted edge joins c1 to c2 with its kind's strength, and comes
      from a rule of ks that fires; every rule of ks that fires emits one. */
  lemma {:induction false} EmitRules(c1: Contact, c2: Contact, strategic: bool, ks: seq<EdgeKind>)
    ensures forall e | e in Emit(c1, c2, strategic, ks) ::
      e.from == c1.id && e.to == c2.id && e.strength == Strength(e.kind) &&
      e.kind in ks && Fires(e.kind, c1, c2, strategic)
    ensures forall k | k in ks && Fires(k, c1, c2, strategic) ::
      exists e: Edge | e in Emit(c1, c2, strategic, ks) :: e.kind == k
  {
    if ks != [] {
      var init, last := ks[..|ks| - 1], ks[|ks| - 1];
      assert ks == init + [last];
      EmitRules(c1, c2, strategic, init);
      var front := Emit(c1, c2, strategic, init);
      var tail := EdgeIf(Fires(last, c1, c2, strategic), c1, c2, last);
      forall k | k in ks && Fires(k, c1, c2, strategic)
        ensures exists e: Edge | e in front + tail :: e.kind == k
      {
        if k == last {
          assert tail[0] in front + tail;
        } else {
          assert k in init;
          var e :| e in front && e.kind == k;
          assert e in front + tail;
        }
      }
    }
  }

  predicate RankOrdered(r: seq<Edge>) {
    forall a, b :: 0 <= a < b < |r| ==> Rank(r[a].kind) < Rank(r[b].kind)
  }

  /** Rules listed in increasing rank emit edges in increasing rank. */
  lemma {:induction false} EmitOrdered(c1: Contact, c2: Contact, strategic: bool, ks: seq<EdgeKind>)
    requires forall a, b :: 0 <= a < b < |ks| ==> Rank(ks[a]) < Rank(ks[b])
    ensures RankOrdered(Emit(c1, c2, strategic, ks))
  {
    if ks != [] {
      var init, last := ks[..|ks| - 1], ks[|ks| - 1];
      EmitOrdered(c1, c2, strategic, init);
      EmitRules(c1, c2, strategic, init);
      var front := Emit(c1, c2, strategic, init);
      var tail := EdgeIf(Fires(last, c1, c2, strategic), c1, c2, last);
      var r := front + tail;
      forall a, b | 0 <= a < b < |r| ensures Rank(r[a].kind) < Rank(r[b].kind) {
        if b >= |front| {
          assert r[b] == tail[0] && r[b].kind == last;
          if a < |front| {
            assert r[a] == front[a] && r[a] in front;
            var m :| 0 <= m < |init| && init[m] == r[a].kind;
            assert ks[m] == r[a].kind && ks[|ks| - 1] == last;
            assert Rank(ks[m]) < Rank(ks[|ks| - 1]);
          } else {
            assert false;
          }
        } else {
          assert r[a] == front[a] && r[b] == front[b];
          assert Rank(front[a].kind) < Rank(front[b].kind);
        }
      }
    }
  }

  /** At most one edge per rule, none for a rule that does not fire. */
  lemma {:induction false} EmitCount(c1: Contact, c2: Contact, strategic: bool, ks: seq<EdgeKind>)
    ensures |Emit(c1, c2, strategic, ks)| <= |ks|
    ensures Strategic in ks && !strategic ==> |Emit(c1, c2, strategic, ks)| <= |ks| - 1
  {
    if ks != [] {
      EmitCount(c1, c2, strategic, ks[..|ks| - 1]);
      assert ks == ks[..|ks| - 1] + [ks[|ks| - 1]];
    }
  }

  /** Edge rules of one pair: an edge of kind k appears exactly when k's
      rule fires; every edge goes from c1 to c2 with its kind's fixed
      strength; the edges follow the rule order (so no kind repeats); there
      are at most five, and at most four without a strategic draw. */
  lemma PairEdgesRules(c1: Contact, c2: Contact, strategic: bool)
    ensures var r := PairEdges(c1, c2, strategic);
      (forall k :: (exists e | e in r :: e.kind == k) <==> Fires(k, c1, c2, strategic)) &&
      (forall e | e in r :: e.from == c1.id && e.to == c2.id && e.strength == Strength(e.kind)) &&
      (forall a, b :: 0 <= a < b < |r| ==> Rank(r[a].kind) < Rank(r[b].kind)) &&
      |r| <= 5 && (!strategic ==> |r| <= 4)
  {
    EmitRules(c1, c2, strategic, RuleOrder);
    EmitOrdered(c1, c2, strategic, RuleOrder);
    EmitCount(c1, c2, strategic, RuleOrder);
    forall k ensures k in RuleOrder {
      match k
      case Colleague => assert RuleOrder[0] == k;
      case Domain => assert RuleOrder[1] == k;
      case HighValue => assert RuleOrder[2] == k;
      case TechNetwork => assert RuleOrder[3] == k;
      case Strategic => assert RuleOrder[4] == k;
    }
  }

  /** Two contacts of one company, however its name is capitalised, get
      exactly one colleague edge, first among their edges and at strength
      0.9; the test does not depend on which of the two comes first. */
  lemma ColleagueEdge(c1: Contact, c2: Contact, strategic: bool)
    requires SameCompany(c1, c2)
    ensures SameCompany(c2, c1)
    ensures var r := PairEdges(c1, c2, strategic);
      r != [] && r[0] == Edge(c1.id, c2.id, Colleague, 0.9) &&
      forall k :: 0 < k < |r| ==> r[k].kind != Colleague
  {
    var r := PairEdges(c1, c2, strategic);
    PairEdgesRules(c1, c2, strategic);
    assert Fires(Colleague, c1, c2, strategic);
    var k :| 0 <= k < |r| && r[k].kind == Colleague;
    assert Rank(r[0].kind) <= Rank(r[k].kind);
  }

  /** "Acme Inc" and "ACME INC" name the same company. */
  lemma CaseInsensitiveCompany(c1: Contact, c2: Contact)
    requires c1.company == "Acme Inc" && c2.company == "ACME INC"
    ensures SameCompany(c1, c2)
  {
    LowerIs(c1.company, "acme inc");
    LowerIs(c2.company, "acme inc");
  }

  /** The pairs (i, j) for lo <= j < hi, j ascending. */
  function RowPairs(i: nat, lo: nat, hi: nat): seq<(nat, nat)>
    decreases hi
  {
    if hi <= lo then [] else RowPairs(i, lo, hi - 1) + [(i, hi - 1)]
  }

  /** The pairs i < j < n whose first position is below m, in the order of
      the two nested loops. */
  function PairsBelow(n: nat, m: nat): seq<(nat, nat)> {
    if m == 0 then [] else PairsBelow(n, m - 1) + RowPairs(m - 1, m, n)
  }

  function PairList(n: nat): seq<(nat, nat)> {
    PairsBelow(n, n)
  }

  predicate ValidPairs(ps: seq<(nat, nat)>, n: nat) {
    forall k :: 0 <= k < |ps| ==> ps[k].0 < ps[k].1 < n
  }

  lemma {:induction false} RowPairsMembers(i: nat, lo: nat, hi: nat)
    ensures forall p :: p in RowPairs(i, lo, hi) <==> p.0 == i && lo <= p.1 < hi
    ensures |RowPairs(i, lo, hi)| == if hi <= lo then 0 else hi - lo
    decreases hi
  {
    if hi > lo {
      RowPairsMembers(i, lo, hi - 1);
    }
  }

  lemma {:induction false} PairsBelowMembers(n: nat, m: nat)
    requires m <= n
    ensures forall p :: p in PairsBelow(n, m) <==> p.0 < m && p.0 < p.1 < n
  {
    if m > 0 {
      PairsBelowMembers(n, m - 1);
      RowPairsMembers(m - 1, m, n);
      var a, b := PairsBelow(n, m - 1), RowPairs(m - 1, m, n);
      assert PairsBelow(n, m) == a + b;
      forall p: (nat, nat) | p.0 < m && p.0 < p.1 < n ensures p in a + b {
        if p.0 < m - 1 {
          assert p in a;
        } else {
          assert p in b;
        }
      }
    }
  }

  /** The number of pairs whose first position is below m. */
  function PairCount(n: nat, m: nat): nat
    requires m <= n
  {
    if m == 0 then 0 else PairCount(n, m - 1) + (n - m)
  }

  lemma {:induction false} PairsBelowCount(n: nat, m: nat)
    requires m <= n
    ensures |PairsBelow(n, m)| == PairCount(n, m)
  {
    if m > 0 {
      PairsBelowCount(n, m - 1);
      RowPairsMembers(m - 1, m, n);
    }
  }

  lemma {:induction false} PairCountClosed(n: nat, m: nat)
    requires m <= n
    ensures 2 * PairCount(n, m) == m * (2 * n - m - 1)
  {
    if m > 0 {
      PairCountClosed(n, m - 1);
      var k := m - 1;
      assert m * (2 * n - m - 1) == (k + 1) * (2 * n - k - 2);
      assert (k + 1) * (2 * n - k - 2) == k * (2 * n - k - 2) + (2 * n - k - 2);
      assert k * (2 * n - k - 2) == k * (2 * n - k - 1) - k;
    }
  }

  /** The pair list holds exactly the pairs i < j < n, and has n(n-1)/2
      entries, so (being strictly ordered, below) each pair once. */
  lemma PairListMembers(n: nat)
    ensures forall p :: p in PairList(n) <==> p.0 < p.1 < n
    ensures |PairList(n)| == n * (n - 1) / 2
  {
    PairsBelowMembers(n, n);
    PairsBelowCount(n, n);
    PairCountClosed(n, n);
  }

  /** Lexicographic order on pairs of positions. */
  predicate LexLess(p: (nat, nat), q: (nat, nat)) {
    p.0 < q.0 || (p.0 == q.0 && p.1 < q.1)
  }

  predicate LexSorted(ps: seq<(nat, nat)>) {
    forall a, b :: 0 <= a < b < |ps| ==> LexLess(ps[a], ps[b])
  }

  lemma {:induction false} RowPairsSorted(i: nat, lo: nat, hi: nat)
    ensures LexSorted(RowPairs(i, lo, hi))
    decreases hi
  {
    if hi > lo {
      RowPairsSorted(i, lo, hi - 1);
      RowPairsMembers(i, lo, hi - 1);
    }
  }

  /** Two sorted lists, every pair of the first below every pair of the
      second, make a sorted list. */
  lemma SortedConcat(a: seq<(nat, nat)>, b: seq<(nat, nat)>)
    requires LexSorted(a) && LexSorted(b)
    requires forall x, y | x in a && y in b :: LexLess(x, y)
    ensures LexSorted(a + b)
  {
    forall x, y | 0 <= x < y < |a + b| ensures LexLess((a + b)[x], (a + b)[y]) {
      if y < |a| {
        assert (a + b)[x] == a[x] && (a + b)[y] == a[y];
      } else if x >= |a| {
        assert (a + b)[x] == b[x - |a|] && (a + b)[y] == b[y - |a|];
      } else {
        assert (a + b)[x] in a && (a + b)[y] in b;
      }
    }
  }

  lemma {:induction false} PairsBelowSorted(n: nat, m: nat)
    requires m <= n
    ensures LexSorted(PairsBelow(n, m))
  {
    if m > 0 {
      PairsBelowSorted(n, m - 1);
      PairsBelowMembers(n, m - 1);
      RowPairsSorted(m - 1, m, n);
      RowPairsMembers(m - 1, m, n);
      var a, b := PairsBelow(n, m - 1), RowPairs(m - 1, m, n);
      forall x, y | x in a && y in b ensures LexLess(x, y) {
        assert x.0 < m - 1 && y.0 == m - 1;
      }
      SortedConcat(a, b);
    }
  }

  /** The pairs come in strictly increasing lexicographic order. */
  lemma PairListSorted(n: nat)
    ensures LexSorted(PairList(n))
  {
    PairsBelowSorted(n, n);
  }

  /** The edges of a list of pairs, pair after pair. */
  function EdgesOf(cs: seq<Contact>, ps: seq<(nat, nat)>, draw: (nat, nat) -> bool): seq<Edge>
    requires ValidPairs(ps, |cs|)
  {
    if ps == [] then []
    else
      var p := ps[|ps| - 1];
      EdgesOf(cs, ps[..|ps| - 1], draw) + PairEdges(cs[p.0], cs[p.1], draw(p.0, p.1))
  }

  /** The result of `findConnections(contacts)` for the outcomes `draw`. */
  function Connections(cs: seq<Contact>, draw: (nat, nat) -> bool): (r: seq<Edge>)
    ensures forall e | e in r :: e.strength == Strength(e.kind) && 0.0 < e.strength <= 1.0
  {
    PairListMembers(|cs|);
    EdgesOfStrengths(cs, PairList(|cs|), draw);
    EdgesOf(cs, PairList(|cs|), draw)
  }

  /** Every edge carries its kind's strength, which lies in (0, 1]. */
  lemma {:induction false} EdgesOfStrengths(cs: seq<Contact>, ps: seq<(nat, nat)>, draw: (nat, nat) -> bool)
    requires ValidPairs(ps, |cs|)
    ensures forall e | e in EdgesOf(cs, ps, draw) :: e.strength == Strength(e.kind) && 0.0 < e.strength <= 1.0
    decreases |ps|
  {
    if ps != [] {
      EdgesOfStrengths(cs, ps[..|ps| - 1], draw);
    }
  }

  lemma EdgesOfSnoc(cs: seq<Contact>, ps: seq<(nat, nat)>, p: (nat, nat), draw: (nat, nat) -> bool)
    requires ValidPairs(ps, |cs|) && p.0 < p.1 < |cs|
    ensures ValidPairs(ps + [p], |cs|)
    ensures EdgesOf(cs, ps + [p], draw) == EdgesOf(cs, ps, draw) + PairEdges(cs[p.0], cs[p.1], draw(p.0, p.1))
  {
    assert (ps + [p])[..|ps|] == ps;
  }

  lemma ValidPairsConcat(ps: seq<(nat, nat)>, qs: seq<(nat, nat)>, n: nat)
    requires ValidPairs(ps, n) && ValidPairs(qs, n)
    ensures ValidPairs(ps + qs, n)
  {
    assert forall k :: 0 <= k < |ps + qs| ==> (ps + qs)[k] == if k < |ps| then ps[k] else qs[k - |ps|];
  }

  lemma ValidPairsPrefix(qs: seq<(nat, nat)>, m: nat, n: nat)
    requires ValidPairs(qs, n) && m <= |qs|
    ensures ValidPairs(qs[..m], n)
  {
    assert forall k :: 0 <= k < m ==> qs[..m][k] == qs[k];
  }

  /** The edge list of a concatenation of pair lists is the concatenation of
      their edge lists: all edges of earlier pairs come first. */
  lemma {:induction false} EdgesOfConcat(cs: seq<Contact>, ps: seq<(nat, nat)>, qs: seq<(nat, nat)>, draw: (nat, nat) -> bool)
    requires ValidPairs(ps, |cs|) && ValidPairs(qs, |cs|)
    ensures ValidPairs(ps + qs, |cs|)
    ensures EdgesOf(cs, ps + qs, draw) == EdgesOf(cs, ps, draw) + EdgesOf(cs, qs, draw)
    decreases |qs|
  {
    ValidPairsConcat(ps, qs, |cs|);
    if qs == [] {
      assert ps + qs == ps;
    } else {
      var m := |qs| - 1;
      var q, qs' := qs[m], qs[..m];
      ValidPairsPrefix(qs, m, |cs|);
      assert ps + qs == (ps + qs') + [q];
      EdgesOfConcat(cs, ps, qs', draw);
      EdgesOfSnoc(cs, ps + qs', q, draw);
    }
  }

  /** The body of the inner loop of `findConnections` for one pair: each
      rule's test in turn, pushing its edge when it holds. */
  method PairConnections(c1: Contact, c2: Contact, strategic: bool) returns (pushed: seq<Edge>)
    ensures pushed == PairEdges(c1, c2, strategic)
  {
    pushed := [];
    if HasCompany(c1) && HasCompany(c2) && Lower(c1.company) == Lower(c2.company) {
      pushed := pushed + [Edge(c1.id, c2.id, Colleague, 0.9)];
    }
    ghost var p1 := pushed;
    var domain1, domain2 := DomainOf(c1.email), DomainOf(c2.email);
    if domain1 != "" && domain2 != "" && domain1 == domain2 && domain1 != "gmail.com" {
      pushed := pushed + [Edge(c1.id, c2.id, Domain, 0.7)];
    }
    ghost var p2 := pushed;
    var revenue1, revenue2 := c1.revenue as real, c2.revenue as real;
    var revenueDiff := if revenue1 >= revenue2 then revenue1 - revenue2 else revenue2 - revenue1;
    var avgRevenue := (revenue1 + revenue2) / 2.0;
    if avgRevenue > 10000.0 && revenueDiff < avgRevenue * 0.3 {
      pushed := pushed + [Edge(c1.id, c2.id, HighValue, 0.6)];
    }
    ghost var p3 := pushed;
    var isTech1 := CompanyMentions(c1, "tech") || CompanyMentions(c1, "ai") || CompanyMentions(c1, "lab");
    var isTech2 := CompanyMentions(c2, "tech") || CompanyMentions(c2, "ai") || CompanyMentions(c2, "lab");
    if isTech1 && isTech2 {
      pushed := pushed + [Edge(c1.id, c2.id, TechNetwork, 0.5)];
    }
    ghost var p4 := pushed;
    if strategic {
      pushed := pushed + [Edge(c1.id, c2.id, Strategic, 0.3)];
    }
    SourceOrder(c1, c2, strategic, p1, p2, p3, p4, pushed);
  }

  /** Five rules emit their edges one after the other. */
  lemma EmitFive(c1: Contact, c2: Contact, strategic: bool, ks: seq<EdgeKind>)
    requires |ks| == 5
    ensures Emit(c1, c2, strategic, ks) ==
      EdgeIf(Fires(ks[0], c1, c2, strategic), c1, c2, ks[0]) +
      EdgeIf(Fires(ks[1], c1, c2, strategic), c1, c2, ks[1]) +
      EdgeIf(Fires(ks[2], c1, c2, strategic), c1, c2, ks[2]) +
      EdgeIf(Fires(ks[3], c1, c2, strategic), c1, c2, ks[3]) +
      EdgeIf(Fires(ks[4], c1, c2, strategic), c1, c2, ks[4])
  {
    var e := seq(5, i requires 0 <= i < 5 => EdgeIf(Fires(ks[i], c1, c2, strategic), c1, c2, ks[i]));
    assert ks[..1][..0] == [];
    assert Emit(c1, c2, strategic, ks[..1]) == e[0];
    assert ks[..2][..1] == ks[..1];
    assert Emit(c1, c2, strategic, ks[..2]) == e[0] + e[1];
    assert ks[..3][..2] == ks[..2];
    assert Emit(c1, c2, strategic, ks[..3]) == e[0] + e[1] + e[2];
    assert ks[..4][..3] == ks[..3];
    assert Emit(c1, c2, strategic, ks[..4]) == e[0] + e[1] + e[2] + e[3];
    assert ks[..4] == ks[..|ks| - 1];
  }

  /** The edges of one pair written out: each rule's edge, if it fires,
      in rule order. */
  lemma PairEdgesInOrder(c1: Contact, c2: Contact, strategic: bool)
    ensures PairEdges(c1, c2, strategic) ==
      EdgeIf(SameCompany(c1, c2), c1, c2, Colleague) +
      EdgeIf(SameDomain(c1, c2), c1, c2, Domain) +
      EdgeIf(SimilarHighValue(c1, c2), c1, c2, HighValue) +
      EdgeIf(IsTechNetwork(c1) && IsTechNetwork(c2), c1, c2, TechNetwork) +
      EdgeIf(strategic, c1, c2, Strategic)
  {
    EmitFive(c1, c2, strategic, RuleOrder);
  }

  /** The five pushes of the source, one after the other, build the edges of
      the five rules in rule order. */
  lemma SourceOrder(c1: Contact, c2: Contact, strategic: bool, p1: seq<Edge>, p2: seq<Edge>, p3: seq<Edge>, p4: seq<Edge>, p5: seq<Edge>)
    requires p1 == EdgeIf(SameCompany(c1, c2), c1, c2, Colleague)
    requires p2 == p1 + EdgeIf(SameDomain(c1, c2), c1, c2, Domain)
    requires p3 == p2 + EdgeIf(SimilarHighValue(c1, c2), c1, c2, HighValue)
    requires p4 == p3 + EdgeIf(IsTechNetwork(c1) && IsTechNetwork(c2), c1, c2, TechNetwork)
    requires p5 == p4 + EdgeIf(strategic, c1, c2, Strategic)
    ensures p5 == PairEdges(c1, c2, strategic)
  {
    PairEdgesInOrder(c1, c2, strategic);
  }

  /** Row i of the pair list names positions i < j < n. */
  lemma RowPairsValid(n: nat, i: nat, j: nat)
    requires j <= n
    ensures ValidPairs(RowPairs(i, i + 1, j), n)
  {
    RowPairsMembers(i, i + 1, j);
    var ps := RowPairs(i, i + 1, j);
    forall k | 0 <= k < |ps| ensures ps[k].0 < ps[k].1 < n {
      assert ps[k] in ps;
    }
  }

  /** One more turn of the inner loop appends the edges of the pair (i, j). */
  lemma RowStep(cs: seq<Contact>, i: nat, j: nat, draw: (nat, nat) -> bool)
    requires i < j < |cs|
    ensures ValidPairs(RowPairs(i, i + 1, j), |cs|) && ValidPairs(RowPairs(i, i + 1, j + 1), |cs|)
    ensures EdgesOf(cs, RowPairs(i, i + 1, j + 1), draw) ==
      EdgesOf(cs, RowPairs(i, i + 1, j), draw) + PairEdges(cs[i], cs[j], draw(i, j))
  {
    RowPairsValid(|cs|, i, j);
    assert RowPairs(i, i + 1, j + 1) == RowPairs(i, i + 1, j) + [(i, j)];
    EdgesOfSnoc(cs, RowPairs(i, i + 1, j), (i, j), draw);
  }

  /** The inner loop of `findConnections` for row i: the edges of the pairs
      (i, j), j = i + 1 .. n - 1, in that order. */
  method ConnectRow(cs: seq<Contact>, i: nat, draw: (nat, nat) -> bool) returns (row: seq<Edge>)
    requires i < |cs|
    ensures ValidPairs(RowPairs(i, i + 1, |cs|), |cs|)
    ensures row == EdgesOf(cs, RowPairs(i, i + 1, |cs|), draw)
  {
    var n := |cs|;
    row := [];
    var j := i + 1;
    while j < n
      invariant i + 1 <= j <= n
      invariant ValidPairs(RowPairs(i, i + 1, j), n)
      invariant row == EdgesOf(cs, RowPairs(i, i + 1, j), draw)
    {
      var pushed := PairConnections(cs[i], cs[j], draw(i, j));
      RowStep(cs, i, j, draw);
      row := row + pushed;
      j := j + 1;
    }
  }

  /** `findConnections` as written: two nested loops over the pairs
      i < j, each turn pushing the edges of one pair onto `connections`. */
  method FindConnections(cs: seq<Contact>, draw: (nat, nat) -> bool) returns (connections: seq<Edge>)
    ensures connections == Connections(cs, draw)
  {
    var n := |cs|;
    connections := [];
    var i := 0;
    while i < n
      invariant 0 <= i <= n
      invariant ValidPairs(PairsBelow(n, i), n)
      invariant connections == EdgesOf(cs, PairsBelow(n, i), draw)
    {
      var row := ConnectRow(cs, i, draw);
      EdgesOfConcat(cs, PairsBelow(n, i), RowPairs(i, i + 1, n), draw);
      connections := connections + row;
      i := i + 1;
    }
  }

  /** `n` copies of the pair p. */
  function Repeat(p: (nat, nat), n: nat): (r: seq<(nat, nat)>)
    ensures |r| == n && forall k :: 0 <= k < n ==> r[k] == p
  {
    if n == 0 then [] else Repeat(p, n - 1) + [p]
  }

  /** Which pair each edge of `EdgesOf(cs, ps, draw)` comes from. */
  function Origins(cs: seq<Contact>, ps: seq<(nat, nat)>, draw: (nat, nat) -> bool): (os: seq<(nat, nat)>)
    requires ValidPairs(ps, |cs|)
    ensures |os| == |EdgesOf(cs, ps, draw)|
  {
    if ps == [] then []
    else
      var p := ps[|ps| - 1];
      Origins(cs, ps[..|ps| - 1], draw) + Repeat(p, |PairEdges(cs[p.0], cs[p.1], draw(p.0, p.1))|)
  }

  /** Edge a joins the two contacts of the pair os[a], a pair of ps. */
  predicate Joins(cs: seq<Contact>, ps: seq<(nat, nat)>, es: seq<Edge>, os: seq<(nat, nat)>)
    requires ValidPairs(ps, |cs|) && |os| == |es|
  {
    forall a :: 0 <= a < |es| ==>
      os[a] in ps && os[a].0 < os[a].1 < |cs| && es[a].from == cs[os[a].0].id && es[a].to == cs[os[a].1].id
  }

  /** Earlier pairs' edges come first; within one pair, rule order. */
  predicate InPairOrder(es: seq<Edge>, os: seq<(nat, nat)>)
    requires |os| == |es|
  {
    forall a, b :: 0 <= a < b < |es| ==>
      LexLess(os[a], os[b]) || (os[a] == os[b] && Rank(es[a].kind) < Rank(es[b].kind))
  }

  lemma {:induction false} OriginsJoin(cs: seq<Contact>, ps: seq<(nat, nat)>, draw: (nat, nat) -> bool)
    requires ValidPairs(ps, |cs|)
    ensures Joins(cs, ps, EdgesOf(cs, ps, draw), Origins(cs, ps, draw))
  {
    if ps != [] {
      var p := ps[|ps| - 1];
      var init := ps[..|ps| - 1];
      OriginsJoin(cs, init, draw);
      var es0, os0 := EdgesOf(cs, init, draw), Origins(cs, init, draw);
      var pe := PairEdges(cs[p.0], cs[p.1], draw(p.0, p.1));
      var es, os := es0 + pe, os0 + Repeat(p, |pe|);
      PairEdgesRules(cs[p.0], cs[p.1], draw(p.0, p.1));
      forall a | 0 <= a < |es|
        ensures os[a] in ps && os[a].0 < os[a].1 < |cs| && es[a].from == cs[os[a].0].id && es[a].to == cs[os[a].1].id
      {
        if a >= |es0| {
          assert es[a] == pe[a - |es0|] && os[a] == p;
          assert es[a] in pe;
          assert ps[|ps| - 1] == p;
        } else {
          assert es[a] == es0[a] && os[a] == os0[a];
          assert os0[a] in init;
        }
      }
    }
  }

  /** Appending the rule-ordered edges of a pair that comes after every
      earlier pair keeps the pair order. */
  lemma InPairOrderAppend(es0: seq<Edge>, os0: seq<(nat, nat)>, pe: seq<Edge>, p: (nat, nat))
    requires |os0| == |es0| && InPairOrder(es0, os0)
    requires forall a :: 0 <= a < |os0| ==> LexLess(os0[a], p)
    requires RankOrdered(pe)
    ensures InPairOrder(es0 + pe, os0 + Repeat(p, |pe|))
  {
    var es, os := es0 + pe, os0 + Repeat(p, |pe|);
    forall a, b | 0 <= a < b < |es|
      ensures LexLess(os[a], os[b]) || (os[a] == os[b] && Rank(es[a].kind) < Rank(es[b].kind))
    {
      if b < |es0| {
        assert es[a] == es0[a] && es[b] == es0[b] && os[a] == os0[a] && os[b] == os0[b];
      } else if a < |es0| {
        assert os[a] == os0[a] && os[b] == p;
      } else {
        assert es[a] == pe[a - |es0|] && es[b] == pe[b - |es0|] && os[a] == p && os[b] == p;
      }
    }
  }

  /** In a sorted list of pairs the last one comes after all the others. */
  lemma LastIsGreatest(init: seq<(nat, nat)>, p: (nat, nat))
    requires LexSorted(init + [p])
    ensures forall q | q in init :: LexLess(q, p)
  {
    var ps := init + [p];
    forall q | q in init ensures LexLess(q, p) {
      var k :| 0 <= k < |init| && init[k] == q;
      assert ps[k] == q && ps[|init|] == p;
    }
  }

  lemma {:induction false} OriginsOrder(cs: seq<Contact>, ps: seq<(nat, nat)>, draw: (nat, nat) -> bool)
    requires ValidPairs(ps, |cs|) && LexSorted(ps)
    ensures InPairOrder(EdgesOf(cs, ps, draw), Origins(cs, ps, draw))
  {
    if ps != [] {
      var p := ps[|ps| - 1];
      var init := ps[..|ps| - 1];
      assert LexSorted(init);
      OriginsOrder(cs, init, draw);
      OriginsJoin(cs, init, draw);
      assert ps == init + [p];
      LastIsGreatest(init, p);
      var es0, os0 := EdgesOf(cs, init, draw), Origins(cs, init, draw);
      var pe := PairEdges(cs[p.0], cs[p.1], draw(p.0, p.1));
      PairEdgesRules(cs[p.0], cs[p.1], draw(p.0, p.1));
      assert forall a :: 0 <= a < |os0| ==> LexLess(os0[a], p);
      InPairOrderAppend(es0, os0, pe, p);
    }
  }

  /** Edge ordering and endpoints of `findConnections`: each edge is tagged
      with a pair i < j, goes from contact i to contact j, the pairs of
      successive edges never decrease lexicographically, and edges of the
      same pair follow the order colleague, domain, high-value, tech-network,
      strategic. */
  lemma ConnectionsOrdered(cs: seq<Contact>, draw: (nat, nat) -> bool)
    ensures var es := Connections(cs, draw);
      exists os: seq<(nat, nat)> ::
        (|os| == |es| &&
         (forall a :: 0 <= a < |es| ==>
            os[a].0 < os[a].1 < |cs| && es[a].from == cs[os[a].0].id && es[a].to == cs[os[a].1].id) &&
         (forall a, b :: 0 <= a < b < |es| ==>
            LexLess(os[a], os[b]) || (os[a] == os[b] && Rank(es[a].kind) < Rank(es[b].kind))))
  {
    var n := |cs|;
    PairListMembers(n);
    PairListSorted(n);
    OriginsJoin(cs, PairList(n), draw);
    OriginsOrder(cs, PairList(n), draw);
    var os := Origins(cs, PairList(n), draw);
  }

  /** With distinct ids no edge is a loop. */
  lemma NoSelfEdges(cs: seq<Contact>, draw: (nat, nat) -> bool)
    requires forall a, b :: 0 <= a < b < |cs| ==> cs[a].id != cs[b].id
    ensures forall e | e in Connections(cs, draw) :: e.from != e.to
  {
    ConnectionsOrdered(cs, draw);
    var es := Connections(cs, draw);
    var os: seq<(nat, nat)> :| |os| == |es| &&
      (forall a :: 0 <= a < |es| ==>
         os[a].0 < os[a].1 < |cs| && es[a].from == cs[os[a].0].id && es[a].to == cs[os[a].1].id);
    forall e | e in es ensures e.from != e.to {
      var a :| 0 <= a < |es| && es[a] == e;
    }
  }

  /** At most five edges per pair, and at most four when no strategic draw
      succeeds. */
  lemma {:induction false} EdgesOfCount(cs: seq<Contact>, ps: seq<(nat, nat)>, draw: (nat, nat) -> bool)
    requires ValidPairs(ps, |cs|)
    ensures |EdgesOf(cs, ps, draw)| <= 5 * |ps|
    ensures (forall i, j :: !draw(i, j)) ==> |EdgesOf(cs, ps, draw)| <= 4 * |ps|
    decreases |ps|
  {
    if ps != [] {
      EdgesOfCount(cs, ps[..|ps| - 1], draw);
      var p := ps[|ps| - 1];
      PairEdgesRules(cs[p.0], cs[p.1], draw(p.0, p.1));
    }
  }

  lemma ConnectionsCount(cs: seq<Contact>, draw: (nat, nat) -> bool)
    ensures var n := |cs|; |Connections(cs, draw)| <= 5 * (n * (n - 1) / 2)
    ensures (forall i, j :: !draw(i, j)) ==> var n := |cs|; |Connections(cs, draw)| <= 4 * (n * (n - 1) / 2)
  {
    PairListMembers(|cs|);
    EdgesOfCount(cs, PairList(|cs|), draw);
  }
}
