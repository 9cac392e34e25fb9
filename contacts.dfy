/** The contact record every part of the engine works on, and the
    collection-level helpers the handlers share: `filter(...).length`,
    `reduce` sums of revenue and `Math.round`. */
module Contacts {

  import opened Text

  type Id = nat

  /** One row of the `contacts` table as the engine sees it. A company,
      email or name that the row leaves out is the empty text: every test in
      the engine (`if (c.company)`, `c.company?.includes(..)`,
      `c.name?.length > k`, `c.email?.split('@')[1]`) treats a missing value
      and an empty one alike. A missing revenue is 0 (`c.revenue || 0`). */
  datatype Contact = Contact(id: Id, name: string, email: string, company: string, revenue: nat)

  /** `if (c.company)`: the company is present and non-empty. */
  predicate HasCompany(c: Contact) {
    c.company != ""
  }

  /** `c.company?.toLowerCase().includes(word)`. */
  predicate CompanyMentions(c: Contact, word: string)
    requires word != ""
  {
    Contains(Lower(c.company), word)
  }

  /** `c.company?.toLowerCase().includes('tech')`, the engine's test for a
      tech company. */
  predicate IsTech(c: Contact) {
    CompanyMentions(c, "tech")
  }

  /** `c.email?.includes(marker)`. */
  predicate EmailMentions(c: Contact, marker: string)
    requires marker != ""
  {
    Contains(c.email, marker)
  }

  /** `Math.round`: halves go up. */
  function Round(x: real): int {
    (x + 0.5).Floor
  }

  /** `Math.round(total / n)` for a positive count agrees with the integer
      rounding of the quotient. */
  function RoundedMean(total: nat, n: nat): (r: nat)
    requires n > 0
    ensures r == (2 * total + n) / (2 * n)
  {
    var q := (2 * total + n) / (2 * n);
    assert 2 * n * q <= 2 * total + n < 2 * n * q + 2 * n;
    QuotientBounds(total, n, q);
    RoundBetween(total as real / n as real, q);
    Round(total as real / n as real)
  }

  lemma RoundBetween(x: real, q: int)
    requires q as real <= x + 0.5 < q as real + 1.0
    ensures Round(x) == q
  {
  }

  /** Dividing the integer bounds on 2·total + n by 2·n. */
  lemma QuotientBounds(total: nat, n: nat, q: int)
    requires n > 0
    requires 2 * n * q <= 2 * total + n < 2 * n * q + 2 * n
    ensures q as real <= total as real / n as real + 0.5 < q as real + 1.0
  {
    var t, m, x, y := total as real, n as real, total as real / n as real, q as real;
    assert x * m == t;
    assert 2.0 * m * y <= 2.0 * t + m < 2.0 * m * y + 2.0 * m;
    var lo, hi := y - x - 0.5, x + 0.5 - y - 1.0;
    assert lo * m == y * m - t - 0.5 * m;
    assert hi * m == t + 0.5 * m - y * m - m;
    SignOfProduct(lo, m);
    SignOfProduct(hi, m);
  }

  lemma SignOfProduct(a: real, m: real)
    requires m > 0.0
    ensures a * m <= 0.0 ==> a <= 0.0
    ensures a * m < 0.0 ==> a < 0.0
  {
  }

  /** `cs.filter(p)`: the contacts satisfying p, in their order. */
  function Filter(cs: seq<Contact>, p: Contact -> bool): (r: seq<Contact>)
    ensures |r| <= |cs|
    ensures forall c :: c in r <==> c in cs && p(c)
  {
    if cs == [] then []
    else
      var r := Filter(cs[..|cs| - 1], p);
      assert cs == cs[..|cs| - 1] + [cs[|cs| - 1]];
      if p(cs[|cs| - 1]) then r + [cs[|cs| - 1]] else r
  }

  lemma {:induction false} FilterConcat(a: seq<Contact>, b: seq<Contact>, p: Contact -> bool)
    ensures Filter(a + b, p) == Filter(a, p) + Filter(b, p)
    decreases |b|
  {
    if b == [] {
      assert a + b == a;
    } else {
      var b' := b[..|b| - 1];
      assert (a + b)[..|a + b| - 1] == a + b';
      FilterConcat(a, b', p);
    }
  }

  /** Every contact either satisfies p or does not. */
  lemma {:induction false} FilterSplit(cs: seq<Contact>, p: Contact -> bool, q: Contact -> bool)
    requires forall c :: q(c) == !p(c)
    ensures |Filter(cs, p)| + |Filter(cs, q)| == |cs|
    decreases |cs|
  {
    if cs != [] {
      FilterSplit(cs[..|cs| - 1], p, q);
    }
  }

  /** Filtering twice is filtering by both conditions. */
  lemma {:induction false} FilterTwice(cs: seq<Contact>, p: Contact -> bool, q: Contact -> bool, pq: Contact -> bool)
    requires forall c :: pq(c) == (p(c) && q(c))
    ensures Filter(Filter(cs, p), q) == Filter(cs, pq)
    decreases |cs|
  {
    if cs != [] {
      var init := cs[..|cs| - 1];
      FilterTwice(init, p, q, pq);
      if p(cs[|cs| - 1]) {
        var r := Filter(init, p) + [cs[|cs| - 1]];
        assert r[..|r| - 1] == Filter(init, p);
      }
    }
  }

  /** Taking the element at k out of a list. */
  lemma RemoveAt<T>(b: seq<T>, k: nat)
    requires k < |b|
    ensures multiset(b[..k] + b[k + 1..]) == multiset(b) - multiset{b[k]}
  {
    assert b == b[..k] + [b[k]] + b[k + 1..];
    assert multiset(b) == multiset(b[..k]) + multiset{b[k]} + multiset(b[k + 1..]);
  }

  /** A list is its part before k, its element at k and its part after k. */
  lemma SplitAt<T>(b: seq<T>, k: nat)
    requires k < |b|
    ensures b[..k] + [b[k]] + b[k + 1..] == b
  {
  }

  /** Filtering a list with an element x in the middle, against filtering
      the list without it. */
  lemma FilterMiddle(l: seq<Contact>, x: Contact, r: seq<Contact>, p: Contact -> bool)
    ensures multiset(Filter(l + [x] + r, p)) == multiset(Filter(l + r, p)) + multiset(Filter([x], p))
  {
    FilterConcat(l + [x], r, p);
    FilterConcat(l, [x], p);
    FilterConcat(l, r, p);
  }

  /** Filtering a reordering of a list gives a reordering of the filtered list. */
  lemma {:induction false} FilterPermutation(a: seq<Contact>, b: seq<Contact>, p: Contact -> bool)
    requires multiset(a) == multiset(b)
    ensures multiset(Filter(a, p)) == multiset(Filter(b, p))
    decreases |a|
  {
    if a != [] {
      var x := a[|a| - 1];
      var a' := a[..|a| - 1];
      assert a == a' + [x];
      assert x in multiset(b);
      var k :| 0 <= k < |b| && b[k] == x;
      RemoveAt(b, k);
      assert multiset(a') == multiset(a) - multiset{x};
      FilterPermutation(a', b[..k] + b[k + 1..], p);
      SplitAt(b, k);
      FilterMiddle(b[..k], x, b[k + 1..], p);
      FilterConcat(a', [x], p);
    }
  }

  /** `cs.reduce((sum, c) => sum + (c.revenue || 0), 0)`. */
  function TotalRevenue(cs: seq<Contact>): nat {
    if cs == [] then 0 else TotalRevenue(cs[..|cs| - 1]) + cs[|cs| - 1].revenue
  }

  lemma {:induction false} TotalRevenueConcat(a: seq<Contact>, b: seq<Contact>)
    ensures TotalRevenue(a + b) == TotalRevenue(a) + TotalRevenue(b)
    decreases |b|
  {
    if b == [] {
      assert a + b == a;
    } else {
      var b' := b[..|b| - 1];
      assert (a + b)[..|a + b| - 1] == a + b';
      TotalRevenueConcat(a, b');
    }
  }

  /** The total of a list with an element x in the middle is the total
      without it plus x's revenue. */
  lemma TotalRevenueMiddle(l: seq<Contact>, x: Contact, r: seq<Contact>)
    ensures TotalRevenue(l + [x] + r) == TotalRevenue(l + r) + x.revenue
  {
    assert TotalRevenue([x]) == x.revenue by {
      assert [x][..0] == [];
    }
    TotalRevenueConcat(l + [x], r);
    TotalRevenueConcat(l, [x]);
    TotalRevenueConcat(l, r);
  }

  /** The total is the same in any order of the contacts. */
  lemma {:induction false} TotalRevenuePermutation(a: seq<Contact>, b: seq<Contact>)
    requires multiset(a) == multiset(b)
    ensures TotalRevenue(a) == TotalRevenue(b)
    decreases |a|
  {
    if a != [] {
      var x := a[|a| - 1];
      var a' := a[..|a| - 1];
      assert a == a' + [x];
      assert x in multiset(b);
      var k :| 0 <= k < |b| && b[k] == x;
      RemoveAt(b, k);
      assert multiset(a') == multiset(a) - multiset{x};
      TotalRevenuePermutation(a', b[..k] + b[k + 1..]);
      SplitAt(b, k);
      TotalRevenueMiddle(b[..k], x, b[k + 1..]);
    }
  }

  /** The largest revenue, `Math.max(...cs.map(c => c.revenue || 0))`, for a
      non-empty list. */
  function MaxRevenue(cs: seq<Contact>): (m: nat)
    requires cs != []
    ensures forall c | c in cs :: c.revenue <= m
    ensures exists c | c in cs :: c.revenue == m
  {
    if |cs| == 1 then cs[0].revenue
    else
      var init := cs[..|cs| - 1];
      var m := MaxRevenue(init);
      assert cs == init + [cs[|cs| - 1]];
      if cs[|cs| - 1].revenue > m then cs[|cs| - 1].revenue else m
  }
}
