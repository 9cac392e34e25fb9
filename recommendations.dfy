/** The `/recommendations` handler: one pass over the contacts sorting each
    into immediate, weekly and monthly action lists, followed by three
    pipeline insights. */
module Recommendations {

  import opened Options
  import opened Text
  import opened Contacts
  import opened Scoring

  /** The four kinds of recommended action. */
  datatype Kind = Outreach | Upsell | Relationship | Industry

  /** One recommended action, for the contact named `contact`. */
  datatype Item = Item(kind: Kind, contact: string)

  /** The literal `type`, `priority`, `action` and `reason` of each kind. */
  function TypeOf(k: Kind): string {
    match k
    case Outreach => "outreach"
    case Upsell => "upsell"
    case Relationship => "relationship"
    case Industry => "industry"
  }

  function PriorityOf(k: Kind): string {
    match k
    case Outreach => "high"
    case Upsell => "medium"
    case Relationship => "high"
    case Industry => "medium"
  }

  function ActionOf(k: Kind): string {
    match k
    case Outreach => "Initial contact and qualification"
    case Upsell => "Upsell opportunity identified"
    case Relationship => "Schedule check-in call"
    case Industry => "Tech industry newsletter"
  }

  function ReasonOf(k: Kind): string {
    match k
    case Outreach => "New contact with no revenue"
    case Upsell => "Low revenue but engaged customer"
    case Relationship => "High-value contact needs attention"
    case Industry => "Tech company - industry-specific content"
  }

  /** One pipeline insight. */
  datatype Insight = Insight(kind: string, message: string, impact: string)

  datatype Recommendations = Recommendations(immediate: seq<Item>, weekly: seq<Item>, monthly: seq<Item>, insights: seq<Insight>)

  predicate NoRevenue(c: Contact) { c.revenue == 0 }

  predicate SmallRevenue(c: Contact) { 0 < c.revenue < 2000 }

  predicate Active(c: Contact) { c.revenue > 0 }

  predicate BelowUpsellLine(c: Contact) { c.revenue < 2000 }

  /** The immediate items one contact contributes: the two independent tests
      of the handler, an outreach for no revenue and an upsell for a small
      one. */
  function ImmediateOf(c: Contact): seq<Item> {
    (if NoRevenue(c) then [Item(Outreach, c.name)] else [])
      + (if SmallRevenue(c) then [Item(Upsell, c.name)] else [])
  }

  /** The immediate list after the contacts cs. */
  function Immediate(cs: seq<Contact>): (r: seq<Item>)
    ensures |r| == |Filter(cs, BelowUpsellLine)|
    ensures forall i :: 0 <= i < |r| ==> r[i].kind == Outreach || r[i].kind == Upsell
  {
    if cs == [] then [] else Immediate(cs[..|cs| - 1]) + ImmediateOf(cs[|cs| - 1])
  }

  /** One item of kind k per contact of cs, in order. */
  function ItemsFor(k: Kind, cs: seq<Contact>): (r: seq<Item>)
    ensures |r| == |cs|
    ensures forall i :: 0 <= i < |cs| ==> r[i] == Item(k, cs[i].name)
  {
    if cs == [] then [] else ItemsFor(k, cs[..|cs| - 1]) + [Item(k, cs[|cs| - 1].name)]
  }

  /** The item a contact below the upsell line receives. */
  function LowRevenueItem(c: Contact): Item {
    if c.revenue == 0 then Item(Outreach, c.name) else Item(Upsell, c.name)
  }

  function LowRevenueItems(cs: seq<Contact>): (r: seq<Item>)
    ensures |r| == |cs|
    ensures forall i :: 0 <= i < |cs| ==> r[i] == LowRevenueItem(cs[i])
  {
    if cs == [] then [] else LowRevenueItems(cs[..|cs| - 1]) + [LowRevenueItem(cs[|cs| - 1])]
  }

  /** The two tests never both hold: a contact adds at most one immediate
      item, and one exactly when its revenue is below 2000. */
  lemma ImmediateOfAtMostOne(c: Contact)
    ensures |ImmediateOf(c)| <= 1
    ensures |ImmediateOf(c)| == 1 <==> c.revenue < 2000
    ensures c.revenue < 2000 ==> ImmediateOf(c) == [LowRevenueItem(c)]
  {
  }

  /** The immediate list is one item per contact below 2000, in contact
      order: outreach for no revenue, upsell otherwise. */
  lemma {:induction false} ImmediateIsLowRevenue(cs: seq<Contact>)
    ensures Immediate(cs) == LowRevenueItems(Filter(cs, BelowUpsellLine))
    decreases |cs|
  {
    if cs != [] {
      ImmediateIsLowRevenue(cs[..|cs| - 1]);
      ImmediateOfAtMostOne(cs[|cs| - 1]);
    }
  }

  /** `|immediate|` counts the contacts without revenue plus those with a
      small one. */
  lemma {:induction false} ImmediateCount(cs: seq<Contact>)
    ensures |Immediate(cs)| == |Filter(cs, NoRevenue)| + |Filter(cs, SmallRevenue)|
    decreases |cs|
  {
    if cs != [] {
      ImmediateCount(cs[..|cs| - 1]);
    }
  }

  /** A contact on the weekly list has a revenue of at least 10500, so it
      never appears in the immediate list as well. */
  lemma WeeklyNotImmediate(c: Contact)
    requires IsHighScore(c)
    ensures ImmediateOf(c) == []
  {
    HighScoreNeedsRevenue(c);
  }

  /** The three insights, with `fmt` standing for `toLocaleString`; the
      growth and opportunity messages open with their counts. */
  function InsightsOf(cs: seq<Contact>, fmt: Number -> string): (r: seq<Insight>)
    ensures |r| == 3
    ensures FirstNumber(r[1].message) == Some(|Filter(cs, Active)|)
    ensures FirstNumber(r[2].message) == Some(|Filter(cs, NoRevenue)|)
  {
    var growth := "active customers out of " + Counted(|cs|, "total contacts");
    var idle := "contacts with no revenue - potential growth area";
    CountedFirst([], |Filter(cs, Active)|, growth);
    CountedFirst([], |Filter(cs, NoRevenue)|, idle);
    assert [] + Counted(|Filter(cs, Active)|, growth) == Counted(|Filter(cs, Active)|, growth);
    assert [] + Counted(|Filter(cs, NoRevenue)|, idle) == Counted(|Filter(cs, NoRevenue)|, idle);
    [Insight("revenue", "Total pipeline value: $" + fmt(Finite(TotalRevenue(cs))), "high"),
     Insight("growth", Counted(|Filter(cs, Active)|, growth), "medium"),
     Insight("opportunity", Counted(|Filter(cs, NoRevenue)|, idle), "high")]
  }

  /** Active contacts and contacts without revenue split the list. */
  lemma ActiveAndIdle(cs: seq<Contact>)
    ensures |Filter(cs, Active)| + |Filter(cs, NoRevenue)| == |cs|
  {
    FilterSplit(cs, Active, NoRevenue);
  }

  /** The list the handler builds by pushing an item of kind k for every
      contact satisfying p. */
  function Bucket(k: Kind, cs: seq<Contact>, p: Contact -> bool): seq<Item> {
    if cs == [] then []
    else Bucket(k, cs[..|cs| - 1], p) + if p(cs[|cs| - 1]) then [Item(k, cs[|cs| - 1].name)] else []
  }

  /** Pushing item by item lists the contacts satisfying p, in order. */
  lemma {:induction false} BucketIsFilter(k: Kind, cs: seq<Contact>, p: Contact -> bool)
    ensures Bucket(k, cs, p) == ItemsFor(k, Filter(cs, p))
    decreases |cs|
  {
    if cs != [] {
      BucketIsFilter(k, cs[..|cs| - 1], p);
    }
  }

  /** The body of the `forEach`: the four independent tests on one contact,
      each pushing onto its list. */
  method FileContact(contact: Contact, immediate: seq<Item>, weekly: seq<Item>, monthly: seq<Item>)
    returns (immediate': seq<Item>, weekly': seq<Item>, monthly': seq<Item>)
    ensures immediate' == immediate + ImmediateOf(contact)
    ensures weekly' == weekly + if IsHighScore(contact) then [Item(Relationship, contact.name)] else []
    ensures monthly' == monthly + if IsTech(contact) then [Item(Industry, contact.name)] else []
  {
    immediate', weekly', monthly' := immediate, weekly, monthly;
    var score := CalculateScore(contact);
    var revenue := contact.revenue;
    if revenue == 0 {
      immediate' := immediate' + [Item(Outreach, contact.name)];
    }
    if revenue > 0 && revenue < 2000 {
      immediate' := immediate' + [Item(Upsell, contact.name)];
    }
    if score > 70 {
      weekly' := weekly' + [Item(Relationship, contact.name)];
    }
    if CompanyMentions(contact, "tech") {
      monthly' := monthly' + [Item(Industry, contact.name)];
    }
  }

  /** The handler on the fetched contacts: one `forEach` pushing into the
      three lists, then the insights. */
  method Recommend(cs: seq<Contact>, fmt: Number -> string) returns (recs: Recommendations)
    ensures recs.immediate == Immediate(cs)
    ensures recs.weekly == ItemsFor(Relationship, Filter(cs, IsHighScore))
    ensures recs.monthly == ItemsFor(Industry, Filter(cs, IsTech))
    ensures recs.insights == InsightsOf(cs, fmt)
  {
    var immediate, weekly, monthly := [], [], [];
    var i := 0;
    while i < |cs|
      invariant 0 <= i <= |cs|
      invariant immediate == Immediate(cs[..i])
      invariant weekly == Bucket(Relationship, cs[..i], IsHighScore)
      invariant monthly == Bucket(Industry, cs[..i], IsTech)
    {
      assert cs[..i + 1][..i] == cs[..i];
      immediate, weekly, monthly := FileContact(cs[i], immediate, weekly, monthly);
      i := i + 1;
    }
    assert cs[..i] == cs;
    BucketIsFilter(Relationship, cs, IsHighScore);
    BucketIsFilter(Industry, cs, IsTech);
    recs := Recommendations(immediate, weekly, monthly, InsightsOf(cs, fmt));
  }
}
