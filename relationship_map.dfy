/** The `/relationship-map` handler: one node per contact, the edges of
    `findConnections`, and three summary counts. */
module RelationshipMap {

  import opened Contacts
  import opened Scoring
  import opened Graph
  import opened Insights

  /** A node of the map; `group` is the company, or "Individual" without one. */
  datatype Node = Node(id: Id, name: string, company: string, revenue: nat, score: nat, group: string)

  datatype MapStats = MapStats(totalNodes: nat, totalConnections: nat, companies: nat)

  /** The node of one contact: its own fields, its score, and its group. */
  function NodeOf(c: Contact): (n: Node)
    ensures n.id == c.id && n.name == c.name && n.company == c.company && n.revenue == c.revenue
    ensures 15 <= n.score <= 100
    ensures n.group != "" && (n.group == c.company <==> HasCompany(c))
  {
    Node(c.id, c.name, c.company, c.revenue, Score(c), if HasCompany(c) then c.company else "Individual")
  }

  /** `contacts.map(...)`. */
  function Nodes(cs: seq<Contact>): (r: seq<Node>)
    ensures |r| == |cs| && forall k :: 0 <= k < |cs| ==> r[k] == NodeOf(cs[k])
  {
    seq(|cs|, k requires 0 <= k < |cs| => NodeOf(cs[k]))
  }

  /** The handler on the fetched contacts for the strategic draws `draw`:
      one node per contact in contact order, grouped by company, the edges
      of `findConnections`, and as many companies as distinct non-empty
      company names, which is the number of `topPerformingCompanies`
      entries of the insights. */
  method BuildRelationshipMap(cs: seq<Contact>, draw: (nat, nat) -> bool)
    returns (nodes: seq<Node>, connections: seq<Edge>, stats: MapStats)
    ensures nodes == Nodes(cs)
    ensures connections == Connections(cs, draw)
    ensures stats.totalNodes == |cs| && stats.totalConnections == |connections|
    ensures stats.companies == |CompanySet(cs)| == |Rollup(cs)|
  {
    connections := FindConnections(cs, draw);
    nodes := Nodes(cs);
    var companies := CompanySet(cs);
    RollupSize(cs);
    stats := MapStats(|nodes|, |connections|, |companies|);
  }

  /** Every node carries a score in [15, 100] and a non-empty group, the
      company exactly when there is one. */
  lemma NodeFacts(cs: seq<Contact>)
    ensures forall n | n in Nodes(cs) :: 15 <= n.score <= 100 && n.group != ""
    ensures forall k :: 0 <= k < |cs| ==> (Nodes(cs)[k].group == cs[k].company <==> HasCompany(cs[k]))
  {
    forall k | 0 <= k < |cs| ensures Nodes(cs)[k].group == cs[k].company <==> HasCompany(cs[k]) {
    }
  }
}
