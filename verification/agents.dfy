/** The agents overview page: the list of agents narrowed by a search box and a status
    selector, the setup-progress counter, and the status labels. */
module Agents {
  import opened Strings
  import opened ArrayOps

  datatype Status = Active | Scheduled | Paused | NeedsSetup

  /** An agent card. The icon, KPI and meta lines are display text only. */
  datatype Agent = Agent(id: string, name: string, description: string, status: Status)

  /** The six agents of the page. */
  const AllAgents: seq<Agent> := [
    Agent("inventory", "Inventory & Supply Chain",
          "Flags low stock, suggests restocks, and identifies slow movers based on velocity.", Active),
    Agent("promotions", "Offers & Promotions",
          "Ranks promo codes by net revenue and flags high-return promotions.", Active),
    Agent("pricing", "Pricing Strategist",
          "Suggests price moves and markdowns; tracks elasticity and bundle uplift.", Scheduled),
    Agent("fulfillment", "Fulfillment & Logistics",
          "Monitors unfulfilled orders, delays, and partner SLA performance.", Paused),
    Agent("finance", "Finance & Profitability",
          "Surfaces margin leaks, below-cost sales, and contribution by category.", Active),
    Agent("customer-care", "Customer Care Signals",
          "Analyzes support tags and NPS comments to surface product and CX issues.", NeedsSetup)
  ]

  /** The string value of a status, as the status selector's options spell it. */
  function StatusKey(s: Status): string {
    match s
    case Active => "active"
    case Scheduled => "scheduled"
    case Paused => "paused"
    case NeedsSetup => "needs-setup"
  }

  /** `matchesSearch`: the lower-cased term occurs in the lower-cased name or description. */
  predicate MatchesSearch(a: Agent, searchTerm: string) {
    Includes(ToLower(a.name), ToLower(searchTerm)) || Includes(ToLower(a.description), ToLower(searchTerm))
  }

  /** `matchesStatus`: the selector is on "all" or names the agent's status. */
  predicate MatchesStatus(a: Agent, statusFilter: string) {
    statusFilter == "all" || StatusKey(a.status) == statusFilter
  }

  /** `filteredAgents`: the agents that match both the search term and the status filter,
      in the order of the list. */
  function FilteredAgents(agents: seq<Agent>, searchTerm: string, statusFilter: string): (r: seq<Agent>)
    ensures IsSubsequence(r, agents)
    ensures forall a :: a in r ==> MatchesSearch(a, searchTerm) && MatchesStatus(a, statusFilter)
    ensures forall a :: a in agents && MatchesSearch(a, searchTerm) && MatchesStatus(a, statusFilter) ==> a in r
    ensures forall a :: a in agents ==>
      multiset(r)[a] == (if MatchesSearch(a, searchTerm) && MatchesStatus(a, statusFilter) then multiset(agents)[a] else 0)
  {
    Filter(agents, (a: Agent) => MatchesSearch(a, searchTerm) && MatchesStatus(a, statusFilter))
  }

  /** A kept agent's name or description contains the search term at some position
      (both lower-cased). */
  lemma KeptAgentContainsTerm(agents: seq<Agent>, searchTerm: string, statusFilter: string, a: Agent)
    requires a in FilteredAgents(agents, searchTerm, statusFilter)
    ensures (exists i :: OccursAt(ToLower(a.name), ToLower(searchTerm), i))
         || (exists i :: OccursAt(ToLower(a.description), ToLower(searchTerm), i))
  {
    IncludesIff(ToLower(a.name), ToLower(searchTerm));
    IncludesIff(ToLower(a.description), ToLower(searchTerm));
  }

  /** The search ignores ASCII case: two terms that agree once lower-cased show the same cards. */
  lemma SearchIgnoresCase(agents: seq<Agent>, term1: string, term2: string, statusFilter: string)
    requires ToLower(term1) == ToLower(term2)
    ensures FilteredAgents(agents, term1, statusFilter) == FilteredAgents(agents, term2, statusFilter)
  {
    FilterCongruent(agents,
      (a: Agent) => MatchesSearch(a, term1) && MatchesStatus(a, statusFilter),
      (a: Agent) => MatchesSearch(a, term2) && MatchesStatus(a, statusFilter));
  }

  /** Searching for the lower-cased term shows the same cards as searching for the term. */
  lemma LowerCasedTermSameCards(agents: seq<Agent>, searchTerm: string, statusFilter: string)
    ensures FilteredAgents(agents, ToLower(searchTerm), statusFilter) == FilteredAgents(agents, searchTerm, statusFilter)
  {
    ToLowerIdempotent(searchTerm);
    SearchIgnoresCase(agents, ToLower(searchTerm), searchTerm, statusFilter);
  }

  /** With an empty search box and "All statuses" every agent is shown, in order. */
  lemma EmptySearchShowsAll(agents: seq<Agent>)
    ensures FilteredAgents(agents, "", "all") == agents
  {
    assert ToLower("") == "";
    forall a | a in agents
      ensures MatchesSearch(a, "")
    {
      IncludesEmpty(ToLower(a.name));
    }
  }

  /** The three controls of the page. */
  datatype Filters = Filters(searchTerm: string, statusFilter: string, categoryFilter: string)

  /** The cards the page shows for its current controls. */
  function VisibleAgents(agents: seq<Agent>, f: Filters): seq<Agent> {
    FilteredAgents(agents, f.searchTerm, f.statusFilter)
  }

  /** The category selector has no effect on the cards shown. */
  lemma CategoryFilterIgnored(agents: seq<Agent>, f: Filters, category: string)
    ensures VisibleAgents(agents, f.(categoryFilter := category)) == VisibleAgents(agents, f)
  {
  }

  /** An agent counts as configured unless its status is "needs-setup". */
  predicate IsConfigured(a: Agent) {
    a.status != NeedsSetup
  }

  function StatusOf(a: Agent): Status { a.status }

  /** `configuredAgents`: the number of agents whose status is not "needs-setup", that is the
      number of agents less the number of "needs-setup" entries among their statuses. */
  function ConfiguredAgents(agents: seq<Agent>): (r: nat)
    ensures r + multiset(MapSeq(agents, StatusOf))[NeedsSetup] == |agents|
    ensures r == |agents| <==> forall a :: a in agents ==> a.status != NeedsSetup
    ensures r == 0 <==> forall a :: a in agents ==> a.status == NeedsSetup
  {
    var configured := Filter(agents, IsConfigured);
    assert configured != [] ==> configured[0] in configured;
    ConfiguredCount(agents);
    |configured|
  }

  /** Each agent is either kept by the configured filter or counted among the "needs-setup"
      statuses, never both. */
  lemma {:induction false} ConfiguredCount(agents: seq<Agent>)
    ensures |Filter(agents, IsConfigured)| + multiset(MapSeq(agents, StatusOf))[NeedsSetup] == |agents|
  {
    if agents != [] {
      ConfiguredCount(agents[1..]);
      assert MapSeq(agents, StatusOf) == [agents[0].status] + MapSeq(agents[1..], StatusOf);
    }
  }

  /** `totalAgents`: every agent is configured or needs setup. */
  function TotalAgents(agents: seq<Agent>): (r: nat)
    ensures r == ConfiguredAgents(agents) + multiset(MapSeq(agents, StatusOf))[NeedsSetup]
    ensures ConfiguredAgents(agents) <= r
  {
    |agents|
  }

  /** The page's statuses, in card order. */
  lemma AllAgentStatuses()
    ensures MapSeq(AllAgents, StatusOf) == [Active, Active, Scheduled, Paused, Active, NeedsSetup]
  {
    var statuses := MapSeq(AllAgents, StatusOf);
    assert |statuses| == 6;
    assert statuses[0] == Active && statuses[1] == Active && statuses[2] == Scheduled;
    assert statuses[3] == Paused && statuses[4] == Active && statuses[5] == NeedsSetup;
  }

  /** The setup-progress card: 5 of the page's 6 agents are configured. */
  lemma SetupProgress()
    ensures ConfiguredAgents(AllAgents) == 5 && TotalAgents(AllAgents) == 6
  {
    AllAgentStatuses();
    StatusCountOfFixture();
  }

  lemma StatusCountOfFixture()
    ensures multiset([Active, Active, Scheduled, Paused, Active, NeedsSetup])[NeedsSetup] == 1
  {
  }

  /** `getStatusText`: the label shown on a card. "Needs setup" is the label of the one status
      that needs setup; every other label is the status's selector value, capitalised. */
  function StatusText(s: Status): (r: string)
    ensures r == "Needs setup" <==> s == NeedsSetup
    ensures s != NeedsSetup ==> r == [UpperChar(StatusKey(s)[0])] + StatusKey(s)[1..]
  {
    match s
    case Active => "Active"
    case Scheduled => "Scheduled"
    case Paused => "Paused"
    case NeedsSetup => "Needs setup"
  }

  /** Every status has its own label, so a label tells the status. */
  lemma StatusTextInjective(s: Status, t: Status)
    requires StatusText(s) == StatusText(t)
    ensures s == t
  {
  }
}
