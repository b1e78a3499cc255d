/**
 * The agent roster and its case-insensitive lookup by name.
 */
module AgentRepository {
  import opened Options
  import opened Lists
  import opened Text

  /** An agent's stats, reduced to the name and the evolution level. */
  datatype AgentStats = AgentStats(name: string, evolutionLevel: int)

  /** `getAllAgents()`, in list order; four external backends are listed twice. */
  const AllAgents: seq<AgentStats> := [
    AgentStats("Genesis", 5),
    AgentStats("Aura", 10),
    AgentStats("Kai", 5),
    AgentStats("Cascade", 4),
    AgentStats("Claude", 8),
    AgentStats("Nemotron", 4),
    AgentStats("Gemini", 8),
    AgentStats("MetaInstruct", 4),
    AgentStats("Grok", 3),
    AgentStats("Nemotron", 4),
    AgentStats("Gemini", 4),
    AgentStats("MetaInstruct", 4),
    AgentStats("Grok", 3)
  ]

  /** The roster entry named `query`, ignoring case. */
  predicate NamedAs(query: string, a: AgentStats) {
    EqualsIgnoreCase(a.name, query)
  }

  /** The first agent in `agents` whose name equals the query ignoring case, or null. */
  function FindByName(agents: seq<AgentStats>, query: string): (r: Option<AgentStats>)
    ensures r.None? <==> forall i | 0 <= i < |agents| :: !EqualsIgnoreCase(agents[i].name, query)
    ensures r.Some? ==> EqualsIgnoreCase(r.value.name, query)
    ensures r.Some? ==>
      exists i | 0 <= i < |agents| ::
        agents[i] == r.value && forall j | 0 <= j < i :: !EqualsIgnoreCase(agents[j].name, query)
  {
    Find(agents, a => NamedAs(query, a))
  }

  /** `getAgentByName`, the search over the whole roster. */
  function GetAgentByName(query: string): Option<AgentStats> {
    FindByName(AllAgents, query)
  }

  /** Queries equal ignoring case find the same agent. */
  lemma LookupIgnoresCase(q1: string, q2: string)
    requires EqualsIgnoreCase(q1, q2)
    ensures GetAgentByName(q1) == GetAgentByName(q2)
  {
    forall j | 0 <= j < |AllAgents|
      ensures NamedAs(q1, AllAgents[j]) == NamedAs(q2, AllAgents[j])
    {
      EqualsIgnoreCaseEquivalence(AllAgents[j].name, q1, q2);
      EqualsIgnoreCaseEquivalence(AllAgents[j].name, q2, q1);
      EqualsIgnoreCaseEquivalence(q1, q2, q2);
    }
    FindAgrees(AllAgents, a => NamedAs(q1, a), a => NamedAs(q2, a));
  }

  /** An entry that matches, with none before it, is the one found. */
  lemma FoundAt(agents: seq<AgentStats>, query: string, k: nat)
    requires k < |agents| && EqualsIgnoreCase(agents[k].name, query)
    requires forall j | 0 <= j < k :: !EqualsIgnoreCase(agents[j].name, query)
    ensures FindByName(agents, query) == Some(agents[k])
  {
    var r := FindByName(agents, query);
    var i :| 0 <= i < |agents| && agents[i] == r.value
      && forall j | 0 <= j < i :: !EqualsIgnoreCase(agents[j].name, query);
  }

  /** Any spelling of "kai" ("kai", "KAI", "Kai", ...) finds Kai. */
  lemma KaiInAnyCase(query: string)
    requires EqualsIgnoreCase(query, "Kai")
    ensures GetAgentByName(query) == Some(AgentStats("Kai", 5))
  {
    var agents := AllAgents;
    assert |agents[0].name| != |query| && |agents[1].name| != |query|;
    EqualsIgnoreCaseEquivalence(agents[2].name, "Kai", query);
    EqualsIgnoreCaseEquivalence(query, "Kai", query);
    FoundAt(agents, query, 2);
  }

  /** Nemotron, Gemini, MetaInstruct and Grok each appear twice, with Gemini's two levels different. */
  lemma RosterDuplicates()
    ensures AllAgents[5].name == AllAgents[9].name == "Nemotron"
    ensures AllAgents[6] == AgentStats("Gemini", 8) && AllAgents[10] == AgentStats("Gemini", 4)
    ensures AllAgents[7].name == AllAgents[11].name == "MetaInstruct"
    ensures AllAgents[8].name == AllAgents[12].name == "Grok"
  {
  }

  /** No name before the first Gemini entry matches a spelling of "gemini"; that entry does. */
  lemma GeminiFirstAt6(query: string)
    requires EqualsIgnoreCase(query, "gemini")
    ensures forall j | 0 <= j < 6 :: !EqualsIgnoreCase(AllAgents[j].name, query)
    ensures EqualsIgnoreCase(AllAgents[6].name, query)
  {
    var agents := AllAgents;
    assert Lower(agents[0].name[2]) != Lower(query[2]);
    assert |agents[1].name| != |query| && |agents[2].name| != |query|;
    assert |agents[3].name| != |query| && |agents[5].name| != |query|;
    assert Lower(agents[4].name[0]) != Lower(query[0]);
    EqualsIgnoreCaseEquivalence(agents[6].name, "gemini", query);
    EqualsIgnoreCaseEquivalence(query, "gemini", query);
  }

  /** Any spelling of "gemini" finds the first Gemini entry, level 8, not the later one with level 4. */
  lemma FirstDuplicateWins(query: string)
    requires EqualsIgnoreCase(query, "gemini")
    ensures GetAgentByName(query) == Some(AgentStats("Gemini", 8))
  {
    GeminiFirstAt6(query);
    FoundAt(AllAgents, query, 6);
  }

  /** Every name has between 1 and 12 characters. */
  lemma NameLengths()
    ensures forall i | 0 <= i < |AllAgents| :: 0 < |AllAgents[i].name| <= 12
  {
  }

  /** The empty query, or one longer than every name, finds nobody. */
  lemma NoAgentForOddLengths(query: string)
    requires |query| == 0 || |query| > 12
    ensures GetAgentByName(query) == None
  {
    NameLengths();
  }
}
