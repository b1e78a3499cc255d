/**
 * The gate carousel: an effectively endless pager whose pages cycle through
 * four gates, with one indicator dot per gate.
 */
module GateCarousel {
  datatype CardStyle = Mythical | Artsy | Protective

  /** A gate card; the drawable resource id is not part of this model. */
  datatype GateItem = GateItem(
    gateName: string,
    domainName: string,
    tagline: string,
    description: string,
    route: string,
    glowColor: int,
    cardStyle: CardStyle)

  /** `Int.MAX_VALUE`, the pager's page count. */
  const IntMax: int := 0x7FFF_FFFF

  /** The four gates in the order the carousel lists them. */
  const Gates: seq<GateItem> := [
    GateItem("ORACLE DRIVE", "Genesis Core", "THE UNIFIED AI ORCHESTRATOR",
      "Mythical and omnipresent. The head honcho system control and agent synchronization.",
      "genesis_gate", 0xFF00FFD4, Mythical),
    GateItem("REACTIVE DESIGN", "Aura Engine", "ARTSY MESSY BUT BEAUTIFUL",
      "Paint reality with Aura's creative catalyst. UI, theming, and paint-splattered chaos.",
      "aura_gate", 0xFFFF00FF, Artsy),
    GateItem("SENTINEL FORTRESS", "Kai Fortress", "PROTECTIVE SYSTEM DEFENSE",
      "Bulky, industrial, and ethical fortress. Secure bootloader, ROM tools, and system integrity.",
      "kai_gate", 0xFFFF3366, Protective),
    GateItem("AGENT NEXUS", "Growth Metrics", "THE FAMILY GATHERS HERE",
      "Central hub for agent memory, identity, and the Sphere Grid skill tree.",
      "agent_nexus_gate", 0xFFAA00FF, Mythical)
  ]

  /** A page the pager can show: `0 .. Int.MAX_VALUE - 1`. */
  type Page = p: int | 0 <= p < IntMax

  /** The page the pager opens on, `Int.MAX_VALUE / 2` in Kotlin's truncating division. */
  const StartPage: Page := IntMax / 2

  /** The gate shown on page `p`, and selected while `p` is the current page. */
  function GateForPage(p: Page): (g: GateItem)
    ensures g in Gates
  {
    Gates[p % |Gates|]
  }

  /** The route a double tap on page `p` navigates to. */
  function RouteForPage(p: Page): (route: string)
    ensures exists i | 0 <= i < |Gates| :: route == Gates[i].route
  {
    GateForPage(p).route
  }

  /** Whether indicator dot `i` is drawn as selected while page `p` is current. */
  predicate IsSelected(p: Page, i: int) {
    p % |Gates| == i
  }

  /** The selection state of the dots, one per gate, left to right. */
  function Indicators(p: Page): (dots: seq<bool>)
    ensures |dots| == |Gates|
    ensures forall i | 0 <= i < |dots| :: dots[i] == IsSelected(p, i)
  {
    seq(|Gates|, i requires 0 <= i < |Gates| => IsSelected(p, i))
  }

  /** The number of `true` entries. */
  function CountTrue(s: seq<bool>): (n: nat)
    ensures n == multiset(s)[true]
    ensures n <= |s|
  {
    if s == [] then 0
    else
      assert s == s[..|s| - 1] + [s[|s| - 1]];
      CountTrue(s[..|s| - 1]) + (if s[|s| - 1] then 1 else 0)
  }

  /** A sequence with exactly one `true`, at `k`, counts one. */
  lemma {:induction false} CountSingle(s: seq<bool>, k: nat)
    requires k < |s| && s[k]
    requires forall i | 0 <= i < |s| && i != k :: !s[i]
    ensures CountTrue(s) == 1
  {
    if |s| - 1 == k {
      CountNone(s[..k]);
    } else {
      CountSingle(s[..|s| - 1], k);
    }
  }

  /** A sequence with no `true` counts zero. */
  lemma {:induction false} CountNone(s: seq<bool>)
    requires forall i | 0 <= i < |s| :: !s[i]
    ensures CountTrue(s) == 0
  {
    if s != [] {
      CountNone(s[..|s| - 1]);
    }
  }

  /** Exactly one dot is selected, and it is the dot of the gate on show. */
  lemma ExactlyOneIndicator(p: Page)
    ensures CountTrue(Indicators(p)) == 1
    ensures Indicators(p)[p % |Gates|]
    ensures Gates[p % |Gates|] == GateForPage(p)
  {
    CountSingle(Indicators(p), p % |Gates|);
  }

  /** Pages four apart show the same gate. */
  lemma PagePeriodic(p: Page)
    requires p + 4 < IntMax
    ensures GateForPage(p + 4) == GateForPage(p)
  {
  }

  /** The pager opens on AGENT NEXUS, the last gate, not the first. */
  lemma StartsOnAgentNexus()
    ensures StartPage == 1073741823 && StartPage % 4 == 3
    ensures GateForPage(StartPage).gateName == "AGENT NEXUS"
    ensures RouteForPage(StartPage) == "agent_nexus_gate"
  {
  }

  /** The four routes are distinct. */
  lemma RoutesDistinct()
    ensures forall i, j | 0 <= i < j < |Gates| :: Gates[i].route != Gates[j].route
  {
    assert Gates[0].route[0] == 'g' && Gates[1].route[0] == 'a' && Gates[2].route[0] == 'k';
    assert Gates[3].route[1] == 'g' && Gates[1].route[1] == 'u';
  }

  /** Two pages navigate to the same route exactly when they show the same gate. */
  lemma SameRouteSameGate(p: Page, q: Page)
    ensures RouteForPage(p) == RouteForPage(q) <==> p % 4 == q % 4
  {
    RoutesDistinct();
  }
}
