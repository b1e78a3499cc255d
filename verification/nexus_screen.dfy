/**
 * The Nexus screen's gate selector: an index into a non-empty list of gates
 * that the previous and next buttons move cyclically.
 */
module NexusScreen {
  /** A gate as the screen shows it; the colour is its ARGB value. */
  datatype GateDestination = GateDestination(title: string, description: string, route: string, primaryColor: int)

  const KaiFortress := GateDestination("Kai Fortress",
    "Sentinel security and system shielding protocols. Protect the core.", "kai_gate", 0xFF39FF14)
  const AuraCanvas := GateDestination("Aura Canvas",
    "Vibrant creativity and design synthesis. Forge the interface.", "aura_gate", 0xFFFF1493)
  const GenesisOracle := GateDestination("Genesis Oracle",
    "High-level AI orchestration and multi-agent coordination.", "genesis_gate", 0xFF00E5FF)

  /** `GateDestination.DEFAULT_LIST`, the screen's default gates. */
  const DefaultList: seq<GateDestination> := [KaiFortress, AuraCanvas, GenesisOracle]

  /** `onNext` on an index into `n` gates: step forward, wrapping from the last gate to the first. */
  function NextIndex(i: int, n: nat): (j: int)
    requires 0 <= i < n
    ensures 0 <= j < n
  {
    if i < n - 1 then i + 1 else 0
  }

  /** `onPrev`: step back, wrapping from the first gate to the last. */
  function PrevIndex(i: int, n: nat): (j: int)
    requires 0 <= i < n
    ensures 0 <= j < n
  {
    if i > 0 then i - 1 else n - 1
  }

  /** Previous undoes next, and next undoes previous. */
  lemma PrevNextInverse(i: int, n: nat)
    requires 0 <= i < n
    ensures PrevIndex(NextIndex(i, n), n) == i
    ensures NextIndex(PrevIndex(i, n), n) == i
  {
  }

  /** The index after `k` presses of next. */
  function NextTimes(i: int, n: nat, k: nat): (j: int)
    requires 0 <= i < n
    ensures 0 <= j < n
  {
    if k == 0 then i else NextIndex(NextTimes(i, n, k - 1), n)
  }

  /** Presses of next compose: `a` presses then `b` presses are `a + b` presses. */
  lemma {:induction false} NextTimesAdd(i: int, n: nat, a: nat, b: nat)
    requires 0 <= i < n
    ensures NextTimes(i, n, a + b) == NextTimes(NextTimes(i, n, a), n, b)
  {
    if b > 0 {
      NextTimesAdd(i, n, a, b - 1);
    }
  }

  /** Before the wrap, `k` presses of next advance the index by exactly `k`. */
  lemma {:induction false} NextTimesAdvances(i: int, n: nat, k: nat)
    requires 0 <= i && i + k < n
    ensures NextTimes(i, n, k) == i + k
  {
    if k > 0 {
      NextTimesAdvances(i, n, k - 1);
    }
  }

  /** As many presses of next as there are gates come back to the start. */
  lemma FullCycle(i: int, n: nat)
    requires 0 <= i < n
    ensures NextTimes(i, n, n) == i
  {
    NextTimesAdd(i, n, n - 1 - i, 1);
    NextTimesAdvances(i, n, n - 1 - i);
    assert NextTimes(i, n, n - i) == 0;
    NextTimesAdd(i, n, n - i, i);
    NextTimesAdvances(0, n, i);
  }

  /** The state the screen remembers across recompositions. */
  class NexusSelector {
    const gates: seq<GateDestination>
    var currentIndex: int

    /** `gates[currentIndex]` can be read. */
    predicate Valid()
      reads this
    {
      0 <= currentIndex < |gates|
    }

    /** `remember { mutableIntStateOf(0) }` over a non-empty gate list (an empty list fails on first access). */
    constructor (gates: seq<GateDestination>)
      requires |gates| > 0
      ensures this.gates == gates && currentIndex == 0 && Valid()
    {
      this.gates := gates;
      currentIndex := 0;
    }

    /** `gates[currentIndex]`, the gate on show. */
    function CurrentGate(): (g: GateDestination)
      reads this
      requires Valid()
      ensures g in gates
    {
      gates[currentIndex]
    }

    /** The previous button. */
    method OnPrev()
      requires Valid()
      modifies this
      ensures Valid() && currentIndex == PrevIndex(old(currentIndex), |gates|)
    {
      if currentIndex > 0 {
        currentIndex := currentIndex - 1;
      } else {
        currentIndex := |gates| - 1;
      }
    }

    /** The next button. */
    method OnNext()
      requires Valid()
      modifies this
      ensures Valid() && currentIndex == NextIndex(old(currentIndex), |gates|)
    {
      if currentIndex < |gates| - 1 {
        currentIndex := currentIndex + 1;
      } else {
        currentIndex := 0;
      }
    }
  }

  /** On the default list, previous from the first gate shows the last, and next from the last shows the first. */
  lemma DefaultListWraps()
    ensures |DefaultList| == 3
    ensures DefaultList[PrevIndex(0, 3)] == GenesisOracle
    ensures DefaultList[NextIndex(2, 3)] == KaiFortress
  {
  }
}
