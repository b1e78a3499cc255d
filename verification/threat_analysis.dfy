/**
 * Kai's keyword-priority classification of a free-text threat description.
 */
module ThreatAnalysis {
  import opened Text

  /** The four severities, lowest first. */
  datatype ThreatLevel = Low | Medium | High | Critical

  /** Position in the order low < medium < high < critical. */
  function Rank(l: ThreatLevel): (r: nat)
    ensures r < 4
  {
    match l
    case Low => 0
    case Medium => 1
    case High => 2
    case Critical => 3
  }

  /** The string stored under `"threat_level"`. */
  function LevelName(l: ThreatLevel): (s: string)
    ensures s in {"critical", "high", "medium", "low"}
  {
    match l
    case Low => "low"
    case Medium => "medium"
    case High => "high"
    case Critical => "critical"
  }

  /** The first keyword the text contains, in priority order, decides the level. */
  function Classify(threat: string): ThreatLevel {
    if ContainsIgnoreCase(threat, "malware") then Critical
    else if ContainsIgnoreCase(threat, "vulnerability") then High
    else if ContainsIgnoreCase(threat, "suspicious") then Medium
    else Low
  }

  /** The returned map without its timestamp. */
  datatype Assessment = Assessment(
    threatLevel: string,
    confidence: real,
    recommendations: seq<string>,
    analyzedBy: string)

  /** `analyzeSecurityThreat`: the level comes from the text, everything else is fixed. */
  function Analyze(threat: string): (a: Assessment)
    ensures a.threatLevel in {"critical", "high", "medium", "low"}
    ensures a.threatLevel == LevelName(Classify(threat))
    ensures a.confidence == 0.95
    ensures a.recommendations == ["Monitor closely", "Apply security patches"]
    ensures a.analyzedBy == "Kai - Genesis Backed"
  {
    Assessment(LevelName(Classify(threat)), 0.95, ["Monitor closely", "Apply security patches"], "Kai - Genesis Backed")
  }

  /** Level names are distinct, so the stored string identifies the level. */
  lemma LevelNameInjective(l1: ThreatLevel, l2: ThreatLevel)
    ensures LevelName(l1) == LevelName(l2) <==> l1 == l2
  {
    if l1 != l2 {
      assert LevelName(l1)[0] != LevelName(l2)[0] || |LevelName(l1)| != |LevelName(l2)|;
    }
  }

  /** Each level holds exactly when its keyword is the highest-priority one present. */
  lemma ClassifyByKeywords(threat: string)
    ensures Classify(threat) == Critical <==> ContainsIgnoreCase(threat, "malware")
    ensures Classify(threat) == High <==>
      !ContainsIgnoreCase(threat, "malware") && ContainsIgnoreCase(threat, "vulnerability")
    ensures Classify(threat) == Medium <==>
      !ContainsIgnoreCase(threat, "malware") && !ContainsIgnoreCase(threat, "vulnerability")
      && ContainsIgnoreCase(threat, "suspicious")
    ensures Classify(threat) == Low <==>
      !ContainsIgnoreCase(threat, "malware") && !ContainsIgnoreCase(threat, "vulnerability")
      && !ContainsIgnoreCase(threat, "suspicious")
  {
  }

  /** Adding text before or after a description never lowers its severity. */
  lemma ExtensionNeverLowers(threat: string, extra: string)
    ensures Rank(Classify(threat)) <= Rank(Classify(threat + extra))
    ensures Rank(Classify(threat)) <= Rank(Classify(extra + threat))
  {
    if ContainsIgnoreCase(threat, "malware") {
      ContainsSurvivesExtension(threat, extra, "malware");
    } else if ContainsIgnoreCase(threat, "vulnerability") {
      ContainsSurvivesExtension(threat, extra, "vulnerability");
    } else if ContainsIgnoreCase(threat, "suspicious") {
      ContainsSurvivesExtension(threat, extra, "suspicious");
    }
  }

  /** Descriptions that differ only in letter case get the same level. */
  lemma ClassifyIgnoresCase(t1: string, t2: string)
    requires EqualsIgnoreCase(t1, t2)
    ensures Classify(t1) == Classify(t2)
  {
    ContainsIgnoresCase(t1, t2, "malware");
    ContainsIgnoresCase(t1, t2, "vulnerability");
    ContainsIgnoresCase(t1, t2, "suspicious");
  }

  /** The empty description, and any shorter than every keyword, is low. */
  lemma ShortDescriptionIsLow(threat: string)
    requires |threat| < 7
    ensures Classify(threat) == Low
  {
    ShortTextMisses(threat, "malware");
    ShortTextMisses(threat, "vulnerability");
    ShortTextMisses(threat, "suspicious");
  }

  /** "malware" anywhere wins over every other keyword, in any case. */
  lemma MalwareWins(before: string, after: string)
    ensures Classify(before + "MalWare" + after) == Critical
  {
    assert MatchesAt("MalWare", "malware", 0);
    ContainsSurvivesExtension("MalWare", before, "malware");
    ContainsSurvivesExtension(before + "MalWare", after, "malware");
  }
}
