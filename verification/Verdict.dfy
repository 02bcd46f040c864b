/** From evidence to a verdict: the confidence ladder, the gate to Unknown, and the published classification. */
module Verdict {
  import opened Numbers

  const MIN_CONFIDENCE := 0.40
  const MIN_TOP_SCORE := 0.35
  const MIN_CATEGORY_GAP := 0.12
  const HIGH_CONFIDENCE := 0.85
  const HIGH_TOP_SCORE := 0.60
  const HIGH_CATEGORY_GAP := 0.20

  datatype Severity = High | Medium | Low

  /** `aboutAccess`: the conflict is about the WAN access type or the classification itself. */
  datatype Conflict = Conflict(severity: Severity, aboutAccess: bool)

  /** Everything the decision reads. `scored`: some type has a positive score; `leading` is then the first of them. */
  datatype Case = Case(
    scored: bool, leading: string, topScore: real, margin: real, base: real,
    direct: bool, device: bool, matched: bool,
    directConfidence: real, modelConfidence: real,
    ethernetOnly: bool, performanceAndRegionOnly: bool, topologyOnly: bool,
    conflicts: seq<Conflict>)

  datatype Quality = HighQuality | MediumQuality | LowQuality
  datatype State = Confirmed | Probable | PossibleState | ConflictingEvidence | InsufficientEvidence

  datatype Verdict = Verdict(primary: string, published: string, confidence: real, quality: Quality, state: State,
                             safe: bool)

  /** The confidence the scores alone support. */
  function BaseConfidence(top: real, margin: real, sources: nat, matched: bool): (c: real)
    ensures 0.0 <= c <= 1.0
  {
    if top <= 0.0 then 0.0
    else
      var conf := 0.6 * top + 0.25 * Clamp01(margin / top) + 0.15 * Clamp01(sources as real / 4.0);
      Clamp01(if matched then conf + 0.1 else conf)
  }

  predicate HasSeverity(conflicts: seq<Conflict>, s: Severity) {
    exists i | 0 <= i < |conflicts| :: conflicts[i].severity == s
  }

  predicate ConcernsAccess(conflicts: seq<Conflict>) {
    exists i | 0 <= i < |conflicts| :: conflicts[i].aboutAccess
  }

  // ---- the ladder ----

  /** The rung the evidence reaches before conflicts count. */
  function Rung(c: Case): real {
    if c.direct then
      MinReal(MaxReal(c.base, if c.directConfidence >= HIGH_CONFIDENCE then c.directConfidence else 0.80),
              if c.ethernetOnly then 0.59 else 0.98)
    else if c.device then
      MinReal(MaxReal(c.base, if c.matched then MaxReal(c.modelConfidence, 0.72) else c.modelConfidence), 0.75)
    else
      MinReal(c.base, if c.performanceAndRegionOnly then 0.25 else if c.topologyOnly then 0.30 else 0.40)
  }

  /** Conflicts only lower it: to 0.35 for a grave one, by 0.10 for a medium one where no grave one already bites. */
  function ConfidenceOf(c: Case): real {
    var r := Rung(c);
    Clamp01(if HasSeverity(c.conflicts, High) && r > 0.35 then 0.35
            else if HasSeverity(c.conflicts, Medium) then r - 0.10
            else r)
  }

  /** Evidence is regional-and-performance only when there is no topology, topology-only when there is nothing else. */
  predicate Coherent(c: Case) {
    0.0 <= c.base <= 1.0 && !(c.performanceAndRegionOnly && c.topologyOnly)
  }

  method ComputeClassificationConfidence(c: Case) returns (conf: real)
    requires Coherent(c)
    ensures conf == ConfidenceOf(c)
  {
    conf := c.base;
    if c.direct {
      if c.directConfidence >= HIGH_CONFIDENCE {
        conf := MaxReal(conf, c.directConfidence);
      } else {
        conf := MaxReal(conf, 0.80);
      }
      if conf > 0.98 {
        conf := 0.98;
      }
      if c.ethernetOnly && conf > 0.59 {
        conf := 0.59;
      }
    } else if c.device {
      var modelConf := c.modelConfidence;
      if c.matched {
        modelConf := MaxReal(modelConf, 0.72);
      }
      conf := MaxReal(conf, modelConf);
      if conf > 0.75 {
        conf := 0.75;
      }
    } else {
      if conf > 0.40 {
        conf := 0.40;
      }
      if c.performanceAndRegionOnly && conf > 0.25 {
        conf := 0.25;
      }
      if c.topologyOnly && conf > 0.30 {
        conf := 0.30;
      }
    }
    if HasSeverity(c.conflicts, High) && conf > 0.35 {
      conf := 0.35;
    } else if HasSeverity(c.conflicts, Medium) {
      conf := conf - 0.10;
    }
    conf := Clamp01(conf);
  }

  // ---- the gate ----

  function QualityOf(confidence: real, margin: real, top: real, direct: bool, device: bool): Quality {
    if direct && confidence >= HIGH_CONFIDENCE && top >= HIGH_TOP_SCORE && margin >= HIGH_CATEGORY_GAP then HighQuality
    else if (direct || device) && confidence >= MIN_CONFIDENCE && margin >= MIN_CATEGORY_GAP && top >= MIN_TOP_SCORE
    then MediumQuality
    else LowQuality
  }

  /** The published name of a type. */
  function Published(primary: string): string {
    if primary == "" || primary == "Unknown" then "Unknown"
    else if primary == "VDSL2" || primary == "VDSL" then "VDSL"
    else if primary == "ADSL2+" || primary == "ADSL" then "ADSL"
    else if primary == "GPON" || primary == "EPON" || primary == "XG-PON"
         || primary == "XGS-PON" || primary == "10G-EPON"
         || primary == "FTTH" || primary == "Fiber" then "Fiber"
    else if primary == "DOCSIS" || primary == "Cable" then "Cable"
    else if primary == "LTE" || primary == "5G" || primary == "FWA" || primary == "5G FWA"
         || primary == "Mobile" || primary == "Cellular" then "FWA"
    else if primary == "WISP" || primary == "Fixed Wireless" then "WISP"
    else if primary == "Satellite" || primary == "LEO Satellite" || primary == "GEO Satellite"
         || primary == "MEO Satellite" || primary == "VSAT"
    then "Satellite"
    else primary
  }

  predicate Nameless(primary: string) {
    primary == "" || primary == "Unknown"
  }

  lemma PublishedUnknownExactly(primary: string)
    ensures Published(primary) == "Unknown" <==> Nameless(primary)
  {
  }

  function StateOf(published: string, confidence: real, direct: bool, conflicts: seq<Conflict>): State {
    if published == "Unknown" then (if conflicts != [] then ConflictingEvidence else InsufficientEvidence)
    else if ConcernsAccess(conflicts) then ConflictingEvidence
    else if direct && confidence >= 0.85 then Confirmed
    else if confidence >= 0.60 then Probable
    else if confidence >= 0.40 then PossibleState
    else InsufficientEvidence
  }

  /** No commitment: nothing scored, or the gate stays shut. */
  predicate Uncommitted(c: Case) {
    || !c.scored
    || ConfidenceOf(c) < MIN_CONFIDENCE || c.topScore < MIN_TOP_SCORE
    || (c.margin < MIN_CATEGORY_GAP && !c.direct) || (!c.direct && !c.device)
  }

  function Publish(c: Case, primary: string, confidence: real, quality: Quality): Verdict {
    var published := Published(primary);
    var state := StateOf(published, confidence, c.direct, c.conflicts);
    Verdict(primary, published, confidence, quality, state,
            published != "Unknown" && state == Confirmed && c.direct && c.conflicts == [])
  }

  function VerdictOf(c: Case): Verdict {
    if !c.scored then Publish(c, "Unknown", 0.0, LowQuality)
    else
      var conf := ConfidenceOf(c);
      Publish(c, if Uncommitted(c) then "Unknown" else c.leading, conf,
              QualityOf(conf, c.margin, c.topScore, c.direct, c.device))
  }

  /** The gate as written, with its separate clause for grave conflicts; that clause decides nothing the
      ladder has not. */
  method Decide(c: Case) returns (v: Verdict)
    requires Coherent(c)
    ensures v == VerdictOf(c)
  {
    if !c.scored {
      return Publish(c, "Unknown", 0.0, LowQuality);
    }
    var confidence := ComputeClassificationConfidence(c);
    var quality := QualityOf(confidence, c.margin, c.topScore, c.direct, c.device);
    var unknown := confidence < MIN_CONFIDENCE || c.topScore < MIN_TOP_SCORE
                   || (c.margin < MIN_CATEGORY_GAP && !c.direct) || (!c.direct && !c.device);
    if HasSeverity(c.conflicts, High) {
      GraveConflictIsLow(c);
      if !c.direct || ConcernsAccess(c.conflicts) {
        unknown := true;
      }
    }
    if unknown {
      return Publish(c, "Unknown", confidence, quality);
    }
    v := Publish(c, c.leading, confidence, quality);
  }

  // ---- what the ladder guarantees ----

  lemma GraveConflictIsLow(c: Case)
    requires HasSeverity(c.conflicts, High)
    ensures ConfidenceOf(c) <= 0.35 && (c.scored ==> Uncommitted(c))
  {
  }

  /** Any grave conflict forces Unknown, with conflicting evidence as the published state. */
  lemma GraveConflictForcesUnknown(c: Case)
    requires HasSeverity(c.conflicts, High)
    ensures VerdictOf(c).published == "Unknown" && VerdictOf(c).state == ConflictingEvidence
            && VerdictOf(c).confidence <= 0.35
  {
    GraveConflictIsLow(c);
  }

  /** Exactly when the engine does not commit: with direct evidence only a grave conflict or a low score stops it;
      with a known model the confidence and the gap count too; without either nothing helps. */
  lemma UnknownExactly(c: Case)
    requires Coherent(c)
    ensures VerdictOf(c).primary == "Unknown" <==>
            || !c.scored || c.leading == "Unknown" || HasSeverity(c.conflicts, High) || c.topScore < MIN_TOP_SCORE
            || (!c.direct && (!c.device || c.margin < MIN_CATEGORY_GAP
                              || Rung(c) < (if HasSeverity(c.conflicts, Medium) then 0.50 else MIN_CONFIDENCE)))
  {
    if HasSeverity(c.conflicts, High) {
      GraveConflictIsLow(c);
    }
  }

  /** No tier of evidence reaches beyond its cap. */
  lemma TierCaps(c: Case)
    requires Coherent(c)
    ensures !c.direct && !c.device ==> ConfidenceOf(c) <= 0.40 && VerdictOf(c).published == "Unknown"
    ensures !c.direct ==>
              ConfidenceOf(c) <= 0.75 && VerdictOf(c).state != Confirmed && VerdictOf(c).quality != HighQuality
    ensures c.direct && c.ethernetOnly ==>
              ConfidenceOf(c) <= 0.59 && VerdictOf(c).state != Confirmed && VerdictOf(c).state != Probable
    ensures 0.0 <= ConfidenceOf(c) <= 0.98
  {
  }

  /** A verdict is safe to show as final exactly when there is direct evidence other than Ethernet alone, strong enough,
      a scored and named leader above the score threshold, and no conflict of any severity. */
  lemma SafeExactly(c: Case)
    requires Coherent(c)
    ensures VerdictOf(c).safe <==>
            && c.scored && !Nameless(c.leading) && c.topScore >= MIN_TOP_SCORE
            && c.direct && !c.ethernetOnly && (c.directConfidence >= HIGH_CONFIDENCE || c.base >= HIGH_CONFIDENCE)
            && c.conflicts == []
  {
    PublishedUnknownExactly(c.leading);
    if c.conflicts == [] {
      assert !HasSeverity(c.conflicts, High) && !HasSeverity(c.conflicts, Medium) && !ConcernsAccess(c.conflicts);
    }
  }

  /** And what is safe is confirmed, named and at least 0.85 sure. */
  lemma SafeMeansConfirmed(c: Case)
    requires VerdictOf(c).safe
    ensures VerdictOf(c).state == Confirmed && VerdictOf(c).published != "Unknown" && c.direct && c.conflicts == []
    ensures VerdictOf(c).confidence >= HIGH_CONFIDENCE && !c.ethernetOnly
  {
  }

  /** Adding a conflict lowers the confidence or leaves it, except that a grave one replaces the deduction for a
      medium one: on a rung between 0.35 and 0.45 that is a rise. */
  lemma MoreConflictsLowerExactly(c: Case, extra: Conflict)
    requires Coherent(c)
    ensures ConfidenceOf(c.(conflicts := c.conflicts + [extra])) <= ConfidenceOf(c) <==>
            !(extra.severity == High && !HasSeverity(c.conflicts, High) && HasSeverity(c.conflicts, Medium)
              && 0.35 < Rung(c) < 0.45)
  {
    var d := c.(conflicts := c.conflicts + [extra]);
    MoreConflicts(c.conflicts, extra, High);
    MoreConflicts(c.conflicts, extra, Medium);
    assert Rung(d) == Rung(c);
  }

  lemma GraveConflictCanRaise(c: Case)
    requires c.base == 0.40 && !c.direct && !c.device && !c.performanceAndRegionOnly && !c.topologyOnly
    requires c.conflicts == [Conflict(Medium, false)]
    ensures ConfidenceOf(c) == 0.30 && ConfidenceOf(c.(conflicts := c.conflicts + [Conflict(High, false)])) == 0.35
  {
    var more := c.conflicts + [Conflict(High, false)];
    assert more[0].severity == Medium && more[1].severity == High;
    assert c.conflicts[0].severity == Medium;
  }

  /** The verdict itself is monotone: what was Unknown stays Unknown under more conflicts. */
  lemma UnknownStaysUnknown(c: Case, extra: Conflict)
    requires Coherent(c) && VerdictOf(c).primary == "Unknown"
    ensures VerdictOf(c.(conflicts := c.conflicts + [extra])).primary == "Unknown"
  {
    var d := c.(conflicts := c.conflicts + [extra]);
    MoreConflicts(c.conflicts, extra, High);
    MoreConflicts(c.conflicts, extra, Medium);
    assert Rung(d) == Rung(c);
    UnknownExactly(c);
    UnknownExactly(d);
  }

  lemma MoreConflicts(conflicts: seq<Conflict>, extra: Conflict, s: Severity)
    ensures HasSeverity(conflicts + [extra], s) <==> HasSeverity(conflicts, s) || extra.severity == s
  {
    var more := conflicts + [extra];
    assert more[|conflicts|] == extra;
    if HasSeverity(more, s) {
      var i :| 0 <= i < |more| && more[i].severity == s;
      assert i < |conflicts| ==> conflicts[i] == more[i];
    }
    if HasSeverity(conflicts, s) {
      var i :| 0 <= i < |conflicts| && conflicts[i].severity == s;
      assert (conflicts + [extra])[i].severity == s;
    }
  }

  // ---- the published figures by number ----

  /** The state of a published verdict, and that an unpublished one says whether anything conflicts. */
  lemma StatesExactly(c: Case)
    ensures var v := VerdictOf(c);
      if v.published == "Unknown" then
        v.state == (if c.conflicts == [] then InsufficientEvidence else ConflictingEvidence)
      else
        && (v.state == ConflictingEvidence <==> ConcernsAccess(c.conflicts))
        && (v.state == Confirmed <==> !ConcernsAccess(c.conflicts) && c.direct && v.confidence >= 0.85)
        && (v.state == Probable <==>
              !ConcernsAccess(c.conflicts) && v.confidence >= 0.60 && !(c.direct && v.confidence >= 0.85))
        && (v.state == PossibleState <==> !ConcernsAccess(c.conflicts) && 0.40 <= v.confidence < 0.60)
        && v.state != InsufficientEvidence
  {
  }

  /** The quality of a scored verdict. */
  lemma QualityExactly(c: Case)
    requires c.scored
    ensures var v := VerdictOf(c);
      && (v.quality == HighQuality <==> c.direct && v.confidence >= 0.85 && c.topScore >= 0.60 && c.margin >= 0.20)
      && (v.quality == LowQuality <==>
            v.confidence < 0.40 || c.margin < 0.12 || c.topScore < 0.35 || (!c.direct && !c.device))
  {
  }

  /** What the scores alone support: six tenths of the top score, a quarter of the share it leads by, 0.0375 for each of
      the first four sources, and a tenth for a matched device, up to certainty. */
  lemma BaseIsLinear(top: real, share: real, sources: nat, matched: bool)
    requires top > 0.0 && 0.0 <= share <= 1.0
    ensures BaseConfidence(top, share * top, sources, matched)
         == MinReal(1.0, 0.6 * top + 0.25 * share + 0.0375 * (if sources < 4 then sources else 4) as real
                         + (if matched then 0.1 else 0.0))
  {
    assert share * top / top == share;
    assert Clamp01(sources as real / 4.0) == (if sources < 4 then sources else 4) as real / 4.0;
  }

  /** Without scores there is nothing to support; a lead counts no more than the whole score and no less than
      nothing. */
  lemma BaseAtTheEnds(top: real, margin: real, sources: nat, matched: bool)
    ensures top <= 0.0 ==> BaseConfidence(top, margin, sources, matched) == 0.0
    ensures top > 0.0 && margin > top ==>
              BaseConfidence(top, margin, sources, matched) == BaseConfidence(top, top, sources, matched)
    ensures top > 0.0 && margin < 0.0 ==>
              BaseConfidence(top, margin, sources, matched) == BaseConfidence(top, 0.0, sources, matched)
  {
    if top > 0.0 {
      assert margin > top ==> margin / top > 1.0;
      assert margin < 0.0 ==> margin / top < 0.0;
      assert top / top == 1.0 && 0.0 / top == 0.0;
    }
  }

  /** The rungs without a conflict: direct evidence lifts to what it claims from 0.85 on and else to 0.80, a known
      model to what it claims and a matched one to 0.72 at least; each tier stops at its cap. */
  lemma RungsByTier(c: Case)
    requires Coherent(c) && c.conflicts == []
    ensures c.direct && !c.ethernetOnly && c.directConfidence >= 0.85 ==>
              ConfidenceOf(c) == MinReal(MaxReal(c.base, c.directConfidence), 0.98)
    ensures c.direct && !c.ethernetOnly && c.directConfidence < 0.85 ==>
              ConfidenceOf(c) == MinReal(MaxReal(c.base, 0.80), 0.98)
    ensures c.direct && c.ethernetOnly ==> ConfidenceOf(c) == 0.59
    ensures !c.direct && c.device && c.matched ==>
              ConfidenceOf(c) == MinReal(MaxReal(c.base, MaxReal(c.modelConfidence, 0.72)), 0.75)
    ensures !c.direct && c.device && !c.matched ==>
              ConfidenceOf(c) == MinReal(MaxReal(c.base, c.modelConfidence), 0.75)
    ensures !c.direct && !c.device ==>
              ConfidenceOf(c) == MinReal(c.base, if c.performanceAndRegionOnly then 0.25
                                                 else if c.topologyOnly then 0.30 else 0.40)
  {
    assert !HasSeverity(c.conflicts, High) && !HasSeverity(c.conflicts, Medium);
  }

  /** The families the published names stand for. */
  lemma PublishedLines()
    ensures Published("VDSL2") == Published("VDSL") == "VDSL" && Published("ADSL2+") == Published("ADSL") == "ADSL"
    ensures Published("DOCSIS") == Published("Cable") == "Cable"
  {
  }

  lemma PublishedFiber()
    ensures Published("GPON") == Published("EPON") == Published("XG-PON") == Published("XGS-PON") == "Fiber"
    ensures Published("10G-EPON") == Published("FTTH") == Published("Fiber") == "Fiber"
  {
  }

  lemma PublishedMobile()
    ensures Published("LTE") == Published("5G") == Published("FWA") == "FWA"
  {
  }

  lemma PublishedCellular()
    ensures Published("5G FWA") == Published("Mobile") == Published("Cellular") == "FWA"
  {
  }

  lemma PublishedWireless()
    ensures Published("WISP") == Published("Fixed Wireless") == "WISP"
  {
  }

  lemma PublishedSatellite()
    ensures Published("Satellite") == Published("VSAT") == "Satellite"
  {
  }

  lemma PublishedOrbits()
    ensures Published("LEO Satellite") == Published("GEO Satellite") == Published("MEO Satellite") == "Satellite"
  {
  }

  /** Any other name is published as it is. */
  lemma PublishedAsIs(primary: string)
    requires primary !in {"", "Unknown", "VDSL2", "VDSL", "ADSL2+", "ADSL", "DOCSIS", "Cable"}
    requires primary !in {"GPON", "EPON", "XG-PON", "XGS-PON", "10G-EPON", "FTTH", "Fiber"}
    requires primary !in {"LTE", "5G", "FWA", "5G FWA", "Mobile", "Cellular", "WISP", "Fixed Wireless"}
    requires primary !in {"Satellite", "LEO Satellite", "GEO Satellite", "MEO Satellite", "VSAT"}
    ensures Published(primary) == primary
  {
  }
}
