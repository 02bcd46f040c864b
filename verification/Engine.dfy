/** The detection engine: probe results in, a verdict, its candidates and its audit out. */
module Engine {
  import Sorting
  import Text
  import KeyedMerge
  import A = Aggregation
  import E = EvidenceMeaning
  import G = GatewayMerge
  import R = Ranking
  import S = ScoreAudit
  import V = Verdict
  import opened Numbers
  import opened Options

  /** `categoryFor` is the table of access categories, `readers` the text readers of the evidence fold. */
  datatype Config = Config(readers: A.Readers, categoryFor: string -> string, rules: seq<S.Rule>)

  /** What other parts of the engine settle: which rules match, the matched fingerprint, whether a gateway chain or a
      useful NAT view is known, and the conflicts found between results. */
  datatype Setting = Setting(matches: S.Rule -> bool, fingerprint: Option<S.Fingerprint>, chainKnown: bool,
                             natUseful: bool,
                             conflicts: seq<V.Conflict>)

  datatype Outcome = Outcome(input: V.Case, verdict: V.Verdict, scores: S.Scores, ranked: seq<R.TypeScore>,
                             candidates: seq<R.Candidate>, audit: seq<S.Contribution>)

  // ---- what the ladder is told about the evidence ----

  predicate NamesEthernet(bag: A.Bag) {
    || (exists sig | sig in bag.signals :: WritesEthernet(sig))
    || A.Contains(Text.Lower(A.JoinWith(bag.strongHints)), "ethernetwan")
  }

  predicate EthernetOnly(readers: A.Readers, bag: A.Bag) {
    && NamesEthernet(bag)
    && (forall h | h in bag.strongHints :: h == "EthernetWAN")
    && (forall sig | sig in bag.signals :: readers.targetOf(sig) == "EthernetWAN" || readers.targetOf(sig) == "Unknown")
  }

  /** The confidence of the best signal; here the strength has to be spelled "strong" exactly. */
  function StrongestSignal(signals: seq<A.WANSignal>): real {
    if signals == [] then 0.0
    else
      var last := signals[|signals| - 1];
      var before := StrongestSignal(signals[..|signals| - 1]);
      if last.strength == "Physical" || last.strength == "strong" || last.confidence >= 0.70 then MaxReal(before,
          last.confidence)
      else before
  }

  function DirectConfidence(bag: A.Bag): real {
    var c := MaxReal(bag.physical, StrongestSignal(bag.signals));
    if bag.lineProfile.Some? then MaxReal(c, bag.lineProfile.value.confidence) else c
  }

  // ---- what that says of the reports ----

  /** The line all CPE reports together describe. */
  function LineOf(readers: A.Readers, results: seq<A.ProbeResult>): Option<A.LineProfile> {
    var bag := A.Folded(readers, results);
    readers.parseLine(bag.keyValues, Text.Trim(bag.signalText + " " + bag.cpeText + " " + bag.routerModel))
  }

  /** A value that counts as direct confidence: a claim of proof, the confidence of a signal that is physical, spelled
      "strong" or at least 0.70, or that of the line. */
  ghost predicate DirectValue(readers: A.Readers, results: seq<A.ProbeResult>, v: real) {
    || E.ClaimedBy(readers, E.Proof, results, v)
    || (exists sig :: E.Signalled(results, sig) && Compelling(sig) && v == sig.confidence)
    || (LineOf(readers, results).Some? && v == LineOf(readers, results).value.confidence)
  }

  predicate Compelling(sig: A.WANSignal) {
    sig.strength == "Physical" || sig.strength == "strong" || sig.confidence >= 0.70
  }

  lemma {:induction false} StrongestSignalMeans(signals: seq<A.WANSignal>)
    ensures var best := StrongestSignal(signals);
            && best >= 0.0 && (forall sig | sig in signals && Compelling(sig) :: sig.confidence <= best)
            && (best == 0.0 || exists sig :: sig in signals && Compelling(sig) && best == sig.confidence)
  {
    if signals != [] {
      var init, last := signals[..|signals| - 1], signals[|signals| - 1];
      StrongestSignalMeans(init);
      assert signals == init + [last];
    }
  }

  lemma SignalValues(readers: A.Readers, results: seq<A.ProbeResult>)
    ensures var best := StrongestSignal(A.Folded(readers, results).signals);
            && best >= 0.0
            && (forall sig | E.Signalled(results, sig) && Compelling(sig) :: sig.confidence <= best)
            && (best == 0.0 || exists sig :: E.Signalled(results, sig) && Compelling(sig) && best == sig.confidence)
  {
    var signals := A.Folded(readers, results).signals;
    StrongestSignalMeans(signals);
    forall sig ensures sig in signals <==> E.Signalled(results, sig) {
      E.KeepsHintsAndSignals(readers, results, "", sig);
    }
  }

  /** The direct confidence is the highest such value the reports give, zero when none is above it. */
  lemma DirectConfidenceMeans(readers: A.Readers, results: seq<A.ProbeResult>)
    ensures var best := DirectConfidence(A.WithLine(readers, A.Folded(readers, results)));
            && best >= 0.0 && (forall v | DirectValue(readers, results, v) :: v <= best)
            && (best == 0.0 || DirectValue(readers, results, best))
  {
    var bag := A.Folded(readers, results);
    A.FoldedNonNegative(readers, results);
    E.KeepsTheBest(readers, E.Proof, results);
    assert E.Kept(E.Proof, bag) == bag.physical;
    SignalValues(readers, results);
    WithLineConfidence(readers, results);
  }

  lemma WithLineConfidence(readers: A.Readers, results: seq<A.ProbeResult>)
    ensures var bag := A.Folded(readers, results);
            var before := MaxReal(bag.physical, StrongestSignal(bag.signals));
            var line := LineOf(readers, results);
            DirectConfidence(A.WithLine(readers, bag))
            == if line.Some? then MaxReal(before, line.value.confidence) else before
  {
    A.FoldedNonNegative(readers, results);
  }

  /** A hint that proves the medium, given by a result or by the line. */
  ghost predicate ProvingHint(readers: A.Readers, results: seq<A.ProbeResult>, h: string) {
    h != "" && (E.HintProves(readers, results, h)
                || (LineOf(readers, results).Some? && h in LineOf(readers, results).value.accessHints))
  }

  /** The reports name nothing but an Ethernet WAN: every proving hint is "EthernetWAN", every signal points there or
      nowhere, and there is such a hint or a signal that writes "ethernet". */
  ghost predicate OnlyEthernet(readers: A.Readers, results: seq<A.ProbeResult>) {
    && (forall h | ProvingHint(readers, results, h) :: h == "EthernetWAN")
    && (forall sig | E.Signalled(results, sig) :: readers.targetOf(sig) in {"EthernetWAN", "Unknown"})
    && ((exists h :: ProvingHint(readers, results, h))
        || exists sig :: E.Signalled(results, sig) && E.Writes(Text.Lower(sig.value + " " + sig.detail), "ethernet"))
  }

  lemma StrongHintsProve(readers: A.Readers, results: seq<A.ProbeResult>)
    ensures forall h :: h in A.WithLine(readers, A.Folded(readers, results)).strongHints <==>
                        ProvingHint(readers, results, h)
  {
    var bag, line := A.Folded(readers, results), LineOf(readers, results);
    var any := A.WANSignal("", "", "", 0.0);
    if line.Some? {
      G.AppendUniqueElements(bag.strongHints, line.value.accessHints, "");
    }
    forall h ensures h in bag.strongHints <==> h != "" && E.HintProves(readers, results, h) {
      E.KeepsHintsAndSignals(readers, results, h, any);
    }
  }

  lemma SignalsReported(readers: A.Readers, results: seq<A.ProbeResult>)
    ensures forall sig :: sig in A.Folded(readers, results).signals <==> E.Signalled(results, sig)
  {
    forall sig ensures sig in A.Folded(readers, results).signals <==> E.Signalled(results, sig) {
      E.KeepsHintsAndSignals(readers, results, "", sig);
    }
  }

  predicate WritesEthernet(sig: A.WANSignal) {
    A.Contains(Text.Lower(sig.value + " " + sig.detail), "ethernet")
  }

  lemma SomeSignalWrites(signals: seq<A.WANSignal>)
    ensures (exists sig :: sig in signals && WritesEthernet(sig)) <==>
            exists sig :: sig in signals && E.Writes(Text.Lower(sig.value + " " + sig.detail), "ethernet")
  {
    forall sig | sig in signals
      ensures WritesEthernet(sig) <==> E.Writes(Text.Lower(sig.value + " " + sig.detail), "ethernet")
    {
      E.ContainsMeans(Text.Lower(sig.value + " " + sig.detail), "ethernet");
    }
  }

  /** Joined hints that are all "EthernetWAN" write it as soon as there is one. */
  lemma JoinedEthernet(hints: seq<string>)
    requires forall h | h in hints :: h == "EthernetWAN"
    ensures A.Contains(Text.Lower(A.JoinWith(hints)), "ethernetwan") <==> hints != []
  {
    var text := Text.Lower(A.JoinWith(hints));
    if hints != [] {
      assert hints[0] in hints;
      assert A.JoinWith(hints)[..11] == hints[0];
      assert text[..11] == Text.Lower("EthernetWAN") == "ethernetwan";
      assert A.OccursAt(text, "ethernetwan", 0);
    }
  }

  lemma EthernetOnlyMeans(readers: A.Readers, results: seq<A.ProbeResult>)
    ensures EthernetOnly(readers, A.WithLine(readers, A.Folded(readers, results))) <==> OnlyEthernet(readers, results)
  {
    var bag := A.WithLine(readers, A.Folded(readers, results));
    SignalsReported(readers, results);
    StrongHintsProve(readers, results);
    SomeSignalWrites(bag.signals);
    assert bag.signals == A.Folded(readers, results).signals;
    assert bag.strongHints != [] <==> exists h :: h in bag.strongHints by {
      assert bag.strongHints != [] ==> bag.strongHints[0] in bag.strongHints;
    }
    if forall h | h in bag.strongHints :: h == "EthernetWAN" {
      JoinedEthernet(bag.strongHints);
    }
  }

  predicate Topology(bag: A.Bag, chainKnown: bool, natUseful: bool) {
    bag.gateway != "" || chainKnown || bag.network > 0.0 || natUseful
  }

  predicate Performance(bag: A.Bag) {
    bag.performance > 0.0 || bag.hasLatency || bag.hasPerformanceProfile
  }

  predicate Regional(bag: A.Bag) {
    bag.org != "" || bag.ptr != ""
  }

  function CaseOf(cfg: Config, setting: Setting, bag: A.Bag, devices: seq<G.Device>, scored: bool, leading: string,
                  pair: R.Pair): V.Case {
    var matched := setting.fingerprint.Some?;
    var topology := Topology(bag, setting.chainKnown, setting.natUseful);
    V.Case(scored, leading, pair.firstScore, pair.margin,
           V.BaseConfidence(pair.firstScore, pair.margin, bag.sources, matched),
           A.HasDirect(bag), A.HasModel(bag, devices, matched), matched,
           DirectConfidence(bag), bag.deviceEvidence,
           EthernetOnly(cfg.readers, bag),
           !topology && Performance(bag) && Regional(bag),
           topology && bag.performance == 0.0 && !bag.hasLatency && !bag.hasPerformanceProfile && !Regional(bag),
           setting.conflicts)
  }

  function Evidence(cfg: Config, results: seq<A.ProbeResult>): A.Bag {
    A.WithLine(cfg.readers, A.Folded(cfg.readers, results))
  }

  /** A model is known: a fingerprint matched, some report names a model and one claims acquaintance, or a merged device
      is named with 0.40. */
  ghost predicate ModelKnown(readers: A.Readers, setting: Setting, results: seq<A.ProbeResult>,
                             devices: seq<G.Device>) {
    || setting.fingerprint.Some?
    || (Text.Trim(A.Folded(readers, results).routerModel) != ""
        && exists v :: v > 0.0 && E.ClaimedBy(readers, E.Acquaintance, results, v))
    || exists d :: d in devices && d.deviceConfidence >= 0.40
                   && (d.modelName != "" || d.manufacturer != "" || d.fingerprintID != "")
  }

  lemma ModelIsKnown(readers: A.Readers, setting: Setting, results: seq<A.ProbeResult>, devices: seq<G.Device>)
    ensures A.HasModel(A.WithLine(readers, A.Folded(readers, results)), devices, setting.fingerprint.Some?) <==>
            ModelKnown(readers, setting, results, devices)
  {
    var bag := A.Folded(readers, results);
    E.KeepsTheBest(readers, E.Acquaintance, results);
    assert E.Kept(E.Acquaintance, bag) == bag.deviceEvidence == A.WithLine(readers, bag).deviceEvidence;
    if d :| d in devices && d.deviceConfidence >= 0.40
            && (d.modelName != "" || d.manufacturer != "" || d.fingerprintID != "") {
      var i :| 0 <= i < |devices| && devices[i] == d;
      assert A.KnownModel(devices[i]);
    }
    if i :| 0 <= i < |devices| && A.KnownModel(devices[i]) {
      assert devices[i] in devices;
    }
  }

  /** The bag, the merged devices, the ranking and the pair a case was made from. */
  ghost predicate Explains(cfg: Config, setting: Setting, results: seq<A.ProbeResult>, out: Outcome,
                           devices: seq<G.Device>, cats: S.Scores, pair: R.Pair) {
    var bag := Evidence(cfg, results);
    && KeyedMerge.IsMerge(G.ByAddress(), bag.devices, devices)
    && R.IsCategoryScores(cfg.categoryFor, out.scores, cats) && R.IsTopTwo(cats, pair)
    && out.input == CaseOf(cfg, setting, bag, devices, out.ranked != [],
                           if out.ranked == [] then "" else out.ranked[0].name, pair)
  }

  /** And what the case says of known models is true of them. */
  ghost predicate Traced(cfg: Config, setting: Setting, results: seq<A.ProbeResult>, out: Outcome,
                         devices: seq<G.Device>, cats: S.Scores, pair: R.Pair) {
    && Explains(cfg, setting, results, out, devices, cats, pair)
    && (out.input.device <==> ModelKnown(cfg.readers, setting, results, devices))
  }

  function SignalsOf(bag: A.Bag): S.Signals {
    S.Signals(bag.hints, bag.strongHints, bag.hasLatency, bag.avgMS)
  }

  /** Points of every target, accounted for by the audit and published on a scale to one. */
  ghost predicate Accounted(out: Outcome) {
    forall t | t in out.scores :: out.scores[t] == S.Clamped(S.Audited(out.audit, t, S.EVERY_CLASS))
  }

  /** A proof in the reports themselves, or in the CPE texts together. */
  ghost predicate Proven(readers: A.Readers, results: seq<A.ProbeResult>) {
    || (exists v :: v > 0.0 && E.ClaimedBy(readers, E.Proof, results, v))
    || (exists h :: h != "" && E.HintProves(readers, results, h))
    || (exists sig :: E.Signalled(results, sig) && E.Strong(sig))
    || A.TextsAreDirect(readers, A.Folded(readers, results))
  }

  /** The case says of the reports what they say. */
  ghost predicate Reported(readers: A.Readers, results: seq<A.ProbeResult>, c: V.Case) {
    && (c.direct <==> Proven(readers, results)) && (c.ethernetOnly <==> OnlyEthernet(readers, results))
    && c.directConfidence >= 0.0 && (forall v | DirectValue(readers, results, v) :: v <= c.directConfidence)
    && (c.directConfidence == 0.0 || DirectValue(readers, results, c.directConfidence))
    && E.IsBest(readers, E.Acquaintance, results, c.modelConfidence)
  }

  /** A way through the network is known. */
  ghost predicate TopologyKnown(readers: A.Readers, setting: Setting, results: seq<A.ProbeResult>) {
    || A.Folded(readers, results).gateway != "" || setting.chainKnown || setting.natUseful
    || exists v :: v > 0.0 && E.ClaimedBy(readers, E.NetworkView, results, v)
  }

  /** Something was measured. */
  ghost predicate Measured(readers: A.Readers, results: seq<A.ProbeResult>) {
    || A.Folded(readers, results).hasLatency
    || exists r :: r in results && r.success && r.payload.PerformanceProbe? && r.payload.present
  }

  /** What the case says of the evidence beside the medium: how many sources there are, and whether there is nothing but
      measurements with a registration, or nothing but topology. */
  ghost predicate AsideReported(readers: A.Readers, setting: Setting, results: seq<A.ProbeResult>, c: V.Case) {
    var bag := A.Folded(readers, results);
    var registered := bag.org != "" || bag.ptr != "";
    && (c.performanceAndRegionOnly <==>
          !TopologyKnown(readers, setting, results) && Measured(readers, results) && registered)
    && (c.topologyOnly <==>
          TopologyKnown(readers, setting, results) && !Measured(readers, results) && !registered)
    && c.base == V.BaseConfidence(c.topScore, c.margin,
                                  |set i | 0 <= i < |results| && E.Independent(readers, results[i])|, c.matched)
    && c.matched == setting.fingerprint.Some?
  }

  lemma AsideIsReported(cfg: Config, setting: Setting, results: seq<A.ProbeResult>, devices: seq<G.Device>,
                        scored: bool, leading: string, pair: R.Pair)
    ensures AsideReported(cfg.readers, setting, results,
                          CaseOf(cfg, setting, Evidence(cfg, results), devices, scored, leading, pair))
  {
    var bag := A.Folded(cfg.readers, results);
    E.KeepsTheBest(cfg.readers, E.NetworkView, results);
    E.KeepsTheBest(cfg.readers, E.Performance, results);
    assert E.Kept(E.NetworkView, bag) == bag.network && E.Kept(E.Performance, bag) == bag.performance;
    E.ProfileReported(cfg.readers, results);
    E.CountsSources(cfg.readers, results);
    if bag.performance > 0.0 {
      E.PerformanceIsProfiled(cfg.readers, results, bag.performance);
    }
  }

  /** The verdict is safe exactly when the reports prove the medium, not an Ethernet WAN alone, with a value of 0.85 or
      scores that carry as far, and a named leader scores 0.35 without any conflict. */
  ghost predicate SafeAsReported(readers: A.Readers, setting: Setting, results: seq<A.ProbeResult>, out: Outcome) {
    out.verdict.safe <==>
      && out.ranked != [] && !V.Nameless(out.ranked[0].name)
      && out.candidates != [] && out.candidates[0].score >= 0.35 && setting.conflicts == []
      && Proven(readers, results) && !OnlyEthernet(readers, results)
      && ((exists v :: v >= 0.85 && DirectValue(readers, results, v)) || out.input.base >= 0.85)
  }

  lemma CaseIsReported(cfg: Config, setting: Setting, results: seq<A.ProbeResult>, devices: seq<G.Device>,
                       scored: bool, leading: string, pair: R.Pair)
    ensures Reported(cfg.readers, results,
                     CaseOf(cfg, setting, Evidence(cfg, results), devices, scored, leading, pair))
  {
    E.DirectMeans(cfg.readers, results);
    EthernetOnlyMeans(cfg.readers, results);
    DirectConfidenceMeans(cfg.readers, results);
    E.KeepsTheBest(cfg.readers, E.Acquaintance, results);
    var bag := A.Folded(cfg.readers, results);
    assert E.Kept(E.Acquaintance, bag) == bag.deviceEvidence == Evidence(cfg, results).deviceEvidence;
  }

  lemma ReportedIsSafe(readers: A.Readers, setting: Setting, results: seq<A.ProbeResult>, out: Outcome)
    requires Reported(readers, results, out.input) && out.verdict == V.VerdictOf(out.input) && V.Coherent(out.input)
    requires out.input.topScore == (if out.candidates == [] then 0.0 else out.candidates[0].score)
    requires out.input.conflicts == setting.conflicts && out.input.scored == (out.ranked != [])
    requires out.input.leading == if out.ranked == [] then "" else out.ranked[0].name
    ensures SafeAsReported(readers, setting, results, out)
  {
    V.SafeExactly(out.input);
  }

  /** What an outcome guarantees, given where its case comes from. */
  ghost predicate Sound(cfg: Config, setting: Setting, results: seq<A.ProbeResult>, out: Outcome) {
    && Reported(cfg.readers, results, out.input) && AsideReported(cfg.readers, setting, results, out.input)
    && SafeAsReported(cfg.readers, setting, results, out)
    && out.verdict == V.VerdictOf(out.input) && V.Coherent(out.input)
    && R.IsCandidates(cfg.categoryFor, out.scores, out.candidates)
    && out.input.topScore == (if out.candidates == [] then 0.0 else out.candidates[0].score)
    && out.input.direct == A.HasDirect(Evidence(cfg, results))
    && (S.IDsDetermineScores(cfg.rules) ==> Accounted(out))
    && (V.HasSeverity(setting.conflicts, V.High) ==> out.verdict.published == "Unknown")
    && (A.ContextOnly(results) && A.SilentOnNothing(cfg.readers) && setting.fingerprint.None? ==>
          out.verdict.published == "Unknown" && !out.input.direct && !out.input.device)
  }

  lemma ExplainedIsSound(cfg: Config, setting: Setting, results: seq<A.ProbeResult>, out: Outcome,
                         devices: seq<G.Device>, cats: S.Scores, pair: R.Pair)
    requires Explains(cfg, setting, results, out, devices, cats, pair) && out.verdict == V.VerdictOf(out.input)
    requires R.IsCandidates(cfg.categoryFor, out.scores, out.candidates)
    requires S.IDsDetermineScores(cfg.rules) ==> Accounted(out)
    ensures Traced(cfg, setting, results, out, devices, cats, pair) && Sound(cfg, setting, results, out)
  {
    ModelIsKnown(cfg.readers, setting, results, devices);
    CaseFacts(cfg, setting, Evidence(cfg, results), devices, out.ranked != [],
              if out.ranked == [] then "" else out.ranked[0].name, pair);
    R.CandidatesLeadWithGateScores(cfg.categoryFor, out.scores, cats, pair, out.candidates);
    CaseIsReported(cfg, setting, results, devices, out.ranked != [],
                   if out.ranked == [] then "" else out.ranked[0].name, pair);
    AsideIsReported(cfg, setting, results, devices, out.ranked != [],
                    if out.ranked == [] then "" else out.ranked[0].name, pair);
    ReportedIsSafe(cfg.readers, setting, results, out);
    if V.HasSeverity(setting.conflicts, V.High) {
      V.GraveConflictForcesUnknown(out.input);
    }
    if A.ContextOnly(results) && A.SilentOnNothing(cfg.readers) && setting.fingerprint.None? {
      ContextDecidesNothing(cfg, setting, results, out.input, devices);
    }
  }

  lemma CaseFacts(cfg: Config, setting: Setting, bag: A.Bag, devices: seq<G.Device>, scored: bool, leading: string,
                  pair: R.Pair)
    ensures var c := CaseOf(cfg, setting, bag, devices, scored, leading, pair);
            && V.Coherent(c) && c.topScore == pair.firstScore && c.conflicts == setting.conflicts
            && c.direct == A.HasDirect(bag) && c.device == A.HasModel(bag, devices, setting.fingerprint.Some?)
  {
  }

  method Rank(cfg: Config, scores: S.Scores)
    returns (ranked: seq<R.TypeScore>, pair: R.Pair, candidates: seq<R.Candidate>, ghost cats: S.Scores)
    ensures R.IsCategoryScores(cfg.categoryFor, scores, cats) && R.IsTopTwo(cats, pair)
    ensures R.IsCandidates(cfg.categoryFor, scores, candidates)
    ensures exists all :: R.Ranks(all, R.Positives(scores)) && ranked == R.Surviving(cfg.categoryFor, all, all)
  {
    var all := R.RankAll(scores);
    ranked := R.Collapse(cfg.categoryFor, all);
    var byCategory := R.CategoryScores(cfg.categoryFor, scores);
    pair := R.TopTwo(byCategory);
    candidates := R.BuildCandidates(cfg.categoryFor, scores);
    cats := byCategory;
  }

  method Analyze(cfg: Config, setting: Setting, results: seq<A.ProbeResult>) returns (out: Outcome)
    ensures exists devices, cats, pair ::
              Traced(cfg, setting, results, out, devices, cats, pair) && Sound(cfg, setting, results, out)
    ensures exists all :: R.Ranks(all, R.Positives(out.scores)) && out.ranked == R.Surviving(cfg.categoryFor, all, all)
  {
    var bag := A.Aggregate(cfg.readers, results);
    var devices := G.MergeGatewayDevices(bag.devices);
    var scores, audit := ScoreEvidence(cfg, setting, bag);
    var ranked, pair, candidates, cats := Rank(cfg, scores);
    var leading := if ranked == [] then "" else ranked[0].name;
    var input := CaseOf(cfg, setting, bag, devices, ranked != [], leading, pair);
    CaseFacts(cfg, setting, bag, devices, ranked != [], leading, pair);
    var verdict := V.Decide(input);
    out := Outcome(input, verdict, scores, ranked, candidates, audit);
    ExplainedIsSound(cfg, setting, results, out, devices, cats, pair);
  }

  method ScoreEvidence(cfg: Config, setting: Setting, bag: A.Bag) returns (scores: S.Scores, audit: seq<S.Contribution>)
    ensures forall t | t in scores :: 0.0 <= scores[t] <= 1.0
    ensures S.IDsDetermineScores(cfg.rules) ==> forall t | t in scores ::
              scores[t] == S.Clamped(S.Audited(audit, t, S.EVERY_CLASS))
  {
    var board;
    board, audit := S.ScoreAndAudit(SignalsOf(bag), setting.fingerprint, cfg.rules, setting.matches);
    scores := board.Normalize();
    assert forall t | t in scores :: S.Points(board.scores, t) == board.scores[t];
  }

  lemma NothingMerged(out: seq<G.Device>)
    requires KeyedMerge.IsMerge(G.ByAddress(), [], out)
    ensures out == []
  {
  }

  /** Whatever rules match and whatever hints the probes gave: from context alone, with no known model,
      nothing is decided. */
  lemma ContextDecidesNothing(cfg: Config, setting: Setting, results: seq<A.ProbeResult>, input: V.Case,
                              devices: seq<G.Device>)
    requires A.ContextOnly(results) && A.SilentOnNothing(cfg.readers) && setting.fingerprint.None?
    requires KeyedMerge.IsMerge(G.ByAddress(), Evidence(cfg, results).devices, devices)
    requires V.Coherent(input) && input.direct == A.HasDirect(Evidence(cfg, results))
    requires input.device == A.HasModel(Evidence(cfg, results), devices, false)
    ensures !input.direct && !input.device && V.VerdictOf(input).published == "Unknown"
  {
    A.ContextProvesNothing(cfg.readers, results);
    NothingMerged(devices);
    V.TierCaps(input);
  }

  /** A final verdict always rests on a report that proves the medium, or on direct CPE texts. */
  lemma FinalVerdictRestsOnProof(cfg: Config, setting: Setting, results: seq<A.ProbeResult>, out: Outcome)
    requires Sound(cfg, setting, results, out) && out.verdict.safe
    ensures Proven(cfg.readers, results) && !OnlyEthernet(cfg.readers, results)
    ensures out.verdict.confidence >= V.HIGH_CONFIDENCE && out.input.conflicts == []
  {
    V.SafeMeansConfirmed(out.input);
  }

  /** And a proof claimed with 0.85 is enough for one, as sure as the claim up to 0.98, when the leader is named and
      scores 0.35, nothing conflicts and the proof is not of an Ethernet WAN alone. */
  lemma ProofMakesSafe(cfg: Config, setting: Setting, results: seq<A.ProbeResult>, out: Outcome, v: real)
    requires Sound(cfg, setting, results, out) && v >= 0.85 && E.ClaimedBy(cfg.readers, E.Proof, results, v)
    requires out.ranked != [] && !V.Nameless(out.ranked[0].name)
    requires out.candidates != [] && out.candidates[0].score >= 0.35
    requires setting.conflicts == [] && !OnlyEthernet(cfg.readers, results)
    ensures out.verdict.safe && out.verdict.state == V.Confirmed && out.verdict.confidence >= MinReal(v, 0.98)
  {
    assert DirectValue(cfg.readers, results, v);
    V.SafeMeansConfirmed(out.input);
  }

  /** One CPE report flagged as direct with an access confidence of 0.9 is such a claim. */
  lemma DirectCPEExample(readers: A.Readers, c: A.CPEReport)
    requires c.directFlag && c.accessConfidence == 0.9
    ensures E.ClaimedBy(readers, E.Proof, [A.ProbeResult(true, ["VDSL"], A.CPEProbe(c))], 0.9)
  {
    var r := A.ProbeResult(true, ["VDSL"], A.CPEProbe(c));
    assert r in [r] && E.ResultClaims(readers, E.Proof, r.payload, 0.9);
  }
}
