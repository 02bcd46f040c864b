/** What the folded evidence says of the probe results, in terms of what the results report. */
module EvidenceMeaning {
  import opened Sorting
  import opened Text
  import opened GatewayMerge
  import opened Aggregation
  import opened Options
  import opened Numbers

  /** Joining sets one blank between neighbours. */
  lemma {:induction false} JoinedByBlanks(parts: seq<string>, last: string)
    ensures JoinWith([]) == "" && JoinWith([last]) == last
    ensures parts != [] ==> JoinWith(parts + [last]) == JoinWith(parts) + " " + last
  {
    if |parts| == 1 {
      assert (parts + [last])[1..] == [last];
    } else if |parts| > 1 {
      JoinedByBlanks(parts[1..], last);
      assert (parts + [last])[1..] == parts[1..] + [last];
    }
  }

  // ---- what proves the access medium ----

  ghost predicate WrittenAt(text: string, token: string, i: nat) {
    i + |token| <= |text| && text[i..i + |token|] == token
  }

  ghost predicate Writes(text: string, token: string) {
    exists i: nat :: WrittenAt(text, token, i)
  }

  /** Some direct token is written in `text`. */
  ghost predicate WritesToken(text: string) {
    exists token :: token in DIRECT_TOKENS && Writes(text, token)
  }

  lemma ContainsMeans(text: string, token: string)
    ensures Contains(text, token) <==> Writes(text, token)
  {
    if i :| 0 <= i <= |text| && OccursAt(text, token, i) {
      assert WrittenAt(text, token, i);
    }
    if i: nat :| WrittenAt(text, token, i) {
      assert OccursAt(text, token, i);
    }
  }

  lemma NamesDirectMeans(text: string)
    ensures NamesDirect(text) <==> WritesToken(text)
  {
    if k :| 0 <= k < |DIRECT_TOKENS| && Contains(text, DIRECT_TOKENS[k]) {
      Written(text, DIRECT_TOKENS, k);
    }
    if token :| token in DIRECT_TOKENS && Writes(text, token) {
      var k := Seen(text, DIRECT_TOKENS, token);
    }
  }

  lemma Written(text: string, tokens: seq<string>, k: nat)
    requires k < |tokens| && Contains(text, tokens[k])
    ensures tokens[k] in tokens && Writes(text, tokens[k])
  {
    ContainsMeans(text, tokens[k]);
  }

  lemma Seen(text: string, tokens: seq<string>, token: string) returns (k: nat)
    requires token in tokens && Writes(text, token)
    ensures k < |tokens| && Contains(text, tokens[k])
  {
    k :| 0 <= k < |tokens| && tokens[k] == token;
    ContainsMeans(text, token);
  }

  /** A device proves its link by its WAN access type, by a physical hint, or by a token in what it says of its WAN. */
  ghost predicate ProvesLink(d: Device) {
    || (d.wanCommonFound && d.wanAccessType != "")
    || (exists h :: h in d.physicalHints)
    || WritesToken(Lower(JoinWith([d.wanAccessType, d.physicalLinkStatus] + d.tr064Services)))
  }

  lemma DirectDeviceMeans(d: Device)
    ensures DirectDevice(d) <==> ProvesLink(d)
  {
    NamesDirectMeans(Lower(JoinWith([d.wanAccessType, d.physicalLinkStatus] + d.tr064Services)));
    if d.physicalHints != [] {
      assert d.physicalHints[0] in d.physicalHints;
    }
  }

  /** A signal is strong by name, in any letter case, by being physical, or by a confidence of 0.70. */
  predicate Strong(sig: WANSignal) {
    sig.strength == "Physical" || Lower(sig.strength) == "strong" || sig.confidence >= 0.70
  }

  /** An authorized CPE report proves the medium by its own flag, by a WAN access type other than unknown and other,
      by a strong signal, by a line it describes, or by a token in its services and text. */
  ghost predicate ProvesMedium(readers: Readers, c: CPEReport) {
    || c.directFlag
    || (c.wanAccessType != "" && Lower(c.wanAccessType) != "unknown" && Lower(c.wanAccessType) != "other")
    || (exists sig :: sig in c.signals && Strong(sig))
    || readers.parseLine(c.keyValues, c.text).Some?
    || WritesToken(Lower(JoinWith(c.services) + " " + c.text))
  }

  lemma AnyStrongMeans(signals: seq<WANSignal>)
    ensures AnyStrongSignal(signals) <==> exists sig :: sig in signals && Strong(sig)
  {
    if i :| 0 <= i < |signals| && StrongSignal(signals[i]) {
      assert signals[i] in signals && Strong(signals[i]);
    }
    if sig :| sig in signals && Strong(sig) {
      var i :| 0 <= i < |signals| && signals[i] == sig;
      assert StrongSignal(signals[i]);
    }
  }

  lemma DirectCPEMeans(readers: Readers, c: CPEReport)
    ensures DirectCPE(readers, c) <==> ProvesMedium(readers, c)
  {
    AnyStrongMeans(c.signals);
    NamesDirectMeans(Lower(JoinWith(c.services) + " " + c.text));
    assert c.wanAccessType == "" <==> Lower(c.wanAccessType) == "";
  }

  // ---- what a result claims ----

  function DevicesIn(p: Payload): seq<Device> {
    if p.GatewayChainProbe? || p.HTTPFingerprint? then p.devices else []
  }

  /** The confidences that count: for physical proof, for knowing a device, for a view of the network, for a
      performance profile. */
  datatype Matter = Proof | Acquaintance | NetworkView | Performance

  /** A device proves with its access confidence what its link is; unproven it counts as knowing the device, which the
      device confidence always does. */
  ghost predicate DeviceClaims(m: Matter, d: Device, v: real) {
    match m
    case Proof => ProvesLink(d) && v == d.accessConfidence
    case Acquaintance => v == d.deviceConfidence || (!ProvesLink(d) && v == d.accessConfidence)
    case _ => false
  }

  /** So does a CPE report; a cellular interface and link discovery prove by themselves. */
  ghost predicate ResultClaims(readers: Readers, m: Matter, p: Payload, v: real) {
    match m
    case Proof =>
      || (p.CPEProbe? && ProvesMedium(readers, p.cpe) && v == p.cpe.accessConfidence)
      || (p.OSInterfaceProbe? && p.present && p.cellular && v == p.accessConfidence)
      || (p.LinkDiscoveryProbe? && v == p.accessConfidence)
    case Acquaintance =>
      || (p.CPEProbe? && v == p.cpe.deviceConfidence)
      || (p.CPEProbe? && !ProvesMedium(readers, p.cpe) && v == p.cpe.accessConfidence)
      || (p.OSInterfaceProbe? && p.present && v == p.deviceConfidence)
    case NetworkView =>
      || (p.IPv6Probe? && p.present && v == p.networkConfidence)
      || (p.StunProbe? && p.natPresent && v == p.networkConfidence)
      || ((p.LinkDiscoveryProbe? || p.ReachabilityProbe?) && v == p.networkConfidence)
    case Performance => p.PerformanceProbe? && p.present && v == p.performanceConfidence
  }

  ghost predicate Claims(readers: Readers, m: Matter, p: Payload, v: real) {
    ResultClaims(readers, m, p, v) || exists d :: d in DevicesIn(p) && DeviceClaims(m, d, v)
  }

  ghost predicate ClaimedBy(readers: Readers, m: Matter, results: seq<ProbeResult>, v: real) {
    exists r :: r in results && r.success && Claims(readers, m, r.payload, v)
  }

  /** `best` is the highest confidence the successful results claim, zero when none is above it. */
  ghost predicate IsBest(readers: Readers, m: Matter, results: seq<ProbeResult>, best: real) {
    && best >= 0.0 && (forall v | ClaimedBy(readers, m, results, v) :: v <= best)
    && (best == 0.0 || ClaimedBy(readers, m, results, best))
  }

  ghost predicate BestOfDevices(m: Matter, devices: seq<Device>, best: real) {
    && best >= 0.0 && (forall d, v | d in devices && DeviceClaims(m, d, v) :: v <= best)
    && (best == 0.0 || exists d :: d in devices && DeviceClaims(m, d, best))
  }

  ghost predicate BestOfResult(readers: Readers, m: Matter, p: Payload, best: real) {
    && best >= 0.0 && (forall v | Claims(readers, m, p, v) :: v <= best)
    && (best == 0.0 || Claims(readers, m, p, best))
  }

  lemma LastDevice(devices: seq<Device>)
    requires devices != []
    ensures forall d :: d in devices <==> d in devices[..|devices| - 1] || d == devices[|devices| - 1]
  {
    assert devices == devices[..|devices| - 1] + [devices[|devices| - 1]];
  }

  lemma {:induction false} DevicesPhysicalMeans(devices: seq<Device>)
    ensures BestOfDevices(Proof, devices, DevicesPhysical(devices))
  {
    if devices != [] {
      var last := devices[|devices| - 1];
      DevicesPhysicalMeans(devices[..|devices| - 1]);
      DirectDeviceMeans(last);
      LastDevice(devices);
      assert ProvesLink(last) ==> DeviceClaims(Proof, last, last.accessConfidence);
    }
  }

  lemma {:induction false} DevicesKnownMeans(devices: seq<Device>)
    ensures BestOfDevices(Acquaintance, devices, DevicesKnown(devices))
  {
    if devices != [] {
      var last := devices[|devices| - 1];
      DevicesKnownMeans(devices[..|devices| - 1]);
      DirectDeviceMeans(last);
      LastDevice(devices);
      assert DeviceClaims(Acquaintance, last, last.deviceConfidence);
      assert !ProvesLink(last) ==> DeviceClaims(Acquaintance, last, last.accessConfidence);
    }
  }

  /** The strongest claim of one result on a matter, as the fold takes it up. */
  function Measure(readers: Readers, m: Matter, p: Payload): real {
    match m
    case Proof => Physical(readers, p)
    case Acquaintance => KnownDevice(readers, p)
    case NetworkView => Positive(NetworkConfidence(p))
    case Performance => if p.PerformanceProbe? && p.present then Positive(p.performanceConfidence) else 0.0
  }

  lemma ListMeasure(readers: Readers, m: Matter, p: Payload)
    requires p.GatewayChainProbe? || p.HTTPFingerprint?
    ensures BestOfDevices(m, p.devices, Measure(readers, m, p))
  {
    match m
    case Proof => DevicesPhysicalMeans(p.devices);
    case Acquaintance => DevicesKnownMeans(p.devices);
    case _ =>
  }

  lemma ListClaims(readers: Readers, m: Matter, p: Payload, v: real)
    requires p.GatewayChainProbe? || p.HTTPFingerprint?
    ensures Claims(readers, m, p, v) <==> exists d :: d in p.devices && DeviceClaims(m, d, v)
  {
  }

  lemma ListBest(readers: Readers, m: Matter, p: Payload, best: real)
    requires p.GatewayChainProbe? || p.HTTPFingerprint?
    requires BestOfDevices(m, p.devices, best)
    ensures BestOfResult(readers, m, p, best)
  {
    forall v | Claims(readers, m, p, v) ensures v <= best {
      ListClaims(readers, m, p, v);
    }
    ListClaims(readers, m, p, best);
  }

  lemma MeasureMeans(readers: Readers, m: Matter, p: Payload)
    ensures BestOfResult(readers, m, p, Measure(readers, m, p))
  {
    if p.GatewayChainProbe? || p.HTTPFingerprint? {
      ListMeasure(readers, m, p);
      ListBest(readers, m, p, Measure(readers, m, p));
    } else {
      if p.CPEProbe? {
        DirectCPEMeans(readers, p.cpe);
      }
      var best := Measure(readers, m, p);
      forall v | Claims(readers, m, p, v) ensures v <= best {
        assert ResultClaims(readers, m, p, v);
      }
      if best != 0.0 {
        assert ResultClaims(readers, m, p, best);
      }
    }
  }

  // ---- what all results together claim ----

  /** The place in the bag where the best claim on a matter is kept. */
  function Kept(m: Matter, bag: Bag): real {
    match m
    case Proof => bag.physical
    case Acquaintance => bag.deviceEvidence
    case NetworkView => bag.network
    case Performance => bag.performance
  }

  lemma LastResult(results: seq<ProbeResult>)
    requires results != []
    ensures forall r :: r in results <==> r in results[..|results| - 1] || r == results[|results| - 1]
  {
    assert results == results[..|results| - 1] + [results[|results| - 1]];
  }

  lemma AbsorbedMeasure(readers: Readers, m: Matter, bag: Bag, r: ProbeResult)
    requires Kept(m, bag) >= 0.0
    ensures Kept(m, Absorbed(readers, bag, r)) == MaxReal(Kept(m, bag), Measure(readers, m, r.payload))
  {
    match m
    case Performance => DescribedPerformance(readers, bag, r.payload);
    case _ =>
  }

  lemma DescribedPerformance(readers: Readers, bag: Bag, p: Payload)
    requires bag.performance >= 0.0
    ensures Described(readers, bag, p).performance == MaxReal(bag.performance, Measure(readers, Performance, p))
  {
    match p
    case PerformanceProbe(_, _) =>
    case _ =>
  }

  lemma ClaimedNext(readers: Readers, m: Matter, init: seq<ProbeResult>, last: ProbeResult,
                    results: seq<ProbeResult>, v: real)
    requires results != [] && init == results[..|results| - 1] && last == results[|results| - 1]
    ensures ClaimedBy(readers, m, results, v) <==>
            ClaimedBy(readers, m, init, v) || (last.success && Claims(readers, m, last.payload, v))
  {
    LastResult(results);
  }

  lemma BestNext(readers: Readers, m: Matter, results: seq<ProbeResult>, before: real, last: ProbeResult)
    requires results != [] && last == results[|results| - 1] && IsBest(readers, m, results[..|results| - 1], before)
    ensures IsBest(readers, m, results,
                   if last.success then MaxReal(before, Measure(readers, m, last.payload)) else before)
  {
    var init := results[..|results| - 1];
    var best := if last.success then MaxReal(before, Measure(readers, m, last.payload)) else before;
    MeasureMeans(readers, m, last.payload);
    forall v | ClaimedBy(readers, m, results, v) ensures v <= best {
      ClaimedNext(readers, m, init, last, results, v);
    }
    ClaimedNext(readers, m, init, last, results, best);
  }

  /** On every matter the fold keeps the best claim of the successful results. */
  lemma {:induction false} KeepsTheBest(readers: Readers, m: Matter, results: seq<ProbeResult>)
    ensures IsBest(readers, m, results, Kept(m, Folded(readers, results)))
  {
    if results != [] {
      var init, last := results[..|results| - 1], results[|results| - 1];
      var bag := Folded(readers, init);
      KeepsTheBest(readers, m, init);
      BestNext(readers, m, results, Kept(m, bag), last);
      if last.success {
        AbsorbedMeasure(readers, m, bag, last);
      }
    }
  }

  // ---- hints and signals ----

  /** A hint that proves: one of a device that proves its link with some confidence, or any of a CPE or link result that
      proves the medium. */
  ghost predicate ProvesByHint(readers: Readers, r: ProbeResult, h: string) {
    || (exists d :: d in DevicesIn(r.payload) && ProvesLink(d) && d.accessConfidence > 0.0
                    && h in (if d.physicalHints != [] then d.physicalHints else d.accessHints))
    || (r.payload.CPEProbe? && ProvesMedium(readers, r.payload.cpe) && h in r.hints
        && (r.payload.cpe.strongFlag || r.payload.cpe.accessConfidence > 0.0))
    || (r.payload.LinkDiscoveryProbe? && h in r.hints && (r.payload.strongFlag || r.payload.accessConfidence > 0.0))
  }

  ghost predicate HintProves(readers: Readers, results: seq<ProbeResult>, h: string) {
    exists r :: r in results && r.success && ProvesByHint(readers, r, h)
  }

  ghost predicate Hinted(results: seq<ProbeResult>, h: string) {
    exists r :: r in results && r.success && h in r.hints
  }

  ghost predicate Signalled(results: seq<ProbeResult>, sig: WANSignal) {
    exists r :: r in results && r.success && r.payload.CPEProbe? && sig in r.payload.cpe.signals
  }

  lemma {:induction false} DevicesHintsMean(devices: seq<Device>, h: string)
    ensures h in DevicesHints(devices) <==>
            exists d :: d in devices && ProvesLink(d) && d.accessConfidence > 0.0
                        && h in (if d.physicalHints != [] then d.physicalHints else d.accessHints)
  {
    if devices != [] {
      DevicesHintsMean(devices[..|devices| - 1], h);
      DirectDeviceMeans(devices[|devices| - 1]);
      LastDevice(devices);
    }
  }

  lemma StrongHintsMean(readers: Readers, r: ProbeResult, h: string)
    ensures h in StrongHints(readers, r) <==> ProvesByHint(readers, r, h)
  {
    if r.payload.GatewayChainProbe? || r.payload.HTTPFingerprint? {
      DevicesHintsMean(r.payload.devices, h);
    } else if r.payload.CPEProbe? {
      DirectCPEMeans(readers, r.payload.cpe);
    }
  }

  lemma AbsorbedLists(readers: Readers, bag: Bag, r: ProbeResult, h: string, sig: WANSignal)
    ensures var next := Absorbed(readers, bag, r);
            && (h in next.hints <==> h in bag.hints || (h != "" && h in r.hints))
            && (h in next.strongHints <==> h in bag.strongHints || (h != "" && h in StrongHints(readers, r)))
            && (sig in next.signals <==> sig in bag.signals || sig in Signals(r.payload))
  {
    AppendUniqueElements(bag.hints, r.hints, "");
    AppendUniqueElements(bag.strongHints, StrongHints(readers, r), "");
  }

  /** Hints, proving hints and signals of the fold are those of the successful results, nothing lost and nothing added
      but blanks dropped. */
  lemma {:induction false} KeepsHintsAndSignals(readers: Readers, results: seq<ProbeResult>, h: string,
                                                sig: WANSignal)
    ensures var bag := Folded(readers, results);
            && (h in bag.hints <==> h != "" && Hinted(results, h))
            && (h in bag.strongHints <==> h != "" && HintProves(readers, results, h))
            && (sig in bag.signals <==> Signalled(results, sig))
  {
    if results != [] {
      var init, last := results[..|results| - 1], results[|results| - 1];
      KeepsHintsAndSignals(readers, init, h, sig);
      HintsNext(readers, init, last, results, h, sig);
      if last.success {
        AbsorbedLists(readers, Folded(readers, init), last, h, sig);
        StrongHintsMean(readers, last, h);
      }
    }
  }

  lemma HintsNext(readers: Readers, init: seq<ProbeResult>, last: ProbeResult, results: seq<ProbeResult>, h: string,
                  sig: WANSignal)
    requires results != [] && init == results[..|results| - 1] && last == results[|results| - 1]
    ensures Hinted(results, h) <==> Hinted(init, h) || (last.success && h in last.hints)
    ensures HintProves(readers, results, h) <==>
            HintProves(readers, init, h) || (last.success && ProvesByHint(readers, last, h))
    ensures Signalled(results, sig) <==>
            Signalled(init, sig) || (last.success && last.payload.CPEProbe? && sig in last.payload.cpe.signals)
  {
    LastResult(results);
  }

  // ---- independent sources ----

  /** What makes a result an independent source even without a hint. */
  ghost predicate SaysSomething(readers: Readers, p: Payload) {
    || (p.UPnPProbe? && p.routerModel != "")
    || (p.ASNProbe? && (p.ptr != "" || p.org != ""))
    || (p.TracerouteProbe? && p.doubleNAT)
    || (p.GatewayChainProbe? && (p.chainPresent || p.devices != []))
    || (p.HTTPFingerprint? && p.devices != [])
    || (p.CPEProbe? && (Trim(p.cpe.identity) != "" || p.cpe.signals != [] || p.cpe.keyValues != map[]
                        || (ProvesMedium(readers, p.cpe) && (p.cpe.strongFlag || p.cpe.accessConfidence > 0.0))))
    || ((p.IPv6Probe? || p.OSInterfaceProbe? || p.PerformanceProbe?) && p.present)
    || (p.StunProbe? && p.natPresent)
    || (p.LinkDiscoveryProbe? && p.networkConfidence > 0.0)
    || (p.ReachabilityProbe? && p.routePresent)
  }

  ghost predicate Independent(readers: Readers, r: ProbeResult) {
    r.success && (r.hints != [] || SaysSomething(readers, r.payload))
  }

  lemma ContributesMeans(readers: Readers, r: ProbeResult)
    ensures r.success && Contributes(readers, r) <==> Independent(readers, r)
  {
    if r.payload.CPEProbe? {
      DirectCPEMeans(readers, r.payload.cpe);
    }
  }

  /** The number of sources is the number of results that are one. */
  lemma {:induction false} CountsSources(readers: Readers, results: seq<ProbeResult>)
    ensures Folded(readers, results).sources == |set i | 0 <= i < |results| && Independent(readers, results[i])|
  {
    if results != [] {
      var n := |results| - 1;
      var init := results[..n];
      CountsSources(readers, init);
      ContributesMeans(readers, results[n]);
      var before := set i | 0 <= i < |init| && Independent(readers, init[i]);
      var all := set i | 0 <= i < |results| && Independent(readers, results[i]);
      assert forall i | 0 <= i < n :: init[i] == results[i];
      assert all == if Independent(readers, results[n]) then before + {n} else before;
    }
  }

  ghost predicate Profiled(results: seq<ProbeResult>) {
    exists r :: r in results && r.success && r.payload.PerformanceProbe? && r.payload.present
  }

  lemma DescribedProfile(readers: Readers, bag: Bag, p: Payload)
    ensures Described(readers, bag, p).hasPerformanceProfile <==>
            bag.hasPerformanceProfile || (p.PerformanceProbe? && p.present)
  {
    match p
    case PerformanceProbe(_, _) =>
    case _ =>
  }

  lemma {:induction false} ProfileReported(readers: Readers, results: seq<ProbeResult>)
    ensures Folded(readers, results).hasPerformanceProfile <==> Profiled(results)
  {
    if results != [] {
      var init, last := results[..|results| - 1], results[|results| - 1];
      ProfileReported(readers, init);
      LastResult(results);
      if last.success {
        var d := Described(readers, Folded(readers, init), last.payload);
        DescribedProfile(readers, Folded(readers, init), last.payload);
        assert Absorbed(readers, Folded(readers, init), last).hasPerformanceProfile == d.hasPerformanceProfile;
      }
    }
  }

  lemma PerformanceIsProfiled(readers: Readers, results: seq<ProbeResult>, v: real)
    requires ClaimedBy(readers, Performance, results, v)
    ensures Profiled(results)
  {
    var r :| r in results && r.success && Claims(readers, Performance, r.payload, v);
    assert ResultClaims(readers, Performance, r.payload, v);
  }

  // ---- what the last result decides ----

  /** The parts of the evidence of which only the last report counts. */
  datatype Fact = Route | Registration | Delay | Model

  ghost predicate Settles(f: Fact, r: ProbeResult) {
    r.success && match f
                 case Route => r.payload.GatewayProbe?
                 case Registration => r.payload.ASNProbe?
                 case Delay => r.payload.LatencyProbe?
                 case Model => (r.payload.UPnPProbe? && r.payload.routerModel != "")
                               || (r.payload.CPEProbe? && Trim(r.payload.cpe.identity) != "")
  }

  ghost predicate Agree(f: Fact, a: Bag, b: Bag) {
    match f
    case Route => a.gateway == b.gateway
    case Registration => a.ptr == b.ptr && a.org == b.org
    case Delay => a.avgMS == b.avgMS && a.hasLatency == b.hasLatency
    case Model => a.routerModel == b.routerModel
  }

  lemma DescribedUnsettled(readers: Readers, f: Fact, bag: Bag, r: ProbeResult)
    requires r.success && !Settles(f, r)
    ensures Agree(f, Described(readers, bag, r.payload), bag)
  {
    match r.payload
    case UPnPProbe(_, _) =>
    case CPEProbe(_) =>
    case _ =>
  }

  lemma AbsorbedAgrees(readers: Readers, f: Fact, bag: Bag, r: ProbeResult)
    ensures Agree(f, Absorbed(readers, bag, r), Described(readers, bag, r.payload))
  {
    var d := Described(readers, bag, r.payload);
    assert Absorbed(readers, bag, r).gateway == d.gateway;
  }

  lemma Unsettled(readers: Readers, f: Fact, bag: Bag, r: ProbeResult)
    requires r.success && !Settles(f, r)
    ensures Agree(f, Absorbed(readers, bag, r), bag)
  {
    DescribedUnsettled(readers, f, bag, r);
    AbsorbedAgrees(readers, f, bag, r);
  }

  lemma {:induction false} LaterLeave(readers: Readers, f: Fact, before: seq<ProbeResult>, after: seq<ProbeResult>)
    requires forall r | r in after :: !Settles(f, r)
    ensures Agree(f, Folded(readers, before + after), Folded(readers, before))
  {
    if after == [] {
      assert before + after == before;
    } else {
      var init, last := after[..|after| - 1], after[|after| - 1];
      assert last in after && forall r | r in init :: r in after;
      LaterLeave(readers, f, before, init);
      assert (before + after)[..|before + after| - 1] == before + init;
      if last.success {
        Unsettled(readers, f, Folded(readers, before + init), last);
      }
    }
  }

  lemma SettledBy(readers: Readers, bag: Bag, r: ProbeResult)
    ensures var next := Absorbed(readers, bag, r);
            match r.payload
            case GatewayProbe(gateway) => next.gateway == gateway
            case ASNProbe(ptr, org) => next.ptr == ptr && next.org == org
            case LatencyProbe(avg) => next.avgMS == avg && (next.hasLatency <==> avg > 0.0)
            case UPnPProbe(_, model) => model != "" ==> next.routerModel == readers.normalizeModel(model)
            case CPEProbe(c) => Trim(c.identity) != "" ==> next.routerModel == readers.normalizeModel(Trim(c.identity))
            case _ => true
  {
  }

  /** Gateway, registration, latency and model are those of the last successful result that reports them. */
  lemma LastReportCounts(readers: Readers, f: Fact, before: seq<ProbeResult>, r: ProbeResult, after: seq<ProbeResult>)
    requires Settles(f, r) && forall later | later in after :: !Settles(f, later)
    ensures var bag := Folded(readers, before + [r] + after);
            match f
            case Route => bag.gateway == r.payload.gateway
            case Registration => bag.ptr == r.payload.ptr && bag.org == r.payload.org
            case Delay => bag.avgMS == r.payload.avgMS && (bag.hasLatency <==> r.payload.avgMS > 0.0)
            case Model =>
              bag.routerModel == readers.normalizeModel(if r.payload.UPnPProbe? then r.payload.routerModel
                                                        else Trim(r.payload.cpe.identity))
  {
    LaterLeave(readers, f, before + [r], after);
    assert (before + [r])[..|before|] == before;
    SettledBy(readers, Folded(readers, before), r);
  }

  // ---- what the texts of all results say together ----

  /** A text no trimming can cut into. */
  predicate Solid(token: string) {
    token != "" && !IsSpace(token[0]) && !IsSpace(token[|token| - 1])
  }

  lemma WrittenInPart(before: string, text: string, after: string, token: string)
    requires Writes(text, token)
    ensures Writes(before + text + after, token)
  {
    var i: nat :| WrittenAt(text, token, i);
    assert (before + text + after)[|before|..|before| + |text|] == text;
    assert (before + text + after)[|before| + i..|before| + i + |token|] == text[i..i + |token|];
    assert WrittenAt(before + text + after, token, |before| + i);
  }

  lemma SliceOfSlice(s: string, i: nat, j: nat, p: nat, n: nat)
    requires i <= p && p + n <= j <= |s|
    ensures s[i..j][p - i..p - i + n] == s[p..p + n]
  {
    var a, b := s[i..j][p - i..p - i + n], s[p..p + n];
    forall k | 0 <= k < |a| ensures a[k] == b[k] {
      assert a[k] == s[i..j][p - i + k] == s[p + k];
    }
  }

  lemma WrittenTrimmed(text: string, token: string)
    requires Writes(text, token) && Solid(token)
    ensures Writes(Trim(text), token)
  {
    var p: nat :| WrittenAt(text, token, p);
    var i, j := TrimCuts(text);
    assert text[p] == token[0] && text[p + |token| - 1] == token[|token| - 1];
    assert i <= p && p + |token| <= j;
    SliceOfSlice(text, i, j, p, |token|);
    assert WrittenAt(Trim(text), token, p - i);
  }

  /** The signals of a successful CPE result, rendered, write the token. */
  ghost predicate SignalsWrite(readers: Readers, results: seq<ProbeResult>, token: string) {
    exists r :: r in results && r.success && r.payload.CPEProbe? && r.payload.cpe.signals != []
                && Writes(readers.renderSignals(r.payload.cpe.signals), token)
  }

  /** The text of the signals after one more result. */
  function SignalTextAfter(readers: Readers, text: string, p: Payload): string {
    if p.CPEProbe? && p.cpe.signals != [] then Trim(text + " " + readers.renderSignals(p.cpe.signals)) else text
  }

  lemma DescribedSignalText(readers: Readers, bag: Bag, p: Payload)
    ensures Described(readers, bag, p).signalText == SignalTextAfter(readers, bag.signalText, p)
  {
    match p
    case CPEProbe(_) =>
    case _ =>
  }

  lemma AbsorbedSignalText(readers: Readers, bag: Bag, r: ProbeResult)
    ensures Absorbed(readers, bag, r).signalText == SignalTextAfter(readers, bag.signalText, r.payload)
  {
    DescribedSignalText(readers, bag, r.payload);
    var d := Described(readers, bag, r.payload);
    assert Absorbed(readers, bag, r).signalText == d.signalText;
  }

  lemma WrittenInEither(known: string, more: string, token: string)
    requires Solid(token) && (Writes(known, token) || Writes(more, token))
    ensures Writes(Trim(known + " " + more), token)
  {
    if Writes(known, token) {
      WrittenInPart("", known, " " + more, token);
      assert "" + known + (" " + more) == known + " " + more;
    } else {
      WrittenInPart(known + " ", more, "", token);
      assert (known + " ") + more + "" == known + " " + more;
    }
    WrittenTrimmed(known + " " + more, token);
  }

  lemma {:induction false} SignalTextsKept(readers: Readers, results: seq<ProbeResult>, token: string)
    requires Solid(token) && SignalsWrite(readers, results, token)
    ensures Writes(Folded(readers, results).signalText, token)
  {
    var init, last := results[..|results| - 1], results[|results| - 1];
    LastResult(results);
    if SignalsWrite(readers, init, token) {
      SignalTextsKept(readers, init, token);
    }
    if last.success {
      var known := Folded(readers, init).signalText;
      AbsorbedSignalText(readers, Folded(readers, init), last);
      if last.payload.CPEProbe? && last.payload.cpe.signals != [] {
        WrittenInEither(known, readers.renderSignals(last.payload.cpe.signals), token);
      }
    }
  }

  /** So is a direct token in the rendered signals of any of them. */
  lemma DirectSignalsCount(readers: Readers, results: seq<ProbeResult>, token: string)
    requires Solid(token) && SignalsWrite(readers, results, token) && Lower(token) in DIRECT_TOKENS
    ensures TextsAreDirect(readers, Folded(readers, results))
  {
    var bag := Folded(readers, results);
    SignalTextsKept(readers, results, token);
    WrittenInEither(bag.signalText, bag.cpeText, token);
    WrittenLower(Trim(bag.signalText + " " + bag.cpeText), token);
    NamesDirectMeans(WANText(bag));
  }

  /** A successful CPE result writes the token in its text. */
  ghost predicate TextWritten(results: seq<ProbeResult>, token: string) {
    exists r :: r in results && r.success && r.payload.CPEProbe? && Writes(r.payload.cpe.text, token)
  }

  /** The text and the key-value pairs after one more result. */
  function TextAfter(text: string, p: Payload): string {
    if p.CPEProbe? && p.cpe.text != "" then Trim(text + " " + p.cpe.text) else text
  }

  function ValuesAfter(kv: map<string, string>, p: Payload): map<string, string> {
    if p.CPEProbe? then Overlay(kv, p.cpe.keyValues) else kv
  }

  lemma DescribedText(readers: Readers, bag: Bag, p: Payload)
    ensures Described(readers, bag, p).cpeText == TextAfter(bag.cpeText, p)
  {
    match p
    case CPEProbe(_) =>
    case _ =>
  }

  lemma DescribedValues(readers: Readers, bag: Bag, p: Payload)
    ensures Described(readers, bag, p).keyValues == ValuesAfter(bag.keyValues, p)
  {
    match p
    case CPEProbe(_) =>
    case _ =>
  }

  lemma AbsorbedText(readers: Readers, bag: Bag, r: ProbeResult)
    ensures Absorbed(readers, bag, r).cpeText == TextAfter(bag.cpeText, r.payload)
  {
    DescribedText(readers, bag, r.payload);
    var d := Described(readers, bag, r.payload);
    assert Absorbed(readers, bag, r).cpeText == d.cpeText;
  }

  lemma AbsorbedValues(readers: Readers, bag: Bag, r: ProbeResult)
    ensures Absorbed(readers, bag, r).keyValues == ValuesAfter(bag.keyValues, r.payload)
  {
    DescribedValues(readers, bag, r.payload);
    var d := Described(readers, bag, r.payload);
    assert Absorbed(readers, bag, r).keyValues == d.keyValues;
  }

  lemma TextAppended(known: string, p: Payload, token: string)
    requires Solid(token) && (Writes(known, token) || (p.CPEProbe? && Writes(p.cpe.text, token)))
    ensures Writes(TextAfter(known, p), token)
  {
    if p.CPEProbe? && p.cpe.text != "" {
      WrittenInEither(known, p.cpe.text, token);
    }
  }

  lemma {:induction false} TextsKept(readers: Readers, results: seq<ProbeResult>, token: string)
    requires Solid(token) && TextWritten(results, token)
    ensures Writes(Folded(readers, results).cpeText, token)
  {
    var init, last := results[..|results| - 1], results[|results| - 1];
    LastResult(results);
    if TextWritten(init, token) {
      TextsKept(readers, init, token);
    }
    if last.success {
      AbsorbedText(readers, Folded(readers, init), last);
      TextAppended(Folded(readers, init).cpeText, last.payload, token);
    }
  }

  lemma WrittenLower(text: string, token: string)
    requires Writes(text, token)
    ensures Writes(Lower(text), Lower(token))
  {
    var i: nat :| WrittenAt(text, token, i);
    assert forall k | 0 <= k < |token| :: token[k] == text[i + k];
    assert Lower(text)[i..i + |token|] == Lower(token);
    assert WrittenAt(Lower(text), Lower(token), i);
  }

  /** A direct token in the text of any successful CPE result is direct evidence, in whatever letter case it is written
      and whatever else the result reports. */
  lemma DirectTextCounts(readers: Readers, results: seq<ProbeResult>, token: string)
    requires Solid(token) && TextWritten(results, token) && Lower(token) in DIRECT_TOKENS
    ensures TextsAreDirect(readers, Folded(readers, results))
    ensures HasDirect(WithLine(readers, Folded(readers, results)))
  {
    var bag := Folded(readers, results);
    TextsKept(readers, results, token);
    WrittenInEither(bag.signalText, bag.cpeText, token);
    WrittenLower(Trim(bag.signalText + " " + bag.cpeText), token);
    NamesDirectMeans(WANText(bag));
    assert WANText(WithLine(readers, bag)) == WANText(bag);
  }

  // ---- key-value reports ----

  /** The result reports `k`, with something other than blanks. */
  ghost predicate Reports(r: ProbeResult, k: string) {
    r.success && r.payload.CPEProbe? && k in r.payload.cpe.keyValues
  }

  ghost predicate ReportsSolid(r: ProbeResult, k: string) {
    Reports(r, k) && Trim(r.payload.cpe.keyValues[k]) != ""
  }

  lemma ValueNext(before: map<string, string>, r: ProbeResult, k: string)
    requires r.success
    ensures var kv := ValuesAfter(before, r.payload);
            && (k in kv <==> k in before || Reports(r, k))
            && (ReportsSolid(r, k) ==> kv[k] == r.payload.cpe.keyValues[k])
            && (k in before && !ReportsSolid(r, k) ==> kv[k] == before[k])
  {
  }

  /** The value of `k` the fold holds. */
  function ValueOf(readers: Readers, results: seq<ProbeResult>, k: string): Option<string> {
    var kv := Folded(readers, results).keyValues;
    if k in kv then Some(kv[k]) else None
  }

  lemma ValueAfter(readers: Readers, results: seq<ProbeResult>, k: string)
    requires results != []
    ensures var last := results[|results| - 1];
            var before := ValueOf(readers, results[..|results| - 1], k);
            ValueOf(readers, results, k) == if ReportsSolid(last, k) || (before.None? && Reports(last, k))
                                            then Some(last.payload.cpe.keyValues[k]) else before
  {
    var last, bag := results[|results| - 1], Folded(readers, results[..|results| - 1]);
    if last.success {
      AbsorbedValues(readers, bag, last);
      ValueNext(bag.keyValues, last, k);
    }
  }

  lemma {:induction false} LaterLeaveValue(readers: Readers, before: seq<ProbeResult>, after: seq<ProbeResult>,
                                           k: string)
    requires ValueOf(readers, before, k).Some? && forall r | r in after :: !ReportsSolid(r, k)
    ensures ValueOf(readers, before + after, k) == ValueOf(readers, before, k)
  {
    if after == [] {
      assert before + after == before;
    } else {
      var init, last := after[..|after| - 1], after[|after| - 1];
      assert last in after && forall r | r in init :: r in after;
      LaterLeaveValue(readers, before, init, k);
      assert (before + after)[..|before + after| - 1] == before + init;
      ValueAfter(readers, before + after, k);
    }
  }

  /** Of every key the last value counts that is not blank. */
  lemma LastValueCounts(readers: Readers, before: seq<ProbeResult>, r: ProbeResult, after: seq<ProbeResult>, k: string)
    requires ReportsSolid(r, k) && forall later | later in after :: !ReportsSolid(later, k)
    ensures ValueOf(readers, before + [r] + after, k) == Some(r.payload.cpe.keyValues[k])
  {
    assert (before + [r])[..|before|] == before;
    ValueAfter(readers, before + [r], k);
    LaterLeaveValue(readers, before + [r], after, k);
  }

  // ---- direct evidence ----

  /** There is direct evidence exactly when a successful result claims proof with some confidence, gives a proving
      hint or reports a strong signal, or the CPE texts together are direct. */
  lemma DirectMeans(readers: Readers, results: seq<ProbeResult>)
    ensures HasDirect(WithLine(readers, Folded(readers, results))) <==>
            || (exists v :: v > 0.0 && ClaimedBy(readers, Proof, results, v))
            || (exists h :: h != "" && HintProves(readers, results, h))
            || (exists sig :: Signalled(results, sig) && Strong(sig))
            || TextsAreDirect(readers, Folded(readers, results))
  {
    var bag := Folded(readers, results);
    FoldedNonNegative(readers, results);
    LineAdds(readers, bag);
    KeepsTheBest(readers, Proof, results);
    assert Kept(Proof, bag) == bag.physical;
    HintGiven(readers, results);
    SignalGiven(readers, results);
  }

  lemma HintGiven(readers: Readers, results: seq<ProbeResult>)
    ensures Folded(readers, results).strongHints != [] <==> exists h :: h != "" && HintProves(readers, results, h)
  {
    var hints := Folded(readers, results).strongHints;
    var any := WANSignal("", "", "", 0.0);
    if hints != [] {
      KeepsHintsAndSignals(readers, results, hints[0], any);
    }
    if h :| h != "" && HintProves(readers, results, h) {
      KeepsHintsAndSignals(readers, results, h, any);
    }
  }

  lemma SignalGiven(readers: Readers, results: seq<ProbeResult>)
    ensures AnyStrongSignal(Folded(readers, results).signals) <==>
            exists sig :: Signalled(results, sig) && Strong(sig)
  {
    var signals := Folded(readers, results).signals;
    AnyStrongMeans(signals);
    forall sig ensures sig in signals <==> Signalled(results, sig) {
      KeepsHintsAndSignals(readers, results, "", sig);
    }
  }
}
