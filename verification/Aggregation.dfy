/** Folding probe results into the evidence the verdict is reached from. */
module Aggregation {
  import opened Sorting
  import opened Text
  import opened GatewayMerge
  import opened Options
  import opened Numbers

  datatype WANSignal = WANSignal(value: string, detail: string, strength: string, confidence: real)

  datatype LineProfile = LineProfile(confidence: real, accessHints: seq<string>)

  /** What an authorized CPE probe (UPnP IGD, TR-064, SNMP, TR-181) reports. */
  datatype CPEReport = CPEReport(
    igdFound: bool, identity: string, deviceConfidence: real, accessConfidence: real,
    directFlag: bool, strongFlag: bool, wanAccessType: string, signals: seq<WANSignal>,
    keyValues: map<string, string>, text: string, services: seq<string>)

  datatype Payload =
    | UPnPProbe(found: bool, routerModel: string)
    | AdapterProbe
    | PublicIPProbe
    | ASNProbe(ptr: string, org: string)
    | LatencyProbe(avgMS: real)
    | GatewayProbe(gateway: string)
    | TracerouteProbe(doubleNAT: bool)
    | GatewayChainProbe(chainPresent: bool, devices: seq<Device>)
    | CPEProbe(cpe: CPEReport)
    | HTTPFingerprint(devices: seq<Device>)
    | IPv6Probe(present: bool, networkConfidence: real)
    | StunProbe(natPresent: bool, networkConfidence: real)
    | OSInterfaceProbe(present: bool, deviceConfidence: real, cellular: bool, accessConfidence: real)
    | LinkDiscoveryProbe(networkConfidence: real, strongFlag: bool, accessConfidence: real)
    | PerformanceProbe(present: bool, performanceConfidence: real)
    | ReachabilityProbe(networkConfidence: real, routePresent: bool)
    | OtherProbe

  datatype ProbeResult = ProbeResult(success: bool, hints: seq<string>, payload: Payload)

  datatype Bag = Bag(
    routerModel: string, hints: seq<string>, strongHints: seq<string>, sources: nat,
    upnpFound: bool, ptr: string, org: string, avgMS: real, hasLatency: bool, gateway: string,
    devices: seq<Device>, signals: seq<WANSignal>, signalText: string, cpeText: string, keyValues: map<string, string>,
    lineProfile: Option<LineProfile>,
    physical: real, deviceEvidence: real, network: real, performance: real, hasPerformanceProfile: bool)

  const EMPTY := Bag("", [], [], 0, false, "", "", 0.0, false, "", [], [], "", "", map[], None, 0.0, 0.0, 0.0, 0.0,
                     false)

  /** Readers the fold relies on without looking inside: the line-statistics parser, the rendering of signals,
      the normalization of a model name, and the type a signal points at. */
  datatype Readers = Readers(
    parseLine: (map<string, string>, string) -> Option<LineProfile>,
    renderSignals: seq<WANSignal> -> string,
    normalizeModel: string -> string,
    targetOf: WANSignal -> string)

  /** With no key, no value and no text there is no line to describe. */
  ghost predicate SilentOnNothing(readers: Readers) {
    readers.parseLine(map[], "") == None
  }

  // ---- direct evidence in texts and devices ----

  const DIRECT_TOKENS := [
    "ptm0", "atm0", "dsl0", "pppoe-wan", "eth-wan", "gpon", "epon", "ont", "docsis", "cable modem", "vdsl2", "adsl2+",
    "line rate", "line attenuation", "snr margin", "wwan", "lte0", "wan dsl", "wan gpon", "wan ethernet",
    "wandslinterfaceconfig", "dsl.line", "dsl.channel", "ptm.link", "atm.link", "optical.interface",
    "cellular.interface",
    "vdsl2-line", "adsl-line", "docs-if", "docsis mib", "iftype adsl"]

  predicate OccursAt(text: string, token: string, i: nat) {
    i + |token| <= |text| && text[i..i + |token|] == token
  }

  predicate Contains(text: string, token: string) {
    exists i | 0 <= i <= |text| :: OccursAt(text, token, i)
  }

  predicate NamesDirect(text: string) {
    exists k | 0 <= k < |DIRECT_TOKENS| :: Contains(text, DIRECT_TOKENS[k])
  }

  lemma TokensNonEmpty()
    ensures forall k | 0 <= k < |DIRECT_TOKENS| :: DIRECT_TOKENS[k] != ""
  {
  }

  lemma NothingNamesNothing()
    ensures !NamesDirect("")
  {
    TokensNonEmpty();
  }

  function JoinWith(parts: seq<string>): string {
    if parts == [] then "" else if |parts| == 1 then parts[0] else parts[0] + " " + JoinWith(parts[1..])
  }

  predicate StrongSignal(sig: WANSignal) {
    sig.strength == "Physical" || Lower(sig.strength) == "strong" || sig.confidence >= 0.70
  }

  predicate AnyStrongSignal(signals: seq<WANSignal>) {
    exists i | 0 <= i < |signals| :: StrongSignal(signals[i])
  }

  predicate DirectDevice(d: Device) {
    || (d.wanCommonFound && d.wanAccessType != "")
    || d.physicalHints != []
    || NamesDirect(Lower(JoinWith([d.wanAccessType, d.physicalLinkStatus] + d.tr064Services)))
  }

  function DeviceHints(d: Device): seq<string> {
    if d.physicalHints != [] then d.physicalHints else d.accessHints
  }

  predicate DirectCPE(readers: Readers, c: CPEReport) {
    || c.directFlag
    || (Lower(c.wanAccessType) != "" && Lower(c.wanAccessType) != "unknown" && Lower(c.wanAccessType) != "other")
    || AnyStrongSignal(c.signals)
    || readers.parseLine(c.keyValues, c.text).Some?
    || NamesDirect(Lower(JoinWith(c.services) + " " + c.text))
  }

  // ---- one result ----

  function Positive(v: real): real {
    if v > 0.0 then v else 0.0
  }

  /** The strongest access confidence among devices that prove it. */
  function DevicesPhysical(devices: seq<Device>): real {
    if devices == [] then 0.0
    else
      var last := devices[|devices| - 1];
      MaxReal(DevicesPhysical(devices[..|devices| - 1]),
              if DirectDevice(last) && last.accessConfidence > 0.0 then last.accessConfidence else 0.0)
  }

  /** The strongest device confidence; an access confidence that proves nothing counts as one. */
  function DevicesKnown(devices: seq<Device>): real {
    if devices == [] then 0.0
    else
      var last := devices[|devices| - 1];
      MaxReal(DevicesKnown(devices[..|devices| - 1]),
              MaxReal(last.deviceConfidence, if DirectDevice(last) then 0.0 else last.accessConfidence))
  }

  function DevicesHints(devices: seq<Device>): seq<string> {
    if devices == [] then []
    else
      var last := devices[|devices| - 1];
      DevicesHints(devices[..|devices| - 1])
          + (if DirectDevice(last) && last.accessConfidence > 0.0 then DeviceHints(last) else [])
  }

  /** The physical evidence a result contributes. */
  function Physical(readers: Readers, p: Payload): real {
    match p
    case GatewayChainProbe(_, devices) => DevicesPhysical(devices)
    case HTTPFingerprint(devices) => DevicesPhysical(devices)
    case CPEProbe(c) => if DirectCPE(readers, c) then Positive(c.accessConfidence) else 0.0
    case OSInterfaceProbe(present, _, cellular, access) => if present && cellular then Positive(access) else 0.0
    case LinkDiscoveryProbe(_, strong, access) => if strong || access > 0.0 then Positive(access) else 0.0
    case _ => 0.0
  }

  function KnownDevice(readers: Readers, p: Payload): real {
    match p
    case GatewayChainProbe(_, devices) => DevicesKnown(devices)
    case HTTPFingerprint(devices) => DevicesKnown(devices)
    case CPEProbe(c) => MaxReal(Positive(c.deviceConfidence), if DirectCPE(readers, c) then 0.0 else c.accessConfidence)
    case OSInterfaceProbe(present, device, _, _) => if present then Positive(device) else 0.0
    case _ => 0.0
  }

  function StrongHints(readers: Readers, r: ProbeResult): seq<string> {
    match r.payload
    case GatewayChainProbe(_, devices) => DevicesHints(devices)
    case HTTPFingerprint(devices) => DevicesHints(devices)
    case CPEProbe(c) => if DirectCPE(readers, c) && (c.strongFlag || c.accessConfidence > 0.0) then r.hints else []
    case LinkDiscoveryProbe(_, strong, access) => if strong || access > 0.0 then r.hints else []
    case _ => []
  }

  function Signals(p: Payload): seq<WANSignal> {
    if p.CPEProbe? then p.cpe.signals else []
  }

  function Overlay(before: map<string, string>, later: map<string, string>): map<string, string> {
    map k | k in before.Keys + later.Keys ::
        if k in later && (k !in before || Trim(later[k]) != "") then later[k] else before[k]
  }

  /** Whether a result counts as an independent source. */
  predicate Contributes(readers: Readers, r: ProbeResult) {
    || r.hints != []
    || match r.payload
       case UPnPProbe(_, model) => model != ""
       case ASNProbe(ptr, org) => ptr != "" || org != ""
       case TracerouteProbe(double) => double
       case GatewayChainProbe(chain, devices) => chain || devices != []
       case CPEProbe(c) => Trim(c.identity) != "" || c.signals != [] || c.keyValues != map[]
                           || (DirectCPE(readers, c) && (c.strongFlag || c.accessConfidence > 0.0))
       case HTTPFingerprint(devices) => devices != []
       case IPv6Probe(present, _) => present
       case StunProbe(present, _) => present
       case OSInterfaceProbe(present, _, _, _) => present
       case LinkDiscoveryProbe(network, _, _) => network > 0.0
       case PerformanceProbe(present, _) => present
       case ReachabilityProbe(_, route) => route
       case _ => false
  }

  function NetworkConfidence(p: Payload): real {
    match p
    case IPv6Probe(present, network) => if present then network else 0.0
    case StunProbe(present, network) => if present then network else 0.0
    case LinkDiscoveryProbe(network, _, _) => network
    case ReachabilityProbe(network, _) => network
    case _ => 0.0
  }

  /** Names, texts and device lists: later results overwrite or extend earlier ones. */
  function Described(readers: Readers, bag: Bag, p: Payload): Bag {
    match p
    case UPnPProbe(found, model) =>
      bag.(upnpFound := found, routerModel := if model != "" then readers.normalizeModel(model) else bag.routerModel)
    case ASNProbe(ptr, org) => bag.(ptr := ptr, org := org)
    case LatencyProbe(avg) => bag.(avgMS := avg, hasLatency := avg > 0.0)
    case GatewayProbe(gateway) => bag.(gateway := gateway)
    case GatewayChainProbe(_, devices) => bag.(devices := devices)
    case HTTPFingerprint(devices) => bag.(devices := bag.devices + devices)
    case CPEProbe(c) =>
      bag.(upnpFound := bag.upnpFound || c.igdFound,
           routerModel := if Trim(c.identity) != "" then readers.normalizeModel(Trim(c.identity)) else bag.routerModel,
           signalText := if c.signals != [] then Trim(bag.signalText + " " + readers.renderSignals(c.signals))
               else bag.signalText,
           cpeText := if c.text != "" then Trim(bag.cpeText + " " + c.text) else bag.cpeText,
           keyValues := Overlay(bag.keyValues, c.keyValues))
    case PerformanceProbe(present, conf) =>
      if present then bag.(hasPerformanceProfile := true, performance := MaxReal(bag.performance, conf)) else bag
    case _ => bag
  }

  /** One successful result taken up. */
  function Absorbed(readers: Readers, bag: Bag, r: ProbeResult): Bag {
    var d := Described(readers, bag, r.payload);
    d.(hints := AppendUnique(bag.hints, r.hints, ""),
       strongHints := AppendUnique(bag.strongHints, StrongHints(readers, r), ""),
       signals := bag.signals + Signals(r.payload),
       sources := if Contributes(readers, r) then bag.sources + 1 else bag.sources,
       physical := MaxReal(bag.physical, Physical(readers, r.payload)),
       deviceEvidence := MaxReal(bag.deviceEvidence, KnownDevice(readers, r.payload)),
       network := MaxReal(bag.network, NetworkConfidence(r.payload)))
  }

  function Folded(readers: Readers, results: seq<ProbeResult>): Bag {
    if results == [] then EMPTY
    else
      var before, last := Folded(readers, results[..|results| - 1]), results[|results| - 1];
      if last.success then Absorbed(readers, before, last) else before
  }

  /** The physical line described by all the CPE texts together, when there is one, is strong evidence too. */
  function WithLine(readers: Readers, bag: Bag): Bag {
    var line := readers.parseLine(bag.keyValues, Trim(bag.signalText + " " + bag.cpeText + " " + bag.routerModel));
    if line.None? then bag
    else bag.(lineProfile := line, strongHints := AppendUnique(bag.strongHints, line.value.accessHints, ""),
              physical := MaxReal(bag.physical, line.value.confidence))
  }

  // ---- the loops ----

  lemma {:induction false} AppendUniqueConcat(s: seq<string>, a: seq<string>, b: seq<string>)
    ensures AppendUnique(AppendUnique(s, a, ""), b, "") == AppendUnique(s, a + b, "")
  {
    if b == [] {
      assert a + b == a;
    } else {
      AppendUniqueConcat(s, a, b[..|b| - 1]);
      assert (a + b)[..|a + b| - 1] == a + b[..|b| - 1];
    }
  }

  lemma DevicesNext(devices: seq<Device>, i: nat)
    requires i < |devices|
    ensures devices[..i + 1][..i] == devices[..i] && devices[..i + 1][i] == devices[i]
    ensures DevicesHints(devices[..i + 1])
         == if DirectDevice(devices[i]) && devices[i].accessConfidence > 0.0
            then DevicesHints(devices[..i]) + DeviceHints(devices[i])
            else DevicesHints(devices[..i])
  {
  }

  method TakeDevices(devices: seq<Device>, physical: real, known: real, strong: seq<string>)
    returns (p: real, k: real, s: seq<string>)
    requires physical >= 0.0 && known >= 0.0
    ensures p == MaxReal(physical, DevicesPhysical(devices)) && k == MaxReal(known, DevicesKnown(devices))
    ensures s == AppendUnique(strong, DevicesHints(devices), "")
  {
    p, k, s := physical, known, strong;
    for i := 0 to |devices|
      invariant p == MaxReal(physical, DevicesPhysical(devices[..i])) && k == MaxReal(known, DevicesKnown(devices[..i]))
      invariant s == AppendUnique(strong, DevicesHints(devices[..i]), "")
    {
      DevicesNext(devices, i);
      var d := devices[i];
      AppendUniqueConcat(strong, DevicesHints(devices[..i]), DeviceHints(d));
      k := MaxReal(k, d.deviceConfidence);
      if DirectDevice(d) && d.accessConfidence > 0.0 {
        p := MaxReal(p, d.accessConfidence);
        s := AppendUniqueStrings(s, DeviceHints(d));
      } else if d.accessConfidence > 0.0 {
        k := MaxReal(k, d.accessConfidence);
      }
    }
    assert devices[..|devices|] == devices;
  }

  predicate NonNegative(bag: Bag) {
    bag.physical >= 0.0 && bag.deviceEvidence >= 0.0
  }

  lemma DescribedKeeps(readers: Readers, bag: Bag, p: Payload)
    ensures Described(readers, bag, p).lineProfile == bag.lineProfile
  {
  }

  lemma {:induction false} FoldedNonNegative(readers: Readers, results: seq<ProbeResult>)
    ensures NonNegative(Folded(readers, results)) && Folded(readers, results).lineProfile == None
  {
    if results != [] {
      FoldedNonNegative(readers, results[..|results| - 1]);
      DescribedKeeps(readers, Folded(readers, results[..|results| - 1]), results[|results| - 1].payload);
    }
  }

  method Absorb(readers: Readers, bag: Bag, r: ProbeResult) returns (b: Bag)
    requires NonNegative(bag)
    ensures b == Absorbed(readers, bag, r)
  {
    var physical, known, strong, sources := bag.physical, bag.deviceEvidence, bag.strongHints, bag.sources;
    var hints := AppendUniqueStrings(bag.hints, r.hints);
    if r.payload.GatewayChainProbe? || r.payload.HTTPFingerprint? {
      physical, known, strong := TakeDevices(r.payload.devices, physical, known, strong);
    } else {
      physical := MaxReal(physical, Physical(readers, r.payload));
      known := MaxReal(known, KnownDevice(readers, r.payload));
      strong := AppendUniqueStrings(strong, StrongHints(readers, r));
    }
    if Contributes(readers, r) {
      sources := sources + 1;
    }
    b := Described(readers, bag, r.payload);
    b := b.(hints := hints, strongHints := strong, signals := bag.signals + Signals(r.payload), sources := sources,
            physical := physical, deviceEvidence := known,
            network := MaxReal(bag.network, NetworkConfidence(r.payload)));
  }

  method Aggregate(readers: Readers, results: seq<ProbeResult>) returns (bag: Bag)
    ensures bag == WithLine(readers, Folded(readers, results))
  {
    bag := EMPTY;
    for i := 0 to |results|
      invariant bag == Folded(readers, results[..i])
    {
      assert results[..i + 1][..i] == results[..i];
      FoldedNonNegative(readers, results[..i]);
      if !results[i].success {
        continue;
      }
      bag := Absorb(readers, bag, results[i]);
    }
    assert results[..|results|] == results;
    var line := readers.parseLine(bag.keyValues, Trim(bag.signalText + " " + bag.cpeText + " " + bag.routerModel));
    if line.Some? {
      var strong := AppendUniqueStrings(bag.strongHints, line.value.accessHints);
      bag := bag.(lineProfile := line, strongHints := strong, physical := MaxReal(bag.physical, line.value.confidence));
    }
  }

  // ---- which evidence there is ----

  function WANText(bag: Bag): string {
    Lower(Trim(bag.signalText + " " + bag.cpeText))
  }

  /** Direct physical evidence of the access medium. */
  predicate HasDirect(bag: Bag) {
    || (bag.lineProfile.Some? && bag.lineProfile.value.confidence > 0.0)
    || bag.physical > 0.0
    || bag.strongHints != []
    || AnyStrongSignal(bag.signals)
    || NamesDirect(WANText(bag))
  }

  predicate KnownModel(d: Device) {
    (d.modelName != "" || d.manufacturer != "" || d.fingerprintID != "") && d.deviceConfidence >= 0.40
  }

  /** A model the engine knows or a device named with some confidence; `devices` are the gateway devices after
      merging. */
  predicate HasModel(bag: Bag, devices: seq<Device>, matched: bool) {
    || matched
    || (Trim(bag.routerModel) != "" && bag.deviceEvidence > 0.0)
    || exists i | 0 <= i < |devices| :: KnownModel(devices[i])
  }

  /** The part of a bag that counts results one by one. */
  predicate CountedDirect(bag: Bag) {
    bag.physical > 0.0 || bag.strongHints != [] || AnyStrongSignal(bag.signals)
  }

  predicate AnyNonBlank(hints: seq<string>) {
    exists i | 0 <= i < |hints| :: hints[i] != ""
  }

  lemma AppendedEmpty(s: seq<string>, values: seq<string>)
    ensures AppendUnique(s, values, "") != [] <==> s != [] || AnyNonBlank(values)
  {
    AppendUniqueElements(s, values, "");
    var r := AppendUnique(s, values, "");
    if s != [] {
      assert s[0] in r;
    }
    if AnyNonBlank(values) {
      var i :| 0 <= i < |values| && values[i] != "";
      assert values[i] in r;
    }
    if r != [] {
      assert r[0] in r;
    }
  }

  /** What the texts of all CPE probes say together: a line with substance, or a direct token. */
  predicate TextsAreDirect(readers: Readers, bag: Bag) {
    var line := readers.parseLine(bag.keyValues, Trim(bag.signalText + " " + bag.cpeText + " " + bag.routerModel));
    || (line.Some? && (line.value.confidence > 0.0 || AnyNonBlank(line.value.accessHints)))
    || NamesDirect(WANText(bag))
  }

  lemma LineAdds(readers: Readers, bag: Bag)
    requires NonNegative(bag) && bag.lineProfile == None
    ensures HasDirect(WithLine(readers, bag)) <==> CountedDirect(bag) || TextsAreDirect(readers, bag)
  {
    var line := readers.parseLine(bag.keyValues, Trim(bag.signalText + " " + bag.cpeText + " " + bag.routerModel));
    if line.Some? {
      AppendedEmpty(bag.strongHints, line.value.accessHints);
    }
    assert WANText(WithLine(readers, bag)) == WANText(bag);
  }

  // ---- context proves nothing ----

  /** Latency, performance, public IP, ASN, DNS, gateway, traceroute, adapter, IPv6, STUN and reachability. */
  predicate Context(p: Payload) {
    || p.LatencyProbe? || p.PerformanceProbe? || p.PublicIPProbe? || p.ASNProbe? || p.GatewayProbe?
    || p.TracerouteProbe? || p.AdapterProbe? || p.IPv6Probe? || p.StunProbe? || p.ReachabilityProbe? || p.OtherProbe?
  }

  predicate ContextOnly(results: seq<ProbeResult>) {
    forall i | 0 <= i < |results| :: Context(results[i].payload)
  }

  predicate Silent(bag: Bag) {
    && bag.routerModel == "" && bag.strongHints == [] && bag.devices == [] && bag.signals == []
    && bag.signalText == "" && bag.cpeText == "" && bag.keyValues == map[] && bag.lineProfile == None
    && bag.physical == 0.0 && bag.deviceEvidence == 0.0
  }

  lemma ContextAddsNothing(readers: Readers, bag: Bag, r: ProbeResult)
    requires Silent(bag) && Context(r.payload)
    ensures Silent(Absorbed(readers, bag, r))
  {
  }

  lemma {:induction false} ContextFoldsSilent(readers: Readers, results: seq<ProbeResult>)
    requires ContextOnly(results)
    ensures Silent(Folded(readers, results))
  {
    if results != [] {
      var init := results[..|results| - 1];
      ContextFoldsSilent(readers, init);
      ContextAddsNothing(readers, Folded(readers, init), results[|results| - 1]);
    }
  }

  lemma BlankText()
    ensures Trim("" + " " + "" + " " + "") == "" && Lower(Trim("" + " " + "")) == ""
  {
    assert "" + " " + "" == " " && " " + " " + "" == "  ";
    assert "  "[1..] == " " && " "[1..] == "";
    assert TrimLeft(" ") == TrimLeft("") && TrimLeft("  ") == TrimLeft(" ");
  }

  /** Context results, whatever hints they carry, yield neither direct nor device evidence. */
  lemma ContextProvesNothing(readers: Readers, results: seq<ProbeResult>)
    requires ContextOnly(results) && SilentOnNothing(readers)
    ensures var bag := WithLine(readers, Folded(readers, results));
            !HasDirect(bag) && !HasModel(bag, [], false) && bag.devices == []
  {
    var bag := Folded(readers, results);
    ContextFoldsSilent(readers, results);
    BlankText();
    NothingNamesNothing();
    assert WithLine(readers, bag) == bag;
  }

  // ---- order ----

  /** A successful gateway chain result sets the device list anew. */
  predicate Replaces(r: ProbeResult) {
    r.success && r.payload.GatewayChainProbe?
  }

  /** The devices the successful HTTP fingerprints report, in order. */
  function Fingerprinted(results: seq<ProbeResult>): seq<Device> {
    if results == [] then []
    else
      var last := results[|results| - 1];
      Fingerprinted(results[..|results| - 1])
      + (if last.success && last.payload.HTTPFingerprint? then last.payload.devices else [])
  }

  /** The device list after one more result. */
  function DevicesAfter(devices: seq<Device>, r: ProbeResult): seq<Device> {
    if Replaces(r) then r.payload.devices
    else if r.success && r.payload.HTTPFingerprint? then devices + r.payload.devices
    else devices
  }

  function DevicesOf(results: seq<ProbeResult>): seq<Device> {
    if results == [] then [] else DevicesAfter(DevicesOf(results[..|results| - 1]), results[|results| - 1])
  }

  lemma AbsorbedDevices(readers: Readers, bag: Bag, r: ProbeResult, after: Bag)
    requires after == if r.success then Absorbed(readers, bag, r) else bag
    ensures after.devices == DevicesAfter(bag.devices, r)
  {
    if r.success {
      assert after.devices == Described(readers, bag, r.payload).devices;
    }
  }

  lemma {:induction false} FoldedDevices(readers: Readers, results: seq<ProbeResult>)
    ensures Folded(readers, results).devices == DevicesOf(results)
  {
    if results != [] {
      var init, last := results[..|results| - 1], results[|results| - 1];
      FoldedDevices(readers, init);
      AbsorbedDevices(readers, Folded(readers, init), last, Folded(readers, results));
    }
  }

  lemma {:induction false} DevicesOnwards(before: seq<ProbeResult>, after: seq<ProbeResult>)
    requires forall r | r in after :: !Replaces(r)
    ensures DevicesOf(before + after) == DevicesOf(before) + Fingerprinted(after)
  {
    if after == [] {
      assert before + after == before;
    } else {
      var init, last := after[..|after| - 1], after[|after| - 1];
      assert last in after && forall r | r in init :: r in after;
      DevicesOnwards(before, init);
      LastOfConcat(before, after);
      AppendedAfter(DevicesOf(before), Fingerprinted(init), last);
      var all := before + after;
      assert DevicesOf(all) == DevicesAfter(DevicesOf(before + init), last);
    }
  }

  lemma AppendedAfter(a: seq<Device>, b: seq<Device>, r: ProbeResult)
    requires !Replaces(r)
    ensures DevicesAfter(a + b, r)
         == a + (b + (if r.success && r.payload.HTTPFingerprint? then r.payload.devices else []))
  {
    assert b + [] == b;
  }

  lemma LastOfConcat(before: seq<ProbeResult>, after: seq<ProbeResult>)
    requires after != []
    ensures var all := before + after;
            all != [] && all[..|all| - 1] == before + after[..|after| - 1] && all[|all| - 1] == after[|after| - 1]
  {
  }

  /** The devices known at the end are those of the last gateway chain result, then those fingerprinted after
      it. What was fingerprinted before it is forgotten. */
  lemma ChainResultForgetsDevices(readers: Readers, before: seq<ProbeResult>, chain: ProbeResult,
                                  after: seq<ProbeResult>)
    requires Replaces(chain) && forall r | r in after :: !Replaces(r)
    ensures Folded(readers, before + [chain] + after).devices == chain.payload.devices + Fingerprinted(after)
  {
    FoldedDevices(readers, before + [chain] + after);
    DevicesOnwards(before + [chain], after);
    assert (before + [chain])[..|before|] == before;
  }

  /** Without such a result, every fingerprinted device stays. */
  lemma NoChainKeepsDevices(readers: Readers, results: seq<ProbeResult>)
    requires forall r | r in results :: !Replaces(r)
    ensures Folded(readers, results).devices == Fingerprinted(results)
  {
    FoldedDevices(readers, results);
    DevicesOnwards([], results);
    assert [] + results == results;
  }
}
