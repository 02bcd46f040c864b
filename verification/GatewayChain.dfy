/** The canonical gateway chain: every probe's view of the private hops, and the one that stands. */
module GatewayChain {
  import opened Sorting
  import opened Text
  import opened Options
  import opened Numbers

  datatype Origin = RouteTable | GatewayProbe | Traceroute | ChainProbe | UpstreamProbe | StunProbe

  datatype NAT = NAT(internalDoubleNAT: bool, doubleNAT: bool)

  /** What one probe reports about gateways; other probes do not matter here. */
  datatype Report =
    | GatewayReport(gateway: string)
    | TracerouteReport(hops: seq<string>)
    | ChainReport(upstream: bool, hops: seq<string>)
    | StunReport(topology: Option<NAT>, networkConfidence: real)
    | OtherReport

  datatype ProbeResult = ProbeResult(success: bool, confidence: real, report: Report)

  datatype Role = DefaultGateway | UpstreamPrivateGateway
  datatype Hop = Hop(ip: string, role: Role, source: Origin, order: nat)

  datatype ChainSource = ChainSource(origin: Origin, chain: seq<string>, doubleNAT: bool, confidence: real)

  datatype Conflict = ChainDiffers(origin: Origin) | DoubleNATDiffers(origin: Origin)

  datatype ChainState = ChainState(chain: seq<string>, hops: seq<Hop>, doubleNAT: bool, confidence: real,
                                   sources: seq<ChainSource>, conflicts: seq<Conflict>, evidence: seq<Origin>)

  /** The host: its own address, and which bare addresses parse as private IPv4. */
  datatype Host = Host(agentIP: string, privateAddress: string -> bool)

  // ---- addresses ----

  function StripCIDR(s: string): string {
    if s == [] || s[0] == '/' then [] else [s[0]] + StripCIDR(s[1..])
  }

  predicate IsPrivate(host: Host, ip: string) {
    host.privateAddress(StripCIDR(ip))
  }

  lemma {:induction false} StripLeavesNoSlash(s: string)
    ensures '/' !in StripCIDR(s)
  {
    if s != [] && s[0] != '/' { StripLeavesNoSlash(s[1..]); }
  }

  /** A network adapter as the adapter probe reports it; addresses come with their prefix length. */
  datatype Adapter = Adapter(up: bool, virtual: bool, addresses: seq<string>)

  /** `ip` is the first usable address of the list, bare; "" when there is none. */
  ghost predicate FirstUsable(addresses: seq<string>, usable: string -> bool, ip: string) {
    if forall a | a in addresses :: !usable(StripCIDR(a)) then ip == ""
    else exists i | 0 <= i < |addresses| ::
        && ip == StripCIDR(addresses[i]) && usable(ip)
        && forall j | 0 <= j < i :: !usable(StripCIDR(addresses[j]))
  }

  predicate Connected(a: Adapter, usable: string -> bool) {
    a.up && !a.virtual && exists b | b in a.addresses :: usable(StripCIDR(b))
  }

  /** usableIPv4; `usable` says what parses as IPv4 and is not self-assigned. */
  method UsableIPv4(addresses: seq<string>, usable: string -> bool) returns (ip: string)
    ensures FirstUsable(addresses, usable, ip) && '/' !in ip
  {
    for i := 0 to |addresses|
      invariant forall j | 0 <= j < i :: !usable(StripCIDR(addresses[j]))
    {
      ip := StripCIDR(addresses[i]);
      StripLeavesNoSlash(addresses[i]);
      if usable(ip) {
        assert addresses[i] in addresses;
        return;
      }
    }
    ip := "";
  }

  /** pickMainAdapter: the agent's own address, from the first adapter that is up, real and has a usable one. */
  method PickMainAdapter(adapters: seq<Adapter>, usable: string -> bool) returns (ip: string)
    requires !usable("")
    ensures '/' !in ip
    ensures ip == "" <==> forall a | a in adapters :: !Connected(a, usable)
    ensures ip != "" ==> exists i | 0 <= i < |adapters| ::
        && Connected(adapters[i], usable) && FirstUsable(adapters[i].addresses, usable, ip)
        && forall j | 0 <= j < i :: !Connected(adapters[j], usable)
  {
    for i := 0 to |adapters|
      invariant forall j | 0 <= j < i :: !Connected(adapters[j], usable)
    {
      if !adapters[i].up || adapters[i].virtual {
        continue;
      }
      ip := UsableIPv4(adapters[i].addresses, usable);
      if ip != "" {
        assert Connected(adapters[i], usable) && adapters[i] in adapters;
        return;
      }
    }
    ip := "";
  }

  predicate Skipped(host: Host, h: string) {
    h == "" || h == "*" || h == host.agentIP
  }

  /** The private hops up to the first public one, once each, without the agent. */
  function ChainFrom(host: Host, hops: seq<string>, out: seq<string>): seq<string> {
    if hops == [] then out
    else
      var h := Trim(hops[0]);
      if Skipped(host, h) then ChainFrom(host, hops[1..], out)
      else if !IsPrivate(host, h) then out
      else ChainFrom(host, hops[1..], if h in out then out else out + [h])
  }

  function PrivateChain(host: Host, hops: seq<string>): seq<string> {
    ChainFrom(host, hops, [])
  }

  ghost predicate CleanChain(host: Host, chain: seq<string>) {
    Distinct(chain) && forall h | h in chain :: IsPrivate(host, h) && !Skipped(host, h) && Trim(h) == h
  }

  lemma {:induction false} ChainIsClean(host: Host, hops: seq<string>, out: seq<string>)
    requires CleanChain(host, out)
    ensures CleanChain(host, ChainFrom(host, hops, out))
  {
    if hops != [] {
      var h := Trim(hops[0]);
      TrimIdempotent(hops[0]);
      ChainIsClean(host, hops[1..], out);
      if !Skipped(host, h) && IsPrivate(host, h) && h !in out {
        ChainIsClean(host, hops[1..], out + [h]);
      }
    }
  }

  method BuildPrivateChain(host: Host, hops: seq<string>) returns (out: seq<string>)
    ensures out == PrivateChain(host, hops) && CleanChain(host, out)
  {
    out := [];
    ChainIsClean(host, hops, []);
    for i := 0 to |hops|
      invariant ChainFrom(host, hops[i..], out) == PrivateChain(host, hops)
    {
      assert hops[i..][1..] == hops[i + 1..];
      var h := Trim(hops[i]);
      if Skipped(host, h) {
        continue;
      }
      if !IsPrivate(host, h) {
        return;
      }
      if h !in out {
        out := out + [h];
      }
    }
  }

  // ---- sources ----

  /** A chain probe's source; none when no private hop is left of it. */
  function FromHops(host: Host, origin: Origin, hops: seq<string>, confidence: real): seq<ChainSource> {
    var chain := PrivateChain(host, hops);
    if chain == [] then [] else [ChainSource(origin, chain, |chain| >= 2, confidence)]
  }

  function SourcesOf(host: Host, gateway: string, r: ProbeResult): seq<ChainSource> {
    if !r.success then []
    else
      match r.report
      case GatewayReport(gw) => FromHops(host, GatewayProbe, [FirstNonEmpty(gw, gateway)], MaxReal(r.confidence, 0.35))
      case TracerouteReport(hops) => FromHops(host, Traceroute, PrivateChain(host, hops), MaxReal(r.confidence, 0.65))
      case ChainReport(upstream, hops) =>
        FromHops(host, if upstream then UpstreamProbe else ChainProbe, hops, MaxReal(r.confidence, 0.45))
      case StunReport(topology, conf) =>
        if topology.None? then []
        else [ChainSource(StunProbe, [], topology.value.internalDoubleNAT || topology.value.doubleNAT,
                          MaxReal(r.confidence, conf))]
      case OtherReport => []
  }

  predicate UsableGateway(host: Host, gateway: string) {
    gateway != "" && IsPrivate(host, gateway) && gateway != host.agentIP
  }

  function RouteSource(host: Host, gateway: string): seq<ChainSource> {
    if UsableGateway(host, gateway) then FromHops(host, RouteTable, [gateway], 0.40) else []
  }

  /** `route` followed by what `f` makes of each result. */
  function Flat(f: ProbeResult -> seq<ChainSource>, route: seq<ChainSource>,
                results: seq<ProbeResult>): seq<ChainSource> {
    if results == [] then route else Flat(f, route, results[..|results| - 1]) + f(results[|results| - 1])
  }

  lemma FlatNext(f: ProbeResult -> seq<ChainSource>, route: seq<ChainSource>, results: seq<ProbeResult>, r: ProbeResult)
    ensures Flat(f, route, results + [r]) == Flat(f, route, results) + f(r)
  {
    assert (results + [r])[..|results|] == results;
  }

  function ReadBy(host: Host, gateway: string): ProbeResult -> seq<ChainSource> {
    r => SourcesOf(host, gateway, r)
  }

  function AllSources(host: Host, gateway: string, results: seq<ProbeResult>): seq<ChainSource> {
    Flat(ReadBy(host, gateway), RouteSource(host, gateway), results)
  }

  // ---- the source that stands ----

  predicate Better(a: ChainSource, b: ChainSource) {
    if a.origin == Traceroute && |a.chain| >= |b.chain| then true
    else if b.origin == Traceroute && |b.chain| >= |a.chain| then false
    else if |a.chain| != |b.chain| then |a.chain| > |b.chain|
    else a.confidence > b.confidence
  }

  /** The index the scan over the sources ends with. */
  function Best(sources: seq<ChainSource>): (best: Option<nat>)
    ensures best.Some? ==> best.value < |sources|
  {
    if sources == [] then None
    else
      var n := |sources| - 1;
      var before := Best(sources[..n]);
      if sources[n].chain == [] then before
      else if before.None? || Better(sources[n], sources[before.value]) then Some(n)
      else before
  }

  ghost predicate Longest(sources: seq<ChainSource>, i: nat)
    requires i < |sources|
  {
    sources[i].chain != [] && forall k | 0 <= k < |sources| :: |sources[k].chain| <= |sources[i].chain|
  }

  ghost predicate LongestTraceroute(sources: seq<ChainSource>, i: nat)
    requires i < |sources|
  {
    Longest(sources, i) && sources[i].origin == Traceroute
  }

  /** The winner: the last traceroute among the longest chains; without one, the first of the longest with the
      highest confidence. */
  ghost predicate Wins(sources: seq<ChainSource>, i: nat)
    requires i < |sources|
  {
    && Longest(sources, i)
    && (sources[i].origin == Traceroute ==> forall k | i < k < |sources| :: !LongestTraceroute(sources, k))
    && (sources[i].origin != Traceroute ==>
          && (forall k | 0 <= k < |sources| :: !LongestTraceroute(sources, k))
          && (forall k | 0 <= k < |sources| && Longest(sources, k) :: sources[k].confidence <= sources[i].confidence)
          && (forall k | 0 <= k < i && Longest(sources, k) :: sources[k].confidence < sources[i].confidence))
  }

  lemma {:induction false} BestWins(sources: seq<ChainSource>)
    ensures Best(sources).None? <==> forall k | 0 <= k < |sources| :: sources[k].chain == []
    ensures Best(sources).Some? ==> Wins(sources, Best(sources).value)
  {
    if sources != [] {
      var n := |sources| - 1;
      var before := Best(sources[..n]);
      BestWins(sources[..n]);
      LongestInPrefix(sources, n);
      if before.Some? {
        if sources[n].chain != [] && Better(sources[n], sources[before.value]) {
          NewcomerWins(sources, before.value);
        } else {
          WinnerStays(sources, before.value);
        }
      }
    }
  }

  lemma NewcomerWins(sources: seq<ChainSource>, best: nat)
    requires |sources| > 0 && best < |sources| - 1 && Wins(sources[..|sources| - 1], best)
    requires sources[|sources| - 1].chain != [] && Better(sources[|sources| - 1], sources[best])
    ensures Wins(sources, |sources| - 1)
  {
    LongestInPrefix(sources, |sources| - 1);
  }

  lemma NotBetter(a: ChainSource, b: ChainSource)
    requires !Better(a, b)
    ensures |a.chain| <= |b.chain|
    ensures |a.chain| == |b.chain| ==>
              a.origin != Traceroute && (b.origin == Traceroute || a.confidence <= b.confidence)
  {
  }

  lemma WinnerStays(sources: seq<ChainSource>, best: nat)
    requires |sources| > 0 && best < |sources| - 1 && Wins(sources[..|sources| - 1], best)
    requires sources[|sources| - 1].chain == [] || !Better(sources[|sources| - 1], sources[best])
    ensures Wins(sources, best)
  {
    var n := |sources| - 1;
    var init := sources[..n];
    assert init[best] == sources[best];
    if sources[n].chain != [] {
      NotBetter(sources[n], sources[best]);
    }
    assert Longest(sources, best);
    forall k | 0 <= k < |sources| && Longest(sources, k)
      ensures |sources[k].chain| == |sources[best].chain| && (k < n ==> Longest(init, k) && init[k] == sources[k])
    {
    }
    if sources[best].origin == Traceroute {
      forall k | best < k < |sources| ensures !LongestTraceroute(sources, k) {
        assert k < n ==> !LongestTraceroute(init, k);
      }
    } else {
      forall k | 0 <= k < |sources| ensures !LongestTraceroute(sources, k) {
        assert k < n ==> !LongestTraceroute(init, k);
      }
    }
  }

  lemma LongestInPrefix(sources: seq<ChainSource>, n: nat)
    requires n < |sources|
    ensures forall k | 0 <= k < n :: Longest(sources, k) ==> Longest(sources[..n], k)
    ensures forall k | 0 <= k < n :: LongestTraceroute(sources, k) ==> LongestTraceroute(sources[..n], k)
    ensures n == |sources| - 1 ==>
              forall k | 0 <= k < n :: Longest(sources[..n], k) && |sources[n].chain| <= |sources[k].chain| ==>
                  Longest(sources, k)
  {
  }

  method PickBest(sources: seq<ChainSource>) returns (best: Option<nat>)
    ensures best == Best(sources)
  {
    best := None;
    for i := 0 to |sources|
      invariant best == Best(sources[..i])
    {
      assert sources[..i + 1][..i] == sources[..i];
      if sources[i].chain == [] {
        continue;
      }
      if best.None? || Better(sources[i], sources[best.value]) {
        best := Some(i);
      }
    }
    assert sources[..|sources|] == sources;
  }

  // ---- the state ----

  function HopRole(i: nat): Role {
    if i == 0 then DefaultGateway else UpstreamPrivateGateway
  }

  function GatewayHops(chain: seq<string>, source: Origin): seq<Hop> {
    seq(|chain|, i requires 0 <= i < |chain| => Hop(chain[i], HopRole(i), source, i + 1))
  }

  predicate AnyDoubleNAT(sources: seq<ChainSource>) {
    exists i | 0 <= i < |sources| :: sources[i].doubleNAT
  }

  /** `base` raised to every confidence that comes with a double-NAT claim. */
  function Raised(base: real, sources: seq<ChainSource>): real {
    if sources == [] then base
    else
      var last := sources[|sources| - 1];
      var before := Raised(base, sources[..|sources| - 1]);
      if last.doubleNAT then MaxReal(before, last.confidence) else before
  }

  function Evidence(sources: seq<ChainSource>): seq<Origin> {
    if sources == [] then []
    else
      var before := Evidence(sources[..|sources| - 1]);
      var last := sources[|sources| - 1].origin;
      if last in before then before else before + [last]
  }

  function Join(parts: seq<string>): string {
    if parts == [] then "" else if |parts| == 1 then parts[0] else parts[0] + "," + Join(parts[1..])
  }

  function ConflictsOf(src: ChainSource, chain: seq<string>, doubleNAT: bool): seq<Conflict> {
    if src.origin == RouteTable || src.origin == GatewayProbe then []
    else
      (if src.chain != [] && Join(chain) != "" && Join(src.chain) != Join(chain)
       then [ChainDiffers(src.origin)] else [])
      + (if src.origin != StunProbe && src.doubleNAT != doubleNAT then [DoubleNATDiffers(src.origin)] else [])
  }

  function Conflicts(sources: seq<ChainSource>, chain: seq<string>, doubleNAT: bool): seq<Conflict> {
    if sources == [] then []
    else Conflicts(sources[..|sources| - 1], chain, doubleNAT) + ConflictsOf(sources[|sources| - 1], chain, doubleNAT)
  }

  /** The chain that stands, where it comes from, and its confidence before double-NAT claims raise it. */
  datatype Pick = Pick(chain: seq<string>, origin: Origin, confidence: real)

  function Picked(host: Host, gateway: string, sources: seq<ChainSource>): Pick {
    var best := Best(sources);
    if best.Some? then Pick(sources[best.value].chain, sources[best.value].origin, sources[best.value].confidence)
    else if UsableGateway(host, gateway) then Pick([gateway], RouteTable, 0.35)
    else Pick([], RouteTable, 0.0)
  }

  /** The verdict on double NAT: some source claims it, or the chain has two hops. */
  predicate DoubleNATOf(sources: seq<ChainSource>, chain: seq<string>) {
    AnyDoubleNAT(sources) || |chain| >= 2
  }

  function Resolved(host: Host, gateway: string, sources: seq<ChainSource>): Option<ChainState> {
    var p := Picked(host, gateway, sources);
    var double := DoubleNATOf(sources, p.chain);
    if p.chain == [] && sources == [] then None
    else Some(ChainState(p.chain, GatewayHops(p.chain, p.origin), double, Raised(p.confidence, sources), sources,
                         Conflicts(sources, p.chain, double), Evidence(sources)))
  }

  function Resolve(host: Host, gateway: string, results: seq<ProbeResult>): Option<ChainState> {
    Resolved(host, gateway, AllSources(host, gateway, results))
  }

  method AddSource(host: Host, origin: Origin, hops: seq<string>, confidence: real, sources: seq<ChainSource>,
                   evidence: seq<Origin>)
    returns (s: seq<ChainSource>, e: seq<Origin>)
    requires evidence == Evidence(sources)
    ensures s == sources + FromHops(host, origin, hops, confidence) && e == Evidence(s)
  {
    var chain := BuildPrivateChain(host, hops);
    if |chain| == 0 {
      return sources, evidence;
    }
    s := sources + [ChainSource(origin, chain, |chain| >= 2, confidence)];
    assert s[..|sources|] == sources;
    e := if origin in evidence then evidence else evidence + [origin];
  }

  method AddResult(host: Host, gateway: string, r: ProbeResult, sources: seq<ChainSource>, evidence: seq<Origin>)
    returns (s: seq<ChainSource>, e: seq<Origin>)
    requires evidence == Evidence(sources)
    ensures s == sources + ReadBy(host, gateway)(r) && e == Evidence(s)
  {
    s, e := sources, evidence;
    if !r.success {
      return;
    }
    match r.report {
      case GatewayReport(gw) =>
        s, e := AddSource(host, GatewayProbe, [FirstNonEmpty(gw, gateway)], MaxReal(r.confidence, 0.35), s, e);
      case TracerouteReport(hops) =>
        var chain := BuildPrivateChain(host, hops);
        s, e := AddSource(host, Traceroute, chain, MaxReal(r.confidence, 0.65), s, e);
      case ChainReport(upstream, hops) =>
        s, e := AddSource(host, if upstream then UpstreamProbe else ChainProbe, hops, MaxReal(r.confidence, 0.45), s,
                          e);
      case StunReport(topology, conf) =>
        if topology.Some? {
          s := s + [ChainSource(StunProbe, [], topology.value.internalDoubleNAT || topology.value.doubleNAT,
                                MaxReal(r.confidence, conf))];
          assert s[..|sources|] == sources;
          e := if StunProbe in e then e else e + [StunProbe];
        }
      case OtherReport =>
    }
  }

  method AddRoute(host: Host, gateway: string) returns (s: seq<ChainSource>, e: seq<Origin>)
    ensures s == RouteSource(host, gateway) && e == Evidence(s)
  {
    s, e := [], [];
    if UsableGateway(host, gateway) {
      s, e := AddSource(host, RouteTable, [gateway], 0.40, s, e);
    }
  }

  method CollectSources(host: Host, gateway: string, results: seq<ProbeResult>)
      returns (s: seq<ChainSource>, e: seq<Origin>)
    ensures s == AllSources(host, gateway, results) && e == Evidence(s)
  {
    s, e := AddRoute(host, gateway);
    ghost var route := s;
    for i := 0 to |results|
      invariant s == Flat(ReadBy(host, gateway), route, results[..i]) && e == Evidence(s)
    {
      FlatNext(ReadBy(host, gateway), route, results[..i], results[i]);
      assert results[..i + 1] == results[..i] + [results[i]];
      s, e := AddResult(host, gateway, results[i], s, e);
    }
    assert results[..|results|] == results;
  }

  method FindConflicts(src: ChainSource, chain: seq<string>, final: string, doubleNAT: bool)
      returns (conflicts: seq<Conflict>)
    requires final == Join(chain)
    ensures conflicts == ConflictsOf(src, chain, doubleNAT)
  {
    conflicts := [];
    if src.origin == RouteTable || src.origin == GatewayProbe {
      return;
    }
    if |src.chain| > 0 && final != "" && Join(src.chain) != final {
      conflicts := conflicts + [ChainDiffers(src.origin)];
    }
    if src.origin == StunProbe {
      return;
    }
    if src.doubleNAT != doubleNAT {
      conflicts := conflicts + [DoubleNATDiffers(src.origin)];
    }
  }

  method ListConflicts(sources: seq<ChainSource>, chain: seq<string>, doubleNAT: bool)
      returns (conflicts: seq<Conflict>)
    ensures conflicts == Conflicts(sources, chain, doubleNAT)
  {
    conflicts := [];
    var final := Join(chain);
    for i := 0 to |sources|
      invariant conflicts == Conflicts(sources[..i], chain, doubleNAT)
    {
      assert sources[..i + 1][..i] == sources[..i];
      var found := FindConflicts(sources[i], chain, final, doubleNAT);
      conflicts := conflicts + found;
    }
    assert sources[..|sources|] == sources;
  }

  method RaiseForDoubleNAT(base: real, sources: seq<ChainSource>) returns (double: bool, confidence: real)
    ensures double == AnyDoubleNAT(sources) && confidence == Raised(base, sources)
  {
    double, confidence := false, base;
    for i := 0 to |sources|
      invariant double == (exists k | 0 <= k < i :: sources[k].doubleNAT)
      invariant confidence == Raised(base, sources[..i])
    {
      assert sources[..i + 1][..i] == sources[..i];
      if sources[i].doubleNAT {
        double := true;
        confidence := MaxReal(confidence, sources[i].confidence);
      }
    }
    assert sources[..|sources|] == sources;
  }

  method ResolveGatewayChainState(host: Host, gateway: string, results: seq<ProbeResult>)
      returns (state: Option<ChainState>)
    ensures state == Resolve(host, gateway, results)
  {
    var sources, evidence := CollectSources(host, gateway, results);
    var best := PickBest(sources);
    var chain, hops, base := [], [], 0.0;
    if best.Some? {
      var src := sources[best.value];
      chain, hops, base := src.chain, GatewayHops(src.chain, src.origin), src.confidence;
    } else if UsableGateway(host, gateway) {
      chain := [gateway];
      hops, base := GatewayHops(chain, RouteTable), 0.35;
    }
    var double, confidence := RaiseForDoubleNAT(base, sources);
    if |chain| >= 2 {
      double := true;
    }
    assert chain == [] ==> GatewayHops(chain, RouteTable) == [];
    assert Pick(chain, Picked(host, gateway, sources).origin, base) == Picked(host, gateway, sources);
    var conflicts := ListConflicts(sources, chain, double);
    if |chain| == 0 && |sources| == 0 {
      return None;
    }
    state := Some(ChainState(chain, hops, double, confidence, sources, conflicts, evidence));
  }

  // ---- what the state guarantees ----

  ghost predicate AllClean(host: Host, sources: seq<ChainSource>) {
    forall src | src in sources :: CleanChain(host, src.chain) && (|src.chain| >= 2 ==> src.doubleNAT)
  }

  lemma {:induction false} FlatClean(host: Host, f: ProbeResult -> seq<ChainSource>, route: seq<ChainSource>,
                                     results: seq<ProbeResult>)
    requires AllClean(host, route) && forall r | r in results :: AllClean(host, f(r))
    ensures AllClean(host, Flat(f, route, results))
  {
    if results != [] {
      assert results[|results| - 1] in results;
      assert forall r | r in results[..|results| - 1] :: r in results;
      FlatClean(host, f, route, results[..|results| - 1]);
    }
  }

  lemma SourcesClean(host: Host, gateway: string, results: seq<ProbeResult>)
    ensures AllClean(host, AllSources(host, gateway, results))
  {
    ChainIsClean(host, [gateway], []);
    forall r | r in results ensures AllClean(host, ReadBy(host, gateway)(r)) {
      OneSourceClean(host, gateway, r);
    }
    FlatClean(host, ReadBy(host, gateway), RouteSource(host, gateway), results);
  }

  lemma OneSourceClean(host: Host, gateway: string, r: ProbeResult)
    ensures AllClean(host, SourcesOf(host, gateway, r))
  {
    match r.report {
      case GatewayReport(gw) => ChainIsClean(host, [FirstNonEmpty(gw, gateway)], []);
      case TracerouteReport(hops) => ChainIsClean(host, PrivateChain(host, hops), []);
      case ChainReport(_, hops) => ChainIsClean(host, hops, []);
      case _ =>
    }
  }

  /** No source has a longer chain, and a traceroute provides the chain whenever one is as long. */
  lemma ChainIsLongest(host: Host, gateway: string, results: seq<ProbeResult>)
    requires Resolve(host, gateway, results).Some?
    ensures var s := Resolve(host, gateway, results).value;
            && (forall i | 0 <= i < |s.sources| :: |s.sources[i].chain| <= |s.chain|)
            && ((exists i | 0 <= i < |s.sources| ::
                   s.sources[i].origin == Traceroute && s.sources[i].chain != [] && |s.sources[i].chain| == |s.chain|)
                ==> exists i | 0 <= i < |s.sources| ::
                    s.sources[i].origin == Traceroute && s.sources[i].chain == s.chain
                                                     && s.hops == GatewayHops(s.chain, Traceroute))
  {
    var sources := AllSources(host, gateway, results);
    BestWins(sources);
    var best := Best(sources);
    if best.Some? {
      forall k | 0 <= k < |sources| && sources[k].origin == Traceroute
          && |sources[k].chain| == |sources[best.value].chain|
        ensures LongestTraceroute(sources, k)
      {
        assert Longest(sources, best.value);
      }
    }
  }

  /** The canonical chain has no duplicate, no public hop and not the agent. */
  lemma CanonicalChainIsClean(host: Host, gateway: string, results: seq<ProbeResult>)
    requires ReadsBareAddresses(host) && '/' !in host.agentIP
    requires Resolve(host, gateway, results).Some?
    ensures CleanChain(host, Resolve(host, gateway, results).value.chain)
  {
    FallbackUnreachable(host, gateway, results);
    SourcesClean(host, gateway, results);
  }

  /** The double-NAT verdict is exactly that some source claims it. */
  lemma DoubleNATExactly(host: Host, gateway: string, results: seq<ProbeResult>)
    requires Resolve(host, gateway, results).Some?
    ensures Resolve(host, gateway, results).value.doubleNAT <==> AnyDoubleNAT(AllSources(host, gateway, results))
  {
    SourcesClean(host, gateway, results);
    var sources := AllSources(host, gateway, results);
    var best := Best(sources);
    if best.Some? && |sources[best.value].chain| >= 2 {
      assert sources[best.value] in sources;
    }
  }

  function Length(state: Option<ChainState>): nat {
    if state.Some? then |state.value.chain| else 0
  }

  predicate DoubleNAT(state: Option<ChainState>) {
    state.Some? && state.value.doubleNAT
  }

  lemma LengthOf(host: Host, gateway: string, results: seq<ProbeResult>)
    ensures var sources := AllSources(host, gateway, results);
            Length(Resolve(host, gateway, results))
            == if Best(sources).Some? then |sources[Best(sources).value].chain|
                else if UsableGateway(host, gateway) then 1 else 0
  {
  }

  /** More sources after the ones there are: the chain that stands is at least as long. */
  lemma LongerWithMore(before: seq<ChainSource>, after: seq<ChainSource>)
    requires before <= after && Best(before).Some?
    ensures Best(after).Some? && |before[Best(before).value].chain| <= |after[Best(after).value].chain|
  {
    BestWins(before);
    BestWins(after);
    assert after[Best(before).value] == before[Best(before).value];
  }

  lemma SomeChain(sources: seq<ChainSource>)
    requires Best(sources).Some?
    ensures |sources[Best(sources).value].chain| >= 1
  {
    BestWins(sources);
  }

  lemma SourcesGrow(host: Host, gateway: string, results: seq<ProbeResult>, r: ProbeResult)
    ensures AllSources(host, gateway, results) <= AllSources(host, gateway, results + [r])
  {
    FlatNext(ReadBy(host, gateway), RouteSource(host, gateway), results, r);
  }

  lemma DoubleNATOfMore(before: seq<ChainSource>, after: seq<ChainSource>)
    requires before <= after && AnyDoubleNAT(before)
    ensures AnyDoubleNAT(after)
  {
    var i :| 0 <= i < |before| && before[i].doubleNAT;
    assert after[i].doubleNAT;
  }

  lemma SourcedState(host: Host, gateway: string, results: seq<ProbeResult>)
    requires AllSources(host, gateway, results) != []
    ensures Resolve(host, gateway, results).Some?
  {
  }

  /** Another probe result never shortens the chain and never takes a double-NAT verdict back. */
  lemma MoreResultsOnlyAdd(host: Host, gateway: string, results: seq<ProbeResult>, r: ProbeResult)
    ensures Length(Resolve(host, gateway, results)) <= Length(Resolve(host, gateway, results + [r]))
    ensures DoubleNAT(Resolve(host, gateway, results)) ==> DoubleNAT(Resolve(host, gateway, results + [r]))
  {
    var before, after := AllSources(host, gateway, results), AllSources(host, gateway, results + [r]);
    SourcesGrow(host, gateway, results, r);
    LengthOf(host, gateway, results);
    LengthOf(host, gateway, results + [r]);
    if Best(before).Some? {
      LongerWithMore(before, after);
    } else if Best(after).Some? {
      SomeChain(after);
    }
    if DoubleNAT(Resolve(host, gateway, results)) {
      DoubleNATExactly(host, gateway, results);
      DoubleNATOfMore(before, after);
      SourcedState(host, gateway, results + [r]);
      DoubleNATExactly(host, gateway, results + [r]);
    }
  }

  // ---- the fallback ----

  predicate FallbackTaken(host: Host, gateway: string, results: seq<ProbeResult>) {
    Best(AllSources(host, gateway, results)).None? && UsableGateway(host, gateway)
  }

  /** Whether trimming the default gateway leaves a private hop to report. */
  predicate ReportableGateway(host: Host, gateway: string) {
    !Skipped(host, Trim(gateway)) && IsPrivate(host, Trim(gateway))
  }

  lemma SingletonChain(host: Host, gateway: string)
    ensures PrivateChain(host, [gateway]) == if ReportableGateway(host, gateway) then [Trim(gateway)] else []
  {
    var h := Trim(gateway);
    var none: seq<string> := [];
    assert [gateway][1..] == none && none + [h] == [h];
    assert ChainFrom(host, none, none) == none && ChainFrom(host, none, [h]) == [h];
    assert ChainFrom(host, [gateway], none)
        == if Skipped(host, h) then ChainFrom(host, none, none) else if !IsPrivate(host, h) then none
            else ChainFrom(host, none, [h]);
  }

  predicate Chainless(sources: seq<ChainSource>) {
    forall k | 0 <= k < |sources| :: sources[k].chain == []
  }

  predicate AllChainless(f: ProbeResult -> seq<ChainSource>, results: seq<ProbeResult>) {
    forall i | 0 <= i < |results| :: Chainless(f(results[i]))
  }

  predicate ResultsChainless(host: Host, gateway: string, results: seq<ProbeResult>) {
    AllChainless(ReadBy(host, gateway), results)
  }

  lemma ChainlessConcat(a: seq<ChainSource>, b: seq<ChainSource>)
    ensures Chainless(a + b) <==> Chainless(a) && Chainless(b)
  {
    assert forall k | 0 <= k < |a| :: (a + b)[k] == a[k];
    assert forall k | 0 <= k < |b| :: (a + b)[|a| + k] == b[k];
  }

  lemma {:induction false} FlatChainless(f: ProbeResult -> seq<ChainSource>, route: seq<ChainSource>,
                                         results: seq<ProbeResult>)
    ensures Chainless(Flat(f, route, results)) <==> Chainless(route) && AllChainless(f, results)
  {
    if results != [] {
      var init, last := results[..|results| - 1], results[|results| - 1];
      FlatChainless(f, route, init);
      ChainlessConcat(Flat(f, route, init), f(last));
      assert forall i | 0 <= i < |init| :: init[i] == results[i];
    }
  }

  /** The last-resort chain is taken exactly when a usable default gateway is not itself reportable once
      trimmed, and no probe result brings a chain. */
  lemma FallbackExactly(host: Host, gateway: string, results: seq<ProbeResult>)
    ensures FallbackTaken(host, gateway, results) <==>
            UsableGateway(host, gateway) && !ReportableGateway(host, gateway)
                && ResultsChainless(host, gateway, results)
  {
    var sources := AllSources(host, gateway, results);
    BestWins(sources);
    FlatChainless(ReadBy(host, gateway), RouteSource(host, gateway), results);
    SingletonChain(host, gateway);
    assert Best(sources).None? <==> Chainless(sources);
    var route := RouteSource(host, gateway);
    assert route != [] ==> route[0].chain != [];
  }

  /** What parses as a private IPv4 address is not blank, holds no blank, and is no wildcard. */
  ghost predicate ReadsBareAddresses(host: Host) {
    forall a | host.privateAddress(a) :: a != "" && a != "*" && forall c | c in a :: !IsSpace(c)
  }

  lemma {:induction false} StripIsPrefix(s: string)
    ensures StripCIDR(s) <= s && (|StripCIDR(s)| < |s| ==> s[|StripCIDR(s)|] == '/')
  {
    if s != [] && s[0] != '/' { StripIsPrefix(s[1..]); }
  }

  /** Trimming the right end stops at a character that is no blank. */
  lemma {:induction false} TrimRightStops(s: string, k: nat)
    requires k < |s| && !IsSpace(s[k])
    ensures k < |TrimRight(s)|
  {
    if IsSpace(s[|s| - 1]) { TrimRightStops(s[..|s| - 1], k); }
  }

  lemma {:induction false} StripOfPrefix(s: string, t: string)
    requires t <= s && |StripCIDR(s)| <= |t|
    ensures StripCIDR(t) == StripCIDR(s)
  {
    if s != [] && s[0] != '/' {
      assert t[0] == s[0];
      assert t[1..] <= s[1..];
      StripOfPrefix(s[1..], t[1..]);
    }
  }

  /** A private gateway keeps its address when trimmed, and its prefix length if it has one. */
  lemma TrimmedGateway(host: Host, gateway: string)
    requires ReadsBareAddresses(host) && IsPrivate(host, gateway)
    ensures Trim(gateway) != "" && Trim(gateway) != "*" && IsPrivate(host, Trim(gateway))
    ensures '/' !in Trim(gateway) ==> Trim(gateway) == gateway
  {
    var bare := StripCIDR(gateway);
    StripIsPrefix(gateway);
    assert gateway[0] == bare[0] && bare[0] in bare;
    assert TrimLeft(gateway) == gateway;
    var k := if |bare| < |gateway| then |bare| else |bare| - 1;
    assert k == |bare| - 1 ==> gateway[k] == bare[k] && bare[k] in bare;
    TrimRightStops(gateway, k);
    StripOfPrefix(gateway, Trim(gateway));
    if |bare| < |gateway| {
      assert Trim(gateway)[|bare|] == '/';
    }
    assert Trim(gateway) == "*" ==> StripCIDR("*") == "*";
  }

  /** The last-resort chain is never taken for the agent addresses the engine passes: they come from an
      adapter, bare. */
  lemma FallbackUnreachable(host: Host, gateway: string, results: seq<ProbeResult>)
    requires ReadsBareAddresses(host) && '/' !in host.agentIP
    ensures !FallbackTaken(host, gateway, results)
  {
    FallbackExactly(host, gateway, results);
    if UsableGateway(host, gateway) {
      TrimmedGateway(host, gateway);
    }
  }

  /** Called with any other agent address, the branch can be reached exactly when that address is private, trimmed and
      carries a prefix length. */
  lemma FallbackReachableExactly(host: Host)
    requires ReadsBareAddresses(host)
    ensures (exists gateway, results :: FallbackTaken(host, gateway, results)) <==>
            '/' in host.agentIP && IsPrivate(host, host.agentIP) && Trim(host.agentIP) == host.agentIP
  {
    if gateway, results :| FallbackTaken(host, gateway, results) {
      FallbackExactly(host, gateway, results);
      TrimmedGateway(host, gateway);
      TrimIdempotent(gateway);
    }
    if '/' in host.agentIP && IsPrivate(host, host.agentIP) && Trim(host.agentIP) == host.agentIP {
      PaddedAgentFallsBack(host);
    }
  }

  /** A default gateway that is the agent's address with a blank behind it differs from the agent until it is
      trimmed. */
  lemma PaddedAgentFallsBack(host: Host)
    requires '/' in host.agentIP && IsPrivate(host, host.agentIP) && Trim(host.agentIP) == host.agentIP
    ensures FallbackTaken(host, host.agentIP + " ", [])
  {
    var agent, gateway := host.agentIP, host.agentIP + " ";
    StripIsPrefix(gateway);
    StripLeavesNoSlash(agent);
    StripShorter(agent);
    StripOfPrefix(gateway, agent);
    TrailingBlank(agent);
    FallbackExactly(host, gateway, []);
  }

  lemma {:induction false} StripShorter(s: string)
    requires '/' in s
    ensures |StripCIDR(s)| < |s| && StripCIDR(s + " ") == StripCIDR(s)
  {
    assert (s + " ")[0] == s[0];
    if s[0] != '/' {
      assert (s + " ")[1..] == s[1..] + " ";
      StripShorter(s[1..]);
    }
  }

  lemma TrailingBlank(s: string)
    requires s != [] && Trim(s) == s
    ensures Trim(s + " ") == s
  {
    var t := s + " ";
    assert !IsSpace(s[0]) && !IsSpace(s[|s| - 1]) by {
      assert TrimLeft(s) == s;
    }
    assert t[..|t| - 1] == s;
    assert TrimLeft(t) == t;
    assert TrimRight(s) == s && TrimRight(t) == s;
  }

  /** A gateway written without surrounding blanks never gets there, whatever the agent's address. */
  lemma TrimmedGatewayNeverFallsBack(host: Host, gateway: string, results: seq<ProbeResult>)
    requires Trim(gateway) == gateway && !host.privateAddress("*")
    ensures !FallbackTaken(host, gateway, results)
  {
    FallbackExactly(host, gateway, results);
    assert StripCIDR("*") == "*";
  }

  // ---- conflicts ----

  /** A source other than the route table and the gateway probe disagrees about the chain, or about double NAT,
      which the STUN probe is not held to. */
  ghost predicate Contradicts(src: ChainSource, chain: seq<string>, doubleNAT: bool, c: Conflict) {
    && src.origin != RouteTable && src.origin != GatewayProbe && c.origin == src.origin
    && match c
       case ChainDiffers(_) => src.chain != [] && Join(chain) != "" && Join(src.chain) != Join(chain)
       case DoubleNATDiffers(_) => src.origin != StunProbe && src.doubleNAT != doubleNAT
  }

  lemma {:induction false} ConflictsMean(sources: seq<ChainSource>, chain: seq<string>, doubleNAT: bool, c: Conflict)
    ensures c in Conflicts(sources, chain, doubleNAT) <==>
            exists src :: src in sources && Contradicts(src, chain, doubleNAT, c)
  {
    if sources != [] {
      var init, last := sources[..|sources| - 1], sources[|sources| - 1];
      ConflictsMean(init, chain, doubleNAT, c);
      assert sources == init + [last];
      assert c in ConflictsOf(last, chain, doubleNAT) <==> Contradicts(last, chain, doubleNAT, c);
    }
  }

  /** Chains of hops without commas are compared as lists when their joined texts are. */
  lemma {:induction false} JoinedTextsAgree(a: seq<string>, b: seq<string>)
    requires a != [] && b != [] && (forall h | h in a :: ',' !in h) && (forall h | h in b :: ',' !in h)
    ensures Join(a) == Join(b) <==> a == b
  {
    if Join(a) == Join(b) {
      JoinCut(a);
      JoinCut(b);
      FirstPartUnique(a[0], Tail(a), b[0], Tail(b));
      if |a| > 1 && |b| > 1 {
        assert Tail(a)[1..] == Join(a[1..]) && Tail(b)[1..] == Join(b[1..]);
        assert (forall h | h in a[1..] :: h in a) && (forall h | h in b[1..] :: h in b);
        JoinedTextsAgree(a[1..], b[1..]);
      }
      assert |a| == 1 <==> |b| == 1;
      assert a == [a[0]] + a[1..] && b == [b[0]] + b[1..];
    }
  }

  /** What follows the first part of a joined text. */
  function Tail(a: seq<string>): string
    requires a != []
  {
    if |a| == 1 then "" else "," + Join(a[1..])
  }

  lemma {:induction false} JoinCut(a: seq<string>)
    requires a != []
    ensures Join(a) == a[0] + Tail(a) && a[0] in a
    ensures |a| == 1 <==> Tail(a) == ""
    ensures Tail(a) != "" ==> Tail(a)[0] == ','
  {
    if |a| > 1 {
      var rest := Join(a[1..]);
      assert Join(a) == a[0] + "," + rest;
      assert a[0] + "," + rest == a[0] + ("," + rest);
    } else {
      assert a[0] + "" == a[0];
    }
  }

  lemma ShorterStopsAtComma(x: string, rest: string, y: string, other: string)
    requires |x| < |y| && x + rest == y + other && (rest != "" ==> rest[0] == ',')
    ensures ',' in y
  {
    var s := x + rest;
    assert y[|x|] == s[|x|];
  }

  /** What stands before the first comma is determined by the whole. */
  lemma FirstPartUnique(x: string, rest: string, y: string, other: string)
    requires ',' !in x && ',' !in y && x + rest == y + other
    requires (rest != "" ==> rest[0] == ',') && (other != "" ==> other[0] == ',')
    ensures x == y && rest == other
  {
    var s := x + rest;
    if |x| < |y| {
      ShorterStopsAtComma(x, rest, y, other);
    } else if |y| < |x| {
      ShorterStopsAtComma(y, other, x, rest);
    } else {
      assert x == s[..|x|] == y && rest == s[|x|..] == other;
    }
  }

  /** A disagreement about double NAT always has the state on the positive side: a negative probe is outvoted,
      never the reverse. */
  lemma DisagreementIsNegative(host: Host, gateway: string, results: seq<ProbeResult>, o: Origin)
    requires Resolve(host, gateway, results).Some?
    requires DoubleNATDiffers(o) in Resolve(host, gateway, results).value.conflicts
    ensures Resolve(host, gateway, results).value.doubleNAT
    ensures exists src | src in AllSources(host, gateway, results) ::
              src.origin == o && !src.doubleNAT && |src.chain| < 2
  {
    var s := Resolve(host, gateway, results).value;
    DoubleNATExactly(host, gateway, results);
    ConflictsMean(s.sources, s.chain, s.doubleNAT, DoubleNATDiffers(o));
    SourcesClean(host, gateway, results);
    var src :| src in s.sources && Contradicts(src, s.chain, s.doubleNAT, DoubleNATDiffers(o));
    var i :| 0 <= i < |s.sources| && s.sources[i] == src;
  }

  // ---- what the chain and the state mean ----

  /** No hop before `n` stops the chain: each is skipped or private. */
  ghost predicate Runs(host: Host, hops: seq<string>, n: nat) {
    n <= |hops| && forall k | 0 <= k < n :: Skipped(host, Trim(hops[k])) || IsPrivate(host, Trim(hops[k]))
  }

  /** `h` stands at `i`, and nothing before it stops the chain. */
  ghost predicate StandsAt(host: Host, hops: seq<string>, h: string, i: nat) {
    i < |hops| && Trim(hops[i]) == h && !Skipped(host, h) && IsPrivate(host, h) && Runs(host, hops, i)
  }

  lemma StandsLater(host: Host, hops: seq<string>, h: string, i: nat)
    requires hops != [] && (Skipped(host, Trim(hops[0])) || IsPrivate(host, Trim(hops[0])))
    requires StandsAt(host, hops[1..], h, i)
    ensures StandsAt(host, hops, h, i + 1)
  {
    assert hops[1..][i] == hops[i + 1];
    forall k | 0 <= k < i + 1 ensures Skipped(host, Trim(hops[k])) || IsPrivate(host, Trim(hops[k])) {
      assert k > 0 ==> hops[1..][k - 1] == hops[k];
    }
  }

  lemma StandsEarlier(host: Host, hops: seq<string>, h: string, i: nat)
    requires StandsAt(host, hops, h, i) && i > 0
    ensures StandsAt(host, hops[1..], h, i - 1)
  {
    assert forall k | 0 <= k < i :: hops[1..][k] == hops[k + 1];
  }

  lemma {:induction false} ChainFromMeans(host: Host, hops: seq<string>, out: seq<string>, h: string)
    ensures h in ChainFrom(host, hops, out) <==> h in out || exists i: nat :: StandsAt(host, hops, h, i)
    decreases |hops|
  {
    if hops != [] {
      var first := Trim(hops[0]);
      var next := if Skipped(host, first) || first in out then out else out + [first];
      ChainFromMeans(host, hops[1..], next, h);
      if i: nat :| StandsAt(host, hops, h, i) {
        if i > 0 {
          StandsEarlier(host, hops, h, i);
        }
      }
      if Skipped(host, first) || IsPrivate(host, first) {
        if i: nat :| StandsAt(host, hops[1..], h, i) {
          StandsLater(host, hops, h, i);
        }
        if !Skipped(host, first) {
          assert StandsAt(host, hops, first, 0);
        }
      }
    }
  }

  /** A hop is in the private chain exactly when it is private, named, not the agent, and reported before the first
      public hop: the first public hop ends the chain, later private ones do not count. */
  lemma ChainEndsAtPublicHop(host: Host, hops: seq<string>, h: string)
    ensures h in PrivateChain(host, hops) <==> exists i: nat :: StandsAt(host, hops, h, i)
  {
    ChainFromMeans(host, hops, [], h);
  }

  lemma {:induction false} RaisedMeans(base: real, sources: seq<ChainSource>)
    ensures var c := Raised(base, sources);
            && c >= base && (forall s | s in sources && s.doubleNAT :: s.confidence <= c)
            && (c == base || exists s :: s in sources && s.doubleNAT && c == s.confidence)
  {
    if sources != [] {
      RaisedMeans(base, sources[..|sources| - 1]);
      assert sources == sources[..|sources| - 1] + [sources[|sources| - 1]];
    }
  }

  lemma {:induction false} EvidenceMeans(sources: seq<ChainSource>)
    ensures Distinct(Evidence(sources))
    ensures forall o :: o in Evidence(sources) <==> exists s :: s in sources && s.origin == o
  {
    if sources != [] {
      EvidenceMeans(sources[..|sources| - 1]);
      assert sources == sources[..|sources| - 1] + [sources[|sources| - 1]];
    }
  }

  /** A result makes `src` a source: a hop list with something private in it, with at least the confidence its probe
      deserves, or a NAT view. */
  ghost predicate Makes(host: Host, gateway: string, r: ProbeResult, src: ChainSource) {
    r.success &&
    match r.report
    case GatewayReport(gw) =>
      ListSource(host, GatewayProbe, [if Trim(gw) != "" then gw else gateway], MaxReal(r.confidence, 0.35), src)
    case TracerouteReport(hops) =>
      ListSource(host, Traceroute, PrivateChain(host, hops), MaxReal(r.confidence, 0.65), src)
    case ChainReport(upstream, hops) =>
      ListSource(host, if upstream then UpstreamProbe else ChainProbe, hops, MaxReal(r.confidence, 0.45), src)
    case StunReport(topology, conf) =>
      && topology.Some? && src.origin == StunProbe && src.chain == [] && src.confidence == MaxReal(r.confidence, conf)
      && (src.doubleNAT <==> topology.value.internalDoubleNAT || topology.value.doubleNAT)
    case OtherReport => false
  }

  ghost predicate ListSource(host: Host, origin: Origin, hops: seq<string>, confidence: real, src: ChainSource) {
    && src.origin == origin && src.chain == PrivateChain(host, hops) && src.chain != []
    && (src.doubleNAT <==> |src.chain| >= 2) && src.confidence == confidence
  }

  lemma MakesSource(host: Host, gateway: string, r: ProbeResult, src: ChainSource)
    ensures src in SourcesOf(host, gateway, r) <==> Makes(host, gateway, r, src)
  {
  }

  lemma {:induction false} FlatMeans(host: Host, gateway: string, route: seq<ChainSource>, results: seq<ProbeResult>,
                                     src: ChainSource)
    ensures src in Flat(ReadBy(host, gateway), route, results) <==>
            src in route || exists r :: r in results && Makes(host, gateway, r, src)
  {
    if results != [] {
      var init, last := results[..|results| - 1], results[|results| - 1];
      FlatMeans(host, gateway, route, init, src);
      MakesSource(host, gateway, last, src);
      assert results == init + [last];
    }
  }

  /** The sources are what the results make, and the route table with 0.40 when its gateway is usable. */
  lemma SourcesMean(host: Host, gateway: string, results: seq<ProbeResult>, src: ChainSource)
    ensures src in AllSources(host, gateway, results) <==>
            || (UsableGateway(host, gateway) && ListSource(host, RouteTable, [gateway], 0.40, src))
            || exists r :: r in results && Makes(host, gateway, r, src)
  {
    FlatMeans(host, gateway, RouteSource(host, gateway), results, src);
  }

  /** The rest of the state, from its own sources and chain. */
  lemma StateMeans(host: Host, gateway: string, results: seq<ProbeResult>, s: ChainState)
    requires Resolve(host, gateway, results) == Some(s)
    ensures s.sources == AllSources(host, gateway, results)
    ensures |s.hops| == |s.chain| && forall i | 0 <= i < |s.chain| ::
              && s.hops[i].ip == s.chain[i] && s.hops[i].order == i + 1
              && (s.hops[i].role == DefaultGateway <==> i == 0)
    ensures forall src | src in s.sources && src.doubleNAT :: src.confidence <= s.confidence
    ensures Best(s.sources).Some? ==>
              var w := s.sources[Best(s.sources).value];
              && s.chain == w.chain && w.confidence <= s.confidence
              && exists src :: src in s.sources && (src == w || src.doubleNAT) && src.confidence == s.confidence
    ensures forall c :: c in s.conflicts <==>
                        exists src :: src in s.sources && Contradicts(src, s.chain, s.doubleNAT, c)
    ensures Distinct(s.evidence) && forall o :: o in s.evidence <==> exists src :: src in s.sources && src.origin == o
  {
    var p := Picked(host, gateway, s.sources);
    RaisedMeans(p.confidence, s.sources);
    EvidenceMeans(s.sources);
    forall c ensures c in s.conflicts <==> exists src :: src in s.sources && Contradicts(src, s.chain, s.doubleNAT, c) {
      ConflictsMean(s.sources, s.chain, s.doubleNAT, c);
    }
  }
}
