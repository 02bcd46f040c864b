/** Merging the gateway devices several probes saw at the same address. */
module GatewayMerge {
  import opened Sorting
  import opened Text
  import opened KeyedMerge
  import opened Numbers

  datatype Role = NoRole | UnknownRole | LocalRouter | DefaultGateway | UpstreamPrivateGateway
                | PossibleModem | PossibleCPE

  function RolePriority(r: Role): int {
    match r
    case PossibleCPE => 5
    case PossibleModem => 5
    case UpstreamPrivateGateway => 4
    case DefaultGateway => 3
    case LocalRouter => 2
    case UnknownRole => 1
    case NoRole => 0
  }

  /** A CPE or modem outranks an upstream gateway, that the default gateway, that a local router, and any of them
      what is unknown or missing. */
  lemma RolesRanked()
    ensures RolePriority(PossibleCPE) == RolePriority(PossibleModem) > RolePriority(UpstreamPrivateGateway)
    ensures RolePriority(UpstreamPrivateGateway) > RolePriority(DefaultGateway) > RolePriority(LocalRouter)
    ensures RolePriority(LocalRouter) > RolePriority(UnknownRole) > RolePriority(NoRole)
  {
  }

  datatype Device = Device(
    ip: string, role: Role, reachable: bool, reachableState: string,
    upnpFound: bool, igdFound: bool, wanCommonFound: bool, tr064Found: bool, tr064AuthRequired: bool,
    upnpState: string, tr064State: string, snmpState: string,
    openPorts: seq<int>, tr064Services: seq<string>, accessHints: seq<string>, physicalHints: seq<string>,
    notes: seq<string>, evidenceIDs: seq<string>,
    wanAccessType: string, physicalLinkStatus: string,
    modelGuess: string, modelName: string, manufacturer: string, fingerprintID: string,
    upRate: int, downRate: int,
    deviceConfidence: real, accessConfidence: real, confidence: real)

  // ---- merging field by field ----

  function BoolState(ok: bool): string {
    if ok then "found" else "not_found"
  }

  function MergeReachable(a: string, b: string): string {
    if a == "true" || b == "true" then "true" else if a == "false" || b == "false" then "false" else "unknown"
  }

  function MergeState(a: string, b: string, found: bool): string {
    if found then "found" else if a == "" then b else if b == "" || b == "not_found" || b == "not_probed" then a else b
  }

  /** appendUnique*: what is not blank and not there yet goes to the end. */
  function AppendUnique<T(==)>(s: seq<T>, values: seq<T>, blank: T): seq<T> {
    if values == [] then s
    else
      var before := AppendUnique(s, values[..|values| - 1], blank);
      var v := values[|values| - 1];
      if v == blank || v in before then before else before + [v]
  }

  lemma {:induction false} AppendUniqueElements<T>(s: seq<T>, values: seq<T>, blank: T)
    ensures forall x :: x in AppendUnique(s, values, blank) <==> x in s || (x in values && x != blank)
  {
    if values != [] {
      AppendUniqueElements(s, values[..|values| - 1], blank);
      assert values == values[..|values| - 1] + [values[|values| - 1]];
    }
  }

  method AppendUniqueInts(s: seq<int>, values: seq<int>) returns (r: seq<int>)
    ensures r == AppendUnique(s, values, 0)
  {
    r := s;
    for i := 0 to |values|
      invariant r == AppendUnique(s, values[..i], 0)
    {
      assert values[..i + 1][..i] == values[..i];
      if values[i] == 0 {
        continue;
      }
      if values[i] !in r {
        r := r + [values[i]];
      }
    }
    assert values[..|values|] == values;
  }

  method AppendUniqueStrings(s: seq<string>, values: seq<string>) returns (r: seq<string>)
    ensures r == AppendUnique(s, values, "")
  {
    r := s;
    for i := 0 to |values|
      invariant r == AppendUnique(s, values[..i], "")
    {
      assert values[..i + 1][..i] == values[..i];
      if values[i] == "" {
        continue;
      }
      if values[i] !in r {
        r := r + [values[i]];
      }
    }
    assert values[..|values|] == values;
  }

  function Normalized(d: Device): Device {
    d.(reachableState := if d.reachable then "true" else if d.reachableState == "" then "unknown" else d.reachableState,
       modelGuess := if d.modelGuess == "" then Trim(d.manufacturer + " " + d.modelName) else d.modelGuess,
       upnpState := if d.upnpState == "" then BoolState(d.upnpFound) else d.upnpState,
       tr064State := if d.tr064State != "" then d.tr064State
                     else if d.tr064AuthRequired && !d.tr064Found then "auth_required" else BoolState(d.tr064Found),
       snmpState := if d.snmpState == "" then "not_probed" else d.snmpState)
  }

  lemma NormalizedOnce(d: Device)
    ensures Normalized(Normalized(d)) == Normalized(d)
  {
  }

  /** Everything but the lists. */
  function WithScalars(a: Device, b: Device): Device {
    a.(role := if RolePriority(b.role) > RolePriority(a.role) then b.role else a.role,
       reachable := a.reachable || b.reachable,
       reachableState := MergeReachable(a.reachableState, b.reachableState),
       upnpFound := a.upnpFound || b.upnpFound,
       igdFound := a.igdFound || b.igdFound,
       wanCommonFound := a.wanCommonFound || b.wanCommonFound,
       tr064Found := a.tr064Found || b.tr064Found,
       tr064AuthRequired := a.tr064AuthRequired || b.tr064AuthRequired,
       upnpState := MergeState(a.upnpState, b.upnpState, a.upnpFound || b.upnpFound),
       tr064State := MergeState(a.tr064State, b.tr064State, a.tr064Found || b.tr064Found),
       snmpState := MergeState(a.snmpState, b.snmpState, false),
       upRate := MaxInt(a.upRate, b.upRate),
       downRate := MaxInt(a.downRate, b.downRate),
       deviceConfidence := MaxReal(a.deviceConfidence, b.deviceConfidence),
       accessConfidence := MaxReal(a.accessConfidence, b.accessConfidence),
       confidence := MaxReal(a.confidence, b.confidence))
  }

  function WithTexts(a: Device, b: Device): Device {
    a.(wanAccessType := FirstNonEmpty(a.wanAccessType, b.wanAccessType),
       physicalLinkStatus := FirstNonEmpty(a.physicalLinkStatus, b.physicalLinkStatus),
       modelGuess := FirstNonEmpty(a.modelGuess, b.modelGuess),
       modelName := FirstNonEmpty(a.modelName, b.modelName),
       manufacturer := FirstNonEmpty(a.manufacturer, b.manufacturer),
       fingerprintID := FirstNonEmpty(a.fingerprintID, b.fingerprintID))
  }

  function WithLists(a: Device, b: Device): Device {
    a.(openPorts := AppendUnique(a.openPorts, b.openPorts, 0),
       tr064Services := AppendUnique(a.tr064Services, b.tr064Services, ""),
       accessHints := AppendUnique(a.accessHints, b.accessHints, ""),
       physicalHints := AppendUnique(a.physicalHints, b.physicalHints, ""),
       notes := AppendUnique(a.notes, b.notes, ""),
       evidenceIDs := AppendUnique(a.evidenceIDs, b.evidenceIDs, ""))
  }

  function Combined(a: Device, b: Device): Device {
    WithLists(WithTexts(WithScalars(a, b), b), b)
  }

  function Merged(a: Device, b: Device): Device {
    Normalized(Combined(Normalized(a), Normalized(b)))
  }

  method NormalizeGatewayDevice(d: Device) returns (r: Device)
    ensures r == Normalized(d)
  {
    var reachable, guess, upnp, tr064, snmp := d.reachableState, d.modelGuess, d.upnpState, d.tr064State, d.snmpState;
    if d.reachable {
      reachable := "true";
    } else if reachable == "" {
      reachable := "unknown";
    }
    if guess == "" {
      guess := Trim(d.manufacturer + " " + d.modelName);
    }
    if upnp == "" {
      upnp := BoolState(d.upnpFound);
    }
    if tr064 == "" {
      tr064 := BoolState(d.tr064Found);
      if d.tr064AuthRequired && !d.tr064Found {
        tr064 := "auth_required";
      }
    }
    if snmp == "" {
      snmp := "not_probed";
    }
    r := d.(reachableState := reachable, modelGuess := guess, upnpState := upnp, tr064State := tr064,
            snmpState := snmp);
  }

  method CombineLists(a: Device, b: Device) returns (r: Device)
    ensures r == WithLists(a, b)
  {
    var ports := AppendUniqueInts(a.openPorts, b.openPorts);
    var access := AppendUniqueStrings(a.accessHints, b.accessHints);
    var physical := AppendUniqueStrings(a.physicalHints, b.physicalHints);
    var notes := AppendUniqueStrings(a.notes, b.notes);
    var services := AppendUniqueStrings(a.tr064Services, b.tr064Services);
    var evidence := AppendUniqueStrings(a.evidenceIDs, b.evidenceIDs);
    r := a.(openPorts := ports, tr064Services := services, accessHints := access, physicalHints := physical,
            notes := notes, evidenceIDs := evidence);
  }

  // ---- the whole list ----

  function ByAddress(): Ops<Device> {
    Ops((d: Device) => d.ip, (d: Device) => Normalized(d), (a: Device, b: Device) => Merged(a, b))
  }

  lemma MergedSettled(a: Device, b: Device)
    ensures Normalized(Merged(a, b)) == Merged(a, b) && Merged(a, b).ip == a.ip
  {
    NormalizedOnce(Combined(Normalized(a), Normalized(b)));
  }

  lemma AddressesSettle()
    ensures Settling(ByAddress())
  {
    var ops := ByAddress();
    forall d ensures ops.norm(ops.norm(d)) == ops.norm(d) && ops.key(ops.norm(d)) == ops.key(d) {
      NormalizedOnce(d);
    }
    forall a, b ensures ops.norm(ops.merge(a, b)) == ops.merge(a, b) && ops.key(ops.merge(a, b)) == ops.key(a) {
      MergedSettled(a, b);
    }
  }

  /** Merging a merged list changes nothing. */
  lemma MergingAgain(devices: seq<Device>, once: seq<Device>, twice: seq<Device>)
    requires IsMerge(ByAddress(), devices, once) && IsMerge(ByAddress(), once, twice)
    ensures twice == once
  {
    AddressesSettle();
    MergeIdempotent(ByAddress(), devices, once, twice);
  }

  // ---- what a merged device knows ----

  /** The yes-or-no knowledge a device carries. */
  datatype Fact =
    | Reachable | UPnP | IGD | WANCommon | TR064 | AuthRequired
    | Port(port: int) | AccessHint(text: string) | PhysicalHint(text: string) | NoteText(text: string)
    | TR064Service(text: string) | EvidenceRef(text: string)
    | HasAccessType | HasLinkStatus | HasModel | HasManufacturer | HasFingerprint

  predicate Knows(d: Device, f: Fact) {
    match f
    case Reachable => d.reachable
    case UPnP => d.upnpFound
    case IGD => d.igdFound
    case WANCommon => d.wanCommonFound
    case TR064 => d.tr064Found
    case AuthRequired => d.tr064AuthRequired
    case Port(p) => p != 0 && p in d.openPorts
    case AccessHint(t) => t != "" && t in d.accessHints
    case PhysicalHint(t) => t != "" && t in d.physicalHints
    case NoteText(t) => t != "" && t in d.notes
    case TR064Service(t) => t != "" && t in d.tr064Services
    case EvidenceRef(t) => t != "" && t in d.evidenceIDs
    case _ => Trim(TextOf(d, f)) != ""
  }

  /** The text a fact is about. */
  function TextOf(d: Device, f: Fact): string {
    match f
    case HasAccessType => d.wanAccessType
    case HasLinkStatus => d.physicalLinkStatus
    case HasModel => d.modelName
    case HasManufacturer => d.manufacturer
    case HasFingerprint => d.fingerprintID
    case _ => ""
  }

  /** The quantities a merge keeps the best of. */
  datatype Measure = DeviceConfidence | AccessConfidence | Confidence | UpRate | DownRate | Priority | ReachState

  function ReachLevel(state: string): int {
    if state == "true" then 2 else if state == "false" then 1 else 0
  }

  function Level(d: Device, m: Measure): real {
    match m
    case DeviceConfidence => d.deviceConfidence
    case AccessConfidence => d.accessConfidence
    case Confidence => d.confidence
    case UpRate => d.upRate as real
    case DownRate => d.downRate as real
    case Priority => RolePriority(d.role) as real
    case ReachState => ReachLevel(Normalized(d).reachableState) as real
  }

  lemma CombinedListsKnow(a: Device, b: Device)
    ensures forall x ::
              x in AppendUnique(a.openPorts, b.openPorts, 0) <==> x in a.openPorts || (x in b.openPorts && x != 0)
    ensures forall x ::
              x in AppendUnique(a.accessHints, b.accessHints, "") <==>
              x in a.accessHints || (x in b.accessHints && x != "")
    ensures forall x ::
              x in AppendUnique(a.physicalHints, b.physicalHints, "") <==>
              x in a.physicalHints || (x in b.physicalHints && x != "")
    ensures forall x :: x in AppendUnique(a.notes, b.notes, "") <==> x in a.notes || (x in b.notes && x != "")
    ensures forall x ::
              x in AppendUnique(a.tr064Services, b.tr064Services, "") <==>
              x in a.tr064Services || (x in b.tr064Services && x != "")
    ensures forall x ::
              x in AppendUnique(a.evidenceIDs, b.evidenceIDs, "") <==>
              x in a.evidenceIDs || (x in b.evidenceIDs && x != "")
  {
    AppendUniqueElements(a.openPorts, b.openPorts, 0);
    AppendUniqueElements(a.accessHints, b.accessHints, "");
    AppendUniqueElements(a.physicalHints, b.physicalHints, "");
    AppendUniqueElements(a.notes, b.notes, "");
    AppendUniqueElements(a.tr064Services, b.tr064Services, "");
    AppendUniqueElements(a.evidenceIDs, b.evidenceIDs, "");
  }

  lemma NormalizedKnows(d: Device, f: Fact)
    ensures Knows(Normalized(d), f) == Knows(d, f)
  {
  }

  lemma ScalarsKnow(a: Device, b: Device, f: Fact)
    ensures f.Reachable? || f.UPnP? || f.IGD? || f.WANCommon? || f.TR064? || f.AuthRequired? ==>
              (Knows(WithScalars(a, b), f) <==> Knows(a, f) || Knows(b, f))
    ensures !(f.Reachable? || f.UPnP? || f.IGD? || f.WANCommon? || f.TR064? || f.AuthRequired?) ==>
              Knows(WithScalars(a, b), f) == Knows(a, f)
  {
  }

  predicate TextFact(f: Fact) {
    f.HasAccessType? || f.HasLinkStatus? || f.HasModel? || f.HasManufacturer? || f.HasFingerprint?
  }

  lemma FilledIn(a: string, b: string, r: string)
    requires r == FirstNonEmpty(a, b)
    ensures Trim(r) != "" <==> Trim(a) != "" || Trim(b) != ""
  {
  }

  lemma TextsOf(a: Device, b: Device, f: Fact)
    requires TextFact(f)
    ensures TextOf(WithTexts(a, b), f) == FirstNonEmpty(TextOf(a, f), TextOf(b, f))
  {
  }

  lemma TextsKeepRest(a: Device, b: Device, f: Fact)
    requires !TextFact(f)
    ensures Knows(WithTexts(a, b), f) == Knows(a, f)
  {
  }

  lemma TextsKnow(a: Device, b: Device, f: Fact)
    ensures Knows(WithTexts(a, b), f) <==> Knows(a, f) || (TextFact(f) && Knows(b, f))
  {
    if TextFact(f) {
      TextsOf(a, b, f);
      FilledIn(TextOf(a, f), TextOf(b, f), TextOf(WithTexts(a, b), f));
    } else {
      TextsKeepRest(a, b, f);
    }
  }

  /** A populated text is never replaced: the first device seen keeps what it has. */
  lemma MergedTextKept(a: Device, b: Device, f: Fact)
    requires TextFact(f)
    ensures TextOf(Merged(a, b), f) == if Knows(a, f) then TextOf(a, f) else TextOf(b, f)
  {
    var n, m := Normalized(a), Normalized(b);
    TextsOf(WithScalars(n, m), m, f);
    NormalizedText(a, f);
    NormalizedText(b, f);
    NormalizedText(Combined(n, m), f);
  }

  lemma NormalizedText(d: Device, f: Fact)
    ensures TextOf(Normalized(d), f) == TextOf(d, f)
  {
  }

  predicate ListFact(f: Fact) {
    f.Port? || f.AccessHint? || f.PhysicalHint? || f.NoteText? || f.TR064Service? || f.EvidenceRef?
  }

  lemma ListsKnow(a: Device, b: Device, f: Fact)
    ensures Knows(WithLists(a, b), f) <==> Knows(a, f) || (ListFact(f) && Knows(b, f))
  {
    CombinedListsKnow(a, b);
  }

  lemma CombinedKnows(a: Device, b: Device, f: Fact)
    ensures Knows(Combined(a, b), f) <==> Knows(a, f) || Knows(b, f)
  {
    ScalarsKnow(a, b, f);
    TextsKnow(WithScalars(a, b), b, f);
    ListsKnow(WithTexts(WithScalars(a, b), b), b, f);
  }

  /** Two devices merged know what either knew, no more. */
  lemma MergedKnows(a: Device, b: Device, f: Fact)
    ensures Knows(Merged(a, b), f) <==> Knows(a, f) || Knows(b, f)
  {
    NormalizedKnows(a, f);
    NormalizedKnows(b, f);
    CombinedKnows(Normalized(a), Normalized(b), f);
    NormalizedKnows(Combined(Normalized(a), Normalized(b)), f);
  }

  lemma NormalizedLevel(d: Device, m: Measure)
    ensures Level(Normalized(d), m) == Level(d, m)
  {
  }

  /** Every measure keeps the better of the two; the reachability states are ordered unknown, false, true. */
  lemma MergedLevel(a: Device, b: Device, m: Measure)
    ensures Level(Merged(a, b), m) == MaxReal(Level(a, m), Level(b, m))
  {
  }

  // ---- the loops ----

  method CombineScalars(a: Device, b: Device) returns (r: Device)
    ensures r == WithScalars(a, b)
  {
    var role, up, down := a.role, a.upRate, a.downRate;
    if RolePriority(b.role) > RolePriority(a.role) {
      role := b.role;
    }
    if b.upRate > up {
      up := b.upRate;
    }
    if b.downRate > down {
      down := b.downRate;
    }
    var upnp, tr064 := a.upnpFound || b.upnpFound, a.tr064Found || b.tr064Found;
    assert up == MaxInt(a.upRate, b.upRate) && down == MaxInt(a.downRate, b.downRate);
    assert role == if RolePriority(b.role) > RolePriority(a.role) then b.role else a.role;
    r := a.(role := role, reachable := a.reachable || b.reachable,
            reachableState := MergeReachable(a.reachableState, b.reachableState),
            upnpFound := upnp, igdFound := a.igdFound || b.igdFound,
            wanCommonFound := a.wanCommonFound || b.wanCommonFound,
            tr064Found := tr064, tr064AuthRequired := a.tr064AuthRequired || b.tr064AuthRequired,
            upnpState := MergeState(a.upnpState, b.upnpState, upnp),
            tr064State := MergeState(a.tr064State, b.tr064State, tr064),
            snmpState := MergeState(a.snmpState, b.snmpState, false), upRate := up, downRate := down,
            deviceConfidence := MaxReal(a.deviceConfidence, b.deviceConfidence),
            accessConfidence := MaxReal(a.accessConfidence, b.accessConfidence),
            confidence := MaxReal(a.confidence, b.confidence));
  }

  /** Two sightings of one device: it keeps its address, knows what either knew and no more, and every measure keeps the
      better of the two. */
  method MergeGatewayDevice(first: Device, second: Device) returns (r: Device)
    ensures r.ip == first.ip && forall f :: Knows(r, f) <==> Knows(first, f) || Knows(second, f)
    ensures forall m :: Level(r, m) == MaxReal(Level(first, m), Level(second, m))
    ensures r == Merged(first, second)
  {
    var a := NormalizeGatewayDevice(first);
    var b := NormalizeGatewayDevice(second);
    var c := CombineScalars(a, b);
    var d := CombineLists(WithTexts(c, b), b);
    r := NormalizeGatewayDevice(d);
    MergedSettled(first, second);
    forall f ensures Knows(r, f) <==> Knows(first, f) || Knows(second, f) {
      MergedKnows(first, second, f);
    }
    forall m ensures Level(r, m) == MaxReal(Level(first, m), Level(second, m)) {
      MergedLevel(first, second, m);
    }
  }

  /** The state `before`, replaced by the state `after` unless that says nothing was found or asked. */
  function LaterState(before: string, after: string): string {
    if after in {"not_found", "not_probed"} then before else after
  }

  function Stated(state: string, default: string): string {
    if state == "" then default else state
  }

  lemma NormalizedStates(d: Device)
    ensures Normalized(d).snmpState == Stated(d.snmpState, "not_probed")
    ensures Normalized(d).upnpState == Stated(d.upnpState, if d.upnpFound then "found" else "not_found")
    ensures Normalized(d).upnpFound == d.upnpFound
  {
  }

  lemma CombinedStates(a: Device, b: Device)
    ensures Combined(a, b).upnpState == MergeState(a.upnpState, b.upnpState, a.upnpFound || b.upnpFound)
    ensures Combined(a, b).snmpState == MergeState(a.snmpState, b.snmpState, false)
  {
  }

  /** A service either device found is found; otherwise the later state stands, failing that the earlier one. */
  lemma MergedStates(a: Device, b: Device)
    ensures a.upnpFound || b.upnpFound ==> Merged(a, b).upnpState == "found"
    ensures !a.upnpFound && !b.upnpFound ==>
              Merged(a, b).upnpState
              == LaterState(Stated(a.upnpState, "not_found"), Stated(b.upnpState, "not_found"))
    ensures Merged(a, b).snmpState
         == LaterState(Stated(a.snmpState, "not_probed"), Stated(b.snmpState, "not_probed"))
  {
    var x, y := Normalized(a), Normalized(b);
    NormalizedStates(a);
    NormalizedStates(b);
    CombinedStates(x, y);
    NormalizedStates(Combined(x, y));
  }

  /** What a device is guessed to be, from its maker and model when nothing else is said. */
  function Guess(d: Device): string {
    if d.modelGuess == "" then Trim(d.manufacturer + " " + d.modelName) else d.modelGuess
  }

  lemma NormalizedGuess(d: Device)
    ensures Normalized(d).modelGuess == Guess(d)
    ensures d.modelGuess != "" ==> Normalized(d).modelGuess == d.modelGuess
  {
  }

  lemma CombinedGuess(a: Device, b: Device)
    ensures Combined(a, b).modelGuess == FirstNonEmpty(a.modelGuess, b.modelGuess)
  {
  }

  /** The first guess that is not blank stays. */
  lemma MergedGuess(a: Device, b: Device)
    ensures Trim(Guess(a)) != "" ==> Merged(a, b).modelGuess == Guess(a)
    ensures Trim(Guess(a)) == "" && Trim(Guess(b)) != "" ==> Merged(a, b).modelGuess == Guess(b)
  {
    var x, y := Normalized(a), Normalized(b);
    NormalizedGuess(a);
    NormalizedGuess(b);
    CombinedGuess(x, y);
    NormalizedGuess(Combined(x, y));
    assert Trim("") == "";
  }

  method Rejoin(known: Device, d: Device) returns (r: Device)
    ensures r == Merged(known, d)
  {
    r := MergeGatewayDevice(known, d);
  }

  method GroupDevices(devices: seq<Device>)
      returns (byIP: map<string, Device>, order: seq<string>, addressless: seq<Device>)
    ensures order == Order(ByAddress(), devices) && addressless == Keyless(ByAddress(), devices)
    ensures Holds(ByAddress(), devices, byIP) && forall ip :: ip in byIP <==> ip in order
  {
    ghost var ops := ByAddress();
    byIP, order, addressless := map[], [], [];
    for i := 0 to |devices|
      invariant order == Order(ops, devices[..i]) && addressless == Keyless(ops, devices[..i])
      invariant Holds(ops, devices[..i], byIP)
      invariant forall ip :: ip in byIP <==> ip in order
    {
      var d := devices[i];
      HoldsNext(ops, devices, i, byIP);
      assert devices[..i + 1][..i] == devices[..i];
      if d.ip == "" {
        addressless := addressless + [d];
        continue;
      }
      if d.ip !in byIP {
        var first := NormalizeGatewayDevice(d);
        byIP := byIP[d.ip := first];
        order := order + [d.ip];
        continue;
      }
      var merged := Rejoin(byIP[d.ip], d);
      byIP := byIP[d.ip := merged];
    }
    assert devices[..|devices|] == devices;
  }

  /** One device per address, in order of first sight, then the devices without one. */
  method MergeGatewayDevices(devices: seq<Device>) returns (out: seq<Device>)
    ensures IsMerge(ByAddress(), devices, out)
  {
    ghost var ops := ByAddress();
    var byIP, order, addressless := GroupDevices(devices);
    out := [];
    for i := 0 to |order|
      invariant |out| == i && forall k | 0 <= k < i :: MergedAt(ops, devices, order[k]) == [out[k]]
    {
      assert order[i] in order;
      out := out + [byIP[order[i]]];
    }
    out := out + addressless;
  }

  // ---- the list as a join ----

  function KnowsIt(f: Fact): Device -> bool {
    d => Knows(d, f)
  }

  function LevelOf(m: Measure): Device -> real {
    d => Level(d, m)
  }

  lemma KnowledgeJoins(f: Fact, m: Measure)
    ensures Joinable(ByAddress(), KnowsIt(f), LevelOf(m))
  {
    forall d: Device
      ensures KnowsIt(f)(ByAddress().norm(d)) == KnowsIt(f)(d) && LevelOf(m)(ByAddress().norm(d)) == LevelOf(m)(d)
    {
      NormalizedKnows(d, f);
      NormalizedLevel(d, m);
    }
    forall a: Device, b: Device
      ensures KnowsIt(f)(ByAddress().merge(a, b)) == (KnowsIt(f)(a) || KnowsIt(f)(b))
      ensures LevelOf(m)(ByAddress().merge(a, b)) == MaxReal(LevelOf(m)(a), LevelOf(m)(b))
    {
      MergedKnows(a, b, f);
      MergedLevel(a, b, m);
    }
  }

  /** At every address the merged device knows exactly what some device seen there knew, and has the best of
      every measure. */
  lemma MergeIsJoin(devices: seq<Device>, ip: string, f: Fact, m: Measure)
    requires MergedAt(ByAddress(), devices, ip) != []
    ensures IsJoin(ByAddress(), devices, ip, KnowsIt(f), LevelOf(m), MergedAt(ByAddress(), devices, ip)[0])
  {
    KnowledgeJoins(f, m);
    MergedAtIsJoin(ByAddress(), devices, ip, KnowsIt(f), LevelOf(m));
  }

  /** Reordering or repeating what the probes saw changes neither what is known at an address nor any measure. */
  lemma MergeOrderFree(xs: seq<Device>, ys: seq<Device>, ip: string, f: Fact, m: Measure)
    requires Elements(xs) == Elements(ys)
    ensures MergedAt(ByAddress(), xs, ip) == [] <==> MergedAt(ByAddress(), ys, ip) == []
    ensures MergedAt(ByAddress(), xs, ip) != [] ==>
              KnowsIt(f)(MergedAt(ByAddress(), xs, ip)[0]) == KnowsIt(f)(MergedAt(ByAddress(), ys, ip)[0])
    ensures MergedAt(ByAddress(), xs, ip) != [] ==>
              LevelOf(m)(MergedAt(ByAddress(), xs, ip)[0]) == LevelOf(m)(MergedAt(ByAddress(), ys, ip)[0])
  {
    KnowledgeJoins(f, m);
    assert forall d :: (d in xs <==> d in Elements(xs)) && (d in ys <==> d in Elements(ys));
    JoinOrderFree(ByAddress(), xs, ys, ip, KnowsIt(f), LevelOf(m));
  }

  predicate TriState(state: string) {
    state == "true" || state == "false" || state == "unknown"
  }

  /** A probe left the state empty or set it to one of the three. */
  predicate StateAcceptable(d: Device) {
    d.reachableState == "" || TriState(d.reachableState)
  }

  lemma SameLevelSameState(a: string, b: string)
    requires TriState(a) && TriState(b) && ReachLevel(a) == ReachLevel(b)
    ensures a == b
  {
  }

  /** So, with acceptable states coming in, the reachability state of an address does not depend on the order. */
  lemma ReachabilityOrderFree(xs: seq<Device>, ys: seq<Device>, ip: string)
    requires Elements(xs) == Elements(ys) && MergedAt(ByAddress(), xs, ip) != []
             && forall d | d in xs :: StateAcceptable(d)
    ensures MergedAt(ByAddress(), ys, ip) != []
    ensures MergedAt(ByAddress(), xs, ip)[0].reachableState == MergedAt(ByAddress(), ys, ip)[0].reachableState
  {
    MergeOrderFree(xs, ys, ip, Reachable, ReachState);
    forall d | d in ys ensures StateAcceptable(d) {
      assert d in Elements(ys) && d in Elements(xs);
    }
    StatesSettle(xs, ip);
    StatesSettle(ys, ip);
    SameLevelSameState(MergedAt(ByAddress(), xs, ip)[0].reachableState,
                       MergedAt(ByAddress(), ys, ip)[0].reachableState);
  }

  lemma StatesSettle(xs: seq<Device>, ip: string)
    requires MergedAt(ByAddress(), xs, ip) != [] && forall d | d in xs :: StateAcceptable(d)
    ensures var r := MergedAt(ByAddress(), xs, ip)[0];
            TriState(r.reachableState) && LevelOf(ReachState)(r) == ReachLevel(r.reachableState) as real
  {
    var ops := ByAddress();
    forall d: Device | StateAcceptable(d) ensures TriState(ops.norm(d).reachableState) {}
    forall a: Device, b: Device ensures TriState(ops.merge(a, b).reachableState) {
      MergedTriState(a, b);
    }
    HoldsOfMerged(ops, xs, ip, (d: Device) => StateAcceptable(d), (d: Device) => TriState(d.reachableState));
    AddressesSettle();
    MergedAtSound(ops, xs, ip);
    SettledLevel(MergedAt(ops, xs, ip)[0]);
  }

  lemma MergedTriState(a: Device, b: Device)
    ensures TriState(Merged(a, b).reachableState)
  {
  }

  lemma SettledLevel(d: Device)
    requires Normalized(d) == d
    ensures LevelOf(ReachState)(d) == ReachLevel(d.reachableState) as real
  {
  }
}
