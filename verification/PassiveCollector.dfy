/** The streaming collector of passive LAN observations, against the group-by it computes. */
module PassiveCollector {
  import opened Sorting
  import opened Text
  import opened Numbers

  datatype Observation = Observation(iface: string, sourceMAC: string, destinationMAC: string, etherType: nat,
                                     sourceIP: string, destinationIP: string,
                                     protocol: string, discovery: string, direction: string, timestamp: int)

  /** How the code reads addresses: multicast tests, and the discovery kind and direction it infers where none
      is given. */
  datatype Readers = Readers(multicast: string -> bool, discoveryKind: Observation -> string,
                             directionHint: Observation -> string)

  /** One end of an observation. */
  datatype Sighting = Sighting(key: string, mac: string, ip: string, iface: string, protocol: string, discovery: string,
                               direction: string, timestamp: int)

  datatype Host = Host(iface: string, mac: string, ips: seq<string>, protocols: seq<string>, discoveries: seq<string>,
                       packetCount: nat, firstSeen: int, lastSeen: int, direction: string)

  // ---- reading an observation ----

  function Dashes(s: string): string {
    seq(|s|, i requires 0 <= i < |s| => if s[i] == '-' then ':' else s[i])
  }

  function NormalizeMAC(raw: string): string {
    var m := Lower(Trim(Dashes(raw)));
    if m == "ff:ff:ff:ff:ff:ff" || m == "00:00:00:00:00:00" then "" else m
  }

  /** The observation as recorded; a zero timestamp becomes `now`. */
  function Normalized(readers: Readers, obs: Observation, now: int): Observation {
    var o := obs.(direction := if obs.direction == "" then readers.directionHint(obs) else obs.direction,
                  sourceMAC := NormalizeMAC(obs.sourceMAC), destinationMAC := NormalizeMAC(obs.destinationMAC),
                  sourceIP := Trim(obs.sourceIP), destinationIP := Trim(obs.destinationIP),
                  protocol := Lower(Trim(obs.protocol)), discovery := Lower(Trim(obs.discovery)),
                  timestamp := if obs.timestamp == 0 then now else obs.timestamp);
    o.(discovery := if o.discovery == "" then readers.discoveryKind(o) else o.discovery)
  }

  function EndpointKey(readers: Readers, mac: string, ip: string): string {
    if mac != "" then "mac:" + mac
    else if ip == "" || ip == "255.255.255.255" || readers.multicast(ip) then ""
    else "ip:" + ip
  }

  function SightingOf(readers: Readers, o: Observation, mac: string, ip: string): Sighting {
    Sighting(EndpointKey(readers, mac, ip), mac, ip, o.iface, o.protocol, o.discovery, o.direction, o.timestamp)
  }

  // ---- hosts ----

  function AppendUnique(values: seq<string>, value: string): seq<string> {
    var v := Trim(value);
    if v == "" || v in values then values else values + [v]
  }

  predicate Uninformative(direction: string) {
    direction == "" || direction == "unknown"
  }

  function Created(s: Sighting): Host {
    Host(s.iface, s.mac, [], [], [], 0, s.timestamp, 0, "")
  }

  /** A host with one more sighting. */
  function Updated(h: Host, s: Sighting): Host {
    h.(iface := if h.iface == "" then s.iface else h.iface,
       ips := AppendUnique(h.ips, s.ip), protocols := AppendUnique(h.protocols, s.protocol),
       discoveries := AppendUnique(h.discoveries, s.discovery),
       packetCount := h.packetCount + 1,
       firstSeen := if h.firstSeen == 0 then s.timestamp else MinInt(h.firstSeen, s.timestamp),
       lastSeen := MaxInt(h.lastSeen, s.timestamp),
       direction := if Uninformative(h.direction) then s.direction else h.direction)
  }

  // ---- the group-by ----

  function Strings(ss: seq<Sighting>, field: Sighting -> string): seq<string> {
    seq(|ss|, i requires 0 <= i < |ss| => Trim(field(ss[i])))
  }

  function IPOf(): Sighting -> string { (s: Sighting) => s.ip }
  function ProtocolOf(): Sighting -> string { (s: Sighting) => s.protocol }
  function DiscoveryOf(): Sighting -> string { (s: Sighting) => s.discovery }

  /** `list` holds the distinct non-blank values of the sightings; in order of first sight when `ordered`. */
  ghost predicate Distinguishes(list: seq<string>, values: seq<string>, ordered: bool) {
    && Distinct(list) && (forall x :: x in list <==> x in values && x != "")
    && (ordered ==> list == FirstSeen(values))
  }

  /** What the sightings of one key amount to. `ordered`: the host lists have not been handed out since. */
  ghost predicate IsGroup(h: Host, ss: seq<Sighting>, ordered: bool) {
    && ss != [] && h.packetCount == |ss| && h.mac == ss[0].mac
    && Distinguishes(h.ips, Strings(ss, IPOf()), ordered)
    && Distinguishes(h.protocols, Strings(ss, ProtocolOf()), ordered)
    && Distinguishes(h.discoveries, Strings(ss, DiscoveryOf()), ordered)
    && Spans(h, ss) && Described(h, ss)
  }

  /** First sighting the earliest, last sighting the latest (the zero time when none is later). */
  ghost predicate Spans(h: Host, ss: seq<Sighting>) {
    && (forall s | s in ss :: h.firstSeen <= s.timestamp <= h.lastSeen)
    && (exists s :: s in ss && s.timestamp == h.firstSeen)
    && h.lastSeen >= 0 && (h.lastSeen > 0 ==> exists s :: s in ss && s.timestamp == h.lastSeen)
    && h.firstSeen != 0
  }

  /** The first named interface; the first informative direction, failing that the last one given. */
  ghost predicate Described(h: Host, ss: seq<Sighting>) {
    && h.iface == FirstNamed(ss) && h.direction == DirectionOf(ss)
  }

  function FirstNamed(ss: seq<Sighting>): string {
    if ss == [] then "" else
    var before := FirstNamed(ss[..|ss| - 1]);
    if before == "" then ss[|ss| - 1].iface else before
  }

  function DirectionOf(ss: seq<Sighting>): string {
    if ss == [] then "" else
    var before := DirectionOf(ss[..|ss| - 1]);
    if Uninformative(before) then ss[|ss| - 1].direction else before
  }

  lemma DistinguishNext(list: seq<string>, values: seq<string>, ordered: bool, value: string)
    requires Distinguishes(list, values, ordered)
    ensures Distinguishes(AppendUnique(list, value), values + [Trim(value)], ordered)
  {
    var v, more := Trim(value), values + [Trim(value)];
    assert forall x :: x in more <==> x in values || x == v;
    assert more[..|values|] == values;
  }

  lemma StringsNext(ss: seq<Sighting>, s: Sighting, field: Sighting -> string)
    ensures Strings(ss + [s], field) == Strings(ss, field) + [Trim(field(s))]
  {
  }

  lemma DescribedNext(h: Host, ss: seq<Sighting>, s: Sighting)
    requires Described(h, ss)
    ensures Described(Updated(h, s), ss + [s])
  {
    assert (ss + [s])[..|ss|] == ss;
  }

  lemma SpansNext(h: Host, ss: seq<Sighting>, s: Sighting)
    requires Spans(h, ss) && s.timestamp != 0
    ensures Spans(Updated(h, s), ss + [s])
  {
    var t, more := Updated(h, s), ss + [s];
    assert forall x :: x in more <==> x in ss || x == s;
  }

  lemma GroupNext(h: Host, ss: seq<Sighting>, ordered: bool, s: Sighting)
    requires IsGroup(h, ss, ordered) && s.timestamp != 0
    ensures IsGroup(Updated(h, s), ss + [s], ordered)
  {
    StringsNext(ss, s, IPOf());
    StringsNext(ss, s, ProtocolOf());
    StringsNext(ss, s, DiscoveryOf());
    DistinguishNext(h.ips, Strings(ss, IPOf()), ordered, s.ip);
    DistinguishNext(h.protocols, Strings(ss, ProtocolOf()), ordered, s.protocol);
    DistinguishNext(h.discoveries, Strings(ss, DiscoveryOf()), ordered, s.discovery);
    DescribedNext(h, ss, s);
    SpansNext(h, ss, s);
  }

  lemma NothingDistinguished(ordered: bool)
    ensures Distinguishes([], [], ordered)
  {
  }

  lemma FirstSpan(s: Sighting)
    requires s.timestamp != 0
    ensures Spans(Updated(Created(s), s), [s]) && Described(Updated(Created(s), s), [s])
  {
    assert [s][..0] == [];
    assert s in [s];
  }

  lemma GroupFirst(s: Sighting, ordered: bool)
    requires s.timestamp != 0
    ensures IsGroup(Updated(Created(s), s), [s], ordered)
  {
    var none: seq<Sighting> := [];
    var nothing: seq<string> := [];
    StringsNext(none, s, IPOf());
    StringsNext(none, s, ProtocolOf());
    StringsNext(none, s, DiscoveryOf());
    assert none + [s] == [s];
    NothingDistinguished(ordered);
    DistinguishNext(nothing, nothing, ordered, s.ip);
    DistinguishNext(nothing, nothing, ordered, s.protocol);
    DistinguishNext(nothing, nothing, ordered, s.discovery);
    FirstSpan(s);
  }

  function Of(history: seq<Sighting>, key: string): seq<Sighting> {
    if history == [] then []
    else
      var before, last := Of(history[..|history| - 1], key), history[|history| - 1];
      if last.key == key then before + [last] else before
  }

  lemma OfNext(history: seq<Sighting>, s: Sighting, key: string)
    ensures Of(history + [s], key) == if s.key == key then Of(history, key) + [s] else Of(history, key)
  {
    assert (history + [s])[..|history|] == history;
  }

  /** Every key sighted has its host, and no other. */
  ghost predicate Groups(byKey: map<string, Host>, history: seq<Sighting>, ordered: bool) {
    && (forall key :: key in byKey <==> Of(history, key) != [])
    && (forall key | key in byKey :: IsGroup(byKey[key], Of(history, key), ordered))
  }

  function Taken(byKey: map<string, Host>, s: Sighting): map<string, Host> {
    byKey[s.key := Updated(if s.key in byKey then byKey[s.key] else Created(s), s)]
  }

  lemma GroupsNext(byKey: map<string, Host>, history: seq<Sighting>, ordered: bool, s: Sighting)
    requires Groups(byKey, history, ordered) && s.timestamp != 0
    ensures Groups(Taken(byKey, s), history + [s], ordered)
  {
    var after := Taken(byKey, s);
    forall key ensures key in after <==> Of(history + [s], key) != [] {
      OfNext(history, s, key);
    }
    forall key | key in after ensures IsGroup(after[key], Of(history + [s], key), ordered) {
      OfNext(history, s, key);
      if key == s.key {
        if key in byKey {
          GroupNext(byKey[key], Of(history, key), ordered, s);
        } else {
          GroupFirst(s, ordered);
          assert [] + [s] == [s];
        }
      }
    }
  }

  /** The sightings an observation records: source, then destination, each only if it has a key. */
  function Sightings(readers: Readers, obs: Observation, now: int): seq<Sighting> {
    var o := Normalized(readers, obs, now);
    var source := SightingOf(readers, o, o.sourceMAC, o.sourceIP);
    var destination := SightingOf(readers, o, o.destinationMAC, o.destinationIP);
    (if source.key != "" then [source] else []) + (if destination.key != "" then [destination] else [])
  }

  method Take(byKey: map<string, Host>, s: Sighting) returns (after: map<string, Host>)
    ensures after == Taken(byKey, s)
  {
    var h := Created(s);
    if s.key in byKey {
      h := byKey[s.key];
    }
    after := byKey[s.key := Updated(h, s)];
  }

  predicate HostLess(a: Host, b: Host) {
    if a.mac != b.mac then StringLess(a.mac, b.mac) else StringLess(JoinIPs(a.ips), JoinIPs(b.ips))
  }

  function JoinIPs(ips: seq<string>): string {
    if ips == [] then "" else if |ips| == 1 then ips[0] else ips[0] + "," + JoinIPs(ips[1..])
  }

  lemma HostOrder()
    ensures WeakOrder(HostLess)
  {
    forall a, b ensures !(HostLess(a, b) && HostLess(b, a)) {
      StringLessAsymmetric(a.mac, b.mac);
      StringLessAsymmetric(JoinIPs(a.ips), JoinIPs(b.ips));
    }
    forall a, b, c | !HostLess(b, a) && !HostLess(c, b) ensures !HostLess(c, a) {
      StringsTotal({a.mac, b.mac, c.mac});
      StringsTotal({JoinIPs(a.ips), JoinIPs(b.ips), JoinIPs(c.ips)});
    }
  }

  /** Handing a host out sorts its lists where they are stored. */
  function HandedOut(h: Host): Host {
    h.(ips := Sort(StringLess, h.ips), protocols := Sort(StringLess, h.protocols),
       discoveries := Sort(StringLess, h.discoveries))
  }

  ghost predicate ListsAscend(h: Host) {
    && Ascending(StringLess, h.ips) && Ascending(StringLess, h.protocols) && Ascending(StringLess, h.discoveries)
  }

  lemma SortDistinguishes(list: seq<string>, values: seq<string>, ordered: bool)
    requires Distinguishes(list, values, ordered)
    ensures Distinguishes(Sort(StringLess, list), values, false) && Ascending(StringLess, Sort(StringLess, list))
  {
    var sorted := Sort(StringLess, list);
    StringsTotal(Elements(list));
    SortAscending(StringLess, list);
    SortKeepsElements(StringLess, list);
    AscendingDistinct(StringLess, sorted);
    assert forall x :: (x in sorted <==> x in Elements(sorted)) && (x in list <==> x in Elements(list));
  }

  lemma HandedOutGroup(h: Host, ss: seq<Sighting>, ordered: bool)
    requires IsGroup(h, ss, ordered)
    ensures IsGroup(HandedOut(h), ss, false) && ListsAscend(HandedOut(h))
  {
    SortDistinguishes(h.ips, Strings(ss, IPOf()), ordered);
    SortDistinguishes(h.protocols, Strings(ss, ProtocolOf()), ordered);
    SortDistinguishes(h.discoveries, Strings(ss, DiscoveryOf()), ordered);
    assert Spans(HandedOut(h), ss) && Described(HandedOut(h), ss);
  }

  lemma HandedOutGroups(byKey: map<string, Host>, after: map<string, Host>, history: seq<Sighting>, ordered: bool)
    requires Groups(byKey, history, ordered) && after.Keys == byKey.Keys
             && forall k | k in byKey :: after[k] == HandedOut(byKey[k])
    ensures Groups(after, history, false) && forall k | k in after :: ListsAscend(after[k])
  {
    forall key | key in after ensures IsGroup(after[key], Of(history, key), false) && ListsAscend(after[key]) {
      HandedOutGroup(byKey[key], Of(history, key), ordered);
    }
  }

  class Collector {
    const readers: Readers
    var byKey: map<string, Host>
    ghost var history: seq<Sighting>
    ghost var ordered: bool

    ghost predicate Valid()
      reads this
    {
      Groups(byKey, history, ordered)
    }

    constructor (readers: Readers)
      ensures Valid() && history == [] && ordered && this.readers == readers
    {
      this.readers := readers;
      byKey, history, ordered := map[], [], true;
    }

    /** One observation: the hosts stay the group-by of everything recorded. */
    method Record(obs: Observation, now: int)
      requires Valid() && now != 0
      modifies this
      ensures Valid() && history == old(history) + Sightings(readers, obs, now) && ordered == old(ordered)
    {
      var o := Normalized(readers, obs, now);
      var source := SightingOf(readers, o, o.sourceMAC, o.sourceIP);
      var destination := SightingOf(readers, o, o.destinationMAC, o.destinationIP);
      KeyedPair(source, destination);
      byKey := TakeAll(byKey, [source, destination], history, ordered);
      history := history + Sightings(readers, obs, now);
    }

    /** The hosts, sorted by MAC and addresses. The lists inside come back sorted, and so do the collector's own. */
    method Hosts() returns (out: seq<Host>)
      requires Valid()
      modifies this
      ensures Valid() && history == old(history) && !ordered
      ensures byKey.Keys == old(byKey.Keys) && forall k | k in byKey :: byKey[k] == HandedOut(old(byKey)[k])
      ensures Ordered(HostLess, out) && |out| == |byKey| && forall h :: h in out <==> h in byKey.Values
      ensures forall h | h in out :: ListsAscend(h)
    {
      HandedOutGroups(byKey, map k | k in byKey :: HandedOut(byKey[k]), history, ordered);
      byKey := map k | k in byKey :: HandedOut(byKey[k]);
      ordered := false;
      out := ListHosts(byKey);
    }
  }

  function Keyed(ss: seq<Sighting>): seq<Sighting> {
    if ss == [] then []
    else Keyed(ss[..|ss| - 1]) + (if ss[|ss| - 1].key != "" then [ss[|ss| - 1]] else [])
  }

  lemma KeyedNext(ss: seq<Sighting>, i: nat)
    requires i < |ss|
    ensures Keyed(ss[..i + 1]) == Keyed(ss[..i]) + (if ss[i].key != "" then [ss[i]] else [])
  {
    assert ss[..i + 1][..i] == ss[..i];
  }

  lemma KeyedPair(a: Sighting, b: Sighting)
    ensures Keyed([a, b]) == (if a.key != "" then [a] else []) + (if b.key != "" then [b] else [])
  {
    assert [a, b][..1] == [a] && [a][..0] == [];
    assert Keyed([a]) == if a.key != "" then [a] else [];
  }

  lemma TakeNext(byKey: map<string, Host>, history: seq<Sighting>, ordered: bool, endpoints: seq<Sighting>, i: nat)
    requires i < |endpoints| && endpoints[i].timestamp != 0
    requires Groups(byKey, history + Keyed(endpoints[..i]), ordered)
    ensures endpoints[i].key == "" ==> Groups(byKey, history + Keyed(endpoints[..i + 1]), ordered)
    ensures endpoints[i].key != "" ==> Groups(Taken(byKey, endpoints[i]), history + Keyed(endpoints[..i + 1]), ordered)
  {
    var before, after := history + Keyed(endpoints[..i]), history + Keyed(endpoints[..i + 1]);
    KeyedNext(endpoints, i);
    if endpoints[i].key == "" {
      assert after == before;
    } else {
      assert after == before + [endpoints[i]];
      GroupsNext(byKey, before, ordered, endpoints[i]);
    }
  }

  method TakeAll(byKey: map<string, Host>, endpoints: seq<Sighting>, ghost history: seq<Sighting>, ghost ordered: bool)
    returns (after: map<string, Host>)
    requires Groups(byKey, history, ordered) && forall i | 0 <= i < |endpoints| :: endpoints[i].timestamp != 0
    ensures Groups(after, history + Keyed(endpoints), ordered)
  {
    after := byKey;
    assert history + Keyed(endpoints[..0]) == history;
    for i := 0 to |endpoints|
      invariant Groups(after, history + Keyed(endpoints[..i]), ordered)
    {
      TakeNext(after, history, ordered, endpoints, i);
      if endpoints[i].key == "" {
        continue;
      }
      after := Take(after, endpoints[i]);
    }
    assert endpoints[..|endpoints|] == endpoints;
  }

  method ListHosts(byKey: map<string, Host>) returns (out: seq<Host>)
    ensures Ordered(HostLess, out) && |out| == |byKey| && forall h :: h in out <==> h in byKey.Values
  {
    var order := InSomeOrder(byKey.Keys);
    assert forall k :: k in order <==> k in Elements(order);
    var list := [];
    for i := 0 to |order|
      invariant |list| == i && forall j | 0 <= j < i :: list[j] == byKey[order[j]]
    {
      assert order[i] in order;
      list := list + [byKey[order[i]]];
    }
    HostOrder();
    SortOrdered(HostLess, list);
    out := Sort(HostLess, list);
    assert |byKey| == |byKey.Keys|;
    forall h ensures h in out <==> h in byKey.Values {
      assert h in out <==> h in multiset(out);
      assert h in list <==> h in multiset(list);
      if h in byKey.Values {
        var k :| k in byKey && byKey[k] == h;
        var i :| 0 <= i < |order| && order[i] == k;
        assert list[i] == h;
      }
      if h in list {
        var i :| 0 <= i < |list| && list[i] == h;
        assert order[i] in order;
      }
    }
  }

  /** Handing a host out keeps its addresses in the order they were first seen exactly when that order was
      sorted already. */
  lemma HandedOutKeepsOrderExactly(h: Host)
    requires Distinct(h.ips)
    ensures HandedOut(h).ips == h.ips <==> Ascending(StringLess, h.ips)
  {
    var sorted := HandedOut(h).ips;
    StringsTotal(Elements(h.ips));
    SortAscending(StringLess, h.ips);
    SortKeepsElements(StringLess, h.ips);
    if Ascending(StringLess, h.ips) {
      AscendingUnique(StringLess, sorted, h.ips);
    }
  }

  // ---- what an observation is read as ----

  /** A sighting has no key exactly when it has neither a MAC nor an address of its own. */
  lemma KeylessExactly(readers: Readers, mac: string, ip: string)
    ensures EndpointKey(readers, mac, ip) == "" <==>
            mac == "" && (ip == "" || ip == "255.255.255.255" || readers.multicast(ip))
  {
  }

  /** Two sightings belong to one host exactly when they have the same MAC, or neither has one and they have the same
      address. */
  lemma KeysAgreeExactly(readers: Readers, mac: string, ip: string, mac': string, ip': string)
    requires EndpointKey(readers, mac, ip) != "" && EndpointKey(readers, mac', ip') != ""
    ensures EndpointKey(readers, mac, ip) == EndpointKey(readers, mac', ip') <==>
            mac == mac' && (mac == "" ==> ip == ip')
  {
    var k, k' := EndpointKey(readers, mac, ip), EndpointKey(readers, mac', ip');
    assert mac != "" ==> k[0] == 'm' && k[4..] == mac;
    assert mac == "" ==> k[0] == 'i' && k[3..] == ip;
    assert mac' != "" ==> k'[0] == 'm' && k'[4..] == mac';
    assert mac' == "" ==> k'[0] == 'i' && k'[3..] == ip';
  }

  /** A MAC that is spelled as the collector spells it stays; broadcast and null addresses are none. */
  lemma SpelledMACStays(raw: string)
    requires Trim(raw) == raw && '-' !in raw && forall c | c in raw :: !('A' <= c <= 'Z')
    ensures NormalizeMAC(raw) == if raw in {"ff:ff:ff:ff:ff:ff", "00:00:00:00:00:00"} then "" else raw
  {
    assert Dashes(raw) == raw;
    assert forall i | 0 <= i < |raw| :: raw[i] in raw;
    assert Lower(raw) == raw;
  }

  /** Dashes read as colons. */
  lemma DashesAreColons(raw: string, i: nat)
    requires i < |raw|
    ensures Dashes(raw)[i] == ':' <==> raw[i] in {'-', ':'}
    ensures raw[i] != '-' ==> Dashes(raw)[i] == raw[i]
  {
  }

  /** The rest of an observation, field by field. */
  lemma ReadAs(readers: Readers, obs: Observation, now: int)
    ensures var o := Normalized(readers, obs, now);
      && o.iface == obs.iface && o.etherType == obs.etherType
      && o.sourceMAC == NormalizeMAC(obs.sourceMAC) && o.destinationMAC == NormalizeMAC(obs.destinationMAC)
      && o.sourceIP == Trim(obs.sourceIP) && o.destinationIP == Trim(obs.destinationIP)
      && o.protocol == Lower(Trim(obs.protocol))
      && (Trim(obs.discovery) != "" ==> o.discovery == Lower(Trim(obs.discovery)))
      && (Trim(obs.discovery) == "" ==> o.discovery == readers.discoveryKind(o.(discovery := "")))
      && (obs.direction != "" ==> o.direction == obs.direction)
      && (obs.direction == "" ==> o.direction == readers.directionHint(obs))
      && (obs.timestamp != 0 ==> o.timestamp == obs.timestamp) && (obs.timestamp == 0 ==> o.timestamp == now)
  {
  }

  /** A direction that says something. */
  predicate Telling(direction: string) {
    direction !in {"", "unknown"}
  }

  ghost predicate FirstTelling(ss: seq<Sighting>, i: nat) {
    i < |ss| && Telling(ss[i].direction) && forall j | 0 <= j < i :: !Telling(ss[j].direction)
  }

  /** The direction is the first that says something, failing that the last given. */
  lemma {:induction false} DirectionMeans(ss: seq<Sighting>)
    ensures forall i: nat | FirstTelling(ss, i) :: DirectionOf(ss) == ss[i].direction
    ensures ss != [] && (forall j | 0 <= j < |ss| :: !Telling(ss[j].direction)) ==>
              DirectionOf(ss) == ss[|ss| - 1].direction
    ensures Telling(DirectionOf(ss)) <==> exists j | 0 <= j < |ss| :: Telling(ss[j].direction)
  {
    if ss != [] {
      var init := ss[..|ss| - 1];
      DirectionMeans(init);
      assert forall j | 0 <= j < |init| :: init[j] == ss[j];
      forall i: nat | FirstTelling(ss, i) ensures DirectionOf(ss) == ss[i].direction {
        assert i < |init| ==> FirstTelling(init, i);
      }
    }
  }

  /** The interface is the first one named. */
  lemma {:induction false} InterfaceMeans(ss: seq<Sighting>, i: nat)
    requires i < |ss| && ss[i].iface != "" && forall j | 0 <= j < i :: ss[j].iface == ""
    ensures FirstNamed(ss) == ss[i].iface
  {
    var init := ss[..|ss| - 1];
    assert forall j | 0 <= j < |init| :: init[j] == ss[j];
    if i < |init| {
      InterfaceMeans(init, i);
    } else {
      NoneNamed(init);
    }
  }

  lemma {:induction false} NoneNamed(ss: seq<Sighting>)
    requires forall j | 0 <= j < |ss| :: ss[j].iface == ""
    ensures FirstNamed(ss) == ""
  {
    if ss != [] {
      NoneNamed(ss[..|ss| - 1]);
    }
  }

  /** Hosts without a MAC are ordered by their addresses joined with commas. */
  lemma {:induction false} JoinedByCommas(ips: seq<string>, last: string)
    ensures JoinIPs([]) == "" && JoinIPs([last]) == last
    ensures ips != [] ==> JoinIPs(ips + [last]) == JoinIPs(ips) + "," + last
  {
    if |ips| == 1 {
      assert (ips + [last])[1..] == [last];
    } else if |ips| > 1 {
      JoinedByCommas(ips[1..], last);
      assert (ips + [last])[1..] == ips[1..] + [last];
    }
  }
}
