/** The device-intelligence store: devices by address, their services and failed attempts, and the
    observations all of them cite. */
module DeviceIntel {
  import opened Sorting
  import opened Text
  import D = DeviceMerger
  import opened Numbers

  datatype Service = Service(protocol: string, port: int, state: string, name: string, product: string,
                             confidence: real, evidenceIDs: seq<string>)

  datatype Attempt = Attempt(source: string, target: string, port: int, url: string, error: string, evidenceID: string)

  datatype Device = Device(id: string, ips: seq<string>, services: seq<Service>, attempts: seq<Attempt>,
                           evidenceIDs: seq<string>, confidence: real)

  datatype Observation = Observation(id: string, deviceID: string, kind: string, confidence: real)

  // ---- lists and numbers ----

  function FirstNonEmpty(a: string, b: string): string {
    if Trim(a) != "" then a else if Trim(b) != "" then b else ""
  }

  /** appendUnique: trimmed, non-blank, each once, in order of first sight. */
  function AppendUnique(values: seq<string>, next: seq<string>): seq<string> {
    FirstSeen(D.Trimmed(values + next))
  }

  /** An id list as the store keeps it: sorted, trimmed, no blanks. */
  ghost predicate Tidy(ids: seq<string>) {
    Ascending(StringLess, ids) && forall x | x in ids :: x != "" && Trim(x) == x
  }

  /** sortedUnique(append(ids, more...)) */
  function Cite(ids: seq<string>, more: seq<string>): seq<string> {
    D.UniqueSorted(ids + more)
  }

  lemma Trimming(all: seq<string>, r: seq<string>)
    requires forall x :: x in r <==> x != "" && exists i | 0 <= i < |all| :: Trim(all[i]) == x
    ensures forall x | x in r :: x != "" && Trim(x) == x && exists y :: y in all && Trim(y) == x
    ensures forall x | x in all && Trim(x) != "" :: Trim(x) in r
  {
    forall x | x in r ensures Trim(x) == x && exists y :: y in all && Trim(y) == x {
      var i :| 0 <= i < |all| && Trim(all[i]) == x;
      TrimIdempotent(all[i]);
      assert all[i] in all;
    }
    forall x | x in all && Trim(x) != "" ensures Trim(x) in r {
      var i :| 0 <= i < |all| && all[i] == x;
    }
  }

  lemma CiteIsTidy(ids: seq<string>, more: seq<string>)
    ensures Tidy(Cite(ids, more))
    ensures Tidy(ids) ==> forall x | x in ids :: x in Cite(ids, more)
    ensures forall x | x in more && Trim(x) != "" :: Trim(x) in Cite(ids, more)
    ensures forall x | x in Cite(ids, more) :: exists y :: (y in ids || y in more) && Trim(y) == x
  {
    var all, r := ids + more, Cite(ids, more);
    Trimming(all, r);
    assert forall x :: x in all <==> x in ids || x in more;
  }

  // ---- services ----

  function ProtocolKey(protocol: string): string {
    Lower(if protocol == "" then "tcp" else protocol)
  }

  /** What identifies a service on a device: the protocol without regard to case, and the port. */
  function ServiceKey(s: Service): (string, int) {
    (ProtocolKey(s.protocol), s.port)
  }

  predicate ServiceLess(a: Service, b: Service) {
    a.port < b.port || (a.port == b.port && StringLess(a.protocol, b.protocol))
  }

  /** One service per key, in the order of port and protocol. */
  ghost predicate Catalogued(services: seq<Service>) {
    && Ascending(ServiceLess, services)
    && forall a, b | a in services && b in services && ServiceKey(a) == ServiceKey(b) :: a == b
  }

  lemma ServicesTotal(s: set<Service>)
    requires forall a, b | a in s && b in s && ServiceKey(a) == ServiceKey(b) :: a == b
    ensures TotalOn(ServiceLess, s)
  {
    forall a, b | a in s && b in s && a != b
      ensures ServiceLess(a, b) || ServiceLess(b, a)
    {
      StringLessTotal(a.protocol, b.protocol);
    }
    forall a | a in s ensures !ServiceLess(a, a) { StringLessIrreflexive(a.protocol); }
    forall a, b, c | a in s && b in s && c in s && ServiceLess(a, b) && ServiceLess(b, c) ensures ServiceLess(a, c) {
      if a.port == c.port {
        StringLessTransitive(a.protocol, b.protocol, c.protocol);
      }
    }
  }

  /** The index of the service with the key, or the length of the list. */
  function Find(services: seq<Service>, key: (string, int)): (i: nat)
    ensures i <= |services|
    ensures i < |services| ==> ServiceKey(services[i]) == key
    ensures forall k | 0 <= k < i :: ServiceKey(services[k]) != key
  {
    if services == [] || ServiceKey(services[0]) == key then 0
    else 1 + Find(services[1..], key)
  }

  function StrongerState(existing: string, next: string): string {
    if Lower(existing) == "open" || existing == "" then FirstNonEmpty(existing, next)
    else if Lower(next) == "open" then next
    else existing
  }

  function Updated(s: Service, svc: Service): Service {
    s.(state := StrongerState(s.state, svc.state), name := FirstNonEmpty(s.name, svc.name),
       product := FirstNonEmpty(s.product, svc.product), confidence := MaxReal(s.confidence, svc.confidence),
       evidenceIDs := Cite(s.evidenceIDs, svc.evidenceIDs))
  }

  function Completed(svc: Service, defaultName: string): Service {
    svc.(protocol := if svc.protocol == "" then "tcp" else svc.protocol,
         state := if svc.state == "" then "open" else svc.state,
         name := if svc.name == "" then defaultName else svc.name,
         confidence := if svc.confidence == 0.0 then 0.75 else svc.confidence)
  }

  // ---- devices ----

  function Citing(d: Device, more: seq<string>): Device {
    d.(evidenceIDs := Cite(d.evidenceIDs, more))
  }

  /** AddService on a device, `svc` already completed. */
  function WithService(d: Device, svc: Service): Device {
    var i := Find(d.services, ServiceKey(svc));
    if i < |d.services| then Citing(d.(services := d.services[i := Updated(d.services[i], svc)]), svc.evidenceIDs)
    else
      var added := svc.(evidenceIDs := Cite([], svc.evidenceIDs));
      Citing(d.(services := Sort(ServiceLess, d.services + [added]), confidence := MaxReal(d.confidence, 0.70)),
             added.evidenceIDs)
  }

  predicate SameAttempt(a: Attempt, b: Attempt) {
    a.source == b.source && a.target == b.target && a.port == b.port && a.url == b.url && a.error == b.error
  }

  predicate Attempted(attempts: seq<Attempt>, a: Attempt) {
    exists i | 0 <= i < |attempts| :: SameAttempt(attempts[i], a)
  }

  function WithAttempt(d: Device, a: Attempt): Device {
    if Attempted(d.attempts, a) then d else Citing(d.(attempts := d.attempts + [a]), [a.evidenceID])
  }

  ghost predicate ServicesCited(d: Device) {
    forall s, x | s in d.services && x in s.evidenceIDs :: x in d.evidenceIDs
  }

  ghost predicate AttemptsCited(d: Device) {
    forall a | a in d.attempts :: a.evidenceID != ""
        && (Trim(a.evidenceID) != "" ==> Trim(a.evidenceID) in d.evidenceIDs)
  }

  ghost predicate Sound(d: Device) {
    && Tidy(d.evidenceIDs) && Catalogued(d.services) && (forall s | s in d.services :: Tidy(s.evidenceIDs))
    && ServicesCited(d) && AttemptsCited(d) && 0.0 <= d.confidence <= 1.0
  }

  /** Nothing known about the device is taken back. */
  ghost predicate Grows(d: Device, e: Device) {
    && d.id == e.id && d.confidence <= e.confidence
    && (forall x | x in d.evidenceIDs :: x in e.evidenceIDs)
    && (forall s | s in d.services :: exists t :: t in e.services && ServiceKey(t) == ServiceKey(s))
  }

  /** A failed attempt's evidence id is among the device's exactly when it carries no surrounding blanks. */
  lemma AttemptCitedExactly(d: Device, a: Attempt)
    requires Sound(d) && a in d.attempts
    ensures a.evidenceID in d.evidenceIDs <==> Trim(a.evidenceID) == a.evidenceID
  {
  }

  lemma CitingSound(d: Device, more: seq<string>)
    requires Sound(d)
    ensures Sound(Citing(d, more)) && Grows(d, Citing(d, more))
  {
    CiteIsTidy(d.evidenceIDs, more);
  }

  lemma AttemptSound(d: Device, a: Attempt)
    requires Sound(d) && a.evidenceID != ""
    ensures Sound(WithAttempt(d, a)) && Grows(d, WithAttempt(d, a))
    ensures Attempted(WithAttempt(d, a).attempts, a)
  {
    if !Attempted(d.attempts, a) {
      var e := WithAttempt(d, a);
      CiteIsTidy(d.evidenceIDs, [a.evidenceID]);
      assert [a.evidenceID][0] == a.evidenceID && a.evidenceID in [a.evidenceID];
      forall b | b in e.attempts
        ensures b.evidenceID != "" && (Trim(b.evidenceID) != "" ==> Trim(b.evidenceID) in e.evidenceIDs)
      {
        assert b in d.attempts || b == a;
      }
      assert e.attempts[|d.attempts|] == a;
    }
  }

  lemma UpdatedKey(s: Service, svc: Service)
    ensures ServiceKey(Updated(s, svc)) == ServiceKey(s) && Updated(s, svc).port == s.port
            && Updated(s, svc).protocol == s.protocol
  {
  }

  /** Replacing a service by one of the same port and protocol keeps the catalogue. */
  lemma CatalogueUpdate(services: seq<Service>, i: nat, s: Service)
    requires Catalogued(services) && i < |services| && s.port == services[i].port && s.protocol == services[i].protocol
    ensures Catalogued(services[i := s])
  {
    var after := services[i := s];
    forall j, k | 0 <= j < k < |after| ensures ServiceLess(after[j], after[k]) {
      assert ServiceLess(services[j], services[k]);
    }
    forall a, b | a in after && b in after && ServiceKey(a) == ServiceKey(b) ensures a == b {
      var j :| 0 <= j < |after| && after[j] == a;
      var k :| 0 <= k < |after| && after[k] == b;
      assert ServiceKey(services[j]) == ServiceKey(services[k]);
      assert services[j] in services && services[k] in services;
      if j != k {
        ServicesApart(services, j, k);
      }
    }
  }

  lemma ServicesApart(services: seq<Service>, j: nat, k: nat)
    requires Catalogued(services) && j < |services| && k < |services| && j != k
    ensures ServiceKey(services[j]) != ServiceKey(services[k])
  {
    var lo, hi := if j < k then j else k, if j < k then k else j;
    assert services[j] in services && services[k] in services;
    assert ServiceLess(services[lo], services[hi]);
    StringLessIrreflexive(services[lo].protocol);
  }

  lemma CatalogueInsert(services: seq<Service>, s: Service)
    requires Catalogued(services) && forall t | t in services :: ServiceKey(t) != ServiceKey(s)
    ensures Catalogued(Sort(ServiceLess, services + [s]))
    ensures forall t :: t in Sort(ServiceLess, services + [s]) <==> t in services || t == s
  {
    var all := services + [s];
    assert forall t :: t in all <==> t in services || t == s;
    ServicesTotal(Elements(all));
    forall i, j | 0 <= i < j < |all| ensures all[i] != all[j] {
      assert all[i] in services;
      if j < |services| {
        ServicesApart(services, i, j);
      }
    }
    SortAscending(ServiceLess, all);
    SortKeepsElements(ServiceLess, all);
    var sorted := Sort(ServiceLess, all);
    assert forall t :: (t in sorted <==> t in Elements(sorted)) && (t in all <==> t in Elements(all));
  }

  lemma UpdateSound(d: Device, svc: Service, i: nat)
    requires Sound(d) && i < |d.services|
    ensures var e := Citing(d.(services := d.services[i := Updated(d.services[i], svc)]), svc.evidenceIDs);
            Sound(e) && Grows(d, e)
  {
    var found := d.services[i];
    var s := Updated(found, svc);
    var after := d.services[i := s];
    var e := Citing(d.(services := after), svc.evidenceIDs);
    UpdatedKey(found, svc);
    CatalogueUpdate(d.services, i, s);
    CiteIsTidy(d.evidenceIDs, svc.evidenceIDs);
    CiteIsTidy(found.evidenceIDs, svc.evidenceIDs);
    assert found in d.services;
    forall t | t in after ensures t == s || t in d.services {
      var k :| 0 <= k < |after| && after[k] == t;
      assert k != i ==> t == d.services[k];
    }
    forall x | x in s.evidenceIDs ensures x in e.evidenceIDs {
      var y :| (y in found.evidenceIDs || y in svc.evidenceIDs) && Trim(y) == x;
    }
    forall t | t in d.services ensures exists u :: u in after && ServiceKey(u) == ServiceKey(t) {
      var k :| 0 <= k < |d.services| && d.services[k] == t;
      assert ServiceKey(after[k]) == ServiceKey(t) && after[k] in after;
    }
  }

  lemma InsertSound(d: Device, svc: Service)
    requires Sound(d) && Find(d.services, ServiceKey(svc)) == |d.services|
    ensures Sound(WithService(d, svc)) && Grows(d, WithService(d, svc))
    ensures exists s :: s in WithService(d, svc).services && ServiceKey(s) == ServiceKey(svc)
  {
    var ids := Cite([], svc.evidenceIDs);
    var added := svc.(evidenceIDs := ids);
    var e := WithService(d, svc);
    forall t | t in d.services ensures ServiceKey(t) != ServiceKey(added) {
      var k :| 0 <= k < |d.services| && d.services[k] == t;
    }
    CatalogueInsert(d.services, added);
    CiteIsTidy([], svc.evidenceIDs);
    CiteIsTidy(d.evidenceIDs, ids);
    assert added in e.services;
  }

  /** Adding a service keeps one service per key in order, every service's ids among the device's, and takes
      nothing back. */
  lemma ServiceSound(d: Device, svc: Service)
    requires Sound(d)
    ensures Sound(WithService(d, svc)) && Grows(d, WithService(d, svc))
    ensures exists s :: s in WithService(d, svc).services && ServiceKey(s) == ServiceKey(svc)
  {
    var i := Find(d.services, ServiceKey(svc));
    if i < |d.services| {
      UpdateSound(d, svc, i);
      UpdatedKey(d.services[i], svc);
      var s := WithService(d, svc).services[i];
      assert s in WithService(d, svc).services && ServiceKey(s) == ServiceKey(svc);
    } else {
      InsertSound(d, svc);
    }
  }

  // ---- the devices of a store ----

  function DeviceID(ip: string): string {
    "dev-" + ip
  }

  type Devices = map<string, Device>

  function NewDevice(ip: string): Device {
    Device(DeviceID(ip), AppendUnique([], [ip]), [], [], [], 0.0)
  }

  /** UpsertDevice: the device of the address, created on first mention. */
  function Upserted(devices: Devices, ip: string): Devices {
    var id := DeviceID(ip);
    if id !in devices then devices[id := NewDevice(ip)]
    else if ip != "" then devices[id := devices[id].(ips := AppendUnique(devices[id].ips, [ip]))]
    else devices
  }

  ghost predicate DevicesSound(devices: Devices) {
    forall k | k in devices :: Sound(devices[k]) && devices[k].id == k
  }

  ghost predicate DevicesGrow(before: Devices, after: Devices) {
    forall k | k in before :: k in after && Grows(before[k], after[k])
  }

  lemma DevicesGrowOn(a: Devices, b: Devices, c: Devices)
    requires DevicesGrow(a, b) && DevicesGrow(b, c)
    ensures DevicesGrow(a, c)
  {
    forall k | k in a ensures Grows(a[k], c[k]) {
      GrowsOn(a[k], b[k], c[k]);
    }
  }

  lemma GrowsOn(d: Device, e: Device, f: Device)
    requires Grows(d, e) && Grows(e, f)
    ensures Grows(d, f)
  {
    forall s | s in d.services ensures exists u :: u in f.services && ServiceKey(u) == ServiceKey(s) {
      var t :| t in e.services && ServiceKey(t) == ServiceKey(s);
      var u :| u in f.services && ServiceKey(u) == ServiceKey(t);
    }
  }

  /** Looking a device up creates it when it is new, and changes nothing known but the addresses of this one. */
  lemma UpsertKeeps(devices: Devices, ip: string, k: string)
    ensures k in Upserted(devices, ip) <==> k in devices || k == DeviceID(ip)
    ensures k in devices ==> Upserted(devices, ip)[k].(ips := devices[k].ips) == devices[k]
    ensures k in devices && k != DeviceID(ip) ==> Upserted(devices, ip)[k] == devices[k]
    ensures DeviceID(ip) !in devices ==> Upserted(devices, ip)[DeviceID(ip)] == NewDevice(ip)
    ensures Trim(ip) != "" ==> Trim(ip) in Upserted(devices, ip)[DeviceID(ip)].ips
  {
    AppendedIn(if DeviceID(ip) in devices then devices[DeviceID(ip)].ips else [], ip);
  }

  lemma AppendedIn(ips: seq<string>, ip: string)
    ensures Trim(ip) != "" ==> Trim(ip) in AppendUnique(ips, [ip])
    ensures ip == "" ==> Trim(ip) == ""
  {
    assert [ip][..0] == [];
  }

  lemma UpsertSound(devices: Devices, ip: string)
    requires DevicesSound(devices)
    ensures var after := Upserted(devices, ip);
            DevicesSound(after) && DeviceID(ip) in after && DevicesGrow(devices, after)
  {
    NewIsSound(ip);
    if DeviceID(ip) in devices {
      AddressSound(devices[DeviceID(ip)], ip);
    }
    forall k | k in devices ensures Grows(devices[k], Upserted(devices, ip)[k]) {
      GrowsItself(devices[k]);
    }
  }

  lemma NewIsSound(ip: string)
    ensures Sound(NewDevice(ip))
  {
  }

  lemma AddressSound(d: Device, ip: string)
    requires Sound(d)
    ensures Sound(d.(ips := AppendUnique(d.ips, [ip]))) && Grows(d, d.(ips := AppendUnique(d.ips, [ip])))
  {
  }

  lemma GrowsItself(d: Device)
    ensures Grows(d, d)
  {
  }

  /** Putting a grown, sound device back keeps the rest as it was. */
  lemma PutBack(devices: Devices, k: string, d: Device)
    requires DevicesSound(devices) && k in devices && Sound(d) && Grows(devices[k], d)
    ensures DevicesSound(devices[k := d]) && DevicesGrow(devices, devices[k := d])
  {
    forall j | j in devices ensures Grows(devices[j], devices[k := d][j]) {
      GrowsItself(devices[j]);
    }
  }

  // ---- the observations of a store ----

  function MintedID(n: nat): string {
    "di-ev-" + Decimal(n)
  }

  lemma MintedInjective(m: nat, n: nat)
    requires MintedID(m) == MintedID(n)
    ensures m == n
  {
    assert MintedID(m)[6..] == Decimal(m) && MintedID(n)[6..] == Decimal(n);
    DecimalInjective(m, n);
  }

  function IDs(observations: seq<Observation>): seq<string> {
    seq(|observations|, i requires 0 <= i < |observations| => observations[i].id)
  }

  /** No registered id looks like one the store has minted. */
  ghost predicate NoneMimicked(external: set<string>, minted: nat) {
    forall j | 1 <= j <= minted :: MintedID(j) !in external
  }

  /** The record of a store: what is seen is what was observed, minted or registered from outside, and ids repeat
      exactly when a registered id mimics a minted one. */
  ghost predicate LogSound(ids: seq<string>, minted: nat, seen: set<string>, external: set<string>) {
    && Elements(ids) == seen && external <= seen
    && (forall j | 1 <= j <= minted :: MintedID(j) in seen)
    && (forall x | x in seen :: x in external || exists j :: 1 <= j <= minted && x == MintedID(j))
    && (Distinct(ids) <==> NoneMimicked(external, minted))
  }

  lemma AppendDistinct(ids: seq<string>, id: string)
    ensures Distinct(ids + [id]) <==> Distinct(ids) && id !in ids
    ensures Elements(ids + [id]) == Elements(ids) + {id}
  {
    var all := ids + [id];
    assert all[|ids|] == id;
    if Distinct(all) {
      forall i, j | 0 <= i < j < |ids| ensures ids[i] != ids[j] {
        assert all[i] != all[j];
      }
      forall i | 0 <= i < |ids| ensures ids[i] != id {
        assert all[i] != all[|ids|];
      }
    }
  }

  lemma LogMint(ids: seq<string>, minted: nat, seen: set<string>, external: set<string>)
    requires LogSound(ids, minted, seen, external)
    ensures LogSound(ids + [MintedID(minted + 1)], minted + 1, seen + {MintedID(minted + 1)}, external)
  {
    var id := MintedID(minted + 1);
    AppendDistinct(ids, id);
    if id in seen && id !in external {
      var j :| 1 <= j <= minted && id == MintedID(j);
      MintedInjective(minted + 1, j);
      assert false;
    }
    assert id in ids <==> id in Elements(ids);
    assert NoneMimicked(external, minted + 1) <==> NoneMimicked(external, minted) && id !in external;
    forall x | x in seen + {id} ensures x in external || exists j :: 1 <= j <= minted + 1 && x == MintedID(j) {
      if x in seen && x !in external {
        var j :| 1 <= j <= minted && x == MintedID(j);
      }
    }
  }

  lemma LogRegister(ids: seq<string>, minted: nat, seen: set<string>, external: set<string>, id: string)
    requires LogSound(ids, minted, seen, external) && id !in seen
    ensures LogSound(ids + [id], minted, seen + {id}, external + {id})
  {
    AppendDistinct(ids, id);
    assert id in ids <==> id in Elements(ids);
    assert NoneMimicked(external + {id}, minted) <==> NoneMimicked(external, minted);
  }

  lemma IDsAppend(observations: seq<Observation>, o: Observation)
    ensures IDs(observations + [o]) == IDs(observations) + [o.id]
  {
  }

  /** Registering the id the store is about to mint makes two observations share it. */
  lemma MimickedIDRepeats(ids: seq<string>, minted: nat, seen: set<string>, external: set<string>, id: string)
    requires LogSound(ids, minted, seen, external) && id == MintedID(minted + 1) && id !in seen
    ensures LogSound(ids + [id] + [id], minted + 1, seen + {id}, external + {id}) && !Distinct(ids + [id] + [id])
  {
    LogRegister(ids, minted, seen, external, id);
    LogMint(ids + [id], minted, seen + {id}, external + {id});
    assert seen + {id} + {id} == seen + {id};
    var twice := ids + [id] + [id];
    assert twice[|ids|] == twice[|ids| + 1];
  }

  // ---- the store ----

  class EvidenceStore {
    const serviceName: int -> string
    var devices: Devices
    var observations: seq<Observation>
    var minted: nat
    var seen: set<string>
    ghost var external: set<string>

    ghost predicate Recorded()
      reads this
    {
      LogSound(IDs(observations), minted, seen, external)
    }

    ghost predicate Valid()
      reads this
    {
      DevicesSound(devices) && Recorded()
    }

    constructor (serviceName: int -> string)
      ensures Valid() && devices == map[] && observations == [] && external == {}
    {
      this.serviceName := serviceName;
      devices, observations, minted, seen, external := map[], [], 0, {}, {};
    }

    /** Evidence registered from outside keeps its own id, once. */
    method RegisterEvidence(id: string, kind: string, deviceID: string, confidence: real) returns (r: string)
      requires Valid()
      modifies `observations, `seen, `external
      ensures Valid() && r == id
      ensures id == "" || id in old(seen) ==> observations == old(observations) && external == old(external)
      ensures id != "" && id !in old(seen) ==>
                observations == old(observations) + [Observation(id, deviceID, kind, Clamp01(confidence))]
                    && external == old(external) + {id}
    {
      if id == "" {
        return "";
      }
      if id in seen {
        return id;
      }
      var o := Observation(id, deviceID, kind, Clamp01(confidence));
      LogRegister(IDs(observations), minted, seen, external, id);
      IDsAppend(observations, o);
      observations := observations + [o];
      seen := seen + {id};
      external := external + {id};
      r := id;
    }

    method Mint(deviceID: string, kind: string, confidence: real) returns (id: string)
      requires Recorded()
      modifies `observations, `minted, `seen
      ensures Recorded() && id == MintedID(old(minted) + 1) && minted == old(minted) + 1
      ensures observations == old(observations) + [Observation(id, deviceID, kind, Clamp01(confidence))]
    {
      LogMint(IDs(observations), minted, seen, external);
      minted := minted + 1;
      id := MintedID(minted);
      var o := Observation(id, deviceID, kind, Clamp01(confidence));
      IDsAppend(observations, o);
      observations := observations + [o];
      seen := seen + {id};
    }

    method AddObservation(ip: string, kind: string, confidence: real) returns (id: string)
      requires Valid()
      modifies `devices, `observations, `minted, `seen
      ensures Valid() && id == MintedID(old(minted) + 1) && minted == old(minted) + 1
      ensures observations == old(observations)
              + [Observation(id, if ip != "" then DeviceID(ip) else "", kind, Clamp01(confidence))]
      ensures ip == "" ==> devices == old(devices)
      ensures ip != "" ==>
                var there := Upserted(old(devices), ip);
                devices == there[DeviceID(ip) := Citing(there[DeviceID(ip)], [id])]
      ensures DevicesGrow(old(devices), devices)
    {
      id := Mint(if ip != "" then DeviceID(ip) else "", kind, confidence);
      if ip != "" {
        devices := CiteAt(devices, ip, [id]);
      } else {
        DevicesGrowNot(devices);
      }
    }

    method AddFailedAttempt(ip: string, attempt: Attempt)
      requires Valid()
      modifies `devices, `observations, `minted, `seen
      ensures Valid() && DevicesGrow(old(devices), devices)
      ensures DeviceID(ip) in devices
      ensures Attempted(devices[DeviceID(ip)].attempts,
                        attempt.(target := if attempt.target == "" then ip else attempt.target))
      ensures old(observations) <= observations && (attempt.evidenceID != "" ==> observations == old(observations))
    {
      ghost var start := devices;
      UpsertSound(devices, ip);
      devices := Upserted(devices, ip);
      var a := attempt;
      if a.target == "" {
        a := a.(target := ip);
      }
      if a.evidenceID == "" {
        ghost var before := devices;
        var id := AddObservation(ip, "probe_failure", 0.05);
        DevicesGrowOn(start, before, devices);
        a := a.(evidenceID := id);
      }
      ghost var before := devices;
      devices := AttemptAt(devices, DeviceID(ip), a);
      DevicesGrowOn(start, before, devices);
    }

    method AddIP(ip: string, evidenceID: string, confidence: real)
      requires Valid()
      modifies `devices
      ensures Valid() && DevicesGrow(old(devices), devices)
      ensures DeviceID(ip) in devices && devices[DeviceID(ip)].confidence >= Clamp01(confidence)
      ensures Trim(evidenceID) != "" ==> Trim(evidenceID) in devices[DeviceID(ip)].evidenceIDs
    {
      devices := IPAt(devices, ip, evidenceID, confidence);
    }

    method AddService(ip: string, svc: Service)
      requires Valid()
      modifies `devices
      ensures Valid() && DevicesGrow(old(devices), devices)
      ensures var there := Upserted(old(devices), ip);
              devices == there[DeviceID(ip) := WithService(there[DeviceID(ip)], Completed(svc, serviceName(svc.port)))]
      ensures exists s ::
                && s in devices[DeviceID(ip)].services
                && ServiceKey(s) == ServiceKey(Completed(svc, serviceName(svc.port)))
    {
      devices := ServiceAt(devices, ip, Completed(svc, serviceName(svc.port)));
    }
  }

  lemma DevicesGrowNot(devices: Devices)
    ensures DevicesGrow(devices, devices)
  {
    forall k | k in devices ensures Grows(devices[k], devices[k]) {
      GrowsItself(devices[k]);
    }
  }

  method ServiceAt(devices: Devices, ip: string, svc: Service) returns (after: Devices)
    requires DevicesSound(devices)
    ensures DevicesSound(after) && DevicesGrow(devices, after) && DeviceID(ip) in after
    ensures var there := Upserted(devices, ip); after == there[DeviceID(ip) := WithService(there[DeviceID(ip)], svc)]
    ensures exists s :: s in after[DeviceID(ip)].services && ServiceKey(s) == ServiceKey(svc)
  {
    UpsertSound(devices, ip);
    var there := Upserted(devices, ip);
    ServiceSound(there[DeviceID(ip)], svc);
    PutBack(there, DeviceID(ip), WithService(there[DeviceID(ip)], svc));
    after := there[DeviceID(ip) := WithService(there[DeviceID(ip)], svc)];
    DevicesGrowOn(devices, there, after);
  }

  method CiteAt(devices: Devices, ip: string, ids: seq<string>) returns (after: Devices)
    requires DevicesSound(devices)
    ensures DevicesSound(after) && DevicesGrow(devices, after) && DeviceID(ip) in after
    ensures var there := Upserted(devices, ip); after == there[DeviceID(ip) := Citing(there[DeviceID(ip)], ids)]
  {
    UpsertSound(devices, ip);
    var there := Upserted(devices, ip);
    CitingSound(there[DeviceID(ip)], ids);
    PutBack(there, DeviceID(ip), Citing(there[DeviceID(ip)], ids));
    after := there[DeviceID(ip) := Citing(there[DeviceID(ip)], ids)];
    DevicesGrowOn(devices, there, after);
  }

  method AttemptAt(devices: Devices, key: string, a: Attempt) returns (after: Devices)
    requires DevicesSound(devices) && key in devices && a.evidenceID != ""
    ensures DevicesSound(after) && DevicesGrow(devices, after)
    ensures key in after && Attempted(after[key].attempts, a)
  {
    var d := devices[key];
    AttemptSound(d, a);
    PutBack(devices, key, WithAttempt(d, a));
    after := devices[key := WithAttempt(d, a)];
  }

  method IPAt(devices: Devices, ip: string, evidenceID: string, confidence: real) returns (after: Devices)
    requires DevicesSound(devices)
    ensures DevicesSound(after) && DevicesGrow(devices, after)
    ensures DeviceID(ip) in after && after[DeviceID(ip)].confidence >= Clamp01(confidence)
    ensures Trim(evidenceID) != "" ==> Trim(evidenceID) in after[DeviceID(ip)].evidenceIDs
  {
    var there;
    if evidenceID == "" {
      UpsertSound(devices, ip);
      there := Upserted(devices, ip);
    } else {
      there := CiteAt(devices, ip, [evidenceID]);
      CitedOne(Upserted(devices, ip)[DeviceID(ip)], evidenceID);
    }
    after := SurerAt(there, DeviceID(ip), Clamp01(confidence));
    DevicesGrowOn(devices, there, after);
  }

  lemma CitedOne(d: Device, evidenceID: string)
    ensures Trim(evidenceID) != "" ==> Trim(evidenceID) in Citing(d, [evidenceID]).evidenceIDs
  {
    CiteIsTidy(d.evidenceIDs, [evidenceID]);
    assert evidenceID in [evidenceID];
  }

  method SurerAt(devices: Devices, key: string, confidence: real) returns (after: Devices)
    requires DevicesSound(devices) && key in devices && confidence <= 1.0
    ensures DevicesSound(after) && DevicesGrow(devices, after)
    ensures key in after && after[key] == devices[key].(confidence := MaxReal(devices[key].confidence, confidence))
  {
    var d := devices[key];
    var surer := d.(confidence := MaxReal(d.confidence, confidence));
    SurerSound(d, surer.confidence);
    PutBack(devices, key, surer);
    after := devices[key := surer];
  }

  lemma SurerSound(d: Device, c: real)
    requires Sound(d) && d.confidence <= c <= 1.0
    ensures Sound(d.(confidence := c)) && Grows(d, d.(confidence := c))
  {
  }

  // ---- what a service becomes ----

  /** The first of two texts that is not blank. */
  lemma FirstNonEmptyMeans(a: string, b: string)
    ensures Trim(a) != "" ==> FirstNonEmpty(a, b) == a
    ensures Trim(a) == "" && Trim(b) != "" ==> FirstNonEmpty(a, b) == b
    ensures Trim(a) == "" && Trim(b) == "" ==> FirstNonEmpty(a, b) == ""
  {
  }

  lemma OpenIsNotBlank(state: string)
    requires Lower(state) == "open"
    ensures Trim(state) != ""
  {
    assert Lower(state)[0] == 'o' && state[0] in {'o', 'O'};
    var i, j := TrimCuts(state);
    assert !IsSpace(state[0]);
  }

  /** A port seen open stays open; otherwise the first state given stays. */
  lemma OpenStays(existing: string, next: string)
    ensures Lower(StrongerState(existing, next)) == "open" <==> Lower(existing) == "open" || Lower(next) == "open"
    ensures Lower(existing) == "open" ==> StrongerState(existing, next) == existing
    ensures Lower(existing) != "open" && Lower(next) != "open" && existing != "" ==>
              StrongerState(existing, next) == existing
    ensures existing == "" && Trim(next) != "" ==> StrongerState(existing, next) == next
  {
    if Lower(existing) == "open" {
      OpenIsNotBlank(existing);
    }
    if Lower(next) == "open" {
      OpenIsNotBlank(next);
    }
    assert Lower("") == "" && Trim("") == "";
  }

  /** A service reported again keeps its key, name and product, takes the better confidence and cites both reports. */
  lemma UpdatedMeans(s: Service, svc: Service)
    ensures var u := Updated(s, svc);
      && u.protocol == s.protocol && u.port == s.port && u.state == StrongerState(s.state, svc.state)
      && (Trim(s.name) != "" ==> u.name == s.name)
      && (Trim(s.name) == "" && Trim(svc.name) != "" ==> u.name == svc.name)
      && (Trim(s.product) != "" ==> u.product == s.product)
      && (Trim(s.product) == "" && Trim(svc.product) != "" ==> u.product == svc.product)
      && u.confidence == (if s.confidence >= svc.confidence then s.confidence else svc.confidence)
      && (forall x | x in svc.evidenceIDs && Trim(x) != "" :: Trim(x) in u.evidenceIDs)
      && (Tidy(s.evidenceIDs) ==> forall x | x in s.evidenceIDs :: x in u.evidenceIDs)
  {
    CiteIsTidy(s.evidenceIDs, svc.evidenceIDs);
  }

  /** What a reported service is completed with: TCP, open, the usual name of the port and a confidence of 0.75. */
  lemma CompletedMeans(svc: Service, usual: string)
    ensures var c := Completed(svc, usual);
      && c.port == svc.port && c.product == svc.product && c.evidenceIDs == svc.evidenceIDs
      && (if svc.protocol == "" then c.protocol == "tcp" else c.protocol == svc.protocol)
      && (if svc.state == "" then c.state == "open" else c.state == svc.state)
      && (if svc.name == "" then c.name == usual else c.name == svc.name)
      && (if svc.confidence == 0.0 then c.confidence == 0.75 else c.confidence == svc.confidence)
  {
  }

  /** Services have one key exactly when they have one port and their protocols differ in letter case at most, no
      protocol standing for TCP. */
  lemma SameKeyExactly(a: Service, b: Service)
    requires a.protocol != ""
    ensures ServiceKey(a) == ServiceKey(b) <==>
            a.port == b.port && Lower(a.protocol) == (if b.protocol == "" then "tcp" else Lower(b.protocol))
  {
    assert Lower("tcp") == "tcp";
  }

  /** A device that gains a service is at least 0.70 sure; one that hears of it again is as sure as before. */
  lemma ConfidenceWithService(d: Device, svc: Service)
    ensures var known := exists s :: s in d.services && ServiceKey(s) == ServiceKey(svc);
            WithService(d, svc).confidence
            == if known || d.confidence >= 0.70 then d.confidence else 0.70
    ensures NewDevice(d.id).confidence == 0.0
  {
    var i := Find(d.services, ServiceKey(svc));
    if i < |d.services| {
      assert d.services[i] in d.services;
    } else {
      assert forall k | 0 <= k < |d.services| :: ServiceKey(d.services[k]) != ServiceKey(svc);
    }
  }
}
