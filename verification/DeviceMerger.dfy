/** Merging the devices every probe reported into one device per identity, by MAC first and by IP
    second, with two indexes from addresses to identities. */
module DeviceMerger {
  import opened Text
  import opened Sorting

  datatype Device = Device(id: string, ips: seq<string>, macs: seq<string>, hostnames: seq<string>)

  /** A device as one probe saw it: its addresses untrimmed, and whether it is an ISP hop. */
  datatype Observation = Observation(device: Device, ispHop: bool)

  // ---- address lists ----

  function Trimmed(xs: seq<string>): (r: seq<string>)
    ensures |r| == |xs|
  {
    seq(|xs|, i requires 0 <= i < |xs| => Trim(xs[i]))
  }

  function UniqueSorted(xs: seq<string>): (r: seq<string>)
    ensures Ascending(StringLess, r)
    ensures forall x :: x in r <==> x != "" && exists i | 0 <= i < |xs| :: Trim(xs[i]) == x
  {
    var t := Trimmed(xs);
    assert forall x :: x in t <==> exists i | 0 <= i < |xs| :: Trim(xs[i]) == x by {
      forall i | 0 <= i < |xs| ensures Trim(xs[i]) in t { assert t[i] == Trim(xs[i]); }
    }
    SortedSet(t)
  }

  function NormalizeMACs(xs: seq<string>): seq<string> {
    if xs == [] then []
    else
      var init, mac := NormalizeMACs(xs[..|xs| - 1]), Lower(Trim(xs[|xs| - 1]));
      if mac != "" then init + [mac] else init
  }

  function TrimmedIPs(d: Device): set<string> {
    set x | x in UniqueSorted(d.ips)
  }

  function MACs(d: Device): set<string> {
    set x | x in UniqueSorted(NormalizeMACs(d.macs))
  }

  // ---- the merge ----

  datatype State = State(byKey: map<string, Device>, ipToKey: map<string, string>, macToKey: map<string, string>)

  const Empty := State(map[], map[], map[])

  /** The first of `xs` with an entry in `index`, looked up there; "" when there is none. */
  function FirstKnown(xs: seq<string>, index: map<string, string>): string {
    if xs == [] then ""
    else if xs[0] in index && index[xs[0]] != "" then index[xs[0]]
    else FirstKnown(xs[1..], index)
  }

  function MergeKey(d: Device, s: State): string {
    var macs := NormalizeMACs(d.macs);
    if FirstKnown(macs, s.macToKey) != "" then FirstKnown(macs, s.macToKey)
    else if FirstKnown(d.ips, s.ipToKey) != "" then FirstKnown(d.ips, s.ipToKey)
    else if |macs| > 0 then "mac_" + macs[0]
    else if |d.ips| > 0 then "ip_" + d.ips[0]
    else d.id
  }

  predicate PublicOnly(o: Observation, isPrivate: string -> bool) {
    |o.device.ips| > 0 && (forall i | 0 <= i < |o.device.ips| :: !isPrivate(o.device.ips[i])) && !o.ispHop
  }

  /** The merge takes the observation in: it is not public-only and has some identity. */
  predicate Accepted(o: Observation, isPrivate: string -> bool) {
    && !PublicOnly(o, isPrivate)
    && (NormalizeMACs(o.device.macs) != [] || o.device.ips != [] || o.device.id != "")
  }

  /** The stored device under `key` once `d` has been merged into it. */
  function Merged(s: State, key: string, d: Device): Device {
    if key in s.byKey then
      var dst := s.byKey[key];
      dst.(ips := UniqueSorted(dst.ips + d.ips),
           macs := UniqueSorted(dst.macs + NormalizeMACs(d.macs)),
           hostnames := UniqueSorted(dst.hostnames + d.hostnames))
    else
      Device(d.id, UniqueSorted(d.ips), UniqueSorted(NormalizeMACs(d.macs)), UniqueSorted(d.hostnames))
  }

  function Point(index: map<string, string>, addresses: seq<string>, key: string): map<string, string> {
    index + map a | a in addresses :: key
  }

  function Step(s: State, o: Observation, isPrivate: string -> bool): State {
    var key := MergeKey(o.device, s);
    if PublicOnly(o, isPrivate) || key == "" then s
    else
      var dst := Merged(s, key, o.device);
      State(s.byKey[key := dst], Point(s.ipToKey, dst.ips, key), Point(s.macToKey, dst.macs, key))
  }

  function MergeAll(os: seq<Observation>, isPrivate: string -> bool): State {
    if os == [] then Empty else Step(MergeAll(os[..|os| - 1], isPrivate), os[|os| - 1], isPrivate)
  }

  function Flatten(results: seq<seq<Observation>>): seq<Observation> {
    if results == [] then [] else Flatten(results[..|results| - 1]) + results[|results| - 1]
  }

  // ---- index soundness ----

  function IPsHeld(s: State): map<string, set<string>> {
    map k | k in s.byKey :: Elements(s.byKey[k].ips)
  }

  function MACsHeld(s: State): map<string, set<string>> {
    map k | k in s.byKey :: Elements(s.byKey[k].macs)
  }

  /** Each index entry names a live device holding that address, and every held address is indexed. */
  ghost predicate IndexSound(index: map<string, string>, held: map<string, set<string>>) {
    && (forall a | a in index :: index[a] != "" && index[a] in held && a in held[index[a]])
    && (forall k, a | k in held && a in held[k] :: a in index)
  }

  predicate CanonicalAddress(a: string) {
    a != "" && Trim(a) == a
  }

  ghost predicate Sound(s: State) {
    && IndexSound(s.ipToKey, IPsHeld(s))
    && IndexSound(s.macToKey, MACsHeld(s))
    && (forall k, a | k in s.byKey && (a in s.byKey[k].ips || a in s.byKey[k].macs) :: CanonicalAddress(a))
  }

  /** What one observation adds to the addresses held under `key`. */
  function Grow(held: map<string, set<string>>, key: string, added: set<string>): map<string, set<string>> {
    held[key := (if key in held then held[key] else {}) + added]
  }

  lemma GrowKeepsIndexSound(index: map<string, string>, held: map<string, set<string>>, key: string,
                            added: set<string>, addresses: seq<string>)
    requires IndexSound(index, held) && key != ""
    requires Elements(addresses) == Grow(held, key, added)[key]
    ensures IndexSound(Point(index, addresses, key), Grow(held, key, added))
  {
    assert forall a :: a in addresses <==> a in Elements(addresses);
  }

  lemma LowerTrimmed(x: string)
    ensures Trim(Lower(Trim(x))) == Lower(Trim(x))
  {
    TrimIdempotent(x);
    var t := Trim(x);
    if t != "" {
      TrimmedEnds(x);
      assert forall i | 0 <= i < |t| :: IsSpace(Lower(t)[i]) == IsSpace(t[i]);
    }
  }

  lemma TrimmedEnds(x: string)
    requires Trim(x) != ""
    ensures !IsSpace(Trim(x)[0]) && !IsSpace(Trim(x)[|Trim(x)| - 1])
  {
    assert Trim(x)[0] == TrimLeft(x)[0];
  }

  lemma {:induction false} NormalizedCanonical(macs: seq<string>)
    ensures forall m | m in NormalizeMACs(macs) :: CanonicalAddress(m)
  {
    if macs != [] {
      NormalizedCanonical(macs[..|macs| - 1]);
      LowerTrimmed(macs[|macs| - 1]);
    }
  }

  lemma UniqueSortedCanonical(xs: seq<string>)
    ensures forall x | x in UniqueSorted(xs) :: CanonicalAddress(x)
  {
    forall x | x in UniqueSorted(xs) ensures CanonicalAddress(x) {
      var i :| 0 <= i < |xs| && Trim(xs[i]) == x;
      TrimIdempotent(xs[i]);
    }
  }

  /** Sorting once more what is already canonical only adds the other list's addresses. */
  lemma UniqueSortedJoin(stored: seq<string>, more: seq<string>)
    requires forall a | a in stored :: CanonicalAddress(a)
    ensures Elements(UniqueSorted(stored + more)) == Elements(stored) + Elements(UniqueSorted(more))
  {
    var c := stored + more;
    forall x ensures x in UniqueSorted(c) <==> x in stored || x in UniqueSorted(more) {
      if x in UniqueSorted(c) {
        var i :| 0 <= i < |c| && Trim(c[i]) == x;
        assert if i < |stored| then c[i] == stored[i] && stored[i] in stored else c[i] == more[i - |stored|];
      }
      if x in stored {
        var i :| 0 <= i < |stored| && stored[i] == x;
        assert c[i] == x && Trim(c[i]) == x;
      }
      if x in UniqueSorted(more) {
        var i :| 0 <= i < |more| && Trim(more[i]) == x;
        assert c[|stored| + i] == more[i];
      }
    }
  }

  lemma UniqueSortedSelf(stored: seq<string>)
    requires forall a | a in stored :: CanonicalAddress(a)
    ensures Elements(UniqueSorted(stored)) == Elements(stored)
  {
    UniqueSortedJoin(stored, []);
    assert stored + [] == stored;
    assert Elements(UniqueSorted([])) == {};
  }

  lemma AcceptedHasKey(s: State, o: Observation, isPrivate: string -> bool)
    ensures Accepted(o, isPrivate) <==> !PublicOnly(o, isPrivate) && MergeKey(o.device, s) != ""
  {
    var macs := NormalizeMACs(o.device.macs);
    if macs == [] && o.device.ips == [] {
      assert FirstKnown(macs, s.macToKey) == "" && FirstKnown(o.device.ips, s.ipToKey) == "";
    }
  }

  lemma MergedAddresses(s: State, key: string, d: Device)
    requires Sound(s)
    ensures Elements(Merged(s, key, d).ips) == Grow(IPsHeld(s), key, TrimmedIPs(d))[key]
    ensures Elements(Merged(s, key, d).macs) == Grow(MACsHeld(s), key, MACs(d))[key]
    ensures forall a | a in Merged(s, key, d).ips || a in Merged(s, key, d).macs :: CanonicalAddress(a)
  {
    NormalizedCanonical(d.macs);
    UniqueSortedSelf(NormalizeMACs(d.macs));
    if key in s.byKey {
      UniqueSortedJoin(s.byKey[key].ips, d.ips);
      UniqueSortedJoin(s.byKey[key].macs, NormalizeMACs(d.macs));
      UniqueSortedCanonical(s.byKey[key].ips + d.ips);
      UniqueSortedCanonical(s.byKey[key].macs + NormalizeMACs(d.macs));
    } else {
      UniqueSortedCanonical(d.ips);
      UniqueSortedCanonical(NormalizeMACs(d.macs));
    }
  }

  lemma HeldAfter(s: State, t: State, key: string, m: Device)
    requires t.byKey == s.byKey[key := m]
    ensures IPsHeld(t) == IPsHeld(s)[key := Elements(m.ips)]
    ensures MACsHeld(t) == MACsHeld(s)[key := Elements(m.macs)]
  {
  }

  /** The addresses of the observation join those of its identity, and no others do. */
  lemma StepGrows(s: State, o: Observation, isPrivate: string -> bool)
    requires Sound(s) && Accepted(o, isPrivate)
    ensures IPsHeld(Step(s, o, isPrivate)) == Grow(IPsHeld(s), MergeKey(o.device, s), TrimmedIPs(o.device))
    ensures MACsHeld(Step(s, o, isPrivate)) == Grow(MACsHeld(s), MergeKey(o.device, s), MACs(o.device))
  {
    var key := MergeKey(o.device, s);
    AcceptedHasKey(s, o, isPrivate);
    MergedAddresses(s, key, o.device);
    HeldAfter(s, Step(s, o, isPrivate), key, Merged(s, key, o.device));
  }

  lemma StepKeepsSound(s: State, o: Observation, isPrivate: string -> bool)
    requires Sound(s)
    ensures Sound(Step(s, o, isPrivate))
  {
    AcceptedHasKey(s, o, isPrivate);
    if Accepted(o, isPrivate) {
      var key := MergeKey(o.device, s);
      var m := Merged(s, key, o.device);
      StepGrows(s, o, isPrivate);
      MergedAddresses(s, key, o.device);
      GrowKeepsIndexSound(s.ipToKey, IPsHeld(s), key, TrimmedIPs(o.device), m.ips);
      GrowKeepsIndexSound(s.macToKey, MACsHeld(s), key, MACs(o.device), m.macs);
    }
  }

  lemma {:induction false} FirstKnownSound(xs: seq<string>, index: map<string, string>)
    requires forall a | a in index :: index[a] != ""
    ensures FirstKnown(xs, index) == "" <==> forall x | x in xs :: x !in index
    ensures FirstKnown(xs, index) != "" ==> exists x :: x in xs && x in index && index[x] == FirstKnown(xs, index)
  {
    if xs != [] {
      FirstKnownSound(xs[1..], index);
      assert forall x :: x in xs <==> x == xs[0] || x in xs[1..];
    }
  }

  lemma {:induction false} MergeAllSound(os: seq<Observation>, isPrivate: string -> bool)
    ensures Sound(MergeAll(os, isPrivate))
  {
    if os != [] {
      MergeAllSound(os[..|os| - 1], isPrivate);
      StepKeepsSound(MergeAll(os[..|os| - 1], isPrivate), os[|os| - 1], isPrivate);
    }
  }

  // ---- nothing is lost and nothing is invented ----

  function Names(d: Device): set<string> {
    set x | x in UniqueSorted(d.hostnames)
  }

  /** One identity holds every address and every name of the observation. */
  ghost predicate HeldTogether(s: State, d: Device) {
    exists k :: k in s.byKey && HeldBy(s, d, k)
  }

  ghost predicate HeldBy(s: State, d: Device, k: string)
    requires k in s.byKey
  {
    && TrimmedIPs(d) <= Elements(s.byKey[k].ips) && MACs(d) <= Elements(s.byKey[k].macs)
    && Names(d) <= Elements(s.byKey[k].hostnames)
  }

  /** Stored names are trimmed and not blank. */
  ghost predicate Tidy(s: State) {
    forall k, x | k in s.byKey && x in s.byKey[k].hostnames :: CanonicalAddress(x)
  }

  lemma UniqueOfBoth(a: seq<string>, b: seq<string>, x: string)
    ensures x in UniqueSorted(a + b) <==> x in UniqueSorted(a) || x in UniqueSorted(b)
  {
    var s := a + b;
    if i :| 0 <= i < |s| && Trim(s[i]) == x {
      assert i < |a| ==> s[i] == a[i];
      assert i >= |a| ==> s[i] == b[i - |a|];
    }
    if i :| 0 <= i < |a| && Trim(a[i]) == x {
      assert s[i] == a[i];
    }
    if i :| 0 <= i < |b| && Trim(b[i]) == x {
      assert s[|a| + i] == b[i];
    }
  }

  lemma UniqueTidy(a: seq<string>, x: string)
    ensures x in UniqueSorted(a) ==> CanonicalAddress(x)
    ensures (forall y | y in a :: CanonicalAddress(y)) ==> (x in UniqueSorted(a) <==> x in a)
  {
    if i :| 0 <= i < |a| && Trim(a[i]) == x {
      TrimIdempotent(a[i]);
      assert a[i] in a;
    }
    if x in a {
      var i :| 0 <= i < |a| && a[i] == x;
    }
  }

  /** The names under one identity are those it had and those the observation brings. */
  lemma MergedNames(s: State, key: string, d: Device, x: string)
    requires Tidy(s)
    ensures x in Merged(s, key, d).hostnames <==> (key in s.byKey && x in s.byKey[key].hostnames) || x in Names(d)
    ensures x in Merged(s, key, d).hostnames ==> CanonicalAddress(x)
  {
    UniqueTidy(d.hostnames, x);
    if key in s.byKey {
      UniqueOfBoth(s.byKey[key].hostnames, d.hostnames, x);
      UniqueTidy(s.byKey[key].hostnames, x);
    }
  }

  lemma StepNames(s: State, o: Observation, isPrivate: string -> bool, k: string, x: string)
    requires Tidy(s) && Accepted(o, isPrivate) && Sound(s)
    ensures var t, key := Step(s, o, isPrivate), MergeKey(o.device, s);
            (k in t.byKey && x in t.byKey[k].hostnames) <==>
            (k in s.byKey && x in s.byKey[k].hostnames) || (k == key && x in Names(o.device))
  {
    AcceptedHasKey(s, o, isPrivate);
    MergedNames(s, MergeKey(o.device, s), o.device, x);
  }

  lemma StepTidy(s: State, o: Observation, isPrivate: string -> bool)
    requires Tidy(s) && Sound(s)
    ensures Tidy(Step(s, o, isPrivate))
  {
    AcceptedHasKey(s, o, isPrivate);
    var t, key := Step(s, o, isPrivate), MergeKey(o.device, s);
    forall k, x | k in t.byKey && x in t.byKey[k].hostnames ensures CanonicalAddress(x) {
      if Accepted(o, isPrivate) {
        MergedNames(s, key, o.device, x);
        StepNames(s, o, isPrivate, k, x);
      }
    }
  }

  lemma {:induction false} MergeAllTidy(os: seq<Observation>, isPrivate: string -> bool)
    ensures Tidy(MergeAll(os, isPrivate))
  {
    if os != [] {
      MergeAllTidy(os[..|os| - 1], isPrivate);
      MergeAllSound(os[..|os| - 1], isPrivate);
      StepTidy(MergeAll(os[..|os| - 1], isPrivate), os[|os| - 1], isPrivate);
    }
  }

  lemma NamesStay(s: State, o: Observation, isPrivate: string -> bool, k: string)
    requires Sound(s) && Tidy(s) && k in s.byKey
    ensures var t := Step(s, o, isPrivate);
            k in t.byKey && Elements(s.byKey[k].hostnames) <= Elements(t.byKey[k].hostnames)
  {
    AcceptedHasKey(s, o, isPrivate);
    forall x | Accepted(o, isPrivate) && x in s.byKey[k].hostnames
      ensures x in Step(s, o, isPrivate).byKey[k].hostnames
    {
      StepNames(s, o, isPrivate, k, x);
    }
  }

  lemma NamesTaken(s: State, o: Observation, isPrivate: string -> bool)
    requires Sound(s) && Tidy(s) && Accepted(o, isPrivate)
    ensures var t, key := Step(s, o, isPrivate), MergeKey(o.device, s);
            key in t.byKey && Names(o.device) <= Elements(t.byKey[key].hostnames)
  {
    AcceptedHasKey(s, o, isPrivate);
    forall x | x in Names(o.device) ensures x in Step(s, o, isPrivate).byKey[MergeKey(o.device, s)].hostnames {
      StepNames(s, o, isPrivate, MergeKey(o.device, s), x);
    }
  }

  lemma StepOnlyAdds(s: State, o: Observation, isPrivate: string -> bool, k: string)
    requires Sound(s) && k in s.byKey
    ensures var t := Step(s, o, isPrivate);
      && k in t.byKey
      && Elements(s.byKey[k].ips) <= Elements(t.byKey[k].ips)
      && Elements(s.byKey[k].macs) <= Elements(t.byKey[k].macs)
  {
    AcceptedHasKey(s, o, isPrivate);
    if Accepted(o, isPrivate) {
      StepGrows(s, o, isPrivate);
      var t := Step(s, o, isPrivate);
      assert IPsHeld(t)[k] == Elements(t.byKey[k].ips) && MACsHeld(t)[k] == Elements(t.byKey[k].macs);
      assert IPsHeld(s)[k] == Elements(s.byKey[k].ips) && MACsHeld(s)[k] == Elements(s.byKey[k].macs);
    }
  }

  /** Every accepted observation ends up whole, addresses and names, in one output device. */
  lemma {:induction false} NoAddressLost(os: seq<Observation>, isPrivate: string -> bool, i: nat)
    requires i < |os| && Accepted(os[i], isPrivate)
    ensures HeldTogether(MergeAll(os, isPrivate), os[i].device)
    decreases |os|
  {
    var init, last := os[..|os| - 1], os[|os| - 1];
    var s, t := MergeAll(init, isPrivate), MergeAll(os, isPrivate);
    MergeAllSound(init, isPrivate);
    MergeAllTidy(init, isPrivate);
    if i == |os| - 1 {
      var key := MergeKey(last.device, s);
      AcceptedHasKey(s, last, isPrivate);
      StepGrows(s, last, isPrivate);
      NamesTaken(s, last, isPrivate);
      assert IPsHeld(t)[key] == Elements(t.byKey[key].ips) && MACsHeld(t)[key] == Elements(t.byKey[key].macs);
      assert HeldBy(t, last.device, key);
    } else {
      NoAddressLost(init, isPrivate, i);
      assert init[i] == os[i];
      var k :| k in s.byKey && HeldBy(s, os[i].device, k);
      StepOnlyAdds(s, last, isPrivate, k);
      NamesStay(s, last, isPrivate, k);
      assert HeldBy(t, os[i].device, k);
    }
  }

  /** Every name of an output device was reported by some accepted observation. */
  lemma {:induction false} NoNameInvented(os: seq<Observation>, isPrivate: string -> bool, k: string, x: string)
    requires k in MergeAll(os, isPrivate).byKey && x in MergeAll(os, isPrivate).byKey[k].hostnames
    ensures Reported(os, isPrivate, Names, x)
    decreases |os|
  {
    var init, last := os[..|os| - 1], os[|os| - 1];
    assert os == init + [last];
    var s := MergeAll(init, isPrivate);
    MergeAllSound(init, isPrivate);
    MergeAllTidy(init, isPrivate);
    AcceptedHasKey(s, last, isPrivate);
    ReportedLater(init, last, isPrivate, Names, x);
    if Accepted(last, isPrivate) {
      StepNames(s, last, isPrivate, k, x);
    }
    if k in s.byKey && x in s.byKey[k].hostnames {
      NoNameInvented(init, isPrivate, k, x);
    }
  }

  ghost predicate Reported(os: seq<Observation>, isPrivate: string -> bool, addresses: Device -> set<string>,
                           a: string) {
    exists i | 0 <= i < |os| :: Accepted(os[i], isPrivate) && a in addresses(os[i].device)
  }

  lemma ReportedLater(init: seq<Observation>, last: Observation, isPrivate: string -> bool,
                      addresses: Device -> set<string>, a: string)
    ensures Reported(init, isPrivate, addresses, a) ==> Reported(init + [last], isPrivate, addresses, a)
    ensures Accepted(last, isPrivate) && a in addresses(last.device) ==>
              Reported(init + [last], isPrivate, addresses, a)
  {
    var os := init + [last];
    if Reported(init, isPrivate, addresses, a) {
      var i :| 0 <= i < |init| && Accepted(init[i], isPrivate) && a in addresses(init[i].device);
      assert os[i] == init[i];
    }
    assert os[|init|] == last;
  }

  /** Every address of an output device was reported by some accepted observation. */
  lemma {:induction false} NoAddressInvented(os: seq<Observation>, isPrivate: string -> bool, k: string, a: string)
    requires k in MergeAll(os, isPrivate).byKey
    ensures a in MergeAll(os, isPrivate).byKey[k].ips ==> Reported(os, isPrivate, TrimmedIPs, a)
    ensures a in MergeAll(os, isPrivate).byKey[k].macs ==> Reported(os, isPrivate, MACs, a)
    decreases |os|
  {
    var init, last := os[..|os| - 1], os[|os| - 1];
    assert os == init + [last];
    var s := MergeAll(init, isPrivate);
    MergeAllSound(init, isPrivate);
    AcceptedHasKey(s, last, isPrivate);
    ReportedLater(init, last, isPrivate, TrimmedIPs, a);
    ReportedLater(init, last, isPrivate, MACs, a);
    if k in s.byKey {
      NoAddressInvented(init, isPrivate, k, a);
    }
    if Accepted(last, isPrivate) {
      StepGrows(s, last, isPrivate);
      HeldIn(s, MergeAll(os, isPrivate), last.device, MergeKey(last.device, s), k, a);
    }
  }

  lemma HeldIn(s: State, t: State, d: Device, key: string, k: string, a: string)
    requires IPsHeld(t) == Grow(IPsHeld(s), key, TrimmedIPs(d)) && MACsHeld(t) == Grow(MACsHeld(s), key, MACs(d))
    requires k in t.byKey
    ensures a in t.byKey[k].ips <==> (k in s.byKey && a in s.byKey[k].ips) || (k == key && a in TrimmedIPs(d))
    ensures a in t.byKey[k].macs <==> (k in s.byKey && a in s.byKey[k].macs) || (k == key && a in MACs(d))
  {
    assert k in IPsHeld(t) && k in MACsHeld(t);
    GrownIn(IPsHeld(s), IPsHeld(t), key, TrimmedIPs(d), k, a);
    GrownIn(MACsHeld(s), MACsHeld(t), key, MACs(d), k, a);
  }

  lemma GrownIn(held: map<string, set<string>>, grown: map<string, set<string>>, key: string, added: set<string>,
                k: string, a: string)
    requires grown == Grow(held, key, added) && k in grown
    ensures a in grown[k] <==> (k in held && a in held[k]) || (k == key && a in added)
  {
  }

  // ---- when two outputs share a MAC ----

  ghost predicate NoSharedMAC(s: State) {
    forall k1, k2, m | k1 in s.byKey && k2 in s.byKey && m in s.byKey[k1].macs && m in s.byKey[k2].macs :: k1 == k2
  }

  /** The MACs of the observation that are already known all belong to one identity. */
  ghost predicate Coherent(s: State, d: Device) {
    forall m1, m2 | m1 in MACs(d) && m2 in MACs(d) && m1 in s.macToKey && m2 in s.macToKey ::
      s.macToKey[m1] == s.macToKey[m2]
  }

  lemma MACsOf(d: Device, m: string)
    ensures m in MACs(d) <==> m in NormalizeMACs(d.macs)
  {
    NormalizedCanonical(d.macs);
    UniqueSortedSelf(NormalizeMACs(d.macs));
    assert m in MACs(d) <==> m in Elements(UniqueSorted(NormalizeMACs(d.macs)));
  }

  /** The identity chosen is the one some known MAC of the observation points at. */
  lemma KeyFollowsKnownMAC(s: State, d: Device)
    requires Sound(s)
    ensures (forall m | m in MACs(d) :: m !in s.macToKey)
         || (exists m :: m in MACs(d) && m in s.macToKey && s.macToKey[m] == MergeKey(d, s))
  {
    var macs := NormalizeMACs(d.macs);
    FirstKnownSound(macs, s.macToKey);
    forall m ensures m in MACs(d) <==> m in macs { MACsOf(d, m); }
  }

  lemma CoherentStepSharesNothing(s: State, o: Observation, isPrivate: string -> bool)
    requires Sound(s) && Accepted(o, isPrivate) && NoSharedMAC(s) && Coherent(s, o.device)
    ensures NoSharedMAC(Step(s, o, isPrivate))
  {
    var t, key := Step(s, o, isPrivate), MergeKey(o.device, s);
    StepGrows(s, o, isPrivate);
    KeyFollowsKnownMAC(s, o.device);
    forall k, m | k in s.byKey && m in s.byKey[k].macs && m in MACs(o.device) ensures k == key {
      KnownMAC(s, k, m);
    }
    forall k1, k2, m | k1 in t.byKey && k2 in t.byKey && m in t.byKey[k1].macs && m in t.byKey[k2].macs
      ensures k1 == k2
    {
      HeldIn(s, t, o.device, key, k1, m);
      HeldIn(s, t, o.device, key, k2, m);
    }
  }

  lemma KnownMAC(s: State, k: string, m: string)
    requires Sound(s) && NoSharedMAC(s) && k in s.byKey && m in s.byKey[k].macs
    ensures m in s.macToKey && s.macToKey[m] == k
  {
    assert m in MACsHeld(s)[k];
    var k' := s.macToKey[m];
    assert MACsHeld(s)[k'] == Elements(s.byKey[k'].macs);
  }

  /** An incoherent observation makes its identity share a MAC with another one. */
  lemma IncoherentStepShares(s: State, o: Observation, isPrivate: string -> bool)
    requires Sound(s) && Accepted(o, isPrivate) && !Coherent(s, o.device)
    ensures !NoSharedMAC(Step(s, o, isPrivate))
  {
    var t, key := Step(s, o, isPrivate), MergeKey(o.device, s);
    StepGrows(s, o, isPrivate);
    var m1, m2 :| m1 in MACs(o.device) && m2 in MACs(o.device) && m1 in s.macToKey && m2 in s.macToKey
                  && s.macToKey[m1] != s.macToKey[m2];
    var m := if s.macToKey[m1] != key then m1 else m2;
    var k := s.macToKey[m];
    assert m in MACsHeld(s)[k];
    StepOnlyAdds(s, o, isPrivate, k);
    AcceptedHasKey(s, o, isPrivate);
    HeldIn(s, t, o.device, key, key, m);
    HeldIn(s, t, o.device, key, k, m);
  }

  lemma SharingStays(s: State, o: Observation, isPrivate: string -> bool)
    requires Sound(s) && !NoSharedMAC(s)
    ensures !NoSharedMAC(Step(s, o, isPrivate))
  {
    var k1, k2, m :| k1 in s.byKey && k2 in s.byKey && m in s.byKey[k1].macs && m in s.byKey[k2].macs && k1 != k2;
    StepOnlyAdds(s, o, isPrivate, k1);
    StepOnlyAdds(s, o, isPrivate, k2);
    assert m in Elements(s.byKey[k1].macs) && m in Elements(s.byKey[k2].macs);
    var t := Step(s, o, isPrivate);
    assert m in Elements(t.byKey[k1].macs) && m in Elements(t.byKey[k2].macs);
  }

  /** Every observation that was taken in was coherent with the identities known when it arrived. */
  ghost predicate CoherentRun(os: seq<Observation>, isPrivate: string -> bool) {
    os != [] ==>
      var init, last := os[..|os| - 1], os[|os| - 1];
      CoherentRun(init, isPrivate) && (Accepted(last, isPrivate) ==> Coherent(MergeAll(init, isPrivate), last.device))
  }

  /** No two outputs share a MAC exactly when the run was coherent. */
  lemma {:induction false} NoSharedMACExactly(os: seq<Observation>, isPrivate: string -> bool)
    ensures NoSharedMAC(MergeAll(os, isPrivate)) <==> CoherentRun(os, isPrivate)
  {
    if os != [] {
      var init, last := os[..|os| - 1], os[|os| - 1];
      NoSharedMACExactly(init, isPrivate);
      SharesAfter(MergeAll(init, isPrivate), last, isPrivate, init);
    }
  }

  lemma SharesAfter(s: State, o: Observation, isPrivate: string -> bool, init: seq<Observation>)
    requires s == MergeAll(init, isPrivate)
    ensures NoSharedMAC(Step(s, o, isPrivate)) <==> NoSharedMAC(s) && (Accepted(o, isPrivate) ==> Coherent(s, o.device))
  {
    MergeAllSound(init, isPrivate);
    AcceptedHasKey(s, o, isPrivate);
    if !NoSharedMAC(s) {
      SharingStays(s, o, isPrivate);
    } else if Accepted(o, isPrivate) {
      if Coherent(s, o.device) {
        CoherentStepSharesNothing(s, o, isPrivate);
      } else {
        IncoherentStepShares(s, o, isPrivate);
      }
    }
  }

  /** Observations with at most one MAC each never make two outputs share one. */
  lemma {:induction false} SingleMACsNeverShared(os: seq<Observation>, isPrivate: string -> bool)
    requires forall i | 0 <= i < |os| :: |NormalizeMACs(os[i].device.macs)| <= 1
    ensures CoherentRun(os, isPrivate) && NoSharedMAC(MergeAll(os, isPrivate))
  {
    if os != [] {
      var init, last := os[..|os| - 1], os[|os| - 1];
      SingleMACsNeverShared(init, isPrivate);
      OneMACIsCoherent(MergeAll(init, isPrivate), last.device);
    }
    NoSharedMACExactly(os, isPrivate);
  }

  lemma OneMACIsCoherent(s: State, d: Device)
    requires |NormalizeMACs(d.macs)| <= 1
    ensures Coherent(s, d)
  {
    forall m1, m2 | m1 in MACs(d) && m2 in MACs(d) ensures m1 == m2 {
      MACsOf(d, m1);
      MACsOf(d, m2);
    }
  }

  /** An observation of nothing but MACs. */
  function Seen(macs: seq<string>): Observation {
    Observation(Device("", [], macs, []), false)
  }

  predicate CanonicalMAC(m: string) {
    m != "" && Lower(Trim(m)) == m
  }

  lemma {:induction false} NormalizeCanonical(macs: seq<string>)
    requires forall i | 0 <= i < |macs| :: CanonicalMAC(macs[i])
    ensures NormalizeMACs(macs) == macs
  {
    if macs != [] {
      var init, mac := macs[..|macs| - 1], macs[|macs| - 1];
      assert CanonicalMAC(mac);
      NormalizeCanonical(init);
      assert macs == init + [mac];
    }
  }

  lemma MACsOfSeen(macs: seq<string>)
    requires forall i | 0 <= i < |macs| :: CanonicalMAC(macs[i])
    ensures MACs(Seen(macs).device) == Elements(macs)
  {
    NormalizeCanonical(macs);
    forall m ensures m in MACs(Seen(macs).device) <==> m in macs { MACsOf(Seen(macs).device, m); }
  }

  lemma FoundingKey(s: State, m: string)
    requires CanonicalMAC(m) && m !in s.macToKey
    ensures MergeKey(Seen([m]).device, s) == "mac_" + m
  {
    NormalizeCanonical([m]);
    assert FirstKnown([m], s.macToKey) == FirstKnown([m][1..], s.macToKey) == "";
    assert FirstKnown([], s.ipToKey) == "";
  }

  /** A MAC seen alone for the first time founds an identity of its own. */
  lemma FirstSighting(s: State, m: string, isPrivate: string -> bool)
    requires Sound(s) && m !in s.macToKey && "mac_" + m !in s.byKey && CanonicalMAC(m)
    ensures Step(s, Seen([m]), isPrivate).macToKey == s.macToKey[m := "mac_" + m]
    ensures Step(s, Seen([m]), isPrivate).byKey.Keys == s.byKey.Keys + {"mac_" + m}
  {
    var d, key := Seen([m]).device, "mac_" + m;
    FoundingKey(s, m);
    MACsOfSeen([m]);
    MergedAddresses(s, key, d);
    assert key !in MACsHeld(s);
    PointAt(s.macToKey, Merged(s, key, d).macs, key, m);
  }

  lemma PointAt(index: map<string, string>, addresses: seq<string>, key: string, m: string)
    requires Elements(addresses) == {m}
    ensures Point(index, addresses, key) == index[m := key]
  {
    assert forall a :: a in addresses <==> a in Elements(addresses);
  }

  lemma FirstAlone(m1: string, isPrivate: string -> bool)
    requires CanonicalMAC(m1)
    ensures var s := MergeAll([Seen([m1])], isPrivate);
      Sound(s) && s.macToKey == map[m1 := "mac_" + m1] && s.byKey.Keys == {"mac_" + m1}
  {
    assert [Seen([m1])][..0] == [];
    MergeAllSound([Seen([m1])], isPrivate);
    FirstSighting(Empty, m1, isPrivate);
  }

  lemma BothAlone(m1: string, m2: string, isPrivate: string -> bool)
    requires CanonicalMAC(m1) && CanonicalMAC(m2) && m1 != m2
    ensures var s := MergeAll([Seen([m1]), Seen([m2])], isPrivate);
      Sound(s) && s.macToKey == map[m1 := "mac_" + m1, m2 := "mac_" + m2]
  {
    var os := [Seen([m1]), Seen([m2])];
    assert os[..1] == [Seen([m1])];
    assert ("mac_" + m1)[4..] == m1 && ("mac_" + m2)[4..] == m2;
    MergeAllSound(os, isPrivate);
    FirstAlone(m1, isPrivate);
    FirstSighting(MergeAll([Seen([m1])], isPrivate), m2, isPrivate);
  }

  /** Two MACs in one observation are enough: any two distinct MACs, each seen alone first, found two
      identities that share both once a third observation reports them together. */
  lemma TwoMACsAreShared(m1: string, m2: string, isPrivate: string -> bool)
    requires CanonicalMAC(m1) && CanonicalMAC(m2) && m1 != m2
    ensures !NoSharedMAC(MergeAll([Seen([m1]), Seen([m2]), Seen([m1, m2])], isPrivate))
  {
    var os := [Seen([m1]), Seen([m2]), Seen([m1, m2])];
    assert os[..2] == [Seen([m1]), Seen([m2])];
    assert ("mac_" + m1)[4..] == m1 && ("mac_" + m2)[4..] == m2;
    BothAlone(m1, m2, isPrivate);
    BothIncoherent(MergeAll(os[..2], isPrivate), m1, m2, isPrivate);
  }

  lemma BothIncoherent(s: State, m1: string, m2: string, isPrivate: string -> bool)
    requires Sound(s) && m1 in s.macToKey && m2 in s.macToKey && s.macToKey[m1] != s.macToKey[m2]
    requires CanonicalMAC(m1) && CanonicalMAC(m2)
    ensures !NoSharedMAC(Step(s, Seen([m1, m2]), isPrivate))
  {
    MACsOfSeen([m1, m2]);
    NormalizeCanonical([m1, m2]);
    var o := Seen([m1, m2]);
    assert m1 in MACs(o.device) && m2 in MACs(o.device);
    IncoherentStepShares(s, o, isPrivate);
  }

  // ---- which identity an observation joins ----

  /** `k` is where `index` points from the first of `xs` it knows. */
  ghost predicate FirstIn(xs: seq<string>, index: map<string, string>, k: string) {
    exists i | 0 <= i < |xs| :: xs[i] in index && index[xs[i]] == k && forall j | 0 <= j < i :: xs[j] !in index
  }

  ghost predicate NoneIn(xs: seq<string>, index: map<string, string>) {
    forall x | x in xs :: x !in index
  }

  /** What a new identity is called: after its first MAC, failing that its first IP, failing that its id. */
  function NewName(d: Device): string {
    var macs := NormalizeMACs(d.macs);
    if macs != [] then "mac_" + macs[0] else if d.ips != [] then "ip_" + d.ips[0] else d.id
  }

  /** The identity for `d` is `k`: a known MAC decides, without one a known IP, without either a new name. */
  ghost predicate Goes(s: State, d: Device, k: string) {
    var macs := NormalizeMACs(d.macs);
    || FirstIn(macs, s.macToKey, k)
    || (NoneIn(macs, s.macToKey) && FirstIn(d.ips, s.ipToKey, k))
    || (NoneIn(macs, s.macToKey) && NoneIn(d.ips, s.ipToKey) && k == NewName(d))
  }

  lemma {:induction false} FirstKnownIs(xs: seq<string>, index: map<string, string>)
    requires forall a | a in index :: index[a] != ""
    ensures if NoneIn(xs, index) then FirstKnown(xs, index) == "" else FirstIn(xs, index, FirstKnown(xs, index))
    ensures forall k | FirstIn(xs, index, k) :: k == FirstKnown(xs, index) && !NoneIn(xs, index)
  {
    if xs != [] {
      var rest := xs[1..];
      FirstKnownIs(rest, index);
      assert forall x :: x in xs <==> x == xs[0] || x in rest;
      if xs[0] !in index {
        forall k ensures FirstIn(xs, index, k) <==> FirstIn(rest, index, k) {
          if i :| 0 <= i < |rest| && rest[i] in index && index[rest[i]] == k
                  && forall j | 0 <= j < i :: rest[j] !in index {
            assert xs[i + 1] == rest[i];
          }
          if i :| 0 <= i < |xs| && xs[i] in index && index[xs[i]] == k && forall j | 0 <= j < i :: xs[j] !in index {
            assert rest[i - 1] == xs[i] && forall j | 0 <= j < i - 1 :: rest[j] == xs[j + 1];
          }
        }
      } else {
        assert FirstIn(xs, index, index[xs[0]]);
      }
    }
  }

  /** An accepted observation adds its addresses to the identity it goes to, which is one, and to no other. */
  lemma StepGoes(s: State, o: Observation, isPrivate: string -> bool, k: string)
    requires Sound(s) && Accepted(o, isPrivate)
    ensures Goes(s, o.device, k) <==> k == MergeKey(o.device, s)
    ensures Goes(s, o.device, k) ==>
              && IPsHeld(Step(s, o, isPrivate)) == Grow(IPsHeld(s), k, TrimmedIPs(o.device))
              && MACsHeld(Step(s, o, isPrivate)) == Grow(MACsHeld(s), k, MACs(o.device))
  {
    FirstKnownIs(NormalizeMACs(o.device.macs), s.macToKey);
    FirstKnownIs(o.device.ips, s.ipToKey);
    FirstKnownNamed(NormalizeMACs(o.device.macs), s.macToKey);
    FirstKnownNamed(o.device.ips, s.ipToKey);
    StepGrows(s, o, isPrivate);
  }

  lemma {:induction false} FirstKnownNamed(xs: seq<string>, index: map<string, string>)
    requires forall a | a in index :: index[a] != ""
    ensures FirstKnown(xs, index) == "" ==> NoneIn(xs, index)
    ensures FirstKnown(xs, index) != "" ==> !NoneIn(xs, index)
  {
    FirstKnownSound(xs, index);
  }

  /** A new identity is founded only for an observation none of whose MACs and none of whose IPs is known. */
  lemma FoundsOnlyUnknown(s: State, o: Observation, isPrivate: string -> bool)
    requires Sound(s) && Accepted(o, isPrivate) && Step(s, o, isPrivate).byKey.Keys != s.byKey.Keys
    ensures forall m | m in MACs(o.device) :: m !in s.macToKey
    ensures forall i | 0 <= i < |o.device.ips| :: o.device.ips[i] !in s.ipToKey
  {
    var d := o.device;
    var macs := NormalizeMACs(d.macs);
    FirstKnownSound(macs, s.macToKey);
    FirstKnownSound(d.ips, s.ipToKey);
    AcceptedHasKey(s, o, isPrivate);
    assert MergeKey(d, s) !in s.byKey;
    assert forall k :: (k in IPsHeld(s) <==> k in s.byKey) && (k in MACsHeld(s) <==> k in s.byKey);
    forall m | m in MACs(d) ensures m !in s.macToKey { MACsOf(d, m); }
  }

  lemma KnownIPDecides(s: State, d: Device, i: nat)
    requires i < |d.ips| && d.ips[i] in s.ipToKey && forall j | 0 <= j < i :: d.ips[j] !in s.ipToKey
    requires forall m | m in MACs(d) :: m !in s.macToKey
    ensures Goes(s, d, s.ipToKey[d.ips[i]])
  {
    var macs := NormalizeMACs(d.macs);
    forall m | m in macs ensures m !in s.macToKey { MACsOf(d, m); }
    assert NoneIn(macs, s.macToKey) && FirstIn(d.ips, s.ipToKey, s.ipToKey[d.ips[i]]);
  }

  lemma SameKeys(s: State, t: State, key: string, added: set<string>)
    requires IPsHeld(t) == Grow(IPsHeld(s), key, added) && key in s.byKey
    ensures t.byKey.Keys == s.byKey.Keys
  {
    assert IPsHeld(t).Keys == t.byKey.Keys && IPsHeld(s).Keys == s.byKey.Keys;
  }

  /** Without a known MAC an observation joins the identity its first known IP names: nothing new is founded. */
  lemma KnownIPJoins(s: State, o: Observation, isPrivate: string -> bool, i: nat)
    requires Sound(s) && Accepted(o, isPrivate) && i < |o.device.ips| && o.device.ips[i] in s.ipToKey
    requires forall j | 0 <= j < i :: o.device.ips[j] !in s.ipToKey
    requires forall m | m in MACs(o.device) :: m !in s.macToKey
    ensures var k := s.ipToKey[o.device.ips[i]];
            && k in s.byKey && Step(s, o, isPrivate).byKey.Keys == s.byKey.Keys
            && IPsHeld(Step(s, o, isPrivate)) == Grow(IPsHeld(s), k, TrimmedIPs(o.device))
            && MACsHeld(Step(s, o, isPrivate)) == Grow(MACsHeld(s), k, MACs(o.device))
  {
    var k := s.ipToKey[o.device.ips[i]];
    KnownIPDecides(s, o.device, i);
    StepGoes(s, o, isPrivate, k);
    assert k in IPsHeld(s);
    SameKeys(s, Step(s, o, isPrivate), k, TrimmedIPs(o.device));
  }

  // ---- sharing an IP ----

  ghost predicate NoSharedIP(s: State) {
    forall k1, k2, a | k1 in s.byKey && k2 in s.byKey && a in s.byKey[k1].ips && a in s.byKey[k2].ips :: k1 == k2
  }

  /** Every known address of the observation is known of the identity it goes to. */
  ghost predicate IPCoherent(s: State, d: Device) {
    forall a | a in TrimmedIPs(d) && a in s.ipToKey :: Goes(s, d, s.ipToKey[a])
  }

  ghost predicate IPCoherentRun(os: seq<Observation>, isPrivate: string -> bool) {
    os != [] ==>
      var init, last := os[..|os| - 1], os[|os| - 1];
      && IPCoherentRun(init, isPrivate)
      && (Accepted(last, isPrivate) ==> IPCoherent(MergeAll(init, isPrivate), last.device))
  }

  lemma IPIn(s: State, t: State, key: string, added: set<string>, k: string, a: string)
    requires IPsHeld(t) == Grow(IPsHeld(s), key, added)
    ensures k in t.byKey <==> k in s.byKey || k == key
    ensures k in t.byKey ==>
              (a in t.byKey[k].ips <==> (k in s.byKey && a in s.byKey[k].ips) || (k == key && a in added))
  {
    assert k in t.byKey <==> k in IPsHeld(t);
    assert k in s.byKey <==> k in IPsHeld(s);
    if k in t.byKey {
      assert a in IPsHeld(t)[k] <==> a in t.byKey[k].ips;
      assert k in s.byKey ==> (a in IPsHeld(s)[k] <==> a in s.byKey[k].ips);
    }
  }

  lemma KnownIP(s: State, k: string, a: string)
    requires Sound(s) && k in s.byKey && a in s.byKey[k].ips
    ensures a in s.ipToKey && (NoSharedIP(s) ==> s.ipToKey[a] == k)
  {
    assert a in IPsHeld(s)[k];
    var k' := s.ipToKey[a];
    assert IPsHeld(s)[k'] == Elements(s.byKey[k'].ips);
  }

  lemma CoherentStepSharesNoIP(s: State, o: Observation, isPrivate: string -> bool)
    requires Sound(s) && Accepted(o, isPrivate) && NoSharedIP(s) && IPCoherent(s, o.device)
    ensures NoSharedIP(Step(s, o, isPrivate))
  {
    var t, key := Step(s, o, isPrivate), MergeKey(o.device, s);
    StepGrows(s, o, isPrivate);
    forall k, a | k in s.byKey && a in s.byKey[k].ips && a in TrimmedIPs(o.device) ensures k == key {
      KnownIP(s, k, a);
      StepGoes(s, o, isPrivate, k);
    }
    forall k1, k2, a | k1 in t.byKey && k2 in t.byKey && a in t.byKey[k1].ips && a in t.byKey[k2].ips
      ensures k1 == k2
    {
      IPIn(s, t, key, TrimmedIPs(o.device), k1, a);
      IPIn(s, t, key, TrimmedIPs(o.device), k2, a);
    }
  }

  lemma IncoherentStepSharesIP(s: State, o: Observation, isPrivate: string -> bool)
    requires Sound(s) && Accepted(o, isPrivate) && !IPCoherent(s, o.device)
    ensures !NoSharedIP(Step(s, o, isPrivate))
  {
    var t, key := Step(s, o, isPrivate), MergeKey(o.device, s);
    StepGrows(s, o, isPrivate);
    var a :| a in TrimmedIPs(o.device) && a in s.ipToKey && !Goes(s, o.device, s.ipToKey[a]);
    var k := s.ipToKey[a];
    StepGoes(s, o, isPrivate, k);
    assert a in IPsHeld(s)[k] && IPsHeld(s)[k] == Elements(s.byKey[k].ips);
    IPIn(s, t, key, TrimmedIPs(o.device), k, a);
    IPIn(s, t, key, TrimmedIPs(o.device), key, a);
  }

  lemma IPSharingStays(s: State, o: Observation, isPrivate: string -> bool)
    requires Sound(s) && !NoSharedIP(s)
    ensures !NoSharedIP(Step(s, o, isPrivate))
  {
    var k1, k2, a :| k1 in s.byKey && k2 in s.byKey && a in s.byKey[k1].ips && a in s.byKey[k2].ips && k1 != k2;
    StepOnlyAdds(s, o, isPrivate, k1);
    StepOnlyAdds(s, o, isPrivate, k2);
    assert a in Elements(s.byKey[k1].ips) && a in Elements(s.byKey[k2].ips);
    var t := Step(s, o, isPrivate);
    assert a in Elements(t.byKey[k1].ips) && a in Elements(t.byKey[k2].ips);
  }

  lemma SharesIPAfter(s: State, o: Observation, isPrivate: string -> bool, init: seq<Observation>)
    requires s == MergeAll(init, isPrivate)
    ensures NoSharedIP(Step(s, o, isPrivate)) <==>
            NoSharedIP(s) && (Accepted(o, isPrivate) ==> IPCoherent(s, o.device))
  {
    MergeAllSound(init, isPrivate);
    AcceptedHasKey(s, o, isPrivate);
    if !NoSharedIP(s) {
      IPSharingStays(s, o, isPrivate);
    } else if Accepted(o, isPrivate) {
      if IPCoherent(s, o.device) {
        CoherentStepSharesNoIP(s, o, isPrivate);
      } else {
        IncoherentStepSharesIP(s, o, isPrivate);
      }
    }
  }

  /** No two outputs share an IP exactly when every observation taken in went to the identity that held its
      addresses. */
  lemma {:induction false} NoSharedIPExactly(os: seq<Observation>, isPrivate: string -> bool)
    ensures NoSharedIP(MergeAll(os, isPrivate)) <==> IPCoherentRun(os, isPrivate)
  {
    if os != [] {
      var init, last := os[..|os| - 1], os[|os| - 1];
      NoSharedIPExactly(init, isPrivate);
      SharesIPAfter(MergeAll(init, isPrivate), last, isPrivate, init);
    }
  }

  /** An observation of one trimmed address and nothing else goes to whoever holds that address. */
  predicate OneAddress(d: Device) {
    NormalizeMACs(d.macs) == [] && |d.ips| == 1 && CanonicalAddress(d.ips[0])
  }

  lemma OneAddressIsCoherent(s: State, d: Device)
    requires OneAddress(d)
    ensures IPCoherent(s, d)
  {
    forall a | a in TrimmedIPs(d) && a in s.ipToKey ensures Goes(s, d, s.ipToKey[a]) {
      assert a in UniqueSorted(d.ips) && Trim(d.ips[0]) == a;
      assert NoneIn(NormalizeMACs(d.macs), s.macToKey) && d.ips[0] == a;
      assert FirstIn(d.ips, s.ipToKey, s.ipToKey[a]);
    }
  }

  /** Observations of single trimmed addresses never make two outputs share one. */
  lemma {:induction false} SingleIPsNeverShared(os: seq<Observation>, isPrivate: string -> bool)
    requires forall i | 0 <= i < |os| :: OneAddress(os[i].device)
    ensures IPCoherentRun(os, isPrivate) && NoSharedIP(MergeAll(os, isPrivate))
  {
    if os != [] {
      var init, last := os[..|os| - 1], os[|os| - 1];
      SingleIPsNeverShared(init, isPrivate);
      OneAddressIsCoherent(MergeAll(init, isPrivate), last.device);
    }
    NoSharedIPExactly(os, isPrivate);
  }

  lemma OneAddressJoins(s: State, o: Observation, isPrivate: string -> bool, k: string)
    requires Sound(s) && NoSharedIP(s) && k in s.byKey && Accepted(o, isPrivate)
    requires OneAddress(o.device) && o.device.ips[0] in s.byKey[k].ips
    ensures var t := Step(s, o, isPrivate);
            t.byKey.Keys == s.byKey.Keys && IPsHeld(t) == IPsHeld(s) && MACsHeld(t) == MACsHeld(s)
  {
    var a := o.device.ips[0];
    KnownIP(s, k, a);
    forall m ensures m !in MACs(o.device) { MACsOf(o.device, m); }
    KnownIPJoins(s, o, isPrivate, 0);
    OneAddressOf(o.device);
    assert a in IPsHeld(s)[k];
    GrowNothing(IPsHeld(s), k, TrimmedIPs(o.device));
    GrowNothing(MACsHeld(s), k, MACs(o.device));
  }

  lemma GrowNothing(held: map<string, set<string>>, key: string, added: set<string>)
    requires key in held && added <= held[key]
    ensures Grow(held, key, added) == held
  {
    assert held[key] + added == held[key];
  }

  lemma OneAddressOf(d: Device)
    requires OneAddress(d)
    ensures TrimmedIPs(d) == {d.ips[0]}
  {
    var ip := d.ips[0];
    assert ip in d.ips && forall y | y in d.ips :: y == ip;
    forall x ensures x in UniqueSorted(d.ips) <==> x == ip {
      UniqueTidy(d.ips, x);
    }
  }

  /** A device seen with its MAC by one probe and by its address alone by the next stays one device. */
  lemma AddressAloneJoins(os: seq<Observation>, o: Observation, isPrivate: string -> bool, k: string)
    requires k in MergeAll(os, isPrivate).byKey && NoSharedIP(MergeAll(os, isPrivate))
    requires OneAddress(o.device) && isPrivate(o.device.ips[0])
    requires o.device.ips[0] in MergeAll(os, isPrivate).byKey[k].ips
    ensures MergeAll(os + [o], isPrivate).byKey.Keys == MergeAll(os, isPrivate).byKey.Keys
    ensures IPsHeld(MergeAll(os + [o], isPrivate)) == IPsHeld(MergeAll(os, isPrivate))
    ensures MACsHeld(MergeAll(os + [o], isPrivate)) == MACsHeld(MergeAll(os, isPrivate))
  {
    MergeAllSound(os, isPrivate);
    MergeAllNext(os, o, isPrivate);
    OneAddressJoins(MergeAll(os, isPrivate), o, isPrivate, k);
  }

  lemma GoesToOne(s: State, d: Device, k1: string, k2: string)
    requires Sound(s) && Goes(s, d, k1) && Goes(s, d, k2)
    ensures k1 == k2
  {
    FirstKnownIs(NormalizeMACs(d.macs), s.macToKey);
    FirstKnownIs(d.ips, s.ipToKey);
  }

  lemma OnlyMACDecides(s: State, d: Device, m: string)
    requires NormalizeMACs(d.macs) == [m] && m in s.macToKey
    ensures Goes(s, d, s.macToKey[m])
  {
    var macs := NormalizeMACs(d.macs);
    assert macs[0] in s.macToKey && s.macToKey[macs[0]] == s.macToKey[m];
    assert FirstIn(macs, s.macToKey, s.macToKey[m]);
  }

  /** A probe that reports a known address with another identity's MAC makes the two share it. */
  lemma MovedAddressIsShared(s: State, o: Observation, isPrivate: string -> bool, m: string, a: string)
    requires Sound(s) && Accepted(o, isPrivate) && NormalizeMACs(o.device.macs) == [m] && m in s.macToKey
    requires a in TrimmedIPs(o.device) && a in s.ipToKey && s.ipToKey[a] != s.macToKey[m]
    ensures !NoSharedIP(Step(s, o, isPrivate))
  {
    OnlyMACDecides(s, o.device, m);
    if Goes(s, o.device, s.ipToKey[a]) {
      GoesToOne(s, o.device, s.ipToKey[a], s.macToKey[m]);
    }
    assert !IPCoherent(s, o.device);
    IncoherentStepSharesIP(s, o, isPrivate);
  }

  // ---- the loop ----

  function IdUnder(byKey: map<string, Device>, key: string): string {
    if key in byKey then byKey[key].id else ""
  }

  /** Keys in the order of their devices' ids; the order of equal ids is left to the sort. */
  function ById(byKey: map<string, Device>): (string, string) -> bool {
    (a, b) => StringLess(IdUnder(byKey, a), IdUnder(byKey, b))
           || (IdUnder(byKey, a) == IdUnder(byKey, b) && StringLess(a, b))
  }

  lemma ByIdTotal(byKey: map<string, Device>, keys: set<string>)
    ensures TotalOn(ById(byKey), keys)
  {
    var less := ById(byKey);
    var ids := set k | k in keys :: IdUnder(byKey, k);
    StringsTotal(keys);
    StringsTotal(ids);
    forall a, b, c | a in keys && b in keys && c in keys && less(a, b) && less(b, c) ensures less(a, c) {
      var x, y, z := IdUnder(byKey, a), IdUnder(byKey, b), IdUnder(byKey, c);
      assert x in ids && y in ids && z in ids;
    }
  }

  /** `out` lists the device of every key once. */
  ghost predicate Lists(out: seq<Device>, keys: seq<string>, byKey: map<string, Device>) {
    && Distinct(keys) && Elements(keys) == byKey.Keys
    && |out| == |keys| && forall i | 0 <= i < |keys| :: keys[i] in byKey && out[i] == byKey[keys[i]]
  }

  lemma PointOneMore(index: map<string, string>, addresses: seq<string>, a: string, key: string)
    ensures Point(index, addresses + [a], key) == Point(index, addresses, key)[a := key]
  {
    assert forall x :: x in addresses + [a] <==> x in addresses || x == a;
  }

  lemma PointNext(index: map<string, string>, addresses: seq<string>, i: nat, key: string)
    requires i < |addresses|
    ensures Point(index, addresses[..i + 1], key) == Point(index, addresses[..i], key)[addresses[i] := key]
  {
    PointOneMore(index, addresses[..i], addresses[i], key);
    assert addresses[..i + 1] == addresses[..i] + [addresses[i]];
  }

  method PointAll(index: map<string, string>, addresses: seq<string>, key: string) returns (r: map<string, string>)
    ensures r == Point(index, addresses, key)
  {
    r := index;
    for a := 0 to |addresses|
      invariant r == Point(index, addresses[..a], key)
    {
      PointNext(index, addresses, a, key);
      r := r[addresses[a] := key];
    }
    assert addresses[..|addresses|] == addresses;
  }

  method Absorb(s: State, o: Observation, isPrivate: string -> bool) returns (t: State)
    ensures t == Step(s, o, isPrivate)
  {
    if PublicOnly(o, isPrivate) {
      return s;
    }
    var key := MergeKey(o.device, s);
    if key == "" {
      return s;
    }
    var dst := Merged(s, key, o.device);
    var ipToKey := PointAll(s.ipToKey, dst.ips, key);
    var macToKey := PointAll(s.macToKey, dst.macs, key);
    return State(s.byKey[key := dst], ipToKey, macToKey);
  }

  lemma MergeAllNext(os: seq<Observation>, o: Observation, isPrivate: string -> bool)
    ensures MergeAll(os + [o], isPrivate) == Step(MergeAll(os, isPrivate), o, isPrivate)
  {
    assert (os + [o])[..|os|] == os;
  }

  lemma TakeNext(before: seq<Observation>, xs: seq<Observation>, i: nat)
    requires i < |xs|
    ensures before + xs[..i + 1] == (before + xs[..i]) + [xs[i]]
  {
  }

  lemma FlattenNext(results: seq<seq<Observation>>, r: nat)
    requires r < |results|
    ensures Flatten(results[..r + 1]) == Flatten(results[..r]) + results[r]
  {
    assert results[..r + 1][..r] == results[..r];
  }

  method MergeDevices(results: seq<seq<Observation>>, isPrivate: string -> bool) returns (out: seq<Device>)
    ensures exists keys :: Lists(out, keys, MergeAll(Flatten(results), isPrivate).byKey)
    ensures forall i, j | 0 <= i < j < |out| :: !StringLess(out[j].id, out[i].id)
  {
    var s := Empty;
    for r := 0 to |results|
      invariant s == MergeAll(Flatten(results[..r]), isPrivate)
    {
      ghost var before := Flatten(results[..r]);
      assert before + results[r][..0] == before;
      for i := 0 to |results[r]|
        invariant s == MergeAll(before + results[r][..i], isPrivate)
      {
        MergeAllNext(before + results[r][..i], results[r][i], isPrivate);
        TakeNext(before, results[r], i);
        s := Absorb(s, results[r][i], isPrivate);
      }
      assert results[r][..|results[r]|] == results[r];
      FlattenNext(results, r);
    }
    assert results[..|results|] == results;
    out := ListById(s.byKey);
  }

  method SortedKeys(byKey: map<string, Device>) returns (keys: seq<string>)
    ensures Distinct(keys) && Elements(keys) == byKey.Keys
    ensures Ascending(ById(byKey), keys)
  {
    keys := InSomeOrder(byKey.Keys);
    var less := ById(byKey);
    ByIdTotal(byKey, Elements(keys));
    SortAscending(less, keys);
    SortKeepsElements(less, keys);
    keys := Sort(less, keys);
    AscendingDistinct(less, keys);
  }

  method ListById(byKey: map<string, Device>) returns (out: seq<Device>)
    ensures exists keys :: Lists(out, keys, byKey)
    ensures forall i, j | 0 <= i < j < |out| :: !StringLess(out[j].id, out[i].id)
  {
    var keys := SortedKeys(byKey);
    assert forall i | 0 <= i < |keys| :: keys[i] in Elements(keys);
    out := seq(|keys|, i requires 0 <= i < |keys| => IdDevice(byKey, keys[i]));
    assert Lists(out, keys, byKey);
    forall i, j | 0 <= i < j < |out| ensures !StringLess(out[j].id, out[i].id) {
      assert ById(byKey)(keys[i], keys[j]);
      StringLessAsymmetric(out[i].id, out[j].id);
    }
  }

  function IdDevice(byKey: map<string, Device>, key: string): Device
    requires key in byKey
  {
    byKey[key]
  }
}
