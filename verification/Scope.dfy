/** The scan scope: which CIDR requests are accepted, which hosts they enumerate, and which
    addresses pass for private. An IPv4 address is a number below 2^32. */
module Scope {
  import opened Text
  import opened Options
  import opened Numbers

  const ADDRESSES := 0x1_0000_0000
  const MAX_SCAN_HOSTS := 65536
  const SOFT_WARN_HOSTS := 1024

  type Address = a: nat | a < ADDRESSES

  /** What net.ParseCIDR delivers. Of an IPv6 network only its privacy matters here. */
  datatype Network = V4(ip: Address, ones: nat) | V6(ulaOrLocal: bool)

  ghost predicate WellFormed(n: Network) {
    n.V4? ==> n.ones <= 32
  }

  datatype Interface = Interface(name: string, cidr: string)

  datatype ScanScope = ScanScope(requested: string, publicAllowed: bool, profile: string, iface: string,
                                 network: Option<Network>, hostCount: nat, isPrivate: bool)

  datatype WarningCode = PublicScopeEnabled | LargeScope | Ipv6ScopeUnsupported

  datatype ScopeError = NoLocalNetwork | InvalidCIDR | PublicIpv6Refused | PublicRefused | TooManyHosts

  // ---- shifts ----

  function ShiftRight(a: nat, k: nat): nat
    decreases k
  {
    if k == 0 then a else ShiftRight(a / 2, k - 1)
  }

  function ShiftLeft(a: nat, k: nat): nat
    decreases k
  {
    if k == 0 then a else 2 * ShiftLeft(a, k - 1)
  }

  /** The addresses with prefix `p` are the `2^k` consecutive ones from `p << k` on. */
  lemma {:induction false} PrefixIsInterval(p: nat, a: nat, k: nat)
    ensures ShiftRight(a, k) == p <==> ShiftLeft(p, k) <= a < ShiftLeft(p, k) + Pow2(k)
    decreases k
  {
    if k > 0 { PrefixIsInterval(p, a / 2, k - 1); }
  }

  lemma {:induction false} ShiftRightSum(a: nat, j: nat, k: nat)
    ensures ShiftRight(a, j + k) == ShiftRight(ShiftRight(a, j), k)
    decreases j
  {
    if j > 0 { ShiftRightSum(a / 2, j - 1, k); }
  }

  lemma ShiftRightByOctets(a: nat)
    ensures ShiftRight(a, 8) == a / 256 && ShiftRight(a, 16) == a / 65536
  {
    Pow2Values();
    ShiftLeftIsTimes(a / 256, 8);
    PrefixIsInterval(a / 256, a, 8);
    ShiftLeftIsTimes(a / 65536, 16);
    PrefixIsInterval(a / 65536, a, 16);
  }

  lemma {:induction false} ShiftLeftIsTimes(a: nat, k: nat)
    ensures ShiftLeft(a, k) == a * Pow2(k)
  {
    if k > 0 {
      ShiftLeftIsTimes(a, k - 1);
      assert 2 * (a * Pow2(k - 1)) == a * (2 * Pow2(k - 1));
    }
  }

  // ---- networks ----

  function HostBits(n: Network): nat
    requires n.V4? && n.ones <= 32
  {
    32 - n.ones
  }

  /** The address with its host bits cleared. */
  function Base(n: Network): nat
    requires n.V4? && n.ones <= 32
  {
    ShiftLeft(ShiftRight(n.ip, HostBits(n)), HostBits(n))
  }

  /** net.IPNet.Contains: the prefix bits agree. */
  predicate Contains(n: Network, a: Address)
    requires n.V4? && n.ones <= 32
  {
    ShiftRight(a, HostBits(n)) == ShiftRight(n.ip, HostBits(n))
  }

  lemma ContainsIsInterval(n: Network, a: Address)
    requires n.V4? && n.ones <= 32
    ensures Contains(n, a) <==> Base(n) <= a < Base(n) + Pow2(HostBits(n))
  {
    PrefixIsInterval(ShiftRight(n.ip, HostBits(n)), a, HostBits(n));
  }

  lemma {:induction false} ShiftsStayBelow(a: nat, j: nat, k: nat)
    requires a < Pow2(j + k)
    ensures ShiftRight(a, k) < Pow2(j)
    decreases k
  {
    if k > 0 { ShiftsStayBelow(a / 2, j, k - 1); }
  }

  lemma {:induction false} IntervalBelow(p: nat, j: nat, k: nat)
    requires p < Pow2(j)
    ensures ShiftLeft(p, k) + Pow2(k) <= Pow2(j + k)
    decreases k
  {
    if k > 0 { IntervalBelow(p, j, k - 1); }
  }

  /** The last address of a network still fits in 32 bits, so the enumeration never wraps. */
  lemma NetworkFits(n: Network)
    requires n.V4? && n.ones <= 32
    ensures Base(n) + Pow2(HostBits(n)) <= ADDRESSES
  {
    Pow2Values();
    ShiftsStayBelow(n.ip, n.ones, HostBits(n));
    IntervalBelow(ShiftRight(n.ip, HostBits(n)), n.ones, HostBits(n));
  }

  // ---- private address space ----

  predicate IsLinkLocalMulticast(a: Address) {
    a / 256 == 0xE0_0000
  }

  /** isPrivateIP on IPv4: loopback, link-local, and the three RFC 1918 ranges. */
  predicate IsPrivate(a: Address) {
    var first, second := a / 0x100_0000, a / 0x1_0000 % 256;
    || first == 127
    || (first == 169 && second == 254)
    || IsLinkLocalMulticast(a)
    || first == 10
    || (first == 172 && 16 <= second <= 31)
    || (first == 192 && second == 168)
  }

  predicate IsPrivateNetwork(n: Network)
    requires WellFormed(n)
  {
    match n
    case V4(_, _) => NetworkFits(n); IsPrivate(Base(n))
    case V6(local) => local
  }

  // ---- acceptance ----

  function HostCount(ones: nat, bits: nat): nat
    requires ones <= bits
  {
    var hostBits := bits - ones;
    if hostBits <= 1 then Pow2(hostBits)
    else if hostBits >= 31 then MAX_SCAN_HOSTS + 1
    else
      Pow2Monotone(1, hostBits);
      Pow2(hostBits) - 2
  }

  /** The CIDR text a request resolves to, or "" when there is none to detect. */
  function ResolveCIDR(requested: string, primary: Interface): string {
    if Trim(requested) == "" || Lower(Trim(requested)) == "auto" then primary.cidr else Trim(requested)
  }

  /** The verdict ParseScope must reach on a network that parsed. */
  function Verdict(n: Network, allowPublic: bool): Option<ScopeError>
    requires WellFormed(n)
  {
    match n
    case V6(_) =>
      if !IsPrivateNetwork(n) && !allowPublic then Some(PublicIpv6Refused) else None
    case V4(_, ones) =>
      if !IsPrivateNetwork(n) && !allowPublic then Some(PublicRefused)
      else if HostCount(ones, 32) > MAX_SCAN_HOSTS then Some(TooManyHosts)
      else None
  }

  method ParseScope(requested: string, profile: string, allowPublic: bool, primary: Interface,
                    parseCIDR: string -> Option<Network>)
      returns (scope: ScanScope, warnings: seq<WarningCode>, error: Option<ScopeError>)
    requires forall s :: parseCIDR(s).Some? ==> WellFormed(parseCIDR(s).value)
    ensures var cidr := ResolveCIDR(requested, primary);
            error == if cidr == "" then Some(NoLocalNetwork)
                     else if parseCIDR(cidr).None? then Some(InvalidCIDR)
                     else Verdict(parseCIDR(cidr).value, allowPublic)
    ensures error.None? ==>
      && scope.network == parseCIDR(ResolveCIDR(requested, primary)) && scope.network.Some?
      && scope.isPrivate == IsPrivateNetwork(scope.network.value)
      && scope.hostCount == (if scope.network.value.V4? then HostCount(scope.network.value.ones, 32) else 0)
      && (scope.isPrivate || allowPublic)
    ensures error.None? ==>
      (PublicScopeEnabled in warnings <==> allowPublic && (scope.network.value.V6? || !scope.isPrivate))
    ensures error.None? ==> (LargeScope in warnings <==> scope.hostCount > SOFT_WARN_HOSTS)
    ensures error.None? ==> (Ipv6ScopeUnsupported in warnings <==> scope.network.value.V6?)
    ensures error.None? && scope.network.value.V4? ==> Pow2(HostBits(scope.network.value)) <= MAX_SCAN_HOSTS
    ensures scope.requested ==
            if ResolveCIDR(requested, primary) != "" && (Trim(requested) == "" || Lower(Trim(requested)) == "auto")
            then "auto" else Trim(requested)
    ensures scope.publicAllowed == allowPublic && scope.profile == profile && scope.iface == primary.name
  {
    scope := ScanScope(Trim(requested), allowPublic, profile, primary.name, None, 0, false);
    warnings := [];
    error := None;
    var cidr := scope.requested;
    if cidr == "" || Lower(cidr) == "auto" {
      if primary.cidr == "" {
        error := Some(NoLocalNetwork);
        return;
      }
      cidr := primary.cidr;
      scope := scope.(requested := "auto");
    }
    var parsed := parseCIDR(cidr);
    if parsed.None? {
      error := Some(InvalidCIDR);
      return;
    }
    scope := scope.(network := parsed);
    var n := parsed.value;
    if n.V6? {
      scope := scope.(hostCount := 0, isPrivate := IsPrivateNetwork(n));
      warnings := warnings + [Ipv6ScopeUnsupported];
      if !scope.isPrivate && !allowPublic {
        error := Some(PublicIpv6Refused);
        return;
      }
      if allowPublic {
        warnings := warnings + [PublicScopeEnabled];
      }
      return;
    }
    scope := scope.(hostCount := HostCount(n.ones, 32), isPrivate := IsPrivateNetwork(n));
    if !scope.isPrivate && !allowPublic {
      error := Some(PublicRefused);
      return;
    }
    if scope.hostCount > MAX_SCAN_HOSTS {
      error := Some(TooManyHosts);
      return;
    }
    if allowPublic && !scope.isPrivate {
      warnings := warnings + [PublicScopeEnabled];
    }
    AcceptedIsSmall(n, allowPublic);
    if scope.hostCount > SOFT_WARN_HOSTS {
      warnings := warnings + [LargeScope];
    }
  }

  // ---- enumeration ----

  predicate InScope(scope: ScanScope, a: Address)
    requires scope.network.Some? ==> WellFormed(scope.network.value)
  {
    scope.network.Some? && scope.network.value.V4? && Contains(scope.network.value, a)
  }

  /** The first and the last address of a network that has at least four: they name the network and all its hosts. */
  ghost predicate Reserved(n: Network, a: Address)
    requires n.V4? && n.ones <= 32
  {
    HostBits(n) >= 2 && (a == Base(n) || a == Base(n) + Pow2(HostBits(n)) - 1)
  }

  ghost predicate StrictlyAscending(s: seq<Address>) {
    forall i, j | 0 <= i < j < |s| :: s[i] < s[j]
  }

  method HostsInScope(scope: ScanScope) returns (out: seq<Address>)
    requires scope.network.Some? ==> WellFormed(scope.network.value)
    ensures scope.network.None? || scope.network.value.V6? ==> out == []
    ensures scope.network.Some? && scope.network.value.V4? && Pow2(HostBits(scope.network.value)) > MAX_SCAN_HOSTS ==>
              out == []
    ensures scope.network.Some? && scope.network.value.V4? && Pow2(HostBits(scope.network.value)) <= MAX_SCAN_HOSTS ==>
      && StrictlyAscending(out)
      && |out| == HostCount(scope.network.value.ones, 32)
      && forall a: Address :: a in out <==> InScope(scope, a) && !Reserved(scope.network.value, a)
    ensures forall a | a in out :: InScope(scope, a)
  {
    out := [];
    if scope.network.None? || scope.network.value.V6? {
      return;
    }
    var n := scope.network.value;
    var hostBits := HostBits(n);
    var base := Base(n);
    var total := Pow2(hostBits);
    if total > MAX_SCAN_HOSTS {
      return;
    }
    NetworkFits(n);
    SizeOf(hostBits);
    var start, end := 0, total;
    if hostBits >= 2 {
      start, end := 1, total - 1;
    }
    for i := start to end
      invariant |out| == i - start
      invariant forall k | 0 <= k < |out| :: out[k] == base + start + k
    {
      out := out + [(base + i) % ADDRESSES];
    }
    forall a: Address ensures a in out <==> InScope(scope, a) && !Reserved(n, a) {
      ContainsIsInterval(n, a);
      if base + start <= a < base + end {
        assert out[a - base - start] == a;
      }
    }
  }

  lemma SizeOf(hostBits: nat)
    requires Pow2(hostBits) <= MAX_SCAN_HOSTS
    ensures hostBits <= 16
    ensures hostBits >= 1 ==> Pow2(hostBits) >= 2
    ensures hostBits >= 2 ==> Pow2(hostBits) >= 4
  {
    Pow2Values();
    if hostBits > 16 { Pow2Monotone(17, hostBits); }
    if hostBits >= 2 { Pow2Monotone(2, hostBits); }
  }

  // ---- what acceptance guarantees ----

  /** Acceptance means a prefix of /16 or longer, so every accepted scope is enumerated in full. */
  lemma AcceptedIsSmall(n: Network, allowPublic: bool)
    requires n.V4? && n.ones <= 32 && Verdict(n, allowPublic).None?
    ensures n.ones >= 16 && Pow2(HostBits(n)) <= MAX_SCAN_HOSTS
  {
    Pow2Values();
    if n.ones < 16 {
      Pow2Monotone(17, HostBits(n));
    } else {
      Pow2Monotone(HostBits(n), 16);
    }
  }

  lemma BaseInNetwork(n: Network)
    requires n.V4? && n.ones <= 32
    ensures Base(n) < ADDRESSES && Contains(n, Base(n))
  {
    NetworkFits(n);
    ContainsIsInterval(n, Base(n));
  }

  /** Two addresses of a network agree on every prefix that is no longer than the network's own. */
  lemma SharedPrefix(n: Network, a: Address, k: nat)
    requires n.V4? && n.ones <= 32 && HostBits(n) <= k && Contains(n, a)
    ensures Base(n) < ADDRESSES && ShiftRight(a, k) == ShiftRight(Base(n), k)
  {
    BaseInNetwork(n);
    ShiftRightSum(a, HostBits(n), k - HostBits(n));
    ShiftRightSum(Base(n), HostBits(n), k - HostBits(n));
  }

  /** Of an accepted scope that did not need the public flag, every address is private exactly when
      the scope is not a network of 224.0.0.0 shorter than /24. */
  lemma AcceptedScopeIsPrivate(n: Network)
    requires n.V4? && n.ones <= 32 && Verdict(n, false).None?
    ensures Base(n) < ADDRESSES
    ensures (forall a: Address | Contains(n, a) :: IsPrivate(a))
        <==> !(IsLinkLocalMulticast(Base(n)) && n.ones < 24)
  {
    BaseInNetwork(n);
    AcceptedIsSmall(n, false);
    var base := Base(n);
    ShiftRightByOctets(base);
    if IsLinkLocalMulticast(base) && n.ones < 24 {
      Pow2Values();
      Pow2Monotone(9, HostBits(n));
      assert Pow2(9) == 512;
      var next: Address := base / 256 * 256 + 256;
      ContainsIsInterval(n, next);
      assert !IsPrivate(next);
    } else {
      forall a: Address | Contains(n, a) ensures IsPrivate(a) {
        SharedPrefix(n, a, 16);
        ShiftRightByOctets(a);
        assert a / 0x100_0000 == a / 65536 / 256 && base / 0x100_0000 == base / 65536 / 256;
        if IsLinkLocalMulticast(base) {
          SharedPrefix(n, a, 8);
        }
      }
    }
  }

  /** 224.0.0.0/16 is accepted without the public flag although 224.0.1.0 is not private. */
  lemma MulticastScopeLeaks()
    ensures Verdict(V4(0xE000_0000, 16), false).None?
    ensures Contains(V4(0xE000_0000, 16), 0xE000_0100) && !IsPrivate(0xE000_0100)
  {
    var n := V4(0xE000_0000, 16);
    Pow2Values();
    ShiftRightByOctets(n.ip);
    ShiftRightByOctets(0xE000_0100);
    ShiftLeftIsTimes(0xE000, 16);
    assert Base(n) == 0xE000_0000;
  }

  /** The size limit carries the claim: the base of 10.0.0.0/7 is private, 11.0.0.0 in it is not. */
  lemma PrivateBaseIsNotEnough()
    ensures IsPrivateNetwork(V4(0x0A00_0000, 7))
    ensures Contains(V4(0x0A00_0000, 7), 0x0B00_0000) && !IsPrivate(0x0B00_0000)
    ensures Verdict(V4(0x0A00_0000, 7), false) == Some(TooManyHosts)
  {
    var n := V4(0x0A00_0000, 7);
    Pow2Values();
    assert Pow2(25) == 0x200_0000;
    ShiftLeftIsTimes(5, 25);
    PrefixIsInterval(5, 0x0A00_0000, 25);
    PrefixIsInterval(5, 0x0B00_0000, 25);
    assert Base(n) == 0x0A00_0000;
    Pow2Monotone(17, 25);
  }

  // ---- the ranges and limits by number ----

  /** Private is 10/8, 172.16/12, 192.168/16, loopback 127/8, link-local 169.254/16 and 224.0.0/24. */
  lemma PrivateRanges(a: Address)
    ensures IsPrivate(a) <==>
            || 0x0A00_0000 <= a <= 0x0AFF_FFFF
            || 0xAC10_0000 <= a <= 0xAC1F_FFFF
            || 0xC0A8_0000 <= a <= 0xC0A8_FFFF
            || 0x7F00_0000 <= a <= 0x7FFF_FFFF
            || 0xA9FE_0000 <= a <= 0xA9FE_FFFF
            || 0xE000_0000 <= a <= 0xE000_00FF
  {
    var first, second, rest := a / 0x100_0000, a / 0x1_0000 % 256, a % 0x1_0000;
    assert a == first * 0x100_0000 + second * 0x1_0000 + rest;
  }

  /** A network is too large to scan exactly when its prefix is shorter than /16. */
  lemma TooLargeExactly(ones: nat)
    requires ones <= 32
    ensures HostCount(ones, 32) > 65536 <==> ones < 16
    ensures HostCount(32, 32) == 1 && HostCount(31, 32) == 2 && HostCount(30, 32) == 2 && HostCount(24, 32) == 254
    ensures ones <= 1 ==> HostCount(ones, 32) == 65537
    ensures 2 <= ones <= 30 ==> HostCount(ones, 32) == Pow2(32 - ones) - 2
    ensures HostCount(22, 32) <= SOFT_WARN_HOSTS < HostCount(21, 32)
  {
    Pow2Values();
    assert Pow2(11) == 2048;
    if ones < 16 {
      Pow2Monotone(17, 32 - ones);
    } else {
      Pow2Monotone(32 - ones, 16);
    }
  }
}
