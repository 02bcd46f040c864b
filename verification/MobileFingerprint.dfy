/** The mobile fingerprint scorer: a ledger of scored evidence followed by a threshold classifier. */
module MobileFingerprint {
  import opened Sorting
  import opened Text
  import opened Numbers

  datatype OS = IOS | IPadOS | Android
  datatype Kind =
    | MacOUI | Hostname | MDNS | DNSQuery | DHCPHostname | ServicePort | UserAgent | PassivePacket | VendorHint
    | ServiceName
  datatype Strength = Strong | Medium | Weak

  /** Which of the four add operations filed the evidence. */
  datatype Target = ToIOS | ToIPad | ToApple | ToAndroid

  datatype Event = Event(target: Target, kind: Kind, impact: int, strength: Strength)

  /** What an evidence id is rendered from: the system it is filed under, its kind, its number. */
  datatype EvidenceID = EvidenceID(os: OS, kind: Kind, n: nat)

  datatype Item = Item(id: EvidenceID, kind: Kind, hint: OS, impact: int, strength: Strength)

  datatype Reason = BothScoresHigh | AppleNameAndroidVendor | AndroidNameAppleVendor
  datatype Severity = Info | Warning
  datatype ConflictItem = ConflictItem(reason: Reason, appleIDs: seq<string>, androidIDs: seq<string>,
                                       severity: Severity)

  datatype Verdict =
    | Confirmed(os: OS) | Probable(os: OS) | Possible(os: OS) | Conflicting | UnknownMobile | UnknownDevice

  /** The three id lists the scorer keeps per system. */
  datatype List = Every | Vendor | Identity

  predicate Files(list: List, kind: Kind) {
    match list
    case Every => true
    case Vendor => kind == MacOUI || kind == VendorHint
    case Identity => kind == Hostname || kind == DHCPHostname || kind == UserAgent
  }

  /** Vendor evidence is a MAC address or a vendor hint, identity evidence a name the device gives itself. */
  lemma KindsFiled(kind: Kind)
    ensures Files(Vendor, kind) <==> kind in {MacOUI, VendorHint}
    ensures Files(Identity, kind) <==> kind in {Hostname, DHCPHostname, UserAgent}
    ensures Files(Every, kind)
  {
  }

  // ---- evidence ids ----

  function OSText(os: OS): string {
    match os
    case IOS => "ios"
    case IPadOS => "ipados"
    case Android => "android"
  }

  function KindText(kind: Kind): string {
    match kind
    case MacOUI => "mac-oui"
    case Hostname => "hostname"
    case MDNS => "mdns"
    case DNSQuery => "dns-query"
    case DHCPHostname => "dhcp-hostname"
    case ServicePort => "service-port"
    case UserAgent => "user-agent"
    case PassivePacket => "passive-packet"
    case VendorHint => "vendor-hint"
    case ServiceName => "service-name"
  }

  function TwoDigits(n: nat): string {
    if n < 10 then "0" + Decimal(n) else Decimal(n)
  }

  function IDText(id: EvidenceID): string {
    "mobile-" + OSText(id.os) + "-" + KindText(id.kind) + "-" + TwoDigits(id.n)
  }

  function Texts(ids: seq<EvidenceID>): seq<string> {
    seq(|ids|, i requires 0 <= i < |ids| => IDText(ids[i]))
  }

  lemma {:induction false} DecimalDigits(n: nat)
    ensures forall c | c in Decimal(n) :: '0' <= c <= '9'
  {
    if n >= 10 {
      DecimalDigits(n / 10);
    }
  }

  lemma {:induction false} DecimalNoLeadingZero(n: nat)
    requires n > 0
    ensures Decimal(n)[0] != '0'
  {
    if n >= 10 {
      DecimalNoLeadingZero(n / 10);
      assert Decimal(n)[0] == Decimal(n / 10)[0];
    }
  }

  lemma TwoDigitsInjective(m: nat, n: nat)
    requires TwoDigits(m) == TwoDigits(n)
    ensures m == n
  {
    if m < 10 && n < 10 {
      assert TwoDigits(m)[1..] == Decimal(m) && TwoDigits(n)[1..] == Decimal(n);
    } else if m < 10 {
      DecimalNoLeadingZero(n);
    } else if n < 10 {
      DecimalNoLeadingZero(m);
    }
    DecimalInjective(m, n);
  }

  lemma TwoDigitsUndashed(n: nat)
    ensures '-' !in TwoDigits(n) && TwoDigits(n) != [] && forall c | c in TwoDigits(n) :: !IsSpace(c)
  {
    DecimalDigits(n);
  }

  lemma LastDashAt(p: string, d: string, q: nat)
    requires '-' !in d && q < |p + "-" + d| && (p + "-" + d)[q] == '-'
    ensures q <= |p|
  {
    var s := p + "-" + d;
    assert forall i | |p| < i < |s| :: s[i] == d[i - |p| - 1] && s[i] in d;
  }

  /** What follows the last dash is determined. */
  lemma AfterLastDash(p: string, d: string, q: string, e: string)
    requires p + "-" + d == q + "-" + e && '-' !in d && '-' !in e
    ensures d == e
  {
    var s := p + "-" + d;
    assert s[|p|] == '-' && s[|q|] == '-';
    LastDashAt(p, d, |q|);
    LastDashAt(q, e, |p|);
    assert s[|p| + 1..] == d && s[|q| + 1..] == e;
  }

  /** Two ids of one scorer are told apart by their text. */
  lemma IDTextInjective(a: EvidenceID, b: EvidenceID)
    requires IDText(a) == IDText(b)
    ensures a.n == b.n
  {
    TwoDigitsUndashed(a.n);
    TwoDigitsUndashed(b.n);
    AfterLastDash("mobile-" + OSText(a.os) + "-" + KindText(a.kind), TwoDigits(a.n),
                  "mobile-" + OSText(b.os) + "-" + KindText(b.kind), TwoDigits(b.n));
    TwoDigitsInjective(a.n, b.n);
  }

  lemma Untrimmed(s: string)
    requires s != [] && !IsSpace(s[0]) && !IsSpace(s[|s| - 1])
    ensures Trim(s) == s
  {
  }

  /** Trimming an id before storing it changes nothing. */
  lemma IDTextTrimmed(id: EvidenceID)
    ensures Trim(IDText(id)) == IDText(id) && IDText(id) != ""
  {
    var s, t := IDText(id), TwoDigits(id.n);
    TwoDigitsUndashed(id.n);
    assert s[0] == 'm';
    assert s[|s| - 1] == t[|t| - 1] && t[|t| - 1] in t;
    Untrimmed(s);
  }

  // ---- what a history of additions amounts to ----

  predicate Reaches(target: Target, os: OS) {
    match target
    case ToIOS => os == IOS
    case ToIPad => os == IPadOS
    case ToApple => os == IOS || os == IPadOS
    case ToAndroid => os == Android
  }

  /** Apple evidence is filed under an iOS id. */
  function HintOf(target: Target): OS {
    match target
    case ToIPad => IPadOS
    case ToAndroid => Android
    case _ => IOS
  }

  function EventID(e: Event, n: nat): EvidenceID {
    EvidenceID(HintOf(e.target), e.kind, n)
  }

  datatype History = Start | Added(before: History, event: Event)

  function Length(h: History): nat {
    match h
    case Start => 0
    case Added(b, _) => Length(b) + 1
  }

  function Score(h: History, os: OS): int {
    match h
    case Start => 0
    case Added(b, e) => Score(b, os) + (if Reaches(e.target, os) then e.impact else 0)
  }

  function Kinds(h: History, os: OS): set<Kind> {
    match h
    case Start => {}
    case Added(b, e) => Kinds(b, os) + (if Reaches(e.target, os) then {e.kind} else {})
  }

  function StrongCount(h: History, os: OS): nat {
    match h
    case Start => 0
    case Added(b, e) => StrongCount(b, os) + (if Reaches(e.target, os) && e.strength == Strong then 1 else 0)
  }

  predicate Reaching(e: Event, os: OS, list: List) {
    Reaches(e.target, os) && Files(list, e.kind)
  }

  predicate Seen(h: History, os: OS, list: List) {
    match h
    case Start => false
    case Added(b, e) => Seen(b, os, list) || Reaching(e, os, list)
  }

  function IDs(h: History, os: OS, list: List): seq<EvidenceID> {
    match h
    case Start => []
    case Added(b, e) => if Reaching(e, os, list) then IDs(b, os, list) + [EventID(e, Length(h))] else IDs(b, os, list)
  }

  function ItemAt(e: Event, n: nat): Item {
    Item(EventID(e, n), e.kind, HintOf(e.target), e.impact, e.strength)
  }

  function Items(h: History): seq<Item> {
    match h
    case Start => []
    case Added(b, e) => Items(b) + [ItemAt(e, Length(h))]
  }

  function EventAt(h: History, n: nat): Event
    requires 1 <= n <= Length(h)
  {
    if n == Length(h) then h.event else EventAt(h.before, n)
  }

  lemma {:induction false} IDsNumbered(h: History, os: OS, list: List, id: EvidenceID)
    requires id in IDs(h, os, list)
    ensures 1 <= id.n <= Length(h) && id == EventID(EventAt(h, id.n), id.n) && Reaching(EventAt(h, id.n), os, list)
  {
    if id in IDs(h.before, os, list) {
      IDsNumbered(h.before, os, list, id);
    }
  }

  function AppendUnique(ids: seq<EvidenceID>, id: EvidenceID): seq<EvidenceID> {
    if id in ids then ids else ids + [id]
  }

  lemma AppendNew(h: History, os: OS, list: List, e: Event)
    ensures AppendUnique(IDs(h, os, list), EventID(e, Length(h) + 1)) == IDs(h, os, list) + [EventID(e, Length(h) + 1)]
  {
    if EventID(e, Length(h) + 1) in IDs(h, os, list) {
      IDsNumbered(h, os, list, EventID(e, Length(h) + 1));
    }
  }

  lemma ExtendList(h: History, e: Event, os: OS, list: List)
    requires Reaches(e.target, os)
    ensures IDs(Added(h, e), os, list)
         == if Files(list, e.kind) then AppendUnique(IDs(h, os, list), EventID(e, Length(h) + 1)) else IDs(h, os, list)
  {
    AppendNew(h, os, list, e);
  }

  /** Looking a new id up by its text, as the source does, agrees with looking the id up. */
  lemma TextLookup(h: History, os: OS, list: List, id: EvidenceID)
    requires id.n == Length(h) + 1
    ensures IDText(id) !in Texts(IDs(h, os, list)) && id !in IDs(h, os, list)
  {
    var ids := IDs(h, os, list);
    if IDText(id) in Texts(ids) {
      var i :| 0 <= i < |ids| && Texts(ids)[i] == IDText(id);
      IDTextInjective(id, ids[i]);
      IDsNumbered(h, os, list, ids[i]);
    }
    if id in ids {
      IDsNumbered(h, os, list, id);
    }
  }

  // ---- the books, one page per system ----

  datatype Page = Page(categories: set<Kind>, strong: nat, ids: seq<EvidenceID>, vendorIDs: seq<EvidenceID>,
                       identityIDs: seq<EvidenceID>)

  type Books = map<OS, Page>

  const BLANK := Page({}, 0, [], [], [])

  function PageOf(b: Books, os: OS): Page {
    if os in b then b[os] else BLANK
  }

  function Listed(ids: seq<EvidenceID>, list: List, kind: Kind, id: EvidenceID): seq<EvidenceID> {
    if Files(list, kind) then AppendUnique(ids, id) else ids
  }

  function Entered(p: Page, kind: Kind, strength: Strength, id: EvidenceID): Page {
    Page(p.categories + {kind}, p.strong + (if strength == Strong then 1 else 0), Listed(p.ids, Every, kind, id),
         Listed(p.vendorIDs, Vendor, kind, id), Listed(p.identityIDs, Identity, kind, id))
  }

  /** Books one piece of evidence under one system. */
  function TrackCategory(b: Books, os: OS, kind: Kind, strength: Strength, id: EvidenceID): Books {
    b[os := Entered(PageOf(b, os), kind, strength, id)]
  }

  /** What a history gives a system. */
  function PageFor(h: History, os: OS): Page {
    Page(Kinds(h, os), StrongCount(h, os), IDs(h, os, Every), IDs(h, os, Vendor), IDs(h, os, Identity))
  }

  ghost predicate Filed(b: Books, h: History) {
    PageOf(b, IOS) == PageFor(h, IOS) && PageOf(b, IPadOS) == PageFor(h, IPadOS)
        && PageOf(b, Android) == PageFor(h, Android)
  }

  lemma EnteredNext(h: History, os: OS, e: Event)
    requires Reaches(e.target, os)
    ensures Entered(PageFor(h, os), e.kind, e.strength, EventID(e, Length(h) + 1)) == PageFor(Added(h, e), os)
  {
    ExtendList(h, e, os, Every);
    ExtendList(h, e, os, Vendor);
    ExtendList(h, e, os, Identity);
  }

  lemma Unreached(h: History, os: OS, e: Event)
    requires !Reaches(e.target, os)
    ensures PageFor(Added(h, e), os) == PageFor(h, os)
  {
  }

  lemma PageNext(b: Books, h: History, e: Event, os: OS)
    requires e.target != ToApple && PageOf(b, os) == PageFor(h, os)
    ensures PageOf(TrackCategory(b, HintOf(e.target), e.kind, e.strength, EventID(e, Length(h) + 1)), os)
         == PageFor(Added(h, e), os)
  {
    if HintOf(e.target) == os {
      EnteredNext(h, os, e);
    } else {
      Unreached(h, os, e);
    }
  }

  lemma FiledOnce(b: Books, h: History, e: Event)
    requires Filed(b, h) && e.target != ToApple
    ensures Filed(TrackCategory(b, HintOf(e.target), e.kind, e.strength, EventID(e, Length(h) + 1)), Added(h, e))
  {
    PageNext(b, h, e, IOS);
    PageNext(b, h, e, IPadOS);
    PageNext(b, h, e, Android);
  }

  /** Apple evidence is booked under iOS and iPadOS with the same id. */
  lemma FiledTwice(b: Books, h: History, e: Event)
    requires Filed(b, h) && e.target == ToApple
    ensures var id := EventID(e, Length(h) + 1);
            Filed(TrackCategory(TrackCategory(b, IOS, e.kind, e.strength, id), IPadOS, e.kind, e.strength, id),
                  Added(h, e))
  {
    EnteredNext(h, IOS, e);
    EnteredNext(h, IPadOS, e);
    Unreached(h, Android, e);
  }

  // ---- the verdict a history deserves ----

  ghost predicate SeenApple(h: History, list: List) {
    Seen(h, IOS, list) || Seen(h, IPadOS, list)
  }

  predicate BothHigh(h: History) {
    MaxInt(Score(h, IOS), Score(h, IPadOS)) >= 60 && Score(h, Android) >= 60
  }

  /** Two high scores, or a name that says one system beside a manufacturer of the other. */
  ghost predicate Conflicted(h: History) {
    || BothHigh(h)
    || (SeenApple(h, Identity) && Seen(h, Android, Vendor))
    || (Seen(h, Android, Identity) && SeenApple(h, Vendor))
  }

  function AppleIDs(h: History, list: List): seq<string> {
    SortedSet(Texts(IDs(h, IOS, list) + IDs(h, IPadOS, list)))
  }

  function AndroidIDs(h: History, list: List): seq<string> {
    SortedSet(Texts(IDs(h, Android, list)))
  }

  function ConflictIf(c: bool, reason: Reason, appleIDs: seq<string>, androidIDs: seq<string>): seq<ConflictItem> {
    if c then [ConflictItem(reason, appleIDs, androidIDs, Warning)] else []
  }

  function ConflictList(high: bool, apple: seq<string>, android: seq<string>, appleNames: seq<string>,
                        androidNames: seq<string>,
                        appleVendors: seq<string>, androidVendors: seq<string>): seq<ConflictItem> {
    ConflictIf(high, BothScoresHigh, apple, android)
    + ConflictIf(appleNames != [] && androidVendors != [], AppleNameAndroidVendor, appleNames, androidVendors)
    + ConflictIf(androidNames != [] && appleVendors != [], AndroidNameAppleVendor, appleVendors, androidNames)
  }

  function ConflictsOf(h: History): seq<ConflictItem> {
    ConflictList(BothHigh(h), AppleIDs(h, Every), AndroidIDs(h, Every), AppleIDs(h, Identity), AndroidIDs(h, Identity),
                 AppleIDs(h, Vendor), AndroidIDs(h, Vendor))
  }

  lemma {:induction false} IDsSeen(h: History, os: OS, list: List)
    ensures IDs(h, os, list) != [] <==> Seen(h, os, list)
  {
    if h.Added? {
      IDsSeen(h.before, os, list);
    }
  }

  lemma NoneGathered(ids: seq<EvidenceID>)
    ensures SortedSet(Texts(ids)) == [] <==> ids == []
  {
    if ids != [] {
      IDTextTrimmed(ids[0]);
      assert Texts(ids)[0] in SortedSet(Texts(ids));
    }
  }

  lemma Gathered(h: History, list: List)
    ensures AppleIDs(h, list) != [] <==> SeenApple(h, list)
    ensures AndroidIDs(h, list) != [] <==> Seen(h, Android, list)
  {
    IDsSeen(h, IOS, list);
    IDsSeen(h, IPadOS, list);
    IDsSeen(h, Android, list);
    NoneGathered(IDs(h, IOS, list) + IDs(h, IPadOS, list));
    NoneGathered(IDs(h, Android, list));
  }

  lemma {:induction false} ScoredIsSeen(h: History, os: OS)
    requires Score(h, os) > 0
    ensures Seen(h, os, Every)
  {
    if !Reaches(h.event.target, os) {
      ScoredIsSeen(h.before, os);
    }
  }

  lemma BothHighGathered(h: History)
    requires BothHigh(h)
    ensures AppleIDs(h, Every) != [] && AndroidIDs(h, Every) != []
  {
    Gathered(h, Every);
    ScoredIsSeen(h, Android);
    ScoredIsSeen(h, if Score(h, IOS) >= 60 then IOS else IPadOS);
  }

  /** What sortedUnique returns: such a list is its own sorted set. */
  ghost predicate IsSorted(ids: seq<string>) {
    Ascending(StringLess, ids) && "" !in ids
  }

  lemma SortedOnce(ids: seq<string>)
    requires IsSorted(ids)
    ensures SortedSet(ids) == ids
  {
    var r := SortedSet(ids);
    forall x ensures x in Elements(r) <==> x in Elements(ids) {}
    StringsTotal(Elements(r));
    AscendingUnique(StringLess, r, ids);
  }

  lemma ConflictListMeaning(high: bool, apple: seq<string>, android: seq<string>, appleNames: seq<string>,
                            androidNames: seq<string>,
                            appleVendors: seq<string>, androidVendors: seq<string>, all: seq<ConflictItem>)
    requires all == ConflictList(high, apple, android, appleNames, androidNames, appleVendors, androidVendors)
    ensures all != [] <==>
              high || (appleNames != [] && androidVendors != []) || (androidNames != [] && appleVendors != [])
    ensures forall c | c in all :: c.severity == Warning
  {
  }

  /** The list is empty exactly when nothing conflicts. */
  lemma ConflictsExactly(h: History)
    ensures ConflictsOf(h) != [] <==> Conflicted(h)
    ensures forall c | c in ConflictsOf(h) :: c.severity == Warning
  {
    Gathered(h, Identity);
    Gathered(h, Vendor);
    ConflictListMeaning(BothHigh(h), AppleIDs(h, Every), AndroidIDs(h, Every), AppleIDs(h, Identity),
                        AndroidIDs(h, Identity),
                        AppleIDs(h, Vendor), AndroidIDs(h, Vendor), ConflictsOf(h));
  }

  /** The highest score; ties go to iOS, then iPadOS. */
  function Leader(h: History): OS {
    if Score(h, IOS) >= Score(h, IPadOS) && Score(h, IOS) >= Score(h, Android) then IOS
    else if Score(h, IPadOS) >= Score(h, Android) then IPadOS
    else Android
  }

  function Graded(os: OS, score: int, kinds: set<Kind>, strong: nat): Verdict {
    if score == 0 then UnknownDevice
    else if score >= 85 && strong >= 2 && |kinds| >= 2 then Confirmed(os)
    else if score >= 70 && |kinds| >= 2 then Probable(os)
    else if score >= 45 || kinds == {DNSQuery} then Possible(os)
    else UnknownMobile
  }

  ghost function VerdictOf(h: History): Verdict {
    var os := Leader(h);
    if Conflicted(h) then Conflicting else Graded(os, Score(h, os), Kinds(h, os), StrongCount(h, os))
  }

  lemma VerdictMeans(h: History)
    ensures BothHigh(h) ==> Conflicted(h)
    ensures Conflicted(h) ==> VerdictOf(h) == Conflicting
    ensures !Conflicted(h) ==>
              var os := Leader(h); VerdictOf(h) == Graded(os, Score(h, os), Kinds(h, os), StrongCount(h, os))
    ensures VerdictOf(h) == Conflicting ==> Conflicted(h)
  {
  }

  lemma PagesMean(b: Books, h: History, os: OS)
    requires Filed(b, h)
    ensures PageOf(b, os) == PageFor(h, os)
  {
  }

  function Clamp(v: real, low: real, high: real): real {
    if v < low then low else if v > high then high else v
  }

  datatype Fingerprint = Fingerprint(verdict: Verdict, confidence: real, ios: int, ipad: int, android: int,
                                     evidence: seq<Item>, conflicts: seq<ConflictItem>)

  // ---- the scorer ----

  function OSRank(os: OS): nat {
    match os
    case IOS => 0
    case IPadOS => 1
    case Android => 2
  }

  datatype Candidate = Candidate(os: OS, score: int)

  predicate Before(a: Candidate, b: Candidate) {
    a.score > b.score || (a.score == b.score && OSRank(a.os) < OSRank(b.os))
  }

  lemma FirstIsLeast(all: seq<Candidate>, s: seq<Candidate>)
    requires all != [] && Distinct(all) && TotalOn(Before, Elements(all)) && s == Sort(Before, all)
    ensures s[0] in all && forall x | x in all :: x == s[0] || Before(s[0], x)
  {
    SortKeepsElements(Before, all);
    SortAscending(Before, all);
    assert s[0] in Elements(s);
    forall x | x in all ensures x == s[0] || Before(s[0], x) {
      assert x in Elements(s);
      var i :| 0 <= i < |s| && s[i] == x;
    }
  }

  lemma BeforeTotal(s: set<Candidate>)
    requires forall a, b | a in s && b in s && a.os == b.os :: a == b
    ensures TotalOn(Before, s)
  {
  }

  lemma ThreeDistinct(a: Candidate, b: Candidate, c: Candidate, all: seq<Candidate>)
    requires a.os == IOS && b.os == IPadOS && c.os == Android && |all| == 3 && all[0] == a && all[1] == b && all[2] == c
    ensures Distinct(all) && forall x, y | x in Elements(all) && y in Elements(all) && x.os == y.os :: x == y
  {
  }

  lemma LeastOfThree(a: Candidate, b: Candidate, c: Candidate, x: Candidate)
    requires a.os == IOS && b.os == IPadOS && c.os == Android && (x == a || x == b || x == c)
    requires (x == a || Before(x, a)) && (x == b || Before(x, b)) && (x == c || Before(x, c))
    ensures x == if a.score >= b.score && a.score >= c.score then a else if b.score >= c.score then b else c
  {
  }

  lemma FirstCandidate(a: Candidate, b: Candidate, c: Candidate, all: seq<Candidate>, s: seq<Candidate>)
    requires a.os == IOS && b.os == IPadOS && c.os == Android && |all| == 3 && all[0] == a && all[1] == b && all[2] == c
    requires s == Sort(Before, all)
    ensures s[0] == if a.score >= b.score && a.score >= c.score then a else if b.score >= c.score then b else c
  {
    ThreeDistinct(a, b, c, all);
    BeforeTotal(Elements(all));
    FirstOf(a, b, c, all, s, s[0]);
  }

  lemma FirstOf(a: Candidate, b: Candidate, c: Candidate, all: seq<Candidate>, s: seq<Candidate>, first: Candidate)
    requires a.os == IOS && b.os == IPadOS && c.os == Android && |all| == 3 && all[0] == a && all[1] == b && all[2] == c
    requires Distinct(all) && TotalOn(Before, Elements(all)) && s == Sort(Before, all) && first == s[0]
    ensures first == if a.score >= b.score && a.score >= c.score then a else if b.score >= c.score then b else c
  {
    FirstIsLeast(all, s);
    assert a in all && b in all && c in all;
    LeastOfThree(a, b, c, first);
  }

  /** The verdict by numbers, as far as nothing conflicts: confirmed from 85 points with two strong items of two kinds,
      probable from 70 with two kinds, possible from 45 or from DNS alone. */
  lemma VerdictByNumber(h: History)
    ensures !Conflicted(h) ==>
      var os, v := Leader(h), VerdictOf(h);
      var score, twoKinds := Score(h, os), |Kinds(h, os)| >= 2;
      && (v == Confirmed(os) <==> score >= 85 && StrongCount(h, os) >= 2 && twoKinds)
      && (v == Probable(os) <==> score >= 70 && twoKinds && !(score >= 85 && StrongCount(h, os) >= 2))
      && (v == Possible(os) <==>
            score != 0 && !(score >= 70 && twoKinds) && (score >= 45 || Kinds(h, os) == {DNSQuery}))
      && (v == UnknownDevice <==> score == 0)
      && (v == UnknownMobile <==> score != 0 && score < 45 && Kinds(h, os) != {DNSQuery})
    ensures VerdictOf(h) in {Conflicting, UnknownMobile, UnknownDevice} || VerdictOf(h).os == Leader(h)
  {
  }

  /** A confirmed or probable system is as sure as its points say in percent, up to 0.98 and 0.84; a possible one never
      surer than 0.69 nor less than 0.45. */
  predicate SureAs(v: Verdict, points: int, confidence: real) {
    var share := points as real / 100.0;
    match v
    case Confirmed(_) => confidence == MinReal(share, 0.98)
    case Probable(_) => confidence == MinReal(share, 0.84)
    case Possible(_) => confidence == if share < 0.45 then 0.45 else MinReal(share, 0.69)
    case Conflicting => confidence == 0.50
    case UnknownMobile => confidence == 0.25
    case UnknownDevice => confidence == 0.0
  }

  function LevelBand(v: Verdict): (real, real) {
    match v
    case Conflicting => (0.50, 0.50)
    case Confirmed(_) => (0.85, 0.98)
    case Probable(_) => (0.70, 0.84)
    case Possible(_) => (0.45, 0.69)
    case UnknownMobile => (0.25, 0.25)
    case UnknownDevice => (0.0, 0.0)
  }

  function Confidence(v: Verdict, top: int): (c: real)
    ensures LevelBand(v).0 <= c <= LevelBand(v).1
  {
    match v
    case Conflicting => 0.50
    case Confirmed(_) => Clamp(top as real / 100.0, 0.85, 0.98)
    case Probable(_) => Clamp(top as real / 100.0, 0.70, 0.84)
    case Possible(_) => Clamp(top as real / 100.0, 0.45, 0.69)
    case UnknownMobile => 0.25
    case UnknownDevice => 0.0
  }

  /** The bands never cut a confidence from below, except that of a possible system. */
  lemma BandsFit(h: History)
    ensures SureAs(VerdictOf(h), Score(h, Leader(h)), Confidence(VerdictOf(h), Score(h, Leader(h))))
  {
    VerdictByNumber(h);
  }

  lemma LeaderIsTop(h: History)
    ensures Score(h, Leader(h)) == MaxInt(Score(h, Android), MaxInt(Score(h, IOS), Score(h, IPadOS)))
  {
  }

  function StrengthRank(s: Strength): nat {
    match s
    case Strong => 0
    case Medium => 1
    case Weak => 2
  }

  /** The sorted ids filed for the Apple systems and for Android. */
  method Gather(ios: seq<EvidenceID>, ipad: seq<EvidenceID>, droid: seq<EvidenceID>, ghost h: History, ghost list: List)
    returns (apple: seq<string>, android: seq<string>)
    requires ios == IDs(h, IOS, list) && ipad == IDs(h, IPadOS, list) && droid == IDs(h, Android, list)
    ensures apple == AppleIDs(h, list) && android == AndroidIDs(h, list)
    ensures IsSorted(apple) && IsSorted(android)
  {
    apple := DedupSorted(Texts(ios + ipad));
    android := DedupSorted(Texts(droid));
  }

  ghost predicate KeyIn(conflicts: seq<ConflictItem>, reason: Reason, appleIDs: seq<string>, androidIDs: seq<string>) {
    exists c | c in conflicts :: c.reason == reason && c.appleIDs == appleIDs && c.androidIDs == androidIDs
  }

  method IsKnown(conflicts: seq<ConflictItem>, reason: Reason, appleIDs: seq<string>, androidIDs: seq<string>)
      returns (known: bool)
    ensures known <==> KeyIn(conflicts, reason, appleIDs, androidIDs)
  {
    known := false;
    for i := 0 to |conflicts|
      invariant !known
      invariant forall k | 0 <= k < i ::
                  !(conflicts[k].reason == reason && conflicts[k].appleIDs == appleIDs
                    && conflicts[k].androidIDs == androidIDs)
    {
      var c := conflicts[i];
      if c.reason == reason && c.appleIDs == appleIDs && c.androidIDs == androidIDs {
        return true;
      }
    }
  }

  method Resort(ids: seq<string>) returns (r: seq<string>)
    requires IsSorted(ids)
    ensures r == ids
  {
    SortedOnce(ids);
    r := DedupSorted(ids);
  }

  method GatherAll(b: Books, ghost h: History)
    returns (apple: seq<string>, android: seq<string>, appleNames: seq<string>, androidNames: seq<string>,
             appleVendors: seq<string>, androidVendors: seq<string>)
    requires Filed(b, h)
    ensures apple == AppleIDs(h, Every) && android == AndroidIDs(h, Every)
    ensures appleNames == AppleIDs(h, Identity) && androidNames == AndroidIDs(h, Identity)
    ensures appleVendors == AppleIDs(h, Vendor) && androidVendors == AndroidIDs(h, Vendor)
    ensures IsSorted(apple) && IsSorted(android) && IsSorted(appleNames) && IsSorted(androidNames)
    ensures IsSorted(appleVendors) && IsSorted(androidVendors)
    ensures BothHigh(h) ==> apple != [] && android != []
  {
    var ios, ipad, droid := PageOf(b, IOS), PageOf(b, IPadOS), PageOf(b, Android);
    apple, android := Gather(ios.ids, ipad.ids, droid.ids, h, Every);
    appleNames, androidNames := Gather(ios.identityIDs, ipad.identityIDs, droid.identityIDs, h, Identity);
    appleVendors, androidVendors := Gather(ios.vendorIDs, ipad.vendorIDs, droid.vendorIDs, h, Vendor);
    if BothHigh(h) {
      BothHighGathered(h);
    }
  }

  /** The candidate the ranking puts first. */
  method Leading(ios: int, ipad: int, android: int) returns (top: Candidate)
    ensures top == if ios >= ipad && ios >= android then Candidate(IOS, ios)
                   else if ipad >= android then Candidate(IPadOS, ipad) else Candidate(Android, android)
  {
    var a, b, c := Candidate(IOS, ios), Candidate(IPadOS, ipad), Candidate(Android, android);
    var candidates := [a, b, c];
    var ranked := Sort(Before, candidates);
    FirstCandidate(a, b, c, candidates, ranked);
    top := ranked[0];
  }

  predicate ItemBefore(a: Item, b: Item) {
    if a.strength != b.strength then StrengthRank(a.strength) < StrengthRank(b.strength)
    else StringLess(IDText(a.id), IDText(b.id))
  }

  /** Strong items come before medium ones, those before weak ones, and among equals the ids ascend. */
  ghost predicate StrongestFirst(items: seq<Item>) {
    forall i, j | 0 <= i < j < |items| ::
      && (items[i].strength == Weak ==> items[j].strength == Weak)
      && (items[j].strength == Strong ==> items[i].strength == Strong)
      && (items[i].strength == items[j].strength ==> !StringLess(IDText(items[j].id), IDText(items[i].id)))
  }

  lemma ItemOrder()
    ensures WeakOrder(ItemBefore)
  {
    forall a, b ensures !(ItemBefore(a, b) && ItemBefore(b, a)) { StringLessAsymmetric(IDText(a.id), IDText(b.id)); }
    forall a, b, c | !ItemBefore(b, a) && !ItemBefore(c, b) ensures !ItemBefore(c, a) {
      if a.strength == b.strength == c.strength {
        StringsTotal({IDText(a.id), IDText(b.id), IDText(c.id)});
      }
    }
  }

  lemma OrderedIsStrongestFirst(items: seq<Item>)
    requires Ordered(ItemBefore, items)
    ensures StrongestFirst(items)
  {
  }

  predicate DNSOnly(kinds: set<Kind>) {
    |kinds| == 1 && DNSQuery in kinds
  }

  predicate MACOnlyRandomized(kinds: set<Kind>, randomizedMAC: bool) {
    randomizedMAC && |kinds| == 1 && MacOUI in kinds
  }

  function Classify(os: OS, score: int, kinds: set<Kind>, strong: nat, randomizedMAC: bool): Verdict {
    var confirmed := score >= 85 && strong >= 2 && |kinds| >= 2 && !DNSOnly(kinds)
        && !MACOnlyRandomized(kinds, randomizedMAC);
    var probable := score >= 70 && |kinds| >= 2 && !DNSOnly(kinds) && !MACOnlyRandomized(kinds, randomizedMAC);
    var possible := score >= 45 || DNSOnly(kinds);
    if confirmed then Confirmed(os) else if probable then Probable(os) else if possible then Possible(os)
    else UnknownMobile
  }

  lemma DNSOnlyMeans(kinds: set<Kind>)
    ensures DNSOnly(kinds) <==> kinds == {DNSQuery}
  {
    if DNSOnly(kinds) {
      assert |kinds - {DNSQuery}| == 0;
    }
  }

  /** Needing two kinds of evidence already excludes DNS alone and a randomized MAC alone: those guards change
      nothing. */
  lemma GuardsRedundant(os: OS, score: int, kinds: set<Kind>, strong: nat, randomizedMAC: bool)
    requires score != 0
    ensures Classify(os, score, kinds, strong, randomizedMAC) == Graded(os, score, kinds, strong)
  {
    DNSOnlyMeans(kinds);
  }

  /** The scorer's fields are what its history amounts to. */
  ghost predicate Consistent(minted: nat, ios: int, ipad: int, android: int, evidence: seq<Item>, books: Books,
                             h: History) {
    && minted == Length(h) && evidence == Items(h) && Filed(books, h)
    && ios == Score(h, IOS) && ipad == Score(h, IPadOS) && android == Score(h, Android)
  }

  lemma ConsistentOnce(minted: nat, ios: int, ipad: int, android: int, evidence: seq<Item>, books: Books, h: History,
                       e: Event)
    requires Consistent(minted, ios, ipad, android, evidence, books, h) && e.target != ToApple
    ensures var id := EvidenceID(HintOf(e.target), e.kind, minted + 1);
            Consistent(minted + 1, ios + (if e.target == ToIOS then e.impact else 0),
                       ipad + (if e.target == ToIPad then e.impact else 0),
                       android + (if e.target == ToAndroid then e.impact else 0),
                       evidence + [Item(id, e.kind, HintOf(e.target), e.impact, e.strength)],
                       TrackCategory(books, HintOf(e.target), e.kind, e.strength, id), Added(h, e))
  {
    FiledOnce(books, h, e);
  }

  lemma ConsistentTwice(minted: nat, ios: int, ipad: int, android: int, evidence: seq<Item>, books: Books, h: History,
                        e: Event)
    requires Consistent(minted, ios, ipad, android, evidence, books, h) && e.target == ToApple
    ensures var id := EvidenceID(IOS, e.kind, minted + 1);
            Consistent(minted + 1, ios + e.impact, ipad + e.impact, android,
                       evidence + [Item(id, e.kind, IOS, e.impact, e.strength)],
                       TrackCategory(TrackCategory(books, IOS, e.kind, e.strength, id), IPadOS, e.kind, e.strength,
                                     id), Added(h, e))
  {
    FiledTwice(books, h, e);
  }

  method Decide(top: Candidate, page: Page, randomizedMAC: bool) returns (v: Verdict)
    ensures v == Graded(top.os, top.score, page.categories, page.strong)
  {
    DNSOnlyMeans(page.categories);
    if top.score == 0 {
      return UnknownDevice;
    }
    GuardsRedundant(top.os, top.score, page.categories, page.strong, randomizedMAC);
    if top.score < 45 && !DNSOnly(page.categories) {
      return UnknownMobile;
    }
    v := Classify(top.os, top.score, page.categories, page.strong, randomizedMAC);
  }

  // ---- DNS ----

  const APPLE_DOMAINS := ["apple.com", "icloud.com", "mzstatic.com", "itunes.apple.com", "push.apple.com",
                          "aaplimg.com", "captive.apple.com"]

  const ANDROID_DOMAINS := ["android.clients.google.com", "clients3.google.com", "gstatic.com", "googleapis.com",
                            "mtalk.google.com",
                            "gvt1.com", "play.googleapis.com", "connectivitycheck.gstatic.com",
                            "android.googleapis.com"]

  predicate HasSuffix(s: string, suffix: string) {
    |suffix| <= |s| && s[|s| - |suffix|..] == suffix
  }

  predicate Under(domain: string, hint: string) {
    domain == hint || HasSuffix(domain, "." + hint)
  }

  /** The first hint the domain lies under, or "". */
  function Matched(domain: string, hints: seq<string>): string {
    if hints == [] then "" else if Under(domain, hints[0]) then hints[0] else Matched(domain, hints[1..])
  }

  function Hits(domains: seq<string>, hints: seq<string>): set<string> {
    set d | d in domains && d != "" && Matched(d, hints) != "" :: Matched(d, hints)
  }

  method CollectHits(domains: seq<string>, hints: seq<string>) returns (hits: set<string>)
    ensures hits == Hits(domains, hints)
  {
    hits := {};
    for i := 0 to |domains|
      invariant hits == Hits(domains[..i], hints)
    {
      var d := domains[i];
      assert domains[..i + 1] == domains[..i] + [d];
      if d != "" {
        var m := Matched(d, hints);
        if m != "" {
          hits := hits + {m};
        }
      }
    }
    assert domains[..|domains|] == domains;
  }

  function DNSImpact(hits: set<string>, apple: bool): (int, Strength) {
    if |hits| >= 2 || (!apple && (hits == {"mtalk.google.com"} || hits == {"android.clients.google.com"}))
    then (45, Medium) else (20, Weak)
  }

  function DNSHistory(h: History, apple: set<string>, android: set<string>): History {
    var g := if apple == {} then h
        else Added(h, Event(ToApple, DNSQuery, DNSImpact(apple, true).0, DNSImpact(apple, true).1));
    if android == {} then g
    else Added(g, Event(ToAndroid, DNSQuery, DNSImpact(android, false).0, DNSImpact(android, false).1))
  }

  /** A device known by its DNS queries alone: at most a possible system, iOS on a tie, never iPadOS. */
  lemma DNSAloneVerdict(apple: set<string>, android: set<string>)
    ensures VerdictOf(DNSHistory(Start, apple, android))
         == if apple == {} && android == {} then UnknownDevice
            else if apple != {} && (android == {} || DNSImpact(apple, true).0 >= DNSImpact(android, false).0)
            then Possible(IOS)
            else Possible(Android)
  {
    var h := DNSHistory(Start, apple, android);
    DNSScores(apple, android, h);
    AllOfKinds(h, DNSQuery, IOS);
    AllOfKinds(h, DNSQuery, IPadOS);
    AllOfKinds(h, DNSQuery, Android);
    AtMostOne(Kinds(h, Leader(h)), DNSQuery);
  }

  lemma DNSScores(apple: set<string>, android: set<string>, h: History)
    requires h == DNSHistory(Start, apple, android)
    ensures Score(h, IOS) == Score(h, IPadOS) == if apple == {} then 0 else DNSImpact(apple, true).0
    ensures Score(h, Android) == if android == {} then 0 else DNSImpact(android, false).0
    ensures Kinds(h, IOS) == if apple == {} then {} else {DNSQuery}
    ensures Kinds(h, Android) == if android == {} then {} else {DNSQuery}
    ensures AllDNS(h)
  {
  }

  // ---- MAC addresses ----

  datatype Family = AppleMade | AndroidMade | NoFamily

  /** What the tables say of one MAC address: locally administered or not, and its maker's family. */
  datatype MACSight = MACSight(local: bool, family: Family)

  function MACEvent(m: MACSight): Event
    requires m.family != NoFamily
  {
    Event(if m.family == AppleMade then ToApple else ToAndroid, MacOUI,
          if m.local then 8 else 35, if m.local then Weak else Medium)
  }

  function MACHistory(h: History, macs: seq<MACSight>): History {
    if macs == [] then h
    else
      var g, last := MACHistory(h, macs[..|macs| - 1]), macs[|macs| - 1];
      if last.family == NoFamily then g else Added(g, MACEvent(last))
  }

  // ---- multicast DNS ----

  /** What the tokens of one record say; only the first matching test counts. */
  datatype Clue = IPhoneName | IPadName | AppleService | AirPlay | AndroidName | Cast | NoClue

  function ClueEvent(c: Clue): Event
    requires c != NoClue
  {
    match c
    case IPhoneName => Event(ToIOS, MDNS, 45, Strong)
    case IPadName => Event(ToIPad, MDNS, 45, Strong)
    case AppleService => Event(ToApple, MDNS, 30, Strong)
    case AirPlay => Event(ToApple, MDNS, 30, Medium)
    case AndroidName => Event(ToAndroid, MDNS, 30, Strong)
    case Cast => Event(ToAndroid, MDNS, 15, Medium)
  }

  /** A cast record counts only beside other Android evidence. */
  predicate Counts(h: History, c: Clue) {
    c != NoClue && (c == Cast ==> Score(h, Android) > 0)
  }

  function MDNSHistory(h: History, clues: seq<Clue>): History {
    if clues == [] then h
    else
      var g, last := MDNSHistory(h, clues[..|clues| - 1]), clues[|clues| - 1];
      if Counts(g, last) then Added(g, ClueEvent(last)) else g
  }

  /** The points one multicast record brings, system by system, and whether it is a strong item. */
  lemma CluesByNumber(h: History, c: Clue)
    requires c != NoClue
    ensures var g := Added(h, ClueEvent(c));
      && Score(g, IOS) - Score(h, IOS)
         == (if c == IPhoneName then 45 else if c == AppleService || c == AirPlay then 30 else 0)
      && Score(g, IPadOS) - Score(h, IPadOS)
         == (if c == IPadName then 45 else if c == AppleService || c == AirPlay then 30 else 0)
      && Score(g, Android) - Score(h, Android) == (if c == AndroidName then 30 else if c == Cast then 15 else 0)
      && (StrongCount(g, Android) > StrongCount(h, Android) <==> c == AndroidName)
      && (StrongCount(g, IOS) > StrongCount(h, IOS) <==> c == IPhoneName || c == AppleService)
      && (StrongCount(g, IPadOS) > StrongCount(h, IPadOS) <==> c == IPadName || c == AppleService)
  {
  }

  /** The points a MAC address of a known maker brings: 35, or 8 when it is locally administered; never strong. */
  lemma MACsByNumber(h: History, m: MACSight)
    requires m.family != NoFamily
    ensures var g, points := Added(h, MACEvent(m)), if m.local then 8 else 35;
      && Score(g, IOS) - Score(h, IOS) == Score(g, IPadOS) - Score(h, IPadOS)
         == (if m.family == AppleMade then points else 0)
      && Score(g, Android) - Score(h, Android) == (if m.family == AndroidMade then points else 0)
      && forall os :: StrongCount(g, os) == StrongCount(h, os)
  {
  }

  /** The points DNS queries bring: 45 for two hints, or for one that only Android asks for; 20 for one other. */
  lemma DNSByNumber(apple: set<string>, android: set<string>)
    ensures var h := DNSHistory(Start, apple, android);
      && Score(h, IOS) == Score(h, IPadOS) == (if apple == {} then 0 else if |apple| == 1 then 20 else 45)
      && Score(h, Android) == (if android == {} then 0
                               else if |android| == 1 && "mtalk.google.com" !in android
                                       && "android.clients.google.com" !in android then 20 else 45)
  {
    DNSScores(apple, android, DNSHistory(Start, apple, android));
    OneOf(android, "mtalk.google.com");
    OneOf(android, "android.clients.google.com");
    assert |apple| == 0 <==> apple == {};
    assert |android| == 0 <==> android == {};
  }

  lemma OneOf(hits: set<string>, hint: string)
    ensures |hits| == 1 && hint in hits <==> hits == {hint}
  {
    if |hits| == 1 && hint in hits {
      assert |hits - {hint}| == 0;
    }
  }

  class MobileScorer {
    var minted: nat
    var iosScore: int
    var ipadScore: int
    var androidScore: int
    var evidence: seq<Item>
    var conflicts: seq<ConflictItem>
    var books: Books
    var randomizedMAC: bool
    ghost var history: History

    ghost predicate Valid()
      reads this
    {
      Consistent(minted, iosScore, ipadScore, androidScore, evidence, books, history)
    }

    constructor ()
      ensures Valid() && history == Start && conflicts == []
    {
      minted, iosScore, ipadScore, androidScore := 0, 0, 0, 0;
      evidence, conflicts, randomizedMAC, history := [], [], false, Start;
      books := map[];
    }

    method NoteRandomizedMAC()
      requires Valid()
      modifies `randomizedMAC
      ensures randomizedMAC && Valid()
    {
      randomizedMAC := true;
    }

    method AddEvidence(os: OS, kind: Kind, impact: int, strength: Strength) returns (id: EvidenceID)
      modifies `minted, `evidence, `books
      ensures minted == old(minted) + 1 && id == EvidenceID(os, kind, minted)
      ensures evidence == old(evidence) + [Item(id, kind, os, impact, strength)]
      ensures books == TrackCategory(old(books), os, kind, strength, id)
    {
      minted := minted + 1;
      id := EvidenceID(os, kind, minted);
      evidence := evidence + [Item(id, kind, os, impact, strength)];
      books := TrackCategory(books, os, kind, strength, id);
    }

    method AddIOS(kind: Kind, impact: int, strength: Strength)
      requires Valid()
      modifies this
      ensures Valid() && history == Added(old(history), Event(ToIOS, kind, impact, strength))
      ensures conflicts == old(conflicts) && randomizedMAC == old(randomizedMAC)
    {
      ghost var e := Event(ToIOS, kind, impact, strength);
      ConsistentOnce(minted, iosScore, ipadScore, androidScore, evidence, books, history, e);
      iosScore := iosScore + impact;
      var _ := AddEvidence(IOS, kind, impact, strength);
      history := Added(history, e);
    }

    method AddIPad(kind: Kind, impact: int, strength: Strength)
      requires Valid()
      modifies this
      ensures Valid() && history == Added(old(history), Event(ToIPad, kind, impact, strength))
      ensures conflicts == old(conflicts) && randomizedMAC == old(randomizedMAC)
    {
      ghost var e := Event(ToIPad, kind, impact, strength);
      ConsistentOnce(minted, iosScore, ipadScore, androidScore, evidence, books, history, e);
      ipadScore := ipadScore + impact;
      var _ := AddEvidence(IPadOS, kind, impact, strength);
      history := Added(history, e);
    }

    method AddApple(kind: Kind, impact: int, strength: Strength)
      requires Valid()
      modifies this
      ensures Valid() && history == Added(old(history), Event(ToApple, kind, impact, strength))
      ensures conflicts == old(conflicts) && randomizedMAC == old(randomizedMAC)
    {
      ghost var e := Event(ToApple, kind, impact, strength);
      ConsistentTwice(minted, iosScore, ipadScore, androidScore, evidence, books, history, e);
      iosScore := iosScore + impact;
      ipadScore := ipadScore + impact;
      var id := AddEvidence(IOS, kind, impact, strength);
      books := TrackCategory(books, IPadOS, kind, strength, id);
      history := Added(history, e);
    }

    method AddAndroid(kind: Kind, impact: int, strength: Strength)
      requires Valid()
      modifies this
      ensures Valid() && history == Added(old(history), Event(ToAndroid, kind, impact, strength))
      ensures conflicts == old(conflicts) && randomizedMAC == old(randomizedMAC)
    {
      ghost var e := Event(ToAndroid, kind, impact, strength);
      ConsistentOnce(minted, iosScore, ipadScore, androidScore, evidence, books, history, e);
      androidScore := androidScore + impact;
      var _ := AddEvidence(Android, kind, impact, strength);
      history := Added(history, e);
    }

    method AddConflict(reason: Reason, appleIDs: seq<string>, androidIDs: seq<string>)
      requires IsSorted(appleIDs) && IsSorted(androidIDs)
      modifies `conflicts
      ensures conflicts ==
              if (appleIDs == [] && androidIDs == []) || KeyIn(old(conflicts), reason, appleIDs, androidIDs)
              then old(conflicts)
              else old(conflicts) + [ConflictItem(reason, appleIDs, androidIDs, Warning)]
    {
      var known := IsKnown(conflicts, reason, appleIDs, androidIDs);
      if (appleIDs == [] && androidIDs == []) || known {
        return;
      }
      var apple := Resort(appleIDs);
      var android := Resort(androidIDs);
      conflicts := conflicts + [ConflictItem(reason, apple, android, Warning)];
    }

    method RecordConflicts(high: bool, apple: seq<string>, android: seq<string>, appleNames: seq<string>,
                           androidNames: seq<string>,
                           appleVendors: seq<string>, androidVendors: seq<string>)
      requires IsSorted(apple) && IsSorted(android) && IsSorted(appleNames) && IsSorted(androidNames)
      requires IsSorted(appleVendors) && IsSorted(androidVendors)
      requires conflicts == [] && (high ==> apple != [] && android != [])
      modifies `conflicts
      ensures conflicts == ConflictList(high, apple, android, appleNames, androidNames, appleVendors, androidVendors)
    {
      if high {
        AddConflict(BothScoresHigh, apple, android);
      }
      if |appleNames| > 0 && |androidVendors| > 0 {
        AddConflict(AppleNameAndroidVendor, appleNames, androidVendors);
      }
      if |androidNames| > 0 && |appleVendors| > 0 {
        AddConflict(AndroidNameAppleVendor, appleVendors, androidNames);
      }
    }

    method DetectConflicts()
      requires Valid() && conflicts == []
      modifies `conflicts
      ensures conflicts == ConflictsOf(history)
    {
      var apple, android, appleNames, androidNames, appleVendors, androidVendors := GatherAll(books, history);
      RecordConflicts(MaxInt(iosScore, ipadScore) >= 60 && androidScore >= 60,
                      apple, android, appleNames, androidNames, appleVendors, androidVendors);
    }

    method ChooseClassification() returns (v: Verdict)
      requires Valid() && (conflicts != [] <==> Conflicted(history))
      requires forall c | c in conflicts :: c.severity == Warning
      ensures v == VerdictOf(history)
      ensures v == Conflicting <==> conflicts != []
    {
      assert |conflicts| > 0 ==> conflicts[0].severity == Warning;
      VerdictMeans(history);
      if |conflicts| > 0 && exists i | 0 <= i < |conflicts| :: conflicts[i].severity == Warning {
        return Conflicting;
      }
      if MaxInt(iosScore, ipadScore) >= 60 && androidScore >= 60 {
        return Conflicting;
      }
      var top := Leading(iosScore, ipadScore, androidScore);
      PagesMean(books, history, top.os);
      v := Decide(top, PageOf(books, top.os), randomizedMAC);
    }

    function ConfidenceFor(v: Verdict): (c: real)
      reads this
      ensures LevelBand(v).0 <= c <= LevelBand(v).1
    {
      Confidence(v, MaxInt(androidScore, MaxInt(iosScore, ipadScore)))
    }

    method Finish() returns (fp: Fingerprint)
      requires Valid() && conflicts == []
      modifies `conflicts
      ensures fp.verdict == VerdictOf(history) && fp.conflicts == ConflictsOf(history)
      ensures fp.verdict == Conflicting <==> fp.conflicts != []
      ensures LevelBand(fp.verdict).0 <= fp.confidence <= LevelBand(fp.verdict).1
      ensures SureAs(fp.verdict, Score(history, Leader(history)), fp.confidence)
      ensures (fp.ios, fp.ipad, fp.android) == (Score(history, IOS), Score(history, IPadOS), Score(history, Android))
      ensures multiset(fp.evidence) == multiset(Items(history)) && StrongestFirst(fp.evidence)
    {
      DetectConflicts();
      ConflictsExactly(history);
      var v := ChooseClassification();
      ItemOrder();
      SortOrdered(ItemBefore, evidence);
      OrderedIsStrongestFirst(Sort(ItemBefore, evidence));
      BandsFit(history);
      LeaderIsTop(history);
      fp := Fingerprint(v, ConfidenceFor(v), iosScore, ipadScore, androidScore, Sort(ItemBefore, evidence), conflicts);
    }

    /** Every address of a known maker is filed; one locally administered address marks the device. */
    method EvaluateMACs(macs: seq<MACSight>)
      requires Valid()
      modifies this
      ensures Valid() && history == MACHistory(old(history), macs) && conflicts == old(conflicts)
      ensures randomizedMAC <==> old(randomizedMAC) || exists m :: m in macs && m.local
    {
      for i := 0 to |macs|
        invariant Valid() && history == MACHistory(old(history), macs[..i]) && conflicts == old(conflicts)
        invariant randomizedMAC <==> old(randomizedMAC) || exists m :: m in macs[..i] && m.local
      {
        var m := macs[i];
        assert macs[..i + 1][..i] == macs[..i] && macs[..i + 1] == macs[..i] + [m];
        if m.local {
          NoteRandomizedMAC();
        }
        match m.family {
          case AppleMade => AddApple(MacOUI, if m.local then 8 else 35, if m.local then Weak else Medium);
          case AndroidMade => AddAndroid(MacOUI, if m.local then 8 else 35, if m.local then Weak else Medium);
          case NoFamily =>
        }
      }
      assert macs[..|macs|] == macs;
    }

    method EvaluateMDNS(clues: seq<Clue>)
      requires Valid()
      modifies this
      ensures Valid() && history == MDNSHistory(old(history), clues) && conflicts == old(conflicts)
      ensures randomizedMAC == old(randomizedMAC)
    {
      for i := 0 to |clues|
        invariant Valid() && history == MDNSHistory(old(history), clues[..i]) && conflicts == old(conflicts)
        invariant randomizedMAC == old(randomizedMAC)
      {
        assert clues[..i + 1][..i] == clues[..i];
        match clues[i] {
          case IPhoneName => AddIOS(MDNS, 45, Strong);
          case IPadName => AddIPad(MDNS, 45, Strong);
          case AppleService => AddApple(MDNS, 30, Strong);
          case AirPlay => AddApple(MDNS, 30, Medium);
          case AndroidName => AddAndroid(MDNS, 30, Strong);
          case Cast =>
            if androidScore > 0 {
              AddAndroid(MDNS, 15, Medium);
            }
          case NoClue =>
        }
      }
      assert clues[..|clues|] == clues;
    }

    /** At most one Apple and one Android entry, whatever the number of queries. */
    method EvaluateDNS(domains: seq<string>)
      requires Valid()
      modifies this
      ensures Valid() && history == DNSHistory(old(history), Hits(domains, APPLE_DOMAINS),
                                               Hits(domains, ANDROID_DOMAINS))
      ensures conflicts == old(conflicts)
    {
      var apple := CollectHits(domains, APPLE_DOMAINS);
      var android := CollectHits(domains, ANDROID_DOMAINS);
      if |apple| > 0 {
        AddApple(DNSQuery, DNSImpact(apple, true).0, DNSImpact(apple, true).1);
      }
      if |android| > 0 {
        AddAndroid(DNSQuery, DNSImpact(android, false).0, DNSImpact(android, false).1);
      }
    }
  }

  // ---- what the ledger guarantees ----

  ghost predicate Positive(h: History) {
    h.Added? ==> h.event.impact > 0 && Positive(h.before)
  }

  function ImpactSum(items: seq<Item>, ids: seq<EvidenceID>): int {
    if ids == [] then 0
    else
      var n := ids[|ids| - 1].n;
      ImpactSum(items, ids[..|ids| - 1]) + (if 1 <= n <= |items| then items[n - 1].impact else 0)
  }

  lemma {:induction false} ItemsLength(h: History)
    ensures |Items(h)| == Length(h)
  {
    if h.Added? {
      ItemsLength(h.before);
    }
  }

  lemma {:induction false} EarlierImpacts(items: seq<Item>, last: Item, ids: seq<EvidenceID>)
    requires forall id | id in ids :: id.n <= |items|
    ensures ImpactSum(items + [last], ids) == ImpactSum(items, ids)
  {
    if ids != [] {
      assert ids[|ids| - 1] in ids;
      assert forall id | id in ids[..|ids| - 1] :: id in ids;
      EarlierImpacts(items, last, ids[..|ids| - 1]);
    }
  }

  /** Each score is the sum of the impacts of the evidence ids filed for that system. */
  lemma {:induction false} ScoreIsSumOfIDs(h: History, os: OS)
    ensures Score(h, os) == ImpactSum(Items(h), IDs(h, os, Every))
  {
    if h.Added? {
      var b, e := h.before, h.event;
      var ids := IDs(b, os, Every);
      ScoreIsSumOfIDs(b, os);
      ItemsLength(b);
      forall id | id in ids ensures id.n <= Length(b) {
        IDsNumbered(b, os, Every, id);
      }
      EarlierImpacts(Items(b), ItemAt(e, Length(h)), ids);
      assert (ids + [EventID(e, Length(h))])[..|ids|] == ids;
    }
  }

  /** Points filed by one of the four add operations alone. */
  function Points(h: History, target: Target): int {
    match h
    case Start => 0
    case Added(b, e) => Points(b, target) + (if e.target == target then e.impact else 0)
  }

  lemma {:induction false} ScoreByTarget(h: History)
    ensures Score(h, IOS) == Points(h, ToApple) + Points(h, ToIOS)
    ensures Score(h, IPadOS) == Points(h, ToApple) + Points(h, ToIPad)
    ensures Score(h, Android) == Points(h, ToAndroid)
  {
    if h.Added? {
      ScoreByTarget(h.before);
    }
  }

  predicate Has(h: History, target: Target) {
    match h
    case Start => false
    case Added(b, e) => Has(b, target) || e.target == target
  }

  lemma {:induction false} PointsNeedEvidence(h: History, target: Target)
    requires Positive(h)
    ensures Points(h, target) >= 0 && (Points(h, target) > 0 <==> Has(h, target))
  {
    if h.Added? {
      PointsNeedEvidence(h.before, target);
    }
  }

  /** iPadOS leads exactly when iPad-specific points exceed iPhone-specific ones and Android is not ahead. */
  lemma IPadLeadsExactly(h: History)
    ensures Leader(h) == IPadOS <==>
            Points(h, ToIPad) > Points(h, ToIOS) && Points(h, ToApple) + Points(h, ToIPad) >= Points(h, ToAndroid)
  {
    ScoreByTarget(h);
  }

  /** Shared Apple evidence alone never names an iPad. */
  lemma IPadVerdictNeedsIPadItem(h: History)
    requires Positive(h) && (VerdictOf(h).Confirmed? || VerdictOf(h).Probable? || VerdictOf(h).Possible?)
             && VerdictOf(h).os == IPadOS
    ensures Has(h, ToIPad)
  {
    IPadLeadsExactly(h);
    PointsNeedEvidence(h, ToIPad);
    PointsNeedEvidence(h, ToIOS);
  }

  ghost predicate AllOf(h: History, kind: Kind) {
    h.Added? ==> h.event.kind == kind && AllOf(h.before, kind)
  }

  ghost predicate AllDNS(h: History) {
    AllOf(h, DNSQuery)
  }

  lemma {:induction false} AllOfKinds(h: History, kind: Kind, os: OS)
    requires AllOf(h, kind)
    ensures Kinds(h, os) <= {kind}
    ensures !Files(Vendor, kind) ==> !Seen(h, os, Vendor)
    ensures !Files(Identity, kind) ==> !Seen(h, os, Identity)
  {
    if h.Added? {
      AllOfKinds(h.before, kind, os);
    }
  }

  /** One kind of evidence, however much of it, neither confirms a system nor makes it probable. */
  lemma OneKindNeverProves(h: History, kind: Kind)
    requires AllOf(h, kind)
    ensures !VerdictOf(h).Confirmed? && !VerdictOf(h).Probable?
  {
    AllOfKinds(h, kind, Leader(h));
    AtMostOne(Kinds(h, Leader(h)), kind);
  }

  lemma {:induction false} MACsAreOneKind(h: History, macs: seq<MACSight>)
    requires AllOf(h, MacOUI)
    ensures AllOf(MACHistory(h, macs), MacOUI)
  {
    if macs != [] {
      MACsAreOneKind(h, macs[..|macs| - 1]);
    }
  }

  /** A device known by its MAC addresses alone is never confirmed or probable, randomized or not. */
  lemma MACAloneNeverProves(macs: seq<MACSight>)
    ensures var v := VerdictOf(MACHistory(Start, macs)); !v.Confirmed? && !v.Probable?
  {
    MACsAreOneKind(Start, macs);
    OneKindNeverProves(MACHistory(Start, macs), MacOUI);
  }

  /** No amount of DNS evidence gets beyond a possible system, or a conflict of scores. */
  lemma DNSNeverProves(h: History)
    requires AllDNS(h)
    ensures VerdictOf(h).Possible? || VerdictOf(h) == UnknownDevice || (VerdictOf(h) == Conflicting && BothHigh(h))
          || (VerdictOf(h) == UnknownMobile && Score(h, Leader(h)) < 0)
  {
    AllOfKinds(h, DNSQuery, IOS);
    AllOfKinds(h, DNSQuery, IPadOS);
    AllOfKinds(h, DNSQuery, Android);
    AtMostOne(Kinds(h, Leader(h)), DNSQuery);
    SilentScores(h, Leader(h));
  }

  lemma AtMostOne(kinds: set<Kind>, kind: Kind)
    requires kinds <= {kind}
    ensures |kinds| < 2 && (kinds == {} || kinds == {kind})
  {
    if kind in kinds {
      assert kinds == {kind};
    } else {
      assert kinds == {};
    }
  }

  lemma {:induction false} SilentScores(h: History, os: OS)
    ensures Kinds(h, os) == {} ==> Score(h, os) == 0
  {
    if h.Added? {
      SilentScores(h.before, os);
      assert Reaches(h.event.target, os) ==> h.event.kind in Kinds(h, os);
    }
  }

  // ---- the order of the evidence ----

  function Events(h: History): multiset<Event> {
    match h
    case Start => multiset{}
    case Added(b, e) => Events(b) + multiset{e}
  }

  function Without(h: History, e: Event): History
    requires e in Events(h)
  {
    if h.event == e then h.before else Added(Without(h.before, e), h.event)
  }

  lemma {:induction false} WithoutAdds(h: History, e: Event)
    requires e in Events(h)
    ensures Events(Without(h, e)) == Events(h) - multiset{e}
    ensures SameTally(Added(Without(h, e), e), h)
  {
    if h.event == e {
      SameTallyReflexive(h);
    } else {
      var rest := Without(h.before, e);
      WithoutAdds(h.before, e);
      SwapTally(rest, e, h.event);
      TallyStep(Added(rest, e), h.before, h.event);
      SameTallyTransitive(Added(Added(rest, h.event), e), Added(Added(rest, e), h.event), h);
    }
  }

  ghost predicate TallyAt(g: History, h: History, os: OS) {
    && Score(g, os) == Score(h, os) && Kinds(g, os) == Kinds(h, os) && StrongCount(g, os) == StrongCount(h, os)
    && Seen(g, os, Vendor) == Seen(h, os, Vendor) && Seen(g, os, Identity) == Seen(h, os, Identity)
  }

  /** Histories no verdict can tell apart. */
  ghost predicate SameTally(g: History, h: History) {
    forall os: OS :: TallyAt(g, h, os)
  }

  lemma SameTallyReflexive(h: History)
    ensures SameTally(h, h)
  {
    forall os: OS ensures TallyAt(h, h, os) {}
  }

  lemma SameTallyTransitive(f: History, g: History, h: History)
    requires SameTally(f, g) && SameTally(g, h)
    ensures SameTally(f, h)
  {
    forall os: OS ensures TallyAt(f, h, os) {
      assert TallyAt(f, g, os) && TallyAt(g, h, os);
    }
  }

  lemma SwapTally(h: History, a: Event, b: Event)
    ensures SameTally(Added(Added(h, b), a), Added(Added(h, a), b))
  {
    forall os: OS ensures TallyAt(Added(Added(h, b), a), Added(Added(h, a), b), os) {}
  }

  lemma TallyStep(g: History, h: History, e: Event)
    requires SameTally(g, h)
    ensures SameTally(Added(g, e), Added(h, e))
  {
    forall os: OS ensures TallyAt(Added(g, e), Added(h, e), os) {
      assert TallyAt(g, h, os);
    }
  }

  lemma {:induction false} EventCount(h: History)
    ensures |Events(h)| == Length(h)
  {
    if h.Added? {
      EventCount(h.before);
    }
  }

  lemma TakeOne(rest: multiset<Event>, e: Event, all: multiset<Event>)
    requires rest + multiset{e} == all
    ensures e in all && rest == all - multiset{e}
  {
  }

  lemma {:induction false} EventsDecideTally(g: History, h: History)
    requires Events(g) == Events(h)
    ensures SameTally(g, h)
    decreases g
  {
    if g.Start? {
      EventCount(h);
      SameTallyReflexive(h);
    } else {
      var rest := g.before;
      TakeOne(Events(rest), g.event, Events(h));
      WithoutAdds(h, g.event);
      EventsDecideTally(rest, Without(h, g.event));
      TallyStep(rest, Without(h, g.event), g.event);
      SameTallyTransitive(g, Added(Without(h, g.event), g.event), h);
    }
  }

  /** The order in which entries are filed does not change the verdict. */
  lemma VerdictOrderFree(g: History, h: History)
    requires Events(g) == Events(h)
    ensures VerdictOf(g) == VerdictOf(h)
  {
    EventsDecideTally(g, h);
    TallyDecides(g, h);
  }

  lemma TallyDecides(g: History, h: History)
    requires SameTally(g, h)
    ensures VerdictOf(g) == VerdictOf(h)
  {
    assert TallyAt(g, h, IOS) && TallyAt(g, h, IPadOS) && TallyAt(g, h, Android);
    SameConflicted(g, h);
  }

  lemma SameConflicted(g: History, h: History)
    requires SameTally(g, h)
    ensures Conflicted(g) == Conflicted(h)
  {
    assert TallyAt(g, h, IOS) && TallyAt(g, h, IPadOS) && TallyAt(g, h, Android);
  }

  // ---- the order of multicast DNS records ----

  /** The clues that are filed when `open` says whether there is Android evidence already. */
  function Filings(open: bool, clues: seq<Clue>): multiset<Clue> {
    if clues == [] then multiset{}
    else
      var init, last := clues[..|clues| - 1], clues[|clues| - 1];
      if last == NoClue || (last == Cast && !open && AndroidName !in init) then Filings(open, init)
      else Filings(open, init) + multiset{last}
  }

  lemma SplitLast(clues: seq<Clue>)
    requires clues != []
    ensures multiset(clues) == multiset(clues[..|clues| - 1]) + multiset{clues[|clues| - 1]}
    ensures forall c :: c in clues <==> c in clues[..|clues| - 1] || c == clues[|clues| - 1]
  {
    assert clues == clues[..|clues| - 1] + [clues[|clues| - 1]];
  }

  lemma {:induction false} PositiveScores(h: History, os: OS)
    requires Positive(h)
    ensures Score(h, os) >= 0
  {
    if h.Added? {
      PositiveScores(h.before, os);
    }
  }

  lemma {:induction false} AndroidKnown(h: History, clues: seq<Clue>)
    requires Positive(h)
    ensures Positive(MDNSHistory(h, clues))
    ensures Score(MDNSHistory(h, clues), Android) > 0 <==> Score(h, Android) > 0 || AndroidName in clues
  {
    if clues != [] {
      AndroidKnown(h, clues[..|clues| - 1]);
      PositiveScores(MDNSHistory(h, clues[..|clues| - 1]), Android);
      SplitLast(clues);
    }
  }

  lemma ClueEventsDiffer(c: Clue, d: Clue)
    requires c != NoClue && d != NoClue && ClueEvent(c) == ClueEvent(d)
    ensures c == d
  {
  }

  lemma FilingNext(h: History, init: seq<Clue>, last: Clue)
    requires Positive(h)
    ensures Counts(MDNSHistory(h, init), last)
            <==> last != NoClue && (last == Cast ==> Score(h, Android) > 0 || AndroidName in init)
  {
    AndroidKnown(h, init);
  }

  /** What is filed for a clue is what the history gains. */
  lemma {:induction false} ClueFiled(h: History, clues: seq<Clue>, c: Clue)
    requires Positive(h) && c != NoClue
    ensures Events(MDNSHistory(h, clues))[ClueEvent(c)] == Events(h)[ClueEvent(c)]
            + Filings(Score(h, Android) > 0, clues)[c]
  {
    if clues != [] {
      var init, last := clues[..|clues| - 1], clues[|clues| - 1];
      ClueFiled(h, init, c);
      FilingNext(h, init, last);
      if last != NoClue && ClueEvent(last) == ClueEvent(c) {
        ClueEventsDiffer(last, c);
      }
    }
  }

  lemma {:induction false} OthersKept(h: History, clues: seq<Clue>, e: Event)
    requires forall c | c != NoClue :: e != ClueEvent(c)
    ensures Events(MDNSHistory(h, clues))[e] == Events(h)[e]
  {
    if clues != [] {
      OthersKept(h, clues[..|clues| - 1], e);
    }
  }

  lemma SameCount(h: History, a: seq<Clue>, b: seq<Clue>, e: Event)
    requires Positive(h) && Filings(Score(h, Android) > 0, a) == Filings(Score(h, Android) > 0, b)
    ensures Events(MDNSHistory(h, a))[e] == Events(MDNSHistory(h, b))[e]
  {
    if c :| c != NoClue && e == ClueEvent(c) {
      ClueFiled(h, a, c);
      ClueFiled(h, b, c);
    } else {
      OthersKept(h, a, e);
      OthersKept(h, b, e);
    }
  }

  /** Equal filings give equal events. */
  lemma SameEvents(h: History, a: seq<Clue>, b: seq<Clue>)
    requires Positive(h) && Filings(Score(h, Android) > 0, a) == Filings(Score(h, Android) > 0, b)
    ensures Events(MDNSHistory(h, a)) == Events(MDNSHistory(h, b))
  {
    var f, g := Events(MDNSHistory(h, a)), Events(MDNSHistory(h, b));
    forall e: Event ensures f[e] == g[e] {
      SameCount(h, a, b, e);
    }
  }

  /** All but cast records are filed each time; cast records are when Android evidence was there from the start, and
      never when there is none at all. */
  lemma {:induction false} FilingsCount(open: bool, clues: seq<Clue>, c: Clue)
    ensures c != Cast && c != NoClue ==> Filings(open, clues)[c] == multiset(clues)[c]
    ensures c == NoClue ==> Filings(open, clues)[c] == 0
    ensures c == Cast && open ==> Filings(open, clues)[c] == multiset(clues)[c]
    ensures c == Cast && !open && AndroidName !in clues ==> Filings(open, clues)[c] == 0
    ensures Filings(open, clues)[c] <= multiset(clues)[c]
  {
    if clues != [] {
      FilingsCount(open, clues[..|clues| - 1], c);
      SplitLast(clues);
    }
  }

  lemma {:induction false} LateCast(clues: seq<Clue>)
    ensures Filings(false, [Cast] + clues) == Filings(false, clues)
  {
    if clues == [] {
      assert [Cast] + clues == [Cast];
      assert [Cast][..0] == [] && Filings(false, []) == multiset{};
    } else {
      var init := clues[..|clues| - 1];
      LateCast(init);
      assert ([Cast] + clues)[..|clues|] == [Cast] + init;
      assert AndroidName in [Cast] + init <==> AndroidName in init;
    }
  }

  lemma SameFilings(open: bool, a: seq<Clue>, b: seq<Clue>)
    requires multiset(a) == multiset(b) && (open || AndroidName !in b || Cast !in b)
    ensures Filings(open, a) == Filings(open, b)
  {
    assert forall c :: (c in a <==> c in multiset(a)) && (c in b <==> c in multiset(b));
    forall c: Clue ensures Filings(open, a)[c] == Filings(open, b)[c] {
      FilingsCount(open, a, c);
      FilingsCount(open, b, c);
    }
  }

  /** With both an Android name and a cast record, and nothing before them, moving a cast record from the end to the
      front loses it. */
  lemma CastMoves(h: History, clues: seq<Clue>) returns (early: seq<Clue>, late: seq<Clue>)
    requires Positive(h) && Score(h, Android) <= 0 && AndroidName in clues && Cast in clues
    ensures multiset(early) == multiset(clues) && multiset(late) == multiset(clues)
    ensures Events(MDNSHistory(h, early)) != Events(MDNSHistory(h, late))
  {
    var rest := WithoutCast(clues);
    early, late := [Cast] + rest, rest + [Cast];
    LateCast(rest);
    assert late[..|rest|] == rest;
    ClueFiled(h, early, Cast);
    ClueFiled(h, late, Cast);
  }

  lemma WithoutCast(clues: seq<Clue>) returns (rest: seq<Clue>)
    requires AndroidName in clues && Cast in clues
    ensures AndroidName in rest && multiset(rest) + multiset{Cast} == multiset(clues)
  {
    var i :| 0 <= i < |clues| && clues[i] == Cast;
    rest := clues[..i] + clues[i + 1..];
    assert clues == clues[..i] + [Cast] + clues[i + 1..];
    assert AndroidName in multiset(clues) && AndroidName in multiset(rest);
  }

  ghost predicate OrderFree(h: History, clues: seq<Clue>) {
    forall other | multiset(other) == multiset(clues) :: Events(MDNSHistory(h, other)) == Events(MDNSHistory(h, clues))
  }

  /** Every order of the records files the same events exactly when there is Android evidence before them, or they hold
      no Android name, or no cast record. */
  lemma RecordOrderIsFreeExactly(h: History, clues: seq<Clue>)
    requires Positive(h)
    ensures OrderFree(h, clues) <==> Score(h, Android) > 0 || AndroidName !in clues || Cast !in clues
  {
    if Score(h, Android) > 0 || AndroidName !in clues || Cast !in clues {
      forall other | multiset(other) == multiset(clues)
        ensures Events(MDNSHistory(h, other)) == Events(MDNSHistory(h, clues))
      {
        SameFilings(Score(h, Android) > 0, other, clues);
        SameEvents(h, other, clues);
      }
    } else {
      var early, late := CastMoves(h, clues);
    }
  }

  /** Where the order is free it leaves the verdict alone. */
  lemma RecordOrderKeepsVerdict(h: History, a: seq<Clue>, b: seq<Clue>)
    requires Positive(h) && multiset(a) == multiset(b)
    requires Score(h, Android) > 0 || AndroidName !in b || Cast !in b
    ensures VerdictOf(MDNSHistory(h, a)) == VerdictOf(MDNSHistory(h, b))
  {
    SameFilings(Score(h, Android) > 0, a, b);
    SameEvents(h, a, b);
    VerdictOrderFree(MDNSHistory(h, a), MDNSHistory(h, b));
  }

  lemma CastNextTo(name: History, both: History)
    requires name == Added(Start, ClueEvent(AndroidName)) && both == Added(name, ClueEvent(Cast))
    ensures MDNSHistory(Start, [Cast, AndroidName]) == name && MDNSHistory(Start, [AndroidName, Cast]) == both
  {
    assert [Cast, AndroidName][..1] == [Cast] && [AndroidName, Cast][..1] == [AndroidName];
    assert [Cast][..0] == [] && [AndroidName][..0] == [];
    assert MDNSHistory(Start, [Cast]) == Start && MDNSHistory(Start, [AndroidName]) == name;
  }

  /** Elsewhere it need not: a cast record counts behind an Android name, not before it. */
  lemma RecordOrderMatters()
    ensures VerdictOf(MDNSHistory(Start, [Cast, AndroidName])) == UnknownMobile
    ensures VerdictOf(MDNSHistory(Start, [AndroidName, Cast])) == Possible(Android)
  {
    var name := Added(Start, ClueEvent(AndroidName));
    var both := Added(name, ClueEvent(Cast));
    CastNextTo(name, both);
    AndroidAlone(name, 30);
    AndroidAlone(both, 45);
  }

  lemma AndroidAlone(h: History, score: int)
    requires AllOf(h, MDNS) && Score(h, IOS) == 0 && Score(h, IPadOS) == 0 && Score(h, Android) == score > 0
    ensures VerdictOf(h) == if score >= 45 then Possible(Android) else UnknownMobile
  {
    AllOfKinds(h, MDNS, IOS);
    AllOfKinds(h, MDNS, IPadOS);
    AllOfKinds(h, MDNS, Android);
    assert Leader(h) == Android && !Conflicted(h);
    OneKindGrade(score, Kinds(h, Android), StrongCount(h, Android));
  }

  lemma OneKindGrade(score: int, kinds: set<Kind>, strong: nat)
    requires kinds <= {MDNS} && score > 0
    ensures Graded(Android, score, kinds, strong) == if score >= 45 then Possible(Android) else UnknownMobile
  {
    AtMostOne(kinds, MDNS);
  }

  // ---- what the domain tables can say ----

  /** A hint that lies under an earlier hint is never the one reported. */
  lemma {:induction false} ShadowedHint(domain: string, hints: seq<string>, i: nat, j: nat)
    requires i < j < |hints| && Under(hints[j], hints[i]) && Distinct(hints) && "" !in hints
    ensures Matched(domain, hints) != hints[j]
  {
    if Matched(domain, hints) == hints[j] {
      MatchedFirst(domain, hints, j);
      UnderTransitive(domain, hints[j], hints[i]);
      assert false;
    }
  }

  lemma {:induction false} MatchedFirst(domain: string, hints: seq<string>, j: nat)
    requires j < |hints| && Distinct(hints) && "" !in hints && Matched(domain, hints) == hints[j]
    ensures Under(domain, hints[j]) && forall i | 0 <= i < j :: !Under(domain, hints[i])
  {
    assert hints[j] in hints;
    if Under(domain, hints[0]) {
      assert j == 0;
    } else {
      assert j > 0 by {
        if j == 0 {
          MatchedUnder(domain, hints);
        }
      }
      assert forall h | h in hints[1..] :: h in hints;
      MatchedFirst(domain, hints[1..], j - 1);
      forall i | 0 <= i < j ensures !Under(domain, hints[i]) {
        assert i > 0 ==> hints[i] == hints[1..][i - 1];
      }
    }
  }

  lemma {:induction false} MatchedUnder(domain: string, hints: seq<string>)
    ensures Matched(domain, hints) == "" || (Matched(domain, hints) in hints && Under(domain, Matched(domain, hints)))
  {
    if hints != [] && !Under(domain, hints[0]) {
      MatchedUnder(domain, hints[1..]);
    }
  }

  lemma {:induction false} FirstUnder(domain: string, hints: seq<string>, j: nat)
    requires j < |hints| && Under(domain, hints[j]) && forall i | 0 <= i < j :: !Under(domain, hints[i])
    ensures Matched(domain, hints) == hints[j]
  {
    if j > 0 {
      assert forall i | 0 <= i < j - 1 :: hints[1..][i] == hints[i + 1];
      FirstUnder(domain, hints[1..], j - 1);
    }
  }

  /** A hint is reported for some domain exactly when it lies under no earlier hint. */
  lemma ReportedExactly(hints: seq<string>, j: nat)
    requires j < |hints| && Distinct(hints) && "" !in hints
    ensures (exists domain :: Matched(domain, hints) == hints[j]) <==> forall i | 0 <= i < j ::
              !Under(hints[j], hints[i])
  {
    if domain :| Matched(domain, hints) == hints[j] {
      forall i | 0 <= i < j ensures !Under(hints[j], hints[i]) {
        if Under(hints[j], hints[i]) {
          ShadowedHint(domain, hints, i, j);
        }
      }
    }
    if forall i | 0 <= i < j :: !Under(hints[j], hints[i]) {
      FirstUnder(hints[j], hints, j);
    }
  }

  lemma UnderTransitive(a: string, b: string, c: string)
    requires Under(a, b) && Under(b, c)
    ensures Under(a, c)
  {
    if a != b && b != c {
      var dc := "." + c;
      assert a[|a| - |dc|..] == b[|b| - |dc|..];
    }
  }

  lemma UnderPrefixed(prefix: string, hint: string)
    ensures Under(prefix + "." + hint, hint)
  {
    var d := prefix + "." + hint;
    assert d[|d| - |"." + hint|..] == "." + hint;
  }

  lemma Shadowed(domain: string, hints: seq<string>, i: nat, j: nat, prefix: string)
    requires i < j < |hints| && Distinct(hints) && "" !in hints && hints[j] == prefix + "." + hints[i]
    ensures Matched(domain, hints) != hints[j]
  {
    UnderPrefixed(prefix, hints[i]);
    ShadowedHint(domain, hints, i, j);
  }

  lemma AppleDomainsDistinct()
    ensures Distinct(APPLE_DOMAINS) && "" !in APPLE_DOMAINS
  {
  }

  lemma AndroidDomainsDistinct()
    ensures Distinct(ANDROID_DOMAINS) && "" !in ANDROID_DOMAINS
  {
  }

  /** Three of the seven Apple hints are never reported: "apple.com" before them always matches first. */
  lemma ShadowedAppleDomains(domain: string)
    ensures Matched(domain, APPLE_DOMAINS) !in {"itunes.apple.com", "push.apple.com", "captive.apple.com"}
  {
    AppleDomainsDistinct();
    Shadowed(domain, APPLE_DOMAINS, 0, 3, "itunes");
    Shadowed(domain, APPLE_DOMAINS, 0, 4, "push");
    Shadowed(domain, APPLE_DOMAINS, 0, 6, "captive");
  }

  /** And three of the nine Android hints. */
  lemma ShadowedAndroidDomains(domain: string)
    ensures Matched(domain, ANDROID_DOMAINS) !in {"play.googleapis.com", "connectivitycheck.gstatic.com",
                                                  "android.googleapis.com"}
  {
    AndroidDomainsDistinct();
    Shadowed(domain, ANDROID_DOMAINS, 3, 6, "play");
    Shadowed(domain, ANDROID_DOMAINS, 2, 7, "connectivitycheck");
    Shadowed(domain, ANDROID_DOMAINS, 3, 8, "android");
  }

  lemma FirstHintMatches(domain: string, hints: seq<string>)
    requires hints != [] && Under(domain, hints[0])
    ensures Matched(domain, hints) == hints[0]
  {
  }

  lemma TwoUnderOneHint(a: string, b: string, hints: seq<string>, hint: string)
    requires a != "" && b != "" && hint != "" && Matched(a, hints) == hint && Matched(b, hints) == hint
    ensures Hits([a, b], hints) == {hint}
  {
    assert a in [a, b] && Matched(a, hints) in Hits([a, b], hints);
  }

  /** So queries for two services of one vendor count as one weak hint. */
  lemma TwoServicesOneHint(a: string, b: string)
    requires a != "" && b != "" && Under(a, "apple.com") && Under(b, "apple.com")
    ensures DNSImpact(Hits([a, b], APPLE_DOMAINS), true) == (20, Weak)
  {
    FirstHintMatches(a, APPLE_DOMAINS);
    FirstHintMatches(b, APPLE_DOMAINS);
    TwoUnderOneHint(a, b, APPLE_DOMAINS, "apple.com");
  }
}
