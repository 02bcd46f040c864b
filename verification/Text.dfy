/** The string operations the repository leans on: decimal rendering, trimming, ASCII lower
    case, the byte order of strings, and sorted sets of strings. */
module Text {
  import opened Sorting

  function Digit(d: nat): char
    requires d < 10
  {
    ((('0' as int) + d) as char)
  }

  function Decimal(n: nat): (s: string)
    ensures |s| > 0
  {
    if n < 10 then [Digit(n)] else Decimal(n / 10) + [Digit(n % 10)]
  }

  lemma {:induction false} DecimalInjective(m: nat, n: nat)
    requires Decimal(m) == Decimal(n)
    ensures m == n
  {
    var a, b := Decimal(m), Decimal(n);
    assert a[|a| - 1] == Digit(m % 10) && b[|b| - 1] == Digit(n % 10);
    assert m % 10 == n % 10;
    if m >= 10 && n >= 10 {
      assert a[..|a| - 1] == Decimal(m / 10) && b[..|b| - 1] == Decimal(n / 10);
      DecimalInjective(m / 10, n / 10);
    }
  }

  /** Unicode White_Space, the set strings.TrimSpace cuts. */
  predicate IsSpace(c: char) {
    var u := c as int;
    || 0x09 <= u <= 0x0d || u == 0x20 || u == 0x85 || u == 0xa0 || u == 0x1680
    || 0x2000 <= u <= 0x200a || u == 0x2028 || u == 0x2029 || u == 0x202f || u == 0x205f || u == 0x3000
  }

  function TrimLeft(s: string): (r: string)
    ensures r != [] ==> !IsSpace(r[0])
    ensures |r| <= |s|
  {
    if s != [] && IsSpace(s[0]) then TrimLeft(s[1..]) else s
  }

  function TrimRight(s: string): (r: string)
    ensures r != [] ==> !IsSpace(r[|r| - 1])
    ensures r <= s
  {
    if s != [] && IsSpace(s[|s| - 1]) then TrimRight(s[..|s| - 1]) else s
  }

  function Trim(s: string): string {
    TrimRight(TrimLeft(s))
  }

  function FirstNonEmpty(a: string, b: string): string {
    if Trim(a) != "" then a else b
  }

  lemma {:induction false} LeftCut(s: string) returns (i: nat)
    ensures i <= |s| && TrimLeft(s) == s[i..] && forall k | 0 <= k < i :: IsSpace(s[k])
  {
    i := 0;
    if s != [] && IsSpace(s[0]) {
      i := LeftCut(s[1..]);
      assert forall k | 0 < k <= i :: s[k] == s[1..][k - 1];
      i := i + 1;
    }
  }

  lemma {:induction false} RightCut(s: string)
    ensures TrimRight(s) == s[..|TrimRight(s)|] && forall k | |TrimRight(s)| <= k < |s| :: IsSpace(s[k])
  {
    if s != [] && IsSpace(s[|s| - 1]) {
      RightCut(s[..|s| - 1]);
      assert forall k | 0 <= k < |s| - 1 :: s[k] == s[..|s| - 1][k];
    }
  }

  /** Trimming cuts blanks off both ends, only those, and leaves no blank there. */
  lemma TrimCuts(s: string) returns (i: nat, j: nat)
    ensures i <= j <= |s| && Trim(s) == s[i..j]
    ensures (forall k | 0 <= k < i :: IsSpace(s[k])) && (forall k | j <= k < |s| :: IsSpace(s[k]))
    ensures i < j ==> !IsSpace(s[i]) && !IsSpace(s[j - 1])
  {
    i := LeftCut(s);
    var l := TrimLeft(s);
    RightCut(l);
    j := i + |TrimRight(l)|;
    assert forall k | j <= k < |s| :: s[k] == l[k - i];
    assert i < j ==> Trim(s)[0] == s[i] == l[0];
  }

  lemma TrimIdempotent(s: string)
    ensures Trim(Trim(s)) == Trim(s)
  {
    var l := TrimLeft(s);
    var t := TrimRight(l);
    if t != [] {
      assert t[0] == l[0];
    }
    assert TrimLeft(t) == t;
  }

  function LowerChar(c: char): char {
    if 'A' <= c <= 'Z' then ((c as int) + 32) as char else c
  }

  function Lower(s: string): (r: string)
    ensures |r| == |s|
  {
    seq(|s|, i requires 0 <= i < |s| => LowerChar(s[i]))
  }

  /** The order Go compares strings by. */
  predicate StringLess(a: string, b: string) {
    if b == [] then false
    else if a == [] then true
    else if a[0] != b[0] then a[0] < b[0]
    else StringLess(a[1..], b[1..])
  }

  lemma {:induction false} StringLessTransitive(a: string, b: string, c: string)
    requires StringLess(a, b) && StringLess(b, c)
    ensures StringLess(a, c)
  {
    if a != [] && a[0] == b[0] && b[0] == c[0] {
      StringLessTransitive(a[1..], b[1..], c[1..]);
    }
  }

  lemma {:induction false} StringLessTotal(a: string, b: string)
    ensures a == b || StringLess(a, b) || StringLess(b, a)
  {
    if a != [] && b != [] && a[0] == b[0] {
      StringLessTotal(a[1..], b[1..]);
      assert a == [a[0]] + a[1..] && b == [b[0]] + b[1..];
    }
  }

  lemma {:induction false} StringLessIrreflexive(a: string)
    ensures !StringLess(a, a)
  {
    if a != [] { StringLessIrreflexive(a[1..]); }
  }

  lemma {:induction false} StringLessAsymmetric(a: string, b: string)
    ensures !(StringLess(a, b) && StringLess(b, a))
  {
    if a != [] && b != [] && a[0] == b[0] { StringLessAsymmetric(a[1..], b[1..]); }
  }

  lemma StringsTotal(s: set<string>)
    ensures TotalOn(StringLess, s)
  {
    forall a | a in s ensures !StringLess(a, a) { StringLessIrreflexive(a); }
    forall a, b | a in s && b in s && a != b ensures StringLess(a, b) || StringLess(b, a) { StringLessTotal(a, b); }
    forall a, b, c | a in s && b in s && c in s && StringLess(a, b) && StringLess(b, c) ensures StringLess(a, c) {
      StringLessTransitive(a, b, c);
    }
  }

  /** The distinct strings of `ids` other than "", in order of first occurrence. */
  function FirstSeen(ids: seq<string>): (r: seq<string>)
    ensures Distinct(r)
    ensures forall x :: x in r <==> x in ids && x != ""
  {
    if ids == [] then []
    else
      var r := FirstSeen(ids[..|ids| - 1]);
      var last := ids[|ids| - 1];
      assert forall x :: x in ids <==> x in ids[..|ids| - 1] || x == last;
      if last == "" || last in r then r else r + [last]
  }

  /** The non-empty strings of `ids`, once each, ascending. */
  function SortedSet(ids: seq<string>): (r: seq<string>)
    ensures Ascending(StringLess, r) && Distinct(r)
    ensures forall x :: x in r <==> x in ids && x != ""
  {
    var once := FirstSeen(ids);
    StringsTotal(Elements(once));
    SortAscending(StringLess, once);
    SortKeepsElements(StringLess, once);
    var r := Sort(StringLess, once);
    assert forall x :: x in r <==> x in Elements(r);
    StringsTotal(Elements(r));
    AscendingDistinct(StringLess, r);
    r
  }

  /** Two lists naming the same strings have the same sorted set. */
  lemma SortedSetCanonical(a: seq<string>, b: seq<string>)
    requires forall x :: x != "" ==> (x in a <==> x in b)
    ensures SortedSet(a) == SortedSet(b)
  {
    var p, q := SortedSet(a), SortedSet(b);
    forall x ensures x in Elements(p) <==> x in Elements(q) {}
    StringsTotal(Elements(p));
    AscendingUnique(StringLess, p, q);
  }

  /** dedupSorted and sortedUnique: keep the first occurrence of every non-empty string, then sort. */
  method DedupSorted(ids: seq<string>) returns (out: seq<string>)
    ensures out == SortedSet(ids)
  {
    var seen: set<string> := {};
    var kept := [];
    for i := 0 to |ids|
      invariant seen == Elements(kept)
      invariant kept == FirstSeen(ids[..i])
    {
      assert ids[..i + 1][..i] == ids[..i];
      if ids[i] == "" || ids[i] in seen {
        continue;
      }
      seen := seen + {ids[i]};
      kept := kept + [ids[i]];
    }
    assert ids[..|ids|] == ids;
    out := Sort(StringLess, kept);
  }
}
