/** Merging records that share a key, in order of first sight, apart from what is merged. */
module KeyedMerge {
  import opened Sorting
  import opened Numbers

  /** `norm` prepares a record seen for the first time, `merge` folds another one into it. */
  datatype Ops<!D> = Ops(key: D -> string, norm: D -> D, merge: (D, D) -> D)

  /** What the records of one key come to, in the order seen: nothing, or one record. */
  function MergedAt<D>(ops: Ops<D>, xs: seq<D>, key: string): seq<D> {
    if xs == [] then []
    else
      var before, last := MergedAt(ops, xs[..|xs| - 1], key), xs[|xs| - 1];
      if ops.key(last) != key then before
      else if before == [] then [ops.norm(last)]
      else [ops.merge(before[0], last)]
  }

  /** The keys in order of first sight. */
  function Order<D>(ops: Ops<D>, xs: seq<D>): seq<string> {
    if xs == [] then []
    else
      var before, key := Order(ops, xs[..|xs| - 1]), ops.key(xs[|xs| - 1]);
      if key == "" || key in before then before else before + [key]
  }

  function Keyless<D>(ops: Ops<D>, xs: seq<D>): seq<D> {
    if xs == [] then []
    else
      var before, last := Keyless(ops, xs[..|xs| - 1]), xs[|xs| - 1];
      if ops.key(last) == "" then before + [last] else before
  }

  /** One record per key, then the records without one, untouched. */
  ghost predicate IsMerge<D>(ops: Ops<D>, xs: seq<D>, out: seq<D>) {
    var n := |Order(ops, xs)|;
    && |out| == n + |Keyless(ops, xs)| && out[n..] == Keyless(ops, xs)
    && forall i | 0 <= i < n :: MergedAt(ops, xs, Order(ops, xs)[i]) == [out[i]]
  }

  /** The map holds what each key seen so far comes to. */
  ghost predicate Holds<D>(ops: Ops<D>, xs: seq<D>, byKey: map<string, D>) {
    && "" !in byKey
    && forall key | key != "" :: MergedAt(ops, xs, key) == if key in byKey then [byKey[key]] else []
  }

  lemma HoldsNext<D>(ops: Ops<D>, xs: seq<D>, i: nat, byKey: map<string, D>)
    requires i < |xs| && Holds(ops, xs[..i], byKey)
    ensures var key := ops.key(xs[i]);
            Holds(ops, xs[..i + 1],
                  if key == "" then byKey
                  else if key in byKey then byKey[key := ops.merge(byKey[key], xs[i])]
                  else byKey[key := ops.norm(xs[i])])
  {
    assert xs[..i + 1][..i] == xs[..i];
  }

  lemma {:induction false} OrderSound<D>(ops: Ops<D>, xs: seq<D>)
    ensures Distinct(Order(ops, xs)) && "" !in Order(ops, xs)
    ensures forall key :: key in Order(ops, xs) <==> key != "" && exists d :: d in xs && ops.key(d) == key
  {
    if xs != [] {
      var init, last := xs[..|xs| - 1], xs[|xs| - 1];
      OrderSound(ops, init);
      assert xs == init + [last];
      assert forall d :: d in xs <==> d in init || d == last;
    }
  }

  // ---- merging again ----

  /** Preparing twice is preparing once, merging yields prepared records, and neither moves a record to another key. */
  ghost predicate Settling<D(!new)>(ops: Ops<D>) {
    && (forall d: D :: ops.norm(ops.norm(d)) == ops.norm(d) && ops.key(ops.norm(d)) == ops.key(d))
    && (forall a: D, b: D :: ops.norm(ops.merge(a, b)) == ops.merge(a, b) && ops.key(ops.merge(a, b)) == ops.key(a))
  }

  lemma {:induction false} MergedAtSound<D(!new)>(ops: Ops<D>, xs: seq<D>, key: string)
    requires Settling(ops)
    ensures MergedAt(ops, xs, key) != [] ==>
              ops.key(MergedAt(ops, xs, key)[0]) == key
                  && ops.norm(MergedAt(ops, xs, key)[0]) == MergedAt(ops, xs, key)[0]
  {
    if xs != [] {
      MergedAtSound(ops, xs[..|xs| - 1], key);
    }
  }

  lemma {:induction false} SeenIsMerged<D>(ops: Ops<D>, xs: seq<D>, key: string)
    ensures MergedAt(ops, xs, key) != [] <==> exists d :: d in xs && ops.key(d) == key
  {
    if xs != [] {
      SeenIsMerged(ops, xs[..|xs| - 1], key);
      assert xs == xs[..|xs| - 1] + [xs[|xs| - 1]];
      assert forall d :: d in xs <==> d in xs[..|xs| - 1] || d == xs[|xs| - 1];
    }
  }

  /** Already one prepared record per key, those without a key last. */
  ghost predicate Settled<D>(ops: Ops<D>, xs: seq<D>, n: nat) {
    && n <= |xs|
    && (forall i | 0 <= i < n :: ops.key(xs[i]) != "" && ops.norm(xs[i]) == xs[i])
    && (forall i | n <= i < |xs| :: ops.key(xs[i]) == "")
    && (forall i, j | 0 <= i < j < n :: ops.key(xs[i]) != ops.key(xs[j]))
  }

  lemma {:induction false} KeylessOnly<D>(ops: Ops<D>, xs: seq<D>)
    ensures forall d | d in Keyless(ops, xs) :: ops.key(d) == ""
  {
    if xs != [] {
      KeylessOnly(ops, xs[..|xs| - 1]);
    }
  }

  lemma MergeSettles<D(!new)>(ops: Ops<D>, xs: seq<D>, out: seq<D>)
    requires Settling(ops) && IsMerge(ops, xs, out)
    ensures Settled(ops, out, |Order(ops, xs)|)
  {
    OrderSound(ops, xs);
    KeylessOnly(ops, xs);
    var order := Order(ops, xs);
    var n := |order|;
    forall i | 0 <= i < n ensures ops.key(out[i]) == order[i] && order[i] != "" && ops.norm(out[i]) == out[i] {
      assert order[i] in order;
      MergedAtSound(ops, xs, order[i]);
    }
    forall i | n <= i < |out| ensures ops.key(out[i]) == "" {
      assert out[i] == Keyless(ops, xs)[i - n] && out[i] in Keyless(ops, xs);
    }
  }

  function KeysOf<D>(ops: Ops<D>, xs: seq<D>): seq<string> {
    seq(|xs|, i requires 0 <= i < |xs| => ops.key(xs[i]))
  }

  lemma SettledInit<D>(ops: Ops<D>, xs: seq<D>, n: nat)
    requires Settled(ops, xs, n) && xs != []
    ensures Settled(ops, xs[..|xs| - 1], if n == |xs| then n - 1 else n)
  {
  }

  lemma {:induction false} SettledOrder<D>(ops: Ops<D>, xs: seq<D>, n: nat)
    requires Settled(ops, xs, n)
    ensures Order(ops, xs) == KeysOf(ops, xs[..n]) && Keyless(ops, xs) == xs[n..]
    decreases |xs|
  {
    if xs != [] {
      var k := |xs| - 1;
      var init, last := xs[..k], xs[k];
      SettledInit(ops, xs, n);
      if n == |xs| {
        SettledOrder(ops, init, k);
        assert init[..k] == init && xs[..n] == xs;
        assert ops.key(last) !in KeysOf(ops, init);
        assert KeysOf(ops, xs) == KeysOf(ops, init) + [ops.key(last)];
      } else {
        SettledOrder(ops, init, n);
        assert init[..n] == xs[..n];
        assert xs[n..] == init[n..] + [last];
      }
    }
  }

  lemma {:induction false} SettledAt<D>(ops: Ops<D>, xs: seq<D>, n: nat, i: nat)
    requires Settled(ops, xs, n) && i < n
    ensures MergedAt(ops, xs, ops.key(xs[i])) == [xs[i]]
    decreases |xs|
  {
    var k := |xs| - 1;
    var init, last := xs[..k], xs[k];
    if i == k {
      forall d | d in init ensures ops.key(d) != ops.key(last) {
        var j :| 0 <= j < k && init[j] == d;
        assert ops.key(xs[j]) != ops.key(xs[k]);
      }
      SeenIsMerged(ops, init, ops.key(last));
    } else {
      SettledInit(ops, xs, n);
      SettledAt(ops, init, if n == |xs| then n - 1 else n, i);
      assert init[i] == xs[i] && ops.key(xs[i]) != ops.key(last);
    }
  }

  /** Merging a merged list changes nothing. */
  lemma MergeIdempotent<D(!new)>(ops: Ops<D>, xs: seq<D>, once: seq<D>, twice: seq<D>)
    requires Settling(ops) && IsMerge(ops, xs, once) && IsMerge(ops, once, twice)
    ensures twice == once
  {
    var n := |Order(ops, xs)|;
    MergeSettles(ops, xs, once);
    SettledOrder(ops, once, n);
    forall i | 0 <= i < n ensures twice[i] == once[i] {
      SettledAt(ops, once, n, i);
      assert Order(ops, once)[i] == ops.key(once[i]);
      assert [twice[i]] == MergedAt(ops, once, ops.key(once[i])) == [once[i]];
    }
    assert twice == twice[..n] + twice[n..] && once == once[..n] + once[n..];
    assert twice[..n] == once[..n];
  }

  // ---- merging as a join ----

  /** A yes-or-no that merging ors, with a level it maximizes. */
  ghost predicate Joinable<D(!new)>(ops: Ops<D>, knows: D -> bool, level: D -> real) {
    && (forall d: D :: knows(ops.norm(d)) == knows(d) && level(ops.norm(d)) == level(d))
    && (forall a: D, b: D ::
          knows(ops.merge(a, b)) == (knows(a) || knows(b)) && level(ops.merge(a, b)) == MaxReal(level(a), level(b)))
  }

  /** `r` is the join of the records with the key: it knows what any of them knows and has the best level among them. */
  ghost predicate IsJoin<D>(ops: Ops<D>, xs: seq<D>, key: string, knows: D -> bool, level: D -> real, r: D) {
    && (knows(r) <==> exists d :: d in xs && ops.key(d) == key && knows(d))
    && (forall d | d in xs && ops.key(d) == key :: level(d) <= level(r))
    && (exists d :: d in xs && ops.key(d) == key && level(d) == level(r))
  }

  lemma MembersNext<D>(init: seq<D>, last: D)
    ensures forall d :: d in init + [last] <==> d in init || d == last
  {
  }

  lemma JoinSkip<D>(ops: Ops<D>, init: seq<D>, last: D, key: string, knows: D -> bool, level: D -> real, r: D)
    requires IsJoin(ops, init, key, knows, level, r) && ops.key(last) != key
    ensures IsJoin(ops, init + [last], key, knows, level, r)
  {
    MembersNext(init, last);
  }

  lemma JoinFirst<D>(ops: Ops<D>, init: seq<D>, last: D, key: string, knows: D -> bool, level: D -> real, r: D)
    requires (forall d | d in init :: ops.key(d) != key) && ops.key(last) == key && knows(r) == knows(last)
             && level(r) == level(last)
    ensures IsJoin(ops, init + [last], key, knows, level, r)
  {
    MembersNext(init, last);
  }

  lemma JoinMerge<D>(ops: Ops<D>, init: seq<D>, last: D, key: string, knows: D -> bool, level: D -> real, before: D,
                     r: D)
    requires IsJoin(ops, init, key, knows, level, before) && ops.key(last) == key
    requires knows(r) == (knows(before) || knows(last)) && level(r) == MaxReal(level(before), level(last))
    ensures IsJoin(ops, init + [last], key, knows, level, r)
  {
    MembersNext(init, last);
  }

  lemma {:induction false} MergedAtIsJoin<D(!new)>(ops: Ops<D>, xs: seq<D>, key: string, knows: D -> bool,
                                                   level: D -> real)
    requires MergedAt(ops, xs, key) != [] && Joinable(ops, knows, level)
    ensures IsJoin(ops, xs, key, knows, level, MergedAt(ops, xs, key)[0])
  {
    var init, last := xs[..|xs| - 1], xs[|xs| - 1];
    assert xs == init + [last];
    var before := MergedAt(ops, init, key);
    if before == [] {
      SeenIsMerged(ops, init, key);
      JoinFirst(ops, init, last, key, knows, level, ops.norm(last));
    } else {
      MergedAtIsJoin(ops, init, key, knows, level);
      if ops.key(last) != key {
        JoinSkip(ops, init, last, key, knows, level, before[0]);
      } else {
        JoinMerge(ops, init, last, key, knows, level, before[0], ops.merge(before[0], last));
      }
    }
  }

  /** Reordering or repeating the records changes neither. */
  lemma JoinOrderFree<D(!new)>(ops: Ops<D>, xs: seq<D>, ys: seq<D>, key: string, knows: D -> bool, level: D -> real)
    requires (forall d :: d in xs <==> d in ys) && Joinable(ops, knows, level)
    ensures MergedAt(ops, xs, key) == [] <==> MergedAt(ops, ys, key) == []
    ensures MergedAt(ops, xs, key) != [] ==> knows(MergedAt(ops, xs, key)[0]) == knows(MergedAt(ops, ys, key)[0])
    ensures MergedAt(ops, xs, key) != [] ==> level(MergedAt(ops, xs, key)[0]) == level(MergedAt(ops, ys, key)[0])
  {
    SeenIsMerged(ops, xs, key);
    SeenIsMerged(ops, ys, key);
    if MergedAt(ops, xs, key) != [] {
      MergedAtIsJoin(ops, xs, key, knows, level);
      MergedAtIsJoin(ops, ys, key, knows, level);
    }
  }

  /** What preparing an acceptable record establishes and merging always re-establishes holds of every merged record. */
  lemma {:induction false} HoldsOfMerged<D(!new)>(ops: Ops<D>, xs: seq<D>, key: string, acceptable: D -> bool,
                                                  good: D -> bool)
    requires forall d | d in xs :: acceptable(d)
    requires (forall d: D :: acceptable(d) ==> good(ops.norm(d))) && (forall a: D, b: D :: good(ops.merge(a, b)))
    ensures MergedAt(ops, xs, key) != [] ==> good(MergedAt(ops, xs, key)[0])
  {
    if xs != [] {
      var init, last := xs[..|xs| - 1], xs[|xs| - 1];
      assert last in xs;
      assert forall d | d in init :: d in xs;
      HoldsOfMerged(ops, init, key, acceptable, good);
    }
  }
}
