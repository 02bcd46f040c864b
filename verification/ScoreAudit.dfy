/** The scoreboard, and the audit trail that reconstructs it from the same inputs. */
module ScoreAudit {
  import opened Sorting
  import opened Options

  const WEIGHT_FINGERPRINT_HINT := 40.0
  const WEIGHT_FINGERPRINT_SUPPORT := 15.0
  const WEIGHT_PROBE_HINT := 25.0
  const WEIGHT_STRONG_HINT := 45.0

  type Scores = map<string, real>

  /** A key that is absent reads as zero, as a lookup in the source's score maps does. */
  function Points(scores: Scores, target: string): real {
    if target in scores then scores[target] else 0.0
  }

  datatype Rule = Rule(id: string, condition: int, addScore: Scores)

  datatype Fingerprint = Fingerprint(accessHints: seq<string>, supports: seq<string>)

  /** The part of the evidence bag that scoring reads. */
  datatype Signals = Signals(hints: seq<string>, strongHints: seq<string>, hasLatency: bool, avgMS: real)

  datatype EvidenceClass = Physical | Device | Network | Regional | Performance
  datatype Strength = Strong | Medium | Weak

  datatype Contribution = Contribution(target: string, amount: real, class_: EvidenceClass, strength: Strength,
                                       probe: string)

  // ---- what each source of points is worth ----

  function HintPoints(hints: seq<string>, weight: real, target: string): real {
    if hints == [] then 0.0
    else HintPoints(hints[..|hints| - 1], weight, target) + (if hints[|hints| - 1] == target then weight else 0.0)
  }

  /** The bands the scoreboard applies. */
  function LatencyScores(ms: real): Scores {
    if ms <= 8.0 then map["Fiber" := 4.0, "VDSL" := 3.0]
    else if ms <= 25.0 then map["DSL" := 2.0, "VDSL" := 2.0, "Fiber" := 2.0, "Cable" := 2.0]
    else if ms <= 80.0 then map["DSL" := 2.0, "FWA" := 2.0]
    else if ms <= 200.0 then map["Mobile" := 4.0, "FWA" := 4.0]
    else if ms >= 500.0 then map["Satellite" := 15.0]
    else map[]
  }

  function LatencyItem(target: string, amount: real): Contribution {
    Contribution(target, amount, Performance, Weak, "latency_probe")
  }

  /** The bands the audit reports, a second table. */
  function LatencyContributions(s: Signals): seq<Contribution> {
    if !s.hasLatency then []
    else if s.avgMS <= 8.0 then [LatencyItem("Fiber", 4.0), LatencyItem("VDSL", 3.0)]
    else if s.avgMS <= 25.0 then
      [LatencyItem("DSL", 2.0), LatencyItem("VDSL", 2.0), LatencyItem("Fiber", 2.0), LatencyItem("Cable", 2.0)]
    else if s.avgMS <= 80.0 then [LatencyItem("DSL", 2.0), LatencyItem("FWA", 2.0)]
    else if s.avgMS <= 200.0 then [LatencyItem("Mobile", 4.0), LatencyItem("FWA", 4.0)]
    else if s.avgMS >= 500.0 then [LatencyItem("Satellite", 15.0)]
    else []
  }

  function LatencyPoints(s: Signals, target: string): real {
    if s.hasLatency then Points(LatencyScores(s.avgMS), target) else 0.0
  }

  function RulePoints(rules: seq<Rule>, target: string): real {
    if rules == [] then 0.0
    else RulePoints(rules[..|rules| - 1], target) + Points(rules[|rules| - 1].addScore, target)
  }

  function AccessHints(fp: Option<Fingerprint>): seq<string> {
    if fp.Some? then fp.value.accessHints else []
  }

  function Supports(fp: Option<Fingerprint>): seq<string> {
    if fp.Some? then fp.value.supports else []
  }

  /** Everything but the rules. */
  function SignalPoints(s: Signals, fp: Option<Fingerprint>, target: string): real {
    HintPoints(AccessHints(fp), WEIGHT_FINGERPRINT_HINT, target)
        + HintPoints(Supports(fp), WEIGHT_FINGERPRINT_SUPPORT, target)
    + HintPoints(s.hints, WEIGHT_PROBE_HINT, target) + HintPoints(s.strongHints, WEIGHT_STRONG_HINT, target)
    + LatencyPoints(s, target)
  }

  // ---- the board ----

  function Clamped(v: real): real {
    if v / 100.0 > 1.0 then 1.0 else if v / 100.0 < 0.0 then 0.0 else v / 100.0
  }

  function Bumped(scores: Scores, target: string, amount: real): Scores {
    scores[target := Points(scores, target) + amount]
  }

  lemma BumpedPoints(scores: Scores, target: string, amount: real)
    ensures Bumped(scores, target, amount).Keys == scores.Keys + {target}
    ensures forall t ::
              Points(Bumped(scores, target, amount), t) == Points(scores, t) + (if t == target then amount else 0.0)
  {
  }

  /** `after` is `before` with the deltas of the targets in `done` added. */
  ghost predicate Added(before: Scores, after: Scores, deltas: Scores, done: set<string>) {
    && after.Keys == before.Keys + done
    && forall t :: Points(after, t) == Points(before, t) + (if t in done then Points(deltas, t) else 0.0)
  }

  lemma AddedNext(before: Scores, after: Scores, deltas: Scores, done: set<string>, target: string)
    requires Added(before, after, deltas, done)
    requires target in deltas && target !in done
    ensures Added(before, Bumped(after, target, deltas[target]), deltas, done + {target})
  {
    BumpedPoints(after, target, deltas[target]);
  }

  lemma AddedAll(before: Scores, after: Scores, deltas: Scores)
    requires Added(before, after, deltas, deltas.Keys)
    ensures forall t :: Points(after, t) == Points(before, t) + Points(deltas, t)
  {
  }

  /** The deltas added one by one, in whatever order their map is visited. */
  method WithDeltas(scores: Scores, deltas: Scores) returns (r: Scores)
    ensures Added(scores, r, deltas, deltas.Keys)
  {
    r := scores;
    var left := deltas.Keys;
    while left != {}
      invariant left <= deltas.Keys && Added(scores, r, deltas, deltas.Keys - left)
      decreases |left|
    {
      var target :| target in left;
      assert deltas.Keys - (left - {target}) == deltas.Keys - left + {target};
      AddedNext(scores, r, deltas, deltas.Keys - left, target);
      r := Bumped(r, target, deltas[target]);
      left := left - {target};
    }
    assert deltas.Keys - left == deltas.Keys;
  }

  class Board {
    var scores: Scores
    var fired: seq<string>

    constructor ()
      ensures scores == map[] && fired == []
    {
      scores, fired := map[], [];
    }

    method Add(deltas: Scores)
      modifies this`scores
      ensures scores.Keys == old(scores.Keys) + deltas.Keys
      ensures forall t :: Points(scores, t) == Points(old(scores), t) + Points(deltas, t)
    {
      ghost var before := scores;
      scores := WithDeltas(scores, deltas);
      AddedAll(before, scores, deltas);
    }

    method AddHints(hints: seq<string>, weight: real)
      modifies this`scores
      ensures scores.Keys == old(scores.Keys) + Elements(hints)
      ensures forall t :: Points(scores, t) == Points(old(scores), t) + HintPoints(hints, weight, t)
    {
      for i := 0 to |hints|
        invariant scores.Keys == old(scores.Keys) + Elements(hints[..i])
        invariant forall t :: Points(scores, t) == Points(old(scores), t) + HintPoints(hints[..i], weight, t)
      {
        Next(hints, i);
        BumpedPoints(scores, hints[i], weight);
        scores := Bumped(scores, hints[i], weight);
      }
      assert hints[..|hints|] == hints;
    }

    method MarkFired(id: string)
      modifies this`fired
      ensures fired == old(fired) + [id]
    {
      fired := fired + [id];
    }

    /** One hundred points count as full; nothing leaves the unit interval. */
    method Normalize() returns (out: Scores)
      ensures out.Keys == scores.Keys && forall t | t in out :: out[t] == Clamped(scores[t])
      ensures forall t | t in out :: 0.0 <= out[t] <= 1.0
      ensures forall t | t in out :: (out[t] > 0.0 <==> scores[t] > 0.0) && (out[t] < 1.0 <==> scores[t] < 100.0)
      ensures forall t | t in out && 0.0 <= scores[t] <= 100.0 :: 100.0 * out[t] == scores[t]
    {
      out := map t | t in scores :: Clamped(scores[t]);
    }
  }

  lemma Next<T>(s: seq<T>, i: nat)
    requires i < |s|
    ensures s[..i + 1] == s[..i] + [s[i]] && s[..i + 1][..i] == s[..i]
  {
  }

  // ---- scoring ----

  function Firing(rules: seq<Rule>, matches: Rule -> bool): seq<Rule> {
    if rules == [] then []
    else Firing(rules[..|rules| - 1], matches) + (if matches(rules[|rules| - 1]) then [rules[|rules| - 1]] else [])
  }

  lemma FiringNext(rules: seq<Rule>, matches: Rule -> bool, i: nat)
    requires i < |rules|
    ensures Firing(rules[..i + 1], matches)
         == if matches(rules[i]) then Firing(rules[..i], matches) + [rules[i]] else Firing(rules[..i], matches)
  {
    Next(rules, i);
  }

  function IDs(rules: seq<Rule>): seq<string> {
    seq(|rules|, i requires 0 <= i < |rules| => rules[i].id)
  }

  lemma FiredNext(firing: seq<Rule>, r: Rule)
    ensures IDs(firing + [r]) == IDs(firing) + [r.id]
    ensures forall t :: RulePoints(firing + [r], t) == RulePoints(firing, t) + Points(r.addScore, t)
  {
    assert (firing + [r])[..|firing|] == firing;
  }

  method ScoreSignals(s: Signals, fp: Option<Fingerprint>) returns (board: Board)
    ensures fresh(board) && board.fired == []
    ensures forall t :: Points(board.scores, t) == SignalPoints(s, fp, t)
  {
    board := new Board();
    if fp.Some? {
      board.AddHints(fp.value.accessHints, WEIGHT_FINGERPRINT_HINT);
      board.AddHints(fp.value.supports, WEIGHT_FINGERPRINT_SUPPORT);
    }
    board.AddHints(s.hints, WEIGHT_PROBE_HINT);
    board.AddHints(s.strongHints, WEIGHT_STRONG_HINT);
    if s.hasLatency {
      board.Add(LatencyScores(s.avgMS));
    }
  }

  method Score(s: Signals, fp: Option<Fingerprint>, rules: seq<Rule>, matches: Rule -> bool) returns (board: Board)
    ensures fresh(board) && board.fired == IDs(Firing(rules, matches))
    ensures forall t :: Points(board.scores, t) == SignalPoints(s, fp, t) + RulePoints(Firing(rules, matches), t)
  {
    board := ScoreSignals(s, fp);
    for i := 0 to |rules|
      invariant board.fired == IDs(Firing(rules[..i], matches))
      invariant forall t ::
                  Points(board.scores, t) == SignalPoints(s, fp, t) + RulePoints(Firing(rules[..i], matches), t)
    {
      FiringNext(rules, matches, i);
      if matches(rules[i]) {
        FiredNext(Firing(rules[..i], matches), rules[i]);
        board.Add(rules[i].addScore);
        board.MarkFired(rules[i].id);
      }
    }
    assert rules[..|rules|] == rules;
  }

  // ---- the audit ----

  /** What a list of contributions gives a target, counting the given evidence classes. */
  function Audited(out: seq<Contribution>, target: string, classes: set<EvidenceClass>): real {
    if out == [] then 0.0
    else
      var last := out[|out| - 1];
      Audited(out[..|out| - 1], target, classes)
      + (if last.target == target && last.class_ in classes then last.amount else 0.0)
  }

  const EVERY_CLASS := {Physical, Device, Network, Regional, Performance}

  lemma AuditedAppend(out: seq<Contribution>, c: Contribution, target: string, classes: set<EvidenceClass>)
    ensures Audited(out + [c], target, classes)
         == Audited(out, target, classes) + (if c.target == target && c.class_ in classes then c.amount else 0.0)
  {
    assert (out + [c])[..|out|] == out;
  }

  function RuleClass(id: string): EvidenceClass {
    if "iface_" <= id then Physical
    else if "ptr_" <= id || "isp_" <= id || "provider_" <= id then Regional
    else Device
  }

  function RuleStrength(id: string): Strength {
    match RuleClass(id)
    case Physical => Strong
    case Regional => Weak
    case _ => Medium
  }

  /** The rule the audit finds under an id: the last one carrying it. */
  function LastWith(rules: seq<Rule>, id: string): Option<Rule> {
    if rules == [] then None
    else if rules[|rules| - 1].id == id then Some(rules[|rules| - 1])
    else LastWith(rules[..|rules| - 1], id)
  }

  function LookupPoints(rules: seq<Rule>, id: string, target: string): real {
    match LastWith(rules, id)
    case None => 0.0
    case Some(r) => Points(r.addScore, target)
  }

  function FiredPoints(rules: seq<Rule>, fired: seq<string>, target: string, classes: set<EvidenceClass>): real {
    if fired == [] then 0.0
    else
      var id := fired[|fired| - 1];
      FiredPoints(rules, fired[..|fired| - 1], target, classes)
      + (if RuleClass(id) in classes then LookupPoints(rules, id, target) else 0.0)
  }

  /** What the audit reports for signals, split by the class each source is filed under. */
  function SignalPointsIn(s: Signals, fp: Option<Fingerprint>, target: string, classes: set<EvidenceClass>): real {
    (if Device in classes then HintPoints(AccessHints(fp), WEIGHT_FINGERPRINT_HINT, target)
                             + HintPoints(Supports(fp), WEIGHT_FINGERPRINT_SUPPORT, target) else 0.0)
    + (if Network in classes then HintPoints(s.hints, WEIGHT_PROBE_HINT, target) else 0.0)
    + (if Physical in classes then HintPoints(s.strongHints, WEIGHT_STRONG_HINT, target) else 0.0)
    + (if Performance in classes then LatencyPoints(s, target) else 0.0)
  }

  method AuditHints(out: seq<Contribution>, hints: seq<string>, weight: real, class_: EvidenceClass,
                    strength: Strength, probe: string)
    returns (r: seq<Contribution>)
    requires weight != 0.0
    ensures forall t, cs ::
              Audited(r, t, cs) == Audited(out, t, cs) + (if class_ in cs then HintPoints(hints, weight, t) else 0.0)
  {
    r := out;
    for i := 0 to |hints|
      invariant forall t, cs ::
                  Audited(r, t, cs) == Audited(out, t, cs)
                      + (if class_ in cs then HintPoints(hints[..i], weight, t) else 0.0)
    {
      Next(hints, i);
      ghost var before := r;
      var c := Contribution(hints[i], weight, class_, strength, probe);
      r := r + [c];
      forall t, cs
        ensures Audited(r, t, cs) == Audited(before, t, cs) + (if t == hints[i] && class_ in cs then weight else 0.0)
      {
        AuditedAppend(before, c, t, cs);
      }
    }
    assert hints[..|hints|] == hints;
  }

  /** Both latency tables say the same. */
  lemma LatencyTablesAgree(s: Signals, target: string, classes: set<EvidenceClass>)
    ensures Audited(LatencyContributions(s), target, classes)
         == (if Performance in classes then LatencyPoints(s, target) else 0.0)
  {
    var all := LatencyContributions(s);
    AuditedOf4(all, target, classes);
  }

  lemma AuditedOf4(out: seq<Contribution>, target: string, classes: set<EvidenceClass>)
    requires |out| <= 4
    ensures Audited(out, target, classes)
         == (if |out| > 0 then Share(out[0], target, classes) else 0.0)
             + (if |out| > 1 then Share(out[1], target, classes) else 0.0)
            + (if |out| > 2 then Share(out[2], target, classes) else 0.0)
                + (if |out| > 3 then Share(out[3], target, classes) else 0.0)
  {
    if out != [] {
      AuditedOf4(out[..|out| - 1], target, classes);
    }
  }

  function Share(c: Contribution, target: string, classes: set<EvidenceClass>): real {
    if c.target == target && c.class_ in classes then c.amount else 0.0
  }

  lemma {:induction false} AuditedConcat(a: seq<Contribution>, b: seq<Contribution>, target: string,
                                         classes: set<EvidenceClass>)
    ensures Audited(a + b, target, classes) == Audited(a, target, classes) + Audited(b, target, classes)
  {
    if b == [] {
      assert a + b == a;
    } else {
      var last := b[|b| - 1];
      AuditedConcat(a, b[..|b| - 1], target, classes);
      AuditedAppend(a + b[..|b| - 1], last, target, classes);
      assert a + b == a + b[..|b| - 1] + [last];
    }
  }

  /** Rules by id; a later rule overwrites an earlier one. */
  method IndexRules(rules: seq<Rule>) returns (byID: map<string, Rule>)
    ensures forall id :: LastWith(rules, id) == (if id in byID then Some(byID[id]) else None)
  {
    byID := map[];
    for i := 0 to |rules|
      invariant forall id :: LastWith(rules[..i], id) == (if id in byID then Some(byID[id]) else None)
    {
      Next(rules, i);
      byID := byID[rules[i].id := rules[i]];
    }
    assert rules[..|rules|] == rules;
  }

  /** One entry per nonzero delta of a rule, in whatever order its score map is visited. */
  method AuditRule(out: seq<Contribution>, id: string, deltas: Scores) returns (r: seq<Contribution>)
    ensures forall t, cs ::
              Audited(r, t, cs) == Audited(out, t, cs) + (if RuleClass(id) in cs then Points(deltas, t) else 0.0)
  {
    var order := InSomeOrder(deltas.Keys);
    r := out;
    ghost var done: set<string> := {};
    for i := 0 to |order|
      invariant done == Elements(order[..i])
      invariant forall t, cs ::
                  Audited(r, t, cs) == Audited(out, t, cs)
                      + (if RuleClass(id) in cs && t in done then deltas[t] else 0.0)
    {
      var target := order[i];
      assert target in Elements(order) && target !in order[..i];
      Next(order, i);
      ghost var before := r;
      if deltas[target] != 0.0 {
        var c := Contribution(target, deltas[target], RuleClass(id), RuleStrength(id), "rule:" + id);
        r := r + [c];
        forall t, cs ensures Audited(r, t, cs) == Audited(before, t, cs) + Share(c, t, cs) {
          AuditedAppend(before, c, t, cs);
        }
      }
      done := done + {target};
    }
    assert order[..|order|] == order;
  }

  method AuditSignals(s: Signals, fp: Option<Fingerprint>) returns (out: seq<Contribution>)
    ensures forall t, cs :: Audited(out, t, cs) == SignalPointsIn(s, fp, t, cs)
  {
    out := [];
    if fp.Some? {
      out := AuditHints(out, fp.value.accessHints, WEIGHT_FINGERPRINT_HINT, Device, Strong, "fingerprint");
      out := AuditHints(out, fp.value.supports, WEIGHT_FINGERPRINT_SUPPORT, Device, Medium, "fingerprint");
    }
    out := AuditHints(out, s.hints, WEIGHT_PROBE_HINT, Network, Weak, "probe_hints");
    out := AuditHints(out, s.strongHints, WEIGHT_STRONG_HINT, Physical, Strong, "cpe_wan");
    ghost var before := out;
    out := out + LatencyContributions(s);
    forall t, cs
      ensures Audited(out, t, cs) == Audited(before, t, cs) + (if Performance in cs then LatencyPoints(s, t) else 0.0)
    {
      AuditedConcat(before, LatencyContributions(s), t, cs);
      LatencyTablesAgree(s, t, cs);
    }
  }

  method BuildContributions(s: Signals, fp: Option<Fingerprint>, rules: seq<Rule>, fired: seq<string>)
    returns (out: seq<Contribution>)
    ensures forall t, cs :: Audited(out, t, cs) == SignalPointsIn(s, fp, t, cs) + FiredPoints(rules, fired, t, cs)
  {
    out := AuditSignals(s, fp);
    var byID := IndexRules(rules);
    for i := 0 to |fired|
      invariant forall t, cs ::
                  Audited(out, t, cs) == SignalPointsIn(s, fp, t, cs) + FiredPoints(rules, fired[..i], t, cs)
    {
      Next(fired, i);
      if fired[i] in byID {
        assert LastWith(rules, fired[i]) == Some(byID[fired[i]]);
        out := AuditRule(out, fired[i], byID[fired[i]].addScore);
      }
    }
    assert fired[..|fired|] == fired;
  }

  // ---- completeness ----

  lemma RuleClassKnown(id: string)
    ensures RuleClass(id) in EVERY_CLASS
  {
  }

  lemma EveryClassTotal(s: Signals, fp: Option<Fingerprint>, target: string)
    ensures SignalPointsIn(s, fp, target, EVERY_CLASS) == SignalPoints(s, fp, target)
  {
  }

  /** Rules sharing an id score alike: what makes looking a fired rule up by id harmless. */
  ghost predicate IDsDetermineScores(rules: seq<Rule>) {
    forall r, q | r in rules && q in rules && r.id == q.id :: SameScores(r, q)
  }

  ghost predicate SameScores(r: Rule, q: Rule) {
    forall t :: Points(r.addScore, t) == Points(q.addScore, t)
  }

  lemma {:induction false} LastWithFound(rules: seq<Rule>, r: Rule)
    requires r in rules
    ensures LastWith(rules, r.id).Some? && LastWith(rules, r.id).value in rules
            && LastWith(rules, r.id).value.id == r.id
  {
    if rules[|rules| - 1].id != r.id {
      LastWithFound(rules[..|rules| - 1], r);
    }
  }

  lemma {:induction false} FiringKept(rules: seq<Rule>, matches: Rule -> bool)
    ensures forall r :: r in Firing(rules, matches) <==> r in rules && matches(r)
  {
    if rules != [] {
      FiringKept(rules[..|rules| - 1], matches);
      assert rules == rules[..|rules| - 1] + [rules[|rules| - 1]];
    }
  }

  lemma {:induction false} FiredPointsAgree(rules: seq<Rule>, firing: seq<Rule>, target: string)
    requires forall r | r in firing :: LookupPoints(rules, r.id, target) == Points(r.addScore, target)
    ensures FiredPoints(rules, IDs(firing), target, EVERY_CLASS) == RulePoints(firing, target)
  {
    if firing != [] {
      var init, last := firing[..|firing| - 1], firing[|firing| - 1];
      FiredPointsAgree(rules, init, target);
      RuleClassKnown(last.id);
      assert IDs(firing)[..|firing| - 1] == IDs(init);
    }
  }

  /** The audit accounts for every point of every target. */
  ghost predicate Complete(s: Signals, fp: Option<Fingerprint>, rules: seq<Rule>, matches: Rule -> bool) {
    forall t ::
      SignalPointsIn(s, fp, t, EVERY_CLASS) + FiredPoints(rules, IDs(Firing(rules, matches)), t, EVERY_CLASS)
      == SignalPoints(s, fp, t) + RulePoints(Firing(rules, matches), t)
  }

  lemma CompleteWhenIDsDetermine(s: Signals, fp: Option<Fingerprint>, rules: seq<Rule>, matches: Rule -> bool)
    requires IDsDetermineScores(rules)
    ensures Complete(s, fp, rules, matches)
  {
    var firing := Firing(rules, matches);
    FiringKept(rules, matches);
    forall t
      ensures SignalPointsIn(s, fp, t, EVERY_CLASS) + FiredPoints(rules, IDs(firing), t, EVERY_CLASS)
           == SignalPoints(s, fp, t) + RulePoints(firing, t)
    {
      forall r | r in firing ensures LookupPoints(rules, r.id, t) == Points(r.addScore, t) {
        LastWithFound(rules, r);
        assert SameScores(r, LastWith(rules, r.id).value);
      }
      FiredPointsAgree(rules, firing, t);
      EveryClassTotal(s, fp, t);
    }
  }

  function Occurrences(rules: seq<Rule>, r: Rule): nat {
    if rules == [] then 0 else Occurrences(rules[..|rules| - 1], r) + (if rules[|rules| - 1] == r then 1 else 0)
  }

  function Repeat(r: Rule, n: nat): seq<Rule> {
    if n == 0 then [] else Repeat(r, n - 1) + [r]
  }

  lemma {:induction false} OnlyOneFires(rules: seq<Rule>, r: Rule)
    ensures Firing(rules, q => q == r) == Repeat(r, Occurrences(rules, r))
    ensures r in rules ==> Occurrences(rules, r) > 0
  {
    if rules != [] {
      OnlyOneFires(rules[..|rules| - 1], r);
      assert rules == rules[..|rules| - 1] + [rules[|rules| - 1]];
    }
  }

  lemma RepeatNext(r: Rule, n: nat)
    requires n > 0
    ensures var all := Repeat(r, n); |all| > 0 && all[..|all| - 1] == Repeat(r, n - 1) && all[|all| - 1] == r
    ensures var ids := IDs(Repeat(r, n));
            |ids| > 0 && ids[..|ids| - 1] == IDs(Repeat(r, n - 1)) && ids[|ids| - 1] == r.id
  {
  }

  lemma {:induction false} RepeatedPoints(r: Rule, n: nat, target: string)
    ensures RulePoints(Repeat(r, n), target) == Times(n, Points(r.addScore, target))
  {
    if n > 0 {
      RepeatedPoints(r, n - 1, target);
      RepeatNext(r, n);
    }
  }

  lemma {:induction false} RepeatedFiring(rules: seq<Rule>, r: Rule, n: nat, target: string)
    ensures FiredPoints(rules, IDs(Repeat(r, n)), target, EVERY_CLASS) == Times(n, LookupPoints(rules, r.id, target))
  {
    if n > 0 {
      RepeatedFiring(rules, r, n - 1, target);
      RepeatNext(r, n);
      RuleClassKnown(r.id);
    }
  }

  /** If the audit stays complete when only `r` fires, `r` scores as the last rule with its id. */
  lemma CompleteAlone(s: Signals, fp: Option<Fingerprint>, rules: seq<Rule>, r: Rule)
    requires r in rules && Complete(s, fp, rules, q => q == r)
    ensures LastWith(rules, r.id).Some? && SameScores(r, LastWith(rules, r.id).value)
  {
    LastWithFound(rules, r);
    var n := Occurrences(rules, r);
    OnlyOneFires(rules, r);
    forall t ensures Points(r.addScore, t) == Points(LastWith(rules, r.id).value.addScore, t) {
      EveryClassTotal(s, fp, t);
      RepeatedPoints(r, n, t);
      RepeatedFiring(rules, r, n, t);
      CancelTimes(n, Points(r.addScore, t), LookupPoints(rules, r.id, t));
    }
  }

  function Times(n: nat, v: real): real {
    if n == 0 then 0.0 else Times(n - 1, v) + v
  }

  lemma {:induction false} TimesMonotone(n: nat, a: real, b: real)
    requires a < b
    ensures n == 0 || Times(n, a) < Times(n, b)
  {
    if n > 0 {
      TimesMonotone(n - 1, a, b);
    }
  }

  lemma CancelTimes(n: nat, a: real, b: real)
    requires n > 0 && Times(n, a) == Times(n, b)
    ensures a == b
  {
    if a < b {
      TimesMonotone(n, a, b);
    } else if b < a {
      TimesMonotone(n, b, a);
    }
  }

  /** Whichever rules fire, the audit is complete: exactly for rule lists whose ids determine their scores. */
  lemma AuditCompleteExactly(s: Signals, fp: Option<Fingerprint>, rules: seq<Rule>)
    ensures (forall matches: Rule -> bool :: Complete(s, fp, rules, matches)) <==> IDsDetermineScores(rules)
  {
    if IDsDetermineScores(rules) {
      forall matches: Rule -> bool ensures Complete(s, fp, rules, matches) {
        CompleteWhenIDsDetermine(s, fp, rules, matches);
      }
    }
    if forall matches: Rule -> bool :: Complete(s, fp, rules, matches) {
      forall r, q | r in rules && q in rules && r.id == q.id ensures SameScores(r, q) {
        CompleteAlone(s, fp, rules, r);
        CompleteAlone(s, fp, rules, q);
      }
    }
  }

  /** Two rules under one id, the first of them firing: the audit reports the second one's points. */
  lemma DuplicateIDExample()
    ensures var rules := [Rule("r", 0, map["DSL" := 10.0]), Rule("r", 1, map["DSL" := 30.0])];
            var s := Signals([], [], false, 0.0);
            !Complete(s, None, rules, (r: Rule) => r.condition == 0)
  {
    var a, b := Rule("r", 0, map["DSL" := 10.0]), Rule("r", 1, map["DSL" := 30.0]);
    var rules, matches := [a, b], (r: Rule) => r.condition == 0;
    assert rules[..1] == [a] && [a][..0] == [];
    assert Firing([a], matches) == [a] && Firing(rules, matches) == [a];
    assert IDs([a])[..0] == [];
    assert FiredPoints(rules, IDs([a]), "DSL", EVERY_CLASS) == 30.0;
    assert RulePoints([a], "DSL") == 10.0;
    EveryClassTotal(Signals([], [], false, 0.0), None, "DSL");
  }

  /** Points filed as physical come from strong access hints and interface rules alone. */
  lemma PhysicalPointsHavePhysicalSource(s: Signals, fp: Option<Fingerprint>, rules: seq<Rule>, fired: seq<string>,
                                         target: string)
    requires target !in s.strongHints && forall id | id in fired :: RuleClass(id) != Physical
    ensures SignalPointsIn(s, fp, target, {Physical}) + FiredPoints(rules, fired, target, {Physical}) == 0.0
  {
    NoHint(s.strongHints, WEIGHT_STRONG_HINT, target);
    NoneFiled(rules, fired, target);
  }

  lemma {:induction false} NoHint(hints: seq<string>, weight: real, target: string)
    requires target !in hints
    ensures HintPoints(hints, weight, target) == 0.0
  {
    if hints != [] {
      NoHint(hints[..|hints| - 1], weight, target);
    }
  }

  lemma {:induction false} NoneFiled(rules: seq<Rule>, fired: seq<string>, target: string)
    requires forall id | id in fired :: RuleClass(id) != Physical
    ensures FiredPoints(rules, fired, target, {Physical}) == 0.0
  {
    if fired != [] {
      assert fired[|fired| - 1] in fired;
      assert forall id :: id in fired[..|fired| - 1] ==> id in fired;
      NoneFiled(rules, fired[..|fired| - 1], target);
    }
  }

  /** One scan: score, then audit. The two agree on every target when ids determine scores. */
  method ScoreAndAudit(s: Signals, fp: Option<Fingerprint>, rules: seq<Rule>, matches: Rule -> bool)
    returns (board: Board, audit: seq<Contribution>)
    ensures fresh(board) && board.fired == IDs(Firing(rules, matches))
    ensures (forall t :: Audited(audit, t, EVERY_CLASS) == Points(board.scores, t)) <==> Complete(s, fp, rules, matches)
    ensures IDsDetermineScores(rules) ==> forall t :: Audited(audit, t, EVERY_CLASS) == Points(board.scores, t)
  {
    board := Score(s, fp, rules, matches);
    audit := BuildContributions(s, fp, rules, board.fired);
    ghost var firing := IDs(Firing(rules, matches));
    forall t ensures Audited(audit, t, EVERY_CLASS) == SignalPointsIn(s, fp, t, EVERY_CLASS)
        + FiredPoints(rules, firing, t, EVERY_CLASS) {
    }
    if IDsDetermineScores(rules) {
      CompleteWhenIDsDetermine(s, fp, rules, matches);
    }
  }

  // ---- the points by number ----

  /** How often `target` is mentioned. */
  function Mentions(hints: seq<string>, target: string): nat {
    multiset(hints)[target]
  }

  lemma MentionsNext(hints: seq<string>, target: string)
    requires hints != []
    ensures Mentions(hints, target)
         == Mentions(hints[..|hints| - 1], target) + (if hints[|hints| - 1] == target then 1 else 0)
  {
    assert hints == hints[..|hints| - 1] + [hints[|hints| - 1]];
  }

  lemma OneMore(weight: real, n: nat)
    ensures weight * (n + 1) as real == weight * n as real + weight
  {
    assert (n + 1) as real == n as real + 1.0;
  }

  lemma {:induction false} TimesIsProduct(n: nat, weight: real)
    ensures Times(n, weight) == weight * n as real
  {
    if n > 0 {
      TimesIsProduct(n - 1, weight);
      OneMore(weight, n - 1);
    }
  }

  lemma {:induction false} HintsAddUp(hints: seq<string>, weight: real, target: string)
    ensures HintPoints(hints, weight, target) == Times(Mentions(hints, target), weight)
  {
    if hints != [] {
      HintsAddUp(hints[..|hints| - 1], weight, target);
      MentionsNext(hints, target);
    }
  }

  lemma HintsCounted(hints: seq<string>, weight: real, target: string)
    ensures HintPoints(hints, weight, target) == weight * Mentions(hints, target) as real
  {
    HintsAddUp(hints, weight, target);
    TimesIsProduct(Mentions(hints, target), weight);
  }

  /** What a latency speaks for, target by target. */
  function LatencyFor(target: string, ms: real): real {
    if target == "Fiber" then (if ms <= 8.0 then 4.0 else if ms <= 25.0 then 2.0 else 0.0)
    else if target == "VDSL" then (if ms <= 8.0 then 3.0 else if ms <= 25.0 then 2.0 else 0.0)
    else if target == "DSL" then (if 8.0 < ms <= 80.0 then 2.0 else 0.0)
    else if target == "Cable" then (if 8.0 < ms <= 25.0 then 2.0 else 0.0)
    else if target == "FWA" then (if 25.0 < ms <= 80.0 then 2.0 else if 80.0 < ms <= 200.0 then 4.0 else 0.0)
    else if target == "Mobile" then (if 80.0 < ms <= 200.0 then 4.0 else 0.0)
    else if target == "Satellite" then (if ms >= 500.0 then 15.0 else 0.0)
    else 0.0
  }

  /** Every mention of a target is worth 40 points as an access hint of the matched device, 15 as a type it
      supports, 25 as a hint and 45 as a proving hint; a latency adds what it speaks for. */
  lemma SignalPointsByNumber(s: Signals, fp: Option<Fingerprint>, target: string)
    ensures SignalPoints(s, fp, target)
         == 40.0 * Mentions(AccessHints(fp), target) as real + 15.0 * Mentions(Supports(fp), target) as real
            + 25.0 * Mentions(s.hints, target) as real + 45.0 * Mentions(s.strongHints, target) as real
            + (if s.hasLatency then LatencyFor(target, s.avgMS) else 0.0)
  {
    HintsCounted(AccessHints(fp), WEIGHT_FINGERPRINT_HINT, target);
    HintsCounted(Supports(fp), WEIGHT_FINGERPRINT_SUPPORT, target);
    HintsCounted(s.hints, WEIGHT_PROBE_HINT, target);
    HintsCounted(s.strongHints, WEIGHT_STRONG_HINT, target);
    LatencyByTarget(target, s.avgMS);
  }

  lemma LatencyByTarget(target: string, ms: real)
    ensures Points(LatencyScores(ms), target) == LatencyFor(target, ms)
  {
  }

  /** Rules about the interface are physical and strong, rules about names and providers regional and weak, all others
      about the device and of medium strength. */
  lemma RulesByPrefix(id: string)
    ensures RuleClass(id) == Physical <==> |id| >= 6 && id[..6] == "iface_"
    ensures RuleClass(id) == Regional <==>
            || (|id| >= 4 && (id[..4] == "ptr_" || id[..4] == "isp_")) || (|id| >= 9 && id[..9] == "provider_")
    ensures RuleClass(id) in {Physical, Regional, Device}
    ensures RuleStrength(id) == if RuleClass(id) == Physical then Strong
                                else if RuleClass(id) == Regional then Weak else Medium
  {
    assert "iface_" <= id ==> id[..6] == "iface_" && id[0] == 'i' && id[1] == 'f';
    assert |id| >= 4 && id[..4] == "isp_" ==> id[1] == 's' by {
      assert |id| >= 4 ==> id[..4][1] == id[1];
    }
    assert |id| >= 4 && id[..4] == "ptr_" ==> id[0] == 'p' by {
      assert |id| >= 4 ==> id[..4][0] == id[0];
    }
    assert |id| >= 9 && id[..9] == "provider_" ==> id[0] == 'p' by {
      assert |id| >= 9 ==> id[..9][0] == id[0];
    }
  }
}
