/** Ranking access types and categories by score. The score maps are visited in whatever order the
    language picks; nothing below depends on it. */
module Ranking {
  import opened Sorting
  import opened Text

  type Scores = map<string, real>

  const CAT_UNKNOWN := "Unknown"

  datatype TypeScore = TypeScore(name: string, score: real)

  // ---- the two leading entries ----

  datatype Pair = Pair(first: string, firstScore: real, second: string, secondScore: real, margin: real)

  /** The highest positive score and the highest positive score among the other keys, each zero when there is none. */
  ghost predicate IsTopTwo(m: Scores, p: Pair) {
    && p.firstScore >= 0.0 && p.secondScore >= 0.0 && p.margin == p.firstScore - p.secondScore
    && (forall k | k in m :: m[k] <= p.firstScore)
    && (p.firstScore > 0.0 ==> p.first in m && m[p.first] == p.firstScore)
    && (forall k | k in m && k != p.first :: m[k] <= p.secondScore)
    && (p.secondScore > 0.0 ==>
          p.firstScore > 0.0 && p.second in m && p.second != p.first && m[p.second] == p.secondScore)
  }

  /** Ties may swap the names, never the scores. */
  lemma TopTwoUnique(m: Scores, p: Pair, q: Pair)
    requires IsTopTwo(m, p) && IsTopTwo(m, q)
    ensures p.firstScore == q.firstScore && p.secondScore == q.secondScore && p.margin == q.margin
  {
  }

  lemma SeenNext(m: Scores, order: seq<string>, i: nat)
    requires i < |order| && forall k | k in order :: k in m
    ensures forall k | k in order[..i + 1] :: k in order[..i] || k == order[i]
    ensures order[i] in m
  {
    assert order[i] in order;
    assert order[..i + 1] == order[..i] + [order[i]];
  }

  method TopTwo(m: Scores) returns (p: Pair)
    ensures IsTopTwo(m, p)
  {
    var order := InSomeOrder(m.Keys);
    var first, firstScore, second, secondScore := "", 0.0, "", 0.0;
    assert forall k :: k in order <==> k in Elements(order);
    for i := 0 to |order|
      invariant firstScore >= secondScore >= 0.0
      invariant forall k | k in order[..i] :: m[k] <= firstScore && (k != first ==> m[k] <= secondScore)
      invariant firstScore > 0.0 ==> first in order[..i] && m[first] == firstScore
      invariant firstScore == 0.0 ==> first == ""
      invariant secondScore > 0.0 ==>
                  firstScore > 0.0 && second in order[..i] && second != first && m[second] == secondScore
    {
      SeenNext(m, order, i);
      var k, v := order[i], m[order[i]];
      assert k !in order[..i];
      assert order[..i + 1] == order[..i] + [k];
      if v > firstScore {
        second, secondScore := first, firstScore;
        first, firstScore := k, v;
      } else if v > secondScore {
        second, secondScore := k, v;
      }
    }
    assert order[..|order|] == order;
    p := Pair(first, firstScore, second, secondScore, firstScore - secondScore);
  }

  // ---- categories ----

  /** The category a type's score counts for: its own name when the table does not know it. */
  function CategoryKey(categoryFor: string -> string, name: string): string {
    if categoryFor(name) == CAT_UNKNOWN then name else categoryFor(name)
  }

  ghost predicate IsCategoryScores(categoryFor: string -> string, scores: Scores, cats: Scores) {
    && (forall t | t in scores && scores[t] > 0.0 ::
          CategoryKey(categoryFor, t) in cats && scores[t] <= cats[CategoryKey(categoryFor, t)])
    && (forall c | c in cats :: cats[c] > 0.0 && exists t ::
        t in scores && CategoryKey(categoryFor, t) == c && scores[t] == cats[c])
  }

  lemma CategoryScoresUnique(categoryFor: string -> string, scores: Scores, a: Scores, b: Scores)
    requires IsCategoryScores(categoryFor, scores, a) && IsCategoryScores(categoryFor, scores, b)
    ensures a == b
  {
    CategoryScoresBelow(categoryFor, scores, a, b);
    CategoryScoresBelow(categoryFor, scores, b, a);
  }

  lemma CategoryScoresBelow(categoryFor: string -> string, scores: Scores, a: Scores, b: Scores)
    requires IsCategoryScores(categoryFor, scores, a) && IsCategoryScores(categoryFor, scores, b)
    ensures forall c | c in a :: c in b && a[c] <= b[c]
  {
  }

  method CategoryScores(categoryFor: string -> string, scores: Scores) returns (cats: Scores)
    ensures IsCategoryScores(categoryFor, scores, cats)
  {
    var order := InSomeOrder(scores.Keys);
    assert forall k :: k in order <==> k in Elements(order);
    cats := map[];
    for i := 0 to |order|
      invariant forall t | t in order[..i] && scores[t] > 0.0 ::
                  CategoryKey(categoryFor, t) in cats && scores[t] <= cats[CategoryKey(categoryFor, t)]
      invariant forall c | c in cats ::
                  cats[c] > 0.0 && exists t :: t in scores && CategoryKey(categoryFor, t) == c && scores[t] == cats[c]
    {
      SeenNext(scores, order, i);
      var t := order[i];
      var c := CategoryKey(categoryFor, t);
      if scores[t] > (if c in cats then cats[c] else 0.0) {
        cats := cats[c := scores[t]];
      }
    }
    assert order[..|order|] == order;
  }

  // ---- the ranking of types ----

  predicate Ahead(a: TypeScore, b: TypeScore) {
    a.score > b.score || (a.score == b.score && StringLess(a.name, b.name))
  }

  lemma AheadTotal(s: set<TypeScore>)
    ensures TotalOn(Ahead, s)
  {
    forall a, b | a in s && b in s && a != b ensures Ahead(a, b) || Ahead(b, a) { StringLessTotal(a.name, b.name); }
    forall a | a in s ensures !Ahead(a, a) { StringLessIrreflexive(a.name); }
    forall a, b, c | a in s && b in s && c in s && Ahead(a, b) && Ahead(b, c) ensures Ahead(a, c) {
      if a.score == c.score {
        StringLessTransitive(a.name, b.name, c.name);
      }
    }
  }

  /** The one list of `members`, best first. */
  ghost predicate Ranks(list: seq<TypeScore>, members: set<TypeScore>) {
    Ascending(Ahead, list) && Elements(list) == members
  }

  lemma RanksUnique(a: seq<TypeScore>, b: seq<TypeScore>, members: set<TypeScore>)
    requires Ranks(a, members) && Ranks(b, members)
    ensures a == b
  {
    AheadTotal(members);
    AscendingUnique(Ahead, a, b);
  }

  function Positives(scores: Scores): set<TypeScore> {
    set t | t in scores && scores[t] > 0.0 :: TypeScore(t, scores[t])
  }

  method SortRanking(list: seq<TypeScore>) returns (ranked: seq<TypeScore>)
    requires Distinct(list)
    ensures Ranks(ranked, Elements(list))
  {
    AheadTotal(Elements(list));
    SortAscending(Ahead, list);
    SortKeepsElements(Ahead, list);
    ranked := Sort(Ahead, list);
  }

  method RankAll(scores: Scores) returns (ranked: seq<TypeScore>)
    ensures Ranks(ranked, Positives(scores))
  {
    var order := InSomeOrder(scores.Keys);
    assert forall k :: k in order <==> k in Elements(order);
    var out: seq<TypeScore> := [];
    for i := 0 to |order|
      invariant forall x :: x in out <==> x.name in order[..i] && scores[x.name] > 0.0 && x.score == scores[x.name]
      invariant Distinct(out)
    {
      SeenNext(scores, order, i);
      var t := order[i];
      assert order[..i + 1] == order[..i] + [t] && t !in order[..i];
      if scores[t] > 0.0 {
        out := out + [TypeScore(t, scores[t])];
      }
    }
    assert order[..|order|] == order;
    forall x ensures x in Elements(out) <==> x in Positives(scores) {}
    ranked := SortRanking(out);
  }

  // ---- parents give way to subtypes ----

  predicate Parent(name: string) {
    name == "DSL" || name == "Fiber" || name == "Cable"
  }

  /** Some positively scored type falls under the category without being named like it. */
  predicate HasSubtype(categoryFor: string -> string, ranked: seq<TypeScore>, cat: string) {
    exists i | 0 <= i < |ranked| :: categoryFor(ranked[i].name) == cat && cat != ranked[i].name && ranked[i].score > 0.0
  }

  predicate Collapsed(categoryFor: string -> string, ranked: seq<TypeScore>, ts: TypeScore) {
    Parent(ts.name) && HasSubtype(categoryFor, ranked, categoryFor(ts.name))
  }

  function Surviving(categoryFor: string -> string, ranked: seq<TypeScore>, list: seq<TypeScore>): seq<TypeScore> {
    if list == [] then []
    else
      var last := list[|list| - 1];
      Surviving(categoryFor, ranked, list[..|list| - 1]) + (if Collapsed(categoryFor, ranked, last) then [] else [last])
  }

  method Collapse(categoryFor: string -> string, ranked: seq<TypeScore>) returns (out: seq<TypeScore>)
    ensures out == Surviving(categoryFor, ranked, ranked)
  {
    var hasSubtype: set<string> := {};
    for i := 0 to |ranked|
      invariant forall c :: c in hasSubtype <==> HasSubtype(categoryFor, ranked[..i], c)
    {
      SubtypeNext(categoryFor, ranked, i);
      var cat := categoryFor(ranked[i].name);
      if cat != ranked[i].name && ranked[i].score > 0.0 {
        hasSubtype := hasSubtype + {cat};
      }
    }
    assert ranked[..|ranked|] == ranked;
    out := [];
    for i := 0 to |ranked|
      invariant out == Surviving(categoryFor, ranked, ranked[..i])
    {
      assert ranked[..i + 1][..i] == ranked[..i];
      var ts := ranked[i];
      if Parent(ts.name) && categoryFor(ts.name) in hasSubtype {
        continue;
      }
      out := out + [ts];
    }
  }

  lemma SubtypeNext(categoryFor: string -> string, ranked: seq<TypeScore>, i: nat)
    requires i < |ranked|
    ensures forall c :: HasSubtype(categoryFor, ranked[..i + 1], c) <==>
                        HasSubtype(categoryFor, ranked[..i], c)
                        || (categoryFor(ranked[i].name) == c && c != ranked[i].name && ranked[i].score > 0.0)
  {
    var more, less := ranked[..i + 1], ranked[..i];
    forall c | HasSubtype(categoryFor, less, c) ensures HasSubtype(categoryFor, more, c) {
      var k :| 0 <= k < |less| && categoryFor(less[k].name) == c && c != less[k].name && less[k].score > 0.0;
      assert more[k] == less[k];
    }
    forall c | HasSubtype(categoryFor, more, c)
      ensures HasSubtype(categoryFor, less, c)
              || (categoryFor(ranked[i].name) == c && c != ranked[i].name && ranked[i].score > 0.0)
    {
      var k :| 0 <= k < |more| && categoryFor(more[k].name) == c && c != more[k].name && more[k].score > 0.0;
      assert k < i ==> less[k] == more[k];
    }
    assert more[i] == ranked[i];
  }

  lemma {:induction false} SurvivingElements(categoryFor: string -> string, ranked: seq<TypeScore>,
                                             list: seq<TypeScore>)
    ensures forall x :: x in Surviving(categoryFor, ranked, list) <==> x in list && !Collapsed(categoryFor, ranked, x)
  {
    if list != [] {
      SurvivingElements(categoryFor, ranked, list[..|list| - 1]);
      assert list == list[..|list| - 1] + [list[|list| - 1]];
    }
  }

  lemma {:induction false} SurvivingAscending(categoryFor: string -> string, ranked: seq<TypeScore>,
                                              list: seq<TypeScore>)
    requires Ascending(Ahead, list)
    ensures Ascending(Ahead, Surviving(categoryFor, ranked, list))
  {
    if list != [] {
      var init, last := list[..|list| - 1], list[|list| - 1];
      SurvivingAscending(categoryFor, ranked, init);
      SurvivingElements(categoryFor, ranked, init);
      var s := Surviving(categoryFor, ranked, init);
      forall i | 0 <= i < |s| ensures Ahead(s[i], last) {
        assert s[i] in init;
      }
    }
  }

  /** The three parent types head their own categories. */
  ghost predicate ParentsHeadTheirCategory(categoryFor: string -> string) {
    categoryFor("DSL") == "DSL" && categoryFor("Fiber") == "Fiber" && categoryFor("Cable") == "Cable"
  }

  /** Collapsing never leaves a ranking without a leader. */
  lemma CollapseKeepsALeader(categoryFor: string -> string, ranked: seq<TypeScore>)
    requires ParentsHeadTheirCategory(categoryFor) && ranked != []
    ensures Surviving(categoryFor, ranked, ranked) != []
  {
    SurvivingElements(categoryFor, ranked, ranked);
    if Collapsed(categoryFor, ranked, ranked[0]) {
      var cat := categoryFor(ranked[0].name);
      var i :| 0 <= i < |ranked| && categoryFor(ranked[i].name) == cat && cat != ranked[i].name
          && ranked[i].score > 0.0;
      assert !Collapsed(categoryFor, ranked, ranked[i]);
      assert ranked[i] in Surviving(categoryFor, ranked, ranked);
    } else {
      assert ranked[0] in Surviving(categoryFor, ranked, ranked);
    }
  }

  /** The leader carries the score the decision gate looks at exactly when some type with that score survives
      the collapse. */
  lemma LeaderHasGateScoreExactly(categoryFor: string -> string, scores: Scores, cats: Scores, p: Pair,
                                  ranked: seq<TypeScore>)
    requires Ranks(ranked, Positives(scores)) && IsCategoryScores(categoryFor, scores, cats) && IsTopTwo(cats, p)
    requires Surviving(categoryFor, ranked, ranked) != []
    ensures Surviving(categoryFor, ranked, ranked)[0].score == p.firstScore <==>
            exists t :: t in scores && scores[t] == p.firstScore && scores[t] > 0.0
                && !Collapsed(categoryFor, ranked, TypeScore(t, scores[t]))
  {
    var out := Surviving(categoryFor, ranked, ranked);
    SurvivingElements(categoryFor, ranked, ranked);
    SurvivingAscending(categoryFor, ranked, ranked);
    assert out[0] in out && out[0] in Elements(ranked);
    assert out[0].score <= p.firstScore by {
      assert CategoryKey(categoryFor, out[0].name) in cats;
    }
    if t :| t in scores && scores[t] == p.firstScore && scores[t] > 0.0
            && !Collapsed(categoryFor, ranked, TypeScore(t, scores[t])) {
      var x := TypeScore(t, scores[t]);
      assert x in Elements(ranked);
      var i :| 0 <= i < |out| && out[i] == x;
    }
  }

  function SmallTable(name: string): string {
    if name == "DSL" || name == "VDSL" then "DSL" else if name == "Fiber" then "Fiber" else CAT_UNKNOWN
  }

  /** It need not: a strong bare "DSL" with a weak "VDSL" beside it gives way, and the leader is then a weaker
      category. */
  lemma LeaderLosesItsCategory()
    ensures var scores := map["DSL" := 0.9, "VDSL" := 0.3, "Fiber" := 0.5];
            var ranked := [TypeScore("DSL", 0.9), TypeScore("Fiber", 0.5), TypeScore("VDSL", 0.3)];
            && Ranks(ranked, Positives(scores))
            && Surviving(SmallTable, ranked, ranked) == [TypeScore("Fiber", 0.5), TypeScore("VDSL", 0.3)]
            && forall cats, p | IsCategoryScores(SmallTable, scores, cats) && IsTopTwo(cats, p) ::
                p.first == "DSL" && p.firstScore == 0.9
  {
    var scores := map["DSL" := 0.9, "VDSL" := 0.3, "Fiber" := 0.5];
    var dsl, fiber, vdsl := TypeScore("DSL", 0.9), TypeScore("Fiber", 0.5), TypeScore("VDSL", 0.3);
    var ranked := [dsl, fiber, vdsl];
    forall x ensures x in Elements(ranked) <==> x in Positives(scores) {}
    ThreeSurvive(dsl, fiber, vdsl, ranked);
    forall cats, p | IsCategoryScores(SmallTable, scores, cats) && IsTopTwo(cats, p)
      ensures p.first == "DSL" && p.firstScore == 0.9
    {
      assert "DSL" in scores && "VDSL" in scores && "Fiber" in scores;
      assert CategoryKey(SmallTable, "DSL") == "DSL" && CategoryKey(SmallTable, "VDSL") == "DSL"
          && CategoryKey(SmallTable, "Fiber") == "Fiber";
    }
  }

  lemma ThreeSurvive(dsl: TypeScore, fiber: TypeScore, vdsl: TypeScore, ranked: seq<TypeScore>)
    requires dsl.name == "DSL" && fiber.name == "Fiber" && vdsl.name == "VDSL" && vdsl.score > 0.0
             && ranked == [dsl, fiber, vdsl]
    ensures Surviving(SmallTable, ranked, ranked) == [fiber, vdsl]
  {
    assert ranked[2] == vdsl && HasSubtype(SmallTable, ranked, "DSL");
    assert !HasSubtype(SmallTable, ranked, "Fiber");
    assert ranked[..2] == [dsl, fiber] && [dsl, fiber][..1] == [dsl] && [dsl][..0] == [];
    assert Surviving(SmallTable, ranked, [dsl]) == [];
    assert Surviving(SmallTable, ranked, [dsl, fiber]) == [fiber];
  }

  // ---- one candidate per category ----

  datatype Candidate = Candidate(category: string, name: string, subtype: string, score: real)

  /** The type a fine-grained subtype is expressed under; "" for anything else. */
  function SubtypeParent(name: string): string {
    if name == "GPON" || name == "EPON" || name == "XG-PON" || name == "XGS-PON" || name == "10G-EPON" then "FTTH"
    else if name == "VDSL2" then "VDSL"
    else if name == "ADSL2+" || name == "ADSL2" then "ADSL"
    else if name == "DOCSIS" then "Cable"
    else ""
  }

  function FirstSubtype(list: seq<TypeScore>): (k: nat)
    ensures k <= |list|
  {
    if list == [] || SubtypeParent(list[0].name) != "" then 0 else 1 + FirstSubtype(list[1..])
  }

  /** The category's best score, named after its best subtype, else its best type other than the bare category. */
  function MakeCandidate(cat: string, list: seq<TypeScore>): Candidate
    requires list != []
  {
    var k := FirstSubtype(list);
    if k < |list| then Candidate(cat, SubtypeParent(list[k].name), list[k].name, list[0].score)
    else Candidate(cat, if list[0].name == cat && |list| > 1 then list[1].name else list[0].name, "", list[0].score)
  }

  function Members(categoryFor: string -> string, scores: Scores, cat: string): set<TypeScore> {
    set t | t in scores && scores[t] > 0.0 && CategoryKey(categoryFor, t) == cat :: TypeScore(t, scores[t])
  }

  predicate CandidateAhead(a: Candidate, b: Candidate) {
    a.score > b.score || (a.score == b.score && StringLess(a.category, b.category))
  }

  ghost predicate Represents(categoryFor: string -> string, scores: Scores, c: Candidate) {
    exists list :: list != [] && Ranks(list, Members(categoryFor, scores, c.category))
        && c == MakeCandidate(c.category, list)
  }

  ghost predicate IsCandidates(categoryFor: string -> string, scores: Scores, out: seq<Candidate>) {
    && Ascending(CandidateAhead, out)
    && (forall i, j | 0 <= i < j < |out| :: out[i].category != out[j].category)
    && (forall c | c in out :: Represents(categoryFor, scores, c))
    && (forall t | t in scores && scores[t] > 0.0 :: exists c :: c in out && c.category == CategoryKey(categoryFor, t))
  }

  ghost predicate Groups(categoryFor: string -> string, scores: Scores, seen: seq<string>,
                         byCat: map<string, seq<TypeScore>>) {
    && (forall t | t in seen && t in scores && scores[t] > 0.0 :: CategoryKey(categoryFor, t) in byCat)
    && (forall c | c in byCat :: byCat[c] != [] && Distinct(byCat[c]))
    && (forall c, x | c in byCat ::
          x in byCat[c] <==> x.name in seen && x.name in scores && scores[x.name] > 0.0
                             && x.score == scores[x.name] && CategoryKey(categoryFor, x.name) == c)
  }

  lemma GroupsNext(categoryFor: string -> string, scores: Scores, seen: seq<string>, t: string,
                   byCat: map<string, seq<TypeScore>>)
    requires Groups(categoryFor, scores, seen, byCat) && t in scores && t !in seen
    ensures scores[t] <= 0.0 ==> Groups(categoryFor, scores, seen + [t], byCat)
    ensures scores[t] > 0.0 ==>
              var c := CategoryKey(categoryFor, t);
              Groups(categoryFor, scores, seen + [t],
                     byCat[c := (if c in byCat then byCat[c] else []) + [TypeScore(t, scores[t])]])
  {
    var next := seen + [t];
    if scores[t] > 0.0 {
      var c := CategoryKey(categoryFor, t);
      var list := if c in byCat then byCat[c] else [];
      var x0 := TypeScore(t, scores[t]);
      assert x0 !in list;
      if c !in byCat {
        forall u | u in seen && u in scores && scores[u] > 0.0 ensures CategoryKey(categoryFor, u) != c {
          assert CategoryKey(categoryFor, u) in byCat;
        }
      }
    }
  }

  lemma GroupIsMembers(categoryFor: string -> string, scores: Scores, seen: seq<string>,
                       byCat: map<string, seq<TypeScore>>, c: string)
    requires Groups(categoryFor, scores, seen, byCat) && c in byCat && forall t :: t in seen <==> t in scores
    ensures Elements(byCat[c]) == Members(categoryFor, scores, c)
  {
    forall x | x in Members(categoryFor, scores, c) ensures x in byCat[c] {
      assert x.name in seen;
    }
    forall x | x in byCat[c] ensures x in Members(categoryFor, scores, c) {
      assert x == TypeScore(x.name, scores[x.name]);
    }
  }

  method GroupByCategory(categoryFor: string -> string, scores: Scores) returns (byCat: map<string, seq<TypeScore>>)
    ensures forall t | t in scores && scores[t] > 0.0 :: CategoryKey(categoryFor, t) in byCat
    ensures forall c | c in byCat ::
              byCat[c] != [] && Distinct(byCat[c]) && Elements(byCat[c]) == Members(categoryFor, scores, c)
  {
    var order := InSomeOrder(scores.Keys);
    assert forall k :: k in order <==> k in Elements(order);
    byCat := map[];
    for i := 0 to |order|
      invariant Groups(categoryFor, scores, order[..i], byCat)
    {
      SeenNext(scores, order, i);
      var t := order[i];
      assert order[..i + 1] == order[..i] + [t] && t !in order[..i];
      GroupsNext(categoryFor, scores, order[..i], t, byCat);
      if scores[t] <= 0.0 {
        continue;
      }
      var c := CategoryKey(categoryFor, t);
      byCat := byCat[c := (if c in byCat then byCat[c] else []) + [TypeScore(t, scores[t])]];
    }
    assert order[..|order|] == order;
    assert Groups(categoryFor, scores, order, byCat);
    assert forall t :: t in order <==> t in scores;
    forall c | c in byCat ensures Elements(byCat[c]) == Members(categoryFor, scores, c) {
      GroupIsMembers(categoryFor, scores, order, byCat, c);
    }
  }

  lemma CandidateOrder(s: set<Candidate>)
    requires forall a, b | a in s && b in s && a.category == b.category :: a == b
    ensures TotalOn(CandidateAhead, s)
  {
    forall a, b | a in s && b in s && a != b
      ensures CandidateAhead(a, b) || CandidateAhead(b, a)
    {
      StringLessTotal(a.category, b.category);
    }
    forall a | a in s ensures !CandidateAhead(a, a) { StringLessIrreflexive(a.category); }
    forall a, b, c | a in s && b in s && c in s && CandidateAhead(a, b) && CandidateAhead(b, c)
      ensures CandidateAhead(a, c)
    {
      if a.score == c.score {
        StringLessTransitive(a.category, b.category, c.category);
      }
    }
  }

  method SortCandidates(list: seq<Candidate>) returns (out: seq<Candidate>)
    requires forall i, j | 0 <= i < j < |list| :: list[i].category != list[j].category
    ensures Ascending(CandidateAhead, out) && Elements(out) == Elements(list)
    ensures forall i, j | 0 <= i < j < |out| :: out[i].category != out[j].category
  {
    CandidateOrder(Elements(list));
    SortAscending(CandidateAhead, list);
    SortKeepsElements(CandidateAhead, list);
    out := Sort(CandidateAhead, list);
    AscendingDistinct(CandidateAhead, out);
    forall i, j | 0 <= i < j < |out| ensures out[i].category != out[j].category {
      assert out[i] in Elements(list) && out[j] in Elements(list) && out[i] != out[j];
    }
  }

  method BuildCandidates(categoryFor: string -> string, scores: Scores) returns (out: seq<Candidate>)
    ensures IsCandidates(categoryFor, scores, out)
  {
    var byCat := GroupByCategory(categoryFor, scores);
    var order := InSomeOrder(byCat.Keys);
    assert forall k :: k in order <==> k in Elements(order);
    var list: seq<Candidate> := [];
    for i := 0 to |order|
      invariant |list| == i
                && forall j | 0 <= j < i :: list[j].category == order[j] && Represents(categoryFor, scores, list[j])
    {
      var cat := order[i];
      assert cat in Elements(order);
      var members := SortRanking(byCat[cat]);
      RankedNonEmpty(members, byCat[cat]);
      var c := MakeCandidate(cat, members);
      assert Represents(categoryFor, scores, c);
      list := list + [c];
    }
    out := SortCandidates(list);
    forall c | c in out ensures Represents(categoryFor, scores, c) {
      assert c in Elements(out) && c in list;
    }
    forall t | t in scores && scores[t] > 0.0
      ensures exists c :: c in out && c.category == CategoryKey(categoryFor, t)
    {
      var i :| 0 <= i < |order| && order[i] == CategoryKey(categoryFor, t);
      assert list[i] in Elements(out);
    }
  }

  lemma RankedNonEmpty(ranked: seq<TypeScore>, list: seq<TypeScore>)
    requires list != [] && Elements(ranked) == Elements(list)
    ensures ranked != []
  {
    assert list[0] in Elements(ranked);
  }

  // ---- candidates against the decision gate ----

  lemma BestOfMembers(categoryFor: string -> string, scores: Scores, cats: Scores, c: Candidate)
    requires IsCategoryScores(categoryFor, scores, cats) && Represents(categoryFor, scores, c)
    ensures c.category in cats && cats[c.category] == c.score
  {
    var list :| list != [] && Ranks(list, Members(categoryFor, scores, c.category))
        && c == MakeCandidate(c.category, list);
    assert list[0] in Elements(list);
    forall x | x in Members(categoryFor, scores, c.category) ensures x.score <= c.score {
      assert x in Elements(list);
      var i :| 0 <= i < |list| && list[i] == x;
    }
    var t :| t in scores && CategoryKey(categoryFor, t) == c.category && scores[t] == cats[c.category];
    assert TypeScore(t, scores[t]) in Members(categoryFor, scores, c.category);
  }

  lemma CategoryHasCandidate(categoryFor: string -> string, scores: Scores, cats: Scores, out: seq<Candidate>,
                             cat: string)
    requires IsCategoryScores(categoryFor, scores, cats) && IsCandidates(categoryFor, scores, out) && cat in cats
    ensures exists i | 0 <= i < |out| :: out[i].category == cat
  {
    var t :| t in scores && CategoryKey(categoryFor, t) == cat && scores[t] == cats[cat];
    var c :| c in out && c.category == CategoryKey(categoryFor, t);
    var i :| 0 <= i < |out| && out[i] == c;
  }

  function CategoriesOf(out: seq<Candidate>): seq<string> {
    seq(|out|, i requires 0 <= i < |out| => out[i].category)
  }

  lemma CategoriesListed(cats: Scores, out: seq<Candidate>)
    requires forall c | c in out :: c.category in cats
    requires forall cat | cat in cats :: exists i | 0 <= i < |out| :: out[i].category == cat
    ensures Elements(CategoriesOf(out)) == cats.Keys
  {
    var names := CategoriesOf(out);
    forall k | k in cats.Keys ensures k in Elements(names) {
      var i :| 0 <= i < |out| && out[i].category == k;
      assert names[i] == k;
    }
    forall k | k in Elements(names) ensures k in cats.Keys {
      var i :| 0 <= i < |names| && names[i] == k;
      assert out[i] in out;
    }
  }

  /** One candidate per scored category, carrying that category's score. */
  lemma CandidatesAreCategories(categoryFor: string -> string, scores: Scores, cats: Scores, out: seq<Candidate>)
    requires IsCategoryScores(categoryFor, scores, cats) && IsCandidates(categoryFor, scores, out)
    ensures forall c | c in out :: c.category in cats && cats[c.category] == c.score
    ensures forall cat | cat in cats :: exists i | 0 <= i < |out| :: out[i].category == cat
    ensures |out| == |cats|
  {
    forall c | c in out ensures c.category in cats && cats[c.category] == c.score {
      BestOfMembers(categoryFor, scores, cats, c);
    }
    forall cat | cat in cats ensures exists i | 0 <= i < |out| :: out[i].category == cat {
      CategoryHasCandidate(categoryFor, scores, cats, out, cat);
    }
    DistinctCount(CategoriesOf(out));
    CategoriesListed(cats, out);
  }

  lemma {:induction false} DistinctCount(names: seq<string>)
    requires Distinct(names)
    ensures |Elements(names)| == |names|
  {
    if names != [] {
      var init, last := names[..|names| - 1], names[|names| - 1];
      DistinctCount(init);
      assert last !in Elements(init);
      assert names == init + [last];
      assert Elements(names) == Elements(init) + {last};
    }
  }

  /** The first two candidates carry the two scores the decision gate compares. */
  lemma CandidatesLeadWithGateScores(categoryFor: string -> string, scores: Scores, cats: Scores, p: Pair,
                                     out: seq<Candidate>)
    requires IsCategoryScores(categoryFor, scores, cats) && IsTopTwo(cats, p) && IsCandidates(categoryFor, scores, out)
    ensures p.firstScore == if out == [] then 0.0 else out[0].score
    ensures p.secondScore == if |out| < 2 then 0.0 else out[1].score
  {
    CandidatesAreCategories(categoryFor, scores, cats, out);
    if out != [] {
      assert out[0] in out;
      var i :| 0 <= i < |out| && out[i].category == p.first;
      assert out[i] in out;
      if |out| >= 2 {
        assert out[1] in out;
        SecondIsSecond(cats, p, out, i);
      } else {
        assert forall cat | cat in cats :: cat == out[0].category;
      }
    }
  }

  lemma SecondIsSecond(cats: Scores, p: Pair, out: seq<Candidate>, first: nat)
    requires IsTopTwo(cats, p) && |out| >= 2 && Ascending(CandidateAhead, out)
    requires forall c | c in out :: c.category in cats && cats[c.category] == c.score && c.score > 0.0
    requires forall i, j | 0 <= i < j < |out| :: out[i].category != out[j].category
    requires forall cat | cat in cats :: exists i | 0 <= i < |out| :: out[i].category == cat
    requires first < |out| && out[first].category == p.first
    ensures p.secondScore == out[1].score
  {
    assert out[0] in out && out[1] in out && out[first] in out;
    var other := if first == 0 then 1 else 0;
    assert out[other].category != p.first;
    assert p.secondScore >= out[other].score;
    if p.secondScore > 0.0 {
      var j :| 0 <= j < |out| && out[j].category == p.second;
      assert out[j] in out;
    }
  }
}
