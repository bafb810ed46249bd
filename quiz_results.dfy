/** Scoring of the career quiz: the answer values are tallied into four
    categories, the tallies become rounded whole percentages, and the profile
    with the highest percentage is shown, ties going to the category listed first. */
module QuizResults {
  import opened Options

  datatype Category = Analytical | Creative | Social | Leadership

  /** The order in which the profiles are listed, which is also the order in
      which ties are broken. */
  const Order: seq<Category> := [Analytical, Creative, Social, Leadership]

  /** The key of a category in the `counts` record, which is also the answer value
      that counts towards it. */
  function Key(c: Category): string {
    match c
    case Analytical => "analytical"
    case Creative => "creative"
    case Social => "social"
    case Leadership => "leadership"
  }

  /** `ans in counts`: the category an answer value counts towards, if any. */
  function CategoryOf(ans: string): Option<Category>
  {
    if ans == "analytical" then Some(Analytical)
    else if ans == "creative" then Some(Creative)
    else if ans == "social" then Some(Social)
    else if ans == "leadership" then Some(Leadership)
    else None
  }

  /** An answer value counts towards a category exactly when it is that
      category's key. */
  lemma CategoryOfKey(ans: string, c: Category)
    ensures CategoryOf(ans) == Some(c) <==> ans == Key(c)
  {
  }

  /** One number per category: the tallies, and later the percentages. */
  datatype Scores = Scores(analytical: nat, creative: nat, social: nat, leadership: nat)

  const NoScores := Scores(0, 0, 0, 0)

  function Get(s: Scores, c: Category): nat {
    match c
    case Analytical => s.analytical
    case Creative => s.creative
    case Social => s.social
    case Leadership => s.leadership
  }

  function Bump(s: Scores, c: Category): (r: Scores)
    ensures Get(r, c) == Get(s, c) + 1
    ensures forall d :: d != c ==> Get(r, d) == Get(s, d)
    ensures Total(r) == Total(s) + 1
  {
    match c
    case Analytical => s.(analytical := s.analytical + 1)
    case Creative => s.(creative := s.creative + 1)
    case Social => s.(social := s.social + 1)
    case Leadership => s.(leadership := s.leadership + 1)
  }

  /** The tally of a list of answer values, processed left to right. */
  function TallyOf(answers: seq<string>): Scores
    decreases |answers|
  {
    if answers == [] then NoScores
    else
      var earlier := TallyOf(answers[..|answers| - 1]);
      match CategoryOf(answers[|answers| - 1])
      case Some(c) => Bump(earlier, c)
      case None => earlier
  }

  /** The `forEach` over the answer values that increments `counts`. */
  method Tally(answers: seq<string>) returns (counts: Scores)
    ensures counts == TallyOf(answers)
  {
    counts := NoScores;
    var i := 0;
    while i < |answers|
      invariant 0 <= i <= |answers|
      invariant counts == TallyOf(answers[..i])
    {
      assert answers[..i + 1][..i] == answers[..i];
      var cat := CategoryOf(answers[i]);
      if cat.Some? {
        counts := Bump(counts, cat.value);
      }
      i := i + 1;
    }
    assert answers[..i] == answers;
  }

  /** Each category's tally is the number of answers equal to its key; any other
      answer value is ignored. */
  lemma {:induction false} TallyCountsOccurrences(answers: seq<string>)
    ensures forall c :: Get(TallyOf(answers), c) == multiset(answers)[Key(c)]
    decreases |answers|
  {
    if answers != [] {
      var init := answers[..|answers| - 1];
      var last := answers[|answers| - 1];
      TallyCountsOccurrences(init);
      assert answers == init + [last];
      assert multiset(answers) == multiset(init) + multiset{last};
    }
  }

  /** `Object.values(counts).reduce((a, b) => a + b, 0)`. */
  function Total(s: Scores): nat {
    s.analytical + s.creative + s.social + s.leadership
  }

  /** Each category's share is part of the total. */
  lemma ShareAtMostTotal(s: Scores, c: Category)
    ensures Get(s, c) <= Total(s)
  {
  }

  /** Only counted answers contribute: the total is at most the number of
      answers. */
  lemma {:induction false} TotalBound(answers: seq<string>)
    ensures Total(TallyOf(answers)) <= |answers|
    decreases |answers|
  {
    if answers != [] {
      TotalBound(answers[..|answers| - 1]);
    }
  }

  /** The total equals the number of answers exactly when every answer is a
      category key. */
  lemma {:induction false} TotalExact(answers: seq<string>)
    ensures Total(TallyOf(answers)) == |answers|
            <==> forall i :: 0 <= i < |answers| ==> CategoryOf(answers[i]).Some?
    decreases |answers|
  {
    if answers != [] {
      var init := answers[..|answers| - 1];
      var last := answers[|answers| - 1];
      TotalExact(init);
      TotalBound(init);
      assert forall i :: 0 <= i < |init| ==> init[i] == answers[i];
      if CategoryOf(last).None? {
        assert TallyOf(answers) == TallyOf(init);
        assert !CategoryOf(answers[|answers| - 1]).Some?;
      }
    }
  }

  /** No counted answer, no tally. */
  lemma {:induction false} NothingCounted(answers: seq<string>)
    requires forall i :: 0 <= i < |answers| ==> CategoryOf(answers[i]).None?
    ensures TallyOf(answers) == NoScores
    decreases |answers|
  {
    if answers != [] {
      NothingCounted(answers[..|answers| - 1]);
    }
  }

  /** `Math.round(count / total * 100)`, or 0 when the total is 0. */
  function Percent(count: nat, total: nat): (r: nat)
  {
    if total == 0 then 0 else (200 * count + total) / (2 * total)
  }

  /** Percent is the nearest whole percentage, halves rounded up, and it stays
      within 0..100 for a count that is part of the total. */
  lemma PercentIsNearest(count: nat, total: nat)
    requires total > 0
    ensures (2 * Percent(count, total) - 1) * total <= 200 * count
    ensures 200 * count < (2 * Percent(count, total) + 1) * total
    ensures count <= total ==> Percent(count, total) <= 100
  {
    var n := 200 * count + total;
    var d := 2 * total;
    var r := n / d;
    FloorDivision(n, d, r);
    Distribute(r, total);
    if count <= total {
      assert n < d * 101;
      MulStrict(d, r, 101);
    }
  }

  /** The quotient of floor division brackets the dividend. */
  lemma FloorDivision(n: nat, d: nat, r: int)
    requires d > 0 && r == n / d
    ensures d * r <= n < d * r + d
  {
  }

  lemma Distribute(r: int, t: int)
    ensures (2 * r - 1) * t == 2 * t * r - t
    ensures (2 * r + 1) * t == 2 * t * r + t
  {
  }

  /** A positive factor preserves strict order in reverse. */
  lemma MulStrict(d: nat, r: int, b: int)
    requires d > 0 && d * r < d * b
    ensures r < b
  {
    assert d * b - d * r == d * (b - r);
  }

  /** The `percentages` record. */
  function Percentages(counts: Scores): (p: Scores)
    ensures forall c :: Get(p, c) == Percent(Get(counts, c), Total(counts))
  {
    var t := Total(counts);
    Scores(Percent(counts.analytical, t), Percent(counts.creative, t),
           Percent(counts.social, t), Percent(counts.leadership, t))
  }

  /** Every percentage is a whole number in 0..100, and all are 0 when nothing
      was counted. */
  lemma PercentagesInRange(counts: Scores)
    ensures forall c :: Get(Percentages(counts), c) <= 100
    ensures Total(counts) == 0 ==> Percentages(counts) == NoScores
  {
    forall c ensures Get(Percentages(counts), c) <= 100 {
      ShareAtMostTotal(counts, c);
      if Total(counts) > 0 {
        PercentIsNearest(Get(counts, c), Total(counts));
      }
    }
  }

  /** With four counted answers each percentage is a multiple of 25 and they add
      up to exactly 100. */
  lemma FourAnswersQuarterSteps(answers: seq<string>)
    requires |answers| == 4
    requires forall i :: 0 <= i < 4 ==> CategoryOf(answers[i]).Some?
    ensures forall c :: Get(Percentages(TallyOf(answers)), c) == 25 * Get(TallyOf(answers), c)
    ensures Total(Percentages(TallyOf(answers))) == 100
  {
    TotalExact(answers);
    var k := TallyOf(answers);
    assert Total(k) == 4;
    QuarterPercent(k.analytical);
    QuarterPercent(k.creative);
    QuarterPercent(k.social);
    QuarterPercent(k.leadership);
    assert Percentages(k) == Scores(25 * k.analytical, 25 * k.creative, 25 * k.social, 25 * k.leadership);
  }

  lemma QuarterPercent(n: nat)
    ensures Percent(n, 4) == 25 * n
  {
    assert 200 * n + 4 == 8 * (25 * n) + 4;
  }

  /** The rounded percentages need not add up to 100: one answer in each of
      three categories rounds to 33 + 33 + 33 + 0. */
  lemma PercentagesMayMissHundred()
    ensures Total(Percentages(Scores(1, 1, 1, 0))) == 99
  {
    assert Percentages(Scores(1, 1, 1, 0)) == Scores(33, 33, 33, 0) by {
      assert Percent(1, 3) == 33;
    }
  }

  /** The position in `cs` of the first category whose score is highest. */
  function LeaderIndex(cs: seq<Category>, p: Scores): (k: nat)
    requires |cs| > 0
    ensures k < |cs|
    ensures forall j :: 0 <= j < |cs| ==> Get(p, cs[j]) <= Get(p, cs[k])
    ensures forall j :: 0 <= j < k ==> Get(p, cs[j]) < Get(p, cs[k])
    decreases |cs|
  {
    if |cs| == 1 then 0
    else
      var rest := LeaderIndex(cs[1..], p);
      if Get(p, cs[0]) >= Get(p, cs[rest + 1]) then 0 else rest + 1
  }

  /** `best`: the entries of `percentages` sorted by descending value with a
      stable sort, first entry taken. */
  function Best(p: Scores): Category {
    Order[LeaderIndex(Order, p)]
  }

  /** Best has a highest percentage, and every category listed before it has a
      strictly lower one, so ties resolve to the earliest of analytical,
      creative, social, leadership. */
  lemma BestIsFirstMaximum(p: Scores)
    ensures forall c :: Get(p, c) <= Get(p, Best(p))
    ensures forall j, k :: 0 <= j < k < |Order| && Order[k] == Best(p) ==> Get(p, Order[j]) < Get(p, Best(p))
  {
    var i := LeaderIndex(Order, p);
    forall c ensures Get(p, c) <= Get(p, Best(p)) {
      match c
      case Analytical => assert Order[0] == c;
      case Creative => assert Order[1] == c;
      case Social => assert Order[2] == c;
      case Leadership => assert Order[3] == c;
    }
    forall j, k | 0 <= j < k < |Order| && Order[k] == Best(p) ensures Get(p, Order[j]) < Get(p, Best(p)) {
      assert k == i;
    }
  }

  /** With no counted answers every percentage is 0 and the analytical profile wins. */
  lemma NoAnswersBestAnalytical(answers: seq<string>)
    requires forall i :: 0 <= i < |answers| ==> CategoryOf(answers[i]).None?
    ensures Percentages(TallyOf(answers)) == NoScores
    ensures Best(Percentages(TallyOf(answers))) == Analytical
  {
    NothingCounted(answers);
    assert Percentages(NoScores) == NoScores;
    var i := LeaderIndex(Order, NoScores);
    assert Get(NoScores, Order[0]) == 0;
  }
}
