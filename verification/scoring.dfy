/**
 * The WISCAR scoring engine of the results page. Arithmetic is exact over `real`;
 * every stored field is rounded with `Round`, the model of `Math.round`.
 */
module Scoring {
  import opened Wrappers
  import opened Answers

  /** The hours-per-week slider: the one learning answer scaled by 20 rather than 5. */
  const HoursQuestion := LearningPrefix + "1"

  /** Number of entries of the technical answer key (`Object.keys(correctAnswers).length`). */
  const KeySize := 2

  datatype WiscarScores = WiscarScores(
    will: int,
    interest: int,
    skill: int,
    cognitiveReadiness: int,
    abilityToLearn: int,
    realWorldAlignment: int,
    overall: int)

  // ---------------------------------------------------------------------------
  // Arithmetic helpers

  /** `n` is the integer nearest to `x`, a tie going to the larger one; exactly one `n` qualifies. */
  predicate Nearest(n: int, x: real) {
    x - 0.5 < n as real <= x + 0.5
  }

  /** `Round(x)` is the one integer nearest to `x` with ties up: no other integer qualifies. */
  lemma RoundIsNearest(x: real, n: int)
    ensures Nearest(n, x) <==> Round(x) == n
  {
  }

  /** `Math.round`: the nearest integer, with halves going up. */
  function Round(x: real): (r: int)
    ensures x - 0.5 < r as real <= x + 0.5
  {
    (x + 0.5).Floor
  }

  lemma RoundMonotone(x: real, y: real)
    requires x <= y
    ensures Round(x) <= Round(y)
  {
  }

  /** `Math.min(100, x)`: a cap from above only. */
  function Cap(x: real): (r: real)
    ensures r <= 100.0
    ensures x <= 100.0 ==> r == x
    ensures x >= 100.0 ==> r == 100.0
  {
    if x <= 100.0 then x else 100.0
  }

  lemma DivBounds(s: real, n: real, lo: real, hi: real)
    requires n > 0.0 && lo * n <= s <= hi * n
    ensures lo <= s / n <= hi
  {
    assert s / n * n == s;
  }

  // ---------------------------------------------------------------------------
  // Group means

  /** Every answer of the group holds a number (the source casts them with `as number`). */
  predicate AllNum(g: seq<Answer>) {
    forall a :: a in g ==> a.value.Num?
  }

  /** Every answer of the group holds a number in `lo..hi`. */
  predicate NumsIn(g: seq<Answer>, lo: int, hi: int) {
    forall a :: a in g ==> a.value.Num? && lo <= a.value.n <= hi
  }

  /** Sum of the group's numbers (`reduce((sum, a) => sum + a.value, 0)`). */
  function NumSum(g: seq<Answer>): (r: real)
    requires AllNum(g)
    ensures forall lo, hi :: NumsIn(g, lo, hi) ==>
      (lo * |g|) as real <= r <= (hi * |g|) as real
  {
    if |g| == 0 then 0.0
    else
      var rest := NumSum(g[1..]);
      assert forall lo, hi :: NumsIn(g, lo, hi) ==>
        (lo * |g|) as real <= g[0].value.n as real + rest <= (hi * |g|) as real
      by {
        forall lo, hi | NumsIn(g, lo, hi)
          ensures (lo * |g|) as real <= g[0].value.n as real + rest <= (hi * |g|) as real
        {
          assert NumsIn(g[1..], lo, hi);
          assert lo * |g| == lo * (|g| - 1) + lo;
          assert hi * |g| == hi * (|g| - 1) + hi;
        }
      }
      g[0].value.n as real + rest
  }

  /** Mean of the group's numbers; the source divides by zero (NaN) on an empty group. */
  function Mean(g: seq<Answer>): (r: real)
    requires |g| > 0 && AllNum(g)
    ensures forall lo, hi :: NumsIn(g, lo, hi) ==> lo as real <= r <= hi as real
  {
    var s := NumSum(g);
    assert forall lo, hi :: NumsIn(g, lo, hi) ==> lo as real <= s / |g| as real <= hi as real by {
      forall lo, hi | NumsIn(g, lo, hi)
        ensures lo as real <= s / |g| as real <= hi as real
      {
        DivBounds(s, |g| as real, lo as real, hi as real);
      }
    }
    s / |g| as real
  }

  // ---------------------------------------------------------------------------
  // Technical answers

  const MfaKey := "To add an extra layer of security beyond passwords"

  /** The answer key for the multiple-choice questions. */
  function CorrectAnswer(id: string): (r: Option<string>)
    ensures r.Some? ==> HasPrefix(id, TechnicalPrefix)
    ensures r.Some? <==> id in {TechnicalPrefix + "1", TechnicalPrefix + "2"}
  {
    if id == TechnicalPrefix + "1" then Some(MfaKey)
    else if id == TechnicalPrefix + "2" then Some("SAML")
    else None
  }

  /** The answer's value is, with strict equality, the key's text for its id. */
  predicate IsCorrect(a: Answer): (b: bool)
    ensures b <==> a == Answer(TechnicalPrefix + "1", Str(MfaKey)) || a == Answer(TechnicalPrefix + "2", Str("SAML"))
  {
    a.value.Str? && CorrectAnswer(a.questionId) == Some(a.value.s)
  }

  /** Number of correct answers in the list. */
  function CountCorrect(g: seq<Answer>): (r: nat)
    ensures r <= |g|
    ensures r == 0 <==> forall a :: a in g ==> !IsCorrect(a)
  {
    if |g| == 0 then 0
    else
      assert g == g[..|g| - 1] + [g[|g| - 1]];
      CountCorrect(g[..|g| - 1]) + (if IsCorrect(g[|g| - 1]) then 1 else 0)
  }

  /** `calculateTechnicalScore`: counts correct answers one by one, as a percentage of the key. */
  method CalculateTechnicalScore(g: seq<Answer>) returns (score: real)
    ensures score == CountCorrect(g) as real / KeySize as real * 100.0
    ensures 0.0 <= score <= 50.0 * |g| as real
    ensures score == 0.0 <==> forall a :: a in g ==> !IsCorrect(a)
  {
    var correct := 0;
    for i := 0 to |g|
      invariant correct == CountCorrect(g[..i])
    {
      assert g[..i + 1][..i] == g[..i];
      assert CountCorrect(g[..i + 1]) == correct + (if IsCorrect(g[i]) then 1 else 0);
      if IsCorrect(g[i]) {
        correct := correct + 1;
      }
    }
    assert g[..|g|] == g;
    score := correct as real / KeySize as real * 100.0;
  }

  /** The ids of the correct answers. */
  function CorrectIds(g: seq<Answer>): (r: set<string>)
    ensures r <= {TechnicalPrefix + "1", TechnicalPrefix + "2"}
    ensures r <= Ids(g)
  {
    if |g| == 0 then {}
    else
      var init := g[..|g| - 1];
      assert Ids(init) <= Ids(g);
      assert g[|g| - 1] in g;
      CorrectIds(init) + (if IsCorrect(g[|g| - 1]) then {g[|g| - 1].questionId} else {})
  }

  lemma {:induction false} CountIsCorrectIds(g: seq<Answer>)
    requires Distinct(g)
    ensures CountCorrect(g) == |CorrectIds(g)|
  {
    if |g| > 0 {
      var init := g[..|g| - 1];
      assert Distinct(init);
      CountIsCorrectIds(init);
      var last := g[|g| - 1];
      assert last.questionId !in Ids(init);
    }
  }

  /**
   * With one answer per question, at most the two keyed questions can be correct,
   * so the skill percentage never reaches the `Math.min(100, ...)` cap.
   */
  lemma CorrectAtMostKeySize(g: seq<Answer>)
    requires Distinct(g)
    ensures CountCorrect(g) <= KeySize
  {
    CountIsCorrectIds(g);
    SubsetOfPair(CorrectIds(g), TechnicalPrefix + "1", TechnicalPrefix + "2");
  }

  lemma SubsetOfPair(s: set<string>, k1: string, k2: string)
    requires s <= {k1, k2}
    ensures |s| <= 2
  {
    if k1 in s && k2 in s {
      assert s == {k1, k2};
    } else if k1 in s {
      assert s == {k1};
    } else if k2 in s {
      assert s == {k2};
    } else {
      assert s == {};
    }
  }

  // ---------------------------------------------------------------------------
  // Learning answers

  /** The maximum of a learning answer's scale: 20 hours for the slider, 5 for ratings. */
  function LearningMax(id: string): int {
    if id == HoursQuestion then 20 else 5
  }

  /** A learning answer's share of its scale; a text value adds nothing. */
  function LearningShare(a: Answer): (r: real)
    ensures a.value.Str? ==> r == 0.0
    ensures a.value.Num? && 0 <= a.value.n <= LearningMax(a.questionId) ==> 0.0 <= r <= 1.0
    ensures a.value.Num? && a.value.n == LearningMax(a.questionId) ==> r == 1.0
  {
    match a.value
    case Num(n) => if a.questionId == HoursQuestion then n as real / 20.0 else n as real / 5.0
    case Str(_) => 0.0
  }

  /** Every numeric learning answer lies on its scale. */
  predicate LearningInRange(g: seq<Answer>) {
    forall a :: a in g && a.value.Num? ==> 0 <= a.value.n <= LearningMax(a.questionId)
  }

  function LearningSum(g: seq<Answer>): (r: real)
    ensures LearningInRange(g) ==> 0.0 <= r <= |g| as real
  {
    if |g| == 0 then 0.0
    else LearningShare(g[0]) + LearningSum(g[1..])
  }

  /** Mean share over all learning answers; text answers still count in the denominator. */
  function LearningMean(g: seq<Answer>): (r: real)
    requires |g| > 0
    ensures LearningInRange(g) ==> 0.0 <= r <= 1.0
  {
    var s := LearningSum(g);
    assert LearningInRange(g) ==> 0.0 <= s / |g| as real <= 1.0 by {
      if LearningInRange(g) {
        DivBounds(s, |g| as real, 0.0, 1.0);
      }
    }
    s / |g| as real
  }

  // ---------------------------------------------------------------------------
  // Dimensions before rounding

  /**
   * The answers can be scored without a NaN: the interest, personality and learning
   * groups are non-empty and the interest and personality answers are numbers.
   */
  predicate Scorable(answers: seq<Answer>) {
    && |Group(answers, InterestPrefix)| > 0 && AllNum(Group(answers, InterestPrefix))
    && |Group(answers, PersonalityPrefix)| > 0 && AllNum(Group(answers, PersonalityPrefix))
    && |Group(answers, LearningPrefix)| > 0
  }

  /** Every value lies on the scale of the control that produced it. */
  predicate OnScale(answers: seq<Answer>) {
    && NumsIn(Group(answers, InterestPrefix), 1, 5)
    && NumsIn(Group(answers, PersonalityPrefix), 1, 5)
    && LearningInRange(Group(answers, LearningPrefix))
  }

  /** `willScore`: the raw 1..5 mean of the interest answers. */
  function WillRaw(answers: seq<Answer>): (r: real)
    requires Scorable(answers)
    ensures NumsIn(Group(answers, InterestPrefix), 1, 5) ==> 1.0 <= r <= 5.0
  {
    Mean(Group(answers, InterestPrefix))
  }

  function InterestRaw(answers: seq<Answer>): (r: real)
    requires Scorable(answers)
    ensures r <= 100.0
    ensures WillRaw(answers) <= 5.0 ==> r == WillRaw(answers) * 20.0
  {
    Cap(WillRaw(answers) / 5.0 * 100.0)
  }

  function CognitiveRaw(answers: seq<Answer>): (r: real)
    requires Scorable(answers)
    ensures r <= 100.0
    ensures NumsIn(Group(answers, PersonalityPrefix), 1, 5) ==> 20.0 <= r
  {
    Cap(Mean(Group(answers, PersonalityPrefix)) / 5.0 * 100.0)
  }

  /**
   * `skill` before rounding. The source takes `calculateTechnicalScore`'s result, which is
   * `CountCorrect(g) / KeySize * 100` (the first ensures of `CalculateTechnicalScore`),
   * and multiplies it by `/ 100 * 100`, the identity over `real`.
   */
  function SkillRaw(answers: seq<Answer>): (r: real)
    ensures 0.0 <= r <= 100.0
    ensures r == 0.0 <==> forall a :: a in Group(answers, TechnicalPrefix) ==> !IsCorrect(a)
  {
    Cap(CountCorrect(Group(answers, TechnicalPrefix)) as real / KeySize as real * 100.0)
  }

  function LearningRaw(answers: seq<Answer>): (r: real)
    requires Scorable(answers)
    ensures r <= 100.0
    ensures LearningInRange(Group(answers, LearningPrefix)) ==> 0.0 <= r
  {
    Cap(LearningMean(Group(answers, LearningPrefix)) * 100.0)
  }

  /** `realWorldAlignment` before rounding: the mean of the unrounded interest, skill and cognitive readiness. */
  function AlignmentRaw(answers: seq<Answer>): (r: real)
    requires Scorable(answers)
    ensures r <= 100.0
    ensures OnScale(answers) ==> 40.0 / 3.0 <= r
  {
    (InterestRaw(answers) + SkillRaw(answers) + CognitiveRaw(answers)) / 3.0
  }

  /** `overall` before rounding: the mean of the six unrounded parts, the raw will among them. */
  function OverallRaw(answers: seq<Answer>): (r: real)
    requires Scorable(answers)
    ensures OnScale(answers) ==> 163.0 / 18.0 <= r <= 505.0 / 6.0
  {
    (WillRaw(answers) + InterestRaw(answers) + SkillRaw(answers) + CognitiveRaw(answers)
     + LearningRaw(answers) + AlignmentRaw(answers)) / 6.0
  }

  // ---------------------------------------------------------------------------
  // The score vector

  /** `calculateWISCARScores` */
  function Calculate(answers: seq<Answer>): (r: WiscarScores)
    requires Scorable(answers)
    ensures r.interest <= 100 && r.cognitiveReadiness <= 100 && r.abilityToLearn <= 100
    ensures 0 <= r.skill <= 100
    ensures r.skill == 0 <==> forall a :: a in Group(answers, TechnicalPrefix) ==> !IsCorrect(a)
    ensures r.realWorldAlignment <= 100
  {
    RoundMonotone(SkillRaw(answers), 100.0);
    RoundMonotone(AlignmentRaw(answers), 100.0);
    WiscarScores(
      will := Round(WillRaw(answers)),
      interest := Round(InterestRaw(answers)),
      skill := Round(SkillRaw(answers)),
      cognitiveReadiness := Round(CognitiveRaw(answers)),
      abilityToLearn := Round(LearningRaw(answers)),
      realWorldAlignment := Round(AlignmentRaw(answers)),
      overall := Round(OverallRaw(answers)))
  }
}
