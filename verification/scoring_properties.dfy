/**
 * Properties of the score vector: ranges for on-scale answers, how `will` relates to
 * `interest`, and worked scenarios that pin the arithmetic down.
 */
module ScoringProperties {
  import opened Wrappers
  import opened Answers
  import opened Scoring
  import opened Catalogue

  /**
   * For answers on their controls' scales every field lies in [0, 100]. Because
   * `will` stays on the raw 1..5 scale, `overall` can never exceed 84.
   */
  lemma ScoresInRange(answers: seq<Answer>)
    requires Scorable(answers) && OnScale(answers)
    ensures var r := Calculate(answers);
      && 1 <= r.will <= 5
      && 20 <= r.interest <= 100
      && 20 <= r.cognitiveReadiness <= 100
      && 0 <= r.skill <= 100
      && 0 <= r.abilityToLearn <= 100
      && 13 <= r.realWorldAlignment <= 100
      && 9 <= r.overall <= 84
  {
    var w := WillRaw(answers);
    assert 1.0 <= w <= 5.0;
    var i, c := InterestRaw(answers), CognitiveRaw(answers);
    assert 20.0 <= i <= 100.0;
    assert 20.0 <= c <= 100.0;
    var s, l := SkillRaw(answers), LearningRaw(answers);
    assert 0.0 <= l <= 100.0;
    var a := AlignmentRaw(answers);
    assert 40.0 / 3.0 <= a <= 100.0;
    var o := OverallRaw(answers);
    assert (41.0 + 40.0 / 3.0) / 6.0 <= o <= 505.0 / 6.0;
    RoundMonotone(1.0, w);
    RoundMonotone(w, 5.0);
    RoundMonotone(20.0, i);
    RoundMonotone(20.0, c);
    RoundMonotone(0.0, l);
    RoundMonotone(l, 100.0);
    RoundMonotone(40.0 / 3.0, a);
    RoundMonotone(a, 100.0);
    RoundMonotone((41.0 + 40.0 / 3.0) / 6.0, o);
    RoundMonotone(o, 505.0 / 6.0);
  }

  /**
   * `will` is the rounded raw mean, not the rescaled `interest`: on-scale answers
   * keep `interest` within 10 points of twenty times `will`.
   */
  lemma WillTracksInterest(answers: seq<Answer>)
    requires Scorable(answers) && OnScale(answers)
    ensures var r := Calculate(answers);
      && 1 <= r.will <= 5
      && -10 <= r.interest - 20 * r.will <= 10
  {
    ScoresInRange(answers);
    var w := WillRaw(answers);
    assert InterestRaw(answers) == 20.0 * w;
  }

  /**
   * With one answer per question the skill score is fifty points per correct answer:
   * 0, 50 or 100, so the `Math.min(100, ...)` cap never applies.
   */
  lemma SkillSteps(answers: seq<Answer>)
    requires Scorable(answers) && Distinct(answers)
    ensures var n := CountCorrect(Group(answers, TechnicalPrefix));
      && n <= KeySize
      && Calculate(answers).skill == 50 * n
  {
    var g := Group(answers, TechnicalPrefix);
    GroupDistinct(answers, TechnicalPrefix);
    CorrectAtMostKeySize(g);
    var n := CountCorrect(g);
    assert SkillRaw(answers) == (50 * n) as real;
  }

  /**
   * The answer key and the catalogue agree: exactly the multiple-choice questions are
   * keyed, and each offers its key text among its options.
   */
  lemma KeyAnswersOffered()
    ensures forall i :: 0 <= i < |Questions| ==>
      (CorrectAnswer(Questions[i].id).Some? <==> Questions[i].kind.MultipleChoice?)
    ensures forall i :: 0 <= i < |Questions| && Questions[i].kind.MultipleChoice? ==>
      CorrectAnswer(Questions[i].id).value in Questions[i].kind.options
  {
    IdLayout();
    KeyEntries();
    forall i | 0 <= i < |Questions| && i / 2 != 2
      ensures CorrectAnswer(Questions[i].id).None?
    {
      UnkeyedOutsideTechnical(i);
    }
  }

  lemma UnkeyedOutsideTechnical(i: nat)
    requires i < |Questions| && i / 2 != 2
    ensures CorrectAnswer(Questions[i].id).None?
  {
    IdLayout();
    var p := Sections[i / 2];
    assert Questions[i].id[0] == p[0] by {
      assert Questions[i].id == p + Ordinal(i);
    }
    assert Questions[i].id[0] != TechnicalPrefix[0];
  }

  /** The learning sum of a concatenation is the sum of the parts' sums, so order does not matter. */
  lemma {:induction false} LearningSumAppend(a: seq<Answer>, b: seq<Answer>)
    ensures LearningSum(a + b) == LearningSum(a) + LearningSum(b)
  {
    if |a| == 0 {
      assert a + b == b;
    } else {
      assert (a + b)[0] == a[0];
      assert (a + b)[1..] == a[1..] + b;
      LearningSumAppend(a[1..], b);
    }
  }

  /** A text answer anywhere in the learning group adds nothing to the sum. */
  lemma TextLearningAnswerAddsNothing(x: Answer, a: seq<Answer>, b: seq<Answer>)
    requires x.value.Str?
    ensures LearningSum(a + [x] + b) == LearningSum(a + b)
  {
    LearningSumAppend(a + [x], b);
    LearningSumAppend(a, [x]);
    LearningSumAppend(a, b);
    assert [x][1..] == [];
  }

  /**
   * A text answer anywhere in the learning group still counts in the denominator,
   * so it pulls the mean towards zero.
   */
  lemma TextLearningAnswerDilutes(x: Answer, a: seq<Answer>, b: seq<Answer>)
    requires x.value.Str?
    ensures LearningMean(a + [x] + b) == LearningSum(a + b) / (|a| + |b| + 1) as real
  {
    var c := a + [x] + b;
    assert |c| == |a| + |b| + 1;
    TextLearningAnswerAddsNothing(x, a, b);
    LearningMeanOfSum(c);
  }

  lemma LearningMeanOfSum(g: seq<Answer>)
    requires |g| > 0
    ensures LearningMean(g) == LearningSum(g) / |g| as real
  {
  }

  /** `realWorldAlignment` is within one point of the mean of the three rounded fields it summarises. */
  lemma AlignmentNearRoundedMean(answers: seq<Answer>)
    requires Scorable(answers)
    ensures var r := Calculate(answers);
      -3 <= 3 * r.realWorldAlignment - (r.interest + r.skill + r.cognitiveReadiness) <= 3
  {
  }

  /**
   * When the unrounded interest, skill and cognitive readiness are whole numbers,
   * rounding them first changes nothing, so `realWorldAlignment` is exactly the rounded
   * mean of the three rounded fields.
   */
  lemma AlignmentOfWholeParts(answers: seq<Answer>, i: int, s: int, c: int)
    requires Scorable(answers)
    requires InterestRaw(answers) == i as real && SkillRaw(answers) == s as real
    requires CognitiveRaw(answers) == c as real
    ensures var r := Calculate(answers);
      r.realWorldAlignment == Round((r.interest + r.skill + r.cognitiveReadiness) as real / 3.0)
  {
    assert Round(i as real) == i && Round(s as real) == s && Round(c as real) == c;
  }

  /**
   * `overall` is within one point of the mean of the six rounded fields it reports,
   * though not always equal to its rounding (see `OverallFromUnroundedParts`).
   */
  lemma OverallNearRoundedMean(answers: seq<Answer>)
    requires Scorable(answers)
    ensures var r := Calculate(answers);
      -6 <= 6 * r.overall - (r.will + r.interest + r.skill + r.cognitiveReadiness
                             + r.abilityToLearn + r.realWorldAlignment) <= 6
  {
  }

  // ---------------------------------------------------------------------------
  // Scenarios

  /** The eight answers in catalogue order with the given values. */
  function Sheet(i1: int, i2: int, p1: int, p2: int, t1: string, t2: string, hours: int, l2: int): seq<Answer> {
    [Answer(InterestPrefix + "1", Num(i1)), Answer(InterestPrefix + "2", Num(i2)),
     Answer(PersonalityPrefix + "1", Num(p1)), Answer(PersonalityPrefix + "2", Num(p2)),
     Answer(TechnicalPrefix + "1", Str(t1)), Answer(TechnicalPrefix + "2", Str(t2)),
     Answer(LearningPrefix + "1", Num(hours)), Answer(LearningPrefix + "2", Num(l2))]
  }

  /** The group of a two-answer list whose ids both carry the prefix, or both do not. */
  lemma PairGroup(x: Answer, y: Answer, p: string)
    requires HasPrefix(x.questionId, p) == HasPrefix(y.questionId, p)
    ensures Group([x, y], p) == if HasPrefix(x.questionId, p) then [x, y] else []
  {
    assert [x, y][1..] == [y];
    assert [y][1..] == [];
  }

  lemma SplitInPairs(sh: seq<Answer>, p: string)
    requires |sh| == 8
    ensures Group(sh, p) == Group([sh[0], sh[1]], p) + Group([sh[2], sh[3]], p)
                          + Group([sh[4], sh[5]], p) + Group([sh[6], sh[7]], p)
  {
    assert sh == [sh[0], sh[1]] + [sh[2], sh[3]] + [sh[4], sh[5]] + [sh[6], sh[7]];
    GroupAppend([sh[0], sh[1]] + [sh[2], sh[3]] + [sh[4], sh[5]], [sh[6], sh[7]], p);
    GroupAppend([sh[0], sh[1]] + [sh[2], sh[3]], [sh[4], sh[5]], p);
    GroupAppend([sh[0], sh[1]], [sh[2], sh[3]], p);
  }

  /** A pair of answers to section `k` lies wholly inside the group of section `j` when j == k, and wholly outside otherwise. */
  lemma PairOfSection(x: Answer, y: Answer, j: nat, k: nat)
    requires j < 4 && k < 4
    requires x.questionId == Sections[k] + "1" && y.questionId == Sections[k] + "2"
    ensures Group([x, y], Sections[j]) == if j == k then [x, y] else []
  {
    var p, q := Sections[j], Sections[k];
    if j == k {
      PrefixOfJoin(p, "1");
      PrefixOfJoin(p, "2");
    } else {
      assert (q + "1")[0] == q[0] && (q + "2")[0] == q[0];
      NotPrefixAt(q + "1", p, 0);
      NotPrefixAt(q + "2", p, 0);
    }
    PairGroup(x, y, p);
  }

  /** In a list laid out in catalogue order, each group is the pair of its own section. */
  lemma SheetGroup(sh: seq<Answer>, j: nat)
    requires |sh| == 8 && j < 4
    requires sh[0].questionId == Sections[0] + "1" && sh[1].questionId == Sections[0] + "2"
    requires sh[2].questionId == Sections[1] + "1" && sh[3].questionId == Sections[1] + "2"
    requires sh[4].questionId == Sections[2] + "1" && sh[5].questionId == Sections[2] + "2"
    requires sh[6].questionId == Sections[3] + "1" && sh[7].questionId == Sections[3] + "2"
    ensures Group(sh, Sections[j]) == [sh[2 * j], sh[2 * j + 1]]
  {
    SplitInPairs(sh, Sections[j]);
    if j == 0 {
      PairOfSection(sh[0], sh[1], 0, 0);
      PairOfSection(sh[2], sh[3], 0, 1);
      PairOfSection(sh[4], sh[5], 0, 2);
      PairOfSection(sh[6], sh[7], 0, 3);
    } else if j == 1 {
      PairOfSection(sh[0], sh[1], 1, 0);
      PairOfSection(sh[2], sh[3], 1, 1);
      PairOfSection(sh[4], sh[5], 1, 2);
      PairOfSection(sh[6], sh[7], 1, 3);
    } else if j == 2 {
      PairOfSection(sh[0], sh[1], 2, 0);
      PairOfSection(sh[2], sh[3], 2, 1);
      PairOfSection(sh[4], sh[5], 2, 2);
      PairOfSection(sh[6], sh[7], 2, 3);
    } else {
      PairOfSection(sh[0], sh[1], 3, 0);
      PairOfSection(sh[2], sh[3], 3, 1);
      PairOfSection(sh[4], sh[5], 3, 2);
      PairOfSection(sh[6], sh[7], 3, 3);
    }
  }

  lemma SheetGroups(i1: int, i2: int, p1: int, p2: int, t1: string, t2: string, hours: int, l2: int)
    ensures var sh := Sheet(i1, i2, p1, p2, t1, t2, hours, l2);
      && Group(sh, InterestPrefix) == [sh[0], sh[1]]
      && Group(sh, PersonalityPrefix) == [sh[2], sh[3]]
      && Group(sh, TechnicalPrefix) == [sh[4], sh[5]]
      && Group(sh, LearningPrefix) == [sh[6], sh[7]]
  {
    var sh := Sheet(i1, i2, p1, p2, t1, t2, hours, l2);
    SheetGroup(sh, 0);
    SheetGroup(sh, 1);
    SheetGroup(sh, 2);
    SheetGroup(sh, 3);
  }

  lemma PairSum(x: Answer, y: Answer)
    requires x.value.Num? && y.value.Num?
    ensures NumSum([x, y]) == (x.value.n + y.value.n) as real
  {
    assert [x, y][1..] == [y];
    assert [y][1..] == [];
    assert NumSum([y]) == y.value.n as real + NumSum([]);
  }

  lemma PairShares(x: Answer, y: Answer)
    ensures LearningSum([x, y]) == LearningShare(x) + LearningShare(y)
  {
    assert [x, y][1..] == [y];
    assert [y][1..] == [];
    assert LearningSum([y]) == LearningShare(y) + LearningSum([]);
  }

  lemma PairCorrect(x: Answer, y: Answer)
    ensures CountCorrect([x, y]) == (if IsCorrect(x) then 1 else 0) + (if IsCorrect(y) then 1 else 0)
  {
    assert [x, y][..1] == [x];
    assert [x][..0] == [];
  }

  /** The key entry of each technical question. */
  lemma KeyEntries()
    ensures CorrectAnswer(TechnicalPrefix + "1") == Some(MfaKey)
    ensures CorrectAnswer(TechnicalPrefix + "2") == Some("SAML")
  {
    assert (TechnicalPrefix + "2")[|TechnicalPrefix|] != (TechnicalPrefix + "1")[|TechnicalPrefix|];
  }

  /** The unrounded parts for a list laid out in catalogue order. */
  lemma SheetParts(i1: int, i2: int, p1: int, p2: int, t1: string, t2: string, hours: int, l2: int)
    ensures var sh := Sheet(i1, i2, p1, p2, t1, t2, hours, l2);
      && Scorable(sh)
      && WillRaw(sh) == (i1 + i2) as real / 2.0
      && CognitiveRaw(sh) == Cap((p1 + p2) as real / 2.0 / 5.0 * 100.0)
      && SkillRaw(sh) == ((if t1 == MfaKey then 1 else 0) + (if t2 == "SAML" then 1 else 0)) as real / 2.0 * 100.0
      && LearningRaw(sh) == Cap((hours as real / 20.0 + l2 as real / 5.0) / 2.0 * 100.0)
  {
    var sh := Sheet(i1, i2, p1, p2, t1, t2, hours, l2);
    SheetGroups(i1, i2, p1, p2, t1, t2, hours, l2);
    SheetNumbers(sh);
    SheetSkill(sh, t1, t2);
    SheetLearning(sh, hours, l2);
  }

  lemma SheetNumbers(sh: seq<Answer>)
    requires |sh| == 8
    requires Group(sh, InterestPrefix) == [sh[0], sh[1]] && Group(sh, PersonalityPrefix) == [sh[2], sh[3]]
    requires Group(sh, LearningPrefix) == [sh[6], sh[7]]
    requires sh[0].value.Num? && sh[1].value.Num? && sh[2].value.Num? && sh[3].value.Num?
    ensures Scorable(sh)
    ensures WillRaw(sh) == (sh[0].value.n + sh[1].value.n) as real / 2.0
    ensures CognitiveRaw(sh) == Cap((sh[2].value.n + sh[3].value.n) as real / 2.0 / 5.0 * 100.0)
  {
    PairMean(sh[0], sh[1]);
    PairMean(sh[2], sh[3]);
  }

  lemma PairMean(x: Answer, y: Answer)
    requires x.value.Num? && y.value.Num?
    ensures AllNum([x, y])
    ensures Mean([x, y]) == (x.value.n + y.value.n) as real / 2.0
  {
    assert forall a :: a in [x, y] ==> a == x || a == y;
    PairSum(x, y);
  }

  lemma SheetSkill(sh: seq<Answer>, t1: string, t2: string)
    requires |sh| == 8 && Group(sh, TechnicalPrefix) == [sh[4], sh[5]]
    requires sh[4] == Answer(TechnicalPrefix + "1", Str(t1)) && sh[5] == Answer(TechnicalPrefix + "2", Str(t2))
    ensures SkillRaw(sh) == ((if t1 == MfaKey then 1 else 0) + (if t2 == "SAML" then 1 else 0)) as real / 2.0 * 100.0
  {
    PairCorrect(sh[4], sh[5]);
    KeyEntries();
  }

  lemma SheetLearning(sh: seq<Answer>, hours: int, l2: int)
    requires |sh| == 8 && Scorable(sh) && Group(sh, LearningPrefix) == [sh[6], sh[7]]
    requires sh[6] == Answer(LearningPrefix + "1", Num(hours)) && sh[7] == Answer(LearningPrefix + "2", Num(l2))
    ensures LearningRaw(sh) == Cap((hours as real / 20.0 + l2 as real / 5.0) / 2.0 * 100.0)
  {
    PairShares(sh[6], sh[7]);
    assert (LearningPrefix + "2")[|LearningPrefix|] != (LearningPrefix + "1")[|LearningPrefix|];
  }

  /**
   * Every answer at its maximum and both technical answers right: every field is 100
   * except `will`, which is 5, and `overall` is round(505 / 6) = 84.
   */
  lemma MaximalAnswers()
    ensures Scorable(Sheet(5, 5, 5, 5, MfaKey, "SAML", 20, 5))
    ensures Calculate(Sheet(5, 5, 5, 5, MfaKey, "SAML", 20, 5))
         == WiscarScores(5, 100, 100, 100, 100, 100, 84)
  {
    var sh := Sheet(5, 5, 5, 5, MfaKey, "SAML", 20, 5);
    SheetParts(5, 5, 5, 5, MfaKey, "SAML", 20, 5);
    assert InterestRaw(sh) == 100.0;
    assert AlignmentRaw(sh) == 100.0;
    assert OverallRaw(sh) == 505.0 / 6.0;
  }

  /**
   * For any list in catalogue order whose four Likert answers lie on the 1..5 scale,
   * whatever the technical and learning answers, the unrounded interest, skill and
   * cognitive readiness are whole numbers, so `realWorldAlignment` equals the rounded
   * mean of the three rounded fields. Only `overall` can differ from its rounded fields.
   */
  lemma AlignmentIsRoundedMean(sh: seq<Answer>, i1: int, i2: int, p1: int, p2: int,
                               t1: string, t2: string, hours: int, l2: int)
    requires sh == Sheet(i1, i2, p1, p2, t1, t2, hours, l2)
    requires 1 <= i1 <= 5 && 1 <= i2 <= 5 && 1 <= p1 <= 5 && 1 <= p2 <= 5
    ensures Scorable(sh)
    ensures var r := Calculate(sh);
      r.realWorldAlignment == Round((r.interest + r.skill + r.cognitiveReadiness) as real / 3.0)
  {
    SheetParts(i1, i2, p1, p2, t1, t2, hours, l2);
    var n := (if t1 == MfaKey then 1 else 0) + (if t2 == "SAML" then 1 else 0);
    assert InterestRaw(sh) == (10 * (i1 + i2)) as real;
    assert CognitiveRaw(sh) == (10 * (p1 + p2)) as real;
    assert SkillRaw(sh) == (50 * n) as real;
    AlignmentOfWholeParts(sh, 10 * (i1 + i2), 50 * n, 10 * (p1 + p2));
  }

  /**
   * `overall` averages the unrounded parts: here it is 14, while the mean of the six
   * rounded fields it reports would round to 15.
   */
  lemma OverallFromUnroundedParts(sh: seq<Answer>)
    requires sh == Sheet(1, 1, 1, 1, "To encrypt user data", "HTTP", 9, 1)
    ensures Scorable(sh)
    ensures var r := Calculate(sh);
      && r.overall == 14
      && Round((r.will + r.interest + r.skill + r.cognitiveReadiness + r.abilityToLearn
                + r.realWorldAlignment) as real / 6.0) == 15
  {
    SheetParts(1, 1, 1, 1, "To encrypt user data", "HTTP", 9, 1);
    assert InterestRaw(sh) == 20.0;
    assert "To encrypt user data" != MfaKey && "HTTP" != "SAML";
    assert SkillRaw(sh) == 0.0;
    assert LearningRaw(sh) == 32.5;
    assert AlignmentRaw(sh) == 40.0 / 3.0;
    assert OverallRaw(sh) == (1.0 + 20.0 + 0.0 + 20.0 + 32.5 + 40.0 / 3.0) / 6.0;
    var r := Calculate(sh);
    assert r.overall == 14;
    assert r.will == 1 && r.interest == 20 && r.skill == 0 && r.cognitiveReadiness == 20;
    assert r.abilityToLearn == 33 && r.realWorldAlignment == 13;
    assert (r.will + r.interest + r.skill + r.cognitiveReadiness + r.abilityToLearn
            + r.realWorldAlignment) as real / 6.0 == 14.5;
    RoundedFieldsMean(r);
  }

  /** The six rounded fields of the scenario above average to 14.5, which rounds up. */
  lemma RoundedFieldsMean(r: WiscarScores)
    requires r == WiscarScores(1, 20, 0, 20, 33, 13, 14)
    ensures Round((r.will + r.interest + r.skill + r.cognitiveReadiness + r.abilityToLearn
                   + r.realWorldAlignment) as real / 6.0) == 15
  {
    assert (r.will + r.interest + r.skill + r.cognitiveReadiness + r.abilityToLearn
            + r.realWorldAlignment) as real / 6.0 == 14.5;
  }
}
