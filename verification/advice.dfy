/**
 * What the results page derives from a score vector: the recommendation, the
 * colour and badge of a score, and the career-path matches.
 */
module Advice {
  import opened Wrappers
  import opened Answers
  import opened Scoring
  import opened ScoringProperties

  /** Lower bound of the top band; a score of exactly 75 is in it. */
  const ProceedFrom := 75
  /** Lower bound of the middle band; a score of exactly 50 is in it. */
  const MaybeFrom := 50

  /** The recommendation type; the middle one is spelt 'maybe' in the source. */
  datatype Category = Proceed | Maybe | NotReady

  /** The message and next-step texts are fixed per category and left out. */
  datatype Recommendation = Recommendation(category: Category, confidence: int)

  /** `generateRecommendation` */
  function Recommend(scores: WiscarScores): (r: Recommendation)
    ensures r.confidence == scores.overall
    ensures r.category == Proceed <==> scores.overall >= ProceedFrom
    ensures r.category == Maybe <==> MaybeFrom <= scores.overall < ProceedFrom
    ensures r.category == NotReady <==> scores.overall < MaybeFrom
  {
    if scores.overall >= ProceedFrom then Recommendation(Proceed, scores.overall)
    else if scores.overall >= MaybeFrom then Recommendation(Maybe, scores.overall)
    else Recommendation(NotReady, scores.overall)
  }

  /** The text colour classes `text-success`, `text-warning` and `text-destructive`. */
  datatype ScoreColor = SuccessText | WarningText | DestructiveText

  /** The badge variants `default`, `secondary` and `destructive`. */
  datatype BadgeVariant = DefaultBadge | SecondaryBadge | DestructiveBadge

  /** `getScoreColor` */
  function ColorOf(score: int): (c: ScoreColor)
    ensures c == SuccessText <==> score >= ProceedFrom
    ensures c == WarningText <==> MaybeFrom <= score < ProceedFrom
    ensures c == DestructiveText <==> score < MaybeFrom
  {
    if score >= ProceedFrom then SuccessText
    else if score >= MaybeFrom then WarningText
    else DestructiveText
  }

  /** `getScoreBadgeVariant` */
  function BadgeOf(score: int): (b: BadgeVariant)
    ensures b == DefaultBadge <==> score >= ProceedFrom
    ensures b == SecondaryBadge <==> MaybeFrom <= score < ProceedFrom
    ensures b == DestructiveBadge <==> score < MaybeFrom
  {
    if score >= ProceedFrom then DefaultBadge
    else if score >= MaybeFrom then SecondaryBadge
    else DestructiveBadge
  }

  /** Position of a category from worst to best. */
  function Rank(c: Category): nat {
    match c
    case NotReady => 0
    case Maybe => 1
    case Proceed => 2
  }

  /** A higher overall score never yields a worse recommendation. */
  lemma RecommendMonotone(a: WiscarScores, b: WiscarScores)
    requires a.overall <= b.overall
    ensures Rank(Recommend(a).category) <= Rank(Recommend(b).category)
  {
  }

  /** The overall score's colour and badge are the recommendation's band, on every input. */
  lemma ColorAndBadgeFollowRecommendation(scores: WiscarScores)
    ensures var c := Recommend(scores).category;
      && ColorOf(scores.overall) == (match c case Proceed => SuccessText case Maybe => WarningText case NotReady => DestructiveText)
      && BadgeOf(scores.overall) == (match c case Proceed => DefaultBadge case Maybe => SecondaryBadge case NotReady => DestructiveBadge)
  {
  }

  /** All answers maximal: the recommendation is 'proceed' with confidence 84. */
  lemma MaximalAnswersProceed()
    ensures Scorable(Sheet(5, 5, 5, 5, MfaKey, "SAML", 20, 5))
    ensures Recommend(Calculate(Sheet(5, 5, 5, 5, MfaKey, "SAML", 20, 5))) == Recommendation(Proceed, 84)
  {
    MaximalAnswers();
  }

  datatype CareerMatch = CareerMatch(title: string, percent: int)

  /**
   * `careerPaths`: each path shows one field of the score vector, or 0 when there is
   * no score vector yet (`scores?.field || 0`; for an integer field `x || 0` is `x`).
   */
  function CareerPaths(scores: Option<WiscarScores>): (r: seq<CareerMatch>)
    ensures |r| == 4
    ensures scores.None? ==> forall i :: 0 <= i < |r| ==> r[i].percent == 0
    ensures scores.Some? ==>
      && r[0].percent == scores.value.overall
      && r[1].percent == scores.value.cognitiveReadiness
      && r[2].percent == scores.value.skill
      && r[3].percent == scores.value.will
  {
    var s := if scores.Some? then scores.value else WiscarScores(0, 0, 0, 0, 0, 0, 0);
    [CareerMatch("IAM Specialist", s.overall),
     CareerMatch("Cybersecurity Analyst", s.cognitiveReadiness),
     CareerMatch("Cloud Security Engineer", s.skill),
     CareerMatch("Compliance Officer", s.will)]
  }

  /**
   * For on-scale answers every career match lies in [0, 100], the IAM Specialist match
   * is the recommendation's confidence, and the Compliance Officer match, read from the
   * raw `will`, is at most 5.
   */
  lemma CareerPathsInRange(answers: seq<Answer>)
    requires Scorable(answers) && OnScale(answers)
    ensures var scores := Calculate(answers);
      var paths := CareerPaths(Some(scores));
      && (forall i :: 0 <= i < |paths| ==> 0 <= paths[i].percent <= 100)
      && paths[0].percent == Recommend(scores).confidence
      && 1 <= paths[3].percent <= 5
  {
    ScoresInRange(answers);
  }
}
