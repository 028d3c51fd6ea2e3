# IAM Pathfinder: a verified model of the quiz core

IAM Pathfinder is a career-readiness quiz. The user answers eight questions, and
the results page turns the answers into a WISCAR score vector. The six dimensions
are will, interest, skill, cognitive readiness, ability to learn and real-world
alignment, and the page also derives an overall score. From that it produces a
recommendation ("proceed", "maybe" or "not-ready"), a colour and a badge per
score, and four career-path matches.

This project models two parts of the quiz in Dafny:

- **the scoring engine** of `src/pages/Results.tsx`
- **the questionnaire** of `src/pages/Assessment.tsx`: the question catalogue,
  the answer store with its insert-or-replace update, and the stepper with its
  progress figures

Arithmetic is exact over `real`. Every stored field is rounded with
`Round(x) = Floor(x + 1/2)`, which is what JavaScript's `Math.round` computes.

Modules, one per file, in dependency order:

| file | module | contents |
|---|---|---|
| `wrappers.dfy` | `Wrappers` | `Option`, used where the source yields `undefined`, `-1` or `null` |
| `answers.dfy` | `Answers` | `Answer`, `Value`; prefix filter `Group`; `FindIndex`/`Find`; `Upsert` |
| `catalogue.dfy` | `Catalogue` | the eight questions, valid values per control, well-formedness |
| `scoring.dfy` | `Scoring` | `calculateWISCARScores`, `calculateTechnicalScore`, their parts |
| `scoring_properties.dfy` | `ScoringProperties` | ranges, relations between fields, worked scenarios |
| `advice.dfy` | `Advice` | recommendation, score colour, badge variant, career paths |
| `stepper.dfy` | `Stepper` | `getCurrentAnswer`, `handleAnswer`, `handleNext`, `handlePrevious`, progress, steps |
| `session.dfy` | `Session` | the page invariant over whole sessions; what the completed handoff guarantees |

## Where the code departs from what its names suggest

The model follows the code. Each point below is stated and proved as a property.

- `will` is the raw 1–5 mean of the interest answers, not a copy of the rescaled
  `interest` (`Results.tsx:74,104`). Because `overall` averages this raw value in,
  all-maximal answers give `will = 5` and `overall = 84`, not 100
  (`ScoringProperties.MaximalAnswers`, `Advice.MaximalAnswersProceed`). On-scale
  answers keep `overall` within [9, 84] (`ScoringProperties.ScoresInRange`).
- `realWorldAlignment` and `overall` are means of the unrounded parts
  (`Results.tsx:98,101`), not of the rounded fields. For `realWorldAlignment`
  this is never visible. With on-scale Likert answers, the unrounded interest,
  skill and cognitive readiness are whole numbers (`10·(i1+i2)`, `50·n` and
  `10·(p1+p2)`), so the alignment equals the rounded mean of the three rounded
  fields (`ScoringProperties.AlignmentIsRoundedMean`). Only `overall` can differ.
  `ScoringProperties.OverallFromUnroundedParts` gives one input where the
  mean of the six rounded fields would round to 15 and the code gives 14. That input is:
  - both interest answers 1 and both personality answers 1
  - both technical answers wrong ("To encrypt user data" and "HTTP")
  - 9 hours of learning per week
  - learning rating 1
- Clamping is upper-only (`Math.min(100, …)`). Lower bounds hold only because
  on-scale inputs are non-negative.
- An empty interest, personality or learning group divides by zero and yields NaN
  (`Results.tsx:73,79,94`). It does not yield 0. The model makes non-empty groups
  a precondition (`Scoring.Scorable`). `Session.HandoffScorable` proves that every
  completed questionnaire meets it.
- The skill score divides by the fixed key size 2. With no technical answers it
  is 0, not NaN.
- The middle recommendation category is spelt `'maybe'`.

## Model

| member | source | states |
|---|---|---|
| Answers.Group | src/pages/Results.tsx:72-88 | `filter(a => a.questionId.startsWith(prefix))`: the group is never longer than the list; its exact contents are stated by `GroupMembers`, `GroupCounts` and `GroupAppend` |
| Answers.PrefixOfJoin | src/pages/Results.tsx:72 | `startsWith`: an id made of a section prefix followed by anything starts with that prefix |
| Answers.GroupMembers | src/pages/Results.tsx:72-88 | a group holds exactly the answers whose id starts with the section prefix (`filter(startsWith)`) |
| Answers.GroupCounts | src/pages/Results.tsx:72-88 | the filter keeps each matching answer as many times as the list holds it and no other answer, so it neither deduplicates nor invents entries |
| Answers.GroupAppend | src/pages/Results.tsx:72-88 | filtering a concatenation is the concatenation of the filtered parts, so the filter keeps the answers in their original order |
| Answers.FindIndex | src/pages/Assessment.tsx:115 | returns the index of the first answer with the id, or None exactly when no answer has it |
| Answers.Find | src/pages/Assessment.tsx:110-112 | the found answer is the first answer in the list with the id (`Array.find`); None exactly when the id was never answered |
| Answers.Upsert | src/pages/Assessment.tsx:114-125 | an existing answer is replaced at its own index with the length unchanged; otherwise the answer is appended |
| Answers.UpsertThenFind | src/pages/Assessment.tsx:110-125 | after recording `v` for an id, looking that id up yields `v` |
| Answers.UpsertKeepsOthers | src/pages/Assessment.tsx:118-124 | the answers to every other id are unchanged and keep their relative order |
| Answers.UpsertFindOther | src/pages/Assessment.tsx:114-125 | looking up any other id gives the same result before and after |
| Answers.UpsertMembers | src/pages/Assessment.tsx:114-125 | afterwards the list holds the new answer and otherwise only answers it held before |
| Answers.UpsertKeepsDistinct | src/pages/Assessment.tsx:114-125 | pairwise-distinct ids stay distinct, and the answered ids grow by exactly the current id |
| Catalogue.CatalogueWellFormed | src/pages/Assessment.tsx:28-92 | the eight ids are pairwise distinct and every Likert question has five options |
| Catalogue.SectionQuestions | src/pages/Assessment.tsx:28-92 | only questions 2k and 2k+1 carry section k's id prefix |
| Catalogue.LikertValue | src/pages/Assessment.tsx:157-162 | picking option k records k+1, a value the Likert control accepts |
| Catalogue.LikertAnswerInRange | src/pages/Assessment.tsx:157-162 | every recorded Likert value lies in 1..5 |
| Catalogue.ValidValue | src/pages/Assessment.tsx:153-213 | what each control can record: a valid value is text exactly for a multiple choice and a number for a Likert scale or the slider |
| Catalogue.ValidLikertValues | src/pages/Assessment.tsx:157-162 | a value is valid for a Likert question exactly when picking one of its options records it |
| Scoring.Round | src/pages/Results.tsx:104-110 | `Math.round`: the result is within half a unit of its argument, and halves go up |
| Scoring.RoundIsNearest | src/pages/Results.tsx:104-110 | an integer is within half a point of a value, ties going up, exactly when it is `Math.round` of that value |
| Scoring.Cap | src/pages/Results.tsx:75 | `Math.min(100, x)`: at most 100, and the identity below 100 |
| Scoring.NumSum | src/pages/Results.tsx:73-79 | the `reduce` sum of a group whose numbers lie in lo..hi lies between lo and hi times the group size |
| Scoring.Mean | src/pages/Results.tsx:73 | the mean of a group's numbers lies within any bounds that hold for all of them |
| Scoring.CountCorrect | src/pages/Results.tsx:120-125 | at most one per answer; zero exactly when no answer matches its key |
| Scoring.IsCorrect | src/pages/Results.tsx:122 | strict `===` against the key: an answer is correct exactly when it is the MFA key text for `technical-1` or "SAML" for `technical-2` |
| Scoring.CorrectAnswer | src/pages/Results.tsx:115-118 | exactly the two technical ids are keyed, and every keyed id carries the technical prefix |
| Scoring.CalculateTechnicalScore | src/pages/Results.tsx:114-128 | the loop's count of correct answers over the key size, times 100; zero exactly when nothing is correct |
| Scoring.CorrectAtMostKeySize | src/pages/Results.tsx:115-127 | with one answer per question, at most the two keyed questions count as correct |
| Scoring.LearningShare | src/pages/Results.tsx:89-93 | a text answer adds 0; an in-range number contributes a share in [0, 1], and exactly 1 at its maximum |
| Scoring.LearningSum | src/pages/Results.tsx:89-93 | the `reduce` over learning answers: for in-range answers the sum lies in [0, group size] |
| Scoring.LearningMean | src/pages/Results.tsx:88-94 | when every numeric answer is in range, the mean share lies in [0, 1] |
| Scoring.WillRaw | src/pages/Results.tsx:73-74 | `willScore` is the raw interest mean and, for answers on the 1..5 scale, stays in 1..5 (not rescaled to 100) |
| Scoring.InterestRaw | src/pages/Results.tsx:72-75 | interest is at most 100 and, on the scale, exactly 20 times the raw will |
| Scoring.CognitiveRaw | src/pages/Results.tsx:78-85 | cognitive readiness is at most 100, and at least 20 for answers in 1..5 |
| Scoring.SkillRaw | src/pages/Results.tsx:81-84 | skill lies in [0, 100], and is 0 exactly when no technical answer is correct |
| Scoring.LearningRaw | src/pages/Results.tsx:88-95 | ability to learn is at most 100, and not negative for in-range answers |
| Scoring.AlignmentRaw | src/pages/Results.tsx:98 | the unrounded alignment is at most 100, and at least 40/3 for on-scale answers |
| Scoring.OverallRaw | src/pages/Results.tsx:101 | the unrounded overall lies in [163/18, 505/6] for on-scale answers, because the raw `will` is at most 5 |
| Scoring.Calculate | src/pages/Results.tsx:70-112 | the capped fields stay at most 100; skill is in [0, 100] and 0 exactly when nothing is correct |
| ScoringProperties.ScoresInRange | src/pages/Results.tsx:70-112 | for on-scale answers: will in 1..5; every other field in [0, 100]; overall in [9, 84] |
| ScoringProperties.WillTracksInterest | src/pages/Results.tsx:73-75 | will is the rounded raw mean; interest stays within 10 of twenty times will |
| ScoringProperties.SkillSteps | src/pages/Results.tsx:81-84 | with one answer per question, skill is 50 per correct answer, so the cap never applies |
| ScoringProperties.KeyAnswersOffered | src/pages/Results.tsx:115-118 | exactly the multiple-choice questions are keyed, and each offers its key among its options |
| ScoringProperties.LearningSumAppend | src/pages/Results.tsx:89-94 | the learning sum of a concatenation is the sum of the parts, so the order of the answers does not matter |
| ScoringProperties.TextLearningAnswerAddsNothing | src/pages/Results.tsx:89-94 | a text learning answer at any position leaves the sum unchanged |
| ScoringProperties.TextLearningAnswerDilutes | src/pages/Results.tsx:88-94 | a text learning answer at any position still adds one to the denominator of the mean |
| ScoringProperties.AlignmentNearRoundedMean | src/pages/Results.tsx:98-109 | real-world alignment is within one point of the mean of the three rounded fields |
| ScoringProperties.AlignmentOfWholeParts | src/pages/Results.tsx:98-109 | when the three unrounded parts are whole numbers, the alignment is exactly the rounded mean of the three rounded fields |
| ScoringProperties.AlignmentIsRoundedMean | src/pages/Results.tsx:75-109 | for every catalogue-ordered list with Likert answers in 1..5, whatever the technical and learning answers, the alignment equals the rounded mean of interest, skill and cognitive readiness |
| ScoringProperties.OverallNearRoundedMean | src/pages/Results.tsx:98-111 | the overall score is within one point of the mean of the six rounded fields it is reported with |
| ScoringProperties.MaximalAnswers | src/pages/Results.tsx:101-111 | all-maximal answers give every field 100 except will = 5, and overall = 84 |
| ScoringProperties.OverallFromUnroundedParts | src/pages/Results.tsx:98-111 | one concrete input where overall is 14 but the rounded mean of the rounded fields is 15 |
| Advice.Recommend | src/pages/Results.tsx:130-168 | proceed iff overall >= 75; maybe iff 50 <= overall < 75; not-ready iff overall < 50; confidence is overall |
| Advice.ColorOf | src/pages/Results.tsx:170-174 | success, warning or destructive, with the same inclusive 75/50 bands |
| Advice.BadgeOf | src/pages/Results.tsx:176-180 | default, secondary or destructive, with the same inclusive 75/50 bands |
| Advice.RecommendMonotone | src/pages/Results.tsx:130-168 | a higher overall never gives a worse category |
| Advice.ColorAndBadgeFollowRecommendation | src/pages/Results.tsx:130-180 | the colour and badge of the overall score are the recommendation's band |
| Advice.MaximalAnswersProceed | src/pages/Results.tsx:130-143 | all-maximal answers are recommended to proceed with confidence 84 |
| Advice.CareerPaths | src/pages/Results.tsx:191-196 | four matches, read from overall, cognitive readiness, skill and will, or all 0 without scores |
| Advice.CareerPathsInRange | src/pages/Results.tsx:191-196 | for on-scale answers every match is in [0, 100]; the IAM match equals the confidence; the will-based match is at most 5 |
| Stepper.CurrentAnswer | src/pages/Assessment.tsx:110-112 | the first recorded answer to the question on screen, or None exactly when it is unanswered |
| Stepper.HandleAnswer | src/pages/Assessment.tsx:114-125 | the question on screen now has answer `v`; other answers are untouched; the length grows only for a new answer |
| Stepper.HandleNext | src/pages/Assessment.tsx:127-142 | blocked and unchanged while unanswered; otherwise the index goes up by one, or on the last question it completes and hands the answers over unchanged |
| Stepper.HandlePrevious | src/pages/Assessment.tsx:144-148 | one step back above index 0; unchanged at 0; answers are kept |
| Stepper.Progress | src/pages/Assessment.tsx:101 | (index+1)/8 of 100; within (0, 100] on screen; exactly 100 on the last question only |
| Stepper.CurrentStep | src/pages/Assessment.tsx:227 | the step k with 2k <= index < 2k+2; in 0..3 on screen |
| Stepper.StepsCompleted | src/pages/Assessment.tsx:103-108 | four step flags; what each means is stated by `StepsMatchCurrentStep` and `StepsMonotone` |
| Stepper.StepsMatchCurrentStep | src/pages/Assessment.tsx:103-108 | the first three step flags are set iff the indicator has passed them; the last iff on the last question |
| Stepper.StepsMonotone | src/pages/Assessment.tsx:103-108 | a step flag never turns off as the index grows |
| Stepper.PreviousUndoesNext | src/pages/Assessment.tsx:127-148 | Previous after an advancing Next restores the state |
| Stepper.AnswerUnblocksNext | src/pages/Assessment.tsx:114-132 | after answering, Next is never blocked |
| Session.Run | src/pages/Assessment.tsx:127-148 | the index stays on a catalogue question through any sequence of actions |
| Session.ApplyKeepsInv | src/pages/Assessment.tsx:114-148 | each allowed action keeps ids distinct, values valid and every earlier question answered |
| Session.RunKeepsInv | src/pages/Assessment.tsx:114-148 | the invariant holds after any run of allowed actions |
| Session.HandoffScorable | src/pages/Assessment.tsx:134-141 | a completed handoff answers each of the eight questions exactly once, on its scale, meeting the scoring preconditions |
| Session.CompletedSessionInRange | src/pages/Assessment.tsx:127-142 | any completed session from the start scores with every field in range and overall in [9, 84] |

## Left out

- Rendering is not modelled: React, JSX, icons and styling, including all of
  `src/pages/Index.tsx` and `src/components/ProgressIndicator.tsx`. These are
  presentation only.
- The `localStorage` handoff and `JSON.stringify`/`JSON.parse` are browser I/O.
  The handoff is modelled as the `Completed` event carrying the answer list
  unchanged. The unguarded parse on the results page is not modelled.
- The toast and navigation calls are UI side effects. They appear only as the
  `Blocked` and `Completed` outcomes of `HandleNext`.
- The report download (Blob, object URL, DOM anchor, current date) is left out.
  It is a foreign, side-effecting call.
- Question prompts and the recommendation message and next-step texts are left
  out. They are display strings.
- IEEE-754 rounding is not modelled; arithmetic is exact over `real`. The
  inputs are small integers divided by small integers (the group lengths, 2, 3,
  5, 6, 20 and 100), so a float result can
  differ from the exact one only by rounding error. A value exactly on a `.5`
  boundary in `real` may land just below it in floating point.
- Scoring.Calculate: requires non-empty interest, personality and learning
  groups with numeric interest and personality values. Outside that, the source
  yields NaN, or string concatenation through the `as number` cast, and the model
  does not define a result.
- ScoringProperties.AlignmentIsRoundedMean: stated for lists in catalogue order
  (one answer per question, in question order). The page appends an answer only
  for the question on screen, so a completed handoff should be such a list. The
  session invariant does not carry that order, so the lemma is not connected to
  `Session.CompletedSessionInRange`.
- Stepper.StepsCompleted: its own contract states only that there are four
  flags. What each flag means is stated by `Stepper.StepsMatchCurrentStep`.
- Stepper.HandleNext: the page navigates away after completion. A further Next
  on the model simply completes again with the same answers.
- The slider shows 0 until it is moved, but records no answer. The model
  records nothing either, so Next stays blocked on an untouched slider.
- Session.Allowed limits choices to the values the control on screen can produce.
  The source's types do not enforce this; its controls do.
