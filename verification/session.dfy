/**
 * Whole sessions of the questionnaire: the invariant every reachable page state keeps,
 * and what it guarantees about the answers handed to the results page.
 */
module Session {
  import opened Answers
  import opened Catalogue
  import opened Scoring
  import opened ScoringProperties
  import opened Stepper

  /** What the user can do on the page: pick a value on the control shown, press Next, press Previous. */
  datatype Action = Choose(v: Value) | Next | Previous

  /** The page state after one action. */
  function Apply(s: State, act: Action): (r: State)
    requires s.index < |Questions|
    ensures r.index < |Questions|
  {
    match act
    case Choose(v) => HandleAnswer(s, v)
    case Next => HandleNext(s).state
    case Previous => HandlePrevious(s)
  }

  /** A choice is one the control on screen can produce; the buttons are always available. */
  predicate Allowed(s: State, act: Action)
    requires s.index < |Questions|
  {
    act.Choose? ==> ValidValue(Questions[s.index], act.v)
  }

  /** The page state after a sequence of actions. */
  function Run(s: State, acts: seq<Action>): (r: State)
    requires s.index < |Questions|
    ensures r.index < |Questions|
    decreases |acts|
  {
    if |acts| == 0 then s else Run(Apply(s, acts[0]), acts[1..])
  }

  /** Every action of the sequence is allowed in the state it is applied to. */
  predicate AllowedRun(s: State, acts: seq<Action>)
    requires s.index < |Questions|
    decreases |acts|
  {
    |acts| == 0 || (Allowed(s, acts[0]) && AllowedRun(Apply(s, acts[0]), acts[1..]))
  }

  /** Every answer is one its question's control can produce. */
  predicate AllValid(answers: seq<Answer>) {
    forall a :: a in answers ==> ValidAnswer(a)
  }

  /** The first `n` catalogue questions all have an answer. */
  predicate Answered(answers: seq<Answer>, n: nat)
    requires n <= |Questions|
  {
    forall j :: 0 <= j < n ==> Questions[j].id in Ids(answers)
  }

  lemma AnsweredStep(answers: seq<Answer>, n: nat)
    requires n < |Questions| && Answered(answers, n) && Questions[n].id in Ids(answers)
    ensures Answered(answers, n + 1)
  {
    forall j | 0 <= j < n + 1 ensures Questions[j].id in Ids(answers) {
      if j < n {
        assert Questions[j].id in Ids(answers);
      }
    }
  }

  /**
   * The page invariant: a question is on screen, no question has two answers, every
   * answer is one its control can produce, and every question before the one on
   * screen has been answered.
   */
  predicate Inv(s: State) {
    && s.index < |Questions|
    && Distinct(s.answers)
    && AllValid(s.answers)
    && Answered(s.answers, s.index)
  }

  lemma StartInv()
    ensures Inv(Start)
  {
  }

  /** Every allowed action keeps the invariant. */
  lemma ApplyKeepsInv(s: State, act: Action)
    requires Inv(s) && Allowed(s, act)
    ensures Inv(Apply(s, act))
  {
    match act
    case Choose(v) => ChooseKeepsInv(s, v);
    case Next => NextKeepsInv(s);
    case Previous =>
  }

  lemma ChooseKeepsInv(s: State, v: Value)
    requires Inv(s) && ValidValue(Questions[s.index], v)
    ensures Inv(HandleAnswer(s, v))
  {
    var id := Questions[s.index].id;
    var r := Upsert(s.answers, id, v);
    UpsertKeepsDistinct(s.answers, id, v);
    UpsertMembers(s.answers, id, v);
    LookupAt(s.index);
    assert ValidAnswer(Answer(id, v));
    assert AllValid(r);
    assert Answered(r, s.index);
  }

  lemma NextKeepsInv(s: State)
    requires Inv(s)
    ensures Inv(HandleNext(s).state)
  {
    var t := HandleNext(s);
    match t.event
    case Blocked =>
      assert t.state == s;
    case Advanced =>
      var id := Questions[s.index].id;
      assert CurrentAnswer(s).Some?;
      assert id in Ids(s.answers);
      AnsweredStep(s.answers, s.index);
      assert t.state == s.(index := s.index + 1);
    case Completed(_) =>
      assert t.state == s.(complete := true);
  }

  /** Every run of allowed actions from an invariant state ends in one. */
  lemma {:induction false} RunKeepsInv(s: State, acts: seq<Action>)
    requires Inv(s) && AllowedRun(s, acts)
    ensures Inv(Run(s, acts))
    decreases |acts|
  {
    if |acts| > 0 {
      ApplyKeepsInv(s, acts[0]);
      RunKeepsInv(Apply(s, acts[0]), acts[1..]);
    }
  }

  /** A value given to a question of section `k` lies on that section's scale. */
  lemma SectionValue(a: Answer, k: nat)
    requires ValidAnswer(a) && k < |Sections| && HasPrefix(a.questionId, Sections[k])
    ensures k < 2 ==> a.value.Num? && 1 <= a.value.n <= 5
    ensures k == 3 && a.value.Num? ==> 0 <= a.value.n <= LearningMax(a.questionId)
  {
    var q := Lookup(a.questionId).value;
    SectionQuestions(q, k);
    CatalogueWellFormed();
    if k == 3 && q == Questions[7] {
      assert HoursQuestion[|LearningPrefix|] != q.id[|LearningPrefix|];
    }
  }

  /** The group of section `k` holds an answer when question 2k has one. */
  lemma GroupNonEmpty(h: seq<Answer>, k: nat)
    requires k < |Sections| && Questions[2 * k].id in Ids(h)
    ensures |Group(h, Sections[k])| > 0
  {
    IdLayout();
    var a := Find(h, Questions[2 * k].id).value;
    PrefixOfJoin(Sections[k], Ordinal(2 * k));
    GroupMembers(h, Sections[k]);
    assert a in Group(h, Sections[k]);
  }

  /**
   * When "Next" completes the questionnaire from an invariant state, the handoff answers
   * every catalogue question exactly once, on its scale, so the scoring engine's
   * preconditions hold.
   */
  lemma HandoffScorable(s: State)
    requires Inv(s) && HandleNext(s).event.Completed?
    ensures var h := HandleNext(s).event.handoff;
      && Ids(h) == CatalogueIds()
      && |h| == |Questions|
      && Scorable(h) && OnScale(h)
  {
    var h := s.answers;
    assert s.index == LastIndex;
    AnsweredStep(h, s.index);
    HandoffIds(h);
    DistinctLength(h);
    IdCount();
    ValidIsScorable(h);
  }

  /** A valid list that answers every catalogue question answers exactly the catalogue. */
  lemma HandoffIds(h: seq<Answer>)
    requires AllValid(h) && Answered(h, |Questions|)
    ensures Ids(h) == CatalogueIds()
  {
    forall x | x in Ids(h) ensures x in CatalogueIds() {
      var a :| a in h && a.questionId == x;
      assert ValidAnswer(a);
    }
    forall x | x in CatalogueIds() ensures x in Ids(h) {
      var q :| q in Questions && q.id == x;
      var j :| 0 <= j < |Questions| && Questions[j] == q;
    }
  }

  /** Valid answers that include the first question of the interest, personality and learning sections can be scored. */
  lemma ValidIsScorable(h: seq<Answer>)
    requires AllValid(h) && Answered(h, |Questions|)
    ensures Scorable(h) && OnScale(h)
  {
    GroupNonEmpty(h, 0);
    GroupNonEmpty(h, 1);
    GroupNonEmpty(h, 3);
    forall k | 0 <= k < |Sections|
      ensures forall a :: a in Group(h, Sections[k]) ==> a in h && HasPrefix(a.questionId, Sections[k])
    {
      GroupMembers(h, Sections[k]);
    }
    forall k, a | 0 <= k < |Sections| && a in Group(h, Sections[k])
      ensures k < 2 ==> a.value.Num? && 1 <= a.value.n <= 5
      ensures k == 3 && a.value.Num? ==> 0 <= a.value.n <= LearningMax(a.questionId)
    {
      SectionValue(a, k);
    }
    assert NumsIn(Group(h, Sections[0]), 1, 5) && NumsIn(Group(h, Sections[1]), 1, 5);
    assert LearningInRange(Group(h, Sections[3]));
  }

  /**
   * End to end: whatever allowed actions the user takes, if "Next" then completes the
   * questionnaire, the results page can score the handoff and every field is in range.
   */
  lemma CompletedSessionInRange(acts: seq<Action>)
    requires AllowedRun(Start, acts) && HandleNext(Run(Start, acts)).event.Completed?
    ensures var h := HandleNext(Run(Start, acts)).event.handoff;
      && |h| == |Questions|
      && Scorable(h)
      && var r := Calculate(h);
         && 1 <= r.will <= 5
         && 0 <= r.skill <= 100
         && 20 <= r.interest <= 100 && 20 <= r.cognitiveReadiness <= 100
         && 0 <= r.abilityToLearn <= 100 && 13 <= r.realWorldAlignment <= 100
         && 9 <= r.overall <= 84
  {
    StartInv();
    RunKeepsInv(Start, acts);
    var s := Run(Start, acts);
    HandoffScorable(s);
    ScoresInRange(HandleNext(s).event.handoff);
  }
}
