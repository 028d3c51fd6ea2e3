/**
 * The questionnaire page as a state machine: the index of the question on screen,
 * the answers recorded so far and the completion flag, with the three handlers that
 * change them and the progress figures derived from the index.
 */
module Stepper {
  import opened Wrappers
  import opened Answers
  import opened Catalogue

  datatype State = State(index: nat, answers: seq<Answer>, complete: bool)

  /** The page opens on the first question with nothing answered. */
  const Start := State(0, [], false)

  /** The index of the last question. */
  const LastIndex := |Questions| - 1

  /**
   * What a press of "Next" does besides changing the state: nothing (the error toast),
   * show the next question, or hand the answers over to the results page.
   */
  datatype Event = Blocked | Advanced | Completed(handoff: seq<Answer>)

  datatype Transition = Transition(state: State, event: Event)

  /** `getCurrentAnswer`: the recorded answer to the question on screen, if there is one. */
  function CurrentAnswer(s: State): (r: Option<Answer>)
    ensures r.Some? ==> s.index < |Questions| && r.value in s.answers && r.value.questionId == Questions[s.index].id
    ensures r.Some? ==> exists k :: 0 <= k < |s.answers| && s.answers[k] == r.value
                                   && forall j :: 0 <= j < k ==> s.answers[j].questionId != r.value.questionId
    ensures r.None? <==> s.index >= |Questions| || Questions[s.index].id !in Ids(s.answers)
  {
    if s.index < |Questions| then Find(s.answers, Questions[s.index].id) else None
  }

  /** `handleAnswer`: records `v` for the question on screen. */
  function HandleAnswer(s: State, v: Value): (r: State)
    requires s.index < |Questions|
    ensures r.index == s.index && r.complete == s.complete
    ensures CurrentAnswer(r) == Some(Answer(Questions[s.index].id, v))
    ensures Without(r.answers, Questions[s.index].id) == Without(s.answers, Questions[s.index].id)
    ensures |r.answers| == |s.answers| + (if CurrentAnswer(s).Some? then 0 else 1)
  {
    var id := Questions[s.index].id;
    UpsertThenFind(s.answers, id, v);
    UpsertKeepsOthers(s.answers, id, v);
    s.(answers := Upsert(s.answers, id, v))
  }

  /**
   * `handleNext`: blocked while the question on screen is unanswered; otherwise moves to
   * the next question, or on the last one sets the completion flag and hands the answers on.
   */
  function HandleNext(s: State): (t: Transition)
    ensures t.event == Blocked <==> CurrentAnswer(s).None?
    ensures t.event == Blocked ==> t.state == s
    ensures t.event == Advanced <==> CurrentAnswer(s).Some? && s.index < LastIndex
    ensures t.event == Advanced ==> t.state == s.(index := s.index + 1)
    ensures t.event.Completed? <==> CurrentAnswer(s).Some? && s.index >= LastIndex
    ensures t.event.Completed? ==> t.state == s.(complete := true) && t.event.handoff == s.answers
  {
    if CurrentAnswer(s).None? then Transition(s, Blocked)
    else if s.index < LastIndex then Transition(s.(index := s.index + 1), Advanced)
    else Transition(s.(complete := true), Completed(s.answers))
  }

  /** `handlePrevious`: one question back, never before the first; answers are kept. */
  function HandlePrevious(s: State): (r: State)
    ensures r.answers == s.answers && r.complete == s.complete
    ensures s.index > 0 ==> r.index + 1 == s.index
    ensures s.index == 0 ==> r == s
  {
    if s.index > 0 then s.(index := s.index - 1) else s
  }

  /** `progress`: the share of the questionnaire reached, counting the question on screen. */
  function Progress(index: nat): (p: real)
    ensures p * |Questions| as real == (index + 1) as real * 100.0
    ensures index < |Questions| ==> 0.0 < p <= 100.0
    ensures index < |Questions| ==> (p == 100.0 <==> index == LastIndex)
  {
    (index + 1) as real / |Questions| as real * 100.0
  }

  /** The highlighted step of the progress indicator, `Math.floor(index / 2)`. */
  function CurrentStep(index: nat): (k: nat)
    ensures 2 * k <= index < 2 * k + 2
    ensures index < |Questions| ==> k < 4
  {
    index / 2
  }

  /** The `completed` flags of the four steps. */
  function StepsCompleted(index: nat): (r: seq<bool>)
    ensures |r| == 4
  {
    [index > 1, index > 3, index > 5, index >= 7]
  }

  /**
   * While a question is on screen, the first three steps are completed exactly when
   * the indicator has moved past them, and the last one exactly on the last question.
   */
  lemma StepsMatchCurrentStep(index: nat)
    requires index < |Questions|
    ensures forall k :: 0 <= k < 3 ==> (StepsCompleted(index)[k] <==> k < CurrentStep(index))
    ensures StepsCompleted(index)[3] <==> index == LastIndex
  {
  }

  /** A step's flag never turns back off as the index grows. */
  lemma StepsMonotone(i: nat, j: nat)
    requires i <= j
    ensures forall k :: 0 <= k < 4 ==> StepsCompleted(i)[k] ==> StepsCompleted(j)[k]
  {
  }

  /** "Previous" after an unblocked "Next" that advanced returns to the same state. */
  lemma PreviousUndoesNext(s: State)
    requires HandleNext(s).event == Advanced
    ensures HandlePrevious(HandleNext(s).state) == s
  {
  }

  /** Answering and then moving on never blocks. */
  lemma AnswerUnblocksNext(s: State, v: Value)
    requires s.index < |Questions|
    ensures HandleNext(HandleAnswer(s, v)).event != Blocked
  {
  }
}
