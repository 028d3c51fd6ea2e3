/**
 * The fixed catalogue of eight questions and what counts as a well-formed answer
 * to each: a Likert choice is recorded as its 1-based option number, a multiple
 * choice as the option text, a slider as a number inside its range.
 */
module Catalogue {
  import opened Wrappers
  import opened Answers

  datatype Kind =
    | Likert(options: seq<string>)
    | MultipleChoice(options: seq<string>)
    | Slider(min: int, max: int, step: int)

  /** The prompt text is display-only and left out. */
  datatype Question = Question(id: string, section: string, kind: Kind)

  /** The section prefixes, in catalogue order. */
  const Sections: seq<string> := [InterestPrefix, PersonalityPrefix, TechnicalPrefix, LearningPrefix]

  /** The number of a question within its two-question section. */
  function Ordinal(i: nat): string {
    if i % 2 == 0 then "1" else "2"
  }

  const AgreeScale: seq<string> :=
    ["Strongly disagree", "Disagree", "Neutral", "Agree", "Strongly agree"]

  const Questions: seq<Question> := [
    Question(InterestPrefix + "1", "Interest & Motivation", Likert(
      ["Not at all interested", "Slightly interested", "Moderately interested", "Very interested", "Extremely interested"])),
    Question(InterestPrefix + "2", "Interest & Motivation", Likert(
      ["Not excited", "Slightly excited", "Moderately excited", "Very excited", "Extremely excited"])),
    Question(PersonalityPrefix + "1", "Personality & Fit", Likert(AgreeScale)),
    Question(PersonalityPrefix + "2", "Personality & Fit", Likert(AgreeScale)),
    Question(TechnicalPrefix + "1", "Technical Knowledge", MultipleChoice(
      ["To make passwords more complex", "To add an extra layer of security beyond passwords",
       "To encrypt user data", "To monitor user activity"])),
    Question(TechnicalPrefix + "2", "Technical Knowledge", MultipleChoice(["HTTP", "SAML", "FTP", "SMTP"])),
    Question(LearningPrefix + "1", "Learning & Growth", Slider(0, 20, 1)),
    Question(LearningPrefix + "2", "Learning & Growth", Likert(AgreeScale))
  ]

  /** The catalogue entry with the given id, if any. */
  function Lookup(id: string): (r: Option<Question>)
    ensures r.Some? ==> r.value in Questions && r.value.id == id
    ensures r.None? <==> forall q :: q in Questions ==> q.id != id
  {
    LookupIn(Questions, id)
  }

  function LookupIn(qs: seq<Question>, id: string): (r: Option<Question>)
    ensures r.Some? ==> r.value in qs && r.value.id == id
    ensures r.None? <==> forall q :: q in qs ==> q.id != id
  {
    if |qs| == 0 then None
    else if qs[0].id == id then Some(qs[0])
    else LookupIn(qs[1..], id)
  }

  /** The value the UI records when option `k` (0-based) of a Likert question is picked. */
  function LikertValue(q: Question, k: nat): (v: Value)
    requires q.kind.Likert? && k < |q.kind.options|
    ensures ValidValue(q, v)
  {
    Num(k + 1)
  }

  /**
   * `v` is a value the question's control can produce: a number from a Likert scale or
   * a slider, the text of an option from a multiple choice.
   */
  predicate ValidValue(q: Question, v: Value): (b: bool)
    ensures b ==> (v.Str? <==> q.kind.MultipleChoice?)
  {
    match q.kind
    case Likert(options) => v.Num? && 1 <= v.n <= |options|
    case MultipleChoice(options) => v.Str? && v.s in options
    case Slider(lo, hi, step) => v.Num? && lo <= v.n <= hi && step > 0 && (v.n - lo) % step == 0
  }

  /** The valid values of a Likert question are exactly the values its options record. */
  lemma ValidLikertValues(q: Question, v: Value)
    requires q.kind.Likert?
    ensures ValidValue(q, v) <==> exists k :: 0 <= k < |q.kind.options| && LikertValue(q, k) == v
  {
    if ValidValue(q, v) {
      assert LikertValue(q, v.n - 1) == v;
    }
  }

  /** `a` answers a catalogue question with a value its control can produce. */
  predicate ValidAnswer(a: Answer) {
    match Lookup(a.questionId)
    case Some(q) => ValidValue(q, a.value)
    case None => false
  }

  function CatalogueIds(): set<string> {
    set q | q in Questions :: q.id
  }

  /** Catalogue well-formedness: ids are pairwise distinct, every Likert scale has five options. */
  lemma CatalogueWellFormed()
    ensures forall i, j :: 0 <= i < j < |Questions| ==> Questions[i].id != Questions[j].id
    ensures forall q :: q in Questions && q.kind.Likert? ==> |q.kind.options| == 5
    ensures |CatalogueIds()| == |Questions| == 8
  {
    IdsDistinct();
    IdCount();
  }

  lemma IdCount()
    ensures |CatalogueIds()| == 8
  {
    IdsDistinct();
    DistinctIdsCount(Questions);
  }

  lemma {:induction false} DistinctIdsCount(qs: seq<Question>)
    requires forall i, j :: 0 <= i < j < |qs| ==> qs[i].id != qs[j].id
    ensures |set q | q in qs :: q.id| == |qs|
  {
    if |qs| > 0 {
      var rest := qs[1..];
      DistinctIdsCount(rest);
      IdsOfCons(qs);
      HeadIdNotInRest(qs);
    }
  }

  lemma IdsOfCons(qs: seq<Question>)
    requires |qs| > 0
    ensures (set q | q in qs :: q.id) == {qs[0].id} + (set q | q in qs[1..] :: q.id)
  {
    assert qs == [qs[0]] + qs[1..];
  }

  lemma HeadIdNotInRest(qs: seq<Question>)
    requires |qs| > 0 && forall i, j :: 0 <= i < j < |qs| ==> qs[i].id != qs[j].id
    ensures qs[0].id !in (set q | q in qs[1..] :: q.id)
  {
    forall q | q in qs[1..]
      ensures q.id != qs[0].id
    {
      var k :| 0 <= k < |qs| - 1 && qs[1..][k] == q;
      assert qs[k + 1] == q;
    }
  }

  lemma IdsDistinct()
    ensures forall i, j :: 0 <= i < j < |Questions| ==> Questions[i].id != Questions[j].id
  {
    IdLayout();
    forall i, j | 0 <= i < j < |Questions|
      ensures Questions[i].id != Questions[j].id
    {
      var p, q := Sections[i / 2], Sections[j / 2];
      if i / 2 == j / 2 {
        assert (p + Ordinal(i))[|p|] != (q + Ordinal(j))[|p|];
      } else {
        assert (p + Ordinal(i))[0] != (q + Ordinal(j))[0];
      }
    }
  }

  /** Question `i` has as id the prefix of section `i / 2` followed by its number within the section. */
  lemma IdLayout()
    ensures |Questions| == 8
    ensures forall i :: 0 <= i < 8 ==> Questions[i].id == Sections[i / 2] + Ordinal(i)
  {
  }

  /** Looking up a catalogue question's id finds that very question. */
  lemma LookupAt(i: nat)
    requires i < |Questions|
    ensures Lookup(Questions[i].id) == Some(Questions[i])
  {
    IdsDistinct();
  }

  /** The only catalogue questions whose id carries section `k`'s prefix are questions 2k and 2k+1. */
  lemma SectionQuestions(q: Question, k: nat)
    requires k < |Sections| && q in Questions && HasPrefix(q.id, Sections[k])
    ensures q == Questions[2 * k] || q == Questions[2 * k + 1]
  {
    var i :| 0 <= i < |Questions| && Questions[i] == q;
    SectionOfIndex(i, k);
  }

  lemma SectionOfIndex(i: nat, k: nat)
    requires k < |Sections| && i < |Questions| && HasPrefix(Questions[i].id, Sections[k])
    ensures i / 2 == k
  {
    IdLayout();
    var p, id := Sections[i / 2], Questions[i].id;
    assert id[0] == p[0] by {
      assert id == p + Ordinal(i);
    }
    assert Sections[k][0] == p[0] by {
      assert id[..|Sections[k]|][0] == id[0];
    }
  }

  /** A Likert answer, option number plus one, always lies in 1..5. */
  lemma LikertAnswerInRange(q: Question, k: nat)
    requires q in Questions && q.kind.Likert? && k < |q.kind.options|
    ensures 1 <= LikertValue(q, k).n <= 5
  {
    CatalogueWellFormed();
  }
}
