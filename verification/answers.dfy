/**
 * The answer store of the questionnaire: an ordered list of (question id, value)
 * pairs, the prefix filter the scoring engine uses to split it into groups, the
 * first-match lookup, and the insert-or-replace operation that records an answer.
 */
module Answers {
  import opened Wrappers

  /** A recorded value: a number for Likert and slider questions, the option text for multiple choice. */
  datatype Value = Num(n: int) | Str(s: string)

  datatype Answer = Answer(questionId: string, value: Value)

  /** Question ids are a section prefix followed by a number; the scoring groups split on these prefixes. */
  const InterestPrefix := "interest-"
  const PersonalityPrefix := "personality-"
  const TechnicalPrefix := "technical-"
  const LearningPrefix := "learning-"

  /** `s.startsWith(prefix)` */
  predicate HasPrefix(s: string, prefix: string) {
    |prefix| <= |s| && s[..|prefix|] == prefix
  }

  /** A prefix followed by anything starts with that prefix. */
  lemma PrefixOfJoin(p: string, t: string)
    ensures HasPrefix(p + t, p)
  {
    assert (p + t)[..|p|] == p;
  }

  /** One differing character inside the prefix's length rules the prefix out. */
  lemma NotPrefixAt(s: string, p: string, k: nat)
    requires k < |p| && k < |s| && s[k] != p[k]
    ensures !HasPrefix(s, p)
  {
    if |p| <= |s| {
      assert s[..|p|][k] != p[k];
    }
  }

  /** The answers whose id starts with `prefix`, in list order (`answers.filter(...)`). */
  function Group(answers: seq<Answer>, prefix: string): (r: seq<Answer>)
    ensures |r| <= |answers|
  {
    if |answers| == 0 then []
    else
      var rest := Group(answers[1..], prefix);
      if HasPrefix(answers[0].questionId, prefix) then [answers[0]] + rest else rest
  }

  /** The group holds exactly the answers whose id carries the prefix. */
  lemma {:induction false} GroupMembers(answers: seq<Answer>, prefix: string)
    ensures forall a :: a in Group(answers, prefix) <==> a in answers && HasPrefix(a.questionId, prefix)
  {
    if |answers| > 0 {
      GroupMembers(answers[1..], prefix);
      assert forall a :: a in answers <==> a == answers[0] || a in answers[1..];
    }
  }

  /** Filtering keeps each carried answer as often as the list holds it, and drops every other. */
  lemma {:induction false} GroupCounts(answers: seq<Answer>, prefix: string)
    ensures forall a :: multiset(Group(answers, prefix))[a]
                        == if HasPrefix(a.questionId, prefix) then multiset(answers)[a] else 0
  {
    if |answers| > 0 {
      GroupCounts(answers[1..], prefix);
      assert answers == [answers[0]] + answers[1..];
      assert multiset(answers) == multiset([answers[0]]) + multiset(answers[1..]);
    }
  }

  lemma {:induction false} GroupAppend(a: seq<Answer>, b: seq<Answer>, prefix: string)
    ensures Group(a + b, prefix) == Group(a, prefix) + Group(b, prefix)
  {
    if |a| == 0 {
      assert a + b == b;
    } else {
      assert (a + b)[1..] == a[1..] + b;
      GroupAppend(a[1..], b, prefix);
    }
  }

  /** No question id occurs twice. */
  predicate Distinct(answers: seq<Answer>) {
    forall i, j :: 0 <= i < j < |answers| ==> answers[i].questionId != answers[j].questionId
  }

  /** Filtering keeps the ids pairwise distinct. */
  lemma {:induction false} GroupDistinct(answers: seq<Answer>, prefix: string)
    requires Distinct(answers)
    ensures Distinct(Group(answers, prefix))
  {
    if |answers| > 0 {
      var rest := answers[1..];
      assert Distinct(rest);
      GroupDistinct(rest, prefix);
      GroupMembers(rest, prefix);
      var g := Group(rest, prefix);
      forall j | 0 <= j < |g| ensures g[j].questionId != answers[0].questionId {
        assert g[j] in rest;
        var k :| 0 <= k < |rest| && rest[k] == g[j];
        assert answers[k + 1] == g[j];
      }
    }
  }

  /** The set of question ids that have an answer. */
  function Ids(answers: seq<Answer>): set<string> {
    set a | a in answers :: a.questionId
  }

  /** Index of the first answer for `id` (`answers.findIndex(...)`, with -1 as None). */
  function FindIndex(answers: seq<Answer>, id: string): (r: Option<nat>)
    ensures r.Some? ==> r.value < |answers| && answers[r.value].questionId == id
    ensures r.Some? ==> forall j :: 0 <= j < r.value ==> answers[j].questionId != id
    ensures r.None? <==> forall j :: 0 <= j < |answers| ==> answers[j].questionId != id
  {
    if |answers| == 0 then None
    else if answers[0].questionId == id then Some(0)
    else match FindIndex(answers[1..], id)
      case None => None
      case Some(i) => Some(i + 1)
  }

  /** The first answer for `id` (`answers.find(...)`). */
  function Find(answers: seq<Answer>, id: string): (r: Option<Answer>)
    ensures r.Some? ==> r.value in answers && r.value.questionId == id
    ensures r.Some? ==> exists k :: 0 <= k < |answers| && answers[k] == r.value
                                   && forall j :: 0 <= j < k ==> answers[j].questionId != id
    ensures r.None? <==> id !in Ids(answers)
  {
    match FindIndex(answers, id)
    case None => None
    case Some(i) => Some(answers[i])
  }

  /**
   * Records `v` as the answer to `id`: replaces the first existing answer for `id`
   * in place, or appends a new one when there is none.
   */
  function Upsert(answers: seq<Answer>, id: string, v: Value): (r: seq<Answer>)
    ensures id in Ids(answers) ==>
      && |r| == |answers|
      && r[FindIndex(answers, id).value] == Answer(id, v)
      && forall j :: 0 <= j < |r| && j != FindIndex(answers, id).value ==> r[j] == answers[j]
    ensures id !in Ids(answers) ==> r == answers + [Answer(id, v)]
  {
    match FindIndex(answers, id)
    case Some(i) => answers[i := Answer(id, v)]
    case None => answers + [Answer(id, v)]
  }

  /** The answers for every id other than `id`, in list order. */
  function Without(answers: seq<Answer>, id: string): (r: seq<Answer>)
    ensures forall a :: a in r <==> a in answers && a.questionId != id
  {
    if |answers| == 0 then []
    else
      var rest := Without(answers[1..], id);
      if answers[0].questionId == id then rest else [answers[0]] + rest
  }

  lemma {:induction false} WithoutAppend(a: seq<Answer>, b: seq<Answer>, id: string)
    ensures Without(a + b, id) == Without(a, id) + Without(b, id)
  {
    if |a| == 0 {
      assert a + b == b;
    } else {
      assert (a + b)[1..] == a[1..] + b;
      WithoutAppend(a[1..], b, id);
    }
  }

  lemma {:induction false} WithoutReplace(a: seq<Answer>, i: nat, x: Answer, id: string)
    requires i < |a| && a[i].questionId == id && x.questionId == id
    ensures Without(a[i := x], id) == Without(a, id)
  {
    if i > 0 {
      assert a[i := x][1..] == a[1..][i - 1 := x];
      WithoutReplace(a[1..], i - 1, x, id);
    } else {
      assert a[i := x][1..] == a[1..];
    }
  }

  /** After `Upsert`, the answer for `id` carries the new value. */
  lemma UpsertThenFind(answers: seq<Answer>, id: string, v: Value)
    ensures Find(Upsert(answers, id, v), id) == Some(Answer(id, v))
  {
    var r := Upsert(answers, id, v);
    match FindIndex(answers, id)
    case Some(i) =>
      assert r[i] == Answer(id, v);
      assert FindIndex(r, id) == Some(i);
    case None =>
      assert r[|answers|] == Answer(id, v);
      assert FindIndex(r, id) == Some(|answers|);
  }

  /** `Upsert` leaves the answers for every other id unchanged and in their relative order. */
  lemma UpsertKeepsOthers(answers: seq<Answer>, id: string, v: Value)
    ensures Without(Upsert(answers, id, v), id) == Without(answers, id)
  {
    match FindIndex(answers, id)
    case Some(i) =>
      WithoutReplace(answers, i, Answer(id, v), id);
    case None =>
      WithoutAppend(answers, [Answer(id, v)], id);
      assert Without([Answer(id, v)], id) == [];
  }

  /** Looking up any other id gives the same answer before and after `Upsert`. */
  lemma UpsertFindOther(answers: seq<Answer>, id: string, v: Value, other: string)
    requires other != id
    ensures Find(Upsert(answers, id, v), other) == Find(answers, other)
  {
    var r := Upsert(answers, id, v);
    assert forall j :: 0 <= j < |answers| ==> (r[j].questionId == other <==> answers[j].questionId == other);
    match FindIndex(answers, other)
    case None =>
      assert FindIndex(r, other).None?;
    case Some(k) =>
      assert r[k] == answers[k];
      assert FindIndex(r, other) == Some(k);
  }

  /** The list after `Upsert` holds the new answer and otherwise only answers it held before. */
  lemma UpsertMembers(answers: seq<Answer>, id: string, v: Value)
    ensures Answer(id, v) in Upsert(answers, id, v)
    ensures forall a :: a in Upsert(answers, id, v) ==> a in answers || a == Answer(id, v)
  {
    var r := Upsert(answers, id, v);
    match FindIndex(answers, id)
    case Some(i) =>
      assert r[i] == Answer(id, v);
      forall a | a in r ensures a in answers || a == Answer(id, v) {
        var j :| 0 <= j < |r| && r[j] == a;
        if j != i {
          assert answers[j] == a;
        }
      }
    case None =>
      assert r[|answers|] == Answer(id, v);
  }

  /** `Upsert` keeps the ids pairwise distinct and the id set grows by exactly `id`. */
  lemma UpsertKeepsDistinct(answers: seq<Answer>, id: string, v: Value)
    requires Distinct(answers)
    ensures Distinct(Upsert(answers, id, v))
    ensures Ids(Upsert(answers, id, v)) == Ids(answers) + {id}
  {
    var r := Upsert(answers, id, v);
    match FindIndex(answers, id)
    case Some(i) =>
      assert forall j :: 0 <= j < |r| ==> r[j].questionId == answers[j].questionId;
      assert forall a :: a in r ==> exists j :: 0 <= j < |r| && r[j] == a;
      assert forall a :: a in answers ==> exists j :: 0 <= j < |answers| && answers[j] == a;
      assert Ids(r) == Ids(answers) + {id} by {
        forall x | x in Ids(r) ensures x in Ids(answers) + {id} {
          var a :| a in r && a.questionId == x;
          var j :| 0 <= j < |r| && r[j] == a;
          assert answers[j] in answers;
        }
        forall x | x in Ids(answers) ensures x in Ids(r) {
          var a :| a in answers && a.questionId == x;
          var j :| 0 <= j < |answers| && answers[j] == a;
          assert r[j] in r;
        }
        assert r[i] in r;
      }
    case None =>
      assert r[|answers|] in r;
      assert forall a :: a in r <==> a in answers || a == Answer(id, v);
  }

  /** With distinct ids, the list is exactly as long as the set of answered ids. */
  lemma {:induction false} DistinctLength(answers: seq<Answer>)
    requires Distinct(answers)
    ensures |answers| == |Ids(answers)|
  {
    if |answers| > 0 {
      var rest := answers[1..];
      assert Distinct(rest);
      DistinctLength(rest);
      assert answers == [answers[0]] + rest;
      assert Ids(answers) == {answers[0].questionId} + Ids(rest);
      assert answers[0].questionId !in Ids(rest);
    }
  }
}
