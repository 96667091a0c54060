/** The questionnaire: the answer dictionary, how an entry counts as
    answered, multi-select toggling, and the question cursor with its Next,
    Back and Reset buttons. */
module Quiz {
  import opened Types
  import opened Catalog
  import opened Collections

  // ---------------------------------------------------------------------------
  // Initial answers

  /** The entry a question starts with: `[]` for multiple choice, `null`
      otherwise. */
  function InitialEntry(q: Question): (e: Entry)
    ensures q.kind == SingleChoice ==> e == Unset
    ensures q.kind == MultipleChoice ==> e == Multi([])
  {
    if q.kind == MultipleChoice then Multi([]) else Unset
  }

  /** The ids of a list of questions. */
  function QuestionIdSet(qs: seq<Question>): set<string>
  {
    set q | q in qs :: q.id
  }

  /** Question `i` is the last one with its id. */
  predicate LastWithId(qs: seq<Question>, i: int)
    requires 0 <= i < |qs|
  {
    forall j :: i < j < |qs| ==> qs[j].id != qs[i].id
  }

  /** `QUESTIONS.forEach(q => { answers[q.id] = q.type === 'multiple' ? [] : null })`:
      one key per question id, holding the initial entry of the last
      question with that id. */
  method InitialAnswers(qs: seq<Question>) returns (a: Answers)
    ensures a.Keys == QuestionIdSet(qs)
    ensures forall i :: 0 <= i < |qs| && LastWithId(qs, i) ==> a[qs[i].id] == InitialEntry(qs[i])
  {
    a := map[];
    var i := 0;
    while i < |qs|
      invariant 0 <= i <= |qs|
      invariant a.Keys == QuestionIdSet(qs[..i])
      invariant forall j :: 0 <= j < i && (forall k :: j < k < i ==> qs[k].id != qs[j].id) ==>
        a[qs[j].id] == InitialEntry(qs[j])
    {
      assert qs[..i + 1] == qs[..i] + [qs[i]];
      a := a[qs[i].id := InitialEntry(qs[i])];
      i := i + 1;
    }
    assert qs[..i] == qs;
  }

  // ---------------------------------------------------------------------------
  // Answered entries

  /** An entry counts as answered when it is not `null` and, if it is a list,
      not empty. */
  predicate Answered(e: Entry)
  {
    e != Unset && (e.Multi? ==> |e.values| > 0)
  }

  /** The keys whose entry counts as answered. */
  function AnsweredKeys(answers: Answers): (ks: set<string>)
    ensures ks <= answers.Keys
    ensures forall k :: k in ks <==> k in answers && Answered(answers[k])
  {
    set k | k in answers && Answered(answers[k])
  }

  /** `Object.values(answers).filter(...).length`: the keys are distinct, so
      this is the number of answered keys. Every key counts, whether or not
      it is the id of a question. */
  function AnsweredCount(answers: Answers): (n: nat)
    ensures n <= |answers|
  {
    SubsetSize(AnsweredKeys(answers), answers.Keys);
    |AnsweredKeys(answers)|
  }

  /** Whether the current question counts as answered: a key that is missing
      reads as `undefined`, which is not `null`, so it counts. */
  predicate CurrentAnswered(answers: Answers, qid: string)
  {
    qid !in answers || Answered(answers[qid])
  }

  /** A fresh dictionary has nothing answered. */
  lemma InitialAnswersCountZero(qs: seq<Question>, a: Answers)
    requires a.Keys == QuestionIdSet(qs)
    requires forall i :: 0 <= i < |qs| && LastWithId(qs, i) ==> a[qs[i].id] == InitialEntry(qs[i])
    ensures AnsweredCount(a) == 0
  {
    forall k | k in a ensures !Answered(a[k]) {
      var i :| 0 <= i < |qs| && qs[i].id == k;
      var last := LastIndexOf(qs, i);
    }
    assert AnsweredKeys(a) == {};
  }

  /** The last question with the same id as question `i`. */
  lemma {:induction false} LastIndexOf(qs: seq<Question>, i: int) returns (j: int)
    requires 0 <= i < |qs|
    ensures i <= j < |qs| && qs[j].id == qs[i].id && LastWithId(qs, j)
    decreases |qs| - i
  {
    if exists k :: i < k < |qs| && qs[k].id == qs[i].id {
      var k :| i < k < |qs| && qs[k].id == qs[i].id;
      j := LastIndexOf(qs, k);
    } else {
      j := i;
    }
  }

  /** With one key per question, all questions are answered exactly when
      the answered count reaches the number of questions. */
  lemma AllAnsweredIff(qs: seq<Question>, answers: Answers)
    requires forall i, j :: 0 <= i < j < |qs| ==> qs[i].id != qs[j].id
    requires answers.Keys == QuestionIdSet(qs)
    ensures AnsweredCount(answers) == |qs| <==> forall i :: 0 <= i < |qs| ==> Answered(answers[qs[i].id])
  {
    DistinctIdsCount(qs);
    var ks := AnsweredKeys(answers);
    if AnsweredCount(answers) == |qs| {
      EqualSizeSubset(ks, answers.Keys);
      forall i | 0 <= i < |qs| ensures Answered(answers[qs[i].id]) {
        assert qs[i].id in answers.Keys;
      }
    }
    if forall i :: 0 <= i < |qs| ==> Answered(answers[qs[i].id]) {
      forall k | k in answers.Keys ensures k in ks {
        var i :| 0 <= i < |qs| && qs[i].id == k;
      }
      assert ks == answers.Keys;
    }
  }

  /** Distinct ids: as many ids as questions. */
  lemma {:induction false} DistinctIdsCount(qs: seq<Question>)
    requires forall i, j :: 0 <= i < j < |qs| ==> qs[i].id != qs[j].id
    ensures |QuestionIdSet(qs)| == |qs|
  {
    if qs != [] {
      var init := qs[..|qs| - 1];
      DistinctIdsCount(init);
      assert QuestionIdSet(qs) == QuestionIdSet(init) + {qs[|qs| - 1].id};
      assert qs[|qs| - 1].id !in QuestionIdSet(init);
    }
  }

  // ---------------------------------------------------------------------------
  // Multi-select toggling

  /** `list.filter(a => a !== v)`. */
  function Without(list: seq<string>, v: string): (r: seq<string>)
    ensures v !in r
    ensures forall x :: x != v ==> (x in r <==> x in list)
    ensures v !in list ==> r == list
    ensures Subsequence(r, list)
    ensures multiset(r) == multiset(list)[v := 0]
  {
    if list == [] then []
    else
      var rest := Without(list[1..], v);
      assert list == [list[0]] + list[1..];
      assert forall x :: x in list <==> x == list[0] || x in list[1..];
      if list[0] == v then
        SubsequenceSkip(rest, list);
        rest
      else
        assert ([list[0]] + rest)[1..] == rest;
        [list[0]] + rest
  }

  /** The click on an option of a multiple-choice question: a chosen value is
      removed (every copy), an unchosen one appended at the end. */
  function Toggle(list: seq<string>, v: string): (r: seq<string>)
    ensures v in r <==> v !in list
    ensures forall x :: x != v ==> (x in r <==> x in list)
    ensures v !in list ==> r == list + [v]
    ensures v in list ==> Subsequence(r, list) && multiset(r) == multiset(list)[v := 0]
  {
    if v in list then Without(list, v) else list + [v]
  }

  predicate NoDuplicates(list: seq<string>)
  {
    forall i, j :: 0 <= i < j < |list| ==> list[i] != list[j]
  }

  /** Toggling an unchosen value twice gives the list back. */
  lemma ToggleTwice(list: seq<string>, v: string)
    requires v !in list
    ensures Toggle(Toggle(list, v), v) == list
  {
    WithoutLast(list, v);
  }

  lemma {:induction false} WithoutLast(list: seq<string>, v: string)
    requires v !in list
    ensures Without(list + [v], v) == list
  {
    if list == [] {
      assert [v][1..] == [];
    } else {
      assert (list + [v])[1..] == list[1..] + [v];
      WithoutLast(list[1..], v);
    }
  }

  /** Filtering keeps a list free of duplicates. */
  lemma {:induction false} WithoutKeepsDistinct(list: seq<string>, v: string)
    requires NoDuplicates(list)
    ensures NoDuplicates(Without(list, v))
  {
    if list != [] {
      WithoutKeepsDistinct(list[1..], v);
      if list[0] != v {
        var rest := Without(list[1..], v);
        assert list[0] !in list[1..];
        assert list[0] !in rest;
        var r := [list[0]] + rest;
        forall i, j | 0 <= i < j < |r| ensures r[i] != r[j] {
          if i == 0 {
            assert r[j] in rest;
          } else {
            assert r[i] == rest[i - 1] && r[j] == rest[j - 1];
          }
        }
      }
    }
  }

  /** Toggling never introduces duplicates. */
  lemma ToggleKeepsDistinct(list: seq<string>, v: string)
    requires NoDuplicates(list)
    ensures NoDuplicates(Toggle(list, v))
  {
    if v in list {
      WithoutKeepsDistinct(list, v);
    }
  }

  /** The list the multi-select handler starts from: the stored list, or an
      empty one when the entry is not a list. */
  function CurrentList(answers: Answers, qid: string): (list: seq<string>)
    ensures qid in answers && answers[qid].Multi? ==> list == answers[qid].values
    ensures !(qid in answers && answers[qid].Multi?) ==> list == []
  {
    if qid in answers && answers[qid].Multi? then answers[qid].values else []
  }

  // ---------------------------------------------------------------------------
  // The questionnaire's state

  class Questionnaire {
    const questions: seq<Question>
    var index: int
    var answers: Answers

    /** The cursor points at a question. */
    ghost predicate Valid()
      reads this
    {
      0 <= index < |questions|
    }

    /** The id of the question on screen. */
    function CurrentId(): string
      reads this
      requires Valid()
    {
      questions[index].id
    }

    constructor(questions: seq<Question>, answers: Answers)
      requires |questions| > 0
      ensures Valid()
      ensures this.questions == questions && this.answers == answers && index == 0
    {
      this.questions := questions;
      this.answers := answers;
      index := 0;
    }

    /** `handleAnswer`: the entry of `qid` becomes `e`, nothing else moves. */
    method Answer(qid: string, e: Entry)
      modifies this
      ensures answers == old(answers)[qid := e]
      ensures index == old(index)
    {
      answers := answers[qid := e];
    }

    /** A click on an option of a single-choice question. */
    method SingleSelect(value: string)
      requires Valid()
      modifies this
      ensures Valid() && index == old(index)
      ensures answers == old(answers)[CurrentId() := Single(value)]
    {
      Answer(questions[index].id, Single(value));
    }

    /** A click on an option of a multiple-choice question. */
    method MultiSelect(value: string)
      requires Valid()
      modifies this
      ensures Valid() && index == old(index)
      ensures answers == old(answers)[CurrentId() := Multi(Toggle(CurrentList(old(answers), CurrentId()), value))]
    {
      var qid := questions[index].id;
      var list := CurrentList(answers, qid);
      Answer(qid, Multi(Toggle(list, value)));
    }

    /** `handleNext`: forward, but never past the last question. */
    method Next()
      requires Valid()
      modifies this
      ensures Valid() && answers == old(answers)
      ensures index == if old(index) < |questions| - 1 then old(index) + 1 else old(index)
    {
      if index < |questions| - 1 {
        index := index + 1;
      }
    }

    /** `handleBack`: back, but never before the first question. */
    method Back()
      requires Valid()
      modifies this
      ensures Valid() && answers == old(answers)
      ensures index == if old(index) > 0 then old(index) - 1 else old(index)
    {
      if index > 0 {
        index := index - 1;
      }
    }

    /** `handleReset`: fresh answers and the first question. */
    method Reset()
      requires Valid()
      modifies this
      ensures Valid() && index == 0
      ensures answers.Keys == QuestionIdSet(questions)
      ensures forall i :: 0 <= i < |questions| && LastWithId(questions, i) ==>
        answers[questions[i].id] == InitialEntry(questions[i])
      ensures AnsweredCount(answers) == 0
    {
      var a := InitialAnswers(questions);
      InitialAnswersCountZero(questions, a);
      answers := a;
      index := 0;
    }

    /** The Next button shows before the last question and is enabled once
      the current question counts as answered. */
    predicate NextEnabled()
      reads this
      requires Valid()
    {
      index < |questions| - 1 && CurrentAnswered(answers, CurrentId())
    }

    /** The finish button shows on the last question and is enabled once the
        answered count equals the number of questions. */
    predicate FinishEnabled()
      reads this
      requires Valid()
    {
      index >= |questions| - 1 && AnsweredCount(answers) == |questions|
    }
  }

  /** With one key per catalog question, finishing is possible exactly when
      every question counts as answered. */
  lemma CatalogFinishNeedsEveryAnswer(answers: Answers)
    requires answers.Keys == QuestionIdSet(QUESTIONS)
    ensures AnsweredCount(answers) == |QUESTIONS| <==>
      forall i :: 0 <= i < |QUESTIONS| ==> Answered(answers[QUESTIONS[i].id])
  {
    QuestionIdsAreUnique();
    AllAnsweredIff(QUESTIONS, answers);
  }

  /** With the catalog's questions and one key per question, the finish
      button is enabled exactly on the last question with every question
      answered. */
  lemma CatalogFinishEnabled(q: Questionnaire)
    requires q.Valid() && q.questions == QUESTIONS
    requires q.answers.Keys == QuestionIdSet(QUESTIONS)
    ensures q.FinishEnabled() <==>
      q.index == |QUESTIONS| - 1 && forall i :: 0 <= i < |QUESTIONS| ==> Answered(q.answers[QUESTIONS[i].id])
  {
    CatalogFinishNeedsEveryAnswer(q.answers);
  }

  /** The Next gate on the current question: an entry just written enables
      it exactly when it counts as answered (a single choice always does),
      and a key that is missing altogether enables it too, although it is
      not counted towards finishing. */
  lemma NextGate(answers: Answers, qid: string, e: Entry)
    ensures CurrentAnswered(answers[qid := e], qid) <==> Answered(e)
    ensures e.Single? ==> CurrentAnswered(answers[qid := e], qid)
    ensures qid !in answers ==> CurrentAnswered(answers, qid) && qid !in AnsweredKeys(answers)
  {
  }

  /** A multiple-choice click leaves the question unanswered exactly when
      it removes the last selected value: the list was not empty and held
      only that value. */
  lemma {:induction false} MultiSelectGate(answers: Answers, qid: string, v: string)
    ensures var list := CurrentList(answers, qid);
      !CurrentAnswered(answers[qid := Multi(Toggle(list, v))], qid) <==>
        list != [] && forall k :: 0 <= k < |list| ==> list[k] == v
  {
    var list := CurrentList(answers, qid);
    var r := Toggle(list, v);
    if list != [] && forall k :: 0 <= k < |list| ==> list[k] == v {
      assert list[0] == v;
      WithoutOnlyValue(list, v);
    } else if list != [] {
      var k :| 0 <= k < |list| && list[k] != v;
      assert list[k] in list;
      if v in list {
        assert list[k] in r;
      }
    }
  }

  /** Removing `v` from a list that holds nothing else leaves it empty. */
  lemma {:induction false} WithoutOnlyValue(list: seq<string>, v: string)
    requires forall k :: 0 <= k < |list| ==> list[k] == v
    ensures Without(list, v) == []
  {
    if list != [] {
      WithoutOnlyValue(list[1..], v);
    }
  }

  /** Selecting a value on a multiple-choice question and selecting it again
      leaves the list as it was. */
  lemma MultiSelectTwice(answers: Answers, qid: string, v: string)
    requires v !in CurrentList(answers, qid)
    ensures var once := answers[qid := Multi(Toggle(CurrentList(answers, qid), v))];
      once[qid := Multi(Toggle(CurrentList(once, qid), v))] == answers[qid := Multi(CurrentList(answers, qid))]
  {
    ToggleTwice(CurrentList(answers, qid), v);
  }
}
