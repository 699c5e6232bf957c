/** The multiple-choice practice quiz of the live page: a partial map from
    question id to the index of the chosen option, and a flag saying
    whether the answers have been checked. The page replaces its state
    with a new value on every event, so the state is a value here and the
    events are functions from state to state. */
module Quiz {

  /** A question, stripped of its text: its id, how many options it offers
      and the index of the right one. */
  datatype Question = Question(id: int, optionCount: nat, answer: nat)

  /** The built-in question bank: six questions of four options each, the
      second option (index 1) being the right one every time. */
  const Bank: seq<Question> := [
    Question(1, 4, 1), Question(2, 4, 1), Question(3, 4, 1),
    Question(4, 4, 1), Question(5, 4, 1), Question(6, 4, 1)
  ]

  /** Ids identify questions, and each right answer is one of the options. */
  predicate WellFormedBank(qs: seq<Question>)
  {
    && (forall i, j :: 0 <= i < j < |qs| ==> qs[i].id != qs[j].id)
    && (forall i :: 0 <= i < |qs| ==> qs[i].answer < qs[i].optionCount)
  }

  lemma BankIsWellFormed()
    ensures WellFormedBank(Bank)
  {
  }

  datatype Option<T> = None | Some(value: T)

  datatype QuizState = QuizState(answers: map<int, nat>, submitted: bool)

  /** Nothing chosen and nothing checked, as the page starts. */
  const Initial := QuizState(map[], false)

  /** Every recorded choice belongs to a question of the bank and is one of
      its options. */
  predicate Reachable(qs: seq<Question>, s: QuizState)
  {
    forall id :: id in s.answers ==>
      exists k :: 0 <= k < |qs| && qs[k].id == id && s.answers[id] < qs[k].optionCount
  }

  /** Choosing option i of question q, before or after checking. */
  function Select(s: QuizState, q: Question, i: nat): (t: QuizState)
    ensures q.id in t.answers && t.answers[q.id] == i
    ensures forall id :: id != q.id ==>
      (id in t.answers <==> id in s.answers) && (id in s.answers ==> t.answers[id] == s.answers[id])
    ensures t.submitted == s.submitted
  {
    s.(answers := s.answers[q.id := i])
  }

  /** "Check Answers": reveals the verdicts and the score; the choices stay. */
  function Check(s: QuizState): (t: QuizState)
    ensures t.answers == s.answers && t.submitted
  {
    s.(submitted := true)
  }

  /** "Reset": forgets every choice and hides the verdicts again. */
  function Reset(s: QuizState): (t: QuizState)
    ensures |t.answers| == 0 && !t.submitted
  {
    QuizState(map[], false)
  }

  /** Choosing one of a bank question's options keeps every choice an
      option of its question. */
  lemma SelectKeepsReachable(qs: seq<Question>, s: QuizState, k: int, i: nat)
    requires Reachable(qs, s)
    requires 0 <= k < |qs| && i < qs[k].optionCount
    ensures Reachable(qs, Select(s, qs[k], i))
  {
  }

  lemma CheckAndResetKeepReachable(qs: seq<Question>, s: QuizState)
    requires Reachable(qs, s)
    ensures Reachable(qs, Check(s)) && Reachable(qs, Reset(s))
  {
  }

  /** The chosen option of q is its right answer; an unanswered question is
      never right. */
  predicate IsCorrect(answers: map<int, nat>, q: Question)
  {
    q.id in answers && answers[q.id] == q.answer
  }

  /** The score `reduce`: a left fold over the questions adding one for
      every right answer to the running total. */
  function ScoreFrom(qs: seq<Question>, answers: map<int, nat>, acc: int): int
    decreases |qs|
  {
    if |qs| == 0 then acc
    else ScoreFrom(qs[1..], answers, if IsCorrect(answers, qs[0]) then acc + 1 else acc)
  }

  function Score(qs: seq<Question>, answers: map<int, nat>): int
  {
    ScoreFrom(qs, answers, 0)
  }

  /** The questions answered right, in bank order. */
  function RightOnes(qs: seq<Question>, answers: map<int, nat>): (r: seq<Question>)
    ensures |r| <= |qs|
    ensures forall q :: q in r <==> q in qs && IsCorrect(answers, q)
    decreases |qs|
  {
    if |qs| == 0 then []
    else (if IsCorrect(answers, qs[0]) then [qs[0]] else []) + RightOnes(qs[1..], answers)
  }

  /** The fold counts the right answers on top of its starting total. */
  lemma {:induction false} ScoreFromCounts(qs: seq<Question>, answers: map<int, nat>, acc: int)
    ensures ScoreFrom(qs, answers, acc) == acc + |RightOnes(qs, answers)|
    decreases |qs|
  {
    if |qs| > 0 {
      var next := if IsCorrect(answers, qs[0]) then acc + 1 else acc;
      ScoreFromCounts(qs[1..], answers, next);
    }
  }

  /** The score is the number of questions answered right, so it lies
      between 0 and the number of questions. */
  lemma ScoreIsCount(qs: seq<Question>, answers: map<int, nat>)
    ensures Score(qs, answers) == |RightOnes(qs, answers)|
    ensures 0 <= Score(qs, answers) <= |qs|
  {
    ScoreFromCounts(qs, answers, 0);
  }

  /** Full marks exactly when every question is answered right. */
  lemma {:induction false} FullMarks(qs: seq<Question>, answers: map<int, nat>)
    ensures |RightOnes(qs, answers)| == |qs| <==> forall k :: 0 <= k < |qs| ==> IsCorrect(answers, qs[k])
    decreases |qs|
  {
    if |qs| > 0 {
      FullMarks(qs[1..], answers);
      assert forall k :: 1 <= k < |qs| ==> qs[k] == qs[1..][k - 1];
      if !IsCorrect(answers, qs[0]) {
        assert |RightOnes(qs[1..], answers)| <= |qs| - 1;
      }
    }
  }

  /** The score is zero exactly when no question is answered right; in
      particular with no choice made at all. */
  lemma ZeroScore(qs: seq<Question>, answers: map<int, nat>)
    ensures Score(qs, answers) == 0 <==> forall k :: 0 <= k < |qs| ==> !IsCorrect(answers, qs[k])
    ensures Score(qs, map[]) == 0
  {
    ScoreIsCount(qs, answers);
    ScoreIsCount(qs, map[]);
    NothingChosenNothingRight(qs);
    var r := RightOnes(qs, answers);
    if |r| > 0 {
      assert r[0] in r;
    }
    if exists k :: 0 <= k < |qs| && IsCorrect(answers, qs[k]) {
      var k :| 0 <= k < |qs| && IsCorrect(answers, qs[k]);
      assert qs[k] in r;
    }
  }

  lemma {:induction false} NothingChosenNothingRight(qs: seq<Question>)
    ensures RightOnes(qs, map[]) == []
    decreases |qs|
  {
    if |qs| > 0 {
      NothingChosenNothingRight(qs[1..]);
    }
  }

  lemma AllScore(qs: seq<Question>, answers: map<int, nat>)
    ensures Score(qs, answers) == |qs| <==> forall k :: 0 <= k < |qs| ==> IsCorrect(answers, qs[k])
  {
    ScoreIsCount(qs, answers);
    FullMarks(qs, answers);
  }

  /** The score line: shown only once the answers are checked, and then
      the number of questions answered right, out of |qs|. */
  function ScoreLine(qs: seq<Question>, s: QuizState): (r: Option<int>)
    ensures r.Some? <==> s.submitted
    ensures r.Some? ==> r.value == |RightOnes(qs, s.answers)|
    ensures r.Some? ==> 0 <= r.value <= |qs|
  {
    ScoreIsCount(qs, s.answers);
    if s.submitted then Some(Score(qs, s.answers)) else None
  }

  /** The line under a question: nothing before checking, then "Correct!"
      or "Not quite." followed by the explanation. */
  datatype Verdict = Hidden | Right | NotQuite

  function Feedback(s: QuizState, q: Question): (v: Verdict)
    ensures v == Hidden <==> !s.submitted
    ensures v == Right <==> s.submitted && IsCorrect(s.answers, q)
    ensures v == NotQuite <==> s.submitted && !IsCorrect(s.answers, q)
  {
    if !s.submitted then Hidden
    else if IsCorrect(s.answers, q) then Right
    else NotQuite
  }

  /** How an option is shown: with a hover highlight before checking; after
      checking the chosen option is green or red and every other option,
      the right one included, stays plain. */
  datatype Look = Hoverable | Plain | Green | Red

  function OptionLook(s: QuizState, q: Question, i: nat): (l: Look)
    ensures l == Hoverable <==> !s.submitted
    ensures l == Green <==> s.submitted && q.id in s.answers && s.answers[q.id] == i && i == q.answer
    ensures l == Red <==> s.submitted && q.id in s.answers && s.answers[q.id] == i && i != q.answer
    ensures l == Plain <==> s.submitted && !(q.id in s.answers && s.answers[q.id] == i)
  {
    if !s.submitted then Hoverable
    else if q.id in s.answers && s.answers[q.id] == i then
      (if i == q.answer then Green else Red)
    else Plain
  }

  /** At most one option of a question is coloured. */
  lemma AtMostOneColoured(s: QuizState, q: Question, i: nat, j: nat)
    requires i != j
    ensures OptionLook(s, q, i) in {Green, Red} ==> OptionLook(s, q, j) == Plain
  {
  }

  /** Some option of q shows green exactly when q's verdict is "Correct!",
      and some option shows red exactly when a wrong option was chosen and
      the verdict is "Not quite.". */
  lemma ColoursMatchVerdict(s: QuizState, q: Question)
    requires q.answer < q.optionCount
    requires q.id in s.answers ==> s.answers[q.id] < q.optionCount
    ensures (exists i :: 0 <= i < q.optionCount && OptionLook(s, q, i) == Green)
      <==> Feedback(s, q) == Right
    ensures (exists i :: 0 <= i < q.optionCount && OptionLook(s, q, i) == Red)
      <==> Feedback(s, q) == NotQuite && q.id in s.answers
  {
    if Feedback(s, q) == Right {
      assert OptionLook(s, q, q.answer) == Green;
    }
    if Feedback(s, q) == NotQuite && q.id in s.answers {
      assert OptionLook(s, q, s.answers[q.id]) == Red;
    }
  }

  /** In a well-formed bank, a reachable state meets what
      `ColoursMatchVerdict` asks of a question: the answer and the recorded
      choice are both options of it. */
  lemma ReachableChoiceIsOption(qs: seq<Question>, s: QuizState, q: Question)
    requires WellFormedBank(qs) && Reachable(qs, s) && q in qs
    ensures q.answer < q.optionCount
    ensures q.id in s.answers ==> s.answers[q.id] < q.optionCount
  {
    if q.id in s.answers {
      var k :| 0 <= k < |qs| && qs[k].id == q.id && s.answers[q.id] < qs[k].optionCount;
      var j :| 0 <= j < |qs| && qs[j] == q;
      assert k == j;
    }
  }

  /** On the page's own bank, the colours match the verdict in every
      state the handlers can reach. */
  lemma BankColoursMatchVerdict(s: QuizState, q: Question)
    requires Reachable(Bank, s) && q in Bank
    ensures (exists i :: 0 <= i < q.optionCount && OptionLook(s, q, i) == Green)
      <==> Feedback(s, q) == Right
    ensures (exists i :: 0 <= i < q.optionCount && OptionLook(s, q, i) == Red)
      <==> Feedback(s, q) == NotQuite && q.id in s.answers
  {
    BankIsWellFormed();
    ReachableChoiceIsOption(Bank, s, q);
    ColoursMatchVerdict(s, q);
  }

  /** Checking without choosing anything: every option plain, every verdict
      "Not quite." and a score of zero. */
  lemma CheckWithoutAnswers(qs: seq<Question>, q: Question, i: nat)
    ensures OptionLook(Check(Initial), q, i) == Plain
    ensures Feedback(Check(Initial), q) == NotQuite
    ensures ScoreLine(qs, Check(Initial)) == Some(0)
  {
    ZeroScore(qs, map[]);
  }

  /** After a reset, every option is hoverable again and nothing is shown. */
  lemma ResetHidesEverything(qs: seq<Question>, s: QuizState, q: Question, i: nat)
    ensures OptionLook(Reset(s), q, i) == Hoverable
    ensures Feedback(Reset(s), q) == Hidden
    ensures ScoreLine(qs, Reset(s)) == None
  {
  }

  /** In a bank with distinct ids, choosing the right answer of one
      question never lowers the score, and choosing a wrong one never
      raises it. */
  lemma {:induction false} SelectMovesScoreByOne(qs: seq<Question>, answers: map<int, nat>, q: Question, i: nat)
    requires forall a, b :: 0 <= a < b < |qs| ==> qs[a].id != qs[b].id
    requires forall k :: 0 <= k < |qs| && qs[k].id == q.id ==> qs[k] == q
    ensures var after := |RightOnes(qs, answers[q.id := i])|;
      var before := |RightOnes(qs, answers)|;
      before - 1 <= after <= before + 1
    ensures i == q.answer ==> |RightOnes(qs, answers)| <= |RightOnes(qs, answers[q.id := i])|
    ensures i != q.answer ==> |RightOnes(qs, answers[q.id := i])| <= |RightOnes(qs, answers)|
    decreases |qs|
  {
    if |qs| > 0 {
      var rest := qs[1..];
      var updated := answers[q.id := i];
      SelectMovesScoreByOne(rest, answers, q, i);
      assert RightOnes(qs, answers)
        == (if IsCorrect(answers, qs[0]) then [qs[0]] else []) + RightOnes(rest, answers);
      assert RightOnes(qs, updated)
        == (if IsCorrect(updated, qs[0]) then [qs[0]] else []) + RightOnes(rest, updated);
      if qs[0].id != q.id {
        assert IsCorrect(updated, qs[0]) == IsCorrect(answers, qs[0]);
      } else {
        assert IsCorrect(updated, qs[0]) <==> i == q.answer;
        forall k | 0 <= k < |rest|
          ensures IsCorrect(answers[q.id := i], rest[k]) == IsCorrect(answers, rest[k])
        {
          assert rest[k] == qs[k + 1];
        }
        SameVerdictsSameCount(rest, answers[q.id := i], answers);
      }
    }
  }

  lemma {:induction false} SameVerdictsSameCount(qs: seq<Question>, m1: map<int, nat>, m2: map<int, nat>)
    requires forall k :: 0 <= k < |qs| ==> IsCorrect(m1, qs[k]) == IsCorrect(m2, qs[k])
    ensures RightOnes(qs, m1) == RightOnes(qs, m2)
    decreases |qs|
  {
    if |qs| > 0 {
      assert IsCorrect(m1, qs[0]) == IsCorrect(m2, qs[0]);
      forall k | 0 <= k < |qs| - 1
        ensures IsCorrect(m1, qs[1..][k]) == IsCorrect(m2, qs[1..][k])
      {
        assert qs[1..][k] == qs[k + 1];
      }
      SameVerdictsSameCount(qs[1..], m1, m2);
    }
  }
}
