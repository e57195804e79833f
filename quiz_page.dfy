/**
 * The legacy quiz page over the built-in quiz list: the access guard, the
 * answer sheet, the ceiling pass rule and the ledger credit on a pass.
 */
module QuizPage {
  import opened Common
  import opened Records
  import opened Unlock
  import opened Scoring
  import opened Countdown
  import QuizProgress

  /** `mockQuizzes.find(q => q.id === parseInt(quizId || '0'))`. */
  function FindQuiz(quizzes: seq<MockQuiz>, quizId: string): (r: Option<MockQuiz>)
    ensures r.Some? ==> r.value in quizzes && Some(r.value.id) == ParseInt(if quizId == "" then "0" else quizId)
    ensures r.None? ==> forall q :: q in quizzes ==> Some(q.id) != ParseInt(if quizId == "" then "0" else quizId)
    decreases |quizzes|
  {
    var wanted := ParseInt(if quizId == "" then "0" else quizId);
    if |quizzes| == 0 then None
    else if Some(quizzes[0].id) == wanted then Some(quizzes[0])
    else FindQuiz(quizzes[1..], quizId)
  }

  datatype GuardOutcome = LeaveNoQuiz | LeaveCompleted | LeaveLocked | Stay

  /**
   * The effect that runs on entry: leave for the dashboard without a quiz or
   * a user, when the quiz was already passed, or while it is still locked.
   */
  function Guard(quiz: Option<MockQuiz>, user: Option<Account>, now: int): (g: GuardOutcome)
    ensures g == LeaveNoQuiz <==> quiz.None? || user.None?
    ensures g == LeaveCompleted ==> quiz.Some? && user.Some? && quiz.value.id in user.value.completedQuizzes
    ensures g == LeaveLocked ==>
      quiz.Some? && user.Some? && now < UnlockInstant(user.value.createdAt, quiz.value.unlockDay)
  {
    if quiz.None? || user.None? then LeaveNoQuiz
    else if quiz.value.id in user.value.completedQuizzes then LeaveCompleted
    else if DaysSince(user.value.createdAt, now) < quiz.value.unlockDay - 1 then
      DayTestIsInstantTest(user.value.createdAt, now, quiz.value.unlockDay);
      LeaveLocked
    else Stay
  }

  /** The page stays open exactly for a quiz the progress card shows as available. */
  lemma GuardAgreesWithProgress(quiz: Option<MockQuiz>, user: Option<Account>, now: int)
    ensures Guard(quiz, user, now) == Stay <==>
      quiz.Some? && user.Some?
      && QuizProgress.StatusOf(quiz.value.id, quiz.value.unlockDay, user.value, now) == Available
  {
    if quiz.Some? && user.Some? {
      DayTestIsInstantTest(user.value.createdAt, now, quiz.value.unlockDay);
    }
  }

  // ------------------------------------------------------------------ score

  /**
   * The answer sheet starts as `[]`, and a selection writes one index, so a
   * position can be unset (`undefined`): a map from positions to options.
   */
  type Sheet = map<int, int>

  /** `quiz.questions.filter((q, i) => q.correctAnswer === selectedAnswers[i]).length`. */
  function SheetCorrect(qs: seq<MockQuestion>, sheet: Sheet): (c: nat)
    ensures c <= |qs|
    decreases |qs|
  {
    if |qs| == 0 then 0
    else
      var i := |qs| - 1;
      SheetCorrect(qs[..i], sheet) + (if i in sheet && sheet[i] == qs[i].correctAnswer then 1 else 0)
  }

  /** An untouched sheet scores nothing. */
  lemma {:induction false} EmptySheetScoresZero(qs: seq<MockQuestion>)
    ensures SheetCorrect(qs, map[]) == 0
    decreases |qs|
  {
    if |qs| > 0 {
      EmptySheetScoresZero(qs[..|qs| - 1]);
    }
  }

  /** So a quiz with questions is failed on an untouched sheet. */
  lemma EmptySheetFails(qs: seq<MockQuestion>)
    requires |qs| > 0
    ensures !PassedCeil(SheetCorrect(qs, map[]), |qs|)
  {
    EmptySheetScoresZero(qs);
    CeilRuleInIntegers(0, |qs|);
  }

  /** A sheet that holds the correct option at every position scores every question. */
  lemma {:induction false} AnswerKeyScoresAll(qs: seq<MockQuestion>, sheet: Sheet)
    requires forall i :: 0 <= i < |qs| ==> i in sheet && sheet[i] == qs[i].correctAnswer
    ensures SheetCorrect(qs, sheet) == |qs|
    decreases |qs|
  {
    if |qs| > 0 {
      AnswerKeyScoresAll(qs[..|qs| - 1], sheet);
    }
  }

  /**
   * The countdown's submission as the page wires it scores the empty sheet
   * of the first render: a fully correct sheet, which the results screen
   * shows as passed, is failed and not credited.
   */
  lemma TimeoutIgnoresAnsweredSheet(qs: seq<MockQuestion>, sheet: Sheet)
    requires |qs| > 0
    requires forall i :: 0 <= i < |qs| ==> i in sheet && sheet[i] == qs[i].correctAnswer
    ensures PassedCeil(SheetCorrect(qs, sheet), |qs|)
    ensures !PassedCeil(SheetCorrect(qs, map[]), |qs|)
  {
    AnswerKeyScoresAll(qs, sheet);
    CeilRuleInIntegers(|qs|, |qs|);
    EmptySheetFails(qs);
  }

  // ----------------------------------------------------------------- credit

  /**
   * The user after a passed quiz: the reward is added to the quiz earnings,
   * the balance and the withdrawable amount, and the quiz id is appended.
   */
  function Credit(u: Account, q: MockQuiz): (v: Account)
    ensures v.quizEarnings == u.quizEarnings + q.reward
    ensures v.totalBalance == u.totalBalance + q.reward
    ensures v.withdrawableAmount == u.withdrawableAmount + q.reward
    ensures v.completedQuizzes == u.completedQuizzes + [q.id]
    ensures v.(quizEarnings := u.quizEarnings, totalBalance := u.totalBalance,
               withdrawableAmount := u.withdrawableAmount, completedQuizzes := u.completedQuizzes) == u
  {
    u.(completedQuizzes := u.completedQuizzes + [q.id],
       quizEarnings := u.quizEarnings + q.reward,
       totalBalance := u.totalBalance + q.reward,
       withdrawableAmount := u.withdrawableAmount + q.reward)
  }

  /** A credit keeps balance minus quiz earnings and balance minus withdrawable. */
  lemma CreditKeepsDifferences(u: Account, q: MockQuiz)
    ensures Credit(u, q).totalBalance - Credit(u, q).quizEarnings == u.totalBalance - u.quizEarnings
    ensures Credit(u, q).totalBalance - Credit(u, q).withdrawableAmount == u.totalBalance - u.withdrawableAmount
  {
  }

  /** A credit of a non-negative reward keeps the ledger consistent. */
  lemma CreditKeepsLedger(u: Account, q: MockQuiz)
    requires AccountLedgerConsistent(u) && q.reward >= 0
    ensures AccountLedgerConsistent(Credit(u, q))
  {
  }

  /** After the credit the progress card shows the quiz as completed, at any time. */
  lemma CreditCompletes(u: Account, q: MockQuiz, now: int)
    ensures QuizProgress.StatusOf(q.id, q.unlockDay, Credit(u, q), now) == Completed
  {
    assert q.id in Credit(u, q).completedQuizzes;
  }

  // ------------------------------------------------------------------ state

  class QuizSession {
    var user: Account
    var quiz: MockQuiz
    var sheet: Sheet
    var current: int
    var timeLeft: int
    var showResults: bool

    ghost predicate Valid()
      reads this
    {
      |quiz.questions| > 0 && 0 <= current < |quiz.questions| && 0 <= timeLeft <= QUIZ_SECONDS
    }

    /** The page's first render for a found quiz: an empty sheet and five minutes. */
    constructor (u: Account, q: MockQuiz)
      requires |q.questions| > 0
      ensures Valid()
      ensures user == u && quiz == q && sheet == map[] && current == 0
      ensures timeLeft == QUIZ_SECONDS && !showResults
    {
      user := u;
      quiz := q;
      sheet := map[];
      current := 0;
      timeLeft := QUIZ_SECONDS;
      showResults := false;
    }

    /** The verdict the results screen recomputes. */
    function ResultsPassed(): bool
      reads this
    {
      PassedCeil(SheetCorrect(quiz.questions, sheet), |quiz.questions|)
    }

    /** `handleAnswerSelect`: the current position now holds the chosen option, the others are unchanged. */
    method SelectAnswer(option: int)
      requires Valid() && 0 <= option < |quiz.questions[current].options|
      modifies this
      ensures Valid()
      ensures sheet == old(sheet)[current := option]
      ensures user == old(user) && quiz == old(quiz) && current == old(current)
      ensures timeLeft == old(timeLeft) && showResults == old(showResults)
    {
      sheet := sheet[current := option];
    }

    /** The Next/Submit button, disabled while the current position is unset. */
    method Next() returns (submit: bool)
      requires Valid()
      modifies this
      ensures Valid()
      ensures submit <==> old(current) in sheet && old(current) == |quiz.questions| - 1
      ensures current == if old(current) in sheet && old(current) < |quiz.questions| - 1
                         then old(current) + 1 else old(current)
      ensures user == old(user) && quiz == old(quiz) && sheet == old(sheet)
      ensures timeLeft == old(timeLeft) && showResults == old(showResults)
    {
      submit := false;
      if current !in sheet {
        return;
      }
      if current < |quiz.questions| - 1 {
        current := current + 1;
      } else {
        submit := true;
      }
    }

    /** One second of the countdown while no results are shown. */
    method Tick() returns (submit: bool)
      requires Valid() && !showResults
      modifies this
      ensures Valid()
      ensures timeLeft == TickNext(old(timeLeft)) && submit == TickSubmits(old(timeLeft))
      ensures user == old(user) && quiz == old(quiz) && sheet == old(sheet)
      ensures current == old(current) && showResults == old(showResults)
    {
      submit := timeLeft <= 1;
      timeLeft := TickNext(timeLeft);
    }

    /**
     * `handleSubmitQuiz`: a pass (by the ceiling rule) credits the user when
     * the account update is saved; a fail changes no user field. Either way
     * the results are shown, with the same verdict.
     */
    method SubmitQuiz(saved: bool) returns (passed: bool)
      requires Valid()
      modifies this
      ensures Valid()
      ensures passed <==> 10 * SheetCorrect(quiz.questions, sheet) >= 7 * |quiz.questions|
      ensures user == if passed && saved then Credit(old(user), quiz) else old(user)
      ensures showResults && passed == ResultsPassed()
      ensures quiz == old(quiz) && sheet == old(sheet) && current == old(current) && timeLeft == old(timeLeft)
    {
      var correct := SheetCorrect(quiz.questions, sheet);
      passed := PassedCeil(correct, |quiz.questions|);
      CeilRuleInIntegers(correct, |quiz.questions|);
      if passed && saved {
        user := Credit(user, quiz);
      }
      showResults := true;
    }

    /**
     * The submission the countdown makes at zero, as written. The interval
     * is set up once, on the first render (its effect depends on
     * `showResults` only), so it calls that render's `handleSubmitQuiz`,
     * which scores the first render's empty sheet: a timed-out quiz always
     * fails and is never credited, whatever the sheet now holds.
     */
    method TimeoutSubmitAsWritten() returns (passed: bool)
      requires Valid()
      modifies this
      ensures Valid()
      ensures passed == PassedCeil(SheetCorrect(quiz.questions, map[]), |quiz.questions|)
      ensures !passed
      ensures user == old(user) && showResults
      ensures quiz == old(quiz) && sheet == old(sheet) && current == old(current) && timeLeft == old(timeLeft)
    {
      passed := PassedCeil(SheetCorrect(quiz.questions, map[]), |quiz.questions|);
      EmptySheetFails(quiz.questions);
      showResults := true;
    }
  }
}
