/**
 * The mission quiz screen: the answer sheet, the question cursor, the
 * countdown and the submission that reports the verdict.
 */
module ModernQuiz {
  import opened Common
  import opened Records
  import opened Scoring
  import opened Countdown

  /** The unlock day named by a mission id: `parseInt(missionId.replace('J', ''))`. */
  function UnlockDayOf(missionId: string): Option<int> {
    ParseInt(ReplaceFirst(missionId, 'J'))
  }

  /** A mission name `J<n>` names day `n`. */
  lemma UnlockDayOfMissionName(n: int)
    ensures UnlockDayOf("J" + ShowInt(n)) == Some(n)
  {
    assert ReplaceFirst("J" + ShowInt(n), 'J') == ShowInt(n);
    ParseIntShowInt(n);
  }

  // ------------------------------------------------------------------ score

  /** `questions.filter((q, i) => q.correct_answer === selected[i]).length`. */
  function CorrectCount(qs: seq<QuestionRow>, answers: seq<int>): (c: nat)
    ensures c <= |qs|
    decreases |qs|
  {
    if |qs| == 0 then 0
    else
      var i := |qs| - 1;
      CorrectCount(qs[..i], answers) + (if i < |answers| && qs[i].correctAnswer == answers[i] then 1 else 0)
  }

  /** The question positions whose selected answer is the correct one. */
  function Matching(qs: seq<QuestionRow>, answers: seq<int>): set<nat> {
    set i: nat | i < |qs| && i < |answers| && qs[i].correctAnswer == answers[i]
  }

  /** The positions that hold an answer (anything but the blank -1). */
  function Answered(answers: seq<int>): set<nat> {
    set i: nat | i < |answers| && answers[i] != -1
  }

  /** The score is the number of positions answered correctly. */
  lemma {:induction false} CorrectCountIsMatching(qs: seq<QuestionRow>, answers: seq<int>)
    ensures CorrectCount(qs, answers) == |Matching(qs, answers)|
    decreases |qs|
  {
    if |qs| > 0 {
      var i := |qs| - 1;
      CorrectCountIsMatching(qs[..i], answers);
      var before := Matching(qs[..i], answers);
      if i < |answers| && qs[i].correctAnswer == answers[i] {
        assert Matching(qs, answers) == before + {i};
      } else {
        assert Matching(qs, answers) == before;
      }
    }
  }

  /** The blank -1 never scores while correct answers are option indices, so the score is at most the number answered. */
  lemma UnansweredNeverScores(qs: seq<QuestionRow>, answers: seq<int>)
    requires forall i :: 0 <= i < |qs| ==> qs[i].correctAnswer >= 0
    ensures CorrectCount(qs, answers) <= |Answered(answers)|
  {
    CorrectCountIsMatching(qs, answers);
    assert Matching(qs, answers) <= Answered(answers);
    SubsetCard(Matching(qs, answers), Answered(answers));
  }

  /** The sheet a quiz starts with: one -1 per question. */
  function BlankSheet(n: nat): (s: seq<int>)
    ensures |s| == n && forall i :: 0 <= i < n ==> s[i] == -1
  {
    seq(n, _ => -1)
  }

  /** An untouched sheet scores nothing. */
  lemma BlankSheetScoresZero(qs: seq<QuestionRow>)
    requires forall i :: 0 <= i < |qs| ==> qs[i].correctAnswer >= 0
    ensures CorrectCount(qs, BlankSheet(|qs|)) == 0
  {
    UnansweredNeverScores(qs, BlankSheet(|qs|));
    assert Answered(BlankSheet(|qs|)) == {};
  }

  /** A sheet holding every correct answer scores every question. */
  lemma {:induction false} AnswerKeyScoresAll(qs: seq<QuestionRow>, answers: seq<int>)
    requires |qs| <= |answers|
    requires forall i :: 0 <= i < |qs| ==> answers[i] == qs[i].correctAnswer
    ensures CorrectCount(qs, answers) == |qs|
    decreases |qs|
  {
    if |qs| > 0 {
      AnswerKeyScoresAll(qs[..|qs| - 1], answers);
    }
  }

  // ----------------------------------------------------------------- report

  /** What `onComplete` receives: the verdict and the percentage score (`None` is `NaN`). */
  datatype Report = Report(passed: bool, percent: Option<real>)

  /** `(score / questions.length) * 100`. */
  function Percent(correct: nat, total: nat): (p: Option<real>)
    ensures p.Some? <==> total > 0
    ensures p.Some? ==> 0.0 <= p.value && (p.value >= 70.0 <==> PassedRatio(correct, total))
  {
    if total == 0 then None
    else
      PercentRuleIsRatioRule(correct, total);
      Some((correct as real / total as real) * 100.0)
  }

  /**
   * The report of a submission: on a recorded completion, the ratio verdict
   * and the percentage; when the completion call fails, a fail with 0.
   */
  function SubmissionReport(qs: seq<QuestionRow>, answers: seq<int>, recorded: bool): (r: Report)
    ensures r.passed ==> recorded && |qs| > 0 && 10 * CorrectCount(qs, answers) >= 7 * |qs|
    ensures recorded ==> (r.passed <==> PassedRatio(CorrectCount(qs, answers), |qs|))
    ensures !recorded ==> r == Report(false, Some(0.0))
  {
    RatioRuleInIntegers(CorrectCount(qs, answers), |qs|);
    if recorded then
      var c := CorrectCount(qs, answers);
      Report(PassedRatio(c, |qs|), Percent(c, |qs|))
    else Report(false, Some(0.0))
  }

  /** The verdict on the results screen, `percent >= 70`. */
  predicate ResultsScreenPassed(qs: seq<QuestionRow>, answers: seq<int>) {
    PassedPercent(CorrectCount(qs, answers), |qs|)
  }

  /** The results screen shows the verdict the recorded submission reported. */
  lemma ResultsScreenAgrees(qs: seq<QuestionRow>, answers: seq<int>)
    ensures ResultsScreenPassed(qs, answers) <==> SubmissionReport(qs, answers, true).passed
  {
    PercentRuleIsRatioRule(CorrectCount(qs, answers), |qs|);
  }

  /**
   * What the countdown's submission reports as the screen wires it: the
   * sheet of the render that started the interval, before the questions
   * arrived, so nothing is scored out of nothing. A fully correct sheet,
   * which the button submission and the results screen count as a pass,
   * is reported as a fail with a `NaN` percentage once recorded.
   */
  lemma TimeoutIgnoresAnsweredSheet(qs: seq<QuestionRow>, answers: seq<int>)
    requires |qs| > 0 && |qs| <= |answers|
    requires forall i :: 0 <= i < |qs| ==> answers[i] == qs[i].correctAnswer
    ensures SubmissionReport(qs, answers, true).passed && ResultsScreenPassed(qs, answers)
    ensures SubmissionReport([], [], true) == Report(false, None)
  {
    AnswerKeyScoresAll(qs, answers);
    ResultsScreenAgrees(qs, answers);
  }

  // ------------------------------------------------------------------ state

  /** The quiz screen once its quiz row has loaded. */
  class QuizRun {
    var questions: seq<QuestionRow>
    var answers: seq<int>
    var current: int
    var timeLeft: int
    var showResults: bool

    ghost predicate Valid()
      reads this
    {
      |answers| == |questions|
      && 0 <= current && (current < |questions| || current == 0)
      && 0 <= timeLeft <= QUIZ_SECONDS
    }

    /** The loaded questions with a blank sheet, the cursor on the first and five minutes on the clock. */
    constructor (qs: seq<QuestionRow>)
      ensures Valid()
      ensures questions == qs && answers == BlankSheet(|qs|)
      ensures current == 0 && timeLeft == QUIZ_SECONDS && !showResults
    {
      questions := qs;
      answers := BlankSheet(|qs|);
      current := 0;
      timeLeft := QUIZ_SECONDS;
      showResults := false;
    }

    /** `handleAnswerSelect` with the index of a shown option: only the slot of the current question changes. */
    method SelectAnswer(option: int)
      requires Valid() && |questions| > 0
      requires 0 <= option < |questions[current].options|
      modifies this
      ensures Valid()
      ensures questions == old(questions) && current == old(current)
      ensures answers == old(answers)[current := option]
      ensures forall i :: 0 <= i < |answers| && i != current ==> answers[i] == old(answers[i])
      ensures timeLeft == old(timeLeft) && showResults == old(showResults)
    {
      answers := answers[current := option];
    }

    /**
     * The Next/Validate button, disabled while the current question has no
     * answer; `handleNext` moves to the next question, or reports on the last
     * one that the quiz is to be submitted. The cursor never leaves the list.
     */
    method Next() returns (submit: bool)
      requires Valid() && |questions| > 0
      modifies this
      ensures Valid() && current < |questions|
      ensures submit <==> old(answers[current]) != -1 && old(current) == |questions| - 1
      ensures current == if old(answers[current]) != -1 && old(current) < |questions| - 1
                         then old(current) + 1 else old(current)
      ensures questions == old(questions) && answers == old(answers)
      ensures timeLeft == old(timeLeft) && showResults == old(showResults)
    {
      submit := false;
      if answers[current] == -1 {
        return;
      }
      if current < |questions| - 1 {
        current := current + 1;
      } else {
        submit := true;
      }
    }

    /** One second of the countdown, which runs while no results are shown. */
    method Tick() returns (submit: bool)
      requires Valid() && !showResults
      modifies this
      ensures Valid()
      ensures timeLeft == TickNext(old(timeLeft)) && submit == TickSubmits(old(timeLeft))
      ensures questions == old(questions) && answers == old(answers)
      ensures current == old(current) && showResults == old(showResults)
    {
      submit := timeLeft <= 1;
      timeLeft := TickNext(timeLeft);
    }

    /**
     * `handleSubmit`: nothing without a signed-in user; otherwise the results
     * are shown and the report reflects whether the completion was recorded.
     */
    method Submit(signedIn: bool, recorded: bool) returns (report: Option<Report>)
      requires Valid()
      modifies this
      ensures Valid()
      ensures !signedIn ==> report.None? && showResults == old(showResults)
      ensures signedIn ==> showResults && report == Some(SubmissionReport(questions, answers, recorded))
      ensures questions == old(questions) && answers == old(answers)
      ensures current == old(current) && timeLeft == old(timeLeft)
    {
      if !signedIn {
        return None;
      }
      showResults := true;
      report := Some(SubmissionReport(questions, answers, recorded));
    }

    /**
     * The submission the countdown makes at zero, as written. The interval
     * is set up again only when `showResults` or the quiz row changes, and
     * the quiz row is set before the questions are fetched, so the
     * interval calls the `handleSubmit` of that earlier render: no
     * questions and an empty sheet. The completion is asked for with a
     * score of 0 out of 0 questions, and the report is a fail.
     */
    method TimeoutSubmitAsWritten(signedIn: bool, recorded: bool) returns (report: Option<Report>)
      requires Valid()
      modifies this
      ensures Valid()
      ensures !signedIn ==> report.None? && showResults == old(showResults)
      ensures signedIn ==> showResults && report == Some(SubmissionReport([], [], recorded))
      ensures signedIn ==> !report.value.passed && (recorded ==> report.value.percent.None?)
      ensures questions == old(questions) && answers == old(answers)
      ensures current == old(current) && timeLeft == old(timeLeft)
    {
      if !signedIn {
        return None;
      }
      showResults := true;
      report := Some(SubmissionReport([], [], recorded));
    }
  }
}
