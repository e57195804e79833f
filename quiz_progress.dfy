/**
 * The legacy dashboard's quiz progress card over the built-in quiz list:
 * per-quiz status, the unlock date and the overall progress percentage.
 */
module QuizProgress {
  import opened Common
  import opened Records
  import opened Unlock
  import Dashboard

  /** The number of quizzes in the built-in list. */
  const TOTAL_QUIZZES: int := 7

  /** The ids of the built-in quizzes. */
  const QUIZ_IDS: set<int> := {1, 2, 3, 4, 5, 6, 7}

  /**
   * The status of a built-in quiz for a signed-in user: passed quizzes are
   * completed first; otherwise the quiz is open from its unlock instant on.
   */
  function StatusOf(quizId: int, unlockDay: int, user: Account, now: int): (st: QuizStatus)
    ensures quizId in user.completedQuizzes ==> st == Completed
    ensures st == Available <==>
      quizId !in user.completedQuizzes && now >= UnlockInstant(user.createdAt, unlockDay)
  {
    if quizId in user.completedQuizzes then Completed
    else
      DayTestIsInstantTest(user.createdAt, now, unlockDay);
      if DaysSince(user.createdAt, now) >= unlockDay - 1 then Available else Locked
  }

  /** The date shown under a locked quiz: registration plus `unlockDay - 1` days. */
  function UnlockDate(user: Account, unlockDay: int): (t: int)
    ensures DaysSince(user.createdAt, t) == unlockDay - 1
  {
    UnlockInstantDays(user.createdAt, unlockDay);
    UnlockInstant(user.createdAt, unlockDay)
  }

  /** The date shown is the first instant at which an unpassed quiz opens. */
  lemma UnlockDateIsOpening(quizId: int, unlockDay: int, user: Account)
    requires quizId !in user.completedQuizzes
    ensures StatusOf(quizId, unlockDay, user, UnlockDate(user, unlockDay)) == Available
    ensures StatusOf(quizId, unlockDay, user, UnlockDate(user, unlockDay) - 1) == Locked
  {
  }

  /**
   * With the same passed quizzes and the same registration instant, this
   * card and the mission dashboard give every quiz the same status.
   */
  lemma AgreesWithDashboard(quizId: int, row: QuizRow, completed: seq<Id>, profile: Profile, user: Account, now: int)
    requires (quizId in user.completedQuizzes) <==> (row.id in completed)
    requires profile.createdAt == user.createdAt
    ensures StatusOf(quizId, row.unlockDay, user, now) == Dashboard.StatusOf(row, completed, Some(profile), now)
  {
  }

  /** The Start Quiz button appears exactly on open, unpassed quizzes. */
  function StartQuizOffered(quizId: int, unlockDay: int, user: Account, now: int): (offered: bool)
    ensures offered <==> quizId !in user.completedQuizzes && now >= UnlockInstant(user.createdAt, unlockDay)
  {
    StatusOf(quizId, unlockDay, user, now) == Available
  }

  /** `(completedCount / totalQuizzes) * 100`. */
  function ProgressPercentage(user: Account): (p: real)
    ensures p == 100.0 <==> |user.completedQuizzes| == TOTAL_QUIZZES
    ensures 0.0 <= p <= 100.0 <==> |user.completedQuizzes| <= TOTAL_QUIZZES
  {
    (|user.completedQuizzes| as real / TOTAL_QUIZZES as real) * 100.0
  }

  // ------------------------------------------ "100 % means every quiz passed"

  predicate Distinct(s: seq<int>) {
    forall i, j :: 0 <= i < j < |s| ==> s[i] != s[j]
  }

  function Elements(s: seq<int>): (e: set<int>)
    ensures forall x :: x in e <==> x in s
    decreases |s|
  {
    if |s| == 0 then {} else {s[0]} + Elements(s[1..])
  }

  lemma {:induction false} DistinctElements(s: seq<int>)
    requires Distinct(s)
    ensures |Elements(s)| == |s|
    decreases |s|
  {
    if |s| > 0 {
      assert Distinct(s[1..]) by {
        forall i, j | 0 <= i < j < |s| - 1 ensures s[1..][i] != s[1..][j] {
          assert s[1..][i] == s[i + 1] && s[1..][j] == s[j + 1];
        }
      }
      DistinctElements(s[1..]);
      assert s[0] !in s[1..] by {
        forall k | 0 <= k < |s| - 1 ensures s[1..][k] != s[0] {
          assert s[1..][k] == s[k + 1];
        }
      }
    }
  }

  lemma SubsetOfSameSize(a: set<int>, b: set<int>)
    requires a <= b && |a| == |b|
    ensures a == b
  {
    var d := b - a;
    assert a + d == b;
    assert a * d == {};
    assert |d| == 0;
  }

  lemma QuizIdCount()
    ensures |QUIZ_IDS| == TOTAL_QUIZZES
  {
  }

  /**
   * When the passed ids are distinct ids of built-in quizzes, the progress
   * bar is full exactly when every built-in quiz has been passed.
   */
  lemma FullProgressIffAllPassed(user: Account)
    requires Distinct(user.completedQuizzes)
    requires forall i :: 0 <= i < |user.completedQuizzes| ==> user.completedQuizzes[i] in QUIZ_IDS
    ensures ProgressPercentage(user) == 100.0 <==> forall id :: id in QUIZ_IDS ==> id in user.completedQuizzes
  {
    var done := user.completedQuizzes;
    DistinctElements(done);
    assert Elements(done) <= QUIZ_IDS;
    QuizIdCount();
    if |done| == TOTAL_QUIZZES {
      SubsetOfSameSize(Elements(done), QUIZ_IDS);
    }
    if forall id :: id in QUIZ_IDS ==> id in done {
      assert Elements(done) == QUIZ_IDS;
    }
    assert ProgressPercentage(user) == 100.0 <==> |done| == TOTAL_QUIZZES;
  }
}
