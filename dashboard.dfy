/**
 * The mission dashboard: which quizzes are listed, the status of each, what
 * a click on a card does, and the counters and buttons that depend on them.
 */
module Dashboard {
  import opened Common
  import opened Records
  import opened Unlock

  /** A row of `user_quiz_completions`. */
  datatype Completion = Completion(quizId: Id, passed: bool)

  /** The ids of the user's passed completions, in fetch order. */
  function PassedQuizIds(cs: seq<Completion>): (ids: seq<Id>)
    ensures forall id :: id in ids <==> Completion(id, true) in cs
    decreases |cs|
  {
    if |cs| == 0 then []
    else (if cs[0].passed then [cs[0].quizId] else []) + PassedQuizIds(cs[1..])
  }

  /**
   * The status of one quiz card. A passed quiz is completed whatever the
   * date; without a user every other quiz is locked; otherwise the quiz is
   * open from its unlock instant on.
   */
  function StatusOf(quiz: QuizRow, completed: seq<Id>, user: Option<Profile>, now: int): (st: QuizStatus)
    ensures quiz.id in completed ==> st == Completed
    ensures quiz.id !in completed && user.None? ==> st == Locked
    ensures st == Available <==>
      quiz.id !in completed && user.Some? && now >= UnlockInstant(user.value.createdAt, quiz.unlockDay)
  {
    if quiz.id in completed then Completed
    else if user.None? then Locked
    else
      DayTestIsInstantTest(user.value.createdAt, now, quiz.unlockDay);
      if DaysSince(user.value.createdAt, now) >= quiz.unlockDay - 1 then Available else Locked
  }

  /** Once open, a quiz stays open as time passes (until it is passed). */
  lemma AvailableStaysAvailable(quiz: QuizRow, completed: seq<Id>, user: Option<Profile>, now: int, later: int)
    requires now <= later
    requires StatusOf(quiz, completed, user, now) == Available
    ensures StatusOf(quiz, completed, user, later) == Available
  {
  }

  /** The day-1 quiz is open at the very instant of registration. */
  lemma DayOneOpenAtRegistration(quiz: QuizRow, completed: seq<Id>, user: Profile)
    requires quiz.unlockDay == 1 && quiz.id !in completed
    ensures StatusOf(quiz, completed, Some(user), user.createdAt) == Available
  {
  }

  /** A day-3 quiz is still locked one day after registration and open two days after. */
  lemma DayThreeExample(quiz: QuizRow, user: Profile)
    requires quiz.unlockDay == 3
    ensures StatusOf(quiz, [], Some(user), user.createdAt + DAY_MS) == Locked
    ensures StatusOf(quiz, [], Some(user), user.createdAt + 2 * DAY_MS - 1) == Locked
    ensures StatusOf(quiz, [], Some(user), user.createdAt + 2 * DAY_MS) == Available
  {
  }

  // ----------------------------------------------------------- the quiz list

  predicate SortedByDay(s: seq<QuizRow>) {
    forall i, j :: 0 <= i < j < |s| ==> s[i].unlockDay <= s[j].unlockDay
  }

  /** One insertion step of the sort: `q` goes before the first row with a later-or-equal day. */
  function InsertByDay(q: QuizRow, sorted: seq<QuizRow>): (r: seq<QuizRow>)
    ensures multiset(r) == multiset(sorted) + multiset{q}
    ensures |r| > 0 && (r[0] == q || (|sorted| > 0 && r[0] == sorted[0]))
    decreases |sorted|
  {
    if |sorted| == 0 then [q]
    else if q.unlockDay <= sorted[0].unlockDay then [q] + sorted
    else
      assert sorted == [sorted[0]] + sorted[1..];
      [sorted[0]] + InsertByDay(q, sorted[1..])
  }

  /** Inserting into a sorted list keeps it sorted. */
  lemma {:induction false} InsertKeepsSorted(q: QuizRow, sorted: seq<QuizRow>)
    requires SortedByDay(sorted)
    ensures SortedByDay(InsertByDay(q, sorted))
    decreases |sorted|
  {
    if |sorted| > 0 && q.unlockDay > sorted[0].unlockDay {
      var tail := sorted[1..];
      assert SortedByDay(tail);
      InsertKeepsSorted(q, tail);
      var rest := InsertByDay(q, tail);
      assert sorted[0].unlockDay <= rest[0].unlockDay;
      assert forall j :: 0 <= j < |rest| ==> sorted[0].unlockDay <= rest[j].unlockDay;
    }
  }

  function SortByDay(s: seq<QuizRow>): (r: seq<QuizRow>)
    ensures SortedByDay(r) && multiset(r) == multiset(s)
    decreases |s|
  {
    if |s| == 0 then []
    else
      assert s == [s[0]] + s[1..];
      var t := SortByDay(s[1..]);
      InsertKeepsSorted(s[0], t);
      InsertByDay(s[0], t)
  }

  function IsActive(q: QuizRow): bool { q.isActive }

  /**
   * The quizzes the dashboard lists: the active rows of `quizzes`, ordered by
   * unlock day.
   */
  function ListedQuizzes(rows: seq<QuizRow>): (r: seq<QuizRow>)
    ensures SortedByDay(r)
    ensures forall q :: q in r <==> q in rows && q.isActive
    ensures multiset(r) == multiset(FilterBy(rows, IsActive, true))
  {
    var active := FilterBy(rows, IsActive, true);
    var r := SortByDay(active);
    assert forall q :: q in r <==> q in active by {
      forall q ensures q in r <==> q in active {
        assert q in r <==> q in multiset(r);
        assert q in active <==> q in multiset(active);
      }
    }
    r
  }

  // ------------------------------------------------------------ interaction

  /** The mission name the card shows, `J` followed by the unlock day. */
  function MissionName(quiz: QuizRow): string {
    "J" + ShowInt(quiz.unlockDay)
  }

  /**
   * A click on a quiz card as written: it reports the quiz's row id when the
   * card is available, and nothing otherwise.
   */
  function CardClickAsWritten(quiz: QuizRow, completed: seq<Id>, user: Option<Profile>, now: int): (r: Option<string>)
    ensures r.Some? <==> StatusOf(quiz, completed, user, now) == Available
    ensures r.Some? ==> r.value == quiz.id
  {
    if StatusOf(quiz, completed, user, now) == Available then Some(quiz.id) else None
  }

  /**
   * The quiz screen reads the day of the quiz to open from the mission id
   * (`parseInt` after dropping a `J`). A row id is not such a name: a row
   * with id "3f2a" and unlock day 1, clicked at the registration instant,
   * opens the day-3 quiz.
   */
  lemma CardClickAsWrittenOpensOtherDay(user: Profile)
    ensures var quiz := QuizRow("3f2a", "Mission", 715, 1, true);
      CardClickAsWritten(quiz, [], Some(user), user.createdAt) == Some("3f2a")
      && ParseInt(ReplaceFirst("3f2a", 'J')) == Some(3)
      && ParseInt(ReplaceFirst(CardClick(quiz, [], Some(user), user.createdAt).value, 'J')) == Some(1)
  {
    var quiz := QuizRow("3f2a", "Mission", 715, 1, true);
    DayOneOpenAtRegistration(quiz, [], user);
    assert ReplaceFirst("3f2a", 'J') == "3f2a";
    assert Show(3) + "f2a" == "3f2a";
    ParseIntShow(3, "f2a");
  }

  /**
   * A click on a quiz card, reporting the mission name the quiz screen
   * expects. It fires exactly for a non-passed quiz whose unlock instant has
   * been reached.
   */
  function CardClick(quiz: QuizRow, completed: seq<Id>, user: Option<Profile>, now: int): (r: Option<string>)
    ensures r.Some? <==>
      quiz.id !in completed && user.Some? && now >= UnlockInstant(user.value.createdAt, quiz.unlockDay)
    ensures r.Some? ==> ParseInt(ReplaceFirst(r.value, 'J')) == Some(quiz.unlockDay)
  {
    if StatusOf(quiz, completed, user, now) == Available then
      ParseIntShowInt(quiz.unlockDay);
      Some(MissionName(quiz))
    else None
  }

  /**
   * The "Available" counter: 0 once all missions are done, otherwise the
   * seven missions minus those passed, which is negative only when more than
   * seven passes are recorded.
   */
  function AvailableCounter(user: Profile, completed: seq<Id>): (n: int)
    ensures user.missionsCompleted ==> n == 0
    ensures !user.missionsCompleted ==> n + |completed| == 7
    ensures n >= 0 <==> user.missionsCompleted || |completed| <= 7
  {
    if user.missionsCompleted then 0 else 7 - |completed|
  }

  /**
   * The book-appointment button: shown when all missions are done and the
   * fetched `appointment_enabled` setting is true (an absent setting, `None`,
   * counts as false).
   */
  function AppointmentButtonShown(user: Profile, appointmentEnabled: Option<bool>): (shown: bool)
    ensures shown ==> user.missionsCompleted
    ensures shown <==> user.missionsCompleted && appointmentEnabled == Some(true)
  {
    user.missionsCompleted && appointmentEnabled.Some? && appointmentEnabled.value
  }
}
