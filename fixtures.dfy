/**
 * The built-in demonstration data: three users, the seven quizzes of the
 * legacy quiz page, one withdrawal request and the platform settings,
 * with the ledger identities they are meant to satisfy.
 */
module Fixtures {
  import opened Common
  import opened Records
  import QuizProgress
  import QuizPage

  /** The platform settings record of the demonstration data. */
  datatype PlatformSettings = PlatformSettings(
    maxReferrals: int,
    minWithdrawal: int,
    quizReward: int,
    referralReward: int,
    welcomeBonus: int,
    completionMessage: string,
    appointmentEnabled: bool,
    supportWhatsAppNumber: string)

  const ADMIN_SETTINGS: PlatformSettings := PlatformSettings(
    3, 5000, 715, 2000, 1500,
    "\U{1F389} Congratulations! You've completed all 7 missions and earned your full rewards. To continue your journey with TrustMission and unlock additional earning opportunities, please book an appointment with our team.",
    true, "+1234567890")

  /** An approved user who passed all seven quizzes and referred two users. */
  const JOHN: Account := Account(
    "1", "John", "Doe", "john@example.com", "JOHN2024", Approved,
    1500, 5005, 4000, 10505, 10505,
    [1, 2, 3, 4, 5, 6, 7], ["2", "3"], 1705312800000, 3, true)

  /** An approved user who passed the first three quizzes. */
  const JANE: Account := Account(
    "2", "Jane", "Smith", "jane@example.com", "JANE2024", Approved,
    1500, 2145, 0, 3645, 3645,
    [1, 2, 3], [], 1705588200000, 5, false)

  /** A user still under review, with an empty ledger. */
  const ALEX: Account := Account(
    "3", "Alex", "Johnson", "alex@example.com", "ALEX2024", Pending,
    0, 0, 0, 0, 0,
    [], [], 1705914900000, 3, false)

  const MOCK_USERS: seq<Account> := [JOHN, JANE, ALEX]

  const MOCK_QUIZZES: seq<MockQuiz> := [
    MockQuiz(1, "Digital Marketing Basics", 715, 1, [
      MockQuestion("What does SEO stand for?",
        ["Search Engine Optimization", "Social Engine Optimization", "Search Engine Operation", "Social Engine Operation"], 0),
      MockQuestion("Which platform is best for B2B marketing?", ["Instagram", "TikTok", "LinkedIn", "Snapchat"], 2)]),
    MockQuiz(2, "Social Media Strategy", 715, 2, [
      MockQuestion("What is the best time to post on social media?",
        ["Early morning", "During lunch hours", "Evening", "It depends on your audience"], 3)]),
    MockQuiz(3, "Content Creation", 715, 3, [
      MockQuestion("What makes content viral?",
        ["Luck", "Timing and relevance", "Expensive production", "Celebrity endorsement"], 1)]),
    MockQuiz(4, "Email Marketing", 715, 4, [
      MockQuestion("What is a good email open rate?", ["5-10%", "15-25%", "30-40%", "50-60%"], 1)]),
    MockQuiz(5, "Analytics & Metrics", 715, 5, [
      MockQuestion("What is CTR?",
        ["Click Through Rate", "Cost Through Rate", "Customer Through Rate", "Content Through Rate"], 0)]),
    MockQuiz(6, "Paid Advertising", 715, 6, [
      MockQuestion("What is CPC?", ["Cost Per Click", "Cost Per Customer", "Cost Per Campaign", "Cost Per Conversion"], 0)]),
    MockQuiz(7, "Marketing Automation", 715, 7, [
      MockQuestion("What is a marketing funnel?",
        ["A tool for cooking", "A customer journey visualization", "A type of advertisement", "A social media feature"], 1)])
  ]

  /** The pending withdrawal request of the first user. */
  const MOCK_WITHDRAWAL: WithdrawalRequest := WithdrawalRequest(
    "w1", "1", 9075, "John Doe", "DE89370400440532013000", "COBADEFFXXX", Pending, None, 1705744800000, None)

  /** The sum of the rewards of a quiz list. */
  function TotalReward(qs: seq<MockQuiz>): int
    decreases |qs|
  {
    if |qs| == 0 then 0 else qs[0].reward + TotalReward(qs[1..])
  }

  /** A list of quizzes with one common reward pays that reward once per quiz. */
  lemma {:induction false} UniformRewardTotal(qs: seq<MockQuiz>, reward: int)
    requires forall i :: 0 <= i < |qs| ==> qs[i].reward == reward
    ensures TotalReward(qs) == reward * |qs|
    decreases |qs|
  {
    if |qs| > 0 {
      UniformRewardTotal(qs[1..], reward);
    }
  }

  /**
   * Seven quizzes, unlocking on days 1 to 7 in order, each paying the
   * platform quiz reward.
   */
  lemma QuizSchedule()
    ensures |MOCK_QUIZZES| == 7
    ensures forall i :: 0 <= i < |MOCK_QUIZZES| ==> MOCK_QUIZZES[i].unlockDay == i + 1 && MOCK_QUIZZES[i].id == i + 1
    ensures forall i :: 0 <= i < |MOCK_QUIZZES| ==> MOCK_QUIZZES[i].reward == ADMIN_SETTINGS.quizReward
  {
  }

  /** All seven quizzes together pay 50.05 euros, the total the progress card promises. */
  lemma QuizTotal()
    ensures TotalReward(MOCK_QUIZZES) == 5005
  {
    QuizSchedule();
    UniformRewardTotal(MOCK_QUIZZES, ADMIN_SETTINGS.quizReward);
  }

  /** Every correct answer of the fixtures is an index into its question's options. */
  lemma AnswersAreOptionIndices()
    ensures forall i, j :: 0 <= i < |MOCK_QUIZZES| && 0 <= j < |MOCK_QUIZZES[i].questions| ==>
      0 <= MOCK_QUIZZES[i].questions[j].correctAnswer < |MOCK_QUIZZES[i].questions[j].options|
  {
  }

  /** Every fixture user's balance is the sum of its three sources and bounds the withdrawable amount. */
  lemma FixtureLedgers()
    ensures forall u :: u in MOCK_USERS ==> AccountLedgerConsistent(u)
  {
  }

  /**
   * Quiz earnings are the quiz reward once per passed quiz, approved users
   * may withdraw their whole balance, and the pending user has nothing.
   */
  lemma FixtureEarnings()
    ensures forall u :: u in MOCK_USERS ==> u.quizEarnings == ADMIN_SETTINGS.quizReward * |u.completedQuizzes|
    ensures forall u :: u in MOCK_USERS && u.status == Approved ==> u.withdrawableAmount == u.totalBalance
    ensures forall u :: u in MOCK_USERS && u.status == Pending ==>
      u.welcomeBonus == 0 && u.quizEarnings == 0 && u.referralEarnings == 0 && u.totalBalance == 0 && u.withdrawableAmount == 0
  {
  }

  /** Only the user who passed all seven quizzes has the missions flag, and that user's progress bar is full. */
  lemma FixtureMissions()
    ensures forall u :: u in MOCK_USERS ==> (u.missionsCompleted <==> |u.completedQuizzes| == QuizProgress.TOTAL_QUIZZES)
    ensures QuizProgress.ProgressPercentage(JOHN) == 100.0
    ensures forall id :: id in QuizProgress.QUIZ_IDS ==> id in JOHN.completedQuizzes
  {
    QuizProgress.FullProgressIffAllPassed(JOHN);
  }
}
