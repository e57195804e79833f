/**
 * The entities the application reads and writes. Euro amounts are integer
 * cents and instants are integer milliseconds since the epoch.
 */
module Records {
  import opened Common

  /** The review state of an account and of a withdrawal request. */
  datatype ReviewStatus = Pending | Approved | Rejected

  /**
   * A row of the `users` table, with the account context's camel-case field
   * names; the signed-in user of the account context is one of these plus an
   * admin flag.
   */
  datatype Profile = Profile(
    id: Id,
    email: string,
    firstName: string,
    lastName: string,
    dateOfBirth: string,
    whatsapp: string,
    referralCode: string,
    usedReferralCode: Option<string>,
    status: ReviewStatus,
    kycPhotos: map<string, string>,
    contractSigned: bool,
    welcomeBonus: int,
    quizEarnings: int,
    referralEarnings: int,
    totalBalance: int,
    withdrawableAmount: int,
    maxReferrals: int,
    missionsCompleted: bool,
    createdAt: int)

  /** The balance is the sum of its three sources and bounds what may be withdrawn. */
  predicate Balanced(welcomeBonus: int, quizEarnings: int, referralEarnings: int,
                     totalBalance: int, withdrawableAmount: int) {
    totalBalance == welcomeBonus + quizEarnings + referralEarnings
    && 0 <= withdrawableAmount <= totalBalance
  }

  /** A profile's ledger is balanced. */
  predicate LedgerConsistent(p: Profile) {
    Balanced(p.welcomeBonus, p.quizEarnings, p.referralEarnings, p.totalBalance, p.withdrawableAmount)
  }

  /**
   * The user record of the legacy dashboard and quiz page, which also carries
   * the ids of the passed quizzes and of the referred users.
   */
  datatype Account = Account(
    id: Id,
    firstName: string,
    lastName: string,
    email: string,
    referralCode: string,
    status: ReviewStatus,
    welcomeBonus: int,
    quizEarnings: int,
    referralEarnings: int,
    totalBalance: int,
    withdrawableAmount: int,
    completedQuizzes: seq<int>,
    referredUsers: seq<Id>,
    createdAt: int,
    maxReferrals: int,
    missionsCompleted: bool)

  /** An account's ledger is balanced, as a profile's is. */
  predicate AccountLedgerConsistent(u: Account) {
    Balanced(u.welcomeBonus, u.quizEarnings, u.referralEarnings, u.totalBalance, u.withdrawableAmount)
  }

  /** A row of the `quizzes` table. */
  datatype QuizRow = QuizRow(id: Id, title: string, reward: int, unlockDay: int, isActive: bool)

  /** A row of the `quiz_questions` table. */
  datatype QuestionRow = QuestionRow(
    id: Id, quizId: Id, question: string, options: seq<string>, correctAnswer: int, orderIndex: int)

  /** A quiz of the built-in fixture list, with numeric ids and inline questions. */
  datatype MockQuiz = MockQuiz(id: int, title: string, reward: int, unlockDay: int, questions: seq<MockQuestion>)

  datatype MockQuestion = MockQuestion(question: string, options: seq<string>, correctAnswer: int)

  /** A row of the `withdrawal_requests` table. */
  datatype WithdrawalRequest = WithdrawalRequest(
    id: Id, userId: Id, amount: int, accountHolder: string, iban: string, bic: string,
    status: ReviewStatus, adminNotes: Option<string>, requestedAt: int, processedAt: Option<int>)

  datatype AppointmentStatus = AppointmentPending | Confirmed | Cancelled

  /** A row of the `appointments` table. */
  datatype Appointment = Appointment(
    id: Id, userId: Id, preferredDate: string, preferredTime: string, message: Option<string>,
    status: AppointmentStatus, adminNotes: Option<string>, createdAt: int, updatedAt: int)
}
