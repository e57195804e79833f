/**
 * The admin overview: the statistics computed from the fetched tables, the
 * five most recent users and withdrawal requests, and the "Action
 * Required" alert.
 */
module AdminDashboard {
  import opened Common
  import opened Records
  import opened AdminTables
  import UserManagement
  import WithdrawalManagement
  import AppointmentManagement

  datatype Stats = Stats(
    totalUsers: int,
    pendingUsers: int,
    approvedUsers: int,
    pendingWithdrawals: int,
    totalEarnings: int,
    pendingAppointments: int,
    totalQuizzes: int)

  const INITIAL_STATS: Stats := Stats(0, 0, 0, 0, 0, 0, 0)

  /** `users.reduce((sum, user) => sum + user.total_balance, 0)`. */
  function TotalEarnings(users: seq<Profile>): int
    decreases |users|
  {
    if |users| == 0 then 0 else users[0].totalBalance + TotalEarnings(users[1..])
  }

  /** `rows.slice(0, 5)`. */
  function Recent<R>(rows: seq<R>): (r: seq<R>)
    ensures |r| == if |rows| < 5 then |rows| else 5
    ensures r <= rows
  {
    if |rows| < 5 then rows else rows[..5]
  }

  /**
   * `sub` holds the latest rows of `rows`: in stamp order, and no row left
   * out is later than a row kept.
   */
  predicate LatestOf<R(==)>(sub: seq<R>, rows: seq<R>, stamp: R -> int) {
    Descending(sub, stamp)
    && forall x, y :: x in sub && y in rows && y !in sub ==> stamp(y) <= stamp(x)
  }

  /** The first five of a list in stamp order are its five latest. */
  lemma RecentAreNewest<R>(rows: seq<R>, stamp: R -> int)
    requires Descending(rows, stamp)
    ensures LatestOf(Recent(rows), rows, stamp)
  {
    var r := Recent(rows);
    forall x, y | x in r && y in rows && y !in r
      ensures stamp(y) <= stamp(x)
    {
      var i :| 0 <= i < |r| && r[i] == x;
      var j :| 0 <= j < |rows| && rows[j] == y;
      assert rows[i] == x;
      if j < |r| {
        assert false;
      }
    }
  }

  /** The number of rows a result holds, 0 for a failed query (`data?.length || 0`). */
  function SizeOf<R>(rows: Option<seq<R>>): (n: nat)
    ensures rows.Some? ==> n == |rows.value|
    ensures rows.None? ==> n == 0
  {
    if rows.Some? then |rows.value| else 0
  }

  /** What `fetchDashboardData` leaves: the statistics and the two recent lists. */
  datatype Overview = Overview(stats: Stats, recentUsers: seq<Profile>, recentWithdrawals: seq<WithdrawalRequest>)

  /**
   * `fetchDashboardData`, from the four query results (`None` for a failed
   * query) and the state before. The appointment query asks for the pending
   * rows only. Without the users result the statistics and the recent users
   * stay as they were.
   */
  function Fetch(users: Option<seq<Profile>>, withdrawals: Option<seq<WithdrawalRequest>>,
                 appointments: Option<seq<Appointment>>, quizzes: Option<seq<QuizRow>>, before: Overview): (o: Overview)
    ensures users.None? ==> o.stats == before.stats && o.recentUsers == before.recentUsers
    ensures users.Some? ==>
      o.stats.totalUsers == |users.value|
      && o.stats.pendingUsers == CountBy(users.value, UserManagement.StatusOf, Pending)
      && o.stats.approvedUsers == CountBy(users.value, UserManagement.StatusOf, Approved)
      && o.stats.totalEarnings == TotalEarnings(users.value)
      && o.stats.totalQuizzes == SizeOf(quizzes)
      && o.recentUsers == Recent(users.value)
    ensures users.Some? && withdrawals.Some? ==>
      o.stats.pendingWithdrawals == CountBy(withdrawals.value, WithdrawalManagement.StatusOf, Pending)
    ensures users.Some? && withdrawals.None? ==> o.stats.pendingWithdrawals == 0
    ensures users.Some? ==>
      o.stats.pendingAppointments ==
        if appointments.Some? then CountBy(appointments.value, AppointmentManagement.StatusOf, AppointmentPending) else 0
    ensures o.recentWithdrawals == if withdrawals.Some? then Recent(withdrawals.value) else before.recentWithdrawals
  {
    var pendingQuery := if appointments.Some?
      then Some(FilterBy(appointments.value, AppointmentManagement.StatusOf, AppointmentPending)) else None;
    var stats := if users.None? then before.stats else
      Stats(|users.value|,
            CountBy(users.value, UserManagement.StatusOf, Pending),
            CountBy(users.value, UserManagement.StatusOf, Approved),
            if withdrawals.Some? then CountBy(withdrawals.value, WithdrawalManagement.StatusOf, Pending) else 0,
            TotalEarnings(users.value),
            SizeOf(pendingQuery),
            SizeOf(quizzes));
    Overview(stats,
             if users.Some? then Recent(users.value) else before.recentUsers,
             if withdrawals.Some? then Recent(withdrawals.value) else before.recentWithdrawals)
  }

  /**
   * Both queries sort newest first (`created_at` and `requested_at`
   * descending), so the two recent lists are the five newest users and
   * the five newest withdrawal requests.
   */
  lemma RecentListsAreNewest(users: Option<seq<Profile>>, withdrawals: Option<seq<WithdrawalRequest>>,
                             appointments: Option<seq<Appointment>>, quizzes: Option<seq<QuizRow>>, before: Overview)
    requires users.Some? ==> Descending(users.value, UserManagement.CreatedAt)
    requires withdrawals.Some? ==> Descending(withdrawals.value, WithdrawalManagement.RequestedAt)
    ensures var o := Fetch(users, withdrawals, appointments, quizzes, before);
      (users.Some? ==> LatestOf(o.recentUsers, users.value, UserManagement.CreatedAt))
      && (withdrawals.Some? ==> LatestOf(o.recentWithdrawals, withdrawals.value, WithdrawalManagement.RequestedAt))
  {
    if users.Some? {
      RecentAreNewest(users.value, UserManagement.CreatedAt);
    }
    if withdrawals.Some? {
      RecentAreNewest(withdrawals.value, WithdrawalManagement.RequestedAt);
    }
  }

  /** The "Action Required" alert. */
  predicate AlertShown(s: Stats) {
    s.pendingUsers > 0 || s.pendingWithdrawals > 0 || s.pendingAppointments > 0
  }

  /** Pending and approved accounts never outnumber all accounts. */
  lemma PendingAndApprovedWithinTotal(users: Option<seq<Profile>>, withdrawals: Option<seq<WithdrawalRequest>>,
                                      appointments: Option<seq<Appointment>>, quizzes: Option<seq<QuizRow>>)
    requires users.Some?
    ensures var s := Fetch(users, withdrawals, appointments, quizzes, Overview(INITIAL_STATS, [], [])).stats;
      s.pendingUsers + s.approvedUsers <= s.totalUsers
  {
    UserManagement.TabCountsAddUp(users.value);
  }

  /** The total earnings split exactly over the three review states. */
  lemma {:induction false} EarningsByStatus(users: seq<Profile>)
    ensures TotalEarnings(users) ==
      TotalEarnings(FilterBy(users, UserManagement.StatusOf, Pending))
      + TotalEarnings(FilterBy(users, UserManagement.StatusOf, Approved))
      + TotalEarnings(FilterBy(users, UserManagement.StatusOf, Rejected))
    decreases |users|
  {
    if |users| > 0 {
      EarningsByStatus(users[1..]);
      FilteredEarningsStep(users, Pending);
      FilteredEarningsStep(users, Approved);
      FilteredEarningsStep(users, Rejected);
    }
  }

  lemma FilteredEarningsStep(users: seq<Profile>, st: ReviewStatus)
    requires |users| > 0
    ensures TotalEarnings(FilterBy(users, UserManagement.StatusOf, st)) ==
      (if users[0].status == st then users[0].totalBalance else 0)
      + TotalEarnings(FilterBy(users[1..], UserManagement.StatusOf, st))
  {
    var tail := FilterBy(users[1..], UserManagement.StatusOf, st);
    if users[0].status == st {
      assert FilterBy(users, UserManagement.StatusOf, st) == [users[0]] + tail;
      assert ([users[0]] + tail)[1..] == tail;
    } else {
      assert FilterBy(users, UserManagement.StatusOf, st) == tail;
    }
  }

  /** With no negative balance the total is never negative. */
  lemma {:induction false} EarningsNonNegative(users: seq<Profile>)
    requires forall i :: 0 <= i < |users| ==> users[i].totalBalance >= 0
    ensures TotalEarnings(users) >= 0
    decreases |users|
  {
    if |users| > 0 {
      EarningsNonNegative(users[1..]);
    }
  }

  /** The alert appears exactly when some account, request or appointment waits for an admin. */
  lemma AlertIffSomethingPending(users: seq<Profile>, withdrawals: seq<WithdrawalRequest>,
                                 appointments: seq<Appointment>, quizzes: Option<seq<QuizRow>>)
    ensures AlertShown(Fetch(Some(users), Some(withdrawals), Some(appointments), quizzes, Overview(INITIAL_STATS, [], [])).stats) <==>
      (exists u :: u in users && u.status == Pending)
      || (exists w :: w in withdrawals && w.status == Pending)
      || (exists a :: a in appointments && a.status == AppointmentPending)
  {
    var pu := FilterBy(users, UserManagement.StatusOf, Pending);
    var pw := FilterBy(withdrawals, WithdrawalManagement.StatusOf, Pending);
    var pa := FilterBy(appointments, AppointmentManagement.StatusOf, AppointmentPending);
    if |pu| > 0 { assert pu[0] in pu; }
    if |pw| > 0 { assert pw[0] in pw; }
    if |pa| > 0 { assert pa[0] in pa; }
  }
}
