/**
 * The page navigation of the mobile-style front end: which of the eight
 * pages is shown, the mission chosen on the dashboard, the handlers that
 * move between pages, the redirect of an approved user away from the
 * sign-in page, and what each page is given to render.
 */
module ModernApp {
  import opened Common
  import opened Records

  datatype Page = Auth | Register | Dashboard | Mission | Quiz | Withdrawal | Referral | Enterprise

  /** The mission the app starts with. */
  const FIRST_MISSION: string := "J1"

  /** `handleBack`: the page a back action leads to. */
  function BackOf(p: Page): (q: Page)
    ensures p in {Mission, Withdrawal, Referral} ==> q == Dashboard
    ensures p == Quiz ==> q == Mission
    ensures p in {Register, Enterprise} ==> q == Auth
    ensures p in {Auth, Dashboard} ==> q == p
  {
    match p
    case Mission => Dashboard
    case Withdrawal => Dashboard
    case Referral => Dashboard
    case Quiz => Mission
    case Register => Auth
    case Enterprise => Auth
    case _ => p
  }

  /**
   * Going back never leaves for a page further away from home: two back
   * actions always reach the sign-in page or the dashboard, and there
   * going back does nothing more.
   */
  lemma BackReachesHome(p: Page)
    ensures BackOf(BackOf(p)) in {Auth, Dashboard}
    ensures BackOf(BackOf(BackOf(p))) == BackOf(BackOf(p))
    ensures BackOf(p) == p <==> p in {Auth, Dashboard}
  {
  }

  /** What a page is rendered with. */
  datatype Screen =
    | AuthForm
    | Registration
    | DashboardView
    | MissionDetail(missionId: string)
    | QuizView(missionId: string)
    | WithdrawalView(balance: int)
    | ReferralView
    | EnterpriseView

  /**
   * `renderPage`: the mission pages receive the chosen mission, the
   * withdrawal page the user's withdrawable amount (`|| 0`, so 0 without a
   * user); the other pages take only handlers, which are the methods of
   * `App`, so their screens carry no data.
   */
  function Render(p: Page, mission: string, user: Option<Account>): (s: Screen)
    ensures p == Withdrawal ==> s == WithdrawalView(if user.Some? then user.value.withdrawableAmount else 0)
    ensures p == Mission ==> s == MissionDetail(mission)
    ensures p == Quiz ==> s == QuizView(mission)
    ensures p == Auth ==> s == AuthForm
    ensures p == Register ==> s == Registration
    ensures p == Dashboard ==> s == DashboardView
    ensures p == Referral ==> s == ReferralView
    ensures p == Enterprise ==> s == EnterpriseView
  {
    match p
    case Auth => AuthForm
    case Register => Registration
    case Dashboard => DashboardView
    case Mission => MissionDetail(mission)
    case Quiz => QuizView(mission)
    case Withdrawal => WithdrawalView(if user.Some? then user.value.withdrawableAmount else 0)
    case Referral => ReferralView
    case Enterprise => EnterpriseView
  }

  /** Every page renders its own screen: no two pages share one. */
  lemma RenderDistinguishesPages(p: Page, q: Page, mission: string, user: Option<Account>)
    requires Render(p, mission, user) == Render(q, mission, user)
    ensures p == q
  {
  }

  /** The app with its current page and mission. */
  class App {
    var page: Page
    var mission: string

    constructor ()
      ensures page == Auth && mission == FIRST_MISSION
    {
      page := Auth;
      mission := FIRST_MISSION;
    }

    /** Sign-in from the form (its checks are the form's own): the dashboard. */
    method Login()
      modifies this
      ensures page == Dashboard && mission == old(mission)
    {
      page := Dashboard;
    }

    method Logout()
      modifies this
      ensures page == Auth && mission == old(mission)
    {
      page := Auth;
    }

    method RegisterStart()
      modifies this
      ensures page == Register && mission == old(mission)
    {
      page := Register;
    }

    /** A finished registration leads back to sign-in, not to the dashboard. */
    method RegistrationComplete()
      modifies this
      ensures page == Auth && mission == old(mission)
    {
      page := Auth;
    }

    /** `handleMissionClick(id)`: the mission is recorded and its page opens. */
    method MissionClick(missionId: string)
      modifies this
      ensures page == Mission && mission == missionId
    {
      mission := missionId;
      page := Mission;
    }

    method StartQuiz()
      modifies this
      ensures page == Quiz && mission == old(mission)
    {
      page := Quiz;
    }

    /** The timer `handleQuizComplete` sets, when it fires, returns to the dashboard. */
    method QuizTimerFired()
      modifies this
      ensures page == Dashboard && mission == old(mission)
    {
      page := Dashboard;
    }

    method WithdrawClick()
      modifies this
      ensures page == Withdrawal && mission == old(mission)
    {
      page := Withdrawal;
    }

    method SponsorClick()
      modifies this
      ensures page == Referral && mission == old(mission)
    {
      page := Referral;
    }

    method EnterpriseClick()
      modifies this
      ensures page == Enterprise && mission == old(mission)
    {
      page := Enterprise;
    }

    /** `handleBack`; the chosen mission is kept, so the quiz leads back to its own mission page. */
    method Back()
      modifies this
      ensures page == BackOf(old(page)) && mission == old(mission)
    {
      if page == Mission || page == Withdrawal || page == Referral {
        page := Dashboard;
      } else if page == Quiz {
        page := Mission;
      } else if page == Register || page == Enterprise {
        page := Auth;
      }
    }

    /**
     * The check made on every render once loading is over: an approved
     * user on the sign-in page is sent to the dashboard; nothing else moves.
     */
    method Redirect(user: Option<Account>, loading: bool)
      modifies this
      ensures mission == old(mission)
      ensures !loading && user.Some? && user.value.status == Approved && old(page) == Auth ==> page == Dashboard
      ensures loading || user.None? || user.value.status != Approved || old(page) != Auth ==> page == old(page)
    {
      if !loading && user.Some? && user.value.status == Approved && page == Auth {
        page := Dashboard;
      }
    }
  }
}
