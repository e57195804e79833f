/**
 * The referral card of the legacy dashboard: the share link, the referral
 * count against the platform-wide cap (0 meaning unlimited), the capped
 * progress bar and the choice between the share actions and the
 * "limit reached" panel.
 */
module Referral {
  import opened Common
  import opened Records
  import Fixtures

  const LINK_PREFIX: string := "https://trustmission.com/register?ref="

  /** A cap of 0 means unlimited; otherwise the count must still be below the cap. */
  predicate CanRefer(count: nat, maxReferrals: int) {
    maxReferrals == 0 || count < maxReferrals
  }

  /** The progress bar is drawn only for a positive cap. */
  predicate ProgressShown(maxReferrals: int) {
    maxReferrals > 0
  }

  /** `Math.min((count / max) * 100, 100)`, for a positive cap. */
  function ProgressWidth(count: nat, maxReferrals: int): (w: real)
    requires maxReferrals > 0
    ensures 0.0 <= w <= 100.0
    ensures w == 100.0 <==> count >= maxReferrals
    ensures w < 100.0 ==> w == (count as real / maxReferrals as real) * 100.0
  {
    var pct := (count as real / maxReferrals as real) * 100.0;
    if pct < 100.0 then pct else 100.0
  }

  /** What replaces the referral code box and share buttons. */
  datatype Panel = ShareActions | LimitReached

  /** The rendered card. `width` is absent when no bar is drawn. */
  datatype Card = Card(link: string, count: nat, maxReferrals: int, canRefer: bool, width: Option<real>, panel: Panel)

  /**
   * The card for the signed-in user, against the cap `maxReferrals`; there is
   * no card without a user.
   */
  function CardFor(user: Option<Account>, maxReferrals: int): (r: Option<Card>)
    ensures user.None? <==> r.None?
    ensures r.Some? ==> r.value.count == |user.value.referredUsers| && r.value.maxReferrals == maxReferrals
    ensures r.Some? ==> r.value.link == LINK_PREFIX + user.value.referralCode
    ensures r.Some? ==> (r.value.panel == LimitReached <==> !r.value.canRefer)
    ensures r.Some? ==> (r.value.width.Some? <==> ProgressShown(maxReferrals))
  {
    if user.None? then None
    else
      var count := |user.value.referredUsers|;
      var can := CanRefer(count, maxReferrals);
      Some(Card(LINK_PREFIX + user.value.referralCode, count, maxReferrals, can,
                if maxReferrals > 0 then Some(ProgressWidth(count, maxReferrals)) else None,
                if can then ShareActions else LimitReached))
  }

  /** The card as the dashboard shows it: the cap is the platform setting of the fixtures. */
  function SectionFor(user: Option<Account>): (r: Option<Card>)
    ensures r.Some? ==> r.value.maxReferrals == Fixtures.ADMIN_SETTINGS.maxReferrals
  {
    CardFor(user, Fixtures.ADMIN_SETTINGS.maxReferrals)
  }

  /** With a cap of 0, every user can refer and no bar is drawn. */
  lemma ZeroCapIsUnlimited(user: Account)
    ensures CardFor(Some(user), 0).value.canRefer
    ensures CardFor(Some(user), 0).value.width.None?
    ensures CardFor(Some(user), 0).value.panel == ShareActions
  {
  }

  /** Under a positive cap, the bar is full exactly when referring is no longer possible. */
  lemma FullBarIffLimitReached(user: Account, maxReferrals: int)
    requires maxReferrals > 0
    ensures CardFor(Some(user), maxReferrals).value.width == Some(100.0) <==>
      CardFor(Some(user), maxReferrals).value.panel == LimitReached
  {
  }

  /** The user's own `maxReferrals` field plays no part: the cap is platform-wide. */
  lemma CapIsGlobal(user: Account, own: int)
    ensures SectionFor(Some(user)) == SectionFor(Some(user.(maxReferrals := own)))
  {
  }

  /**
   * With the platform cap of 3, the fixture user with two referrals may
   * still refer, and a third referral reaches the limit.
   */
  lemma FixtureCapExamples()
    ensures SectionFor(Some(Fixtures.JOHN)).value.canRefer
    ensures !SectionFor(Some(Fixtures.JOHN.(referredUsers := Fixtures.JOHN.referredUsers + ["4"]))).value.canRefer
  {
    assert |Fixtures.JOHN.referredUsers| == 2;
  }
}
