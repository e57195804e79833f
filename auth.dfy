/**
 * The account context: referral codes, registration with its bounded search
 * for an unused code, the approved-only login, the fixed admin login and the
 * profile update.
 */
module Auth {
  import opened Common
  import opened Records

  // ---------------------------------------------------------- referral codes

  /** The characters a referral code is drawn from. */
  const ALPHABET: string := "ABCDEFGHIJKLMNOPQRSTUVWXYZ0123456789"

  const CODE_LENGTH: nat := 8

  /** The number of existence checks before registration gives up. */
  const MAX_ATTEMPTS: nat := 10

  /** The character at position `k` of the alphabet: letters first, then digits. */
  function AlphabetChar(k: nat): char
    requires k < 36
  {
    if k < 26 then ('A' as int + k) as char else ('0' as int + (k - 26)) as char
  }

  lemma AlphabetLayout()
    ensures |ALPHABET| == 36
    ensures forall k :: 0 <= k < 36 ==> ALPHABET[k] == AlphabetChar(k)
  {
  }

  /** A referral code: eight characters from `A`-`Z` and `0`-`9`. */
  predicate IsReferralCode(code: string) {
    |code| == CODE_LENGTH && forall i :: 0 <= i < |code| ==> IsUpperAlnum(code[i])
  }

  /** The code spelled by a sequence of alphabet positions. */
  function CodeOf(draws: seq<nat>): (code: string)
    requires forall i :: 0 <= i < |draws| ==> draws[i] < 36
    ensures |code| == |draws|
  {
    seq(|draws|, i requires 0 <= i < |draws| => ALPHABET[draws[i]])
  }

  /**
   * `generateReferralCode`: for each of the eight positions, the character
   * at `Math.floor(Math.random() * 36)`. The eight random positions are the
   * input `draws`.
   */
  method GenerateReferralCode(draws: seq<nat>) returns (code: string)
    requires |draws| == CODE_LENGTH
    requires forall i :: 0 <= i < |draws| ==> draws[i] < 36
    ensures code == CodeOf(draws)
    ensures IsReferralCode(code)
  {
    AlphabetLayout();
    code := "";
    for i := 0 to CODE_LENGTH
      invariant |code| == i
      invariant forall k :: 0 <= k < i ==> code[k] == ALPHABET[draws[k]]
    {
      code := code + [ALPHABET[draws[i]]];
    }
  }

  /** The alphabet position of a code character. */
  function PositionOf(c: char): (k: nat)
    requires IsUpperAlnum(c)
    ensures k < 36 && AlphabetChar(k) == c
  {
    if IsUpper(c) then c as int - 'A' as int else 26 + (c as int - '0' as int)
  }

  /** Every referral code can come out of the generator: it is onto the code space. */
  lemma EveryCodeGenerable(code: string)
    requires IsReferralCode(code)
    ensures exists draws: seq<nat> ::
      |draws| == CODE_LENGTH && (forall i :: 0 <= i < |draws| ==> draws[i] < 36) && CodeOf(draws) == code
  {
    AlphabetLayout();
    var draws := seq(|code|, i requires 0 <= i < |code| => PositionOf(code[i]));
    assert CodeOf(draws) == code;
  }

  // ------------------------------------------------- uniqueness of the code

  /** The users holding a given referral code. */
  function HoldersOf(users: map<Id, Profile>, code: string): set<Id> {
    set id | id in users && users[id].referralCode == code
  }

  /**
   * The lookup `.eq('referral_code', code).maybeSingle()` returns a row
   * exactly when one user holds the code (with two or more it returns an
   * error and no row).
   */
  predicate Claimed(users: map<Id, Profile>, code: string) {
    |HoldersOf(users, code)| == 1
  }

  /** No two users share a referral code. */
  predicate CodesUnique(users: map<Id, Profile>) {
    forall a, b :: a in users && b in users && users[a].referralCode == users[b].referralCode ==> a == b
  }

  /** While codes are unique, a code is claimed exactly when some user holds it. */
  lemma ClaimedIffHeld(users: map<Id, Profile>, code: string)
    requires CodesUnique(users)
    ensures Claimed(users, code) <==> exists id :: id in users && users[id].referralCode == code
  {
    if id :| id in users && users[id].referralCode == code {
      assert HoldersOf(users, code) == {id};
    } else {
      assert HoldersOf(users, code) == {};
    }
  }

  /**
   * The retry loop of `register`: check the current candidate; if some user
   * holds it, take the next one, at most ten checks in all. `candidates[0]`
   * is the first generated code and `candidates[k]` the one generated after
   * the k-th failed check.
   */
  method FindUnusedCode(users: map<Id, Profile>, candidates: seq<string>) returns (code: Option<string>, checks: nat)
    requires |candidates| == MAX_ATTEMPTS + 1
    ensures 1 <= checks <= MAX_ATTEMPTS
    ensures forall j :: 0 <= j < checks - 1 ==> Claimed(users, candidates[j])
    ensures code.Some? ==> code.value == candidates[checks - 1] && !Claimed(users, code.value)
    ensures code.None? <==> forall j :: 0 <= j < MAX_ATTEMPTS ==> Claimed(users, candidates[j])
    ensures code.None? ==> checks == MAX_ATTEMPTS
  {
    var referralCode := candidates[0];
    var isUnique := false;
    var attempts := 0;
    checks := 0;
    while !isUnique && attempts < MAX_ATTEMPTS
      invariant 0 <= attempts <= MAX_ATTEMPTS
      invariant checks == attempts + (if isUnique then 1 else 0)
      invariant isUnique ==> attempts < MAX_ATTEMPTS
      invariant referralCode == candidates[attempts]
      invariant forall j :: 0 <= j < attempts ==> Claimed(users, candidates[j])
      invariant isUnique ==> !Claimed(users, referralCode)
      decreases MAX_ATTEMPTS - attempts, if isUnique then 0 else 1
    {
      checks := checks + 1;
      if !Claimed(users, referralCode) {
        isUnique := true;
      } else {
        attempts := attempts + 1;
        referralCode := candidates[attempts];
      }
    }
    code := if isUnique then Some(referralCode) else None;
  }

  // ------------------------------------------------------------ registration

  /** What the registration form hands to `register`. */
  datatype RegisterData = RegisterData(
    email: string,
    password: string,
    firstName: string,
    lastName: string,
    dateOfBirth: string,
    whatsapp: string,
    usedReferralCode: Option<string>,
    kycPhotos: Option<map<string, string>>,
    contractSigned: Option<bool>)

  /** A row of the `referrals` table as registration creates it. */
  datatype Referral = Referral(referrerId: Id, referredId: Id, rewardPaid: bool)

  /** The outcome of the sign-up call to the authentication service. */
  datatype SignUpOutcome = SignUpRejected | SignUpNoUser | SignedUp(id: Id)

  datatype RegisterError = AuthRejected | NoAccount | NoUniqueCode | EmailTaken | ProfileRejected

  datatype RegisterResult = Registered | Failed(error: RegisterError)

  /** The welcome bonus written at registration, in cents. */
  const WELCOME_BONUS: int := 1500

  const DEFAULT_MAX_REFERRALS: int := 3

  /** `x || null` on an optional string: the empty string becomes null. */
  function NonEmpty(s: Option<string>): Option<string> {
    if s.Some? && s.value != "" then s else None
  }

  /** The profile row `register` inserts. */
  function NewProfile(id: Id, data: RegisterData, code: string, now: int): (p: Profile)
    ensures p.status == Pending && p.referralCode == code && p.id == id && p.email == data.email
    ensures p.welcomeBonus == WELCOME_BONUS && p.quizEarnings == 0 && p.referralEarnings == 0
    ensures p.totalBalance == WELCOME_BONUS && p.withdrawableAmount == 0
    ensures p.maxReferrals == DEFAULT_MAX_REFERRALS && !p.missionsCompleted
    ensures p.usedReferralCode.Some? ==> p.usedReferralCode.value != ""
  {
    Profile(
      id := id,
      email := data.email,
      firstName := data.firstName,
      lastName := data.lastName,
      dateOfBirth := data.dateOfBirth,
      whatsapp := data.whatsapp,
      referralCode := code,
      usedReferralCode := NonEmpty(data.usedReferralCode),
      status := Pending,
      kycPhotos := if data.kycPhotos.Some? then data.kycPhotos.value else map[],
      contractSigned := data.contractSigned.Some? && data.contractSigned.value,
      welcomeBonus := WELCOME_BONUS,
      quizEarnings := 0,
      referralEarnings := 0,
      totalBalance := WELCOME_BONUS,
      withdrawableAmount := 0,
      maxReferrals := DEFAULT_MAX_REFERRALS,
      missionsCompleted := false,
      createdAt := now)
  }

  /** A new profile's ledger is consistent: balance 15 = 15 + 0 + 0, nothing withdrawable. */
  lemma NewProfileLedger(id: Id, data: RegisterData, code: string, now: int)
    ensures LedgerConsistent(NewProfile(id, data, code, now))
  {
  }

  /** Some user already has this e-mail address (the `users_email_key` unique index). */
  predicate EmailInUse(users: map<Id, Profile>, email: string) {
    exists id :: id in users && users[id].email == email
  }

  /** The upper-cased code to look up, when a non-empty code was used. */
  function ReferralLookup(data: RegisterData): Option<string> {
    if data.usedReferralCode.Some? && data.usedReferralCode.value != "" then Some(ToUpper(data.usedReferralCode.value))
    else None
  }

  // ------------------------------------------------------------------ login

  /** The outcome of `signInWithPassword`. */
  datatype SignInOutcome = SignInRejected | SignInNoUser | SignedIn(id: Id)

  datatype LoginDecision = Granted(id: Id) | Refused(signOut: bool)

  /**
   * `login`: granted only to a signed-in account whose profile row exists and
   * is approved; a signed-in account without one, or not approved, is signed
   * out again.
   */
  function LoginGate(users: map<Id, Profile>, signIn: SignInOutcome): (d: LoginDecision)
    ensures d.Granted? <==> signIn.SignedIn? && signIn.id in users && users[signIn.id].status == Approved
    ensures d.Granted? ==> d.id == signIn.id
    ensures d.Refused? ==> (d.signOut <==> signIn.SignedIn?)
  {
    match signIn
    case SignInRejected => Refused(false)
    case SignInNoUser => Refused(false)
    case SignedIn(id) =>
      if id !in users then Refused(true)
      else if users[id].status != Approved then Refused(true)
      else Granted(id)
  }

  /** Pending and rejected accounts never get in. */
  lemma OnlyApprovedLogIn(users: map<Id, Profile>, id: Id)
    requires id in users && users[id].status != Approved
    ensures LoginGate(users, SignedIn(id)) == Refused(true)
  {
  }

  const ADMIN_EMAILS: seq<string> := ["admin@trustmission.com", "support@trustmission.com"]
  const ADMIN_EMAIL: string := "admin@trustmission.com"
  const ADMIN_PASSWORD: string := "admin123"

  lemma LowerCaseFixed(s: string)
    requires forall i :: 0 <= i < |s| ==> !IsUpper(s[i])
    ensures ToLower(s) == s
  {
  }

  /**
   * `adminLogin`'s checks: the lower-cased address must be on the admin list,
   * and then the address and password must be exactly the built-in pair. So
   * only the exact pair gets in, and an address outside the list fails at
   * the first check.
   */
  function AdminCredentialsAccepted(email: string, password: string): (ok: bool)
    ensures ok <==> email == ADMIN_EMAIL && password == ADMIN_PASSWORD
    ensures ToLower(email) !in ADMIN_EMAILS ==> !ok
  {
    LowerCaseFixed(ADMIN_EMAIL);
    if ToLower(email) !in ADMIN_EMAILS then false
    else email == ADMIN_EMAIL && password == ADMIN_PASSWORD
  }

  /** The support address is on the list but can never log in, nor can a re-cased admin address. */
  lemma AdminListIsNotEnough()
    ensures !AdminCredentialsAccepted("support@trustmission.com", ADMIN_PASSWORD)
    ensures !AdminCredentialsAccepted("Admin@trustmission.com", ADMIN_PASSWORD)
  {
  }

  /** The user the admin login installs. */
  function MockAdmin(email: string, now: int): (p: Profile)
    ensures p.status == Approved && p.totalBalance == 0 && p.withdrawableAmount == 0
    ensures LedgerConsistent(p)
  {
    Profile(
      id := "admin-user", email := email, firstName := "Admin", lastName := "User",
      dateOfBirth := "1990-01-01", whatsapp := "+1234567890", referralCode := "ADMIN2024",
      usedReferralCode := None, status := Approved, kycPhotos := map[], contractSigned := true,
      welcomeBonus := 0, quizEarnings := 0, referralEarnings := 0, totalBalance := 0,
      withdrawableAmount := 0, maxReferrals := 0, missionsCompleted := false, createdAt := now)
  }

  // ---------------------------------------------------------- profile update

  /** `Partial<User>`: `None` is an absent key. */
  datatype ProfileUpdate = ProfileUpdate(
    firstName: Option<string>,
    lastName: Option<string>,
    dateOfBirth: Option<string>,
    whatsapp: Option<string>,
    status: Option<ReviewStatus>,
    kycPhotos: Option<map<string, string>>,
    contractSigned: Option<bool>,
    welcomeBonus: Option<int>,
    quizEarnings: Option<int>,
    referralEarnings: Option<int>,
    totalBalance: Option<int>,
    withdrawableAmount: Option<int>,
    maxReferrals: Option<int>,
    missionsCompleted: Option<bool>,
    email: Option<string>,
    referralCode: Option<string>)

  const NoUpdate: ProfileUpdate := ProfileUpdate(
    None, None, None, None, None, None, None, None, None, None, None, None, None, None, None, None)

  function Pick<T>(u: Option<T>, prev: T): T {
    if u.Some? then u.value else prev
  }

  /** A string field is written to the table only when it is truthy (non-empty). */
  function PickTruthy(u: Option<string>, prev: string): string {
    if u.Some? && u.value != "" then u.value else prev
  }

  /**
   * The row after `.update(dbUpdates)`: names, date of birth and WhatsApp
   * only when non-empty, status and photos when present, the flags and
   * amounts when defined; e-mail and referral code are never written.
   */
  function DbApply(p: Profile, u: ProfileUpdate): Profile {
    p.(firstName := PickTruthy(u.firstName, p.firstName),
       lastName := PickTruthy(u.lastName, p.lastName),
       dateOfBirth := PickTruthy(u.dateOfBirth, p.dateOfBirth),
       whatsapp := PickTruthy(u.whatsapp, p.whatsapp),
       status := Pick(u.status, p.status),
       kycPhotos := Pick(u.kycPhotos, p.kycPhotos),
       contractSigned := Pick(u.contractSigned, p.contractSigned),
       welcomeBonus := Pick(u.welcomeBonus, p.welcomeBonus),
       quizEarnings := Pick(u.quizEarnings, p.quizEarnings),
       referralEarnings := Pick(u.referralEarnings, p.referralEarnings),
       totalBalance := Pick(u.totalBalance, p.totalBalance),
       withdrawableAmount := Pick(u.withdrawableAmount, p.withdrawableAmount),
       maxReferrals := Pick(u.maxReferrals, p.maxReferrals),
       missionsCompleted := Pick(u.missionsCompleted, p.missionsCompleted))
  }

  /** The local user after `{ ...prev, ...updates }`: every supplied key wins. */
  function LocalApply(p: Profile, u: ProfileUpdate): Profile {
    p.(firstName := Pick(u.firstName, p.firstName),
       lastName := Pick(u.lastName, p.lastName),
       dateOfBirth := Pick(u.dateOfBirth, p.dateOfBirth),
       whatsapp := Pick(u.whatsapp, p.whatsapp),
       status := Pick(u.status, p.status),
       kycPhotos := Pick(u.kycPhotos, p.kycPhotos),
       contractSigned := Pick(u.contractSigned, p.contractSigned),
       welcomeBonus := Pick(u.welcomeBonus, p.welcomeBonus),
       quizEarnings := Pick(u.quizEarnings, p.quizEarnings),
       referralEarnings := Pick(u.referralEarnings, p.referralEarnings),
       totalBalance := Pick(u.totalBalance, p.totalBalance),
       withdrawableAmount := Pick(u.withdrawableAmount, p.withdrawableAmount),
       maxReferrals := Pick(u.maxReferrals, p.maxReferrals),
       missionsCompleted := Pick(u.missionsCompleted, p.missionsCompleted),
       email := Pick(u.email, p.email),
       referralCode := Pick(u.referralCode, p.referralCode))
  }

  /** The update supplies no empty string and neither of the keys the table mapping skips. */
  predicate TableExpressible(u: ProfileUpdate) {
    u.firstName != Some("") && u.lastName != Some("") && u.dateOfBirth != Some("")
    && u.whatsapp != Some("") && u.email.None? && u.referralCode.None?
  }

  /** For such updates the stored row and the local user end up the same. */
  lemma LocalMatchesTable(p: Profile, u: ProfileUpdate)
    requires TableExpressible(u)
    ensures LocalApply(p, u) == DbApply(p, u)
  {
  }

  /** An empty first name is not stored but does reach the local user. */
  lemma EmptyNameDiverges(p: Profile)
    requires p.firstName != ""
    ensures DbApply(p, NoUpdate.(firstName := Some(""))) == p
    ensures LocalApply(p, NoUpdate.(firstName := Some(""))).firstName == ""
  {
  }

  /** Applying the same update twice is applying it once, on either side. */
  lemma UpdatesIdempotent(p: Profile, u: ProfileUpdate)
    ensures LocalApply(LocalApply(p, u), u) == LocalApply(p, u)
    ensures DbApply(DbApply(p, u), u) == DbApply(p, u)
  {
  }

  /** An update that supplies no key changes nothing, on either side. */
  lemma EmptyUpdateChangesNothing(p: Profile)
    ensures LocalApply(p, NoUpdate) == p && DbApply(p, NoUpdate) == p
  {
  }

  // ------------------------------------------------------------------ state

  /** The `users` and `referrals` tables and the context's session state. */
  class AuthState {
    var users: map<Id, Profile>
    var referrals: seq<Referral>
    var user: Option<Profile>
    var isAdmin: bool
    var session: bool

    constructor (users0: map<Id, Profile>, referrals0: seq<Referral>)
      ensures users == users0 && referrals == referrals0
      ensures user.None? && !isAdmin && !session
    {
      users := users0;
      referrals := referrals0;
      user := None;
      isAdmin := false;
      session := false;
    }

    /**
     * `register`. The sign-up outcome, the candidate codes, the clock and
     * whether the two inserts succeed at the database are inputs. On success
     * exactly one pending profile is added, a referral row is added when the
     * upper-cased used code names exactly one user and its insert succeeds,
     * and the session is closed. A failure after the sign-up throws without
     * signing out, so the new account stays signed in.
     */
    method Register(data: RegisterData, signUp: SignUpOutcome, candidates: seq<string>, now: int,
                    profileInsertOk: bool, referralInsertOk: bool) returns (r: RegisterResult)
      requires |candidates| == MAX_ATTEMPTS + 1
      modifies this
      ensures user == old(user) && isAdmin == old(isAdmin)
      ensures signUp.SignUpRejected? ==> r == Failed(AuthRejected)
      ensures signUp.SignUpNoUser? ==> r == Failed(NoAccount)
      ensures r.Failed? ==> users == old(users) && referrals == old(referrals)
      ensures r.Failed? ==> session == (signUp.SignedUp? || old(session))
      ensures r == Failed(NoUniqueCode) <==>
        signUp.SignedUp? && forall i :: 0 <= i < MAX_ATTEMPTS ==> Claimed(old(users), candidates[i])
      ensures r == Failed(EmailTaken) <==>
        signUp.SignedUp? && (exists i :: 0 <= i < MAX_ATTEMPTS && !Claimed(old(users), candidates[i]))
        && EmailInUse(old(users), data.email)
      ensures r.Registered? <==>
        signUp.SignedUp? && (exists i :: 0 <= i < MAX_ATTEMPTS && !Claimed(old(users), candidates[i]))
        && !EmailInUse(old(users), data.email) && signUp.id !in old(users) && profileInsertOk
      ensures r.Registered? ==>
        signUp.id in users &&
        (exists k :: 0 <= k < MAX_ATTEMPTS && users[signUp.id].referralCode == candidates[k] &&
                     (forall j :: 0 <= j < k ==> Claimed(old(users), candidates[j])))
      ensures r.Registered? ==>
        signUp.SignedUp? && signUp.id !in old(users) && !EmailInUse(old(users), data.email)
        && signUp.id in users && users == old(users)[signUp.id := users[signUp.id]]
        && users[signUp.id] == NewProfile(signUp.id, data, users[signUp.id].referralCode, now)
        && !Claimed(old(users), users[signUp.id].referralCode)
        && !session
      ensures r.Registered? ==>
        referrals == old(referrals) + (
          if referralInsertOk && ReferralLookup(data).Some? && Claimed(users, ReferralLookup(data).value)
          then [Referral(Holder(users, ReferralLookup(data).value), signUp.id, false)]
          else [])
    {
      if signUp.SignUpRejected? {
        return Failed(AuthRejected);
      }
      if signUp.SignUpNoUser? {
        return Failed(NoAccount);
      }
      var id := signUp.id;
      session := true;
      var code, checks := FindUnusedCode(users, candidates);
      if code.None? {
        return Failed(NoUniqueCode);
      }
      if EmailInUse(users, data.email) {
        return Failed(EmailTaken);
      }
      if id in users || !profileInsertOk {
        return Failed(ProfileRejected);
      }
      users := users[id := NewProfile(id, data, code.value, now)];
      var lookup := ReferralLookup(data);
      if lookup.Some? && Claimed(users, lookup.value) && referralInsertOk {
        referrals := referrals + [Referral(Holder(users, lookup.value), id, false)];
      }
      session := false;
      r := Registered;
    }

    /** `login`, with the outcome of the password sign-in as input. */
    method Login(signIn: SignInOutcome) returns (ok: bool)
      modifies this
      ensures ok <==> LoginGate(old(users), signIn).Granted?
      ensures users == old(users) && referrals == old(referrals)
      ensures ok ==> user == Some(users[signIn.id]) && !isAdmin && session
      ensures !ok ==> user == old(user) && isAdmin == old(isAdmin)
      ensures !ok ==> session == (old(session) && !signIn.SignedIn?)
    {
      var d := LoginGate(users, signIn);
      if d.Granted? {
        user := Some(users[d.id]);
        isAdmin := false;
        session := true;
        ok := true;
      } else {
        if d.signOut {
          session := false;
        }
        ok := false;
      }
    }

    /** `adminLogin`: only the built-in pair installs the mock admin user. */
    method AdminLogin(email: string, password: string, now: int) returns (ok: bool)
      modifies this
      ensures ok <==> email == ADMIN_EMAIL && password == ADMIN_PASSWORD
      ensures ok ==> user == Some(MockAdmin(email, now)) && isAdmin
      ensures !ok ==> user == old(user) && isAdmin == old(isAdmin)
      ensures users == old(users) && referrals == old(referrals) && session == old(session)
    {
      ok := AdminCredentialsAccepted(email, password);
      if ok {
        user := Some(MockAdmin(email, now));
        isAdmin := true;
      }
    }

    /**
     * `updateUser`: nothing without a user or for the admin; otherwise the
     * row is updated through the table mapping and, when the write succeeds
     * (`writeOk`), the local user takes every supplied key.
     */
    method UpdateUser(u: ProfileUpdate, writeOk: bool)
      modifies this
      ensures old(user).None? || old(isAdmin) ==> users == old(users) && user == old(user)
      ensures old(user).Some? && !old(isAdmin) && writeOk ==>
        user == Some(LocalApply(old(user).value, u))
        && users == (if old(user).value.id in old(users)
                     then old(users)[old(user).value.id := DbApply(old(users)[old(user).value.id], u)]
                     else old(users))
      ensures !writeOk ==> users == old(users) && user == old(user)
      ensures referrals == old(referrals) && isAdmin == old(isAdmin) && session == old(session)
    {
      if user.None? || isAdmin || !writeOk {
        return;
      }
      var id := user.value.id;
      if id in users {
        users := users[id := DbApply(users[id], u)];
      }
      user := Some(LocalApply(user.value, u));
    }
  }

  /** The one holder of a claimed code. */
  function Holder(users: map<Id, Profile>, code: string): (id: Id)
    requires Claimed(users, code)
    ensures id in users && users[id].referralCode == code
  {
    var holders := HoldersOf(users, code);
    var some :| some in holders;
    SingletonSet(holders, some);
    var id :| id in holders;
    id
  }

  lemma SingletonSet<T>(s: set<T>, x: T)
    requires |s| == 1 && x in s
    ensures s == {x}
  {
    if y :| y in s && y != x {
      assert {x, y} <= s;
      SubsetCard({x, y}, s);
    }
  }
}
