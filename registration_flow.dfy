/**
 * The legacy five-step registration flow: the shared form data, the merge
 * each step's result goes through, the step cursor and the final call to
 * `register`.
 */
module RegistrationFlow {
  import opened Common
  import opened Validators
  import opened PersonalInfo
  import KYC
  import Auth

  /** The flow's `formData`. */
  datatype FormData = FormData(
    firstName: string, lastName: string, dateOfBirth: string, email: string, password: string,
    referralCode: string, whatsapp: string, hasWhatsApp: bool,
    kycPhotos: map<string, string>, contractAccepted: bool)

  /** The initial form data: empty texts, WhatsApp assumed, three empty photo slots, no acceptance. */
  const INITIAL_FORM: FormData := FormData("", "", "", "", "", "", "", true,
    map[KYC.ID_FRONT := "", KYC.ID_BACK := "", KYC.SELFIE := ""], false)

  /** The object a step hands on: the keys it holds are the `Some` fields. */
  datatype StepPatch = StepPatch(
    firstName: Option<string>, lastName: Option<string>, dateOfBirth: Option<string>,
    email: Option<string>, password: Option<string>, referralCode: Option<string>,
    whatsapp: Option<string>, hasWhatsApp: Option<bool>,
    kycPhotos: Option<map<string, string>>, contractAccepted: Option<bool>)

  const NO_KEYS: StepPatch := StepPatch(None, None, None, None, None, None, None, None, None, None)

  function Over<T>(p: Option<T>, prev: T): T {
    if p.Some? then p.value else prev
  }

  /** `{ ...prev, ...stepData }`: each key the step holds overrides, the others are kept. */
  function Merge(f: FormData, p: StepPatch): (r: FormData)
    ensures p.firstName.Some? ==> r.firstName == p.firstName.value
    ensures p.firstName.None? ==> r.firstName == f.firstName
    ensures p.referralCode.Some? ==> r.referralCode == p.referralCode.value
    ensures p.referralCode.None? ==> r.referralCode == f.referralCode
    ensures p.kycPhotos.Some? ==> r.kycPhotos == p.kycPhotos.value
    ensures p.kycPhotos.None? ==> r.kycPhotos == f.kycPhotos
    ensures p.contractAccepted.Some? ==> r.contractAccepted == p.contractAccepted.value
    ensures p.contractAccepted.None? ==> r.contractAccepted == f.contractAccepted
  {
    FormData(
      Over(p.firstName, f.firstName), Over(p.lastName, f.lastName),
      Over(p.dateOfBirth, f.dateOfBirth), Over(p.email, f.email),
      Over(p.password, f.password), Over(p.referralCode, f.referralCode),
      Over(p.whatsapp, f.whatsapp), Over(p.hasWhatsApp, f.hasWhatsApp),
      Over(p.kycPhotos, f.kycPhotos), Over(p.contractAccepted, f.contractAccepted))
  }

  /** An object with no keys changes nothing. */
  lemma MergeNothing(f: FormData)
    ensures Merge(f, NO_KEYS) == f
  {
  }

  /** Handing on the same data twice is the same as once. */
  lemma MergeIdempotent(f: FormData, p: StepPatch)
    ensures Merge(Merge(f, p), p) == Merge(f, p)
  {
  }

  /** The later step wins on a key both hold; a key only the earlier one holds survives. */
  lemma LaterKeysWin(f: FormData, p: StepPatch, q: StepPatch)
    ensures q.referralCode.Some? ==> Merge(Merge(f, p), q).referralCode == q.referralCode.value
    ensures q.referralCode.None? ==> Merge(Merge(f, p), q).referralCode == Merge(f, p).referralCode
    ensures Merge(Merge(f, p), q) == Merge(f, Combine(p, q))
  {
  }

  /** The object `{ ...p, ...q }`. */
  function Combine(p: StepPatch, q: StepPatch): StepPatch {
    StepPatch(
      if q.firstName.Some? then q.firstName else p.firstName,
      if q.lastName.Some? then q.lastName else p.lastName,
      if q.dateOfBirth.Some? then q.dateOfBirth else p.dateOfBirth,
      if q.email.Some? then q.email else p.email,
      if q.password.Some? then q.password else p.password,
      if q.referralCode.Some? then q.referralCode else p.referralCode,
      if q.whatsapp.Some? then q.whatsapp else p.whatsapp,
      if q.hasWhatsApp.Some? then q.hasWhatsApp else p.hasWhatsApp,
      if q.kycPhotos.Some? then q.kycPhotos else p.kycPhotos,
      if q.contractAccepted.Some? then q.contractAccepted else p.contractAccepted)
  }

  // ------------------------------------------------------- what steps hand on

  /** The personal-information step hands on its five fields. */
  function PersonalPatch(form: PersonalForm): StepPatch {
    NO_KEYS.(firstName := Some(form.firstName), lastName := Some(form.lastName),
             dateOfBirth := Some(form.dateOfBirth), email := Some(form.email), password := Some(form.password))
  }

  function ReferralPatch(code: string): StepPatch { NO_KEYS.(referralCode := Some(code)) }

  function KYCPatch(photos: map<string, string>): StepPatch { NO_KEYS.(kycPhotos := Some(photos)) }

  function WhatsAppPatch(hasWhatsApp: bool, whatsapp: string): StepPatch {
    NO_KEYS.(hasWhatsApp := Some(hasWhatsApp), whatsapp := Some(whatsapp))
  }

  const CONTRACT_PATCH: StepPatch := NO_KEYS.(contractAccepted := Some(true))

  /**
   * `handleSubmit`'s argument: the merged data with `usedReferralCode` taken
   * from `referralCode` and `contractSigned` from `contractAccepted`.
   */
  function Submission(f: FormData): (d: Auth.RegisterData)
    ensures d.usedReferralCode == Some(f.referralCode)
    ensures d.contractSigned == Some(f.contractAccepted)
    ensures d.kycPhotos == Some(f.kycPhotos)
    ensures d.email == f.email && d.password == f.password && d.whatsapp == f.whatsapp
  {
    Auth.RegisterData(f.email, f.password, f.firstName, f.lastName, f.dateOfBirth, f.whatsapp,
      Some(f.referralCode), Some(f.kycPhotos), Some(f.contractAccepted))
  }

  /** The data a full pass through the five steps submits. */
  function RunSteps(form: PersonalForm, code: string, photos: map<string, string>, number: string): FormData {
    Merge(Merge(Merge(Merge(Merge(INITIAL_FORM, PersonalPatch(form)), ReferralPatch(code)),
      KYCPatch(photos)), WhatsAppPatch(true, number)), CONTRACT_PATCH)
  }

  /** Every step's data reaches `register`, and the contract is signed. */
  lemma RunCarriesStepData(form: PersonalForm, code: string, photos: map<string, string>, number: string)
    ensures var d := Submission(RunSteps(form, code, photos, number));
      d.email == form.email && d.password == form.password && d.firstName == form.firstName
      && d.lastName == form.lastName && d.dateOfBirth == form.dateOfBirth
      && d.usedReferralCode == Some(code) && d.kycPhotos == Some(photos)
      && d.whatsapp == number && d.contractSigned == Some(true)
  {
  }

  /**
   * Skipping the referral step hands on the empty code, which `register`
   * neither stores nor looks up.
   */
  lemma SkippedReferralIsNotLookedUp(form: PersonalForm, typed: string, photos: map<string, string>, number: string)
    ensures var d := Submission(RunSteps(form, ReferralSubmit(true, typed).value, photos, number));
      Auth.ReferralLookup(d).None? && Auth.NonEmpty(d.usedReferralCode).None?
  {
  }

  // ------------------------------------------------------------------ state

  class Flow {
    var currentStep: int
    var formData: FormData
    var completed: bool

    ghost predicate Valid()
      reads this
    {
      1 <= currentStep <= 5
    }

    constructor ()
      ensures Valid()
      ensures currentStep == 1 && formData == INITIAL_FORM && !completed
    {
      currentStep := 1;
      formData := INITIAL_FORM;
      completed := false;
    }

    /**
     * `handleNext`: the step's data is merged in; below step 5 the cursor
     * advances, at step 5 the merged data is submitted, and the flow is
     * completed when `register` returns without throwing (`registerOk`).
     */
    method Next(patch: StepPatch, registerOk: bool) returns (submitted: Option<Auth.RegisterData>)
      requires Valid()
      modifies this
      ensures Valid()
      ensures formData == Merge(old(formData), patch)
      ensures currentStep == if old(currentStep) < 5 then old(currentStep) + 1 else old(currentStep)
      ensures submitted.Some? <==> old(currentStep) == 5
      ensures submitted.Some? ==> submitted.value == Submission(Merge(old(formData), patch))
      ensures completed == (old(completed) || (old(currentStep) == 5 && registerOk))
    {
      formData := Merge(formData, patch);
      if currentStep < 5 {
        currentStep := currentStep + 1;
        submitted := None;
      } else {
        submitted := Some(Submission(formData));
        if registerOk {
          completed := true;
        }
      }
    }

    /** `handleBack`: one step back, or leave the flow from the first step. */
    method Back() returns (leave: bool)
      requires Valid()
      modifies this
      ensures Valid()
      ensures leave <==> old(currentStep) == 1
      ensures currentStep == if old(currentStep) > 1 then old(currentStep) - 1 else old(currentStep)
      ensures formData == old(formData) && completed == old(completed)
    {
      if currentStep > 1 {
        currentStep := currentStep - 1;
        leave := false;
      } else {
        leave := true;
      }
    }
  }
}

/**
 * The modern registration wizard: the same five steps over one shared form,
 * a Continue button gated by `canProceed`, and the error shown when
 * `register` fails.
 */
module ModernRegistration {
  import opened Common
  import opened Validators
  import opened PersonalInfo
  import opened RegistrationFlow
  import KYC
  import Auth
  import WhatsAppStep

  /**
   * `canProceed`: step 1 needs five non-empty fields, an age of 18 and a
   * valid password; step 2 always passes; step 3 needs the three photos;
   * step 4 a declared, non-blank number; step 5 the accepted contract.
   * `birth` and `today` are the dates behind `dateOfBirth` and `new Date()`.
   */
  predicate CanProceed(step: int, f: FormData, birth: Date, today: Date) {
    match step
    case 1 =>
      f.firstName != "" && f.lastName != "" && f.dateOfBirth != "" && f.email != "" && f.password != ""
      && !(f.dateOfBirth != "" && Age(birth, today) < 18)
      && PasswordValid(f.password)
    case 2 => true
    case 3 => KYC.AllPhotos(f.kycPhotos)
    case 4 => f.hasWhatsApp && !Blank(f.whatsapp)
    case 5 => f.contractAccepted
    case _ => false
  }

  /** The first step's data as the personal-information form sees it. */
  function PersonalOf(f: FormData): PersonalForm {
    PersonalForm(f.firstName, f.lastName, f.dateOfBirth, f.email, f.password)
  }

  /** Whatever the legacy personal-information step accepts lets the wizard's first step proceed. */
  lemma PersonalValidProceeds(f: FormData, birth: Date, today: Date)
    requires PersonalValid(PersonalOf(f), birth, today)
    ensures CanProceed(1, f, birth, today)
  {
    assert Trim("") == "";
  }

  /**
   * The converse fails: the wizard only tests for empty fields, so names of
   * spaces and an address without `@` pass its first step.
   */
  lemma BlankNamesProceed(birth: Date, today: Date)
    requires Age(birth, today) >= 18
    ensures CanProceed(1, FormData("  ", "  ", "2000-01-01", "x", "Passw0rd!", "", "", true, map[], false), birth, today)
    ensures !PersonalValid(PersonalForm("  ", "  ", "2000-01-01", "x", "Passw0rd!"), birth, today)
  {
    StrongPasswordExample();
    BlankIffAllSpace("  ");
  }

  /**
   * Step 4 does not count digits: a declared three-digit number lets the
   * wizard proceed, while the legacy WhatsApp step refuses it even when
   * confirmed.
   */
  lemma ShortNumberProceeds(f: FormData, birth: Date, today: Date)
    requires f.hasWhatsApp && f.whatsapp == "+123"
    ensures CanProceed(4, f, birth, today)
    ensures !WhatsAppStep.HandleContinue(true, f.whatsapp, true).Proceed?
  {
    var s := f.whatsapp;
    assert !IsSpace(s[0]);
    BlankIffAllSpace(s);
    assert |Digits("+123")| == 3;
    WhatsAppStep.ProceedIffValidAndConfirmed(true, s, true);
  }

  /**
   * The wizard's submission: like the legacy one, except that an empty
   * referral code becomes `undefined` (`referralCode || undefined`).
   */
  function ModernSubmission(f: FormData): (d: Auth.RegisterData)
    ensures d.usedReferralCode.None? <==> f.referralCode == ""
    ensures d.usedReferralCode.Some? ==> d.usedReferralCode.value == f.referralCode
    ensures d.contractSigned == Some(f.contractAccepted) && d.kycPhotos == Some(f.kycPhotos)
    ensures d.email == f.email && d.password == f.password && d.whatsapp == f.whatsapp
  {
    Auth.RegisterData(f.email, f.password, f.firstName, f.lastName, f.dateOfBirth, f.whatsapp,
      if f.referralCode != "" then Some(f.referralCode) else None, Some(f.kycPhotos), Some(f.contractAccepted))
  }

  /** The two submissions lead `register` to the same stored code and the same lookup. */
  lemma SubmissionsAgreeOnReferral(f: FormData)
    ensures Auth.NonEmpty(ModernSubmission(f).usedReferralCode) == Auth.NonEmpty(Submission(f).usedReferralCode)
    ensures Auth.ReferralLookup(ModernSubmission(f)) == Auth.ReferralLookup(Submission(f))
  {
  }

  // ---------------------------------------------------------------- errors

  /** `s.includes(sub)`. */
  predicate Contains(s: string, sub: string) {
    exists i :: 0 <= i <= |s| && At(s, sub, i)
  }

  /** `sub` occurs in `s` at position `i`. */
  predicate At(s: string, sub: string, i: int)
    requires 0 <= i
  {
    i + |sub| <= |s| && s[i..i + |sub|] == sub
  }

  const ALREADY_REGISTERED: string := "already registered"
  const DUPLICATE_EMAIL: string := "duplicate key value violates " + "unique constraint \"users_email_key\""
  const EMAIL_TAKEN_MESSAGE: string := "This email is " + ALREADY_REGISTERED + ". Please use a different email or log in."
  const ACCOUNT_FAILURE: string := "Failed to create user account"
  const CODE_FAILURE: string := "Failed to generate unique referral code"
  const GENERIC_FAILURE: string := "Registration failed. Please try again or contact support if the problem persists."

  /** How the call to `register` ended. */
  datatype RegisterCall = Returned(success: bool) | Threw(message: string)

  /**
   * The message shown for a thrown error: the error's own message when it
   * mentions "already registered", the friendly duplicate-email text for the
   * database's unique-constraint message, otherwise the generic text.
   */
  function ErrorMessage(thrown: string): (shown: string)
    ensures shown == thrown || shown == EMAIL_TAKEN_MESSAGE || shown == GENERIC_FAILURE
    ensures Contains(thrown, ALREADY_REGISTERED) ==> shown == thrown
    ensures !Contains(thrown, ALREADY_REGISTERED) ==> shown != thrown || thrown == EMAIL_TAKEN_MESSAGE || thrown == GENERIC_FAILURE
    ensures !Contains(thrown, ALREADY_REGISTERED) && Contains(thrown, DUPLICATE_EMAIL) ==> shown == EMAIL_TAKEN_MESSAGE
  {
    if thrown != "" && Contains(thrown, ALREADY_REGISTERED) then thrown
    else if thrown != "" && Contains(thrown, DUPLICATE_EMAIL) then EMAIL_TAKEN_MESSAGE
    else GENERIC_FAILURE
  }

  /** The error `register` throws for each way it fails; `service` is the message of a rejected call. */
  function ThrownMessage(e: Auth.RegisterError, service: string): string {
    match e
    case AuthRejected => service
    case NoAccount => ACCOUNT_FAILURE
    case NoUniqueCode => CODE_FAILURE
    case EmailTaken => EMAIL_TAKEN_MESSAGE
    case ProfileRejected => service
  }

  /** A character of `sub` that `s` lacks rules out an occurrence. */
  lemma NoMatchWithout(s: string, sub: string, k: int)
    requires 0 <= k < |sub|
    requires forall i :: 0 <= i < |s| ==> s[i] != sub[k]
    ensures !Contains(s, sub)
  {
    forall i | 0 <= i <= |s|
      ensures !At(s, sub, i)
    {
      if i + |sub| <= |s| {
        assert s[i..i + |sub|][k] == s[i + k];
      }
    }
  }

  /** The duplicate-email error is shown verbatim, since it says "already registered". */
  lemma EmailTakenShown()
    ensures ErrorMessage(ThrownMessage(Auth.EmailTaken, "")) == EMAIL_TAKEN_MESSAGE
  {
    MentionsAlreadyRegistered(EMAIL_TAKEN_MESSAGE);
  }

  lemma MentionsAlreadyRegistered(s: string)
    requires s == EMAIL_TAKEN_MESSAGE
    ensures Contains(s, ALREADY_REGISTERED)
  {
    var head := "This email is ";
    var tail := ". Please use a different email or log in.";
    assert s == head + ALREADY_REGISTERED + tail;
    assert s[|head|..|head| + |ALREADY_REGISTERED|] == ALREADY_REGISTERED;
    assert At(s, ALREADY_REGISTERED, |head|);
  }

  /** A missing account or a code search that gave up is reported with the generic text. */
  lemma InternalFailuresGeneric(service: string)
    ensures ErrorMessage(ThrownMessage(Auth.NoAccount, service)) == GENERIC_FAILURE
    ensures ErrorMessage(ThrownMessage(Auth.NoUniqueCode, service)) == GENERIC_FAILURE
  {
    assert forall i :: 0 <= i < |ACCOUNT_FAILURE| ==> ACCOUNT_FAILURE[i] != 'y';
    assert forall i :: 0 <= i < |CODE_FAILURE| ==> CODE_FAILURE[i] != 'y';
    WithoutTriggerLetterGeneric(ACCOUNT_FAILURE);
    WithoutTriggerLetterGeneric(CODE_FAILURE);
  }

  /**
   * A message without the letter 'y' mentions neither "already registered"
   * nor the unique-constraint message, so it is shown with the generic text.
   */
  lemma WithoutTriggerLetterGeneric(s: string)
    requires forall i :: 0 <= i < |s| ==> s[i] != 'y'
    ensures ErrorMessage(s) == GENERIC_FAILURE
  {
    NoMatchWithout(s, ALREADY_REGISTERED, 6);
    assert DUPLICATE_EMAIL[12] == "duplicate key value violates "[12] == 'y';
    NoMatchWithout(s, DUPLICATE_EMAIL, 12);
  }

  class Wizard {
    var currentStep: int
    var formData: FormData
    var completed: bool
    var registrationError: string

    ghost predicate Valid()
      reads this
    {
      1 <= currentStep <= 5
    }

    constructor ()
      ensures Valid()
      ensures currentStep == 1 && formData == INITIAL_FORM && !completed && registrationError == ""
    {
      currentStep := 1;
      formData := INITIAL_FORM;
      completed := false;
      registrationError := "";
    }

    /** A step component's input handler: `setFormData(prev => ({ ...prev, ... }))`. */
    method Edit(patch: StepPatch)
      requires Valid()
      modifies this
      ensures Valid()
      ensures formData == Merge(old(formData), patch)
      ensures currentStep == old(currentStep) && completed == old(completed)
      ensures registrationError == old(registrationError)
    {
      formData := Merge(formData, patch);
    }

    /**
     * The Continue button, disabled unless `canProceed`: it hands the form
     * to `handleNext`, which advances below step 5 and submits at step 5.
     * A submission clears the error, then completes on success, or shows
     * the generic text for a `false` result and the classified message for
     * a thrown error.
     */
    method Continue(birth: Date, today: Date, call: RegisterCall) returns (submitted: Option<Auth.RegisterData>)
      requires Valid()
      modifies this
      ensures Valid()
      ensures formData == old(formData)
      ensures !CanProceed(old(currentStep), old(formData), birth, today) ==>
        submitted.None? && currentStep == old(currentStep)
        && completed == old(completed) && registrationError == old(registrationError)
      ensures CanProceed(old(currentStep), old(formData), birth, today) ==>
        currentStep == (if old(currentStep) < 5 then old(currentStep) + 1 else old(currentStep))
        && (submitted.Some? <==> old(currentStep) == 5)
      ensures submitted.Some? ==> submitted.value == ModernSubmission(old(formData)) && formData.contractAccepted
      ensures submitted.Some? ==>
        completed == (old(completed) || call == Returned(true))
        && registrationError ==
          match call
          case Returned(ok) => if ok then "" else GENERIC_FAILURE
          case Threw(m) => ErrorMessage(m)
      ensures submitted.None? ==> completed == old(completed) && registrationError == old(registrationError)
    {
      submitted := None;
      if !CanProceed(currentStep, formData, birth, today) {
        return;
      }
      if currentStep < 5 {
        currentStep := currentStep + 1;
        return;
      }
      submitted := Some(ModernSubmission(formData));
      registrationError := "";
      match call
      case Returned(ok) =>
        if ok {
          completed := true;
        } else {
          registrationError := GENERIC_FAILURE;
        }
      case Threw(m) =>
        registrationError := ErrorMessage(m);
    }

    /** `handleBack`: one step back, or leave the wizard from the first step. */
    method Back() returns (leave: bool)
      requires Valid()
      modifies this
      ensures Valid()
      ensures leave <==> old(currentStep) == 1
      ensures currentStep == if old(currentStep) > 1 then old(currentStep) - 1 else old(currentStep)
      ensures formData == old(formData) && completed == old(completed)
      ensures registrationError == old(registrationError)
    {
      if currentStep > 1 {
        currentStep := currentStep - 1;
        leave := false;
      } else {
        leave := true;
      }
    }
  }
}
