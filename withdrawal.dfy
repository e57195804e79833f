/**
 * Withdrawals: the 50 euro threshold, the bank-detail checks and
 * normalisation, the legacy withdrawal form and the modern withdrawal page.
 * Amounts are in cents.
 */
module Withdrawal {
  import opened Common
  import opened Records
  import PersonalInfo

  /** The smallest withdrawal, 50 euros. */
  const MIN_WITHDRAWAL: int := 5000

  /** `withdrawableAmount >= 50`. */
  predicate CanWithdraw(withdrawable: int) {
    withdrawable >= MIN_WITHDRAWAL
  }

  // ------------------------------------------------------------ bank details

  /** `s.replace(/\s/g, '')`. */
  function RemoveSpaces(s: string): (r: string)
    ensures |r| <= |s|
    ensures forall i :: 0 <= i < |r| ==> !IsSpace(r[i])
    decreases |s|
  {
    if |s| == 0 then ""
    else if IsSpace(s[0]) then RemoveSpaces(s[1..])
    else [s[0]] + RemoveSpaces(s[1..])
  }

  /**
   * Every character but whitespace is kept, in order: the result is a
   * subsequence of `s` holding each non-space character as often as `s`
   * does, and nothing else.
   */
  lemma {:induction false} RemoveSpacesKept(s: string)
    ensures Subsequence(RemoveSpaces(s), s)
    ensures forall c :: multiset(RemoveSpaces(s))[c] == if IsSpace(c) then 0 else multiset(s)[c]
    decreases |s|
  {
    if |s| > 0 {
      RemoveSpacesKept(s[1..]);
      var t := RemoveSpaces(s[1..]);
      assert s == [s[0]] + s[1..];
      if IsSpace(s[0]) {
        assert RemoveSpaces(s) == t;
        SubsequenceDrop(t, s);
      } else {
        assert RemoveSpaces(s) == [s[0]] + t;
        assert ([s[0]] + t)[1..] == t;
      }
    }
  }

  /** The form in which IBAN and BIC are checked and stored: no whitespace, upper case. */
  function Normalize(s: string): string {
    ToUpper(RemoveSpaces(s))
  }

  /** `^[A-Z]{2}[0-9]{2}[A-Z0-9]+$` with a length of 15 to 34. */
  predicate IbanShape(c: string) {
    15 <= |c| <= 34
    && IsUpper(c[0]) && IsUpper(c[1]) && IsDigit(c[2]) && IsDigit(c[3])
    && forall i :: 4 <= i < |c| ==> IsUpperAlnum(c[i])
  }

  /** `^[A-Z]{6}[A-Z0-9]{2}([A-Z0-9]{3})?$`. */
  predicate BicShape(c: string) {
    (|c| == 8 || |c| == 11)
    && (forall i :: 0 <= i < 6 ==> IsUpper(c[i]))
    && (forall i :: 6 <= i < |c| ==> IsUpperAlnum(c[i]))
  }

  /** `validateIBAN`: the shape test on the normalised text (the check digits are not computed). */
  predicate ValidIban(iban: string) { IbanShape(Normalize(iban)) }

  /** `validateBIC`. */
  predicate ValidBic(bic: string) { BicShape(Normalize(bic)) }

  lemma {:induction false} RemoveSpacesOfSpaceFree(s: string)
    requires forall i :: 0 <= i < |s| ==> !IsSpace(s[i])
    ensures RemoveSpaces(s) == s
    decreases |s|
  {
    if |s| > 0 {
      RemoveSpacesOfSpaceFree(s[1..]);
      assert s == [s[0]] + s[1..];
    }
  }

  /** Upper-casing never creates whitespace. */
  lemma UpperKeepsSpaceFree(s: string)
    requires forall i :: 0 <= i < |s| ==> !IsSpace(s[i])
    ensures forall i :: 0 <= i < |ToUpper(s)| ==> !IsSpace(ToUpper(s)[i])
  {
  }

  /** The normalised text has no lower-case letter. */
  lemma NormalizedIsUpper(s: string)
    ensures forall i :: 0 <= i < |Normalize(s)| ==> !IsLower(Normalize(s)[i])
  {
  }

  /** Normalising twice is normalising once. */
  lemma NormalizeIdempotent(s: string)
    ensures Normalize(Normalize(s)) == Normalize(s)
  {
    var n := Normalize(s);
    UpperKeepsSpaceFree(RemoveSpaces(s));
    RemoveSpacesOfSpaceFree(n);
    assert ToUpper(n) == n;
  }

  /** So storing the normalised IBAN and BIC keeps them valid, and invalid ones stay invalid. */
  lemma NormalizeKeepsValidity(iban: string, bic: string)
    ensures ValidIban(Normalize(iban)) <==> ValidIban(iban)
    ensures ValidBic(Normalize(bic)) <==> ValidBic(bic)
  {
    NormalizeIdempotent(iban);
    NormalizeIdempotent(bic);
  }

  /** A valid BIC has 8 or 11 characters once normalised; a valid IBAN 15 to 34. */
  lemma ValidLengths(iban: string, bic: string)
    ensures ValidIban(iban) ==> 15 <= |Normalize(iban)| <= 34
    ensures ValidBic(bic) ==> |Normalize(bic)| == 8 || |Normalize(bic)| == 11
  {
  }

  /** An eight-letter bank code is a valid BIC, in lower case too; seven letters are not. */
  lemma BicExamples()
    ensures ValidBic("deutdeff")
    ensures !ValidBic("DEUTDEF")
  {
    LowerBic("deutdeff");
    assert |Normalize("DEUTDEF")| <= 7;
  }

  lemma LowerBic(s: string)
    requires s == "deutdeff"
    ensures BicShape(Normalize(s))
  {
    assert forall i :: 0 <= i < |s| ==> !IsSpace(s[i]);
    RemoveSpacesOfSpaceFree(s);
    var n := ToUpper(s);
    assert n[0] == 'D' && n[1] == 'E' && n[2] == 'U' && n[3] == 'T' && n[4] == 'D' && n[5] == 'E';
    assert n[6] == 'F' && n[7] == 'F';
  }

  // ---------------------------------------------------------- the legacy form

  datatype WithdrawalForm = WithdrawalForm(accountHolder: string, iban: string, bic: string, amount: int)

  /** The details handed to `updateUser`, with the IBAN and BIC normalised. */
  datatype WithdrawalDetails = WithdrawalDetails(accountHolder: string, iban: string, bic: string)

  const HOLDER_REQUIRED: string := "Account holder name is required"
  const IBAN_REQUIRED: string := "IBAN is required"
  const IBAN_INVALID: string := "Please enter a valid IBAN"
  const BIC_REQUIRED: string := "BIC/SWIFT code is required"
  const BIC_INVALID: string := "Please enter a valid BIC/SWIFT code"
  const BELOW_MINIMUM: string := "Minimum withdrawal amount is €50"
  const ABOVE_BALANCE: string := "Amount exceeds available balance"

  datatype FormErrors = FormErrors(accountHolder: Option<string>, iban: Option<string>, bic: Option<string>, amount: Option<string>)

  const NO_ERRORS: FormErrors := FormErrors(None, None, None, None)

  /** Every check of the form passes. */
  predicate FormValid(form: WithdrawalForm, withdrawable: int) {
    !Blank(form.accountHolder) && !Blank(form.iban) && ValidIban(form.iban)
    && !Blank(form.bic) && ValidBic(form.bic)
    && MIN_WITHDRAWAL <= form.amount <= withdrawable
  }

  /**
   * `validateForm` followed by `handleSubmit`: each field gets at most one
   * message, "required" before "invalid" and "below the minimum" before
   * "above the balance"; with no message the normalised details are handed
   * to `updateUser`.
   */
  method Submit(form: WithdrawalForm, withdrawable: int) returns (errors: FormErrors, handed: Option<WithdrawalDetails>)
    ensures errors.accountHolder == if Blank(form.accountHolder) then Some(HOLDER_REQUIRED) else None
    ensures errors.iban ==
      if Blank(form.iban) then Some(IBAN_REQUIRED) else if !ValidIban(form.iban) then Some(IBAN_INVALID) else None
    ensures errors.bic ==
      if Blank(form.bic) then Some(BIC_REQUIRED) else if !ValidBic(form.bic) then Some(BIC_INVALID) else None
    ensures errors.amount ==
      if form.amount < MIN_WITHDRAWAL then Some(BELOW_MINIMUM)
      else if form.amount > withdrawable then Some(ABOVE_BALANCE) else None
    ensures handed.Some? <==> errors == NO_ERRORS
    ensures handed.Some? <==> FormValid(form, withdrawable)
    ensures handed.Some? ==> MIN_WITHDRAWAL <= form.amount <= withdrawable
    ensures handed.Some? ==>
      handed.value == WithdrawalDetails(form.accountHolder, Normalize(form.iban), Normalize(form.bic))
      && IbanShape(handed.value.iban) && BicShape(handed.value.bic)
  {
    errors := NO_ERRORS;
    var e := PersonalInfo.FieldCheck(Blank(form.accountHolder), false, HOLDER_REQUIRED, "");
    errors := errors.(accountHolder := e);
    e := PersonalInfo.FieldCheck(Blank(form.iban), !ValidIban(form.iban), IBAN_REQUIRED, IBAN_INVALID);
    errors := errors.(iban := e);
    e := PersonalInfo.FieldCheck(Blank(form.bic), !ValidBic(form.bic), BIC_REQUIRED, BIC_INVALID);
    errors := errors.(bic := e);
    e := PersonalInfo.FieldCheck(form.amount < MIN_WITHDRAWAL, form.amount > withdrawable, BELOW_MINIMUM, ABOVE_BALANCE);
    errors := errors.(amount := e);
    if errors == NO_ERRORS {
      handed := Some(WithdrawalDetails(form.accountHolder, Normalize(form.iban), Normalize(form.bic)));
    } else {
      handed := None;
    }
  }

  /** Below the threshold no amount can pass the form. */
  lemma NothingPassesBelowThreshold(form: WithdrawalForm, withdrawable: int)
    requires !CanWithdraw(withdrawable)
    ensures !FormValid(form, withdrawable)
  {
  }

  /** `parseFloat(value) || 0`: input that is not a number (`None`) becomes 0. */
  function AmountInput(parsed: Option<int>): (amount: int)
    ensures parsed.None? ==> amount == 0
    ensures parsed.Some? ==> amount == parsed.value
  {
    if parsed.Some? then parsed.value else 0
  }

  /**
   * The form's first values: the details the user object carries, else the
   * user's trimmed full name as holder; the whole withdrawable amount.
   */
  function InitialForm(details: Option<WithdrawalDetails>, firstName: string, lastName: string, withdrawable: int): (f: WithdrawalForm)
    ensures details.Some? && details.value.accountHolder != "" ==> f.accountHolder == details.value.accountHolder
    ensures !(details.Some? && details.value.accountHolder != "") ==> f.accountHolder == Trim(firstName + " " + lastName)
    ensures details.Some? ==> f.iban == details.value.iban && f.bic == details.value.bic
    ensures details.None? ==> f.iban == "" && f.bic == ""
    ensures f.amount == withdrawable
  {
    var holder := if details.Some? && details.value.accountHolder != "" then details.value.accountHolder
                  else Trim(firstName + " " + lastName);
    WithdrawalForm(holder,
      if details.Some? then details.value.iban else "",
      if details.Some? then details.value.bic else "",
      withdrawable)
  }

  // ----------------------------------------------------------- the modern page

  /** `Math.min(balance, 50)`. */
  function InitialAmount(balance: int): (amount: int)
    ensures amount <= balance && amount <= MIN_WITHDRAWAL
    ensures amount == balance || amount == MIN_WITHDRAWAL
    ensures CanWithdraw(balance) ==> amount == MIN_WITHDRAWAL
  {
    if balance < MIN_WITHDRAWAL then balance else MIN_WITHDRAWAL
  }

  /**
   * The browser's own constraint check on the form (`required` on every
   * field, `min="50"`, `max={balance}` and `step="0.01"` on the amount),
   * which must pass before the submit handler runs.
   */
  predicate BrowserAccepts(form: WithdrawalForm, balance: int) {
    form.accountHolder != "" && form.iban != "" && form.bic != ""
    && MIN_WITHDRAWAL <= form.amount <= balance
  }

  /** The row inserted into `withdrawal_requests`. */
  datatype RequestInsert = RequestInsert(userId: Id, amount: int, accountHolder: string, iban: string, bic: string)

  /** The payload: user, amount and holder as entered; IBAN and BIC normalised. */
  function Payload(userId: Id, form: WithdrawalForm): (row: RequestInsert)
    ensures row.userId == userId && row.amount == form.amount && row.accountHolder == form.accountHolder
    ensures row.iban == Normalize(form.iban) && row.bic == Normalize(form.bic)
    ensures forall i :: 0 <= i < |row.iban| ==> !IsSpace(row.iban[i]) && !IsLower(row.iban[i])
  {
    UpperKeepsSpaceFree(RemoveSpaces(form.iban));
    NormalizedIsUpper(form.iban);
    RequestInsert(userId, form.amount, form.accountHolder, Normalize(form.iban), Normalize(form.bic))
  }

  /**
   * `handleSubmit` of the modern page: without a user nothing is sent;
   * otherwise the payload is inserted, and the page shows "submitted" only
   * when the insert reports no error.
   */
  function ModernSubmit(user: Option<Id>, form: WithdrawalForm, insertOk: bool): (r: (Option<RequestInsert>, bool))
    ensures r.0.Some? <==> user.Some?
    ensures r.0.Some? ==> r.0.value == Payload(user.value, form)
    ensures r.1 <==> user.Some? && insertOk
  {
    if user.None? then (None, false) else (Some(Payload(user.value, form)), insertOk)
  }

  /**
   * The modern page checks only what the browser checks: the IBAN and BIC
   * shapes are not tested, so a request with a malformed IBAN is inserted.
   */
  lemma ModernSendsUncheckedIban(user: Id, balance: int)
    requires balance >= MIN_WITHDRAWAL
    ensures var form := WithdrawalForm("A", "x", "y", MIN_WITHDRAWAL);
      BrowserAccepts(form, balance) && !ValidIban(form.iban)
      && ModernSubmit(Some(user), form, true).0 == Some(Payload(user, form))
  {
  }

  /** What the browser lets through respects the same amount bounds as the legacy form. */
  lemma BrowserBoundsMatchForm(form: WithdrawalForm, balance: int)
    requires BrowserAccepts(form, balance)
    ensures MIN_WITHDRAWAL <= form.amount <= balance
    ensures CanWithdraw(balance)
  {
  }

  // --------------------------------------------------------- earnings overview

  /** The amount still missing before a withdrawal is possible. */
  function Shortfall(withdrawable: int): (r: int)
    requires !CanWithdraw(withdrawable)
    ensures r > 0 && r + withdrawable == MIN_WITHDRAWAL
  {
    MIN_WITHDRAWAL - withdrawable
  }

  /** The withdrawal button of the overview is disabled exactly when no withdrawal is possible. */
  predicate WithdrawButtonDisabled(withdrawable: int) { !CanWithdraw(withdrawable) }

  /** The three pages apply one threshold: the overview's button leads only where the form can pass. */
  lemma OverviewAgreesWithForm(withdrawable: int)
    ensures !WithdrawButtonDisabled(withdrawable) <==> CanWithdraw(withdrawable)
    ensures !WithdrawButtonDisabled(withdrawable) ==>
      FormValid(WithdrawalForm("A", "DE89370400440532013000", "DEUTDEFF", MIN_WITHDRAWAL), withdrawable)
  {
    if CanWithdraw(withdrawable) {
      SampleFormValid(WithdrawalForm("A", "DE89370400440532013000", "DEUTDEFF", MIN_WITHDRAWAL), withdrawable);
    }
  }

  lemma SampleFormValid(form: WithdrawalForm, withdrawable: int)
    requires form == WithdrawalForm("A", "DE89370400440532013000", "DEUTDEFF", MIN_WITHDRAWAL)
    requires CanWithdraw(withdrawable)
    ensures FormValid(form, withdrawable)
  {
    SampleIban(form.iban);
    SampleBic(form.bic);
    SampleHolder(form.accountHolder);
  }


  /** Text made of upper-case letters and digits is already normalised. */
  lemma UpperAlnumNormalized(s: string)
    requires forall i :: 0 <= i < |s| ==> IsUpperAlnum(s[i])
    ensures Normalize(s) == s && (|s| > 0 ==> !Blank(s))
  {
    forall i | 0 <= i < |s|
      ensures !IsSpace(s[i]) && !IsLower(s[i])
    {
      assert '0' <= s[i] <= 'Z';
    }
    RemoveSpacesOfSpaceFree(s);
    assert ToUpper(s) == s;
    BlankIffAllSpace(s);
    if |s| > 0 {
      assert !IsSpace(s[0]);
    }
  }

  lemma IbanChars(s: string)
    requires s == "DE89370400440532013000"
    ensures |s| == 22 && (forall i :: 0 <= i < |s| ==> IsUpperAlnum(s[i]))
    ensures IsUpper(s[0]) && IsUpper(s[1]) && IsDigit(s[2]) && IsDigit(s[3])
  {
  }

  lemma SampleIban(s: string)
    requires s == "DE89370400440532013000"
    ensures !Blank(s) && ValidIban(s)
  {
    IbanChars(s);
    UpperAlnumNormalized(s);
  }

  lemma BicChars(s: string)
    requires s == "DEUTDEFF"
    ensures |s| == 8 && (forall i :: 0 <= i < |s| ==> IsUpperAlnum(s[i]))
    ensures forall i :: 0 <= i < 6 ==> IsUpper(s[i])
  {
  }

  lemma SampleBic(s: string)
    requires s == "DEUTDEFF"
    ensures !Blank(s) && ValidBic(s)
  {
    BicChars(s);
    UpperAlnumNormalized(s);
  }

  lemma SampleHolder(s: string)
    requires s == "A"
    ensures !Blank(s)
  {
    assert IsUpperAlnum(s[0]);
    UpperAlnumNormalized(s);
  }
}
