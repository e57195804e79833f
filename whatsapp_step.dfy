/**
 * The WhatsApp step of the registration wizard: the ordered checks behind
 * its Continue button and the confirmation checkbox they depend on.
 */
module WhatsAppStep {
  import opened Common
  import opened Validators

  const NO_WHATSAPP: string := "WhatsApp is required for platform communication and support"
  const NUMBER_MISSING: string := "Please enter your WhatsApp number"
  const NUMBER_INVALID: string := "Please enter a valid phone number"
  const NOT_CONFIRMED: string := "Please confirm that this number has WhatsApp installed"

  /** What Continue does: show an error, or pass the step's data on. */
  datatype ContinueOutcome = Refused(message: string) | Proceed(hasWhatsApp: bool, whatsapp: string)

  /**
   * `handleContinue`: the first failing check, in the order "no WhatsApp",
   * blank number, invalid number, not confirmed, sets the error; when all
   * pass, the flag and the number as typed are passed on.
   */
  function HandleContinue(hasWhatsApp: bool, number: string, confirmed: bool): (r: ContinueOutcome)
    ensures !hasWhatsApp ==> r == Refused(NO_WHATSAPP)
    ensures hasWhatsApp && Blank(number) ==> r == Refused(NUMBER_MISSING)
    ensures hasWhatsApp && !Blank(number) && !ValidPhone(number) ==> r == Refused(NUMBER_INVALID)
    ensures hasWhatsApp && !Blank(number) && ValidPhone(number) && !confirmed ==> r == Refused(NOT_CONFIRMED)
    ensures r.Proceed? <==> hasWhatsApp && !Blank(number) && ValidPhone(number) && confirmed
    ensures r.Proceed? ==> r.hasWhatsApp && r.whatsapp == number
  {
    if !hasWhatsApp then Refused(NO_WHATSAPP)
    else if Blank(number) then Refused(NUMBER_MISSING)
    else if !ValidPhone(number) then Refused(NUMBER_INVALID)
    else if !confirmed then Refused(NOT_CONFIRMED)
    else Proceed(hasWhatsApp, number)
  }

  /** The confirmation checkbox is rendered for a non-empty, valid number. */
  predicate ConfirmationShown(number: string) {
    number != "" && ValidPhone(number)
  }

  /**
   * The blank check never decides on its own: the step proceeds exactly
   * when WhatsApp is declared, the number has 10 to 15 digits and the
   * confirmation is given.
   */
  lemma ProceedIffValidAndConfirmed(hasWhatsApp: bool, number: string, confirmed: bool)
    ensures HandleContinue(hasWhatsApp, number, confirmed).Proceed? <==>
      hasWhatsApp && ValidPhone(number) && confirmed
  {
    if ValidPhone(number) {
      ValidPhoneNotBlank(number);
    }
  }

  /** The step is passed only from a screen that showed the confirmation checkbox. */
  lemma ProceedShowsConfirmation(hasWhatsApp: bool, number: string, confirmed: bool)
    requires HandleContinue(hasWhatsApp, number, confirmed).Proceed?
    ensures ConfirmationShown(number)
  {
    ValidPhoneNotBlank(number);
  }

  /** A declared number that is too short is refused as invalid, even when confirmed. */
  lemma ShortNumberRefused()
    ensures HandleContinue(true, "+123456789", true) == Refused(NUMBER_INVALID)
  {
    NineDigitsInvalid();
    var s := "+123456789";
    assert !IsSpace(s[0]);
    BlankIffAllSpace(s);
  }
}
