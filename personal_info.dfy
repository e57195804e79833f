/**
 * The personal-information step of the registration wizard: the error map
 * its `validateForm` fills, field by field, and the submit it guards.
 */
module PersonalInfo {
  import opened Common
  import opened Validators

  datatype PersonalForm = PersonalForm(firstName: string, lastName: string, dateOfBirth: string, email: string, password: string)

  const FIRST_NAME_REQUIRED: string := "First name is required"
  const LAST_NAME_REQUIRED: string := "Last name is required"
  const DOB_REQUIRED: string := "Date of birth is required"
  const UNDERAGE: string := "You must be at least 18 years old"
  const EMAIL_REQUIRED: string := "Email is required"
  const EMAIL_INVALID: string := "Please enter a valid email"
  const PASSWORD_REQUIRED: string := "Password is required"
  const PASSWORD_WEAK: string := "Password does not meet security requirements"

  /** Every check of the step passes. */
  predicate PersonalValid(form: PersonalForm, birth: Date, today: Date) {
    !Blank(form.firstName) && !Blank(form.lastName)
    && form.dateOfBirth != "" && Age(birth, today) >= 18
    && !Blank(form.email) && EmailLike(form.email)
    && form.password != "" && PasswordValid(form.password)
  }

  /**
   * The `newErrors` object: one optional message per field (`None` for an
   * absent key).
   */
  datatype FormErrors = FormErrors(
    firstName: Option<string>, lastName: Option<string>, dateOfBirth: Option<string>,
    email: Option<string>, password: Option<string>)

  const NO_ERRORS: FormErrors := FormErrors(None, None, None, None, None)

  /**
   * `validateForm` followed by the submit: each failing field gets exactly
   * one message, the "required" message taking precedence over the format
   * one, and the form is passed on exactly when no message was recorded.
   * `birth` is the date `new Date(form.dateOfBirth)` denotes and `today`
   * the current date.
   */
  method ValidateForm(form: PersonalForm, birth: Date, today: Date) returns (errors: FormErrors, next: Option<PersonalForm>)
    ensures errors.firstName == if Blank(form.firstName) then Some(FIRST_NAME_REQUIRED) else None
    ensures errors.lastName == if Blank(form.lastName) then Some(LAST_NAME_REQUIRED) else None
    ensures errors.dateOfBirth ==
      if form.dateOfBirth == "" then Some(DOB_REQUIRED)
      else if Age(birth, today) < 18 then Some(UNDERAGE) else None
    ensures errors.email ==
      if Blank(form.email) then Some(EMAIL_REQUIRED)
      else if !EmailLike(form.email) then Some(EMAIL_INVALID) else None
    ensures errors.password ==
      if form.password == "" then Some(PASSWORD_REQUIRED)
      else if !PasswordValid(form.password) then Some(PASSWORD_WEAK) else None
    ensures next.Some? <==> errors == NO_ERRORS
    ensures next.Some? <==> PersonalValid(form, birth, today)
    ensures next.Some? ==> next.value == form
  {
    errors := NO_ERRORS;
    var e := FieldCheck(Blank(form.firstName), false, FIRST_NAME_REQUIRED, "");
    errors := errors.(firstName := e);
    e := FieldCheck(Blank(form.lastName), false, LAST_NAME_REQUIRED, "");
    errors := errors.(lastName := e);
    e := FieldCheck(form.dateOfBirth == "", Age(birth, today) < 18, DOB_REQUIRED, UNDERAGE);
    errors := errors.(dateOfBirth := e);
    e := FieldCheck(Blank(form.email), !EmailLike(form.email), EMAIL_REQUIRED, EMAIL_INVALID);
    errors := errors.(email := e);
    e := FieldCheck(form.password == "", !PasswordValid(form.password), PASSWORD_REQUIRED, PASSWORD_WEAK);
    errors := errors.(password := e);
    next := if errors == NO_ERRORS then Some(form) else None;
  }

  /**
   * One field's check: the "required" message when the value is missing,
   * otherwise the format message when it is malformed.
   */
  method FieldCheck(missing: bool, malformed: bool, requiredMessage: string, formatMessage: string) returns (e: Option<string>)
    ensures e.None? <==> !missing && !malformed
    ensures missing ==> e == Some(requiredMessage)
    ensures !missing && malformed ==> e == Some(formatMessage)
  {
    if missing {
      e := Some(requiredMessage);
    } else if malformed {
      e := Some(formatMessage);
    } else {
      e := None;
    }
  }
}
