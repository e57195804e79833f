/**
 * The checks both registration flows share: age from a date of birth, the
 * five password requirements, the e-mail shape, the phone helpers, the
 * referral-code step and the photo upload limits.
 */
module Validators {
  import opened Common

  // -------------------------------------------------------------------- age

  /** A calendar date as `getFullYear`, `getMonth` and `getDate` report it. */
  datatype Date = Date(year: int, month: int, day: int)

  /** `(m1, d1)` comes strictly before `(m2, d2)` within a year. */
  predicate DayBefore(m1: int, d1: int, m2: int, d2: int) {
    m1 < m2 || (m1 == m2 && d1 < d2)
  }

  /** `a` is on or before `b`. */
  predicate OnOrBefore(a: Date, b: Date) {
    a.year < b.year || (a.year == b.year && !DayBefore(b.month, b.day, a.month, a.day))
  }

  /**
   * `calculateAge`: the difference of the years, less one while this year's
   * birthday is still ahead.
   */
  function Age(birth: Date, today: Date): int {
    var age := today.year - birth.year;
    var monthDiff := today.month - birth.month;
    if monthDiff < 0 || (monthDiff == 0 && today.day < birth.day) then age - 1 else age
  }

  /** One is at least `n` years old exactly from the `n`-th birthday on. */
  lemma AgeReachedOnBirthday(birth: Date, today: Date, n: int)
    ensures Age(birth, today) >= n <==> OnOrBefore(Date(birth.year + n, birth.month, birth.day), today)
  {
  }

  /** Age never decreases as the date moves forward. */
  lemma AgeMonotone(birth: Date, d1: Date, d2: Date)
    requires OnOrBefore(d1, d2)
    ensures Age(birth, d1) <= Age(birth, d2)
  {
  }

  /** The age on the birthday itself, and the day before. */
  lemma AgeExamples()
    ensures Age(Date(2000, 5, 20), Date(2018, 5, 20)) == 18
    ensures Age(Date(2000, 5, 20), Date(2018, 5, 19)) == 17
    ensures Age(Date(2000, 5, 20), Date(2018, 4, 25)) == 17
  {
  }

  // --------------------------------------------------------------- password

  /** The five requirements `validatePassword` reports. */
  datatype PasswordChecks = PasswordChecks(length: bool, uppercase: bool, lowercase: bool, number: bool, special: bool)

  /** The characters of the class `[!@#$%^&*(),.?":{}|<>]`. */
  const SPECIALS: string := "!@#$%^&*(),.?\":{}|<>"

  predicate IsSpecial(c: char) { c in SPECIALS }

  /** Some character of `s` satisfies `p`: the regex test of a one-character class. */
  function HasSome(s: string, p: char -> bool): (r: bool)
    ensures r <==> exists i :: 0 <= i < |s| && p(s[i])
    decreases |s|
  {
    if |s| == 0 then false
    else if p(s[0]) then true
    else
      assert forall i :: 1 <= i < |s| ==> s[i] == s[1..][i - 1];
      HasSome(s[1..], p)
  }

  function ValidatePassword(password: string): (r: PasswordChecks)
    ensures r.length <==> |password| >= 8
    ensures r.uppercase <==> exists i :: 0 <= i < |password| && IsUpper(password[i])
    ensures r.lowercase <==> exists i :: 0 <= i < |password| && IsLower(password[i])
    ensures r.number <==> exists i :: 0 <= i < |password| && IsDigit(password[i])
    ensures r.special <==> exists i :: 0 <= i < |password| && IsSpecial(password[i])
  {
    PasswordChecks(
      |password| >= 8,
      HasSome(password, IsUpper),
      HasSome(password, IsLower),
      HasSome(password, IsDigit),
      HasSome(password, IsSpecial))
  }

  /** `Object.values(requirements).every(req => req)`. */
  predicate PasswordValid(password: string) {
    var r := ValidatePassword(password);
    r.length && r.uppercase && r.lowercase && r.number && r.special
  }

  /** A password such as `Passw0rd!` meets every requirement. */
  lemma StrongPasswordExample()
    ensures PasswordValid("Passw0rd!")
  {
    var p := "Passw0rd!";
    assert IsUpper(p[0]) && IsLower(p[1]) && IsDigit(p[5]) && IsSpecial(p[8]);
  }

  /** Dropping the digits or the special characters fails the password. */
  lemma WeakPasswordExamples()
    ensures !PasswordValid("Password!!")
    ensures !PasswordValid("Password00")
  {
    var n := "Password!!";
    assert forall i :: 0 <= i < |n| ==> !IsDigit(n[i]);
    var s := "Password00";
    assert forall i :: 0 <= i < |s| ==> !IsSpecial(s[i]);
  }

  // ------------------------------------------------------------------ email

  /** The characters from `i` up to `j` are all non-space. */
  predicate NoSpaceIn(s: string, i: int, j: int)
    requires 0 <= i <= j <= |s|
  {
    forall k :: i <= k < j ==> !IsSpace(s[k])
  }

  /**
   * The unanchored test `/\S+@\S+\.\S+/`: somewhere in `s`, a non-space
   * character, an `@`, one or more non-space characters, a `.` and another
   * non-space character.
   */
  predicate EmailLike(s: string) {
    exists at, dot :: 1 <= at && at + 1 < dot && dot + 1 < |s| && s[at] == '@' && s[dot] == '.'
      && !IsSpace(s[at - 1]) && NoSpaceIn(s, at + 1, dot) && !IsSpace(s[dot + 1])
  }

  /** A match needs an `@` followed later by a `.`. */
  lemma EmailLikeHasAtThenDot(s: string)
    requires EmailLike(s)
    ensures exists at, dot :: 0 <= at < dot < |s| && s[at] == '@' && s[dot] == '.'
  {
  }

  /** The shortest shape passes, and the test is not anchored, so surrounding text passes too. */
  lemma EmailAcceptedExamples()
    ensures EmailLike("a@b.c")
    ensures EmailLike(" x a@b.c y")
  {
    var s := "a@b.c";
    assert s[1] == '@' && s[3] == '.' && NoSpaceIn(s, 2, 3);
    assert !IsSpace(s[0]) && !IsSpace(s[4]);
    var t := " x a@b.c y";
    assert t[4] == '@' && t[6] == '.' && NoSpaceIn(t, 5, 6);
    assert !IsSpace(t[3]) && !IsSpace(t[7]);
  }

  /** Without a dot after the `@`, or without text around the `@`, the address is refused. */
  lemma EmailRefusedExamples()
    ensures !EmailLike("a@b")
    ensures !EmailLike("a@.c")
    ensures !EmailLike("@b.c")
  {
    var s := "a@b";
    assert forall dot :: 0 <= dot < |s| ==> s[dot] != '.';
    var t := "a@.c";
    assert forall at :: 0 <= at < |t| && t[at] == '@' ==> at == 1;
    var u := "@b.c";
    assert forall at :: 1 <= at < |u| ==> u[at] != '@';
  }

  // ------------------------------------------------------------------ phone

  /**
   * `formatPhoneNumber`: with at least one digit and no leading `+`, the
   * number becomes `+` and its digits; otherwise it is left as typed.
   */
  function FormatPhone(value: string): (r: string)
    ensures r == value || r == "+" + Digits(value)
    ensures r != value ==> |Digits(value)| > 0 && !StartsWith(value, "+")
    ensures |Digits(value)| > 0 && !StartsWith(value, "+") ==> r == "+" + Digits(value)
  {
    if |Digits(value)| > 0 && !StartsWith(value, "+") then "+" + Digits(value) else value
  }

  lemma {:induction false} DigitsOfAllDigits(s: string)
    requires AllDigits(s)
    ensures Digits(s) == s
    decreases |s|
  {
    if |s| > 0 {
      DigitsOfAllDigits(s[1..]);
      assert s == [s[0]] + s[1..];
    }
  }

  lemma DigitsOfPlus(ds: string)
    requires AllDigits(ds)
    ensures Digits("+" + ds) == ds
  {
    assert ("+" + ds)[1..] == ds;
    DigitsOfAllDigits(ds);
  }

  /** Formatting keeps the digits, so it never changes whether a number is valid. */
  lemma FormatPhoneKeepsDigits(value: string)
    ensures Digits(FormatPhone(value)) == Digits(value)
  {
    if FormatPhone(value) != value {
      DigitsOfPlus(Digits(value));
    }
  }

  /** Formatting an already formatted number changes nothing. */
  lemma FormatPhoneIdempotent(value: string)
    ensures FormatPhone(FormatPhone(value)) == FormatPhone(value)
  {
    var r := FormatPhone(value);
    if r != value {
      assert StartsWith(r, "+");
    }
  }

  /** `validatePhoneNumber`: 10 to 15 digits, whatever else the text holds. */
  predicate ValidPhone(phone: string) {
    10 <= |Digits(phone)| <= 15
  }

  lemma {:induction false} NoDigitsInSpaces(s: string)
    requires AllSpace(s)
    ensures Digits(s) == ""
    decreases |s|
  {
    if |s| > 0 {
      NoDigitsInSpaces(s[1..]);
    }
  }

  /** A valid number is never blank. */
  lemma ValidPhoneNotBlank(phone: string)
    requires ValidPhone(phone)
    ensures !Blank(phone) && phone != ""
  {
    BlankIffAllSpace(phone);
    if AllSpace(phone) {
      NoDigitsInSpaces(phone);
    }
  }

  /** Digits typed without a `+` get one; a number with a `+` keeps its spaces. */
  lemma PhoneExamples()
    ensures FormatPhone("49") == "+49"
    ensures FormatPhone("+4 9") == "+4 9"
    ensures FormatPhone("ab") == "ab"
  {
  }

  /** Ten digits after the `+` are a valid number. */
  lemma TenDigitsValid()
    ensures ValidPhone("+1234567890")
  {
    assert |Digits("+1234567890")| == 10;
  }

  /** Nine are not. */
  lemma NineDigitsInvalid()
    ensures !ValidPhone("+123456789")
  {
    assert |Digits("+123456789")| == 9;
  }

  // --------------------------------------------------------------- referral

  /**
   * The referral step's submit: with "skip" checked it passes the empty
   * code; a blank code is not submitted at all (`None`); otherwise the raw
   * input, upper-cased but not trimmed.
   */
  function ReferralSubmit(skip: bool, input: string): (r: Option<string>)
    ensures skip ==> r == Some("")
    ensures !skip && Blank(input) ==> r.None?
    ensures !skip && !Blank(input) ==> r == Some(ToUpper(input))
    ensures r.Some? ==> forall i :: 0 <= i < |r.value| ==> !IsLower(r.value[i])
  {
    if skip then Some("")
    else if Blank(input) then None
    else Some(ToUpper(input))
  }

  /** Surrounding spaces are kept. */
  lemma ReferralNotTrimmed()
    ensures ReferralSubmit(false, " ab12 ") == Some(" AB12 ")
  {
    SampleCodeNotBlank(" ab12 ");
    SampleCodeUpper(" ab12 ");
  }

  lemma SampleCodeNotBlank(s: string)
    requires s == " ab12 "
    ensures !Blank(s)
  {
    assert !IsSpace(s[1]);
    BlankIffAllSpace(s);
  }

  lemma SampleCodeUpper(s: string)
    requires s == " ab12 "
    ensures ToUpper(s) == " AB12 "
  {
    var u := ToUpper(s);
    assert u[0] == ' ' && u[1] == 'A' && u[2] == 'B' && u[3] == '1' && u[4] == '2' && u[5] == ' ';
  }

  // ------------------------------------------------------------------ upload

  /** The upload size limit, 10 MiB. */
  const MAX_UPLOAD_BYTES: int := 10 * 1024 * 1024

  /** An uploaded file is accepted when its type is `image/...` and it is at most 10 MiB. */
  predicate UploadAccepted(mimeType: string, size: int) {
    StartsWith(mimeType, "image/") && size <= MAX_UPLOAD_BYTES
  }

  /** The limit is inclusive: exactly 10 MiB passes, one byte more does not; a PDF never passes. */
  lemma UploadLimitExamples()
    ensures UploadAccepted("image/png", 10485760)
    ensures !UploadAccepted("image/png", 10485761)
    ensures !UploadAccepted("application/pdf", 1)
  {
    assert "application/pdf"[0] != "image/"[0];
  }
}
