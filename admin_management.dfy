/**
 * The admin list of the admin area: the administrators read from the
 * authentication table (or a demonstration entry when that read fails),
 * which of them may be removed, and the checks of the change-password form.
 */
module AdminManagement {
  import opened Common

  /** The administrator who can never be removed. */
  const PRIMARY_ADMIN: string := "admin@trustmission.com"

  /** A row of the authentication table, with the names from its metadata when present. */
  datatype AuthRow = AuthRow(id: Id, email: string, firstName: Option<string>, lastName: Option<string>,
                             createdAt: string, lastSignInAt: Option<string>)

  datatype AdminUser = AdminUser(id: Id, email: string, firstName: string, lastName: string,
                                 createdAt: string, lastSignInAt: Option<string>)

  /** `value || fallback` on an optional string: a missing or empty name gives the fallback. */
  function NameOr(name: Option<string>, fallback: string): (r: string)
    ensures name.Some? && name.value != "" ==> r == name.value
    ensures name.None? || name.value == "" ==> r == fallback
  {
    if name.Some? && name.value != "" then name.value else fallback
  }

  /** One fetched administrator: a missing first name reads "Admin", a missing last name "User". */
  function AdminOf(row: AuthRow): (a: AdminUser)
    ensures a.id == row.id && a.email == row.email && a.createdAt == row.createdAt
    ensures a.lastSignInAt == row.lastSignInAt
    ensures a.firstName == NameOr(row.firstName, "Admin") && a.lastName == NameOr(row.lastName, "User")
    ensures a.firstName != "" && a.lastName != ""
  {
    AdminUser(row.id, row.email, NameOr(row.firstName, "Admin"), NameOr(row.lastName, "User"),
              row.createdAt, row.lastSignInAt)
  }

  /** The entry shown when the read fails; `now` is the instant of the fetch. */
  function DemoAdmin(now: string): AdminUser {
    AdminUser("admin-1", PRIMARY_ADMIN, "Admin", "User", "2024-01-01T00:00:00Z", Some(now))
  }

  /**
   * `fetchAdmins`: the rows returned (`None` for a query error), each
   * mapped as above, or the single demonstration entry on an error.
   */
  function FetchAdmins(result: Option<seq<AuthRow>>, now: string): (admins: seq<AdminUser>)
    ensures result.None? ==> admins == [DemoAdmin(now)]
    ensures result.Some? ==>
      |admins| == |result.value|
      && forall i :: 0 <= i < |admins| ==> admins[i] == AdminOf(result.value[i])
  {
    if result.None? then [DemoAdmin(now)]
    else seq(|result.value|, i requires 0 <= i < |result.value| => AdminOf(result.value[i]))
  }

  /** The remove button of a row. */
  predicate RemoveOffered(a: AdminUser) {
    a.email != PRIMARY_ADMIN
  }

  /**
   * Whatever the read returns, no row of the primary administrator offers
   * removal, and the demonstration entry is that administrator.
   */
  lemma PrimaryAdminKept(result: Option<seq<AuthRow>>, now: string)
    ensures forall a :: a in FetchAdmins(result, now) && a.email == PRIMARY_ADMIN ==> !RemoveOffered(a)
    ensures result.None? ==> forall a :: a in FetchAdmins(result, now) ==> !RemoveOffered(a)
  {
  }

  /** The outcome of the change-password form, its checks in the order they run. */
  datatype PasswordCheck = Mismatch | TooShort | Accepted

  /** The minimum length of a new password. */
  const MIN_PASSWORD_LENGTH: nat := 8

  /**
   * `ChangePasswordModal.handleSubmit`: the confirmation is compared first,
   * then the length. The current password is read by no check.
   */
  function CheckPassword(current: string, newPassword: string, confirm: string): (c: PasswordCheck)
    ensures c == Mismatch <==> newPassword != confirm
    ensures c == TooShort <==> newPassword == confirm && |newPassword| < MIN_PASSWORD_LENGTH
    ensures c == Accepted <==> newPassword == confirm && |newPassword| >= MIN_PASSWORD_LENGTH
  {
    if newPassword != confirm then Mismatch
    else if |newPassword| < MIN_PASSWORD_LENGTH then TooShort
    else Accepted
  }

  /** The alert each outcome raises for the administrator with that email. */
  function PasswordAlert(c: PasswordCheck, email: string): string {
    match c
    case Mismatch => "New passwords do not match"
    case TooShort => "Password must be at least 8 characters long"
    case Accepted => "Password for " + email + " would be updated in a real implementation"
  }

  /**
   * A mismatch is reported even for a short password, a matching password
   * under eight characters gets the length alert, any other names the
   * administrator, and the current password never changes the outcome.
   */
  lemma PasswordCheckOrder(current: string, other: string, newPassword: string, confirm: string, email: string)
    ensures newPassword != confirm ==> PasswordAlert(CheckPassword(current, newPassword, confirm), email) == "New passwords do not match"
    ensures newPassword == confirm && |newPassword| < 8 ==>
      PasswordAlert(CheckPassword(current, newPassword, confirm), email) == "Password must be at least 8 characters long"
    ensures newPassword == confirm && |newPassword| >= 8 ==>
      PasswordAlert(CheckPassword(current, newPassword, confirm), email)
      == "Password for " + email + " would be updated in a real implementation"
    ensures CheckPassword(current, newPassword, confirm) == CheckPassword(other, newPassword, confirm)
  {
  }
}
