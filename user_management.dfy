/**
 * The user review console: the `users` table, the list fetched from it,
 * the status tabs, the detail view and the approve/reject actions, offered
 * only for accounts still under review.
 */
module UserManagement {
  import opened Common
  import opened Records
  import opened AdminTables

  function StatusOf(u: Profile): ReviewStatus { u.status }

  /** The column the console's query sorts by, `created_at`. */
  function CreatedAt(u: Profile): int { u.createdAt }

  /** The tab counts: the three review states share out the whole list. */
  lemma TabCountsAddUp(users: seq<Profile>)
    ensures CountBy(users, StatusOf, Pending) + CountBy(users, StatusOf, Approved)
      + CountBy(users, StatusOf, Rejected) == |Filtered(users, StatusOf, All)|
  {
    assert forall u :: StatusOf(u) == Pending || StatusOf(u) == Approved || StatusOf(u) == Rejected;
    CountByThree(users, StatusOf, Pending, Approved, Rejected);
  }

  /** The Approve and Reject buttons of the detail view appear only for a pending account. */
  predicate ActionsOffered(selected: Option<Profile>) {
    selected.Some? && selected.value.status == Pending
  }

  /** The row `rejectUser` writes: the status, and nothing of the ledger. */
  function Reject(u: Profile): (v: Profile)
    ensures v.status == Rejected && !ActionsOffered(Some(v))
    ensures v.(status := u.status) == u
    ensures v.totalBalance == u.totalBalance && v.withdrawableAmount == u.withdrawableAmount
    ensures v.welcomeBonus == u.welcomeBonus && v.quizEarnings == u.quizEarnings && v.referralEarnings == u.referralEarnings
  {
    u.(status := Rejected)
  }

  class Console {
    var db: map<Id, Profile>
    var users: seq<Profile>
    var selected: Option<Profile>
    var filter: Filter<ReviewStatus>

    /** Every row is stored under its own id. */
    ghost predicate Valid()
      reads this
    {
      forall k :: k in db ==> db[k].id == k
    }

    /** The list the current tab shows. */
    function Shown(): (r: seq<Profile>)
      reads this
      ensures filter.All? ==> r == users
      ensures filter.Only? ==> forall u :: u in r <==> u in users && u.status == filter.status
    {
      Filtered(users, StatusOf, filter)
    }

    /** The console opens on the 'all' tab with nothing fetched or selected. */
    constructor (table: map<Id, Profile>)
      requires forall k :: k in table ==> table[k].id == k
      ensures Valid()
      ensures db == table && users == [] && selected.None? && filter == All
    {
      db := table;
      users := [];
      selected := None;
      filter := All;
    }

    /**
     * `fetchUsers`: on success the list is the whole table, newest first by
     * `created_at`; on a query error the old list stays.
     */
    method Fetch(order: seq<Id>, ok: bool)
      requires NewestFirst(db, order, CreatedAt)
      modifies this
      ensures db == old(db) && selected == old(selected) && filter == old(filter)
      ensures users == if ok then RowsOf(db, order) else old(users)
      ensures ok ==> forall u :: u in users <==> u in db.Values
      ensures ok ==> Descending(users, CreatedAt) && |users| == |db|
    {
      if ok {
        NewestFirstRows(db, order, CreatedAt);
        users := RowsOf(db, order);
      }
    }

    /** A tab click. */
    method SetFilter(f: Filter<ReviewStatus>)
      modifies this
      ensures filter == f
      ensures db == old(db) && users == old(users) && selected == old(selected)
    {
      filter := f;
    }

    /** The eye button of a row opens its detail view; the close button clears it. */
    method Select(u: Option<Profile>)
      modifies this
      ensures selected == u
      ensures db == old(db) && users == old(users) && filter == old(filter)
    {
      selected := u;
    }

    /**
     * `rejectUser`: the update writes `status: 'rejected'` on the row with
     * that id only (an unknown id matches no row); on success the list is
     * fetched again and the detail view closes. An update error changes
     * nothing.
     */
    method RejectUser(id: Id, updateOk: bool, fetchOk: bool, order: seq<Id>)
      requires Valid() && NewestFirst(db, order, CreatedAt)
      modifies this
      ensures Valid()
      ensures updateOk ==> db == (if id in old(db) then old(db)[id := Reject(old(db)[id])] else old(db))
      ensures NewestFirst(db, order, CreatedAt)
      ensures updateOk ==> selected.None? && users == (if fetchOk then RowsOf(db, order) else old(users))
      ensures updateOk && fetchOk ==> forall i :: 0 <= i < |users| && users[i].id == id ==> !ActionsOffered(Some(users[i]))
      ensures !updateOk ==> db == old(db) && users == old(users) && selected == old(selected)
      ensures filter == old(filter)
    {
      if updateOk {
        if id in db {
          db := db[id := Reject(db[id])];
        }
        NewestFirstKeepsStamps(old(db), db, order, CreatedAt);
        Fetch(order, fetchOk);
        selected := None;
      }
    }

    /**
     * `approveUser`: the database function `approve_user` is not part of
     * this model; its effect is the table `after` it leaves (or `None` on
     * an error). On success the list is fetched again and the detail view
     * closes.
     */
    method ApproveUser(after: Option<map<Id, Profile>>, fetchOk: bool, order: seq<Id>)
      requires after.Some? ==> NewestFirst(after.value, order, CreatedAt) && forall k :: k in after.value ==> after.value[k].id == k
      modifies this
      ensures after.Some? ==> Valid()
      ensures after.Some? ==> db == after.value && selected.None?
      ensures after.Some? ==> users == if fetchOk then RowsOf(db, order) else old(users)
      ensures after.None? ==> db == old(db) && users == old(users) && selected == old(selected)
      ensures filter == old(filter)
    {
      if after.Some? {
        db := after.value;
        Fetch(order, fetchOk);
        selected := None;
      }
    }
  }
}
