/**
 * The withdrawal review console: the `withdrawal_requests` table, the list
 * fetched from it, the status tabs and the approve/reject decision, offered
 * only for requests still pending, in the row and in the detail view.
 */
module WithdrawalManagement {
  import opened Common
  import opened Records
  import opened AdminTables

  function StatusOf(w: WithdrawalRequest): ReviewStatus { w.status }

  /** The column the console's query sorts by, `requested_at`. */
  function RequestedAt(w: WithdrawalRequest): int { w.requestedAt }

  /** The tab counts: pending, approved and rejected share out the whole list. */
  lemma TabCountsAddUp(rows: seq<WithdrawalRequest>)
    ensures CountBy(rows, StatusOf, Pending) + CountBy(rows, StatusOf, Approved)
      + CountBy(rows, StatusOf, Rejected) == |Filtered(rows, StatusOf, All)|
  {
    assert forall w :: StatusOf(w) == Pending || StatusOf(w) == Approved || StatusOf(w) == Rejected;
    CountByThree(rows, StatusOf, Pending, Approved, Rejected);
  }

  /** The approve and reject buttons, of a row and of the detail view, exist only for a pending request. */
  predicate ActionsOffered(w: WithdrawalRequest) {
    w.status == Pending
  }

  /**
   * The row `processWithdrawal` writes: the decision, the notes when some
   * are given (an `undefined` value is not sent), and the processing
   * instant; the amount, the bank details and the owner are not touched.
   */
  function Decide(w: WithdrawalRequest, status: ReviewStatus, notes: Option<string>, now: int): (v: WithdrawalRequest)
    requires status != Pending
    ensures v.status == status && !ActionsOffered(v)
    ensures v.adminNotes == (if notes.Some? then notes else w.adminNotes)
    ensures v.processedAt == Some(now)
    ensures v.(status := w.status, adminNotes := w.adminNotes, processedAt := w.processedAt) == w
  {
    w.(status := status, adminNotes := if notes.Some? then notes else w.adminNotes, processedAt := Some(now))
  }

  class Console {
    var db: map<Id, WithdrawalRequest>
    var withdrawals: seq<WithdrawalRequest>
    var selected: Option<WithdrawalRequest>
    var filter: Filter<ReviewStatus>

    /** Every row is stored under its own id. */
    ghost predicate Valid()
      reads this
    {
      forall k :: k in db ==> db[k].id == k
    }

    /** The list the current tab shows. */
    function Shown(): (r: seq<WithdrawalRequest>)
      reads this
      ensures filter.All? ==> r == withdrawals
      ensures filter.Only? ==> forall w :: w in r <==> w in withdrawals && w.status == filter.status
    {
      Filtered(withdrawals, StatusOf, filter)
    }

    constructor (table: map<Id, WithdrawalRequest>)
      requires forall k :: k in table ==> table[k].id == k
      ensures Valid()
      ensures db == table && withdrawals == [] && selected.None? && filter == All
    {
      db := table;
      withdrawals := [];
      selected := None;
      filter := All;
    }

    /** `fetchWithdrawals`: the whole table newest first by `requested_at`, or the old list on an error. */
    method Fetch(order: seq<Id>, ok: bool)
      requires NewestFirst(db, order, RequestedAt)
      modifies this
      ensures db == old(db) && selected == old(selected) && filter == old(filter)
      ensures withdrawals == if ok then RowsOf(db, order) else old(withdrawals)
      ensures ok ==> forall w :: w in withdrawals <==> w in db.Values
      ensures ok ==> Descending(withdrawals, RequestedAt) && |withdrawals| == |db|
    {
      if ok {
        NewestFirstRows(db, order, RequestedAt);
        withdrawals := RowsOf(db, order);
      }
    }

    method SetFilter(f: Filter<ReviewStatus>)
      modifies this
      ensures filter == f
      ensures db == old(db) && withdrawals == old(withdrawals) && selected == old(selected)
    {
      filter := f;
    }

    method Select(w: Option<WithdrawalRequest>)
      modifies this
      ensures selected == w
      ensures db == old(db) && withdrawals == old(withdrawals) && filter == old(filter)
    {
      selected := w;
    }

    /**
     * `processWithdrawal(id, status, notes)` at instant `now`: one row is
     * updated (an unknown id matches none); on success the list is fetched
     * again and the detail view closes; an update error changes nothing.
     * No balance is touched.
     */
    method ProcessWithdrawal(id: Id, status: ReviewStatus, notes: Option<string>, now: int,
                             updateOk: bool, fetchOk: bool, order: seq<Id>)
      requires status != Pending
      requires Valid() && NewestFirst(db, order, RequestedAt)
      modifies this
      ensures Valid()
      ensures updateOk ==> db == (if id in old(db) then old(db)[id := Decide(old(db)[id], status, notes, now)] else old(db))
      ensures NewestFirst(db, order, RequestedAt)
      ensures updateOk ==> selected.None? && withdrawals == (if fetchOk then RowsOf(db, order) else old(withdrawals))
      ensures updateOk && id in db ==> db[id].status == status && !ActionsOffered(db[id])
      ensures !updateOk ==> db == old(db) && withdrawals == old(withdrawals) && selected == old(selected)
      ensures filter == old(filter)
    {
      if updateOk {
        if id in db {
          db := db[id := Decide(db[id], status, notes, now)];
        }
        NewestFirstKeepsStamps(old(db), db, order, RequestedAt);
        Fetch(order, fetchOk);
        selected := None;
      }
    }
  }
}
