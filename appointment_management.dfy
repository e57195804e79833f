/**
 * The appointment console: the `appointments` table, the list fetched from
 * it, the status tabs and the confirm/cancel decision, offered only for
 * appointments still pending, on the card and in the detail view.
 */
module AppointmentManagement {
  import opened Common
  import opened Records
  import opened AdminTables

  function StatusOf(a: Appointment): AppointmentStatus { a.status }

  /** The column the console's query sorts by, `created_at`. */
  function CreatedAt(a: Appointment): int { a.createdAt }

  /** The tab counts: pending, confirmed and cancelled share out the whole list. */
  lemma TabCountsAddUp(rows: seq<Appointment>)
    ensures CountBy(rows, StatusOf, AppointmentPending) + CountBy(rows, StatusOf, Confirmed)
      + CountBy(rows, StatusOf, Cancelled) == |Filtered(rows, StatusOf, All)|
  {
    assert forall a :: StatusOf(a) == AppointmentPending || StatusOf(a) == Confirmed || StatusOf(a) == Cancelled;
    CountByThree(rows, StatusOf, AppointmentPending, Confirmed, Cancelled);
  }

  /** The confirm and cancel buttons, of a card and of the detail view, exist only for a pending appointment. */
  predicate ActionsOffered(a: Appointment) {
    a.status == AppointmentPending
  }

  /**
   * The row `updateAppointment` writes: the decision, the notes when some
   * are given (an `undefined` value is not sent), and the update instant;
   * the requested date, time and message are not touched.
   */
  function Decide(a: Appointment, status: AppointmentStatus, notes: Option<string>, now: int): (v: Appointment)
    requires status != AppointmentPending
    ensures v.status == status && !ActionsOffered(v)
    ensures v.adminNotes == (if notes.Some? then notes else a.adminNotes)
    ensures v.updatedAt == now
    ensures v.(status := a.status, adminNotes := a.adminNotes, updatedAt := a.updatedAt) == a
  {
    a.(status := status, adminNotes := if notes.Some? then notes else a.adminNotes, updatedAt := now)
  }

  class Console {
    var db: map<Id, Appointment>
    var appointments: seq<Appointment>
    var selected: Option<Appointment>
    var filter: Filter<AppointmentStatus>

    /** Every row is stored under its own id. */
    ghost predicate Valid()
      reads this
    {
      forall k :: k in db ==> db[k].id == k
    }

    /** The list the current tab shows. */
    function Shown(): (r: seq<Appointment>)
      reads this
      ensures filter.All? ==> r == appointments
      ensures filter.Only? ==> forall a :: a in r <==> a in appointments && a.status == filter.status
    {
      Filtered(appointments, StatusOf, filter)
    }

    constructor (table: map<Id, Appointment>)
      requires forall k :: k in table ==> table[k].id == k
      ensures Valid()
      ensures db == table && appointments == [] && selected.None? && filter == All
    {
      db := table;
      appointments := [];
      selected := None;
      filter := All;
    }

    /** `fetchAppointments`: the whole table newest first by `created_at`, or the old list on an error. */
    method Fetch(order: seq<Id>, ok: bool)
      requires NewestFirst(db, order, CreatedAt)
      modifies this
      ensures db == old(db) && selected == old(selected) && filter == old(filter)
      ensures appointments == if ok then RowsOf(db, order) else old(appointments)
      ensures ok ==> forall a :: a in appointments <==> a in db.Values
      ensures ok ==> Descending(appointments, CreatedAt) && |appointments| == |db|
    {
      if ok {
        NewestFirstRows(db, order, CreatedAt);
        appointments := RowsOf(db, order);
      }
    }

    method SetFilter(f: Filter<AppointmentStatus>)
      modifies this
      ensures filter == f
      ensures db == old(db) && appointments == old(appointments) && selected == old(selected)
    {
      filter := f;
    }

    method Select(a: Option<Appointment>)
      modifies this
      ensures selected == a
      ensures db == old(db) && appointments == old(appointments) && filter == old(filter)
    {
      selected := a;
    }

    /**
     * `updateAppointment(id, status, notes)` at instant `now`: one row is
     * updated (an unknown id matches none); on success the list is fetched
     * again and the detail view closes; an update error changes nothing.
     */
    method UpdateAppointment(id: Id, status: AppointmentStatus, notes: Option<string>, now: int,
                             updateOk: bool, fetchOk: bool, order: seq<Id>)
      requires status != AppointmentPending
      requires Valid() && NewestFirst(db, order, CreatedAt)
      modifies this
      ensures Valid()
      ensures updateOk ==> db == (if id in old(db) then old(db)[id := Decide(old(db)[id], status, notes, now)] else old(db))
      ensures NewestFirst(db, order, CreatedAt)
      ensures updateOk ==> selected.None? && appointments == (if fetchOk then RowsOf(db, order) else old(appointments))
      ensures updateOk && id in db ==> db[id].status == status && !ActionsOffered(db[id])
      ensures !updateOk ==> db == old(db) && appointments == old(appointments) && selected == old(selected)
      ensures filter == old(filter)
    {
      if updateOk {
        if id in db {
          db := db[id := Decide(db[id], status, notes, now)];
        }
        NewestFirstKeepsStamps(old(db), db, order, CreatedAt);
        Fetch(order, fetchOk);
        selected := None;
      }
    }
  }
}
