/** The tables and the delayed-job queue that the services write to. */
module Database {
  import opened Domain
  import opened Coupling

  /** One row of a GROUP BY over reservation status. */
  datatype StatusCount = StatusCount(status: ReservationStatus, count: int)

  predicate Listed(g: seq<StatusCount>, status: ReservationStatus) {
    exists i :: 0 <= i < |g| && g[i].status == status
  }

  /** What GROUP BY returns: each status that occurs, once, with its count, in no particular order. */
  ghost predicate Groups(g: seq<StatusCount>, rows: seq<Reservation>) {
    && (forall i :: 0 <= i < |g| ==> g[i].count == |RowsWith(rows, g[i].status)| > 0)
    && (forall i, j :: 0 <= i < j < |g| ==> g[i].status != g[j].status)
    && (forall r :: 0 <= r < |rows| ==> Listed(g, rows[r].status))
  }

  /** Rows of the tables, and delayed jobs, that carry one event's identifier. */
  datatype EventRows = EventRows(
    entries: map<UserId, Entry>,       // unique per event and user
    reservations: seq<Reservation>,
    jobs: map<nat, Time>)              // delayed expiry jobs and when they fall due

  const NO_ROWS: EventRows := EventRows(map[], [], map[])

  class Tables {
    var events: map<EventId, Event>
    var nextEvent: EventId
    var rows: map<EventId, EventRows>

    constructor ()
      ensures events == map[] && rows == map[] && nextEvent == 0
    {
      events, rows, nextEvent := map[], map[], 0;
    }

    function RowsOf(e: EventId): EventRows reads this { if e in rows then rows[e] else NO_ROWS }

    method SaveEvent(event: Event) returns (e: EventId)
      modifies this`events, this`nextEvent
      ensures e == old(nextEvent) && nextEvent == e + 1 && events == old(events)[e := event]
    {
      e := nextEvent;
      events := events[e := event];
      nextEvent := nextEvent + 1;
    }

    method SaveEntry(e: EventId, u: UserId, entry: Entry)
      modifies this`rows
      ensures rows == old(rows)[e := old(RowsOf(e)).(entries := old(RowsOf(e)).entries[u := entry])]
    {
      rows := rows[e := RowsOf(e).(entries := RowsOf(e).entries[u := entry])];
    }

    method UpdateEntryStatus(e: EventId, u: UserId, status: EntryStatus)
      modifies this`rows
      ensures rows == old(rows)[e := old(RowsOf(e)).(entries := WithStatus(old(RowsOf(e)).entries, u, status))]
    {
      rows := rows[e := RowsOf(e).(entries := WithStatus(RowsOf(e).entries, u, status))];
    }

    method ActivateEntry(e: EventId, u: UserId, r: nat)
      modifies this`rows
      ensures rows == old(rows)[e := old(RowsOf(e)).(entries := WithReservation(old(RowsOf(e)).entries, u, r))]
    {
      rows := rows[e := RowsOf(e).(entries := WithReservation(RowsOf(e).entries, u, r))];
    }

    method InsertReservation(e: EventId, row: Reservation) returns (r: nat)
      modifies this`rows
      ensures r == |old(RowsOf(e)).reservations|
      ensures rows == old(rows)[e := old(RowsOf(e)).(reservations := old(RowsOf(e)).reservations + [row])]
    {
      r := |RowsOf(e).reservations|;
      rows := rows[e := RowsOf(e).(reservations := RowsOf(e).reservations + [row])];
    }

    method UpdateReservation(e: EventId, r: nat, row: Reservation)
      requires r < |RowsOf(e).reservations|
      modifies this`rows
      ensures rows == old(rows)[e := old(RowsOf(e)).(reservations := old(RowsOf(e)).reservations[r := row])]
    {
      rows := rows[e := RowsOf(e).(reservations := RowsOf(e).reservations[r := row])];
    }

    method AddJob(e: EventId, r: nat, due: Time)
      modifies this`rows
      ensures rows == old(rows)[e := old(RowsOf(e)).(jobs := old(RowsOf(e)).jobs[r := due])]
    {
      rows := rows[e := RowsOf(e).(jobs := RowsOf(e).jobs[r := due])];
    }

    /** All event identifiers, each once, in an order of the database's choosing. */
    method FindAllEvents() returns (ids: seq<EventId>)
      ensures forall i, j :: 0 <= i < j < |ids| ==> ids[i] != ids[j]
      ensures forall e :: e in ids <==> e in events
    {
      ids := [];
      var rest := events.Keys;
      while rest != {}
        invariant forall i, j :: 0 <= i < j < |ids| ==> ids[i] != ids[j]
        invariant rest <= events.Keys
        invariant forall e :: e in ids <==> e in events && e !in rest
        decreases |rest|
      {
        var e :| e in rest;
        rest := rest - {e};
        ids := ids + [e];
      }
    }

    /** SELECT status, COUNT(*) ... GROUP BY status. */
    method GroupByStatus(e: EventId) returns (g: seq<StatusCount>)
      ensures Groups(g, RowsOf(e).reservations)
    {
      var rows := RowsOf(e).reservations;
      g := [];
      var rest := {PendingPayment, ReservationStatus.Paid, Canceled, ReservationStatus.Expired};
      forall st: ReservationStatus ensures st in rest {
        match st case PendingPayment => case Paid => case Canceled => case Expired =>
      }
      while rest != {}
        invariant forall i :: 0 <= i < |g| ==>
                    g[i].status !in rest && g[i].count == |RowsWith(rows, g[i].status)| > 0
        invariant forall i, j :: 0 <= i < j < |g| ==> g[i].status != g[j].status
        invariant forall r :: 0 <= r < |rows| && rows[r].status !in rest ==>
                    Listed(g, rows[r].status)
        decreases |rest|
      {
        var st :| st in rest;
        rest := rest - {st};
        ghost var before := g;
        CountIsRows(rows, st);
        if CountStatus(rows, st) > 0 {
          g := g + [StatusCount(st, CountStatus(rows, st))];
          assert g[|g| - 1].status == st;
        } else {
          assert forall r :: 0 <= r < |rows| ==> r !in RowsWith(rows, st);
        }
        assert forall i :: 0 <= i < |before| ==> g[i] == before[i];
      }
      forall r | 0 <= r < |rows| ensures Listed(g, rows[r].status) {
        assert rows[r].status !in rest;
      }
    }
  }
}
