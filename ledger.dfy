/** The reminder ledger: the table tl_event_registration_reminder_notification.
    A row records that a reminder for a (user, calendar) pair was sent. After a
    successful send the controller inserts a new row and deletes every other row
    of that pair, so the table keeps one "last reminder sent" row per pair.
    Only the insert / delete / lookup semantics are modelled; the write
    timestamps (tstamp, addedOn) are not. */
module NotificationLedger {

  /** One row; `id` is the auto-increment primary key. */
  datatype Record = Record(id: int, user: int, calendar: int, title: string)

  /** The table's rows in insertion order, and the next auto-increment value. */
  datatype Table = Table(rows: seq<Record>, nextId: int)

  /** Every stored id lies below the auto-increment counter, so the next
      insert gets an id no row has. */
  predicate WellFormed(t: Table)
  {
    forall r | r in t.rows :: r.id < t.nextId
  }

  /** The rows of the (user, calendar) pair, in table order: what
      `SELECT ... WHERE user = ? AND calendar = ?` returns. */
  function RowsFor(rows: seq<Record>, user: int, calendar: int): (r: seq<Record>)
    ensures forall x :: x in r <==> x in rows && x.user == user && x.calendar == calendar
    ensures |r| <= |rows|
  {
    if rows == [] then []
    else
      var tail := RowsFor(rows[1..], user, calendar);
      if rows[0].user == user && rows[0].calendar == calendar then [rows[0]] + tail else tail
  }

  /** The rows left by `DELETE ... WHERE id != keep AND user = ? AND calendar = ?`,
      in their original order. */
  function Survivors(rows: seq<Record>, keep: int, user: int, calendar: int): (r: seq<Record>)
    ensures forall x :: x in r <==> x in rows && (x.id == keep || x.user != user || x.calendar != calendar)
    ensures |r| <= |rows|
  {
    if rows == [] then []
    else
      var tail := Survivors(rows[1..], keep, user, calendar);
      if rows[0].id != keep && rows[0].user == user && rows[0].calendar == calendar then tail
      else [rows[0]] + tail
  }

  /** The table after inserting a row for (user, calendar) with the next id. */
  function Inserted(t: Table, user: int, calendar: int, title: string): Table
  {
    Table(t.rows + [Record(t.nextId, user, calendar, title)], t.nextId + 1)
  }

  /** The table after deleting every row of (user, calendar) except row `keep`;
      the auto-increment counter is untouched. */
  function Pruned(t: Table, keep: int, user: int, calendar: int): Table
  {
    Table(Survivors(t.rows, keep, user, calendar), t.nextId)
  }

  /** Insert followed by the prune scoped to the inserted row's id. */
  function MarkNotified(t: Table, user: int, calendar: int, title: string): Table
  {
    Pruned(Inserted(t, user, calendar, title), t.nextId, user, calendar)
  }

  lemma {:induction false} RowsForAppend(a: seq<Record>, b: seq<Record>, user: int, calendar: int)
    ensures RowsFor(a + b, user, calendar) == RowsFor(a, user, calendar) + RowsFor(b, user, calendar)
  {
    if a == [] {
      assert a + b == b;
    } else {
      assert (a + b)[0] == a[0] && (a + b)[1..] == a[1..] + b;
      RowsForAppend(a[1..], b, user, calendar);
      if a[0].user == user && a[0].calendar == calendar {
        assert [a[0]] + (RowsFor(a[1..], user, calendar) + RowsFor(b, user, calendar))
            == ([a[0]] + RowsFor(a[1..], user, calendar)) + RowsFor(b, user, calendar);
      }
    }
  }

  lemma {:induction false} SurvivorsAppend(a: seq<Record>, b: seq<Record>, keep: int, user: int, calendar: int)
    ensures Survivors(a + b, keep, user, calendar) == Survivors(a, keep, user, calendar) + Survivors(b, keep, user, calendar)
  {
    if a == [] {
      assert a + b == b;
    } else {
      assert (a + b)[0] == a[0] && (a + b)[1..] == a[1..] + b;
      SurvivorsAppend(a[1..], b, keep, user, calendar);
      if !(a[0].id != keep && a[0].user == user && a[0].calendar == calendar) {
        assert [a[0]] + (Survivors(a[1..], keep, user, calendar) + Survivors(b, keep, user, calendar))
            == ([a[0]] + Survivors(a[1..], keep, user, calendar)) + Survivors(b, keep, user, calendar);
      }
    }
  }

  /** The prune leaves the rows of every other pair exactly as they were. */
  lemma {:induction false} SurvivorsKeepOtherPairs(rows: seq<Record>, keep: int, user: int, calendar: int, u: int, c: int)
    requires u != user || c != calendar
    ensures RowsFor(Survivors(rows, keep, user, calendar), u, c) == RowsFor(rows, u, c)
  {
    if rows != [] {
      SurvivorsKeepOtherPairs(rows[1..], keep, user, calendar, u, c);
      var tail := Survivors(rows[1..], keep, user, calendar);
      if rows[0].user == u && rows[0].calendar == c {
        assert ([rows[0]] + tail)[1..] == tail;
      } else if !(rows[0].id != keep && rows[0].user == user && rows[0].calendar == calendar) {
        assert ([rows[0]] + tail)[1..] == tail;
      }
    }
  }

  /** A pair none of whose rows is present has no rows. */
  lemma {:induction false} RowsForAbsent(rows: seq<Record>, user: int, calendar: int)
    requires forall x | x in rows :: x.user != user || x.calendar != calendar
    ensures RowsFor(rows, user, calendar) == []
  {
    if rows != [] {
      assert rows[0] in rows;
      RowsForAbsent(rows[1..], user, calendar);
    }
  }

  /** Recording a reminder on a well-formed table leaves exactly one row for
      the pair, namely the inserted one, and leaves every other pair's rows
      untouched. */
  lemma {:induction false} MarkNotifiedKeepsOne(t: Table, user: int, calendar: int, title: string)
    requires WellFormed(t)
    ensures var t' := MarkNotified(t, user, calendar, title);
      && WellFormed(t')
      && t'.nextId == t.nextId + 1
      && RowsFor(t'.rows, user, calendar) == [Record(t.nextId, user, calendar, title)]
      && forall u, c | u != user || c != calendar :: RowsFor(t'.rows, u, c) == RowsFor(t.rows, u, c)
  {
    var added := Record(t.nextId, user, calendar, title);
    var t' := MarkNotified(t, user, calendar, title);
    SurvivorsAppend(t.rows, [added], t.nextId, user, calendar);
    assert Survivors([added], t.nextId, user, calendar) == [added];
    var before := Survivors(t.rows, t.nextId, user, calendar);
    assert t'.rows == before + [added];
    RowsForAppend(before, [added], user, calendar);
    RowsForAbsent(before, user, calendar);
    assert RowsFor([added], user, calendar) == [added];
    forall u, c | u != user || c != calendar
      ensures RowsFor(t'.rows, u, c) == RowsFor(t.rows, u, c)
    {
      RowsForAppend(before, [added], u, c);
      assert RowsFor([added], u, c) == [];
      SurvivorsKeepOtherPairs(t.rows, t.nextId, user, calendar, u, c);
    }
  }

  /** Running the prune a second time right after the first deletes nothing. */
  lemma {:induction false} SurvivorsIdempotent(rows: seq<Record>, keep: int, user: int, calendar: int)
    ensures Survivors(Survivors(rows, keep, user, calendar), keep, user, calendar) == Survivors(rows, keep, user, calendar)
  {
    if rows != [] {
      SurvivorsIdempotent(rows[1..], keep, user, calendar);
      var tail := Survivors(rows[1..], keep, user, calendar);
      if !(rows[0].id != keep && rows[0].user == user && rows[0].calendar == calendar) {
        assert ([rows[0]] + tail)[1..] == tail;
      }
    }
  }

  lemma PruneIdempotent(t: Table, keep: int, user: int, calendar: int)
    ensures Pruned(Pruned(t, keep, user, calendar), keep, user, calendar) == Pruned(t, keep, user, calendar)
  {
    SurvivorsIdempotent(t.rows, keep, user, calendar);
  }

  /** The reminder table as the controller's database connection sees it. */
  class Ledger {
    var rows: seq<Record>
    var nextId: int
    /** What the connection's lastInsertId() reports. */
    var lastInsertId: int

    function State(): Table
      reads this
    {
      Table(rows, nextId)
    }

    constructor (t: Table)
      ensures State() == t
    {
      rows := t.rows;
      nextId := t.nextId;
      lastInsertId := 0;
    }

    /** `insert(table, set)`: appends a row with the next auto-increment id and
        reports one affected row. */
    method Insert(user: int, calendar: int, title: string) returns (affected: nat)
      modifies this
      ensures State() == Inserted(old(State()), user, calendar, title)
      ensures lastInsertId == old(nextId)
      ensures affected == 1
    {
      rows := rows + [Record(nextId, user, calendar, title)];
      lastInsertId := nextId;
      nextId := nextId + 1;
      affected := 1;
    }

    /** `DELETE ... WHERE id != keep AND user = ? AND calendar = ?`. */
    method DeleteOthers(keep: int, user: int, calendar: int)
      modifies this
      ensures State() == Pruned(old(State()), keep, user, calendar)
      ensures lastInsertId == old(lastInsertId)
    {
      rows := Survivors(rows, keep, user, calendar);
    }
  }
}
