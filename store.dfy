/** The in-memory stand-in for the SQLite database: the rows of the
    `contacts`, `notes`, `reminders` and `command_logs` tables, in insertion
    (row id) order, and the reminder bookkeeping of `check_reminders`. */
module Database {
  import opened Clock
  import opened Intents

  datatype ContactRow = ContactRow(name: string, phone: string, category: string)

  datatype NoteRow = NoteRow(content: string, category: string, created: Moment)

  datatype ReminderRow = ReminderRow(title: string, due: Moment, completed: bool)

  /** A `command_logs` row: the command kind, whether it succeeded, when. */
  datatype LogRow = LogRow(kind: Kind, success: bool, at: Moment)

  /** The default of the `category` column of `notes`. */
  const DefaultNoteCategory := "general"

  // ---------------------------------------------------------------- reminders

  /** The row filter `reminder_time <= now AND is_completed = 0`. */
  predicate IsDue(r: ReminderRow, now: Moment) {
    NotAfter(r.due, now) && !r.completed
  }

  /** A reminder after the check at `now`: completed if it was due. */
  function Settled(r: ReminderRow, now: Moment): ReminderRow {
    if IsDue(r, now) then r.(completed := true) else r
  }

  /** All reminders after the check at `now`. */
  function Settle(rs: seq<ReminderRow>, now: Moment): seq<ReminderRow> {
    seq(|rs|, k requires 0 <= k < |rs| => Settled(rs[k], now))
  }

  /** What the check says aloud, one line per due reminder in row order. */
  function Announcements(rs: seq<ReminderRow>, now: Moment): seq<string>
    decreases |rs|
  {
    if rs == [] then []
    else
      var last := rs[|rs| - 1];
      Announcements(rs[..|rs| - 1], now) + (if IsDue(last, now) then ["یادآوری: " + last.title] else [])
  }

  /** The check keeps every row's title and time, completes exactly the rows
      that were due, leaves none due, and a second check at the same time
      changes nothing. */
  lemma SettleSpec(rs: seq<ReminderRow>, now: Moment)
    ensures |Settle(rs, now)| == |rs|
    ensures forall k :: 0 <= k < |rs| ==>
      && Settle(rs, now)[k].title == rs[k].title
      && Settle(rs, now)[k].due == rs[k].due
      && (Settle(rs, now)[k].completed <==> rs[k].completed || NotAfter(rs[k].due, now))
    ensures forall k :: 0 <= k < |rs| ==> !IsDue(Settle(rs, now)[k], now)
    ensures Settle(Settle(rs, now), now) == Settle(rs, now)
  {
  }

  /** One announcement per due reminder: none exactly when nothing is due. */
  lemma {:induction false} AnnouncementsSpec(rs: seq<ReminderRow>, now: Moment)
    ensures |Announcements(rs, now)| <= |rs|
    ensures Announcements(rs, now) == [] <==> forall k :: 0 <= k < |rs| ==> !IsDue(rs[k], now)
    decreases |rs|
  {
    if rs != [] {
      var init := rs[..|rs| - 1];
      AnnouncementsSpec(init, now);
      assert forall k :: 0 <= k < |init| ==> init[k] == rs[k];
    }
  }

  /** After a check, the next check at the same time announces nothing. */
  lemma SecondCheckIsSilent(rs: seq<ReminderRow>, now: Moment)
    ensures Announcements(Settle(rs, now), now) == []
  {
    SettleSpec(rs, now);
    AnnouncementsSpec(Settle(rs, now), now);
  }

  /** One step of the row-by-row check: settling row `i` of a table whose
      first `i` rows are settled leaves the first `i + 1` settled, and adds
      that row's announcement, if any, to the earlier ones. */
  lemma SettleStep(rs: seq<ReminderRow>, i: nat, now: Moment)
    requires i < |rs|
    ensures (Settle(rs[..i], now) + rs[i..])[i := Settled(rs[i], now)] == Settle(rs[..i + 1], now) + rs[i + 1..]
    ensures Announcements(rs[..i + 1], now) == Announcements(rs[..i], now) + (if IsDue(rs[i], now) then ["یادآوری: " + rs[i].title] else [])
  {
    assert rs[..i + 1][..i] == rs[..i];
  }

  // ---------------------------------------------------------------- the store

  class Store {
    var contacts: seq<ContactRow>
    var notes: seq<NoteRow>
    var reminders: seq<ReminderRow>
    var logs: seq<LogRow>

    /** A database whose tables are empty. */
    constructor ()
      ensures contacts == [] && notes == [] && reminders == [] && logs == []
    {
      contacts, notes, reminders, logs := [], [], [], [];
    }

    method InsertContacts(cs: seq<ContactRow>)
      modifies this
      ensures contacts == old(contacts) + cs
      ensures notes == old(notes) && reminders == old(reminders) && logs == old(logs)
    {
      contacts := contacts + cs;
    }

    method InsertNote(content: string, category: string, now: Moment)
      modifies this
      ensures notes == old(notes) + [NoteRow(content, category, now)]
      ensures contacts == old(contacts) && reminders == old(reminders) && logs == old(logs)
    {
      notes := notes + [NoteRow(content, category, now)];
    }

    /** `INSERT INTO reminders (title, reminder_time)`: a new row is open. */
    method InsertReminder(title: string, due: Moment)
      modifies this
      ensures reminders == old(reminders) + [ReminderRow(title, due, false)]
      ensures contacts == old(contacts) && notes == old(notes) && logs == old(logs)
    {
      reminders := reminders + [ReminderRow(title, due, false)];
    }

    method InsertLog(kind: Kind, success: bool, now: Moment)
      modifies this
      ensures logs == old(logs) + [LogRow(kind, success, now)]
      ensures contacts == old(contacts) && notes == old(notes) && reminders == old(reminders)
    {
      logs := logs + [LogRow(kind, success, now)];
    }

    /** `UPDATE reminders SET is_completed = 1 WHERE id = ?` */
    method MarkCompleted(i: nat)
      requires i < |reminders|
      modifies this
      ensures reminders == old(reminders)[i := old(reminders)[i].(completed := true)]
      ensures contacts == old(contacts) && notes == old(notes) && logs == old(logs)
    {
      reminders := reminders[i := reminders[i].(completed := true)];
    }
  }
}
