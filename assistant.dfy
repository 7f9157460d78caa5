/** The application-state part of `PersianVoiceAssistant`: the mute flag,
    the success counter, what the assistant says (the text handed to the
    speech engine, in order), startup wiring with the sample rows,
    `process_command_text`, `toggle_mute` and the periodic
    `check_reminders`. */
module Assistant {
  import opened Strings
  import opened Clock
  import opened Database
  import opened Handlers
  import opened Pipeline
  import opened Processor

  /** The rows `add_sample_data` inserts into `contacts`. */
  function SampleContacts(): seq<ContactRow> {
    [ ContactRow("مامان", "09123456789", "family"),
      ContactRow("بابا", "09129876543", "family"),
      ContactRow("علی", "09351112233", "friend"),
      ContactRow("رضا", "09125556677", "friend"),
      ContactRow("شرکت", "02144556677", "work") ]
  }

  /** What the guard of `process_command_text` says to text too short to
      be a command. */
  const NotUnderstood := "متوجه نشدم، لطفا دوباره بگویید"

  /** The input guard: `not text or len(text.strip()) < 2`. */
  predicate TooShort(text: string) {
    |Strip(text)| < 2
  }

  /** What `process_command_text` says for a result record: the response on
      success and the error on failure, with the source's defaults for a
      missing key. */
  function Reply(o: Outcome): string {
    if o.success then o.response.GetOr("انجام شد") else o.error.GetOr("خطا در اجرای فرمان")
  }

  /** The defaults are never used: whatever `process` returns carries the
      key `process_command_text` reads, so the assistant always says the
      handler's own text. In particular the canned reply of an unknown
      command is never said, only its error. */
  lemma ReplyIsHandlerText(text: string, contacts: seq<ContactRow>, now: Moment, pick: nat)
    requires pick < 4
    ensures var (kind, o, e) := Respond(text, contacts, now, pick);
      && (o.success ==> o.response.Some? && Reply(o) == o.response.value)
      && (!o.success ==> o.error.Some? && Reply(o) == o.error.value)
      && (kind == Intents.Unknown ==> Reply(o) == "فرمان نامشخص")
  {
    var t := Normalize(text);
    var (kind, params) := Intents.Classify(t);
    DispatchSpec(kind, params, t, contacts, now, pick);
  }

  class PersianVoiceAssistant {
    const db: Store
    const processor: CommandProcessor
    var isMuted: bool
    var commandCount: nat
    /** Everything `speak` has passed on to the speech engine, in order. */
    var spoken: seq<string>

    /** The processor shares the assistant's database and reports to its
        logger, as `setup_services` wires them. */
    ghost predicate Valid()
      reads this, processor
    {
      processor.db == db && processor.observer == AppLogger
    }

    /** `__init__`: the tables as the database file holds them, plus the
        sample rows, which `INSERT OR IGNORE` adds again on every start since
        no column is unique. */
    constructor (db: Store, now: Moment)
      modifies db
      ensures Valid() && this.db == db
      ensures db.contacts == old(db.contacts) + SampleContacts()
      ensures db.notes == old(db.notes) + [NoteRow("قبض برق را پرداخت کن", "important", now)]
      ensures db.reminders == old(db.reminders) && db.logs == old(db.logs)
      ensures !isMuted && commandCount == 0 && spoken == []
    {
      db.InsertContacts(SampleContacts());
      db.InsertNote("قبض برق را پرداخت کن", "important", now);
      var p := new CommandProcessor(db);
      p.observer := AppLogger;
      this.db := db;
      processor := p;
      isMuted := false;
      commandCount := 0;
      spoken := [];
    }

    /** `speak`: nothing is said while muted. */
    method Speak(text: string)
      modifies this
      ensures spoken == old(spoken) + (if isMuted then [] else [text])
      ensures isMuted == old(isMuted) && commandCount == old(commandCount)
    {
      if isMuted {
        return;
      }
      spoken := spoken + [text];
    }

    /** `toggle_mute`: flip the flag, then announce the new state, which is
        said only when the assistant has just been unmuted. */
    method ToggleMute()
      modifies this
      ensures isMuted == !old(isMuted) && commandCount == old(commandCount)
      ensures spoken == old(spoken) + (if isMuted then [] else ["صدا روشن شد"])
    {
      isMuted := !isMuted;
      var status := if isMuted then "خاموش" else "روشن";
      assert "صدا " + "روشن" + " شد" == "صدا روشن شد";
      Speak("صدا " + status + " شد");
    }

    /** `process_command_text`: text under two characters after stripping is
        answered by the guard without reaching the processor; otherwise the
        result is said and the counter grows exactly when it succeeded. */
    method ProcessCommandText(text: string, now: Moment, pick: nat)
      requires Valid() && pick < 4
      modifies this, db
      ensures Valid()
      ensures TooShort(text) ==>
        && spoken == old(spoken) + (if isMuted then [] else [NotUnderstood])
        && commandCount == old(commandCount)
        && db.contacts == old(db.contacts) && db.notes == old(db.notes)
        && db.reminders == old(db.reminders) && db.logs == old(db.logs)
      ensures !TooShort(text) ==>
        var (kind, o, e) := Respond(text, old(db.contacts), now, pick);
        && spoken == old(spoken) + (if isMuted then [] else [Reply(o)])
        && commandCount == old(commandCount) + (if o.success then 1 else 0)
        && Wrote(e, now, old(db.notes), old(db.reminders), db.notes, db.reminders)
        && db.logs == old(db.logs) + [LogRow(kind, o.success, now)]
        && db.contacts == old(db.contacts)
      ensures isMuted == old(isMuted)
    {
      if |Strip(text)| < 2 {
        Speak(NotUnderstood);
        return;
      }
      var r := processor.Process(text, now, pick);
      if r.success {
        Speak(r.response.GetOr("انجام شد"));
        commandCount := commandCount + 1;
      } else {
        Speak(r.error.GetOr("خطا در اجرای فرمان"));
      }
    }

    /** `check_reminders`: announce each reminder due at `now`, in row order,
        and mark it completed. */
    method CheckReminders(now: Moment)
      modifies this, db
      ensures db.reminders == Settle(old(db.reminders), now)
      ensures spoken == old(spoken) + (if isMuted then [] else Announcements(old(db.reminders), now))
      ensures db.contacts == old(db.contacts) && db.notes == old(db.notes) && db.logs == old(db.logs)
      ensures isMuted == old(isMuted) && commandCount == old(commandCount)
    {
      ghost var rs := db.reminders;
      var i := 0;
      while i < |db.reminders|
        invariant 0 <= i <= |db.reminders| == |rs|
        invariant db.reminders == Settle(rs[..i], now) + rs[i..]
        invariant spoken == old(spoken) + (if isMuted then [] else Announcements(rs[..i], now))
        invariant db.contacts == old(db.contacts) && db.notes == old(db.notes) && db.logs == old(db.logs)
        invariant isMuted == old(isMuted) && commandCount == old(commandCount)
      {
        SettleStep(rs, i, now);
        CheckRow(i, now);
        i := i + 1;
      }
      assert rs[..i] == rs;
    }

    /** One row of `check_reminders`: if it is due, say its title and mark
        it completed. */
    method CheckRow(i: nat, now: Moment)
      requires i < |db.reminders|
      modifies this, db
      ensures db.reminders == old(db.reminders)[i := Settled(old(db.reminders)[i], now)]
      ensures spoken == old(spoken) + (if isMuted || !IsDue(old(db.reminders)[i], now) then [] else ["یادآوری: " + old(db.reminders)[i].title])
      ensures db.contacts == old(db.contacts) && db.notes == old(db.notes) && db.logs == old(db.logs)
      ensures isMuted == old(isMuted) && commandCount == old(commandCount)
    {
      var r := db.reminders[i];
      if IsDue(r, now) {
        Speak("یادآوری: " + r.title);
        db.MarkCompleted(i);
      }
    }
  }
}
