/** `CommandProcessor`: the object that owns the database handle and the
    `on_command_executed` hook, and runs `process` against the store. The
    loops of the source (`identify_command`, the mapping scan of
    `execute_app`, the time-pattern scan of `execute_reminder`) are proved
    against the functions of `Intents` and `Handlers`; the writes against
    the row each handler is specified to insert. */
module Processor {
  import opened Strings
  import opened Clock
  import opened Regex
  import opened Intents
  import opened Database
  import opened Handlers
  import opened Pipeline

  /** What `on_command_executed` is bound to: nothing, or the assistant's
      logger, which appends one `command_logs` row to the same database. */
  datatype Observer = Unset | AppLogger

  /** The `notes` and `reminders` tables after the handler's write `e`,
      made at `now`. */
  ghost predicate Wrote(e: Effect, now: Moment, notes0: seq<NoteRow>, reminders0: seq<ReminderRow>,
                        notes1: seq<NoteRow>, reminders1: seq<ReminderRow>) {
    match e
    case NoWrite => notes1 == notes0 && reminders1 == reminders0
    case WriteNote(c) => notes1 == notes0 + [NoteRow(c, DefaultNoteCategory, now)] && reminders1 == reminders0
    case WriteReminder(t, d) => notes1 == notes0 && reminders1 == reminders0 + [ReminderRow(t, d, false)]
  }

  class CommandProcessor {
    const db: Store
    var observer: Observer

    constructor (db: Store)
      ensures this.db == db && observer == Unset
    {
      this.db := db;
      observer := Unset;
    }

    /** `identify_command`: kinds in catalog order, patterns in listed order,
        the first pattern `re.search` finds decides. */
    method IdentifyCommand(text: string) returns (kind: Kind, params: seq<string>)
      ensures (kind, params) == Classify(text)
    {
      var cat := Catalog();
      var k := 0;
      while k < |cat|
        invariant 0 <= k <= |cat|
        invariant ClassifyIn(cat[k..], text) == Classify(text)
      {
        var ps := cat[k].patterns;
        var j := 0;
        while j < |ps|
          invariant 0 <= j <= |ps|
          invariant FirstHit(ps[j..], text) == FirstHit(ps, text)
        {
          var m := Search(ps[j], text);
          if m.Some? {
            return cat[k].kind, m.value.groups;
          }
          assert ps[j..][1..] == ps[j + 1..];
          j := j + 1;
        }
        assert cat[k..][1..] == cat[k + 1..];
        k := k + 1;
      }
      return Unknown, [];
    }

    /** `execute_app`: scan the mapping in declaration order and stop at the
        first key that is contained in the name or contains it. */
    method ExecuteApp(params: seq<string>) returns (r: Outcome)
      ensures r == AppOutcome(params)
      ensures AppOutcomeSpec(params, r)
    {
      if params == [] {
        return Failed("نام برنامه را مشخص کنید");
      }
      var name := params[0];
      var mapping := AppMapping();
      var package: Option<string> := None;
      var i := 0;
      while i < |mapping|
        invariant 0 <= i <= |mapping|
        invariant forall i' :: 0 <= i' < i ==> !AppQualifies(mapping[i'].0, name)
        invariant package == None
      {
        if AppQualifies(mapping[i].0, name) {
          package := Some(mapping[i].1);
          break;
        }
        i := i + 1;
      }
      FirstAppSpec(name, 0);
      AppSpec(params);
      if package.Some? {
        assert FirstAppAt(name, i);
        r := Succeeded(name + " باز شد", Package(package.value));
      } else {
        r := Failed("برنامه " + name + " پیدا نشد");
      }
    }

    /** The time-pattern scan of `execute_reminder`: the number the first
        matching pattern captures. */
    method ReadHour(text: string) returns (hour: Option<nat>)
      ensures hour == SpokenHour(text)
    {
      var patterns := TimePatterns();
      var i := 0;
      while i < |patterns|
        invariant 0 <= i <= |patterns|
        invariant HourFrom(patterns[i..], text) == SpokenHour(text)
      {
        var m := Search(patterns[i], text);
        if m.Some? {
          TimeGroupDigits(i, text);
          return Some(ParseNat(m.value.groups[0]));
        }
        assert patterns[i..][1..] == patterns[i + 1..];
        i := i + 1;
      }
      return None;
    }

    /** `execute_reminder`: read the hour, then insert the reminder, unless
        `datetime.replace` raises first. */
    method ExecuteReminder(params: seq<string>, text: string, now: Moment) returns (h: HandlerResult)
      modifies db
      ensures h == ReminderResult(params, text, now)
      ensures Wrote(if h.Returned? then h.effect else NoWrite, now, old(db.notes), old(db.reminders), db.notes, db.reminders)
      ensures db.contacts == old(db.contacts) && db.logs == old(db.logs)
    {
      var hour := ReadHour(text);
      var title := if params != [] then params[0] else "یادآوری";
      if hour.Some? && hour.value != 0 {
        if hour.value >= 24 {
          return Raised("hour must be in 0..23");
        }
        var due := AtHour(now, hour.value);
        if Contains(text, "فردا") {
          due := NextDay(due);
        }
        db.InsertReminder(title, due);
        h := Returned(Succeeded("یادآوری برای ساعت " + NatToString(hour.value) + " تنظیم شد", Reminded(title)),
                      WriteReminder(title, due));
      } else {
        var due := AddMinutes(now, 5);
        db.InsertReminder(title, due);
        h := Returned(Succeeded("یادآوری ثبت شد", Reminded(title)), WriteReminder(title, due));
      }
    }

    /** `execute_note`: insert the captured text with the default category. */
    method ExecuteNote(params: seq<string>, now: Moment) returns (h: HandlerResult)
      modifies db
      ensures h == NoteResult(params)
      ensures Wrote(h.effect, now, old(db.notes), old(db.reminders), db.notes, db.reminders)
      ensures db.contacts == old(db.contacts) && db.logs == old(db.logs)
    {
      if params == [] {
        return Returned(Failed("متن یادداشت را بگویید"), NoWrite);
      }
      db.InsertNote(params[0], DefaultNoteCategory, now);
      h := Returned(Succeeded("یادداشت ثبت شد", Noted(params[0])), WriteNote(params[0]));
    }

    /** `execute_command`: run the handler for `kind`; an exception becomes a
        failure record. The handlers that only read are their functions. */
    method ExecuteCommand(kind: Kind, params: seq<string>, text: string, now: Moment, pick: nat) returns (o: Outcome)
      requires pick < 4
      modifies db
      ensures o == Dispatch(kind, params, text, old(db.contacts), now, pick).0
      ensures Wrote(Dispatch(kind, params, text, old(db.contacts), now, pick).1, now,
                    old(db.notes), old(db.reminders), db.notes, db.reminders)
      ensures db.contacts == old(db.contacts) && db.logs == old(db.logs)
    {
      var h: HandlerResult;
      match kind {
        case Call => h := Returned(CallOutcome(params, db.contacts), NoWrite);
        case App =>
          var r := ExecuteApp(params);
          h := Returned(r, NoWrite);
        case Music => h := Returned(MusicOutcome(params), NoWrite);
        case Reminder => h := ExecuteReminder(params, text, now);
        case Weather => h := Returned(WeatherOutcome(pick), NoWrite);
        case Navigation => h := Returned(NavigationOutcome(params), NoWrite);
        case Note => h := ExecuteNote(params, now);
        case Control => h := Returned(ControlOutcome(params), NoWrite);
        case Unknown => h := Returned(UnknownOutcome(pick), NoWrite);
      }
      o := Guard(h).0;
    }

    /** `process`: normalise, classify, execute, then tell the hook (when
        one is set) the kind and whether it succeeded. */
    method Process(text: string, now: Moment, pick: nat) returns (r: Outcome)
      requires pick < 4
      modifies db
      ensures var (kind, o, e) := Respond(text, old(db.contacts), now, pick);
        && r == o
        && Wrote(e, now, old(db.notes), old(db.reminders), db.notes, db.reminders)
        && db.logs == old(db.logs) + (if observer == AppLogger then [LogRow(kind, o.success, now)] else [])
      ensures db.contacts == old(db.contacts)
    {
      var t := Normalize(text);
      var kind, params := IdentifyCommand(t);
      r := ExecuteCommand(kind, params, t, now, pick);
      if observer == AppLogger {
        db.InsertLog(kind, r.success, now);
      }
    }
  }
}
