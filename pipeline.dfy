/** `CommandProcessor.process` as a value: normalise the text, classify it,
    run the chosen handler on the normalised text. The properties here follow
    a command from its text to the record the caller sees, so they combine
    the catalog's group counts with the handlers' behaviour. */
module Pipeline {
  import opened Strings
  import opened Clock
  import opened Intents
  import opened Database
  import opened Handlers

  /** `text.lower().strip()` */
  function Normalize(t: string): string {
    Strip(Lower(t))
  }

  /** A string with no upper-case letter is its own `lower()`. */
  lemma LowerOfLower(s: string)
    requires forall k :: 0 <= k < |s| ==> !IsUpper(s[k])
    ensures Lower(s) == s
  {
    LowerSpec(s);
  }

  /** Stripping keeps only characters of its input. */
  lemma StripKeepsNoUpper(l: string)
    requires forall k :: 0 <= k < |l| ==> !IsUpper(l[k])
    ensures forall k :: 0 <= k < |Strip(l)| ==> !IsUpper(Strip(l)[k])
  {
    var n := Strip(l);
    StripSlice(l);
    var a := SkipSpace(l, 0);
    assert forall k :: 0 <= k < |n| ==> n[k] == l[a + k];
  }

  /** Normalising twice is normalising once: handlers see text that would
      classify the same if it were normalised again. */
  lemma NormalizeIdempotent(t: string)
    ensures Normalize(Normalize(t)) == Normalize(t)
  {
    var n := Strip(Lower(t));
    LowerSpec(t);
    StripKeepsNoUpper(Lower(t));
    LowerOfLower(n);
    StripOfStripped(n);
  }

  /** What `process(text)` computes: the kind it classified, the result
      record, and the row the handler writes. */
  function Respond(text: string, contacts: seq<ContactRow>, now: Moment, pick: nat): (Kind, Outcome, Effect)
    requires pick < 4
  {
    var t := Normalize(text);
    var (kind, params) := Classify(t);
    var (o, e) := Dispatch(kind, params, t, contacts, now, pick);
    (kind, o, e)
  }

  /** Every record carries the key its caller reads: a response on success,
      an error on failure. */
  predicate WellFormed(o: Outcome) {
    (o.success ==> o.response.Some?) && (!o.success ==> o.error.Some?)
  }

  /** What the dispatcher promises for every kind, whatever the
      parameters: the record carries the key its caller reads; music,
      weather, navigation and control succeed and write nothing; unknown
      fails with `فرمان نامشخص` and a canned reply; only a note (when it has
      text) and a reminder (when the handler does not raise) write, one row. */
  lemma DispatchSpec(kind: Kind, params: seq<string>, text: string, contacts: seq<ContactRow>, now: Moment, pick: nat)
    requires pick < 4
    ensures var (o, e) := Dispatch(kind, params, text, contacts, now, pick);
      && WellFormed(o)
      && (e != NoWrite ==> kind == Note || kind == Reminder)
      && (kind in {Music, Weather, Navigation, Control} ==> o.success && e == NoWrite)
      && (kind == Weather ==> o.response == Some(WeatherConditions()[pick]))
      && (kind == Control ==> o == ControlOutcome(params))
      && (kind == Unknown ==>
            && !o.success && o.error == Some("فرمان نامشخص") && e == NoWrite
            && o.response.Some? && o.response.value in UnknownReplies())
      && (kind == Note && params != [] ==> o.success && e == WriteNote(params[0]) && o.extra == Noted(params[0]))
      && (kind == Reminder ==>
            && (o.success <==> e.WriteReminder?)
            && (e.WriteReminder? ==> e.title == (if params != [] then params[0] else "یادآوری")))
  {
    match kind
    case Call => DispatchCall(params, text, contacts, now, pick);
    case App => DispatchApp(params, text, contacts, now, pick);
    case Music =>
    case Reminder => DispatchReminder(params, text, contacts, now, pick);
    case Weather =>
    case Navigation =>
    case Note =>
    case Control =>
    case Unknown =>
  }

  /** The call handler's record is well formed and writes nothing. */
  lemma DispatchCall(params: seq<string>, text: string, contacts: seq<ContactRow>, now: Moment, pick: nat)
    requires pick < 4
    ensures var (o, e) := Dispatch(Call, params, text, contacts, now, pick); WellFormed(o) && e == NoWrite
  {
    CallSpec(params, contacts);
  }

  /** The app handler's record is well formed and writes nothing. */
  lemma DispatchApp(params: seq<string>, text: string, contacts: seq<ContactRow>, now: Moment, pick: nat)
    requires pick < 4
    ensures var (o, e) := Dispatch(App, params, text, contacts, now, pick); WellFormed(o) && e == NoWrite
  {
    AppSpec(params);
  }

  /** A reminder succeeds exactly when it writes its row, titled by the
      first parameter or the default title. */
  lemma DispatchReminder(params: seq<string>, text: string, contacts: seq<ContactRow>, now: Moment, pick: nat)
    requires pick < 4
    ensures var (o, e) := Dispatch(Reminder, params, text, contacts, now, pick);
      && WellFormed(o)
      && (o.success <==> e.WriteReminder?)
      && (e.WriteReminder? ==> e.title == (if params != [] then params[0] else "یادآوری"))
  {
    ReminderShape(params, text, now);
  }

  /** The reminder handler either raises or returns a successful record
      together with the row it writes, titled by the first parameter. */
  lemma ReminderShape(params: seq<string>, text: string, now: Moment)
    ensures var r := ReminderResult(params, text, now);
      r.Returned? ==>
        && r.outcome.success && r.outcome.response.Some?
        && r.effect.WriteReminder? && r.effect.title == (if params != [] then params[0] else "یادآوری")
  {
  }

  /** An exception inside a handler becomes a failure whose error starts
      with `خطا در اجرا: ` and writes nothing; an hour of 24 or more in a
      reminder is one. */
  lemma FaultBecomesFailure(kind: Kind, params: seq<string>, text: string, contacts: seq<ContactRow>, now: Moment, pick: nat)
    requires pick < 4
    requires Handle(kind, params, text, contacts, now, pick).Raised?
    ensures var (o, e) := Dispatch(kind, params, text, contacts, now, pick);
      && !o.success && o.error.Some? && |FaultPrefix| <= |o.error.value|
      && o.error.value[..|FaultPrefix|] == FaultPrefix
      && e == NoWrite
      && kind == Reminder
  {
  }

  /** Through `process`, a control command always gets the generic reply and
      no action: its patterns capture nothing. */
  lemma ControlNeverActs(text: string, contacts: seq<ContactRow>, now: Moment, pick: nat)
    requires pick < 4
    ensures var (kind, o, e) := Respond(text, contacts, now, pick);
      kind == Control ==> o == Succeeded("دستور کنترل اجرا شد", NoExtra) && e == NoWrite
  {
    var t := Normalize(text);
    ClassifyGroupShape(t);
    ControlSpec(Classify(t).1);
  }

  /** Through `process`, a call or app command always has a name to look up,
      so their "name missing" errors never occur; a call never changes the
      store. */
  lemma NamesAlwaysCaptured(text: string, contacts: seq<ContactRow>, now: Moment, pick: nat)
    requires pick < 4
    ensures var (kind, o, e) := Respond(text, contacts, now, pick);
      && (kind == Call ==> o != Failed("نام مخاطب را مشخص کنید") && e == NoWrite)
      && (kind == App ==> o != Failed("نام برنامه را مشخص کنید") && e == NoWrite)
  {
    var t := Normalize(text);
    ClassifyGroupShape(t);
    var params := Classify(t).1;
    if Classify(t).0 == Call {
      CallSpec(params, contacts);
      assert "مخاطب " + params[0] + " پیدا نشد" != "نام مخاطب را مشخص کنید" by {
        assert ("مخاطب " + params[0] + " پیدا نشد")[0] == 'م';
      }
    }
    if Classify(t).0 == App {
      AppSpec(params);
      assert "برنامه " + params[0] + " پیدا نشد" != "نام برنامه را مشخص کنید" by {
        assert ("برنامه " + params[0] + " پیدا نشد")[0] == 'ب';
      }
    }
  }

  /** Music, weather, navigation and control commands always succeed and
      write nothing; an unknown command always fails with `فرمان نامشخص`
      and one of the four canned replies. */
  lemma FixedOutcomes(text: string, contacts: seq<ContactRow>, now: Moment, pick: nat)
    requires pick < 4
    ensures var (kind, o, e) := Respond(text, contacts, now, pick);
      && (kind in {Music, Weather, Navigation, Control} ==> o.success && e == NoWrite)
      && (kind == Weather ==> o.response == Some(WeatherConditions()[pick]))
      && (kind == Unknown ==>
            && !o.success && o.error == Some("فرمان نامشخص") && e == NoWrite
            && o.response.Some? && o.response.value in UnknownReplies())
  {
    var t := Normalize(text);
    var (kind, params) := Classify(t);
    DispatchSpec(kind, params, t, contacts, now, pick);
  }

  /** Only note and reminder commands write, one row each: a note always
      stores its captured text (the pattern always captures one), a reminder
      stores its row unless the hour makes the handler raise. */
  lemma OnlyNotesAndRemindersWrite(text: string, contacts: seq<ContactRow>, now: Moment, pick: nat)
    requires pick < 4
    ensures var (kind, o, e) := Respond(text, contacts, now, pick);
      var params := Classify(Normalize(text)).1;
      && (e != NoWrite ==> kind == Note || kind == Reminder)
      && (kind == Note ==> o.success && e == WriteNote(params[0]) && o.extra == Noted(params[0]))
      && (kind == Reminder ==> (o.success <==> e.WriteReminder?))
  {
    var t := Normalize(text);
    ClassifyGroupShape(t);
    var (kind, params) := Classify(t);
    DispatchSpec(kind, params, t, contacts, now, pick);
  }

  /** For `ساعت (\d+) (.+)` the reminder is titled with the digits of the
      hour, the first group, not with the text after it. */
  lemma HourPatternTitlesWithDigits(text: string, contacts: seq<ContactRow>, now: Moment, pick: nat)
    requires pick < 4
    ensures var (kind, o, e) := Respond(text, contacts, now, pick);
      var params := Classify(Normalize(text)).1;
      kind == Reminder && |params| == 2 && e.WriteReminder? ==>
        e.title == params[0] && AllDigits(e.title)
  {
    var t := Normalize(text);
    ClassifyGroupShape(t);
    var (kind, params) := Classify(t);
    DispatchSpec(kind, params, t, contacts, now, pick);
  }
}
