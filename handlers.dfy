/** The action handlers `execute_call` ... `execute_unknown` of
    `CommandProcessor`: each turns the captured parameters (and, for the
    reminder, the normalised text and the clock) into a result record, and
    says which row, if any, it writes. The constant tables of the handlers are
    here too. `Dispatch` is `execute_command`: pick the handler by kind, turn
    an exception into a failure record. */
module Handlers {
  import opened Strings
  import opened Clock
  import opened Regex
  import opened Intents
  import opened Database

  // ---------------------------------------------------------------- results

  datatype Action = Mute | Shutdown

  /** The handler-specific key of a result dictionary. */
  datatype Extra =
    | NoExtra
    | Phone(phone: string)
    | Package(package: string)
    | Song(song: string)
    | Reminded(title: string)
    | Route(destination: string, time: string)
    | Noted(note: string)
    | Act(action: Action)

  /** A result dictionary: `success`, the optional `response` and `error`
      keys, and the handler's extra key. */
  datatype Outcome = Outcome(success: bool, response: Option<string>, error: Option<string>, extra: Extra)

  function Succeeded(response: string, extra: Extra): Outcome {
    Outcome(true, Some(response), None, extra)
  }

  function Failed(error: string): Outcome {
    Outcome(false, None, Some(error), NoExtra)
  }

  /** The row a handler inserts. */
  datatype Effect = NoWrite | WriteNote(content: string) | WriteReminder(title: string, due: Moment)

  /** A handler either returns a record (and its write) or raises. */
  datatype HandlerResult = Returned(outcome: Outcome, effect: Effect) | Raised(message: string)

  const FaultPrefix := "خطا در اجرا: "

  // ---------------------------------------------------------------- tables

  /** A first-match lookup in a table of (key, value) pairs; the tables of
      the source are dictionaries with distinct keys. */
  function Lookup<V>(table: seq<(string, V)>, key: string): Option<V>
    decreases |table|
  {
    if table == [] then None
    else if table[0].0 == key then Some(table[0].1)
    else Lookup(table[1..], key)
  }

  /** The lookup finds nothing exactly when no entry has the key, and what
      it finds is the value of an entry with that key. */
  lemma {:induction false} LookupSpec<V>(table: seq<(string, V)>, key: string)
    ensures Lookup(table, key).None? <==> forall i :: 0 <= i < |table| ==> table[i].0 != key
    ensures Lookup(table, key).Some? ==> exists i :: 0 <= i < |table| && table[i] == (key, Lookup(table, key).value)
    decreases |table|
  {
    if table != [] && table[0].0 != key {
      LookupSpec(table[1..], key);
      assert forall i :: 0 <= i < |table[1..]| ==> table[1..][i] == table[i + 1];
      if Lookup(table, key).Some? {
        var i :| 0 <= i < |table[1..]| && table[1..][i] == (key, Lookup(table, key).value);
        assert table[i + 1] == (key, Lookup(table, key).value);
      }
    } else if table != [] {
      assert table[0] == (key, Lookup(table, key).value);
    }
  }

  /** `app_mapping` of `execute_app`, in declaration order. */
  function AppMapping(): seq<(string, string)> {
    [ ("اینستاگرام", "com.instagram.android"),
      ("واتساپ", "com.whatsapp"),
      ("تلگرام", "org.telegram.messenger"),
      ("یوتیوب", "com.google.android.youtube"),
      ("نقشه", "com.google.android.apps.maps"),
      ("دوربین", "com.android.camera"),
      ("گالری", "com.android.gallery3d"),
      ("کالا", "com.digikala") ]
  }

  /** `music_library` of `execute_music`. */
  function MusicLibrary(): seq<(string, seq<string>)> {
    [ ("شادمهر", ["آهنگ عاشقانه ۱", "آهنگ شاد ۱"]),
      ("بنیامین", ["دل تنگ", "پرنده"]),
      ("محسن", ["بارون", "بی تو"]) ]
  }

  /** `distances` of `execute_navigation`. */
  function Distances(): seq<(string, string)> {
    [ ("آزادی", "۲۰ دقیقه با ماشین"),
      ("تجریش", "۴۵ دقیقه با مترو"),
      ("ونک", "۳۰ دقیقه"),
      ("کارخانه", "۱ ساعت") ]
  }

  /** `weather_conditions` of `execute_weather`. */
  function WeatherConditions(): seq<string> {
    [ "امروز هوا آفتابی است، دمای ۲۵ درجه",
      "هوا نیمه ابری، احتمال بارندگی کم",
      "آفتابی با وزش باد ملایم",
      "هوای صاف و آفتابی" ]
  }

  /** `responses` of `execute_unknown`. */
  function UnknownReplies(): seq<string> {
    [ "متوجه نشدم، می\U{200C}توانید دوباره بگویید؟",
      "این فرمان را نمی\U{200C}شناسم",
      "لطفا فرمان واضح\U{200C}تری بگویید",
      "فعلا این قابلیت را ندارم" ]
  }

  // ---------------------------------------------------------------- call

  /** The row `SELECT phone FROM contacts WHERE name LIKE '%name%'` returns
      first: the first contact, in row order, whose name contains `name`. */
  function FirstContact(cs: seq<ContactRow>, name: string): Option<ContactRow>
    decreases |cs|
  {
    if cs == [] then None
    else if Contains(cs[0].name, name) then Some(cs[0])
    else FirstContact(cs[1..], name)
  }

  /** Contact `i` is the first one whose name contains `name`. */
  ghost predicate FirstContactAt(cs: seq<ContactRow>, name: string, i: int) {
    && 0 <= i < |cs| && Contains(cs[i].name, name)
    && forall i' :: 0 <= i' < i ==> !Contains(cs[i'].name, name)
  }

  lemma {:induction false} FirstContactSpec(cs: seq<ContactRow>, name: string)
    ensures FirstContact(cs, name).None? <==> forall i :: 0 <= i < |cs| ==> !Contains(cs[i].name, name)
    ensures FirstContact(cs, name).Some? ==> exists i :: FirstContactAt(cs, name, i) && FirstContact(cs, name) == Some(cs[i])
    decreases |cs|
  {
    if cs != [] && !Contains(cs[0].name, name) {
      var rest := cs[1..];
      FirstContactSpec(rest, name);
      assert forall i :: 0 <= i < |rest| ==> rest[i] == cs[i + 1];
      if FirstContact(rest, name).Some? {
        var i :| FirstContactAt(rest, name, i) && FirstContact(rest, name) == Some(rest[i]);
        assert FirstContactAt(cs, name, i + 1);
      }
    } else if cs != [] {
      assert FirstContactAt(cs, name, 0);
    }
  }

  function CallOutcome(params: seq<string>, contacts: seq<ContactRow>): Outcome {
    if params == [] then Failed("نام مخاطب را مشخص کنید")
    else
      var name := params[0];
      match FirstContact(contacts, name)
      case Some(c) => Succeeded("دارم با " + name + " تماس می\U{200C}گیرم", Phone(c.phone))
      case None => Failed("مخاطب " + name + " پیدا نشد")
  }

  /** `execute_call`: without a name it fails; otherwise it succeeds exactly
      when some contact's name contains the captured name, returns the phone
      of the first such contact in row order and names the contact in the
      response, and otherwise reports the name as not found. */
  lemma CallSpec(params: seq<string>, contacts: seq<ContactRow>)
    ensures params == [] ==> CallOutcome(params, contacts) == Failed("نام مخاطب را مشخص کنید")
    ensures params != [] ==>
      var name := params[0];
      var r := CallOutcome(params, contacts);
      && (r.success <==> exists i :: 0 <= i < |contacts| && Contains(contacts[i].name, name))
      && (r.success ==>
            && (exists i :: FirstContactAt(contacts, name, i) && r.extra == Phone(contacts[i].phone))
            && r.response.Some? && Contains(r.response.value, name))
      && (!r.success ==> r == Failed("مخاطب " + name + " پیدا نشد"))
  {
    if params != [] {
      var name := params[0];
      FirstContactSpec(contacts, name);
      var r := CallOutcome(params, contacts);
      if r.success {
        var text := "دارم با " + name + " تماس می\U{200C}گیرم";
        assert OccursAt(text, name, |"دارم با "|);
      }
    }
  }

  // ---------------------------------------------------------------- app

  /** `key in app_name or app_name in key` */
  predicate AppQualifies(key: string, name: string) {
    Contains(name, key) || Contains(key, name)
  }

  /** Entry `i` of the mapping is the first that qualifies for `name`. */
  ghost predicate FirstAppAt(name: string, i: int) {
    && 0 <= i < |AppMapping()| && AppQualifies(AppMapping()[i].0, name)
    && forall i' :: 0 <= i' < i ==> !AppQualifies(AppMapping()[i'].0, name)
  }

  /** What `execute_app` promises: without a name it fails; otherwise it
      succeeds exactly when some mapping entry qualifies, with the package of
      the first one in declaration order, and otherwise reports the name as
      not found. */
  ghost predicate AppOutcomeSpec(params: seq<string>, r: Outcome) {
    if params == [] then r == Failed("نام برنامه را مشخص کنید")
    else
      var name := params[0];
      && (r.success <==> exists i :: 0 <= i < |AppMapping()| && AppQualifies(AppMapping()[i].0, name))
      && (r.success ==> exists i :: FirstAppAt(name, i) && r == Succeeded(name + " باز شد", Package(AppMapping()[i].1)))
      && (!r.success ==> r == Failed("برنامه " + name + " پیدا نشد"))
  }

  // ---------------------------------------------------------------- music

  /** `all_songs`: every song of the library, artist by artist. */
  function AllSongs(lib: seq<(string, seq<string>)>): seq<string>
    decreases |lib|
  {
    if lib == [] then [] else lib[0].1 + AllSongs(lib[1..])
  }

  /** Every artist of the library has at least one song. */
  lemma MusicLibrarySongs()
    ensures forall i :: 0 <= i < |MusicLibrary()| ==> |MusicLibrary()[i].1| > 0
  {
  }

  function MusicOutcome(params: seq<string>): Outcome {
    var lib := MusicLibrary();
    var artist := if params != [] then params[0] else "";
    var known := Lookup(lib, artist);
    // The library lists no artist without songs (`MusicLibrarySongs`), so
    // `songs[0]` never fails.
    var song :=
      if artist != "" && known.Some? && known.value != [] then known.value[0]
      else
        var all := AllSongs(lib);
        if all != [] then all[0] else "آهنگ تصادفی";
    Succeeded("الان برات پخش می\U{200C}کنم", Song(song))
  }

  /** `execute_music` always succeeds with a non-empty song: the first song
      of the named artist when the library lists that artist, and otherwise
      (no artist, or one the library does not list) the first song of the
      first artist. */
  lemma MusicSpec(params: seq<string>)
    ensures var r := MusicOutcome(params);
      && r.success && r.response == Some("الان برات پخش می\U{200C}کنم") && r.extra.Song?
      && r.extra.song != ""
      && ((params != [] && exists i :: 0 <= i < |MusicLibrary()| && MusicLibrary()[i].0 == params[0]) ==>
            exists i :: 0 <= i < |MusicLibrary()| && MusicLibrary()[i].0 == params[0] && r.extra.song == MusicLibrary()[i].1[0])
      && ((params == [] || forall i :: 0 <= i < |MusicLibrary()| ==> MusicLibrary()[i].0 != params[0]) ==>
            r.extra.song == MusicLibrary()[0].1[0])
  {
    MusicLibrarySongs();
    var lib := MusicLibrary();
    assert AllSongs(lib)[0] == lib[0].1[0];
    if params != [] {
      LookupSpec(lib, params[0]);
      if Lookup(lib, params[0]).Some? {
        var i :| 0 <= i < |lib| && lib[i] == (params[0], Lookup(lib, params[0]).value);
        assert params[0] != "";
      }
    }
  }

  // ---------------------------------------------------------------- reminder

  /** `time_patterns` of `execute_reminder`. */
  function TimePatterns(): seq<Pattern> {
    [ [Lit("ساعت "), DigitsPlus],
      [DigitsPlus, Lit(" دقیقه دیگه")],
      [Lit("فردا ساعت "), DigitsPlus] ]
  }

  /** A pattern whose only groups are `(\d+)`. */
  predicate DigitGroupsOnly(p: Pattern) {
    forall k :: 0 <= k < |p| ==> p[k].Lit? || p[k].DigitsPlus?
  }

  /** A time pattern: one group, of digits. */
  predicate IsTimePattern(p: Pattern) {
    Groups(p) == 1 && DigitGroupsOnly(p)
  }

  lemma {:induction false} ReadsDigitGroups(p: Pattern, s: string, i: nat, g: seq<string>)
    requires DigitGroupsOnly(p) && Reads(p, s, i, g)
    ensures forall k :: 0 <= k < |g| ==> AllDigits(g[k])
    decreases |p|
  {
    if p != [] {
      assert DigitGroupsOnly(p[1..]) by {
        assert forall k :: 0 <= k < |p[1..]| ==> p[1..][k] == p[k + 1];
      }
      if p[0].Lit? {
        ReadsDigitGroups(p[1..], s, i + |p[0].text|, g);
      } else {
        ReadsDigitGroups(p[1..], s, i + |g[0]|, g[1..]);
        assert AllDigits(g[0]);
        assert forall k :: 1 <= k < |g| ==> g[k] == g[1..][k - 1];
      }
    }
  }

  /** `int(match.group(1))`. A time pattern captures exactly one run of
      digits (`TimeGroupDigits`), so the fallback `0` is never taken. */
  function HourValue(groups: seq<string>): nat {
    if groups != [] && AllDigits(groups[0]) then ParseNat(groups[0]) else 0
  }

  /** The hour the first pattern of `ps` that `re.search` finds in `t`
      captures. */
  function HourFrom(ps: seq<Pattern>, t: string): Option<nat>
    decreases |ps|
  {
    if ps == [] then None
    else match Search(ps[0], t)
      case Some(h) => Some(HourValue(h.groups))
      case None => HourFrom(ps[1..], t)
  }

  /** The hour `execute_reminder` reads off the text. */
  function SpokenHour(t: string): Option<nat> {
    HourFrom(TimePatterns(), t)
  }

  /** Whatever a time pattern finds is one string of digits, so the hour is
      the number those digits spell. */
  lemma TimeGroupDigits(k: int, t: string)
    requires 0 <= k < |TimePatterns()| && Search(TimePatterns()[k], t).Some?
    ensures var g := Search(TimePatterns()[k], t).value.groups;
      |g| == 1 && AllDigits(g[0]) && HourValue(g) == ParseNat(g[0])
  {
    var p := TimePatterns()[k];
    assert IsTimePattern(p);
    SearchSpec(p, t);
    var hit := Search(p, t).value;
    ReadsDigitGroups(p, t, hit.start, hit.groups);
  }

  /** `execute_reminder` as a value: the row it inserts and the record it
      returns, or the exception `datetime.replace` raises. */
  function ReminderResult(params: seq<string>, text: string, now: Moment): HandlerResult {
    var title := if params != [] then params[0] else "یادآوری";
    var hour := SpokenHour(text);
    if hour.Some? && hour.value != 0 then
      if hour.value >= 24 then Raised("hour must be in 0..23")
      else
        var at := AtHour(now, hour.value);
        var due := if Contains(text, "فردا") then NextDay(at) else at;
        Returned(Succeeded("یادآوری برای ساعت " + NatToString(hour.value) + " تنظیم شد", Reminded(title)),
                 WriteReminder(title, due))
    else
      Returned(Succeeded("یادآوری ثبت شد", Reminded(title)), WriteReminder(title, AddMinutes(now, 5)))
  }

  /** The third time pattern never decides: wherever `فردا ساعت (\d+)` is
      found, `ساعت (\d+)` is found too, and it is tried first. */
  lemma TomorrowPatternShadowed(t: string)
    ensures Search(TimePatterns()[2], t).Some? ==> Search(TimePatterns()[0], t).Some?
  {
    var p0, p2 := TimePatterns()[0], TimePatterns()[2];
    if Search(p2, t).Some? {
      SearchSpec(p2, t);
      var hit := Search(p2, t).value;
      var w := "فردا ";
      assert "فردا ساعت " == w + "ساعت ";
      assert Reads(p2[1..], t, hit.start + |"فردا ساعت "|, hit.groups);
      assert OccursAt(t, "ساعت ", hit.start + |w|) by {
        assert t[hit.start + |w|..hit.start + |"فردا ساعت "|] == t[hit.start..hit.start + |"فردا ساعت "|][|w|..];
      }
      assert p0[1..] == p2[1..];
      assert Reads(p0, t, hit.start + |w|, hit.groups);
      SearchSpec(p0, t);
    }
  }

  /** `execute_reminder`: it never fails on its own. A non-zero hour read off
      the text schedules that hour, minute and second zero, today or, when
      `فردا` appears anywhere in the text, the next day, and names the hour
      in the response; an hour from 24 up makes `datetime.replace` raise
      before anything is written. No hour, or hour 0, schedules five minutes
      after `now`. Either way exactly one reminder, titled by the first
      parameter, is written. */
  lemma ReminderSpec(params: seq<string>, text: string, now: Moment)
    requires now.Valid()
    ensures var r := ReminderResult(params, text, now);
      var title := if params != [] then params[0] else "یادآوری";
      var hour := SpokenHour(text);
      && (r.Raised? <==> hour.Some? && hour.value >= 24)
      && (r.Raised? ==> r.message == "hour must be in 0..23")
      && (r.Returned? ==>
            && r.outcome.success && r.outcome.extra == Reminded(title)
            && r.effect.WriteReminder? && r.effect.title == title && r.effect.due.Valid())
      && (r.Returned? && hour.Some? && hour.value != 0 ==>
            && r.outcome.response == Some("یادآوری برای ساعت " + NatToString(hour.value) + " تنظیم شد")
            && r.effect.due.hour == hour.value && r.effect.due.minute == 0 && r.effect.due.second == 0
            && r.effect.due.day == now.day + (if Contains(text, "فردا") then 1 else 0))
      && ((hour.None? || hour.value == 0) ==>
            && r.outcome.response == Some("یادآوری ثبت شد")
            && Ticks(r.effect.due) == Ticks(now) + 300)
  {
  }

  /** The `(\d+) دقیقه دیگه` pattern feeds its number in as an hour: when it
      is the time pattern that decides, a count of minutes from 1 to 23
      schedules that hour of the day. */
  lemma MinutesReadAsHour(params: seq<string>, text: string, now: Moment)
    requires now.Valid()
    requires Search(TimePatterns()[0], text).None?
    requires Search(TimePatterns()[1], text).Some?
    ensures var minutes := Search(TimePatterns()[1], text).value.groups;
      var r := ReminderResult(params, text, now);
      && |minutes| == 1 && AllDigits(minutes[0])
      && (0 < ParseNat(minutes[0]) < 24 ==> r.Returned? && r.effect.due.hour == ParseNat(minutes[0]))
  {
    var p := TimePatterns()[1];
    SearchSpec(p, text);
    var hit := Search(p, text).value;
    ReadsDigitGroups(p, text, hit.start, hit.groups);
  }

  // ---------------------------------------------------------------- the rest

  function WeatherOutcome(pick: nat): Outcome
    requires pick < |WeatherConditions()|
  {
    Succeeded(WeatherConditions()[pick], NoExtra)
  }

  function NavigationOutcome(params: seq<string>): Outcome {
    var destination := if params != [] then params[0] else "مقصد";
    var time := Lookup(Distances(), destination).GetOr("۳۰ دقیقه");
    Succeeded("تا " + destination + " حدود " + time + " راه است", Route(destination, time))
  }

  /** `execute_navigation` always succeeds. The destination is the first
      parameter (`مقصد` without one); the time is the table's entry for that
      exact destination, or `۳۰ دقیقه` when the table has none; the response
      names both. */
  lemma NavigationSpec(params: seq<string>)
    ensures var r := NavigationOutcome(params);
      var destination := if params != [] then params[0] else "مقصد";
      && r.success && r.extra.Route? && r.extra.destination == destination
      && ((exists i :: 0 <= i < |Distances()| && Distances()[i] == (destination, r.extra.time))
          || (r.extra.time == "۳۰ دقیقه" && forall i :: 0 <= i < |Distances()| ==> Distances()[i].0 != destination))
      && r.response.Some?
      && Contains(r.response.value, destination) && Contains(r.response.value, r.extra.time)
  {
    var r := NavigationOutcome(params);
    var destination := if params != [] then params[0] else "مقصد";
    LookupSpec(Distances(), destination);
    var text := "تا " + destination + " حدود " + r.extra.time + " راه است";
    assert OccursAt(text, destination, |"تا "|);
    assert OccursAt(text, r.extra.time, |"تا " + destination + " حدود "|);
  }

  function NoteResult(params: seq<string>): HandlerResult {
    if params == [] then Returned(Failed("متن یادداشت را بگویید"), NoWrite)
    else Returned(Succeeded("یادداشت ثبت شد", Noted(params[0])), WriteNote(params[0]))
  }

  function ControlOutcome(params: seq<string>): Outcome {
    var control := if params != [] then params[0] else "";
    if Contains(control, "ساکت") || Contains(control, "سکوت") then
      Succeeded("ساکت شدم", Act(Mute))
    else if Contains(control, "خاموش") || Contains(control, "خواب") then
      Succeeded("خاموش شدم. برای فعال شدن دوباره برنامه را باز کنید", Act(Shutdown))
    else
      Succeeded("دستور کنترل اجرا شد", NoExtra)
  }

  /** `execute_control` always succeeds, in one of three branches tried in
      order: a parameter containing `ساکت` or `سکوت` mutes; otherwise one
      containing `خاموش` or `خواب` shuts down; anything else, and no
      parameter at all, takes the generic branch with no action. */
  lemma ControlSpec(params: seq<string>)
    ensures var r := ControlOutcome(params);
      var control := if params != [] then params[0] else "";
      var mute := Contains(control, "ساکت") || Contains(control, "سکوت");
      var shutdown := !mute && (Contains(control, "خاموش") || Contains(control, "خواب"));
      && r.success
      && (params == [] ==> r == Succeeded("دستور کنترل اجرا شد", NoExtra))
      && (r.extra == Act(Mute) <==> params != [] && mute)
      && (r.extra == Act(Shutdown) <==> params != [] && shutdown)
      && (mute ==> r.response == Some("ساکت شدم"))
      && (shutdown ==> r.response == Some("خاموش شدم. برای فعال شدن دوباره برنامه را باز کنید"))
      && (!mute && !shutdown ==> r == Succeeded("دستور کنترل اجرا شد", NoExtra))
  {
    if params == [] {
      assert !Contains("", "ساکت") && !Contains("", "سکوت");
      assert !Contains("", "خاموش") && !Contains("", "خواب");
    }
  }

  function UnknownOutcome(pick: nat): Outcome
    requires pick < |UnknownReplies()|
  {
    Outcome(false, Some(UnknownReplies()[pick]), Some("فرمان نامشخص"), NoExtra)
  }

  // ---------------------------------------------------------------- dispatch

  /** The handler `execute_command` selects for `kind`. `pick` is the index
      `random.choice` draws for the weather and unknown replies. */
  function Handle(kind: Kind, params: seq<string>, text: string, contacts: seq<ContactRow>, now: Moment, pick: nat): HandlerResult
    requires pick < 4
  {
    match kind
    case Call => Returned(CallOutcome(params, contacts), NoWrite)
    case App => Returned(AppOutcome(params), NoWrite)
    case Music => Returned(MusicOutcome(params), NoWrite)
    case Reminder => ReminderResult(params, text, now)
    case Weather => Returned(WeatherOutcome(pick), NoWrite)
    case Navigation => Returned(NavigationOutcome(params), NoWrite)
    case Note => NoteResult(params)
    case Control => Returned(ControlOutcome(params), NoWrite)
    case Unknown => Returned(UnknownOutcome(pick), NoWrite)
  }

  /** The `except` of `execute_command`: an exception becomes a failure
      record whose error carries the exception text, and nothing is written. */
  function Guard(h: HandlerResult): (Outcome, Effect) {
    match h
    case Returned(o, e) => (o, e)
    case Raised(m) => (Failed(FaultPrefix + m), NoWrite)
  }

  /** `execute_command(kind, params, text)`: the result record and the row
      written. */
  function Dispatch(kind: Kind, params: seq<string>, text: string, contacts: seq<ContactRow>, now: Moment, pick: nat): (Outcome, Effect)
    requires pick < 4
  {
    Guard(Handle(kind, params, text, contacts, now, pick))
  }

  /** `execute_app` as a value; `CommandProcessor.ExecuteApp` computes it
      with the source's loop. */
  function AppOutcome(params: seq<string>): Outcome {
    if params == [] then Failed("نام برنامه را مشخص کنید")
    else
      var name := params[0];
      match FirstApp(AppMapping(), name, 0)
      case Some(i) => Succeeded(name + " باز شد", Package(AppMapping()[i].1))
      case None => Failed("برنامه " + name + " پیدا نشد")
  }

  /** The index of the first entry of `m`, from `from` on, that qualifies. */
  function FirstApp(m: seq<(string, string)>, name: string, from: nat): (r: Option<nat>)
    requires from <= |m|
    ensures r.Some? ==> from <= r.value < |m|
    decreases |m| - from
  {
    if from == |m| then None
    else if AppQualifies(m[from].0, name) then Some(from)
    else FirstApp(m, name, from + 1)
  }

  lemma {:induction false} FirstAppSpec(name: string, from: nat)
    requires from <= |AppMapping()|
    requires forall i' :: 0 <= i' < from ==> !AppQualifies(AppMapping()[i'].0, name)
    ensures var r := FirstApp(AppMapping(), name, from);
      && (r.Some? ==> FirstAppAt(name, r.value))
      && (r.None? ==> forall i :: 0 <= i < |AppMapping()| ==> !AppQualifies(AppMapping()[i].0, name))
    decreases |AppMapping()| - from
  {
    if from < |AppMapping()| && !AppQualifies(AppMapping()[from].0, name) {
      FirstAppSpec(name, from + 1);
    }
  }

  /** `execute_app` meets its description. */
  lemma AppSpec(params: seq<string>)
    ensures AppOutcomeSpec(params, AppOutcome(params))
  {
    if params != [] {
      FirstAppSpec(params[0], 0);
    }
  }
}
