/** Whole conversations run through the dispatcher: the three linear paths
    to a submitted row, a retried submission, single-field edits after the review, and the quirks of
    the edit flow. */
module Scenarios {
  import opened Wrappers
  import opened Records
  import opened Catalog
  import opened Results
  import opened Handlers
  import opened Routing
  import PhoneFilter

  /** Running the events from position k on is one dispatch followed by the
      events from k + 1 on. */
  lemma RunFrom(store: Store, uid: UserId, evs: seq<Event>, k: nat, ctx: Context)
    requires k < |evs|
    ensures var st := Dispatch(store, uid, evs[k], ctx);
            var tail := Run(st.store, uid, evs[k + 1..], ctx);
            Run(store, uid, evs[k..], ctx)
              == Trace(tail.store, (if st.appended.Some? then [st.appended.value] else []) + tail.rows,
                       if k + 1 == |evs| then st.reply else tail.last)
  {
    assert evs[k..][0] == evs[k];
    assert evs[k..][1..] == evs[k + 1..];
  }

  /** Running two event sequences one after the other is running their
      concatenation. */
  lemma {:induction false} RunAppend(store: Store, uid: UserId, a: seq<Event>, b: seq<Event>, ctx: Context)
    ensures var ta := Run(store, uid, a, ctx);
            var tb := Run(ta.store, uid, b, ctx);
            var t := Run(store, uid, a + b, ctx);
            t.store == tb.store && t.rows == ta.rows + tb.rows
    decreases |a|
  {
    if |a| == 0 {
      assert a + b == b;
    } else {
      assert (a + b)[0] == a[0];
      assert (a + b)[1..] == a[1..] + b;
      var st := Dispatch(store, uid, a[0], ctx);
      var row := if st.appended.Some? then [st.appended.value] else [];
      var ta' := Run(st.store, uid, a[1..], ctx);
      var tb := Run(ta'.store, uid, b, ctx);
      RunAppend(st.store, uid, a[1..], b, ctx);
      assert Run(store, uid, a, ctx).rows == row + ta'.rows;
      assert Run(store, uid, a + b, ctx).rows == row + (ta'.rows + tb.rows);
      Associative(row, ta'.rows, tb.rows);
    }
  }

  lemma Associative<T>(x: seq<T>, y: seq<T>, z: seq<T>)
    ensures x + (y + z) == (x + y) + z
  {
  }

  /** The first five events of every path: entry phrase, name, level, format, purpose. */
  function Opening(name: string, level: string, format: string, purpose: string): seq<Event> {
    [Text("Поехали!"), Text(name), Button(level), Button(format), Button(purpose)]
  }

  /** The rest of the path through "Написать в телеграм" and "Использовать текущий". */
  function TelegramClosing(date: string): seq<Event> {
    [Button(WriteTelegram), Button(UseCurrent), Calendar(CalendarPick(Some(date), false)), Button(Send)]
  }

  /** The rest of the path through "Написать в телеграм", "Указать другой"
      and a typed nickname. */
  function NicknameClosing(nick: string, date: string): seq<Event> {
    [Button(WriteTelegram), Button(SpecifyOther), Text(nick), Calendar(CalendarPick(Some(date), false)), Button(Send)]
  }

  /** The rest of the path through "Позвонить" and a phone number. */
  function CallClosing(phone: Event, date: string): seq<Event> {
    [Button(Call), phone, Calendar(CalendarPick(Some(date), false)), Button(Send)]
  }

  /** The record a new user starts with. */
  const Fresh: Record := map["state" := Str("name")]

  /** The record after the four answers given before the contact question. */
  function Answers(name: string, level: string, format: string, purpose: string): Record {
    Fresh["name" := Str(name)]["state" := Str("level")]
         ["level" := Str(level)]["state" := Str("format")]
         ["format" := Str(format)]["state" := Str("purpose")]
         ["purpose" := Str(purpose)]["state" := Str("username")]
  }

  lemma Overwrite(store: Store, uid: UserId, a: Record, b: Record)
    ensures store[uid := a][uid := b] == store[uid := b]
  {
  }

  /** An entry phrase from a new user creates the fresh record. */
  lemma EntryStep(store: Store, uid: UserId, ctx: Context)
    requires uid !in store
    ensures Dispatch(store, uid, Text("Поехали!"), ctx) == Step(store[uid := Fresh], Prompted(AskName), None)
  {
  }

  /** Sending an entry phrase twice has the effect of sending it once: the
      second one finds the record and only repeats the pending question. */
  lemma EntryIdempotent(store: Store, uid: UserId, phrase: string, ctx: Context)
    requires phrase in EntryPhrases
    ensures var once := Dispatch(store, uid, Text(phrase), ctx).store;
            Dispatch(once, uid, Text(phrase), ctx).store == once
    ensures var once := Dispatch(store, uid, Text(phrase), ctx).store;
            uid in once && (uid in store ==> once == store)
  {
  }

  /** A name typed while the name is pending is recorded. */
  lemma NameStep(store: Store, uid: UserId, name: string, ctx: Context)
    requires StateIs(store, uid, "name") && name != "" && name !in EntryPhrases
    ensures Dispatch(store, uid, Text(name), ctx)
         == Step(store[uid := store[uid]["name" := Str(name)]["state" := Str("level")]], Prompted(AskLevel), None)
  {
  }

  /** The state after each choice question, as the inline handler advances it. */
  function NextAfter(key: string): string {
    if key == "level" then "format" else if key == "format" then "purpose" else "username"
  }

  /** A first-pass click while a choice question is pending records it. */
  lemma ChoiceStep(store: Store, uid: UserId, key: string, data: string, ctx: Context)
    requires key in {"level", "format", "purpose"}
    requires StateIs(store, uid, key) && key !in store[uid]
    requires data in InlineLabels
    ensures Dispatch(store, uid, Button(data), ctx).store
         == store[uid := store[uid][key := Str(data)]["state" := Str(NextAfter(key))]]
    ensures Dispatch(store, uid, Button(data), ctx).appended == None
  {
    InlineRoute(data);
  }

  /** Entry phrase, name and the three choice questions take a new user to
      the contact question with those four answers recorded. */
  lemma AnswersStep(store: Store, uid: UserId, name: string, level: string, format: string,
                    purpose: string, ctx: Context)
    requires uid !in store
    requires name != "" && name !in EntryPhrases
    requires level in InlineLabels && format in InlineLabels && purpose in InlineLabels
    ensures var t := Run(store, uid, Opening(name, level, format, purpose), ctx);
            t.store == store[uid := Answers(name, level, format, purpose)] && t.rows == []
  {
    var evs := Opening(name, level, format, purpose);
    var r1 := Fresh;
    EntryStep(store, uid, ctx);
    var s1 := store[uid := r1];
    var r2 := r1["name" := Str(name)]["state" := Str("level")];
    NameStep(s1, uid, name, ctx);
    var s2 := store[uid := r2];
    Overwrite(store, uid, r1, r2);
    var r3 := r2["level" := Str(level)]["state" := Str("format")];
    ChoiceStep(s2, uid, "level", level, ctx);
    var s3 := store[uid := r3];
    Overwrite(store, uid, r2, r3);
    var r4 := r3["format" := Str(format)]["state" := Str("purpose")];
    ChoiceStep(s3, uid, "format", format, ctx);
    var s4 := store[uid := r4];
    Overwrite(store, uid, r3, r4);
    var r5 := r4["purpose" := Str(purpose)]["state" := Str("username")];
    ChoiceStep(s4, uid, "purpose", purpose, ctx);
    Overwrite(store, uid, r4, r5);
    OpeningRun(store, uid, evs, ctx);
  }

  /** Runs the five opening events one by one. */
  lemma OpeningRun(s0: Store, uid: UserId, evs: seq<Event>, ctx: Context)
    requires |evs| == 5
    ensures var s1 := Dispatch(s0, uid, evs[0], ctx);
            var s2 := Dispatch(s1.store, uid, evs[1], ctx);
            var s3 := Dispatch(s2.store, uid, evs[2], ctx);
            var s4 := Dispatch(s3.store, uid, evs[3], ctx);
            var s5 := Dispatch(s4.store, uid, evs[4], ctx);
            s1.appended == None && s2.appended == None && s3.appended == None
            && s4.appended == None && s5.appended == None ==>
              Run(s0, uid, evs, ctx).store == s5.store && Run(s0, uid, evs, ctx).rows == []
  {
    var s1 := Dispatch(s0, uid, evs[0], ctx).store;
    var s2 := Dispatch(s1, uid, evs[1], ctx).store;
    var s3 := Dispatch(s2, uid, evs[2], ctx).store;
    var s4 := Dispatch(s3, uid, evs[3], ctx).store;
    RunFrom(s4, uid, evs, 4, ctx);
    RunFrom(s3, uid, evs, 3, ctx);
    RunFrom(s2, uid, evs, 2, ctx);
    RunFrom(s1, uid, evs, 1, ctx);
    RunFrom(s0, uid, evs, 0, ctx);
    assert evs[0..] == evs;
  }

  /** A first-pass click on a contact-method or username button. */
  lemma ContactStep(store: Store, uid: UserId, data: string, ctx: Context)
    requires uid in store && "state" in store[uid] && !Editing(store[uid])
    requires store[uid]["state"] !in {Str("level"), Str("format"), Str("purpose")}
    requires data in {WriteTelegram, Call, UseCurrent}
    ensures var st := Dispatch(store, uid, Button(data), ctx);
            var r := store[uid];
            && st.appended == None
            && (data == WriteTelegram ==> st.store == store[uid := r["state" := Str("username")]])
            && (data == Call ==> st.store == store[uid := r["state" := Str("phone")]])
            && (data == UseCurrent ==>
                  st.store == store[uid := r["username" := HandleValue(ctx.handle)]["state" := Str("meet_date")]])
  {
    EachButtonHasOneHandler();
  }

  /** A first-pass click on "Указать другой" asks for a nickname. */
  lemma SpecifyOtherStep(store: Store, uid: UserId, ctx: Context)
    requires uid in store && "state" in store[uid] && !Editing(store[uid])
    requires store[uid]["state"] !in {Str("level"), Str("format"), Str("purpose")}
    ensures Dispatch(store, uid, Button(SpecifyOther), ctx).store
         == store[uid := store[uid]["state" := Str("username_write")]]
    ensures Dispatch(store, uid, Button(SpecifyOther), ctx).appended == None
  {
    InlineRoute(SpecifyOther);
  }

  /** A first typed nickname is stored and the date asked for. */
  lemma NicknameStep(store: Store, uid: UserId, nick: string, ctx: Context)
    requires StateIs(store, uid, "username_write") && "username" !in store[uid]
    requires nick != "" && nick !in EntryPhrases
    ensures Dispatch(store, uid, Text(nick), ctx).store
         == store[uid := store[uid]["username" := Str(nick)]["state" := Str("meet_date")]]
    ensures Dispatch(store, uid, Text(nick), ctx).appended == None
  {
  }

  /** A picked date is stored and the contacts defaulted. */
  lemma DateStep(store: Store, uid: UserId, date: string, ctx: Context)
    requires uid in store
    ensures Dispatch(store, uid, Calendar(CalendarPick(Some(date), false)), ctx).store
         == store[uid := Defaults(store[uid]["meet_date" := Str(date)])]
    ensures Dispatch(store, uid, Calendar(CalendarPick(Some(date), false)), ctx).appended == None
  {
  }

  /** A phone number, shared or typed, as the first-pass phone handler sees it. */
  predicate PhoneEvent(e: Event) {
    || (e.SharedContact? && e.number != "")
    || (e.Text? && e.text !in EntryPhrases && PhoneFilter.PhoneMatch(e.text))
  }

  function PhoneOf(e: Event): string
    requires PhoneEvent(e)
  {
    if e.SharedContact? then e.number else e.text
  }

  /** The first phone number is stored without changing the state. */
  lemma PhoneStep(store: Store, uid: UserId, e: Event, ctx: Context)
    requires uid in store && "phone" !in store[uid] && PhoneEvent(e)
    requires !StateIs(store, uid, "name") && !StateIs(store, uid, "username_write")
    ensures Dispatch(store, uid, e, ctx).store == store[uid := store[uid]["phone" := Str(PhoneOf(e))]]
    ensures Dispatch(store, uid, e, ctx).appended == None
  {
  }

  /** Sending a complete record appends its row and deletes it. */
  lemma SendStep(store: Store, uid: UserId, ctx: Context)
    requires uid in store && Complete(store[uid]) && ctx.sheetUp
    ensures Dispatch(store, uid, Button(Send), ctx).store == store - {uid}
    ensures Dispatch(store, uid, Button(Send), ctx).appended == Some(SaveResults(store[uid], ctx.now).row)
  {
  }

  /** Runs the four closing events one by one. */
  lemma ClosingRun(s0: Store, uid: UserId, evs: seq<Event>, ctx: Context)
    requires |evs| == 4
    ensures var s1 := Dispatch(s0, uid, evs[0], ctx);
            var s2 := Dispatch(s1.store, uid, evs[1], ctx);
            var s3 := Dispatch(s2.store, uid, evs[2], ctx);
            var s4 := Dispatch(s3.store, uid, evs[3], ctx);
            s1.appended == None && s2.appended == None && s3.appended == None ==>
              Run(s0, uid, evs, ctx).store == s4.store
              && Run(s0, uid, evs, ctx).rows == (if s4.appended.Some? then [s4.appended.value] else [])
  {
    var s1 := Dispatch(s0, uid, evs[0], ctx).store;
    var s2 := Dispatch(s1, uid, evs[1], ctx).store;
    var s3 := Dispatch(s2, uid, evs[2], ctx).store;
    RunFrom(s3, uid, evs, 3, ctx);
    RunFrom(s2, uid, evs, 2, ctx);
    RunFrom(s1, uid, evs, 1, ctx);
    RunFrom(s0, uid, evs, 0, ctx);
    assert evs[0..] == evs;
  }

  /** Runs five closing events one by one. */
  lemma ClosingRunFive(s0: Store, uid: UserId, evs: seq<Event>, ctx: Context)
    requires |evs| == 5
    ensures var s1 := Dispatch(s0, uid, evs[0], ctx);
            var s2 := Dispatch(s1.store, uid, evs[1], ctx);
            var s3 := Dispatch(s2.store, uid, evs[2], ctx);
            var s4 := Dispatch(s3.store, uid, evs[3], ctx);
            var s5 := Dispatch(s4.store, uid, evs[4], ctx);
            s1.appended == None && s2.appended == None && s3.appended == None && s4.appended == None ==>
              Run(s0, uid, evs, ctx).store == s5.store
              && Run(s0, uid, evs, ctx).rows == (if s5.appended.Some? then [s5.appended.value] else [])
  {
    var s1 := Dispatch(s0, uid, evs[0], ctx).store;
    var s2 := Dispatch(s1, uid, evs[1], ctx).store;
    var s3 := Dispatch(s2, uid, evs[2], ctx).store;
    var s4 := Dispatch(s3, uid, evs[3], ctx).store;
    RunFrom(s4, uid, evs, 4, ctx);
    RunFrom(s3, uid, evs, 3, ctx);
    RunFrom(s2, uid, evs, 2, ctx);
    RunFrom(s1, uid, evs, 1, ctx);
    RunFrom(s0, uid, evs, 0, ctx);
    assert evs[0..] == evs;
  }

  /** A new user who answers every question in order, asks to be written to
      in Telegram under the current handle, picks a date and sends, leaves
      exactly one row, with "-" for the phone, and no record behind. */
  lemma TelegramPathSubmits(store: Store, uid: UserId, name: string, level: string, format: string,
                            purpose: string, date: string, ctx: Context)
    requires uid !in store && ctx.sheetUp
    requires name != "" && name !in EntryPhrases
    requires level in Levels && format in Formats && purpose in Purposes
    ensures var t := Run(store, uid, Opening(name, level, format, purpose) + TelegramClosing(date), ctx);
            && t.store == store
            && t.rows == [[Str(name), Str(level), Str(format), Str(purpose),
                           Str(OrDash(Some(HandleValue(ctx.handle)))), Str("-"), Str(date), Str(ctx.now)]]
  {
    AnswersStep(store, uid, name, level, format, purpose, ctx);
    RunAppend(store, uid, Opening(name, level, format, purpose), TelegramClosing(date), ctx);
    var r5 := Answers(name, level, format, purpose);
    AnswersFields(name, level, format, purpose);
    TelegramClosingRun(store, uid, r5, date, ctx);
    var r7 := r5["state" := Str("username")]["username" := HandleValue(ctx.handle)]["state" := Str("meet_date")];
    assert Answered(r7) && r7["name"] == Str(name) && r7["level"] == Str(level);
    assert r7["format"] == Str(format) && r7["purpose"] == Str(purpose);
    assert Get(r7, "username") == Some(HandleValue(ctx.handle)) && Get(r7, "phone") == None;
    SubmittedRow(r7, date, ctx.now);
  }

  /** "Написать в телеграм", the current handle, a date and "Отправить!"
      after the four answers: the record is sent and removed. */
  lemma TelegramClosingRun(store: Store, uid: UserId, r5: Record, date: string, ctx: Context)
    requires uid !in store && ctx.sheetUp
    requires Answered(r5) && "phone" !in r5 && "username" !in r5
    requires Get(r5, "state") == Some(Str("username"))
    ensures var r7 := r5["state" := Str("username")]["username" := HandleValue(ctx.handle)]["state" := Str("meet_date")];
            var t := Run(store[uid := r5], uid, TelegramClosing(date), ctx);
            && t.store == store
            && t.rows == [SaveResults(Defaults(r7["meet_date" := Str(date)]), ctx.now).row]
  {
    var s5 := store[uid := r5];
    assert !Editing(r5);
    ContactStep(s5, uid, WriteTelegram, ctx);
    var r6 := r5["state" := Str("username")];
    var s6 := store[uid := r6];
    Overwrite(store, uid, r5, r6);
    assert !Editing(r6);
    ContactStep(s6, uid, UseCurrent, ctx);
    var r7 := r6["username" := HandleValue(ctx.handle)]["state" := Str("meet_date")];
    var s7 := store[uid := r7];
    Overwrite(store, uid, r6, r7);
    DateStep(s7, uid, date, ctx);
    var r8 := Defaults(r7["meet_date" := Str(date)]);
    var s8 := store[uid := r8];
    Overwrite(store, uid, r7, r8);
    assert Complete(r8);
    SendStep(s8, uid, ctx);
    RemoveAdded(store, uid, r8);
    ClosingRun(s5, uid, TelegramClosing(date), ctx);
  }

  /** A new user who answers every question in order, asks to be written to
      in Telegram under a nickname typed by hand, picks a date and sends,
      leaves exactly one row, holding that nickname and "-" for the phone,
      and no record behind. */
  lemma NicknamePathSubmits(store: Store, uid: UserId, name: string, level: string, format: string,
                            purpose: string, nick: string, date: string, ctx: Context)
    requires uid !in store && ctx.sheetUp
    requires name != "" && name !in EntryPhrases
    requires nick != "" && nick !in EntryPhrases
    requires level in Levels && format in Formats && purpose in Purposes
    ensures var t := Run(store, uid, Opening(name, level, format, purpose) + NicknameClosing(nick, date), ctx);
            && t.store == store
            && t.rows == [[Str(name), Str(level), Str(format), Str(purpose),
                           Str(nick), Str("-"), Str(date), Str(ctx.now)]]
  {
    AnswersStep(store, uid, name, level, format, purpose, ctx);
    RunAppend(store, uid, Opening(name, level, format, purpose), NicknameClosing(nick, date), ctx);
    var r5 := Answers(name, level, format, purpose);
    AnswersFields(name, level, format, purpose);
    NicknameClosingRun(store, uid, r5, nick, date, ctx);
    var r8 := r5["state" := Str("username")]["state" := Str("username_write")]
                ["username" := Str(nick)]["state" := Str("meet_date")];
    assert Answered(r8) && r8["name"] == Str(name) && r8["level"] == Str(level);
    assert r8["format"] == Str(format) && r8["purpose"] == Str(purpose);
    assert Get(r8, "username") == Some(Str(nick)) && Get(r8, "phone") == None;
    SubmittedRow(r8, date, ctx.now);
  }

  /** "Написать в телеграм", "Указать другой", a nickname, a date and
      "Отправить!" after the four answers: the record is sent and removed. */
  lemma NicknameClosingRun(store: Store, uid: UserId, r5: Record, nick: string, date: string, ctx: Context)
    requires uid !in store && ctx.sheetUp && nick != "" && nick !in EntryPhrases
    requires Answered(r5) && "phone" !in r5 && "username" !in r5
    requires Get(r5, "state") == Some(Str("username"))
    ensures var r8 := r5["state" := Str("username")]["state" := Str("username_write")]
                        ["username" := Str(nick)]["state" := Str("meet_date")];
            var t := Run(store[uid := r5], uid, NicknameClosing(nick, date), ctx);
            && t.store == store
            && t.rows == [SaveResults(Defaults(r8["meet_date" := Str(date)]), ctx.now).row]
  {
    var s5 := store[uid := r5];
    assert !Editing(r5);
    ContactStep(s5, uid, WriteTelegram, ctx);
    var r6 := r5["state" := Str("username")];
    var s6 := store[uid := r6];
    Overwrite(store, uid, r5, r6);
    assert !Editing(r6);
    SpecifyOtherStep(s6, uid, ctx);
    var r7 := r6["state" := Str("username_write")];
    var s7 := store[uid := r7];
    Overwrite(store, uid, r6, r7);
    NicknameStep(s7, uid, nick, ctx);
    var r8 := r7["username" := Str(nick)]["state" := Str("meet_date")];
    var s8 := store[uid := r8];
    Overwrite(store, uid, r7, r8);
    DateStep(s8, uid, date, ctx);
    var r9 := Defaults(r8["meet_date" := Str(date)]);
    var s9 := store[uid := r9];
    Overwrite(store, uid, r8, r9);
    assert Complete(r9);
    SendStep(s9, uid, ctx);
    RemoveAdded(store, uid, r9);
    ClosingRunFive(s5, uid, NicknameClosing(nick, date), ctx);
  }

  lemma AnswersFields(name: string, level: string, format: string, purpose: string)
    ensures var r := Answers(name, level, format, purpose);
            && Answered(r) && r["name"] == Str(name) && r["level"] == Str(level)
            && r["format"] == Str(format) && r["purpose"] == Str(purpose)
            && "username" !in r && "phone" !in r && "meet_date" !in r
  {
  }

  lemma RemoveAdded(store: Store, uid: UserId, r: Record)
    requires uid !in store
    ensures store[uid := r] - {uid} == store
  {
  }

  /** The row of a record whose date is picked last. */
  lemma SubmittedRow(r: Record, date: string, now: string)
    requires Answered(r)
    ensures var row := SaveResults(Defaults(r["meet_date" := Str(date)]), now).row;
            row == [r["name"], r["level"], r["format"], r["purpose"],
                    Str(OrDash(Get(r, "username"))), Str(OrDash(Get(r, "phone"))), Str(date), Str(now)]
  {
    var d := Defaults(r["meet_date" := Str(date)]);
    DefaultsFixedPoint(r["meet_date" := Str(date)]);
    assert Get(r["meet_date" := Str(date)], "username") == Get(r, "username");
    assert Get(r["meet_date" := Str(date)], "phone") == Get(r, "phone");
  }

  /** A typed phone number that passes the filter is never empty. */
  lemma PhoneOfNonEmpty(e: Event)
    requires PhoneEvent(e)
    ensures PhoneOf(e) != ""
  {
    if e.Text? {
      PhoneFilter.PhoneMatchIsSearch(e.text);
    }
  }

  /** A new user who answers every question in order, asks to be called,
      gives a phone number, picks a date and sends, leaves exactly one row,
      with "-" for the username, and no record behind. */
  lemma CallPathSubmits(store: Store, uid: UserId, name: string, level: string, format: string,
                        purpose: string, phone: Event, date: string, ctx: Context)
    requires uid !in store && ctx.sheetUp
    requires name != "" && name !in EntryPhrases
    requires level in Levels && format in Formats && purpose in Purposes
    requires PhoneEvent(phone)
    ensures var t := Run(store, uid, Opening(name, level, format, purpose) + CallClosing(phone, date), ctx);
            && t.store == store
            && t.rows == [[Str(name), Str(level), Str(format), Str(purpose),
                           Str("-"), Str(PhoneOf(phone)), Str(date), Str(ctx.now)]]
  {
    AnswersStep(store, uid, name, level, format, purpose, ctx);
    RunAppend(store, uid, Opening(name, level, format, purpose), CallClosing(phone, date), ctx);
    var r5 := Answers(name, level, format, purpose);
    AnswersFields(name, level, format, purpose);
    CallClosingRun(store, uid, r5, phone, date, ctx);
    var r7 := r5["state" := Str("phone")]["phone" := Str(PhoneOf(phone))];
    PhoneOfNonEmpty(phone);
    assert Answered(r7) && r7["name"] == Str(name) && r7["level"] == Str(level);
    assert r7["format"] == Str(format) && r7["purpose"] == Str(purpose);
    assert Get(r7, "username") == None && Get(r7, "phone") == Some(Str(PhoneOf(phone)));
    SubmittedRow(r7, date, ctx.now);
  }

  /** "Позвонить", a phone number, a date and "Отправить!" after the four
      answers: the record is sent and removed. */
  lemma CallClosingRun(store: Store, uid: UserId, r5: Record, phone: Event, date: string, ctx: Context)
    requires uid !in store && ctx.sheetUp && PhoneEvent(phone)
    requires Answered(r5) && "phone" !in r5 && "username" !in r5
    requires Get(r5, "state") == Some(Str("username"))
    ensures var r7 := r5["state" := Str("phone")]["phone" := Str(PhoneOf(phone))];
            var t := Run(store[uid := r5], uid, CallClosing(phone, date), ctx);
            && t.store == store
            && t.rows == [SaveResults(Defaults(r7["meet_date" := Str(date)]), ctx.now).row]
  {
    var s5 := store[uid := r5];
    assert !Editing(r5);
    ContactStep(s5, uid, Call, ctx);
    var r6 := r5["state" := Str("phone")];
    var s6 := store[uid := r6];
    Overwrite(store, uid, r5, r6);
    PhoneStep(s6, uid, phone, ctx);
    var r7 := r6["phone" := Str(PhoneOf(phone))];
    var s7 := store[uid := r7];
    Overwrite(store, uid, r6, r7);
    DateStep(s7, uid, date, ctx);
    var r8 := Defaults(r7["meet_date" := Str(date)]);
    var s8 := store[uid := r8];
    Overwrite(store, uid, r7, r8);
    assert Complete(r8);
    SendStep(s8, uid, ctx);
    RemoveAdded(store, uid, r8);
    ClosingRun(s5, uid, CallClosing(phone, date), ctx);
  }

  /** "Отправить!" while the spreadsheet refuses the append faults and keeps
      the record, with its contacts defaulted; pressing it again once the
      spreadsheet is back appends the same row, stamped with the later clock
      reading, and removes the record. */
  lemma SendRetry(store: Store, uid: UserId, down: Context, up: Context)
    requires uid in store && Complete(store[uid])
    requires !down.sheetUp && up.sheetUp
    ensures var first := Dispatch(store, uid, Button(Send), down);
            first.reply == Fault && first.store == store[uid := Defaults(store[uid])]
    ensures var t := Replay(store, uid, [Input(Button(Send), down), Input(Button(Send), up)]);
            && t.store == store - {uid}
            && t.rows == [SaveResults(store[uid], up.now).row]
            && t.last.Thanks?
  {
    var r := store[uid];
    var s1 := store[uid := Defaults(r)];
    assert Dispatch(store, uid, Button(Send), down) == HandleCheck(store, uid, Send, down.now, false);
    DefaultsFixedPoint(r);
    assert Complete(Defaults(r));
    SendStep(s1, uid, up);
    assert SaveResults(Defaults(r), up.now).row == SaveResults(r, up.now).row;
    assert s1 - {uid} == store - {uid};
    var st2 := Dispatch(s1, uid, Button(Send), up);
    assert st2.reply.Thanks?;
    var tail := [Input(Button(Send), up)];
    assert tail[1..] == [];
    assert Replay(s1, uid, tail) == Trace(store - {uid}, [st2.appended.value], st2.reply);
    var ins := [Input(Button(Send), down), Input(Button(Send), up)];
    assert ins[1..] == tail;
  }

  /** The conversation of a user called Anna who keeps the handle "anna_tg":
      the row holds her answers, her handle, "-" for the phone, the date and
      the submission time. */
  lemma AnnaSubmits(store: Store, uid: UserId, date: string, now: string)
    requires uid !in store
    ensures var ctx := Context(Some("anna_tg"), now, true);
            var t := Run(store, uid, Opening("Anna", "HSK 1", "Индивидуальный", "Сдать HSK") + TelegramClosing(date), ctx);
            && t.store == store
            && t.rows == [[Str("Anna"), Str("HSK 1"), Str("Индивидуальный"), Str("Сдать HSK"),
                           Str("anna_tg"), Str("-"), Str(date), Str(now)]]
  {
    TelegramPathSubmits(store, uid, "Anna", "HSK 1", "Индивидуальный", "Сдать HSK", date,
                        Context(Some("anna_tg"), now, true));
  }

  /** The value an edit answer stores. */
  function EditValue(answer: Event, ctx: Context): Value
    requires answer.Button? || PhoneEvent(answer)
  {
    if answer.Button? then ClickedValue(answer.data, ctx.handle) else Str(PhoneOf(answer))
  }

  /** An answer that fits the field being edited: a phone number for
      "Телефон", a click on an inline button for the other three. A click that
      would store an empty or missing handle is excluded. */
  predicate FitsEdit(choice: string, answer: Event, ctx: Context) {
    if choice == "Телефон" then PhoneEvent(answer)
    else answer.Button? && answer.data in InlineLabels && Truthy(ClickedValue(answer.data, ctx.handle))
  }

  /** "Изменить данные" changes nothing. */
  lemma EditMenuStep(store: Store, uid: UserId, ctx: Context)
    ensures Dispatch(store, uid, Button(EditData), ctx) == Step(store, EditMenu, None)
  {
  }

  /** An edit-menu choice re-opens its field. */
  lemma ChangeStep(store: Store, uid: UserId, choice: string, ctx: Context)
    requires uid in store && choice in ChangeInfo
    ensures ChangeDict[choice] in {"username", "phone", "level", "format"}
    ensures Dispatch(store, uid, Button(choice), ctx).store == store[uid := store[uid]["state" := Str(ChangeDict[choice])]]
    ensures Dispatch(store, uid, Button(choice), ctx).appended == None
  {
    ChangeDictShape();
    ChangeInfoRoute(choice);
    assert Dispatch(store, uid, Button(choice), ctx) == ChangeInfoChoice(store, uid, choice, ctx.handle);
  }

  /** In edit mode on a reviewed record, a fitting answer overwrites the edited
      field only and shows the summary. */
  lemma EditAnswerStep(store: Store, uid: UserId, choice: string, answer: Event, ctx: Context)
    requires choice in ChangeInfo && FitsEdit(choice, answer, ctx)
    requires uid in store && Complete(store[uid]) && Reviewed(store[uid])
    requires Get(store[uid], "state") == Some(Str(ChangeDict[choice]))
    ensures var st := Dispatch(store, uid, answer, ctx);
            && st.store == store[uid := store[uid][ChangeDict[choice] := EditValue(answer, ctx)]]
            && st.appended == None && st.reply.Review?
  {
    ChangeDictShape();
    var r := store[uid];
    var f := ChangeDict[choice];
    if choice == "Телефон" {
      assert f == "phone";
      EditPhoneStep(store, uid, answer, ctx);
    } else {
      assert f in {"username", "level", "format"};
      EditClickStep(store, uid, f, answer.data, ctx);
    }
  }

  /** In edit mode a click overwrites the field named by the state. */
  lemma EditClickStep(store: Store, uid: UserId, f: string, data: string, ctx: Context)
    requires f in {"username", "level", "format"} && data in InlineLabels
    requires Truthy(ClickedValue(data, ctx.handle))
    requires uid in store && Complete(store[uid]) && Reviewed(store[uid])
    requires Get(store[uid], "state") == Some(Str(f))
    ensures var st := Dispatch(store, uid, Button(data), ctx);
            && st.store == store[uid := store[uid][f := ClickedValue(data, ctx.handle)]]
            && st.appended == None && st.reply.Review?
  {
    WriteOwnNeverOffered();
    var r := store[uid];
    var v := ClickedValue(data, ctx.handle);
    InlineRoute(data);
    assert Editing(r);
    assert Dispatch(store, uid, Button(data), ctx) == InlineResponse(store, uid, data, ctx.handle);
    assert InlineResponse(store, uid, data, ctx.handle) == ShowReview(store, uid, r[f := v], "Твоя заявка:");
    assert Reviewed(r[f := v]);
    DefaultsFixedPoint(r[f := v]);
  }

  /** In edit mode a phone number overwrites the stored one. */
  lemma EditPhoneStep(store: Store, uid: UserId, e: Event, ctx: Context)
    requires PhoneEvent(e)
    requires uid in store && Complete(store[uid]) && Reviewed(store[uid])
    requires Get(store[uid], "state") == Some(Str("phone"))
    ensures var st := Dispatch(store, uid, e, ctx);
            && st.store == store[uid := store[uid]["phone" := Str(PhoneOf(e))]]
            && st.appended == None && st.reply.Review?
  {
    var r := store[uid];
    var v := Str(PhoneOf(e));
    PhoneOfNonEmpty(e);
    var input := if e.SharedContact? then Contact(e.number) else Typed(e.text);
    assert Dispatch(store, uid, e, ctx) == HandleMessage(store, uid, input);
    assert Reviewed(r["phone" := v]);
    DefaultsFixedPoint(r["phone" := v]);
  }

  /** Editing one field after the review: "Изменить данные", a field from the
      menu, and a fitting answer change that field and "state" only, and show
      the summary again. The state stays at the edited field's name; no
      separate review state exists. */
  lemma EditOneField(store: Store, uid: UserId, choice: string, answer: Event, ctx: Context)
    requires uid in store && Complete(store[uid]) && Reviewed(store[uid])
    requires choice in ChangeInfo && FitsEdit(choice, answer, ctx)
    ensures var t := Run(store, uid, [Button(EditData), Button(choice), answer], ctx);
            var f := ChangeDict[choice];
            && uid in t.store
            && Get(t.store[uid], f) == Some(EditValue(answer, ctx))
            && Get(t.store[uid], "state") == Some(Str(f))
            && SameExcept(store[uid], t.store[uid], {f, "state"})
            && t.rows == [] && t.last.Review?
  {
    var evs := [Button(EditData), Button(choice), answer];
    var r := store[uid];
    var f := ChangeDict[choice];
    EditMenuStep(store, uid, ctx);
    ChangeStep(store, uid, choice, ctx);
    var r2 := r["state" := Str(f)];
    var s2 := store[uid := r2];
    EditAnswerStep(s2, uid, choice, answer, ctx);
    var r3 := r2[f := EditValue(answer, ctx)];
    Overwrite(store, uid, r2, r3);
    RunFrom(s2, uid, evs, 2, ctx);
    RunFrom(store, uid, evs, 1, ctx);
    RunFrom(store, uid, evs, 0, ctx);
    assert evs[0..] == evs;
    assert f != "state";
  }

  /** In edit mode "Указать другой" does not ask for a nickname: the button's
      own choice becomes the username. */
  lemma EditNicknameStoresLabel(store: Store, uid: UserId, ctx: Context)
    requires uid in store && Complete(store[uid]) && Reviewed(store[uid])
    ensures var t := Run(store, uid, [Button(EditData), Button("Никнейм"), Button(SpecifyOther)], ctx);
            && uid in t.store
            && Get(t.store[uid], "username") == Some(Str("Указать другой"))
            && Get(t.store[uid], "state") == Some(Str("username"))
  {
    ChangeDictShape();
    assert ChangeDict["Никнейм"] == "username";
    assert SpecifyOther in InlineLabels;
    assert SpecifyOther != UseCurrent;
    assert EditValue(Button(SpecifyOther), ctx) == Str(SpecifyOther);
    EditOneField(store, uid, "Никнейм", Button(SpecifyOther), ctx);
  }
}
