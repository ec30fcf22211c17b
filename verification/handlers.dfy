/** The bot's handlers as pure updates of the session store. Each takes the
    store, the user and the event's payload and returns a Step: the store
    afterwards, what the bot answers, and the spreadsheet row it appended if
    any. A Python exception (a KeyError on a missing key, a failed append)
    ends the handler with reply Fault and the store as it stood when the
    exception was raised. */
module Handlers {
  import opened Wrappers
  import opened Records
  import opened Catalog
  import opened Results

  /** Which question `ask_question` puts to the user. */
  datatype Prompt =
    | AskName
    | AskLevel
    | AskFormat
    | AskContact
    | AskUsername(handle: Option<string>)
    | AskNickname
    | AskPurpose
    | AskPhone(editing: bool)
    | AskDate
    | NoPrompt

  /** The bot's answer to an event. */
  datatype Reply =
    | Welcome                       // greeting photo and the "Поехали!" button
    | Prompted(prompt: Prompt)
    | Review(summary: string)       // the record summary with the CheckChoices keyboard
    | EditMenu                      // the ChangeInfo keyboard
    | Thanks(operatorNote: string)  // thanks to the user; the summary goes to the operator
    | CalendarMoved                 // the date picker redrawn on another month or year
    | Silent
    | Fault

  datatype Step = Step(store: Store, reply: Reply, appended: Option<Row>)

  /** The calendar widget's verdict on a click: the picked date, if one was
      picked, and whether it produced a new keyboard to show. */
  datatype CalendarPick = CalendarPick(date: Option<string>, keyboard: bool)

  /** A phone number as it arrives: a shared contact or typed text. */
  datatype PhoneInput = Contact(number: string) | Typed(text: string)

  /** The state names `ask_question` has a question for: every state a
      handler writes, and "contact", which is only ever asked, never stored. */
  const Questions: set<string> := States + {"contact"}

  /** `ask_question(message, state)`; the "phone" prompt differs when the
      record already holds a phone number. */
  function AskQuestion(r: Record, state: string, handle: Option<string>): (p: Prompt)
    ensures state in Questions ==> Topic(p) == state
    ensures p == NoPrompt <==> state !in Questions
    ensures p.AskPhone? <==> state == "phone"
    ensures p.AskPhone? ==> p.editing == ("phone" in r)
    ensures p.AskUsername? ==> p.handle == handle
  {
    if state == "name" then AskName
    else if state == "level" then AskLevel
    else if state == "format" then AskFormat
    else if state == "contact" then AskContact
    else if state == "username" then AskUsername(handle)
    else if state == "username_write" then AskNickname
    else if state == "purpose" then AskPurpose
    else if state == "phone" then AskPhone("phone" in r)
    else if state == "meet_date" then AskDate
    else NoPrompt
  }

  /** The state name a prompt asks about; "" for no prompt. */
  function Topic(p: Prompt): string {
    match p
    case AskName => "name"
    case AskLevel => "level"
    case AskFormat => "format"
    case AskContact => "contact"
    case AskUsername(_) => "username"
    case AskNickname => "username_write"
    case AskPurpose => "purpose"
    case AskPhone(_) => "phone"
    case AskDate => "meet_date"
    case NoPrompt => ""
  }

  /** Different questions get different prompts. */
  lemma AskQuestionInjective(r: Record, a: string, b: string, handle: Option<string>)
    requires a in Questions && b in Questions
    ensures AskQuestion(r, a, handle) == AskQuestion(r, b, handle) <==> a == b
  {
  }

  /** The chat handle as Python stores it: None when the user has none. */
  function HandleValue(handle: Option<string>): Value {
    match handle
    case Some(h) => Str(h)
    case None => Null
  }

  /** Stores `r` for `uid` and answers with `get_results(uid, heading)`. */
  function ShowReview(store: Store, uid: UserId, r: Record, heading: string): (st: Step)
    ensures st.store == store[uid := Defaults(r)]
    ensures st.appended == None
    ensures Complete(r) ==> st.reply == Review(SummaryText(Defaults(r), heading))
    ensures !Complete(r) ==> st.reply == Fault
  {
    var f := GetResults(r, heading);
    Step(store[uid := f.record], if f.summary.Some? then Review(f.summary.value) else Fault, None)
  }

  /** `start_survey`: creates {"state": "name"} for a new user and repeats the
      pending question otherwise. */
  function StartSurvey(store: Store, uid: UserId, handle: Option<string>): (st: Step)
    requires uid in store ==> "state" in store[uid]
    ensures (uid in store ==> WellFormedRecord(store[uid])) ==> uid in st.store && WellFormedRecord(st.store[uid])
    ensures uid !in store ==> uid in st.store && st.store[uid] == map["state" := Str("name")]
    ensures uid !in store ==> st.reply == Prompted(AskName)
    ensures uid in store ==> st.store == store
    ensures uid in store && store[uid]["state"].Str? ==>
      st.reply == Prompted(AskQuestion(store[uid], store[uid]["state"].s, handle))
    ensures st.store.Keys == store.Keys + {uid}
    ensures OthersUntouched(store, st.store, uid)
    ensures st.appended == None
  {
    var s' := if uid !in store then store[uid := map["state" := Str("name")]] else store;
    var state := s'[uid]["state"];
    Step(s', Prompted(if state.Str? then AskQuestion(s'[uid], state.s, handle) else NoPrompt), None)
  }

  /** `handle_name`: records the name and moves on to the level question. */
  function HandleName(store: Store, uid: UserId, text: string): (st: Step)
    requires uid in store
    ensures WellFormedRecord(store[uid]) ==> uid in st.store && WellFormedRecord(st.store[uid])
    ensures uid in st.store && st.store.Keys == store.Keys
    ensures Get(st.store[uid], "name") == Some(Str(text))
    ensures Get(st.store[uid], "state") == Some(Str("level"))
    ensures SameExcept(store[uid], st.store[uid], {"name", "state"})
    ensures OthersUntouched(store, st.store, uid)
    ensures st.reply == Prompted(AskLevel) && st.appended == None
  {
    var r := store[uid]["name" := Str(text)]["state" := Str("level")];
    Step(store[uid := r], Prompted(AskLevel), None)
  }

  /** `handle_nickname`: a typed nickname. On the first pass it moves on to the
      date; when a username is already stored it is overwritten and the
      summary shown, the state staying "username_write". */
  function HandleNickname(store: Store, uid: UserId, text: string): (st: Step)
    requires uid in store
    ensures WellFormedRecord(store[uid]) ==> uid in st.store && WellFormedRecord(st.store[uid])
    ensures uid in st.store && st.store.Keys == store.Keys
    ensures OthersUntouched(store, st.store, uid) && st.appended == None
    ensures text != "" ==> Get(st.store[uid], "username") == Some(Str(text))
    ensures "username" !in store[uid] ==>
      && Get(st.store[uid], "username") == Some(Str(text))
      && Get(st.store[uid], "state") == Some(Str("meet_date"))
      && SameExcept(store[uid], st.store[uid], {"username", "state"})
      && st.reply == Prompted(AskDate)
    ensures "username" in store[uid] ==>
      && st.store[uid] == Defaults(store[uid]["username" := Str(text)])
      && Reviewed(st.store[uid])
      && SameExcept(store[uid], st.store[uid], {"username", "phone"})
      && (Reviewed(store[uid]) && text != "" ==> SameExcept(store[uid], st.store[uid], {"username"}))
      && (st.reply.Review? <==> Complete(store[uid]))
      && (Complete(store[uid]) ==> Complete(st.store[uid]) && st.reply == Review(SummaryText(st.store[uid], "Твоя заявка:")))
  {
    var r := store[uid];
    if "username" in r then
      ShowReview(store, uid, r["username" := Str(text)], "Твоя заявка:")
    else
      Step(store[uid := r["username" := Str(text)]["state" := Str("meet_date")]], Prompted(AskDate), None)
  }

  /** `handle_check`: "Изменить данные" opens the edit menu and changes
      nothing; "Отправить!" appends the row, built with the clock reading
      `now`, when the spreadsheet accepts it (`sheetUp`), and only then
      deletes the user's record. */
  function HandleCheck(store: Store, uid: UserId, data: string, now: string, sheetUp: bool): (st: Step)
    ensures uid in store && uid in st.store && WellFormedRecord(store[uid]) ==> WellFormedRecord(st.store[uid])
    ensures data != Send ==> st.store == store && st.appended == None
    ensures data == EditData ==> st.reply == EditMenu
    ensures OthersUntouched(store, st.store, uid)
    ensures st.appended.Some? <==> data == Send && uid in store && Complete(store[uid]) && sheetUp
    ensures st.appended.Some? ==>
      && uid !in st.store && st.store.Keys == store.Keys - {uid}
      && st.appended.value == SaveResults(store[uid], now).row
      && st.reply == Thanks(SummaryText(Defaults(store[uid]), "Новая заявка"))
    ensures data == Send && st.appended.None? ==>
      && st.reply == Fault
      && (uid in store ==> uid in st.store && st.store[uid] == Defaults(store[uid]))
      && (uid !in store ==> st.store == store)
  {
    if data == EditData then Step(store, EditMenu, None)
    else if data == Send then
      if uid !in store then Step(store, Fault, None)
      else
        var user := GetResults(store[uid], "Твоя заявка:");
        var admin := GetResults(user.record, "Новая заявка");
        if admin.summary.None? then Step(store[uid := admin.record], Fault, None)
        else
          var saved := SaveResults(admin.record, now);
          if !sheetUp then Step(store[uid := saved.record], Fault, None)
          else Step(store - {uid}, Thanks(admin.summary.value), Some(saved.row))
    else Step(store, Silent, None)
  }

  /** `change_info`: re-opens the field the edit-menu label names. */
  function ChangeInfoChoice(store: Store, uid: UserId, data: string, handle: Option<string>): (st: Step)
    requires uid in store && data in ChangeDict
    ensures WellFormedRecord(store[uid]) ==> uid in st.store && WellFormedRecord(st.store[uid])
    ensures uid in st.store && st.store.Keys == store.Keys
    ensures Get(st.store[uid], "state") == Some(Str(ChangeDict[data]))
    ensures SameExcept(store[uid], st.store[uid], {"state"})
    ensures OthersUntouched(store, st.store, uid) && st.appended == None
    ensures st.reply == Prompted(AskQuestion(st.store[uid], ChangeDict[data], handle))
  {
    var state := ChangeDict[data];
    var r := store[uid]["state" := Str(state)];
    Step(store[uid := r], Prompted(AskQuestion(r, state, handle)), None)
  }

  /** The value an inline click writes in edit mode. */
  function ClickedValue(data: string, handle: Option<string>): Value {
    if data == UseCurrent then HandleValue(handle) else Str(data)
  }

  /** `handle_inline_response`: a click on a level, format, purpose, contact
      method or username button. In edit mode the click overwrites the field
      named by the state and shows the summary; otherwise the state decides. */
  function InlineResponse(store: Store, uid: UserId, data: string, handle: Option<string>): (st: Step)
    requires uid in store && "state" in store[uid]
    ensures WellFormedRecord(store[uid]) ==> uid in st.store && WellFormedRecord(st.store[uid])
    ensures uid in st.store && st.store.Keys == store.Keys
    ensures OthersUntouched(store, st.store, uid) && st.appended == None
    // edit mode: only the edited field (and the contact defaults) change
    ensures Editing(store[uid]) && data != WriteOwn ==>
      var k := store[uid]["state"].s;
      && st.store[uid] == Defaults(store[uid][k := ClickedValue(data, handle)])
      && SameExcept(store[uid], st.store[uid], {k, "username", "phone"})
      && Reviewed(st.store[uid])
      && (k != "username" && k != "phone" ==> Get(st.store[uid], k) == Some(ClickedValue(data, handle)))
      && (Reviewed(store[uid]) && Truthy(ClickedValue(data, handle)) ==>
            SameExcept(store[uid], st.store[uid], {k}) && Get(st.store[uid], k) == Some(ClickedValue(data, handle)))
      && (st.reply.Review? <==> Complete(store[uid]))
      && (Complete(store[uid]) ==> Complete(st.store[uid]) && st.reply == Review(SummaryText(st.store[uid], "Твоя заявка:")))
    // first pass through the three choice questions
    ensures !Editing(store[uid]) && store[uid]["state"] == Str("level") ==>
      && Get(st.store[uid], "level") == Some(Str(data))
      && Get(st.store[uid], "state") == Some(Str("format"))
      && SameExcept(store[uid], st.store[uid], {"level", "state"})
      && st.reply == Prompted(AskFormat)
    ensures !Editing(store[uid]) && store[uid]["state"] == Str("format") ==>
      && Get(st.store[uid], "format") == Some(Str(data))
      && Get(st.store[uid], "state") == Some(Str("purpose"))
      && SameExcept(store[uid], st.store[uid], {"format", "state"})
      && st.reply == Prompted(AskPurpose)
    ensures !Editing(store[uid]) && store[uid]["state"] == Str("purpose") ==>
      && Get(st.store[uid], "purpose") == Some(Str(data))
      && Get(st.store[uid], "state") == Some(Str("username"))
      && SameExcept(store[uid], st.store[uid], {"purpose", "state"})
      && st.reply == Prompted(AskContact)
    // first pass, any other state: the contact and username buttons
    ensures !Editing(store[uid]) && store[uid]["state"] !in {Str("level"), Str("format"), Str("purpose")} ==>
      && (data == WriteTelegram ==>
            Get(st.store[uid], "state") == Some(Str("username"))
            && SameExcept(store[uid], st.store[uid], {"state"})
            && st.reply == Prompted(AskUsername(handle)))
      && (data == Call ==>
            Get(st.store[uid], "state") == Some(Str("phone"))
            && SameExcept(store[uid], st.store[uid], {"state"})
            && st.reply == Prompted(AskPhone("phone" in store[uid])))
      && (data == SpecifyOther ==>
            Get(st.store[uid], "state") == Some(Str("username_write"))
            && SameExcept(store[uid], st.store[uid], {"state"})
            && st.reply == Prompted(AskNickname))
      && (data == UseCurrent ==>
            Get(st.store[uid], "username") == Some(HandleValue(handle))
            && Get(st.store[uid], "state") == Some(Str("meet_date"))
            && SameExcept(store[uid], st.store[uid], {"username", "state"})
            && st.reply == Prompted(AskDate))
      && (data !in ContactTypes && data !in UsernameChoices ==>
            st.store == store && st.reply == Silent)
  {
    var r := store[uid];
    var state := r["state"];
    if state.Str? && state.s in r && data != WriteOwn then
      ShowReview(store, uid, r[state.s := ClickedValue(data, handle)], "Твоя заявка:")
    else if state == Str("level") then
      Step(store[uid := r["level" := Str(data)]["state" := Str("format")]], Prompted(AskFormat), None)
    else if state == Str("format") then
      Step(store[uid := r["format" := Str(data)]["state" := Str("purpose")]], Prompted(AskPurpose), None)
    else if state == Str("purpose") then
      Step(store[uid := r["purpose" := Str(data)]["state" := Str("username")]], Prompted(AskContact), None)
    else if data == WriteTelegram then
      var r' := r["state" := Str("username")];
      Step(store[uid := r'], Prompted(AskQuestion(r', "username", handle)), None)
    else if data == Call then
      var r' := r["state" := Str("phone")];
      Step(store[uid := r'], Prompted(AskQuestion(r', "phone", handle)), None)
    else if data == SpecifyOther then
      Step(store[uid := r["state" := Str("username_write")]], Prompted(AskNickname), None)
    else if data == UseCurrent then
      Step(store[uid := r["username" := HandleValue(handle)]["state" := Str("meet_date")]], Prompted(AskDate), None)
    else Step(store, Silent, None)
  }

  /** The phone number an input carries. */
  function PhoneNumber(input: PhoneInput): string {
    match input
    case Contact(n) => n
    case Typed(t) => t
  }

  /** `handle_message`: a shared contact or a typed phone number. It never
      changes the state: the first time it stores the number and asks for the
      date, afterwards it overwrites the number and shows the summary. */
  function HandleMessage(store: Store, uid: UserId, input: PhoneInput): (st: Step)
    requires uid in store
    ensures WellFormedRecord(store[uid]) ==> uid in st.store && WellFormedRecord(st.store[uid])
    ensures uid in st.store && st.store.Keys == store.Keys
    ensures OthersUntouched(store, st.store, uid) && st.appended == None
    ensures Get(st.store[uid], "state") == Get(store[uid], "state")
    ensures PhoneNumber(input) != "" ==> Get(st.store[uid], "phone") == Some(Str(PhoneNumber(input)))
    ensures "phone" !in store[uid] ==>
      && Get(st.store[uid], "phone") == Some(Str(PhoneNumber(input)))
      && SameExcept(store[uid], st.store[uid], {"phone"})
      && st.reply == Prompted(AskDate)
    ensures "phone" in store[uid] ==>
      && st.store[uid] == Defaults(store[uid]["phone" := Str(PhoneNumber(input))])
      && Reviewed(st.store[uid])
      && SameExcept(store[uid], st.store[uid], {"username", "phone"})
      && (Reviewed(store[uid]) && PhoneNumber(input) != "" ==> SameExcept(store[uid], st.store[uid], {"phone"}))
      && (st.reply.Review? <==> Complete(store[uid]))
      && (Complete(store[uid]) ==> Complete(st.store[uid]) && st.reply == Review(SummaryText(st.store[uid], "Твоя заявка")))
  {
    var number := Str(PhoneNumber(input));
    var r := store[uid];
    if "phone" in r then ShowReview(store, uid, r["phone" := number], "Твоя заявка")
    else Step(store[uid := r["phone" := number]], Prompted(AskDate), None)
  }

  /** The date-picker callback: navigation redraws the picker and changes
      nothing; a picked date is stored and the summary shown; the state is
      never changed. */
  function CalendarAnswer(store: Store, uid: UserId, pick: CalendarPick): (st: Step)
    requires pick.date.Some? ==> uid in store
    ensures uid in store && WellFormedRecord(store[uid]) ==> uid in st.store && WellFormedRecord(st.store[uid])
    ensures st.appended == None
    ensures OthersUntouched(store, st.store, uid)
    ensures pick.date.None? ==> st.store == store
    ensures pick.date.None? && pick.keyboard ==> st.reply == CalendarMoved
    ensures pick.date.Some? ==>
      && uid in st.store && st.store.Keys == store.Keys
      && st.store[uid] == Defaults(store[uid]["meet_date" := Str(pick.date.value)])
      && Get(st.store[uid], "meet_date") == Some(Str(pick.date.value))
      && Get(st.store[uid], "state") == Get(store[uid], "state")
      && Reviewed(st.store[uid])
      && SameExcept(store[uid], st.store[uid], {"meet_date", "username", "phone"})
      && (st.reply.Review? <==> Answered(store[uid]))
      && (Answered(store[uid]) ==> Complete(st.store[uid]) && st.reply == Review(SummaryText(st.store[uid], "Твоя заявка")))
  {
    if pick.date.None? && pick.keyboard then Step(store, CalendarMoved, None)
    else if pick.date.Some? then
      ShowReview(store, uid, store[uid]["meet_date" := Str(pick.date.value)], "Твоя заявка")
    else Step(store, Silent, None)
  }
}
