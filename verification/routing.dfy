/** Routing of incoming events to the handlers, as the dispatcher does it:
    message handlers and callback handlers are tried in registration order
    and the first whose filter accepts the event runs. A handler that reads a
    missing record raises KeyError before it writes anything, which is
    modelled as reply Fault with the store unchanged. */
module Routing {
  import opened Wrappers
  import opened Records
  import opened Catalog
  import opened Results
  import opened Handlers
  import PhoneFilter

  /** What the messaging transport delivers for one user. Text events are
      assumed not to be bot commands; "/start" arrives as StartCommand, and the
      date picker's callbacks arrive as Calendar. */
  datatype Event =
    | StartCommand
    | Text(text: string)
    | SharedContact(number: string)
    | Button(data: string)
    | Calendar(pick: CalendarPick)

  /** What the handlers read from outside the store: the user's chat handle,
      the clock reading used for the row's timestamp, and whether the
      spreadsheet accepts the append. */
  datatype Context = Context(handle: Option<string>, now: string, sheetUp: bool)

  /** `user_data.get(uid, {}).get("state") == state` */
  predicate StateIs(store: Store, uid: UserId, state: string) {
    uid in store && Get(store[uid], "state") == Some(Str(state))
  }

  function Dispatch(store: Store, uid: UserId, ev: Event, ctx: Context): (st: Step)
    ensures OthersUntouched(store, st.store, uid)
    // a record is created only by an entry phrase
    ensures uid !in store && uid in st.store ==> ev.Text? && ev.text in EntryPhrases
    // a record is deleted exactly when a row is appended, and only on "Отправить!"
    ensures st.appended.Some? <==> uid in store && uid !in st.store
    ensures st.appended.Some? ==> ev == Button(Send) && ctx.sheetUp
  {
    match ev
    case StartCommand => Step(store, Welcome, None)
    case Text(t) =>
      if t in EntryPhrases then
        if uid in store && "state" !in store[uid] then Step(store, Fault, None)
        else StartSurvey(store, uid, ctx.handle)
      else if t != "" && StateIs(store, uid, "name") then HandleName(store, uid, t)
      else if t != "" && StateIs(store, uid, "username_write") then HandleNickname(store, uid, t)
      else if PhoneFilter.PhoneMatch(t) then
        if uid in store then HandleMessage(store, uid, Typed(t)) else Step(store, Fault, None)
      else Step(store, Silent, None)
    case SharedContact(n) =>
      if uid in store then HandleMessage(store, uid, Contact(n)) else Step(store, Fault, None)
    case Button(data) =>
      (match RouteButton(data)
      case ToCheck => HandleCheck(store, uid, data, ctx.now, ctx.sheetUp)
      case ToChangeInfo =>
        ChangeDictShape();
        if uid in store then ChangeInfoChoice(store, uid, data, ctx.handle) else Step(store, Fault, None)
      case ToInline =>
        if uid in store && "state" in store[uid] then InlineResponse(store, uid, data, ctx.handle)
        else Step(store, Fault, None)
      case Unrouted => Step(store, Silent, None))
    case Calendar(pick) =>
      if pick.date.Some? && uid !in store then Step(store, Fault, None)
      else CalendarAnswer(store, uid, pick)
  }

  /** Every record keeps a "state" naming one of the survey's questions. */
  lemma DispatchPreservesWellFormed(store: Store, uid: UserId, ev: Event, ctx: Context)
    requires WellFormed(store)
    ensures WellFormed(Dispatch(store, uid, ev, ctx).store)
  {
    var st := Dispatch(store, uid, ev, ctx);
    if ev.Button? && RouteButton(ev.data) == ToChangeInfo && uid in store {
      ChangeDictShape();
      assert ChangeDict[ev.data] in States;
    }
    assert uid in st.store ==> WellFormedRecord(st.store[uid]);
    forall u | u in st.store
      ensures WellFormedRecord(st.store[u])
    {
      if u != uid {
        assert Lookup(store, u) == Lookup(st.store, u);
      }
    }
  }

  /** The outcome of a sequence of events from one user. */
  datatype Trace = Trace(store: Store, rows: seq<Row>, last: Reply)

  /** One event together with what the outside world looks like when it
      arrives: the clock, the chat handle and the spreadsheet may differ from
      one event to the next. */
  datatype Input = Input(ev: Event, ctx: Context)

  /** The events of one user, each handled under its own context. */
  function Replay(store: Store, uid: UserId, ins: seq<Input>): Trace
    decreases |ins|
  {
    if |ins| == 0 then Trace(store, [], Silent)
    else
      var st := Dispatch(store, uid, ins[0].ev, ins[0].ctx);
      var rest := Replay(st.store, uid, ins[1..]);
      var row := if st.appended.Some? then [st.appended.value] else [];
      Trace(rest.store, row + rest.rows, if |ins| == 1 then st.reply else rest.last)
  }

  /** The events of one user under one unchanging context. */
  function Run(store: Store, uid: UserId, evs: seq<Event>, ctx: Context): Trace
    decreases |evs|
  {
    if |evs| == 0 then Trace(store, [], Silent)
    else
      var st := Dispatch(store, uid, evs[0], ctx);
      var rest := Run(st.store, uid, evs[1..], ctx);
      var row := if st.appended.Some? then [st.appended.value] else [];
      Trace(rest.store, row + rest.rows, if |evs| == 1 then st.reply else rest.last)
  }

  /** Every event paired with the same context. */
  function Paired(evs: seq<Event>, ctx: Context): (ins: seq<Input>)
    ensures |ins| == |evs|
    ensures forall i :: 0 <= i < |evs| ==> ins[i] == Input(evs[i], ctx)
  {
    if |evs| == 0 then [] else [Input(evs[0], ctx)] + Paired(evs[1..], ctx)
  }

  /** A run under one context is the replay whose inputs all carry it. */
  lemma {:induction false} RunIsReplay(store: Store, uid: UserId, evs: seq<Event>, ctx: Context)
    ensures Run(store, uid, evs, ctx) == Replay(store, uid, Paired(evs, ctx))
    decreases |evs|
  {
    if |evs| > 0 {
      var ins := Paired(evs, ctx);
      assert ins[1..] == Paired(evs[1..], ctx);
      RunIsReplay(Dispatch(store, uid, evs[0], ctx).store, uid, evs[1..], ctx);
    }
  }

  /** Session isolation: one user's events never create, change or delete
      another user's record, whatever the clock, handle or spreadsheet do. */
  lemma {:induction false} ReplayIsolation(store: Store, uid: UserId, ins: seq<Input>, other: UserId)
    requires other != uid
    ensures Lookup(Replay(store, uid, ins).store, other) == Lookup(store, other)
    decreases |ins|
  {
    if |ins| > 0 {
      var st := Dispatch(store, uid, ins[0].ev, ins[0].ctx);
      ReplayIsolation(st.store, uid, ins[1..], other);
    }
  }

  /** Well-formedness holds after any sequence of events under any contexts. */
  lemma {:induction false} ReplayPreservesWellFormed(store: Store, uid: UserId, ins: seq<Input>)
    requires WellFormed(store)
    ensures WellFormed(Replay(store, uid, ins).store)
    decreases |ins|
  {
    if |ins| > 0 {
      DispatchPreservesWellFormed(store, uid, ins[0].ev, ins[0].ctx);
      ReplayPreservesWellFormed(Dispatch(store, uid, ins[0].ev, ins[0].ctx).store, uid, ins[1..]);
    }
  }
}
