# Sirop school survey bot: the session state machine

The bot walks a Telegram user through a short survey before a free
consultation. It asks for a name, a language level, a lesson format and a
purpose. Then it asks how to make contact: a Telegram handle or a phone
number. Last comes a meeting date. The bot then shows a summary, and the user
either sends it to a Google spreadsheet or edits one field and sees the
summary again.

This project models the bot's per-user session store and the handlers that
update it. The store is `user_data` in `main.py`. Each user has a string-keyed
record, and the key `"state"` names the pending question. Each handler becomes
a pure function from the store and the event payload to a `Step`. A `Step`
holds the new store, the bot's reply (which prompt, summary or menu) and the
spreadsheet row appended, if any.

Modules:

- `Catalog` (`catalog.dfy`): the button lists, `CHANGE_DICT`, and which
  callback handler a label reaches.
- `Records` (`records.dfy`): values, records, the store, and the "edit mode"
  test. Edit mode means a key named after the current state already exists.
- `Results` (`results.dfy`): `get_results` and `save_results`. This covers the
  `'-'` defaulting, the summary text and a parser that inverts it, and the
  spreadsheet row.
- `PhoneFilter` (`phone.dfy`): the phone regex `(\+?\d{1,3}[- ]?)?\d{10}` under
  `search`. It has two forms: a direct reading of the regex, and a
  single-pass scanner proved equal to it.
- `TextLines` (`textlines.dfy`): `'\n'.join` and `str.split('\n')`. The summary
  round trip rests on these.
- `Handlers` (`handlers.dfy`): one function per handler.
- `Routing` (`routing.dfy`): which handler an event reaches, and runs of many
  events.
- `Scenarios` (`scenarios.dfy`): whole conversations, plus the edit flow's
  quirks.

Python exceptions are part of the model. A `KeyError` on a missing record or
key, or a failed spreadsheet append, ends the handler with reply `Fault`. The
store is left as it was when the exception was raised. `get_results` applies
its `'-'` defaults before it reads `name`, so a fault that happens afterwards
keeps the defaults.

The model follows the code's quirks as written:

- There is no separate review state. After an edit, `"state"` stays at the
  name of the edited field.
- The phone and calendar handlers never change `"state"`.
- In edit mode, the `'Указать другой'` button stores its own label as the
  username.
- The guard `data != 'Написать свой'` is always true, because no button
  carries that label.

A number broken by inner spaces, such as `999 123 45 67`, is rejected: the
regex needs ten digits in a row (`PhoneFilter.FilterExamples`).

## Model

| member | source | states |
|---|---|---|
| Catalog.ButtonListsDisjoint | main.py:47-54 | No label appears in two of the seven button lists |
| Catalog.EachButtonHasOneHandler | main.py:219-256 | Every review, edit-menu or answer label passes exactly one of the three callback filters, and routing sends it to that filter's handler, whatever the registration order |
| Catalog.WriteOwnNeverOffered | main.py:262 | No keyboard offers 'Написать свой', so the edit-mode guard that excludes it never excludes a real click |
| Catalog.ChangeDictShape | main.py:54-61 | CHANGE_DICT is defined on exactly the four edit-menu labels and maps them one-to-one onto username, phone, level and format |
| Results.Defaults | main.py:358-361 | Afterwards username and phone are present and truthy. A truthy value is kept; a missing, empty or None value becomes '-'. Every other key is unchanged |
| Results.DefaultsFixedPoint | main.py:358-361 | Defaulting changes a record exactly when username or phone is not already truthy, and defaulting twice equals defaulting once |
| Results.GetResults | main.py:358-370 | The record afterwards is the defaulted record, and a summary exists exactly when name, level, format, purpose and meet_date are all present. Otherwise KeyError |
| Results.SummaryRoundTrip | main.py:362-370 | Parsing the summary gives back the heading and the seven fields in the fixed order: name, level, format, purpose, username, phone, date |
| Results.SaveResults | main.py:340-354 | The row has eight cells: the seven summary fields in summary order, with '-' defaults for username and phone, then the timestamp. The stored record is defaulted too |
| Results.SummaryShowsRow | main.py:340-370 | For every complete record, each of the seven field lines of the summary is its label followed by the matching cell of the saved row |
| Results.SummaryAgreesWithRow | main.py:340-370 | The values the summary shows are the first seven cells of the row that is saved |
| PhoneFilter.SearchIsDigitRun | main.py:62 | The regex finds a match somewhere in the text exactly when the text has ten consecutive digits. The optional prefix never adds or removes a match |
| PhoneFilter.PhoneMatchIsSearch | main.py:62 | The single-pass scanner accepts exactly the texts the regex search accepts |
| PhoneFilter.FilterExamples | main.py:62 | '+79991234567', '89991234567' and '+7 9991234567' are accepted. '999 123 45 67' and '123456789' are rejected |
| Handlers.AskQuestion | main.py:118-194 | Each of the nine state names ask_question knows, "contact" among them, gets the prompt for that question (its topic is that name), and any other name gets none. The phone prompt is the edit-mode one exactly when a phone is already stored, and the username prompt names the current chat handle |
| Handlers.AskQuestionInjective | main.py:118-194 | Two state names ask_question knows get the same prompt only if they are the same name |
| Handlers.StartSurvey | main.py:95-100 | A new user gets the record {"state": "name"} and is asked for a name. An existing record is left unchanged and its pending question is asked again. No other user is affected |
| Handlers.HandleName | main.py:197-202 | Sets name to the text and state to "level", changes no other key, and asks for the level |
| Handlers.HandleNickname | main.py:205-216 | First pass: sets username, moves to "meet_date" and asks for the date. When a username exists: the record becomes the defaulted record with the new username, and the summary shown is that updated record's. A truthy stored phone is kept, a missing or empty one becomes '-', and state and every other key stay as they were |
| Handlers.HandleCheck | main.py:219-244 | 'Изменить данные' changes nothing and opens the edit menu. 'Отправить!' appends a row exactly when the record exists, is complete and the sheet accepts it; the row is the save_results row and the record is deleted. When 'Отправить!' appends nothing, the reply is a fault and the record gains only the '-' defaults |
| Handlers.ChangeInfoChoice | main.py:247-253 | Sets state to CHANGE_DICT[label], changes no other key, and asks that field's question |
| Handlers.InlineResponse | main.py:256-298 | Edit mode overwrites the edited field with the label, or with the chat handle for 'Использовать текущий', then applies the '-' defaults (so a missing handle becomes '-'), and shows the updated record's summary. First pass stores level, format and purpose and advances to format, purpose, username in turn. The contact and username buttons set the documented state, and 'Использовать текущий' also stores the handle |
| Handlers.HandleMessage | main.py:301-318 | Never changes state. First pass: stores the phone (contact number or text) and asks for the date. When a phone exists: the record becomes the defaulted record with the new phone, so a truthy username is kept and a missing one becomes '-', and the summary shown is that updated record's |
| Handlers.CalendarAnswer | main.py:321-337 | Navigation leaves the store unchanged. A picked date is stored under meet_date and the record is then defaulted, so a truthy username or phone stored earlier is kept and a missing one becomes '-'. State is unchanged, and the updated record's summary is shown exactly when the four earlier answers exist |
| Routing.Dispatch | main.py:95-337 | No other user's record changes. Only an entry phrase creates a record. A record disappears exactly when a row is appended, and that happens only on 'Отправить!' with the sheet up |
| Routing.DispatchPreservesWellFormed | main.py:95-337 | After any event every record still has a state naming one of the survey's questions |
| Routing.ReplayIsolation | main.py:63 | No sequence of one user's events creates, changes or deletes another user's record, whatever clock reading, chat handle and spreadsheet outcome each event meets |
| Routing.ReplayPreservesWellFormed | main.py:95-337 | Well-formed records stay well-formed over any sequence of events, each under its own context |
| Routing.RunIsReplay | main.py:95-337 | A run under one fixed context is the replay in which every event carries that context, so the path lemmas below are replays too |
| Scenarios.EntryIdempotent | main.py:95-100 | A second entry phrase leaves the store as the first left it |
| Scenarios.TelegramPathSubmits | main.py:95-355 | A new user who answers in order, keeps the current handle, picks a date and sends gets exactly one row, holding the answers, the handle, '-' for the phone, the date and the time. No record remains |
| Scenarios.CallPathSubmits | main.py:95-355 | A new user who answers in order, asks for a call, gives a phone number, picks a date and sends gets exactly one row, holding the answers, '-' for the username, the number, the date and the time. No record remains |
| Scenarios.NicknamePathSubmits | main.py:95-355 | A new user who answers in order, asks for Telegram, chooses 'Указать другой', types a nickname, picks a date and sends gets exactly one row, holding the answers, the nickname, '-' for the phone, the date and the time. No record remains |
| Scenarios.SendRetry | main.py:230-234 | 'Отправить!' while the spreadsheet refuses the append faults and keeps the record with its defaults. Pressed again once the spreadsheet is back, it appends the row, stamped with the later time, and removes the record |
| Scenarios.AnnaSubmits | main.py:95-355 | A concrete conversation produces the concrete row it should |
| Scenarios.EditOneField | main.py:223-318 | On a reviewed record, 'Изменить данные', a field from the menu and a fitting answer overwrite that field only. State stays at the field's name, no row is appended, and the summary is shown again |
| Scenarios.EditNicknameStoresLabel | main.py:262-267 | In edit mode, 'Указать другой' stores the label 'Указать другой' itself as the username instead of asking for a nickname |

## Left out

- Sending and editing Telegram messages, stickers, the greeting photo and the keyboards themselves are not modelled. A reply says which prompt, summary or menu is shown, not its text or markup.
- The spreadsheet client and its OAuth setup are not modelled. The append is the `appended` row of a `Step`, and the flag `sheetUp` says whether it succeeds.
- The date picker library's internals are not modelled. Its verdict on a click is a `CalendarPick`: the picked date, if any, and whether a new keyboard was produced.
- `datetime.now()` becomes the `now` string of the context. The timestamp's format is not modelled.
- Environment and config loading, logging and the polling loop are left out.
- Concurrent updates from different users are left out. Events are applied one at a time.
- Routing.Dispatch: the dispatcher's first-match routing in registration order is an assumption, not a property of the library.
- Routing.Dispatch: "/start" is taken to arrive as `StartCommand`, and no other text is a command.
- Routing.Dispatch: messages that carry neither text nor a contact are not modelled.
- PhoneFilter.PhoneMatchIsSearch: only ASCII digits count as digits, while Python's `\d` also matches other Unicode digits.
- Results.SummaryRoundTrip: holds only when the heading and every field are free of newlines. A value with a newline in it makes the summary ambiguous.
- Results.SummaryAgreesWithRow: reading the summary back needs a newline-free heading and field values, because a name or nickname that spans lines makes the text ambiguous. `Results.SummaryShowsRow` states the line-by-line agreement for every record.
- Private chats only: the chat is taken to be the user's private chat. The code reads the handle from the chat and, when asking for the phone, looks up the record by chat id, which equals the user id only in a private chat.
