/** The survey's fixed vocabulary: the button labels offered for each
    question, the review and edit menus, and the mapping from an edit-menu
    label to the record key it re-opens. Button labels double as callback
    payloads, so the routing of a callback is decided by which list holds it. */
module Catalog {

  const Levels: seq<string> :=
    ["Нулевой, не учил(а) китайский", "Знаю базу фонетики и иероглифики", "HSK 1", "HSK 2", "HSK 3+"]
  const Formats: seq<string> :=
    ["Индивидуальный", "Групповой (со знакомыми)", "Групповой (с другими учениками)"]
  const Purposes: seq<string> :=
    ["Для работы/ бизнеса", "Хочу учиться в Китае", "Для поездки в Китай", "Для жизни в Китае",
     "Сдать HSK", "Учу для себя (хобби)"]

  const UseCurrent: string := "Использовать текущий"
  const SpecifyOther: string := "Указать другой"
  const UsernameChoices: seq<string> := [UseCurrent, SpecifyOther]

  const Send: string := "Отправить!"
  const EditData: string := "Изменить данные"
  const CheckChoices: seq<string> := [Send, EditData]

  const WriteTelegram: string := "Написать в телеграм"
  const Call: string := "Позвонить"
  const ContactTypes: seq<string> := [WriteTelegram, Call]

  const ChangeInfo: seq<string> := ["Никнейм", "Телефон", "Уровень", "Формат"]

  /** Edit-menu label to the record key (and state name) it re-opens. */
  const ChangeDict: map<string, string> :=
    map["Никнейм" := "username", "Телефон" := "phone", "Уровень" := "level", "Формат" := "format"]

  /** The label the inline handler's edit-mode guard excludes. No keyboard offers it. */
  const WriteOwn: string := "Написать свой"

  /** Texts that start (or resume) the survey. */
  const EntryPhrases: seq<string> := ["Поехали!", "Записаться на консультацию"]

  /** Every label the inline-response handler accepts, in its filter's order. */
  const InlineLabels: seq<string> := Levels + Formats + Purposes + UsernameChoices + ContactTypes

  /** The seven button lists, in declaration order. */
  const ButtonLists: seq<seq<string>> :=
    [Levels, Formats, Purposes, UsernameChoices, CheckChoices, ContactTypes, ChangeInfo]

  predicate Disjoint(a: seq<string>, b: seq<string>) {
    forall x :: x in a ==> x !in b
  }

  /** The callback filters, in registration order. */
  datatype Route = ToCheck | ToChangeInfo | ToInline | Unrouted

  /** First callback filter that accepts `data`. */
  function RouteButton(data: string): Route {
    if data in CheckChoices then ToCheck
    else if data in ChangeInfo then ToChangeInfo
    else if data in InlineLabels then ToInline
    else Unrouted
  }

  /** How many of the three label filters accept `data`. */
  function FilterHits(data: string): nat {
    (if data in CheckChoices then 1 else 0)
    + (if data in ChangeInfo then 1 else 0)
    + (if data in InlineLabels then 1 else 0)
  }

  /** No label appears in two button lists. */
  lemma ButtonListsDisjoint()
    ensures forall i, j :: 0 <= i < j < |ButtonLists| ==> Disjoint(ButtonLists[i], ButtonLists[j])
  {
  }

  /** Every catalog label is accepted by exactly one callback filter, so the
      registration order of the filters never decides where a button goes. */
  lemma EachButtonHasOneHandler()
    ensures forall x :: x in CheckChoices ==> FilterHits(x) == 1 && RouteButton(x) == ToCheck
    ensures forall x :: x in ChangeInfo ==> FilterHits(x) == 1 && RouteButton(x) == ToChangeInfo
    ensures forall x :: x in InlineLabels ==> FilterHits(x) == 1 && RouteButton(x) == ToInline
  {
    ButtonListsDisjoint();
  }

  /** An edit-menu label is routed to the edit-menu handler. */
  lemma ChangeInfoRoute(x: string)
    requires x in ChangeInfo
    ensures RouteButton(x) == ToChangeInfo
  {
    EachButtonHasOneHandler();
  }

  /** An answer label is routed to the inline handler. */
  lemma InlineRoute(x: string)
    requires x in InlineLabels
    ensures RouteButton(x) == ToInline
  {
    EachButtonHasOneHandler();
  }

  /** The edit-mode guard label is carried by no button. */
  lemma WriteOwnNeverOffered()
    ensures forall i :: 0 <= i < |ButtonLists| ==> WriteOwn !in ButtonLists[i]
    ensures WriteOwn !in InlineLabels
  {
  }

  /** CHANGE_DICT is defined on exactly the edit-menu labels and re-opens four
      distinct record keys. */
  lemma ChangeDictShape()
    ensures ChangeDict.Keys == set x | x in ChangeInfo
    ensures ChangeDict.Values == {"username", "phone", "level", "format"}
    ensures forall a, b :: a in ChangeDict && b in ChangeDict && a != b ==> ChangeDict[a] != ChangeDict[b]
  {
    assert ChangeDict["Никнейм"] == "username" && ChangeDict["Телефон"] == "phone";
    assert ChangeDict["Уровень"] == "level" && ChangeDict["Формат"] == "format";
  }
}
