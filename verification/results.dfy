/** The two formatters of a finished record: the review summary shown to the
    user and the operator (`get_results`), and the spreadsheet row
    (`save_results`). Both first default a missing or empty `username` and
    `phone` to "-" and write that default back into the record. */
module Results {
  import opened Wrappers
  import opened Records
  import TextLines

  /** Python truthiness of a stored value: None and "" are false. */
  predicate Truthy(v: Value) {
    v.Str? && v.s != ""
  }

  /** `record.get(key, '-') or '-'` */
  function OrDash(v: Option<Value>): string {
    if v.Some? && Truthy(v.value) then v.value.s else "-"
  }

  /** Both contact keys are present and truthy. */
  predicate Reviewed(r: Record) {
    "username" in r && Truthy(r["username"]) && "phone" in r && Truthy(r["phone"])
  }

  /** The defaulting both formatters apply to the stored record. */
  function Defaults(r: Record): (d: Record)
    ensures Reviewed(d)
    ensures Get(r, "username").Some? && Truthy(r["username"]) ==> d["username"] == r["username"]
    ensures !(Get(r, "username").Some? && Truthy(r["username"])) ==> d["username"] == Str("-")
    ensures Get(r, "phone").Some? && Truthy(r["phone"]) ==> d["phone"] == r["phone"]
    ensures !(Get(r, "phone").Some? && Truthy(r["phone"])) ==> d["phone"] == Str("-")
    ensures SameExcept(r, d, {"username", "phone"})
  {
    r["username" := Str(OrDash(Get(r, "username")))]["phone" := Str(OrDash(Get(r, "phone")))]
  }

  /** Defaulting changes a record exactly when one of its contacts is missing,
      None or empty; in particular applying it twice equals applying it once. */
  lemma DefaultsFixedPoint(r: Record)
    ensures Defaults(r) == r <==> Reviewed(r)
    ensures Defaults(Defaults(r)) == Defaults(r)
  {
    if Reviewed(r) {
      assert Defaults(r).Keys == r.Keys;
    }
    assert Defaults(Defaults(r)).Keys == Defaults(r).Keys;
  }

  /** The four answers given before the contact questions. */
  predicate Answered(r: Record) {
    "name" in r && "level" in r && "format" in r && "purpose" in r
  }

  /** The keys a summary or row reads besides the two defaulted contacts. */
  predicate Complete(r: Record) {
    Answered(r) && "meet_date" in r
  }

  /** How an f-string renders a stored value. */
  function Render(v: Value): string {
    match v
    case Str(s) => s
    case Null => "None"
  }

  function RenderAll(vs: seq<Value>): (ts: seq<string>)
    ensures |ts| == |vs|
    ensures forall i :: 0 <= i < |vs| ==> ts[i] == Render(vs[i])
  {
    if |vs| == 0 then [] else [Render(vs[0])] + RenderAll(vs[1..])
  }

  /** The record keys of the summary and of the row, in their order. */
  const SummaryKeys: seq<string> := ["name", "level", "format", "purpose", "username", "phone", "meet_date"]

  /** The line prefixes of the summary, one per entry of SummaryKeys. */
  const FieldLabels: seq<string> :=
    ["Имя: ", "Уровень языка: ", "Формат занятий: ", "Цель: ", "Ник в тг: ", "Телефон: ",
     "Предварительная дата консультации: "]

  /** The lines of the summary text: heading, seven fields, and the two empty
      pieces the closing blank line leaves. */
  function SummaryLines(r: Record, heading: string): seq<string>
    requires Complete(r) && Reviewed(r)
  {
    [heading + ":",
     FieldLabels[0] + Render(r["name"]),
     FieldLabels[1] + Render(r["level"]),
     FieldLabels[2] + Render(r["format"]),
     FieldLabels[3] + Render(r["purpose"]),
     FieldLabels[4] + Render(r["username"]),
     FieldLabels[5] + Render(r["phone"]),
     FieldLabels[6] + Render(r["meet_date"]),
     "", ""]
  }

  /** The summary text `get_results` builds. */
  function SummaryText(r: Record, heading: string): string
    requires Complete(r) && Reviewed(r)
  {
    TextLines.Join(SummaryLines(r, heading))
  }

  /** What `get_results` leaves behind: the defaulted record, and the summary
      unless reading a field raised KeyError. */
  datatype Formatted = Formatted(record: Record, summary: Option<string>)

  /** `get_results(user_id, heading)` */
  function GetResults(r: Record, heading: string): (f: Formatted)
    ensures f.record == Defaults(r)
    ensures f.summary.Some? <==> Complete(r)
  {
    var d := Defaults(r);
    if Complete(d) then Formatted(d, Some(SummaryText(d, heading))) else Formatted(d, None)
  }

  /** A summary read back: its heading and the seven rendered field values. */
  datatype Summary = Summary(heading: string, fields: seq<string>)

  /** Removes each label from the front of its line. */
  function StripLabels(labels: seq<string>, lines: seq<string>): Option<seq<string>>
    requires |labels| == |lines|
  {
    if |labels| == 0 then Some([])
    else if labels[0] <= lines[0] then
      match StripLabels(labels[1..], lines[1..])
      case Some(rest) => Some([lines[0][|labels[0]|..]] + rest)
      case None => None
    else None
  }

  /** Reads a summary text back into its heading and field values. */
  function ParseSummary(text: string): Option<Summary> {
    var ls := TextLines.Split(text);
    if |ls| == 10 && ls[8] == "" && ls[9] == "" && |ls[0]| > 0 && ls[0][|ls[0]| - 1] == ':' then
      match StripLabels(FieldLabels, ls[1..8])
      case Some(fields) => Some(Summary(ls[0][..|ls[0]| - 1], fields))
      case None => None
    else None
  }

  /** The summary's field values, none of which spans a line. */
  predicate SingleLine(r: Record)
    requires Complete(r) && Reviewed(r)
  {
    && TextLines.NoNewline(Render(r["name"])) && TextLines.NoNewline(Render(r["level"]))
    && TextLines.NoNewline(Render(r["format"])) && TextLines.NoNewline(Render(r["purpose"]))
    && TextLines.NoNewline(Render(r["username"])) && TextLines.NoNewline(Render(r["phone"]))
    && TextLines.NoNewline(Render(r["meet_date"]))
  }

  /** The seven rendered field values of a record, in summary order. */
  function FieldValues(r: Record): seq<string>
    requires Complete(r) && Reviewed(r)
  {
    [Render(r["name"]), Render(r["level"]), Render(r["format"]), Render(r["purpose"]),
     Render(r["username"]), Render(r["phone"]), Render(r["meet_date"])]
  }

  /** The summary lists heading, name, level, format, purpose, username, phone
      and date in that order: reading it back recovers each of them, provided
      no value spans a line. */
  lemma SummaryRoundTrip(r: Record, heading: string)
    requires Complete(r) && Reviewed(r) && SingleLine(r)
    requires TextLines.NoNewline(heading)
    ensures ParseSummary(SummaryText(r, heading)) == Some(Summary(heading, FieldValues(r)))
  {
    var ls := SummaryLines(r, heading);
    SummaryLinesSplit(r, heading);
    var h := heading + ":";
    assert h[..|h| - 1] == heading;
    FieldLinesStrip(r, heading);
  }

  /** Each summary line is newline-free, so the text splits back into them. */
  lemma SummaryLinesSplit(r: Record, heading: string)
    requires Complete(r) && Reviewed(r) && SingleLine(r)
    requires TextLines.NoNewline(heading)
    ensures TextLines.Split(SummaryText(r, heading)) == SummaryLines(r, heading)
  {
    var ls := SummaryLines(r, heading);
    var vs := FieldValues(r);
    LabelsSingleLine();
    LabelledLine(heading, ":");
    LabelledLine(FieldLabels[0], vs[0]);
    LabelledLine(FieldLabels[1], vs[1]);
    LabelledLine(FieldLabels[2], vs[2]);
    LabelledLine(FieldLabels[3], vs[3]);
    LabelledLine(FieldLabels[4], vs[4]);
    LabelledLine(FieldLabels[5], vs[5]);
    LabelledLine(FieldLabels[6], vs[6]);
    TextLines.SplitJoin(ls);
  }

  lemma LabelsSingleLine()
    ensures |FieldLabels| == 7
    ensures forall i :: 0 <= i < 7 ==> TextLines.NoNewline(FieldLabels[i])
  {
  }

  /** The seven field lines strip back to the field values. */
  lemma FieldLinesStrip(r: Record, heading: string)
    requires Complete(r) && Reviewed(r)
    ensures StripLabels(FieldLabels, SummaryLines(r, heading)[1..8]) == Some(FieldValues(r))
  {
    var ls := SummaryLines(r, heading);
    var vs := FieldValues(r);
    var lines := ls[1..8];
    assert forall i :: 0 <= i < 7 ==> lines[i] == FieldLabels[i] + vs[i];
    forall i | 0 <= i < 7
      ensures FieldLabels[i] <= lines[i] && lines[i][|FieldLabels[i]|..] == vs[i]
    {
      LabelledLine(FieldLabels[i], vs[i]);
    }
    StripAll(FieldLabels, lines);
    assert StripLabels(FieldLabels, lines).value == vs;
  }

  /** A labelled line starts with its label, strips back to its value, and has
      no newline when neither part does. */
  lemma LabelledLine(tag: string, v: string)
    requires TextLines.NoNewline(tag)
    ensures tag <= tag + v && (tag + v)[|tag|..] == v
    ensures TextLines.NoNewline(v) ==> TextLines.NoNewline(tag + v)
  {
    assert (tag + v)[..|tag|] == tag;
  }

  /** Stripping succeeds on lines that start with their labels. */
  lemma {:induction false} StripAll(labels: seq<string>, lines: seq<string>)
    requires |labels| == |lines|
    requires forall i :: 0 <= i < |lines| ==> labels[i] <= lines[i]
    ensures StripLabels(labels, lines).Some?
    ensures |StripLabels(labels, lines).value| == |lines|
    ensures forall i :: 0 <= i < |lines| ==> StripLabels(labels, lines).value[i] == lines[i][|labels[i]|..]
    decreases |labels|
  {
    if |labels| > 0 {
      StripAll(labels[1..], lines[1..]);
    }
  }

  /** A spreadsheet row: seven record values and the timestamp. */
  type Row = seq<Value>

  datatype Saved = Saved(record: Record, row: Row)

  /** `save_results(user_id)` up to the append, with the clock reading `now`. */
  function SaveResults(r: Record, now: string): (s: Saved)
    requires Complete(r)
    ensures s.record == Defaults(r)
    ensures |s.row| == 8 && s.row[7] == Str(now)
    ensures forall i :: 0 <= i < 7 ==> s.row[i] == s.record[SummaryKeys[i]]
    ensures s.row[4] == Str(OrDash(Get(r, "username"))) && s.row[5] == Str(OrDash(Get(r, "phone")))
  {
    var u := Defaults(r);
    Saved(u, [u["name"], u["level"], u["format"], u["purpose"], u["username"], u["phone"], u["meet_date"], Str(now)])
  }

  /** Each field line of the summary shows the matching cell of the saved row,
      whatever the values hold. */
  lemma SummaryShowsRow(r: Record, heading: string, now: string)
    requires Complete(r)
    ensures GetResults(r, heading).summary.Some?
    ensures GetResults(r, heading).summary.value == TextLines.Join(SummaryLines(Defaults(r), heading))
    ensures forall i :: 0 <= i < 7 ==>
      SummaryLines(Defaults(r), heading)[i + 1] == FieldLabels[i] + Render(SaveResults(r, now).row[i])
  {
  }

  /** The operator and the spreadsheet see the same record: the values read
      back from the summary are the rendered first seven cells of the row. */
  lemma SummaryAgreesWithRow(r: Record, heading: string, now: string)
    requires Complete(r) && SingleLine(Defaults(r)) && TextLines.NoNewline(heading)
    ensures GetResults(r, heading).summary.Some?
    ensures ParseSummary(GetResults(r, heading).summary.value)
         == Some(Summary(heading, RenderAll(SaveResults(r, now).row[..7])))
  {
    SummaryRoundTrip(Defaults(r), heading);
    RowValues(r, now);
  }

  /** The rendered first seven cells of the row are the summary's field values. */
  lemma RowValues(r: Record, now: string)
    requires Complete(r)
    ensures RenderAll(SaveResults(r, now).row[..7]) == FieldValues(Defaults(r))
  {
    var vs := RenderAll(SaveResults(r, now).row[..7]);
    assert |vs| == 7;
  }
}
