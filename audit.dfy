/**
  The optional conversation log: the store behind the module-level `logs`
  handle and `log(input, output)` (app.js:303-309, 322-341), and the CSV
  export of `GET /chats`: the row comparator and the row builder
  (app.js:349-395).
*/
module Audit {
  import opened Optional
  import opened Messages
  import Template

  /** `input` of the request sent to the dialog engine; `text` may be undefined. */
  datatype Input = Input(text: Option<string>)

  /** The payload `{workspace_id, context, input}` sent to the dialog engine (app.js:80-93). */
  datatype Payload = Payload(workspaceId: string, context: Context, input: Input)

  /**
    A logged document `{_id, request, response, time}`; `id` is the fresh uuid
    and `time` the clock reading in milliseconds, both supplied by the caller.
  */
  datatype Record = Record(id: string, request: Payload, response: Message, time: int)

  /** The log database together with the `logs` handle that points to it. */
  class AuditLog {
    /** Whether `logs` has been set (it stays null until the database callback runs). */
    var ready: bool
    /** The documents inserted so far, in insertion order. */
    var records: seq<Record>

    constructor ()
      ensures !ready && records == []
    {
      ready := false;
      records := [];
    }

    /** `logs = nano.db.use('car_logs')` once the database is found or created. */
    method Open()
      modifies this
      ensures ready && records == old(records)
    {
      ready := true;
    }

    /** `log(input, output)`: insert one document when the handle is set, else nothing. */
    method Log(id: string, request: Payload, response: Message, time: int)
      modifies this
      ensures ready == old(ready)
      ensures records == if old(ready) then old(records) + [Record(id, request, response, time)] else old(records)
    {
      if ready {
        records := records + [Record(id, request, response, time)];
      }
    }

    /** `POST /clearDb`: the database is destroyed and created again, and the handle reset. */
    method Clear()
      modifies this
      ensures ready && records == []
    {
      records := [];
      ready := true;
    }
  }

  // ---------------------------------------------------------------------
  // CSV export
  // ---------------------------------------------------------------------

  /** A document as `logs.list` returns it; stored data may lack `request` or `response`. */
  datatype Doc = Doc(request: Option<Payload>, response: Option<Message>, time: int)

  /** A listed row; `doc` is None when the row carries no document. */
  datatype Row = Row(doc: Option<Doc>)

  /** The listing row of a record this application logged. */
  function RowOf(r: Record): Row {
    Row(Some(Doc(Some(r.request), Some(r.response), r.time)))
  }

  const COLUMNS: seq<string> := ["Question", "Intent", "Confidence", "Entity", "Output", "Time"]

  /**
    A line of the CSV table. `question` is None where the source copies an
    undefined `input.text`; `time` is the instant rendered by
    `toLocaleString`, None for the empty cell.
  */
  datatype CsvLine =
    | Header(columns: seq<string>)
    | Line(question: Option<string>, intent: string, confidence: real, entity: string, output: string, time: Option<int>)

  /** The sort comparator of app.js:351-364: ascending by time, 0 unless both rows have documents. */
  function CompareRows(a: Row, b: Row): (c: int)
    ensures c == -1 || c == 0 || c == 1
    ensures a.doc.Some? && b.doc.Some? ==> (c == 1 <==> a.doc.value.time > b.doc.value.time)
    ensures a.doc.Some? && b.doc.Some? ==> (c == 0 <==> a.doc.value.time == b.doc.value.time)
    ensures a.doc.None? || b.doc.None? ==> c == 0
  {
    if a.doc.Some? && b.doc.Some? then
      var t1, t2 := a.doc.value.time, b.doc.value.time;
      if t1 > t2 then 1 else if t1 == t2 then 0 else -1
    else 0
  }

  /** The comparator is antisymmetric. */
  lemma CompareAntisymmetric(a: Row, b: Row)
    ensures CompareRows(a, b) == -CompareRows(b, a)
  {
  }

  /** Among rows with documents it is transitive, an order by timestamp. */
  lemma CompareTransitive(a: Row, b: Row, c: Row)
    requires a.doc.Some? && b.doc.Some? && c.doc.Some?
    requires CompareRows(a, b) <= 0 && CompareRows(b, c) <= 0
    ensures CompareRows(a, c) <= 0
  {
  }

  /**
    A row without a document ties with every row, so once such a row is
    listed the comparator is no consistent order and the sorted order is up
    to the engine.
  */
  lemma MissingDocBreaksOrder(t1: int, t2: int)
    requires t1 < t2
    ensures var blank := Row(None);
            var early := Row(Some(Doc(None, None, t1)));
            var late := Row(Some(Doc(None, None, t2)));
            CompareRows(early, blank) == 0 && CompareRows(blank, late) == 0 && CompareRows(early, late) == -1
  {
  }

  /** The `forEach` body of app.js:365-394 for one row. */
  function RowLine(row: Row): (line: CsvLine)
    ensures line.Line?
    ensures row.doc.None? ==> line == Line(Some(""), "", 0.0, "", "", None)
    ensures row.doc.Some? ==> line.time == Some(row.doc.value.time)
    ensures row.doc.Some? && row.doc.value.request.Some? ==> line.question == row.doc.value.request.value.input.text
    ensures row.doc.Some? && row.doc.value.request.None? ==> line.question == Some("")
    ensures row.doc.Some? && row.doc.value.response.None? ==>
      line.intent == "" && line.confidence == 0.0 && line.entity == "" && line.output == ""
    ensures row.doc.Some? && row.doc.value.response.Some? ==>
      var m := row.doc.value.response.value;
      && (TopIntent(m.intents).None? ==> line.intent == "<no intent>" && line.confidence == 0.0)
      && (TopIntent(m.intents).Some? ==>
            line.intent == m.intents.value[0].intent && line.confidence == m.intents.value[0].confidence)
      && (m.entities.None? || m.entities.value == [] ==> line.entity == "<no entity>")
      && (m.entities.Some? && |m.entities.value| > 0 ==>
            line.entity == m.entities.value[0].entity + " : " + m.entities.value[0].value)
      && (m.output.None? || m.output.value.text.None? ==> line.output == "<no dialog>")
      && (m.output.Some? && m.output.value.text.Some? ==> line.output == Template.Join(m.output.value.text.value))
  {
    match row.doc
    case None => Line(Some(""), "", 0.0, "", "", None)
    case Some(doc) =>
      var question := if doc.request.Some? then doc.request.value.input.text else Some("");
      match doc.response
      case None => Line(question, "", 0.0, "", "", Some(doc.time))
      case Some(m) =>
        var top := if m.intents.Some? && |m.intents.value| > 0 then Some(m.intents.value[0]) else None;
        var intent := if top.Some? then top.value.intent else "<no intent>";
        var confidence := if top.Some? then top.value.confidence else 0.0;
        var entity :=
          if m.entities.Some? && |m.entities.value| > 0 then m.entities.value[0].entity + " : " + m.entities.value[0].value
          else "<no entity>";
        var output :=
          if m.output.Some? && m.output.value.text.Some? then Template.Join(m.output.value.text.value)
          else "<no dialog>";
        Line(question, intent, confidence, entity, output, Some(doc.time))
  }

  /** A logged record shows its question, its first entity as "entity : value", and its joined output text. */
  lemma RecordLine(r: Record)
    ensures var line := RowLine(RowOf(r));
            && line.question == r.request.input.text
            && line.time == Some(r.time)
            && (r.response.entities.Some? && |r.response.entities.value| > 0 ==>
                  line.entity == r.response.entities.value[0].entity + " : " + r.response.entities.value[0].value)
            && (r.response.output.Some? && r.response.output.value.text.Some? ==>
                  line.output == Template.Join(r.response.output.value.text.value))
  {
  }

  /** For a response whose text `replaceParams` produced, the Output cell is the substituted line itself. */
  lemma SubstitutedOutputCell(r: Record, lines: seq<string>, args: seq<string>)
    requires r.response.output == Some(Output(Template.ReplaceParams(Some(lines), Some(args))))
    ensures RowLine(RowOf(r)).output == Template.Expand(Template.Join(lines), args)
  {
  }

  /**
    The table sent by `GET /chats`: the header, then one line per listed row
    in the order given (the order the sort left them in).
  */
  method Export(rows: seq<Row>) returns (csv: seq<CsvLine>)
    ensures |csv| == |rows| + 1
    ensures csv[0] == Header(COLUMNS)
    ensures forall i :: 0 <= i < |rows| ==> csv[i + 1] == RowLine(rows[i])
  {
    csv := [Header(COLUMNS)];
    var i := 0;
    while i < |rows|
      invariant i <= |rows|
      invariant |csv| == i + 1
      invariant csv[0] == Header(COLUMNS)
      invariant forall k :: 0 <= k < i ==> csv[k + 1] == RowLine(rows[k])
    {
      csv := csv + [RowLine(rows[i])];
      i := i + 1;
    }
  }
}
