/**
 * Display rules of the shipment activity timeline: the icon chosen for an
 * audit entry's field name, the 60-character value preview, and the
 * rendering of a list of audit entries in the order given.
 */
module ActivityTimeline {
  import opened Wrappers
  import opened JsStrings

  /** The audit-log fields the timeline shows; the timestamp's formatting is not modelled. */
  datatype AuditLog = AuditLog(
    id: string,
    summary: string,
    fieldName: Option<string>,
    oldValue: Option<string>,
    newValue: Option<string>)

  datatype Icon = History | FileText | CheckSquare | Edit2

  function GetIcon(fieldName: Option<string>): Icon {
    if !Truthy(fieldName) then History
    else if Includes(fieldName.value, "document") then FileText
    else if Includes(fieldName.value, "checklist") || Includes(fieldName.value, "task") then CheckSquare
    else Edit2
  }

  /** The icon classification, each icon characterised in both directions;
      "document" takes priority over "checklist" and "task". */
  lemma IconClassification(fieldName: Option<string>)
    ensures GetIcon(fieldName) == History <==> fieldName == None || fieldName == Some("")
    ensures GetIcon(fieldName) == FileText <==>
              fieldName.Some? && Includes(fieldName.value, "document")
    ensures GetIcon(fieldName) == CheckSquare <==>
              fieldName.Some? && !Includes(fieldName.value, "document") &&
              (Includes(fieldName.value, "checklist") || Includes(fieldName.value, "task"))
    ensures GetIcon(fieldName) == Edit2 <==>
              Truthy(fieldName) && !Includes(fieldName.value, "document") &&
              !Includes(fieldName.value, "checklist") && !Includes(fieldName.value, "task")
  {
  }

  const PREVIEW_LENGTH := 60

  /** `v.substring(0, 60)` followed by "..." when `v` is longer than 60 characters. */
  function Preview(v: string): (r: string)
    ensures |r| <= PREVIEW_LENGTH + 3
    ensures |v| <= PREVIEW_LENGTH ==> r == v
    ensures |v| > PREVIEW_LENGTH ==>
              |r| == PREVIEW_LENGTH + 3 && r[..PREVIEW_LENGTH] == v[..PREVIEW_LENGTH] && r[PREVIEW_LENGTH..] == "..."
  {
    var shown := if |v| <= PREVIEW_LENGTH then v else v[..PREVIEW_LENGTH];
    shown + (if |v| > PREVIEW_LENGTH then "..." else "")
  }

  datatype Diff = Diff(oldText: string, newText: string)

  /** One rendered entry: the summary, the "Field:" line if any, the diff block if any. */
  datatype EntryView = EntryView(summary: string, field: Option<string>, diff: Option<Diff>)

  datatype Timeline = NoActivity | Entries(entries: seq<EntryView>)

  function RenderEntry(log: AuditLog): (r: EntryView)
    ensures r.summary == log.summary
    ensures r.field.Some? <==> Truthy(log.fieldName)
    ensures r.field.Some? ==> r.field.value == log.fieldName.value
    ensures r.diff.Some? <==> Truthy(log.oldValue) && Truthy(log.newValue)
    ensures r.diff.Some? ==>
              r.diff.value == Diff(Preview(log.oldValue.value), Preview(log.newValue.value))
  {
    EntryView(
      log.summary,
      if Truthy(log.fieldName) then Some(log.fieldName.value) else None,
      if Truthy(log.oldValue) && Truthy(log.newValue)
      then Some(Diff(Preview(log.oldValue.value), Preview(log.newValue.value)))
      else None)
  }

  /** `logs.map(...)`: one entry per log, in the order given. */
  function RenderEntries(logs: seq<AuditLog>): (r: seq<EntryView>)
    ensures |r| == |logs|
    ensures forall i :: 0 <= i < |logs| ==> r[i] == RenderEntry(logs[i])
  {
    if logs == [] then [] else [RenderEntry(logs[0])] + RenderEntries(logs[1..])
  }

  function Render(logs: seq<AuditLog>): (r: Timeline)
    ensures r == NoActivity <==> logs == []
    ensures r.Entries? ==> |r.entries| == |logs|
    ensures r.Entries? ==> forall i :: 0 <= i < |logs| ==> r.entries[i] == RenderEntry(logs[i])
  {
    if |logs| == 0 then NoActivity else Entries(RenderEntries(logs))
  }

  /** The timeline does no reordering: rendering a concatenation concatenates the renderings. */
  lemma {:induction false} RenderEntriesConcat(a: seq<AuditLog>, b: seq<AuditLog>)
    ensures RenderEntries(a + b) == RenderEntries(a) + RenderEntries(b)
  {
    var l, r := RenderEntries(a + b), RenderEntries(a) + RenderEntries(b);
    assert |l| == |r|;
    forall i | 0 <= i < |l| ensures l[i] == r[i] {
      if i < |a| {
        assert (a + b)[i] == a[i];
      } else {
        assert (a + b)[i] == b[i - |a|];
      }
    }
  }
}
