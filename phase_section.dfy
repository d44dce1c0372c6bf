/**
 * The checklist section of one workflow phase: how each task row reads the
 * checklist state, the clipboard text of an email template, and the
 * selected-template state behind the "Email Template" dialog.
 */
module PhaseSection {
  import opened Wrappers
  import opened JsStrings

  /** A task as the section receives it, with its email text already rendered. */
  datatype Task = Task(
    id: string,
    labelText: string,
    hasEmail: bool,
    emailSubject: Option<string>,
    emailBody: Option<string>)

  /** `checklistState[id] || false` */
  function IsChecked(checklistState: map<string, bool>, id: string): (r: bool)
    ensures r ==> id in checklistState
    ensures id in checklistState ==> r == checklistState[id]
  {
    id in checklistState && checklistState[id]
  }

  /** One rendered row: the checkbox state, the key passed to `onToggle`,
      whether the label is struck through and whether View/Copy are offered. */
  datatype Row = Row(
    id: string,
    labelText: string,
    checked: bool,
    toggleKey: string,
    struckThrough: bool,
    emailActions: bool)

  function RenderRow(task: Task, checklistState: map<string, bool>): Row {
    Row(task.id, task.labelText,
        IsChecked(checklistState, task.id),
        task.id,
        IsChecked(checklistState, task.id),
        task.hasEmail)
  }

  /** `tasks.map(...)`: one row per task, in order; a label is struck through exactly
      when its box is checked, and the toggle reports exactly that task's id. */
  function RenderRows(tasks: seq<Task>, checklistState: map<string, bool>): (r: seq<Row>)
    ensures |r| == |tasks|
    ensures forall i :: 0 <= i < |tasks| ==>
              && r[i].id == tasks[i].id
              && r[i].toggleKey == tasks[i].id
              && r[i].labelText == tasks[i].labelText
              && r[i].checked == IsChecked(checklistState, tasks[i].id)
              && r[i].struckThrough == r[i].checked
              && r[i].emailActions == tasks[i].hasEmail
  {
    if tasks == [] then [] else [RenderRow(tasks[0], checklistState)] + RenderRows(tasks[1..], checklistState)
  }

  /** The clipboard text: `Subject: ${subject}\n\n${body}`. */
  function ClipboardText(subject: string, body: string): (r: string)
    ensures |r| == 9 + |subject| + 2 + |body|
    ensures r[..9] == "Subject: "
    ensures r[9..9 + |subject|] == subject
    ensures r[9 + |subject|..11 + |subject|] == "\n\n"
    ensures r[11 + |subject|..] == body
  {
    "Subject: " + subject + "\n\n" + body
  }

  datatype EmailTemplate = EmailTemplate(subject: string, body: string)

  /** `{ subject: task.emailSubject || '', body: task.emailBody || '' }` */
  function TemplateOf(task: Task): (r: EmailTemplate)
    ensures Truthy(task.emailSubject) ==> r.subject == task.emailSubject.value
    ensures !Truthy(task.emailSubject) ==> r.subject == ""
    ensures Truthy(task.emailBody) ==> r.body == task.emailBody.value
    ensures !Truthy(task.emailBody) ==> r.body == ""
  {
    EmailTemplate(Or(task.emailSubject, ""), Or(task.emailBody, ""))
  }

  /** The text the row's Copy button puts on the clipboard; the button exists only for email tasks.
      A present subject follows "Subject: " verbatim and a present body ends the text; a missing
      or empty subject leaves "Subject: " directly followed by the blank line, and a missing or
      empty body leaves the text ending in that blank line. */
  function RowCopyText(task: Task): (r: string)
    requires task.hasEmail
    ensures |r| == 11 + |TemplateOf(task).subject| + |TemplateOf(task).body|
    ensures StartsWith(r, "Subject: ")
    ensures Truthy(task.emailSubject) ==>
              r[9..9 + |task.emailSubject.value|] == task.emailSubject.value
    ensures r[9 + |TemplateOf(task).subject|..11 + |TemplateOf(task).subject|] == "\n\n"
    ensures !Truthy(task.emailSubject) ==> r[..11] == "Subject: \n\n"
    ensures Truthy(task.emailBody) ==>
              |r| >= |task.emailBody.value| && r[|r| - |task.emailBody.value|..] == task.emailBody.value
    ensures !Truthy(task.emailBody) ==> r[|r| - 2..] == "\n\n"
  {
    var template := TemplateOf(task);
    ClipboardText(template.subject, template.body)
  }

  /** The `selectedTemplate` state; the dialog is open exactly while a template is selected. */
  class TemplateDialog {
    var selected: Option<EmailTemplate>

    constructor ()
      ensures selected == None
    {
      selected := None;
    }

    predicate IsOpen()
      reads this
    {
      selected.Some?
    }

    /** The row's View button, offered only for email tasks. */
    method View(task: Task)
      requires task.hasEmail
      modifies this
      ensures selected == Some(TemplateOf(task))
      ensures IsOpen()
    {
      selected := Some(TemplateOf(task));
    }

    /** Any open-state change of the dialog clears the selection. */
    method Close()
      modifies this
      ensures selected == None
      ensures !IsOpen()
    {
      selected := None;
    }

    /** "Copy & Close", shown only while a template is selected: copy it, then clear it. */
    method CopyAndClose() returns (text: string)
      requires selected.Some?
      modifies this
      ensures text == ClipboardText(old(selected).value.subject, old(selected).value.body)
      ensures selected == None
    {
      text := ClipboardText(selected.value.subject, selected.value.body);
      selected := None;
    }
  }

  /** Viewing a task's template and pressing "Copy & Close" copies the same text as the
      row's Copy button, and leaves the dialog closed. */
  method ViewThenCopyAndClose(task: Task) returns (text: string, open: bool)
    requires task.hasEmail
    ensures text == RowCopyText(task)
    ensures !open
  {
    var dialog := new TemplateDialog();
    dialog.View(task);
    text := dialog.CopyAndClose();
    open := dialog.IsOpen();
  }
}
