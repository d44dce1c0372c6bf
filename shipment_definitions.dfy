/**
 * The shipment workflow's task catalogue: three static phase lists and the
 * two partner-dependent resolvers, each a three-way branch on the selected
 * partner with a manual fallback whose labels interpolate a free-text name.
 */
module ShipmentDefinitions {
  import opened Wrappers
  import opened JsStrings

  datatype Commercial = Commercial(invoice: Option<string>)

  datatype Details = Details(
    customer: Option<string>,
    container: Option<string>,
    clearingAgent: Option<string>,
    shippingLine: Option<string>)

  /** The fields of a shipment that the catalogue and the dashboard card read. */
  datatype Shipment = Shipment(
    id: string,
    forwarder: string,
    manualForwarderName: Option<string>,
    manualMethod: Option<string>,
    fumigation: string,
    manualFumigationName: Option<string>,
    manualFumigationMethod: Option<string>,
    details: Details,
    commercial: Commercial)

  /** An email subject or body rendered from the shipment. */
  type Template = Shipment -> string

  datatype TaskDefinition = TaskDefinition(
    id: string,
    labelText: string,
    hasEmail: bool,
    emailSubject: Option<Template>,
    emailBody: Option<Template>)

  function Plain(id: string, labelText: string): TaskDefinition {
    TaskDefinition(id, labelText, false, None, None)
  }

  function Mail(id: string, labelText: string, subject: Template, body: Template): TaskDefinition {
    TaskDefinition(id, labelText, true, Some(subject), Some(body))
  }

  const PHASE_1_TASKS: seq<TaskDefinition> := [
    Plain("p1_docs", "Receive Documents from Client"),
    Mail("p1_mail", "Send Mail to Forwarder",
         (d: Shipment) => "Shipment " + d.id + " - Docs",
         (d: Shipment) => "Please process the attached documents for shipment " + d.id + "."),
    Plain("p1_attachments", "Check Attachments"),
    Plain("p1_fumigation", "Book Fumigation (WhatsApp)")
  ]

  const PHASE_2_TASKS: seq<TaskDefinition> := [
    Mail("p2_mail", "Send Fumigation Docs",
         (d: Shipment) => "INV " + Or(d.commercial.invoice, d.id) + " Fumigation Request",
         (_: Shipment) => "Please find Commercial Invoice & Packing List attached."),
    Plain("p2_attachments", "Docs sent to Agent"),
    Plain("p3a_docs", "Reply to SGS Inspection Thread")
  ]

  const PHASE_3_TASKS: seq<TaskDefinition> := [
    Plain("p3b_draft", "Receive & Verify Draft"),
    Plain("p3b_pay", "Process SGS Payment"),
    Mail("p3b_confirm", "Request Final COC",
         (d: Shipment) => "COC Finalization - " + d.id,
         (_: Shipment) => "COC Draft Confirmed. Payment attached. Please issue Final.")
  ]

  /** The forwarder-handoff tasks for the shipment's selected forwarder. */
  function ForwarderTasks(data: Shipment): seq<TaskDefinition> {
    if data.forwarder == "xpo" then
      [ Plain("p4_xpo_booking", "XPO: Confirm Booking"),
        Plain("p4_xpo_loading", "XPO: Confirm Loading"),
        Mail("p4_xpo_docs", "XPO: Send Final Docs",
             (d: Shipment) => "Final Docs - " + d.id,
             (_: Shipment) => "Please find attached final documents.") ]
    else if data.forwarder == "hmi" then
      [ Plain("p4_hmi_whatsapp", "HMI: Send WhatsApp Confirmation"),
        Plain("p4_hmi_loading", "HMI: Confirm Loading") ]
    else
      var forwarderName := Or(data.manualForwarderName, "Forwarder");
      [ Plain("p4_manual_contact", forwarderName + ": Contact via " + Interpolate(data.manualMethod)),
        Plain("p4_manual_docs", forwarderName + ": Send Documents") ]
  }

  /** The fumigation tasks for the shipment's selected fumigation provider. */
  function FumigationTasks(data: Shipment): seq<TaskDefinition> {
    if data.fumigation == "sky-services" then
      [ Plain("p2_sky_booking", "Sky Services: Book Fumigation"),
        Mail("p2_sky_docs", "Sky Services: Send Required Docs",
             (d: Shipment) => "Fumigation Request - " + d.id,
             (_: Shipment) => "Please find attached the required documents for fumigation."),
        Plain("p2_sky_confirm", "Sky Services: Confirm Fumigation Date") ]
    else if data.fumigation == "sgs" then
      [ Plain("p2_sgs_booking", "SGS: Initiate Fumigation"),
        Mail("p2_sgs_docs", "SGS: Submit Documentation",
             (d: Shipment) => "SGS Fumigation - " + d.id,
             (_: Shipment) => "Please find attached the required documents for SGS fumigation."),
        Plain("p2_sgs_confirm", "SGS: Receive Fumigation Confirmation") ]
    else
      var providerName := Or(data.manualFumigationName, "Fumigation Provider");
      [ Plain("p2_manual_fum_contact", providerName + ": Contact via " + Interpolate(data.manualFumigationMethod)),
        Plain("p2_manual_fum_docs", providerName + ": Send Fumigation Documents"),
        Plain("p2_manual_fum_confirm", providerName + ": Confirm Fumigation Completion") ]
  }

  /** The ids of a task list, in order. */
  function Ids(tasks: seq<TaskDefinition>): seq<string> {
    seq(|tasks|, i requires 0 <= i < |tasks| => tasks[i].id)
  }

  predicate Distinct(ids: seq<string>) {
    forall i, j :: 0 <= i < j < |ids| ==> ids[i] != ids[j]
  }

  /** Every task that offers an email carries both a subject and a body. */
  predicate EmailsComplete(tasks: seq<TaskDefinition>) {
    forall i :: 0 <= i < |tasks| && tasks[i].hasEmail ==>
      tasks[i].emailSubject.Some? && tasks[i].emailBody.Some?
  }

  const XPO_IDS: seq<string> := ["p4_xpo_booking", "p4_xpo_loading", "p4_xpo_docs"]
  const HMI_IDS: seq<string> := ["p4_hmi_whatsapp", "p4_hmi_loading"]
  const MANUAL_FORWARDER_IDS: seq<string> := ["p4_manual_contact", "p4_manual_docs"]
  const SKY_IDS: seq<string> := ["p2_sky_booking", "p2_sky_docs", "p2_sky_confirm"]
  const SGS_IDS: seq<string> := ["p2_sgs_booking", "p2_sgs_docs", "p2_sgs_confirm"]
  const MANUAL_FUMIGATION_IDS: seq<string> :=
    ["p2_manual_fum_contact", "p2_manual_fum_docs", "p2_manual_fum_confirm"]

  /** The forwarder resolver is total and its id list is decided by the forwarder tag alone. */
  lemma ForwarderTaskIds(data: Shipment)
    ensures Ids(ForwarderTasks(data)) == XPO_IDS <==> data.forwarder == "xpo"
    ensures Ids(ForwarderTasks(data)) == HMI_IDS <==> data.forwarder == "hmi"
    ensures Ids(ForwarderTasks(data)) == MANUAL_FORWARDER_IDS <==>
              data.forwarder != "xpo" && data.forwarder != "hmi"
  {
    var ids := Ids(ForwarderTasks(data));
    if data.forwarder == "xpo" {
      assert ids[0] != HMI_IDS[0] && ids[0] != MANUAL_FORWARDER_IDS[0];
    } else if data.forwarder == "hmi" {
      assert ids[0] != XPO_IDS[0] && ids[0] != MANUAL_FORWARDER_IDS[0];
    } else {
      assert ids[0] != XPO_IDS[0] && ids[0] != HMI_IDS[0];
    }
  }

  /** In the XPO branch only the final-documents task offers an email. */
  lemma XpoEmailOnlyOnDocs(data: Shipment, i: int)
    requires data.forwarder == "xpo" && 0 <= i < |ForwarderTasks(data)|
    ensures ForwarderTasks(data)[i].hasEmail <==> ForwarderTasks(data)[i].id == "p4_xpo_docs"
  {
  }

  /** The manual-branch ids do not depend on the free-text name or method. */
  lemma ForwarderIdsIgnoreManualFields(a: Shipment, b: Shipment)
    requires a.forwarder == b.forwarder
    ensures Ids(ForwarderTasks(a)) == Ids(ForwarderTasks(b))
  {
  }

  /** The manual contact label: the name (or "Forwarder"), then the method as interpolated. */
  lemma ManualForwarderLabels(data: Shipment)
    requires data.forwarder != "xpo" && data.forwarder != "hmi"
    ensures Truthy(data.manualForwarderName) ==>
      ForwarderTasks(data)[0].labelText == data.manualForwarderName.value + ": Contact via " + Interpolate(data.manualMethod)
    ensures Truthy(data.manualForwarderName) ==>
      ForwarderTasks(data)[1].labelText == data.manualForwarderName.value + ": Send Documents"
    ensures !Truthy(data.manualForwarderName) ==>
      ForwarderTasks(data)[0].labelText == "Forwarder: Contact via " + Interpolate(data.manualMethod)
    ensures !Truthy(data.manualForwarderName) ==>
      ForwarderTasks(data)[1].labelText == "Forwarder: Send Documents"
  {
  }

  /** The fumigation resolver is total and its id list is decided by the provider tag alone. */
  lemma FumigationTaskIds(data: Shipment)
    ensures Ids(FumigationTasks(data)) == SKY_IDS <==> data.fumigation == "sky-services"
    ensures Ids(FumigationTasks(data)) == SGS_IDS <==> data.fumigation == "sgs"
    ensures Ids(FumigationTasks(data)) == MANUAL_FUMIGATION_IDS <==>
              data.fumigation != "sky-services" && data.fumigation != "sgs"
  {
    var ids := Ids(FumigationTasks(data));
    if data.fumigation == "sky-services" {
      assert ids[0] != SGS_IDS[0] && ids[0] != MANUAL_FUMIGATION_IDS[0];
    } else if data.fumigation == "sgs" {
      assert ids[0] != SKY_IDS[0] && ids[0] != MANUAL_FUMIGATION_IDS[0];
    } else {
      assert ids[0] != SKY_IDS[0] && ids[0] != SGS_IDS[0];
    }
  }

  /** Every manual fumigation label starts with the provider name, or "Fumigation Provider". */
  lemma ManualFumigationLabels(data: Shipment, i: int)
    requires data.fumigation != "sky-services" && data.fumigation != "sgs"
    requires 0 <= i < |FumigationTasks(data)|
    ensures StartsWith(FumigationTasks(data)[i].labelText, Or(data.manualFumigationName, "Fumigation Provider") + ": ")
    ensures i == 0 ==>
              FumigationTasks(data)[i].labelText ==
              Or(data.manualFumigationName, "Fumigation Provider") + ": Contact via " + Interpolate(data.manualFumigationMethod)
    ensures i == 1 ==>
              FumigationTasks(data)[i].labelText ==
              Or(data.manualFumigationName, "Fumigation Provider") + ": Send Fumigation Documents"
    ensures i == 2 ==>
              FumigationTasks(data)[i].labelText ==
              Or(data.manualFumigationName, "Fumigation Provider") + ": Confirm Fumigation Completion"
  {
    var name := Or(data.manualFumigationName, "Fumigation Provider") + ": ";
    var text := FumigationTasks(data)[i].labelText;
    assert text[..|name|] == name;
  }

  /** Every id the catalogue can produce, static phases first, then every partner branch. */
  const STATIC_IDS: seq<string> := Ids(PHASE_1_TASKS) + Ids(PHASE_2_TASKS) + Ids(PHASE_3_TASKS)
  const FORWARDER_IDS: seq<string> := XPO_IDS + HMI_IDS + MANUAL_FORWARDER_IDS
  const FUMIGATION_IDS: seq<string> := SKY_IDS + SGS_IDS + MANUAL_FUMIGATION_IDS
  const CATALOGUE_IDS: seq<string> := STATIC_IDS + FORWARDER_IDS + FUMIGATION_IDS

  predicate Disjoint(a: seq<string>, b: seq<string>) {
    forall i, j :: 0 <= i < |a| && 0 <= j < |b| ==> a[i] != b[j]
  }

  lemma DistinctConcat(a: seq<string>, b: seq<string>)
    requires Distinct(a) && Distinct(b) && Disjoint(a, b)
    ensures Distinct(a + b)
  {
    forall i, j | 0 <= i < j < |a + b| ensures (a + b)[i] != (a + b)[j] {
      if j < |a| {
        assert (a + b)[i] == a[i] && (a + b)[j] == a[j];
      } else if i < |a| {
        assert (a + b)[i] == a[i] && (a + b)[j] == b[j - |a|];
      } else {
        assert (a + b)[i] == b[i - |a|] && (a + b)[j] == b[j - |a|];
      }
    }
  }

  lemma StaticIdsDistinct()
    ensures |PHASE_1_TASKS| == 4 && |PHASE_2_TASKS| == 3 && |PHASE_3_TASKS| == 3
    ensures STATIC_IDS == ["p1_docs", "p1_mail", "p1_attachments", "p1_fumigation",
                           "p2_mail", "p2_attachments", "p3a_docs",
                           "p3b_draft", "p3b_pay", "p3b_confirm"]
    ensures Distinct(STATIC_IDS)
  {
  }

  lemma ForwarderIdsDistinct()
    ensures FORWARDER_IDS == ["p4_xpo_booking", "p4_xpo_loading", "p4_xpo_docs",
                              "p4_hmi_whatsapp", "p4_hmi_loading",
                              "p4_manual_contact", "p4_manual_docs"]
    ensures Distinct(FORWARDER_IDS)
  {
  }

  lemma FumigationIdsDistinct()
    ensures FUMIGATION_IDS == ["p2_sky_booking", "p2_sky_docs", "p2_sky_confirm",
                               "p2_sgs_booking", "p2_sgs_docs", "p2_sgs_confirm",
                               "p2_manual_fum_contact", "p2_manual_fum_docs", "p2_manual_fum_confirm"]
    ensures Distinct(FUMIGATION_IDS)
  {
  }

  /** The static lists have 4, 3 and 3 tasks, and no id occurs twice in the whole catalogue:
      the partner branches are pairwise disjoint and disjoint from the static phases. */
  lemma CatalogueIdsDistinct()
    ensures |PHASE_1_TASKS| == 4 && |PHASE_2_TASKS| == 3 && |PHASE_3_TASKS| == 3
    ensures |CATALOGUE_IDS| == 26
    ensures Distinct(CATALOGUE_IDS)
  {
    StaticIdsDistinct();
    ForwarderIdsDistinct();
    FumigationIdsDistinct();
    assert Disjoint(STATIC_IDS, FORWARDER_IDS) by {
      forall i, j | 0 <= i < |STATIC_IDS| && 0 <= j < |FORWARDER_IDS|
        ensures STATIC_IDS[i] != FORWARDER_IDS[j]
      {
        assert FORWARDER_IDS[j][1] == '4' != STATIC_IDS[i][1];
      }
    }
    DistinctConcat(STATIC_IDS, FORWARDER_IDS);
    assert Disjoint(STATIC_IDS + FORWARDER_IDS, FUMIGATION_IDS);
    DistinctConcat(STATIC_IDS + FORWARDER_IDS, FUMIGATION_IDS);
  }

  /** Whatever the partners, every email task in every phase has a subject and a body. */
  lemma EmailTemplatesComplete(data: Shipment)
    ensures EmailsComplete(PHASE_1_TASKS) && EmailsComplete(PHASE_2_TASKS) && EmailsComplete(PHASE_3_TASKS)
    ensures EmailsComplete(ForwarderTasks(data)) && EmailsComplete(FumigationTasks(data))
  {
  }

  /** The fumigation-request subject names the invoice, or the shipment id when there is none. */
  lemma FumigationRequestSubject(data: Shipment)
    ensures PHASE_2_TASKS[0].id == "p2_mail"
    ensures Truthy(data.commercial.invoice) ==>
      PHASE_2_TASKS[0].emailSubject.value(data) == "INV " + data.commercial.invoice.value + " Fumigation Request"
    ensures !Truthy(data.commercial.invoice) ==>
      PHASE_2_TASKS[0].emailSubject.value(data) == "INV " + data.id + " Fumigation Request"
  {
  }

  /** The email subjects of the static phases other than the fumigation request contain the shipment id. */
  lemma StaticSubjectsNameShipment(data: Shipment)
    ensures forall i :: 0 <= i < |PHASE_1_TASKS| && PHASE_1_TASKS[i].hasEmail ==>
      Includes(PHASE_1_TASKS[i].emailSubject.value(data), data.id)
    ensures forall i :: 0 <= i < |PHASE_2_TASKS| && PHASE_2_TASKS[i].hasEmail ==> PHASE_2_TASKS[i].id == "p2_mail"
    ensures forall i :: 0 <= i < |PHASE_3_TASKS| && PHASE_3_TASKS[i].hasEmail ==>
      Includes(PHASE_3_TASKS[i].emailSubject.value(data), data.id)
  {
    IncludesInfix("Shipment ", data.id, " - Docs");
    IncludesInfix("COC Finalization - ", data.id, "");
    assert "COC Finalization - " + data.id + "" == "COC Finalization - " + data.id;
    assert PHASE_1_TASKS[1].emailSubject.value(data) == "Shipment " + data.id + " - Docs";
    assert PHASE_3_TASKS[2].emailSubject.value(data) == "COC Finalization - " + data.id;
  }

  /** Every partner-branch email subject contains the shipment id. */
  lemma PartnerSubjectsNameShipment(data: Shipment)
    ensures forall i :: 0 <= i < |ForwarderTasks(data)| && ForwarderTasks(data)[i].hasEmail ==>
      Includes(ForwarderTasks(data)[i].emailSubject.value(data), data.id)
    ensures forall i :: 0 <= i < |FumigationTasks(data)| && FumigationTasks(data)[i].hasEmail ==>
      Includes(FumigationTasks(data)[i].emailSubject.value(data), data.id)
  {
    IncludesInfix("Final Docs - ", data.id, "");
    assert "Final Docs - " + data.id + "" == "Final Docs - " + data.id;
    IncludesInfix("Fumigation Request - ", data.id, "");
    assert "Fumigation Request - " + data.id + "" == "Fumigation Request - " + data.id;
    IncludesInfix("SGS Fumigation - ", data.id, "");
    assert "SGS Fumigation - " + data.id + "" == "SGS Fumigation - " + data.id;
  }

  /** The manual-label scenario: no name, method "email". */
  lemma PlaceholderForwarderLabel(data: Shipment)
    requires data.forwarder == "manual" && data.manualForwarderName == None && data.manualMethod == Some("email")
    ensures ForwarderTasks(data)[0].labelText == "Forwarder: Contact via email"
  {
  }
}
