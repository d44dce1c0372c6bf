# Shipment workflow: task catalogue and display rules

A model in Dafny of the freight-shipment workflow's task catalogue and the small decision rules in the screens around it.

- **Task catalogue** (`ShipmentDefinitions`). Three static phase lists (document intake, fumigation documents, certification). Two partner-dependent resolvers:
  - `ForwarderTasks` branches on `xpo`, `hmi`, or anything else.
  - `FumigationTasks` branches on `sky-services`, `sgs`, or anything else.
  - In the fallback ("manual") branch, labels interpolate the free-text partner name. An absent or empty name becomes `"Forwarder"` or `"Fumigation Provider"`.
  - Email subjects and bodies are functions of the shipment.
- **Activity timeline** (`ActivityTimeline`). The icon classification of an audit entry's field name. The 60-character value preview. The rendering of a list of audit entries, in the order given.
- **Phase section** (`PhaseSection`). How a checklist row reads the checklist map. The clipboard text of an email. The `selectedTemplate` state behind the template dialog, as a class `TemplateDialog`.
- **Dashboard card** (`ShipmentCard`). The status colour, badge texts and visible lines of each of the five card layouts. The forwarder's display name and the container tracking link. Progress and the next task are inputs.
- **Notes table** (`NotesTable`). A class holding the list of notes and the new-note input. Adding, editing and deleting are specified by the pure list functions `Updated` and `Deleted`.
- **Drive reference test** (`GoogleDrive`). `IsGoogleDriveFile`.

Two helper modules support these. `Wrappers` holds `Option`, used for the source's `undefined` and `null`. `JsStrings` holds the JavaScript string behaviours the code relies on:
- truthiness and the `||` fallback;
- `${}` of an undefined value, which prints `undefined`;
- `includes`, `startsWith` and `trim`;
- the decimal rendering of an integer.

Functions that only compute (`GetIcon`, `ForwarderTasks`, `FumigationTasks`, `RenderCard`, `ForwarderDisplayName`, `TrackingLink`, `IsGoogleDriveFile`) carry no contract of their own. The lemmas in the table below state what they mean.

The `getIcon` helper in `ActivityTimeline.tsx` is defined but never called by the component's markup. It is modelled as written.

Two points about what the code does and does not do:
- For a manual partner, only the missing name is replaced by a placeholder (`Forwarder` or `Fumigation Provider`). A missing contact method is not: the template literal prints it as `undefined`.
- Composing all phases into one task list, reconciling the checklist, toggling tasks with audit records, and calculating progress are not in the source files modelled here.

## Model

| member | source | states |
|---|---|---|
| `ShipmentDefinitions.ForwarderTaskIds` | client/src/lib/shipment-definitions.ts:48-73 | the forwarder resolver is total; its ids are exactly the XPO, HMI or manual list, each if and only if the forwarder is `xpo`, `hmi`, or anything else |
| `ShipmentDefinitions.XpoEmailOnlyOnDocs` | client/src/lib/shipment-definitions.ts:49-60 | in the XPO branch a task has an email exactly when it is `p4_xpo_docs` |
| `ShipmentDefinitions.ForwarderIdsIgnoreManualFields` | client/src/lib/shipment-definitions.ts:66-72 | two shipments with the same forwarder tag get the same ids, whatever their manual name and method |
| `ShipmentDefinitions.ManualForwarderLabels` | client/src/lib/shipment-definitions.ts:67-70 | a manual contact label is the non-empty name, or `Forwarder`, then `: Contact via `, then the interpolated method; the documents label is the same name, or `Forwarder`, then `: Send Documents` |
| `ShipmentDefinitions.PlaceholderForwarderLabel` | client/src/lib/shipment-definitions.ts:67-69 | no name and method `email` give `Forwarder: Contact via email` |
| `ShipmentDefinitions.FumigationTaskIds` | client/src/lib/shipment-definitions.ts:75-108 | the fumigation resolver is total; its ids are exactly the Sky Services, SGS or manual list, each if and only if the provider is `sky-services`, `sgs`, or anything else |
| `ShipmentDefinitions.ManualFumigationLabels` | client/src/lib/shipment-definitions.ts:100-107 | every manual fumigation label starts with the name, or `Fumigation Provider`, and `: `; the three labels are exactly that prefix followed by `Contact via ` and the interpolated method, `Send Fumigation Documents`, and `Confirm Fumigation Completion` |
| `ShipmentDefinitions.StaticIdsDistinct` | client/src/lib/shipment-definitions.ts:11-46 | the static phases have 4, 3 and 3 tasks, with the listed ids in order, and no id repeats |
| `ShipmentDefinitions.ForwarderIdsDistinct` | client/src/lib/shipment-definitions.ts:50-71 | the ids of the three forwarder branches are the listed ones and pairwise different |
| `ShipmentDefinitions.FumigationIdsDistinct` | client/src/lib/shipment-definitions.ts:77-106 | the ids of the three fumigation branches are the listed ones and pairwise different |
| `ShipmentDefinitions.CatalogueIdsDistinct` | client/src/lib/shipment-definitions.ts:11-107 | all 26 ids of the static phases and of every partner branch are distinct, so the branches are disjoint from each other and from the static phases |
| `ShipmentDefinitions.EmailTemplatesComplete` | client/src/lib/shipment-definitions.ts:11-107 | for every shipment, every task marked as having an email carries both a subject and a body |
| `ShipmentDefinitions.FumigationRequestSubject` | client/src/lib/shipment-definitions.ts:29 | the `p2_mail` subject is `INV ` + the invoice, or the shipment id when the invoice is absent or empty, + ` Fumigation Request` |
| `ShipmentDefinitions.StaticSubjectsNameShipment` | client/src/lib/shipment-definitions.ts:11-46 | every email task of phases 1 and 3 has a subject containing the shipment id; phase 2's only email task is `p2_mail` |
| `ShipmentDefinitions.PartnerSubjectsNameShipment` | client/src/lib/shipment-definitions.ts:48-107 | every email task of every forwarder and fumigation branch has a subject containing the shipment id |
| `JsStrings.IncludesIffOccurs` | client/src/lib/googleDrive.ts:197 | the recursive `includes` holds exactly when the substring occurs at some position |
| `JsStrings.IntToString` | client/src/components/dashboard/ShipmentCard.tsx:37 | `${progress}` is the decimal digits, without leading zeros, whose value is the progress, after a minus sign when it is negative |
| `JsStrings.TrimEmptyIffBlank` | client/src/components/dashboard/NotesTable.tsx:19 | `trim()` gives the empty string exactly when every character is JavaScript whitespace |
| `ActivityTimeline.IconClassification` | client/src/components/shipment/ActivityTimeline.tsx:7-12 | an absent or empty field name gives History; one containing `document` gives FileText, ahead of the `checklist`/`task` match for CheckSquare; anything else gives Edit2 (each in both directions) |
| `ActivityTimeline.Preview` | client/src/components/shipment/ActivityTimeline.tsx:44-45 | a value of at most 60 characters is shown unchanged; a longer one as its first 60 characters and `...`; the output is at most 63 characters |
| `ActivityTimeline.RenderEntry` | client/src/components/shipment/ActivityTimeline.tsx:32-46 | the field line appears exactly when the field name is non-empty; the diff appears exactly when both old and new values are non-empty, and shows their previews |
| `ActivityTimeline.RenderEntries` | client/src/components/shipment/ActivityTimeline.tsx:25-50 | one entry per audit log, the i-th rendering the i-th log |
| `ActivityTimeline.Render` | client/src/components/shipment/ActivityTimeline.tsx:14-25 | the timeline is "No activity yet" exactly when there are no logs; otherwise it holds one entry per log, in order |
| `ActivityTimeline.RenderEntriesConcat` | client/src/components/shipment/ActivityTimeline.tsx:25 | rendering a concatenation is the concatenation of the renderings, so there is no reordering |
| `PhaseSection.IsChecked` | client/src/components/shipment/PhaseSection.tsx:68 | a task is checked only if its id is in the checklist map, and then exactly when its entry is true |
| `PhaseSection.RenderRows` | client/src/components/shipment/PhaseSection.tsx:63-84 | one row per task in order; the toggle reports that task's id; the label is struck through exactly when it is checked; View/Copy exist exactly for email tasks |
| `PhaseSection.ClipboardText` | client/src/components/shipment/PhaseSection.tsx:38-40 | the text is `Subject: `, the subject, a blank line and the body, each recoverable by position |
| `PhaseSection.TemplateOf` | client/src/components/shipment/PhaseSection.tsx:90 | a missing or empty subject or body becomes the empty string; a non-empty one is kept |
| `PhaseSection.RowCopyText` | client/src/components/shipment/PhaseSection.tsx:98 | the Copy button's text starts with `Subject: `, then a present subject verbatim, then always the blank line `\n\n`; a present body ends it; a missing or empty subject gives `Subject: ` followed directly by the blank line, and a missing or empty body leaves the text ending in the blank line |
| `PhaseSection.TemplateDialog.constructor` | client/src/components/shipment/PhaseSection.tsx:36 | no template is selected at first |
| `PhaseSection.TemplateDialog.View` | client/src/components/shipment/PhaseSection.tsx:90 | View selects the task's defaulted template and opens the dialog |
| `PhaseSection.TemplateDialog.Close` | client/src/components/shipment/PhaseSection.tsx:108 | closing the dialog clears the selection |
| `PhaseSection.TemplateDialog.CopyAndClose` | client/src/components/shipment/PhaseSection.tsx:125-128 | Copy & Close copies the selected template's text, then clears the selection |
| `PhaseSection.ViewThenCopyAndClose` | client/src/components/shipment/PhaseSection.tsx:90-128 | View followed by Copy & Close copies the same text as the row's Copy button and leaves the dialog closed |
| `ShipmentCard.GetStatusColor` | client/src/components/dashboard/ShipmentCard.tsx:22-26 | success exactly at 100, accent exactly above 50 but not 100, warning exactly at or below 50 |
| `ShipmentCard.BadgeRules` | client/src/components/dashboard/ShipmentCard.tsx:28-173 | every layout except the progress one has a badge in the status colour; `Done` exactly on a minimal card at 100, otherwise `<progress>%`; the compact badge always reads `<progress>%`, even at 100; `Completed` exactly on a status or full card at 100, otherwise `In Progress` |
| `ShipmentCard.VisibilityRules` | client/src/components/dashboard/ShipmentCard.tsx:54-262 | the Next line shows the next task exactly in the progress, compact and full layouts when a next task exists and progress is below 100; "All tasks completed" shows exactly on a progress card at 100 |
| `ShipmentCard.ForwarderNamePrecedence` | client/src/components/dashboard/ShipmentCard.tsx:237 | a non-empty manual name wins even for `xpo` or `hmi`; otherwise `XPO Logistics`, `HMI Logistics`, else a dash |
| `ShipmentCard.ForwarderNameMatchesManualLabels` | client/src/components/dashboard/ShipmentCard.tsx:237 | for a named manual forwarder, the card's forwarder line prefixes every forwarder task label |
| `ShipmentCard.TrackingLinkRules` | client/src/components/dashboard/ShipmentCard.tsx:192-194 | the tracking link exists exactly for a non-empty container and is the fixed prefix followed by the container |
| `ShipmentCard.DefaultViewIsFull` | client/src/components/dashboard/ShipmentCard.tsx:18 | a card without a layout is the full card, which shows the forwarder line |
| `NotesTable.Updated` | client/src/components/dashboard/NotesTable.tsx:33 | editing keeps length, order, ids and dates, and replaces the content of exactly the notes with that id |
| `NotesTable.Deleted` | client/src/components/dashboard/NotesTable.tsx:37 | deleting keeps exactly the notes with another id, each with its original multiplicity |
| `NotesTable.UpdateIdempotent` | client/src/components/dashboard/NotesTable.tsx:33 | editing twice with the same arguments equals editing once |
| `NotesTable.UpdateAbsentId` | client/src/components/dashboard/NotesTable.tsx:33 | editing an id no note carries changes nothing |
| `NotesTable.DeletedConcat` | client/src/components/dashboard/NotesTable.tsx:37 | deleting from a concatenation concatenates the results, so survivors keep their order |
| `NotesTable.DeleteAbsentId` | client/src/components/dashboard/NotesTable.tsx:37 | deleting an id no note carries leaves the list unchanged |
| `NotesTable.DeleteIdempotent` | client/src/components/dashboard/NotesTable.tsx:37 | deleting twice equals deleting once |
| `NotesTable.NotesTable.constructor` | client/src/components/dashboard/NotesTable.tsx:13-16 | the table starts with exactly one sample note and an empty input |
| `NotesTable.NotesTable.SetNewNote` | client/src/components/dashboard/NotesTable.tsx:91 | typing replaces the input and leaves the notes alone |
| `NotesTable.NotesTable.AddNote` | client/src/components/dashboard/NotesTable.tsx:18-30 | a blank input changes nothing; otherwise exactly one note with the untrimmed text is appended at the end, and the input is cleared |
| `NotesTable.NotesTable.UpdateNote` | client/src/components/dashboard/NotesTable.tsx:32-34 | the notes become their edited list; the input is unchanged |
| `NotesTable.NotesTable.DeleteNote` | client/src/components/dashboard/NotesTable.tsx:36-38 | the notes become their filtered list; the input is unchanged |
| `GoogleDrive.SupabaseIsNotDrive` | client/src/lib/googleDrive.ts:197 | a reference with `supabase` anywhere in it is not a Drive file |
| `GoogleDrive.DataUrlIsNotDrive` | client/src/lib/googleDrive.ts:198 | a reference starting with `data:` is not a Drive file |
| `GoogleDrive.DriveFileIff` | client/src/lib/googleDrive.ts:194-200 | a reference is a Drive file exactly when `supabase` occurs nowhere in it, it does not start with `data:`, and it is under 100 characters; the empty reference is one |

## Left out

- `calculateProgress` and `getNextTask` live in `shipment-utils`, which is not part of this model. The card takes progress as an integer and the next task as its optional label.
- Phase composition, checklist reconciliation, checklist toggling with audit records, summary generation and revision conflicts are not in the modelled source files.
- The Drive upload, download, metadata, delete and token functions in `googleDrive.ts`, and all of `server/file-storage.ts`, are network, authentication and storage I/O.
- Dates are not modelled. The clock (`Date.now`, `toISOString`) supplies note ids and dates, so they are parameters. `date-fns` formatting of ETA, loading dates and audit timestamps is not modelled, and the card omits those lines.
- Clipboard writes, toasts, routing links, Tailwind classes beyond the three status colours, and `Math.round` of progress are UI side effects or floating point.
- Strings are sequences of Unicode characters. JavaScript counts `length`, the 60-character preview and the 100-character limit in UTF-16 code units, so the two differ for characters outside the Basic Multilingual Plane.
- A template field in the source may be a literal string or a function of the shipment. Every template in the catalogue is a function, so the model has only functions.
- `null` and `undefined` are both `None`, and `Interpolate(None)` prints `undefined`. The shipment type is not part of this model, so whether `manualMethod` or `manualFumigationMethod` can be `null` is not known. A `null` method would print `null` in the contact labels (shipment-definitions.ts lines 69 and 103), which the model does not capture.
- Turning catalogue templates into the rendered strings the phase section receives happens in a caller that is not part of this model.
