# Request and approval forms — a Dafny model

This project models the logic inside a React web application where staff
fill in requests about IEDs (intelligent electronic devices) and turn them
into PDF documents. It has two forms.

- **The request wizard.** It has four steps: general information, inputs,
  outputs and comments. It keeps the answers in a shared store, and it
  renders a request document of one to three pages.
- **The approval request form.** It is validated by a schema, and it
  renders a one-page cover.

The model covers:

- the step machine;
- the store's shallow merge;
- the general-information submit and its catalog lookup of the requester's
  email and department;
- the outputs step:
  - the connection types an output may still use;
  - its initial output list;
  - its add, remove and submit buttons;
- the two IED editors, which edit a field array in place:
  - replicate the inputs;
  - copy an item;
  - append a blank item;
  - remove an item;
  - pick a name, which fills in the manufacturer;
- the IED pool of the output editor:
  - deduplicated on (name, manufacturer);
  - split into Treetech and third-party lists sorted by name;
- the approval schema, its switch and its submit;
- both generated documents, as an abstract tree of pages, sections,
  subsections, rows and tables.

Catalogs are parameters of the model:

- the requester list;
- the own and third-party IED lists;
- the output-type list.

String ordering (`localeCompare`) is a parameter `le`. The sortedness
lemmas assume it is a total preorder. Whether a string is a URL (`z.url`) is
the parameter `isUrl`.

Modules, one per source file plus three shared ones:

| module | file | source |
|---|---|---|
| `Seqs` | seqs.dfy | JavaScript list idioms: `[...new Set]`, `filter`/`findIndex` deduplication, `find`, `flatMap`, `sort` |
| `FormTypes` | form_types.dfy | the records (connections, IEDs, the request form) and the catalog lookups |
| `Doc` | document.dfy | the abstract document tree, the rows a block list reads as, and decimal rendering of numbers |
| `RequestStore` | store.dfy | `request-form/store.ts` |
| `Wizard` | wizard.dfy | `routes/request.tsx` |
| `GeneralInfoStep` | general_info.dfy | `request-form/pt1.tsx` |
| `InputIeds` | input_ieds.dfy | `request-form/ieds.tsx` |
| `OutputIeds` | output_ieds.dfy | `request-form/ieds-output.tsx` |
| `OutputsStep` | outputs_step.dfy | `request-form/pt3.tsx` |
| `RequestDocument` | request_document.dfy | `request-form/pdf-document.tsx` |
| `ApprovalSchema` | approval_schema.dfy | `approval-form/types.ts` |
| `ApprovalFormView` | approval_form.dfy | `approval-form/approval-form.tsx` |
| `ApprovalCover` | approval_cover.dfy | `approval-form/pdf-cover.tsx` |

Stateful components are classes whose fields are the state the source
mutates:

- the wizard's `formStep`;
- the store record;
- each form's `formData`;
- the field arrays `entradas[i].ieds`, `saidas[i].ieds` and `saidas`.

Their methods are specified against the pure functions that the lemmas
reason about.

Notes on how the code behaves, where it differs from what one might expect:

- **Final step.** The outputs step's submit handler only logs (`pt3.tsx`
  lines 100-102). So the wizard reaches the comments step from an earlier
  step only through the "Final" button (`Wizard.FinalStepNeedsShortcut`).
- **IP/port rule.** The outputs editor shows IP and port when the type is
  "TCP/IP". The document shows them when both are non-empty. The two rules
  disagree in both directions (`OutputsStep.EditorAndDocumentDisagree`).
- **Gateway picture.** The general-information step shows the SD+ picture
  only for "SD+". The document shows the SDG picture only for "SDG". The two
  are modelled separately (`GeneralInfoStep.GatewayPictureOf`,
  `RequestDocument.GatewayPicture`).
- **Addresses.** An IED added after a removal is addressed
  `fields.length + 1`, so it can repeat an address already in the list
  (`OutputIeds.RemoveThenAddRepeatsAddress`).
- **Empty inputs.** Stored but empty inputs give the output editor an empty
  IED pool: the catalog is offered only when no inputs are stored at all
  (`OutputIeds.EmptyInputsEmptyPool`).
- **Missing inputs in the document.** The request document dereferences the
  input IEDs without a check, so rendering a request whose inputs were
  never set fails (`RequestDocument.MyDocument` returns `Failure`).
- **The outputs step's IED editor.** The outputs step mounts the input
  editor `IedArray` (`pt3.tsx` lines 558-562). That editor's paths are
  `entradas.${nestIndex}.ieds`, so within the outputs form its edits go to
  an `entradas` array, not to the outputs. That form has no `entradas`, so
  the editor starts with an empty field array, and its first append creates
  `entradas[nestIndex]`. `InputIeds.IedArray` models the editor as written,
  over `entradas`, including a slot that does not exist yet
  (`InputIeds.FirstAddAtOutputsMount`). The output-side editor
  `IedArrayOutput` (`ieds-output.tsx`) is mounted by no file of the
  repository. `OutputIeds.IedArrayOutput` models it as written.
- **The documents.** No file of the repository renders `MyDocument`
  (`pdf-document.tsx`) or the approval cover (`pdf-cover.tsx`). Both are
  modelled as written.
- **Default output.** The default output has no `ieds` key. Every reader
  treats the missing key as an empty list, and the model stores `[]`.

## Model

| member | source | states |
|---|---|---|
| Seqs.KeepFirstOccurrencesIsDistinct | app/forms/request-form/ieds-output.tsx:78-85 | keeping the entries whose `findIndex` is their own index gives the distinct entries in first-occurrence order |
| FormTypes.Refs | app/forms/request-form/ieds-output.tsx:73-76 | one `{nome, fabricante}` pair per IED, same length and order |
| FormTypes.FindIed | app/forms/request-form/ieds.tsx:45 | finds an entry iff the pool has one with that name, and then it is the first such entry |
| FormTypes.ThirdPartySorted | app/forms/request-form/pdf-document.tsx:192-194 | only non-Treetech entries, and exactly the filtered entries with their multiplicities (repeats kept) |
| FormTypes.ThirdPartySortedIsSorted | app/forms/request-form/pdf-document.tsx:194 | under a total preorder the list is sorted by name |
| FormTypes.RequesterEmail | app/forms/request-form/pt1.tsx:49 | the email of the first catalog requester with that name; "" when the requester is unset or not in the catalog |
| FormTypes.RequesterDepartament | app/forms/request-form/pt1.tsx:50 | the same lookup for the department, with "" as the fallback |
| RequestStore.Merge | app/forms/request-form/store.ts:12 | keys in the update take its values (a key set to undefined reads as absent); every other key keeps its presence and value |
| RequestStore.MergeEmpty | app/forms/request-form/store.ts:12 | `setData({})` changes nothing |
| RequestStore.MergeIdempotent | app/forms/request-form/store.ts:12 | applying the same update twice equals applying it once |
| RequestStore.MergeWellTyped | app/forms/request-form/store.ts:5-7 | an update of the declared field types keeps every field at its declared type |
| RequestStore.View | app/forms/request-form/store.ts:5 | each of the eleven form fields holds its key's stored value, and is undefined iff the key is absent |
| RequestStore.SetSaidasChangesOnlySaidas | app/forms/request-form/store.ts:12 | `setData({saidas})` changes the form's `saidas` to the new list and no other field |
| RequestStore.SetTextKeepsConnections | app/forms/request-form/store.ts:12 | an update that names neither connection list leaves both as they were |
| RequestStore.InitialStateEmpty | app/forms/request-form/store.ts:11-13 | the initial store reads as a form whose every field is undefined |
| RequestStore.Store.constructor | app/forms/request-form/store.ts:9-13 | the store starts empty |
| RequestStore.Store.SetData | app/forms/request-form/store.ts:12 | the new state is the merge of the old one with the update; absent keys keep their values |
| Wizard.NextTarget | app/routes/request.tsx:40-43 | steps 0, 1 and 2 get a `next` to step+1; step 3 gets none |
| Wizard.PrevTarget | app/routes/request.tsx:40-43 | steps 1, 2 and 3 get a `prev` to step-1; step 0 gets none |
| Wizard.ForwardTarget | app/routes/request.tsx:40-43 | forward moves to step+1 exactly from step 0 with valid general information or from step 1; otherwise the step stays |
| Wizard.Progress | app/routes/request.tsx:36 | the bar is 25, 50, 75 or 100, and 100 exactly on the last step |
| Wizard.ProgressGrows | app/routes/request.tsx:36 | the bar is 25 on the first step and 100 on the last, grows by 25 per step and strictly with the step |
| Wizard.ExactlyOneShown | app/routes/request.tsx:40-43 | the set of shown steps is exactly the current step |
| Wizard.Apply | app/routes/request.tsx:20-43 | forward is ForwardTarget; back goes to step-1, or stays on step 0; "Final" goes to step 3 when outputs are stored and otherwise changes nothing |
| Wizard.Run | app/routes/request.tsx:15-43 | any sequence of actions keeps the step in 0..3 |
| Wizard.FinalStepNeedsShortcut | app/routes/request.tsx:33 | from an earlier step, the comments step is reached only if a "Final" press with outputs stored happened |
| Wizard.RequestWizard.constructor | app/routes/request.tsx:15 | the wizard starts at step 0 |
| Wizard.RequestWizard.Next | app/routes/request.tsx:40-42 | fires iff the step is below 3, then moves to step+1; otherwise nothing changes |
| Wizard.RequestWizard.Prev | app/routes/request.tsx:41-43 | fires iff the step is above 0, then moves to step-1; otherwise nothing changes |
| Wizard.RequestWizard.GoToFinal | app/routes/request.tsx:20-33 | offered iff outputs are stored, and then the step becomes 3 (idempotent) |
| Wizard.RequestWizard.PressForward | app/routes/request.tsx:40-43 | the step becomes ForwardTarget of the old step |
| GeneralInfoStep.GatewayPictureOf | app/forms/request-form/pt1.tsx:188-192 | the SD+ picture iff the gateway is "SD+" |
| GeneralInfoStep.DefaultGatewayPicture | app/forms/request-form/pt1.tsx:42-45 | the gateway defaults to "SDG" and shows the SDG picture |
| GeneralInfoStep.Saved | app/forms/request-form/pt1.tsx:48-51 | email and department come from the catalog lookup; every other field is the submitted one |
| GeneralInfoStep.SavedIdempotent | app/forms/request-form/pt1.tsx:49-50 | typed email/department are discarded, and saving twice is saving once |
| GeneralInfoStep.GeneralInfoForm.constructor | app/forms/request-form/pt1.tsx:39-46 | the form starts with only the gateway set, and no saved data |
| GeneralInfoStep.GeneralInfoForm.Submit | app/forms/request-form/pt1.tsx:48-68 | only valid data is saved (with the looked-up contact); `next` is called iff valid and provided; the shared store is untouched |
| InputIeds.SelectablePool | app/forms/request-form/ieds.tsx:27 | the own catalog followed by the third-party catalog |
| InputIeds.ManufacturerLookupOrder | app/forms/request-form/ieds.tsx:27-48 | a name is looked up in the own catalog first, and in the third-party catalog only when the own one lacks it |
| InputIeds.WithIeds | app/forms/request-form/ieds.tsx:12-15 | only the IED list of connection `nestIndex` changes; the other connections are untouched |
| InputIeds.Renamed | app/forms/request-form/ieds.tsx:43-48 | the name is set; the manufacturer becomes the first match's, or is unchanged with no match; the other fields are kept |
| InputIeds.WithSlot | app/forms/request-form/ieds.tsx:12-15 | the array is extended only when too short, just to reach slot i, with absent connections; existing connections are kept |
| InputIeds.FirstAddAtOutputsMount | app/forms/request-form/pt3.tsx:558-562 | from no inputs, the first append leaves slot nestIndex holding one blank IED and absent connections before it |
| InputIeds.IedArray.Fields | app/forms/request-form/ieds.tsx:12-15 | a missing `entradas[nestIndex]` reads as an empty field array |
| InputIeds.IedArray.constructor | app/forms/request-form/ieds.tsx:11-15 | the editor is bound to any index, whether or not its connection exists yet |
| InputIeds.IedArray.AddIed | app/forms/request-form/ieds.tsx:99 | exactly one blank IED is appended, creating slot nestIndex when it is missing; other connections are unchanged |
| InputIeds.IedArray.Remove | app/forms/request-form/ieds.tsx:62 | item k is deleted, the rest keep their order |
| InputIeds.IedArray.ChooseName | app/forms/request-form/ieds.tsx:43-48 | only item k changes, to Renamed with the own-then-third-party pool |
| OutputIeds.DefaultIeds | app/forms/request-form/ieds-output.tsx:67-69 | defined iff the inputs are stored |
| OutputIeds.AllIeds | app/forms/request-form/ieds-output.tsx:71-86 | with no stored inputs, the own catalog followed by the third-party one; otherwise the distinct input pairs |
| OutputIeds.AllIedsFromInputs | app/forms/request-form/ieds-output.tsx:71-85 | no duplicate pairs, every input pair present, nothing else, in first-occurrence order |
| OutputIeds.EmptyInputsEmptyPool | app/forms/request-form/ieds-output.tsx:71-86 | stored but empty inputs give an empty pool |
| OutputIeds.TreetechIeds | app/forms/request-form/ieds-output.tsx:88-90 | only Treetech entries, exactly those of the pool with their multiplicities |
| OutputIeds.ThirdPartyIeds | app/forms/request-form/ieds-output.tsx:91-93 | only non-Treetech entries |
| OutputIeds.SplitPartitionsPool | app/forms/request-form/ieds-output.tsx:88-93 | the two lists together are a permutation of the pool, and each is sorted by name under a total preorder |
| OutputIeds.ItemInputs | app/forms/request-form/ieds-output.tsx:158-341 | every item shows the name select, copy and remove buttons, manufacturer label, address and optional inputs, once each; the modules input iff the name is a module-bearing kind |
| OutputIeds.RenamedItemInputs | app/forms/request-form/ieds-output.tsx:285-315 | after a name is picked, the item shows the modules input iff the new name is "BM", "COMM4" or "Entrada Digital do gateway", and otherwise the same controls |
| OutputIeds.ReplicatedNamesInPool | app/forms/request-form/ieds-output.tsx:67-133 | every IED replicated from `defaultIeds` has a name and manufacturer that `allIeds` offers, and every pair offered appears among them |
| OutputIeds.Replicated | app/forms/request-form/ieds-output.tsx:121-133 | same length as the input IEDs; item i is input IED i with address i+1 |
| OutputIeds.ReplicatedCopiesInputs | app/forms/request-form/ieds-output.tsx:121-133 | name/manufacturer pairs, modules and optional are copied in order, and the list is numbered from 1 |
| OutputIeds.AppendCopy | app/forms/request-form/ieds-output.tsx:103-119 | one item appended, earlier items unchanged: a copy of item k's name, manufacturer, modules and optional, addressed length+1 |
| OutputIeds.AppendBlank | app/forms/request-form/ieds-output.tsx:353-361 | one blank item appended with address length+1, earlier items unchanged |
| OutputIeds.AppendKeepsNumbering | app/forms/request-form/ieds-output.tsx:103-119 | copying or adding keeps a list numbered 1..n numbered |
| OutputIeds.RemoveThenAddRepeatsAddress | app/forms/request-form/ieds-output.tsx:353-361 | removing the first item of a numbered list and adding one yields two items with the same address |
| OutputIeds.IedArrayOutput.constructor | app/forms/request-form/ieds-output.tsx:38-50 | the editor is bound to an existing output connection |
| OutputIeds.IedArrayOutput.Append | app/forms/request-form/ieds-output.tsx:47-50 | the item is appended to this connection's IEDs only |
| OutputIeds.IedArrayOutput.RemoveAll | app/forms/request-form/ieds-output.tsx:122 | this connection's IED list becomes empty |
| OutputIeds.IedArrayOutput.Remove | app/forms/request-form/ieds-output.tsx:233 | item k is deleted, the rest keep their order |
| OutputIeds.IedArrayOutput.CopyIed | app/forms/request-form/ieds-output.tsx:103-119 | in range, AppendCopy of item k; out of range, nothing changes |
| OutputIeds.IedArrayOutput.AddIed | app/forms/request-form/ieds-output.tsx:353-361 | the list becomes AppendBlank of the old one |
| OutputIeds.IedArrayOutput.ReplicateInput | app/forms/request-form/ieds-output.tsx:121-133 | the list becomes Replicated of the input IEDs (empty when none are stored), by a loop of appends |
| OutputIeds.IedArrayOutput.AutoReplicate | app/forms/request-form/ieds-output.tsx:95-101 | replicates iff inputs are stored and the list is empty; otherwise nothing changes |
| OutputIeds.IedArrayOutput.RemoveThenRender | app/forms/request-form/ieds-output.tsx:67-101 | removing the only item while inputs are stored leaves the replicated inputs; any other removal just deletes the item |
| OutputIeds.IedArrayOutput.ChooseName | app/forms/request-form/ieds-output.tsx:176-186 | only item k changes, to Renamed with the editor's pool; item k then shows the modules input iff the new name is module-bearing, and no other item's controls change |
| OutputsStep.TypesOf | app/forms/request-form/pt3.tsx:66 | the `type` of every connection, in order |
| OutputsStep.UniqueTypes | app/forms/request-form/pt3.tsx:66 | empty when no inputs are stored, otherwise the distinct input types |
| OutputsStep.UniqueTypesAreInputTypes | app/forms/request-form/pt3.tsx:66 | a type is listed iff some stored input uses it, and none twice |
| OutputsStep.RemainingOptions | app/forms/request-form/pt3.tsx:68 | every remaining option is a catalog option not in `uniqueTypes`, and every such catalog option remains |
| OutputsStep.RemainingOptionsUnused | app/forms/request-form/pt3.tsx:68 | the remaining options are a subsequence of the catalog and none is used by an input |
| OutputsStep.RemainingOptionsComplete | app/forms/request-form/pt3.tsx:68 | every unused catalog option remains; with no stored inputs the whole catalog does |
| OutputsStep.InitialSaidas | app/forms/request-form/pt3.tsx:78-91 | stored outputs (even an empty list) are kept; otherwise one Modbus TCP/IP connection at 192.168.10.87:502 with serial defaults 9600/8/None/1 |
| OutputsStep.EditorSettings | app/forms/request-form/pt3.tsx:265-554 | the IP and port inputs iff the type is TCP/IP; the baud rate, data bits, parity and stop bits inputs iff it is not |
| OutputsStep.EditorAndDocumentDisagree | app/forms/request-form/pt3.tsx:265 | a connection can be edited as TCP/IP but printed as serial, and the reverse |
| OutputsStep.OutputConnections.constructor | app/forms/request-form/pt3.tsx:76-96 | the field array starts as InitialSaidas |
| OutputsStep.OutputConnections.AddOutput | app/forms/request-form/pt3.tsx:582-594 | exactly one new connection (empty strings, serial defaults, no IEDs) is appended |
| OutputsStep.OutputConnections.Remove | app/forms/request-form/pt3.tsx:152 | only that connection is deleted |
| OutputsStep.OutputConnections.Submit | app/forms/request-form/pt3.tsx:100-102 | the submit handler never calls `next` |
| OutputsStep.AddThenRemoveRestores | app/forms/request-form/pt3.tsx:582-594 | adding an output and removing it again restores the list |
| ApprovalSchema.Issues | app/forms/approval-form/types.ts:3-19 | a field is reported iff its rule fails |
| ApprovalSchema.Parse | app/forms/approval-form/types.ts:3-19 | success yields a record satisfying every rule and carrying the raw values with the default kind; failure reports exactly the failing fields, at least one |
| ApprovalSchema.ParseToInputRoundTrip | app/forms/approval-form/types.ts:3-19 | a record satisfying the rules, entered again, parses back to itself |
| ApprovalSchema.ParseIsStable | app/forms/approval-form/types.ts:3-19 | a parsed record fed back through the form parses to itself |
| ApprovalSchema.ApprovalDefaults | app/forms/approval-form/types.ts:4 | a missing kind becomes "Mapeamento"; a present one is kept |
| ApprovalSchema.OptionalFieldsNeverReject | app/forms/approval-form/types.ts:9-18 | dropping email, department, comments or kind never changes acceptance |
| ApprovalSchema.ShortValuesRejected | app/forms/approval-form/types.ts:5-17 | a missing or too-short requester, client, manufacturer, name, type, document type or protocols is reported |
| ApprovalFormView.ToggleValue | app/forms/approval-form/approval-form.tsx:101-103 | the switch writes only "Homologação" or "Mapeamento" |
| ApprovalFormView.ToggleRoundTrip | app/forms/approval-form/approval-form.tsx:98-103 | reading the switch after toggling gives the toggled state, and either kind survives a read-then-write |
| ApprovalFormView.WithContact | app/forms/approval-form/approval-form.tsx:57-61 | email and department come from the catalog lookup; the rest of the record is unchanged |
| ApprovalFormView.WithContactSatisfiesSchema | app/forms/approval-form/approval-form.tsx:57-62 | the saved record still satisfies the schema and parses back to itself |
| ApprovalFormView.ApprovalRequestForm.constructor | app/forms/approval-form/approval-form.tsx:47-55 | the kind starts as "Mapeamento" with no saved record |
| ApprovalFormView.ApprovalRequestForm.Toggle | app/forms/approval-form/approval-form.tsx:98-103 | the kind follows the switch and the saved record is untouched |
| ApprovalFormView.ApprovalRequestForm.Submit | app/forms/approval-form/approval-form.tsx:57-73 | a record is saved iff the schema accepts the values; any saved record satisfies the schema and carries the catalog contact |
| ApprovalCover.CommentsBlocks | app/forms/approval-form/pdf-cover.tsx:240-245 | a comments section iff the comments are set and non-empty |
| ApprovalCover.Cover | app/forms/approval-form/pdf-cover.tsx:173-254 | the cover has exactly one page |
| ApprovalCover.IdentificationRows | app/forms/approval-form/pdf-cover.tsx:183-206 | the rows read requester, email, department, client, protocols, site, in that order, unset values empty |
| ApprovalCover.CoverLayout | app/forms/approval-form/pdf-cover.tsx:175-252 | title and footer name the kind; the rows, then the device row in header order, then comments iff present |
| RequestDocument.ProtocolList | app/forms/request-form/pdf-document.tsx:178-183 | empty when the list is absent, otherwise the distinct protocols |
| RequestDocument.ProtocolListContents | app/forms/request-form/pdf-document.tsx:178-183 | each protocol in use is listed once, and nothing else is listed |
| RequestDocument.ProtocolListOrder | app/forms/request-form/pdf-document.tsx:178-183 | protocols are listed in the order they first appear |
| RequestDocument.ThirdPartyOf | app/forms/request-form/pdf-document.tsx:185-194 | only non-Treetech IEDs |
| RequestDocument.ThirdPartyOfContents | app/forms/request-form/pdf-document.tsx:185-194 | each third-party input IED appears as often as among the inputs; Treetech ones never; sorted by name under a total preorder |
| RequestDocument.SpacedNames | app/forms/request-form/pdf-document.tsx:276-278 | empty iff there are no names, otherwise starts with a space |
| RequestDocument.SpacedNamesIsFlatMap | app/forms/request-form/pdf-document.tsx:276-278 | the cell is " " + name of each entry, concatenated in the list's order |
| RequestDocument.SpacedNamesConcat | app/forms/request-form/pdf-document.tsx:276-278 | the cell of two lists joined is the two cells joined |
| RequestDocument.ThirdPartyCell | app/forms/request-form/pdf-document.tsx:275-279 | the spaced names when the list is non-empty; "Nenhum" iff it is empty |
| RequestDocument.NenhumIffNoThirdParty | app/forms/request-form/pdf-document.tsx:185-279 | the cell says "Nenhum" iff every input IED is Treetech's |
| RequestDocument.IedCells | app/forms/request-form/pdf-document.tsx:395-412 | one cell per header column |
| RequestDocument.IedRows | app/forms/request-form/pdf-document.tsx:395-412 | one row per IED, in order |
| RequestDocument.IedRowsRead | app/forms/request-form/pdf-document.tsx:523-540 | every row shows name, manufacturer and address; inputs show modules and optional; outputs show "Idem à Entrada" twice |
| RequestDocument.IedTable | app/forms/request-form/pdf-document.tsx:351-415 | an IED table iff the connection has IEDs |
| RequestDocument.SettingsRows | app/forms/request-form/pdf-document.tsx:320-350 | IP and port rows when both are filled in, whatever the type; otherwise the baud rate, data bits, parity and stop bits rows |
| RequestDocument.IpPortRowsRead | app/forms/request-form/pdf-document.tsx:312-330 | with IP and port both filled in, the rows are type, protocol, IP and port |
| RequestDocument.SerialRowsRead | app/forms/request-form/pdf-document.tsx:331-350 | otherwise the rows are type, protocol and the four serial settings |
| RequestDocument.ConnectionBlocks | app/forms/request-form/pdf-document.tsx:312-415 | the type and protocol rows come first; the block ends with the IED table exactly when there are IEDs |
| RequestDocument.ConnectionSubsections | app/forms/request-form/pdf-document.tsx:309-311 | subsection i is titled prefix + (i+1), breaks the page iff i > 0, and holds connection i's blocks |
| RequestDocument.SubsectionTitlesDistinct | app/forms/request-form/pdf-document.tsx:311 | distinct connections get distinct subsection titles |
| RequestDocument.GatewayPicture | app/forms/request-form/pdf-document.tsx:208-212 | the SDG picture iff the gateway is "SDG" |
| RequestDocument.GeneralSection | app/forms/request-form/pdf-document.tsx:205-251 | a section titled "Informações Gerais" with the gateway's picture, whose nine rows read the general fields in order, unset ones empty |
| RequestDocument.DetailsCells | app/forms/request-form/pdf-document.tsx:266-280 | three cells; protocols of unset connections read empty, a single protocol reads as itself; the third cell is the third-party cell |
| RequestDocument.CommentBlocks | app/forms/request-form/pdf-document.tsx:285-290 | a comments section iff the comment is non-empty |
| RequestDocument.SummaryPage | app/forms/request-form/pdf-document.tsx:199-202 | the summary page's title |
| RequestDocument.ConnectionsPage | app/forms/request-form/pdf-document.tsx:303-426 | a connections page carries its title and page numbers, and its body is one group of the numbered subsections of its connections |
| RequestDocument.ConnectionsPageSubsection | app/forms/request-form/pdf-document.tsx:309-415 | subsection i is titled prefix + (i+1), breaks the page iff i > 0, holds connection i's blocks, and ends with its IED table, whose rows show modules and optional for inputs and "Idem à Entrada" twice for outputs |
| RequestDocument.InputsPages | app/forms/request-form/pdf-document.tsx:302-426 | an inputs page iff there are inputs, listing them as "Entrada i" with input IED rows |
| RequestDocument.OutputsPages | app/forms/request-form/pdf-document.tsx:430-554 | an outputs page iff outputs are set and non-empty, listing them as "Saída i" with output IED rows |
| RequestDocument.AssembledPages | app/forms/request-form/pdf-document.tsx:197-431 | the summary followed by optional inputs and outputs pages has 1 to 3 pages, and has each optional page iff it is given |
| RequestDocument.MyDocument | app/forms/request-form/pdf-document.tsx:185-199 | fails iff the inputs are unset; otherwise the first page is the summary |
| RequestDocument.MyDocumentConnectionPages | app/forms/request-form/pdf-document.tsx:302-554 | the document's second page is the inputs page ("Entrada i", input rows) when there are inputs, and its last page is the outputs page ("Saída i", output rows) when there are outputs |
| RequestDocument.MyDocumentPages | app/forms/request-form/pdf-document.tsx:199-430 | 1 to 3 pages, summary first, an inputs page iff there are inputs, an outputs page iff there are outputs |
| RequestDocument.SummaryPageRead | app/forms/request-form/pdf-document.tsx:253-290 | the application table lists the joined input and output protocols and the third-party cell; comments section iff the comment is non-empty |

## Left out

- Rendering: styling, animation, icons, tooltips, react-pdf layout and the
  `pageNumber / totalPages` footer text (the footer is just `PageNumbers`).
- Session-storage persistence of the store (`store.ts` lines 13-17): it is
  browser I/O. Only the in-memory merge is modelled. `useInputTypeStore` is
  not used by the core.
- The request schema (`requestFormSchema` in `request-form/types`) is not
  part of this model. Whether the general-information values pass it is the
  parameter `valid` of `GeneralInfoStep.GeneralInfoForm.Submit`. The
  outputs step runs without a resolver.
- react-hook-form and zod internals. `handleSubmit` is "call the handler iff
  validation passes". `z.url` is the parameter `isUrl`. Lengths are counted
  in characters, not UTF-16 code units.
- `localeCompare`: locale-dependent. It is the parameter `le`, and
  sortedness is proved for any total preorder. Sort stability is not stated.
- Features the code does not implement:
  - `restrictedValues` (`pt3.tsx` line 53) is declared but never used;
  - there is no protocol-to-port table and no JSON import or export;
  - the inputs and comments steps (`pt2.tsx`, `pt4.tsx`) are stubs;
  - PDF merging on the approval form is only a placeholder.
- `console.log` calls, and the virtual button through which the
  general-information step calls `next` (modelled as a direct call).
- The render-time in-place sorts of the imported catalogs (display only).
- The in-place `localeCompare` sort of `remainingOptions` at render
  (`pt3.tsx` lines 238-239): it only reorders the options the type select
  shows. `RemainingOptions` keeps the catalog's order; what its contract
  and lemmas state is membership, which the sort does not change.
- The Sigma connection select's three options are the constant
  `GeneralInfoStep.SigmaConnectionChoices`. No operation reads them.
- Routing and layout files (`routes.ts`, `home.tsx`, `new-ied.tsx`,
  navbar, layout, error component): pure UI.
- An input connection without an `ieds` key would make `flatMap` yield
  `undefined` entries, and the readers would crash on them. Connections
  here always carry a list.
- RequestDocument.SummaryPage: its own contract states only the title.
  Its body is described by `RequestDocument.SummaryPageRead`, which leaves
  the general-information rows as the block `GeneralSection`.
- OutputIeds.IedArrayOutput.CopyIed: the source reads the item from
  `fields`, the array's default values, rather than from the typed values.
  The model takes `fields` as the current IED list.
- OutputIeds.IedArrayOutput.AutoReplicate and OutputIeds.IedArrayOutput.Remove:
  `defaultIeds` is a new array on every render, so the effect runs after
  every render, not only when the inputs change. `RemoveThenRender` states
  the consequence for a removal. Repeated re-runs on an empty list whose
  stored inputs hold no IEDs (each a clear of an empty list and a new
  render) are a matter of scheduling and are not modelled.
- InputIeds.WithSlot: a deep `set` past the end of an array leaves holes
  (`undefined` elements) before the new slot, and the new connection has
  only its `ieds` key. The model stores `AbsentConnection`, which has empty
  fields and no IEDs, in both places.
- Wizard.ForwardTarget and Wizard.Apply: the inputs step puts its `prev`
  and `next` buttons in a `<form>` with no submit handler (`pt2.tsx` lines
  15-18), without `type="button"`. The `Button` component is not part of
  this model. If it renders a native submit button, as the explicit
  `type="button"` elsewhere (`request.tsx` line 33, `pt3.tsx` line 579)
  suggests, a click also submits that form, and the page reload restarts
  the wizard at step 0. The model takes the click as only calling `next`
  or `prev`.
- ApprovalFormView.ApprovalRequestForm.Submit: the approval form renders
  no submit button (`Button` is imported at `approval-form.tsx` line 1 and
  never used). With several fields and no submit button, a browser does
  not submit on Enter. So the handler runs only if one of the tooltip
  `InputGroupButton`s submits. That component is not part of this model.
  The model states what a submission does, not whether one can happen.
