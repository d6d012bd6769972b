# Networking report form: a verified model

This project models the logic of the "Smart Networking Report" form in Dafny.
The form is a page where a field engineer fills in an installation checklist,
two people sign on signature pads, and the report is submitted or exported
as a PDF. The model covers:

- **Validation.** The schema of fourteen string fields. Two phone numbers must
  be exactly ten ASCII digits. The customer name and address needs at least
  10 characters and the remark at least 50. Every other field must be
  non-empty. Lengths count characters as entered: nothing is trimmed.
  Validation checks every field and gives one message per failing field.
- **PO code.** The code is derived from the report date:
  `"PO" + DD + MM + last two characters of the year + "SE01"`. It is written
  into the form whenever the report date changes to a non-empty value.
- **Signature pads.** Each pad is empty until a stroke is drawn. It is
  emptied by "Clear Signatures" and by any resize of either pad's area.
- **Submission.** Submission is refused while either pad is empty. Otherwise
  it assembles the record: the form data plus the two signature images. A
  log of `setIsSubmitting` calls shows the flag going up for the attempt and
  down again afterwards.
- **Checklist tables.** Each table has one row per fixed item. The serial
  number is the item's position plus one, and the remark input is named
  after the position (`connectionRemark<i>`, `testResult<i>`).
- **PDF export.** The document holds a fixed header and the connections table,
  numbered by position. The customer's signature image appears only when it
  is truthy. The engineer's signature is never drawn.

Modules, one per source concern:

- `Decimal`: `String(n)` for n below 10^21, `padStart(2, '0')`, `slice(-2)`, and the value of a digit string.
- `ReportSchema`: the rules, both schemas, and the error map.
- `PoCode`: the code derived from a date.
- `FormState`: the form store, the report-date watch, and the submit gate.
- `Checklist`: the item lists and the table rows.
- `Signature`: the pad.
- `ReportApp`: the page, its two pads, and the submission.
- `ReportForm`: the component built on the shared schema.
- `PdfExport`: the exported document.
- `Wrappers`: `Option`.

Inputs the code does not control are parameters:

- **The report date.** The model takes what `new Date(value)` and its
  local-time getters return, as a `DateReading`. That is a day, a 1-based
  month and a full year, or an Invalid Date.
- **Image export.** Whether `toDataURL` throws is a boolean.

Some behaviours of the code worth knowing:

- The code does not trim whitespace before checking lengths.
- A report date that does not parse still rewrites the PO code. The getters
  return NaN, and the code becomes `"PONaNNaNaNSE01"` (`PoCode.InvalidDateCode`).
- Validation passes string values on unchanged: dates stay strings.
- The exporter draws only the connections table and only the customer's
  signature. It draws no tests table and no engineer signature.
- A year below 10 is not padded: the code then has 11 characters.

## Model

| member | source | states |
|---|---|---|
| `Decimal.NatToStringValue` | App.jsx:66 | The digits `String(n)` prints denote n, so printing can be undone. |
| `Decimal.Pad2Value` | App.jsx:66 | `padStart(2, '0')` of a number below 100 gives exactly two digits that still denote it. |
| `Decimal.LastTwoValue` | App.jsx:66 | `slice(-2)` of `String(y)`, for y >= 0, is all digits and denotes y mod 100. |
| `ReportSchema.DigitRunMatches` | App.jsx:15 | The matcher for `^[0-9]{n}$` accepts a string iff it has exactly n characters, each in '0'..'9'. |
| `ReportSchema.FieldError` | App.jsx:14-29 | An absent field reports "Required". A present value under a ten-digit rule passes iff it is exactly ten ASCII digits. Under a minimum-length rule it passes iff it has at least that many characters. A failing present value reports its rule's own message. |
| `ReportSchema.Validate` | App.jsx:38-40 | Every schema field is checked, with no short-circuit. The error map has an entry for each failing field, none for the others, and each entry holds that field's message. |
| `ReportSchema.AppSchemaAccepts` | App.jsx:14-29 | The error map is empty iff all fourteen checks, written out field by field, pass. |
| `ReportSchema.PhoneFieldErrors` | App.jsx:22 | serviceSupportMobile and spocContact fail iff they are not ten ASCII digits. They carry "Invalid mobile number" and "Invalid contact number". |
| `ReportSchema.MobileWrongLength` | schema.js:5 | A mobile number of 8 or 11 characters is rejected whatever the characters are. |
| `ReportSchema.MobileWithSpace` | schema.js:5 | Every ten-character mobile number containing a space is rejected. |
| `ReportSchema.MobileTenDigits` | App.jsx:15 | "9876543210" is accepted. |
| `ReportSchema.RemarkMinimum` | App.jsx:24 | A present lsseRemark fails iff it has fewer than 50 characters. It then carries "Minimum 50 characters required". |
| `ReportSchema.RemarkBoundary` | App.jsx:383 | Any 49-character remark fails, and adding one space makes it pass: whitespace counts. |
| `ReportSchema.AddressMinimum` | App.jsx:19 | A present customerNameAddress fails iff it is shorter than 10 characters. It then carries "Address too short". |
| `ReportSchema.RequiredFieldErrors` | App.jsx:16-28 | Each of the ten other fields, poCode included, fails iff it is absent or empty, and then carries "Required". |
| `ReportSchema.SharedSchemaAgrees` | schema.js:4-8 | The shared schema's two rules are the full schema's rules for those fields. Its error map is the full error map restricted to them. |
| `ReportSchema.SharedSchemaAccepts` | schema.js:5-6 | The shared schema accepts iff serviceSupportMobile is ten digits and reportDate is non-empty. |
| `ReportSchema.ParsedData` | App.jsx:38-40 | The schema parser's data keeps exactly the submitted fields that the schema declares, with their values. |
| `PoCode.PoCodeFor` | App.jsx:66-67 | Every derived code starts with "PO" and ends with "SE01". |
| `PoCode.PoCodeExample` | App.jsx:238-243 | 16 May 2025 gives "PO160525SE01". |
| `PoCode.InvalidDateCode` | App.jsx:65-66 | A date that does not parse gives "PONaNNaNaNSE01". |
| `PoCode.PoCodeLength` | ReportForm.jsx:17-18 | With day and month below 100, the code has 12 characters iff the year is at least 10 or negative. A year from 0 to 9 gives 11. |
| `PoCode.PoCodeDecodes` | App.jsx:66 | For day and month below 100 and year >= 10, characters 2-3, 4-5 and 6-7 are digits denoting the day, the month and the year mod 100. |
| `PoCode.PoCodeSameExactly` | ReportForm.jsx:17 | Two such dates share a code iff they share day, month and year mod 100. |
| `FormState.AfterEdit` | App.jsx:62-68 | After an edit, only the edited field and poCode can differ. poCode becomes the derived code iff the edited field is reportDate and the new value is non-empty. |
| `FormState.ReportDateDerivesPoCode` | ReportForm.jsx:15-18 | A non-empty reportDate edit puts the code of its date into poCode and keeps the entered date. |
| `FormState.OtherEditsKeepPoCode` | App.jsx:64 | An edit of any other field, or reportDate becoming empty, leaves poCode as it was, present or absent. |
| `FormState.EditIdempotent` | ReportForm.jsx:15-16 | Applying the same edit twice gives the same values as applying it once. |
| `FormState.PoCodeOnlyFromDate` | ReportForm.jsx:16-18 | The derived poCode depends only on the date, never on the rest of the form. |
| `FormState.DerivedPoCodePasses` | App.jsx:23 | After a non-empty reportDate edit, both reportDate and the derived poCode pass their checks. |
| `FormState.FormStore.constructor` | App.jsx:38-40 | A store starts with the given values and no errors. |
| `FormState.FormStore.SetValue` | App.jsx:67 | `setValue` replaces one field's value and nothing else. |
| `FormState.FormStore.Edit` | ReportForm.jsx:13-22 | An edit, followed by the watch, leaves the values of `AfterEdit`. |
| `FormState.FormStore.HandleSubmit` | App.jsx:126 | The errors become the error map. Data is handed on iff it is empty, and then it is the whole form values. |
| `Checklist.Rows` | App.jsx:263-285 | One row per item, in order, each with its item's text and the remark input named after its position. |
| `Checklist.SerialsArePositions` | App.jsx:275 | Serial numbers are 1..n by position and strictly increasing. |
| `Checklist.RemarkFieldsDistinct` | App.jsx:280 | Two rows of one table share a remark input name iff they are the same row. |
| `Checklist.TablesNeverShareFields` | App.jsx:358 | No connection remark input has the name of a test result input. |
| `Checklist.RemarkFieldsOutsideSchema` | App.jsx:14-29 | No remark input name is a schema field, so remarks are never validated. |
| `Checklist.SharedTables` | ReportForm.jsx:30-43 | The connections table uses the shared connection items with prefix "connectionRemark". The tests table uses the shared test items with prefix "testResult". |
| `Checklist.SharedListsArePrefixes` | schema.js:10-20 | Each shared list holds the first items of the corresponding list on the page, in the same positions. |
| `Signature.Pad.constructor` | App.jsx:45-46 | A new pad is empty. |
| `Signature.Pad.IsEmpty` | App.jsx:74 | `isEmpty()` holds iff no stroke has been drawn since the pad was created or last cleared. |
| `Signature.Pad.Draw` | App.jsx:389-392 | A stroke drawn in the signature area is appended, and the pad is then not empty. |
| `Signature.Pad.Clear` | App.jsx:112-113 | `clear()` empties the pad. |
| `Signature.Pad.Resize` | SignaturePad.jsx:18-25 | A resize empties the pad. |
| `Signature.Pad.ToDataUrl` | App.jsx:83-84 | The exported image is that of the strokes drawn, and is blank iff the pad is empty. |
| `ReportApp.AssembleRecord` | App.jsx:86-91 | The record holds every data field as text plus both signature images. The two images override any data field of the same name. |
| `ReportApp.AlertMessage` | App.jsx:74-100 | An alert is shown for every outcome except a validation failure. |
| `ReportApp.SubmitResult` | App.jsx:73-104 | Submission is refused iff a pad is empty. It fails iff both pads are signed and the export throws. A produced record carries both images and every data field. |
| `ReportApp.FormSubmitResult` | App.jsx:126 | The outcome is the error map iff validation fails. A form that passes is handed to the submit handler, so its outcome is `SubmitResult`. A record needs both pads signed. |
| `ReportApp.ValidFormOutcomes` | App.jsx:73-94 | A form passing all fourteen checks is refused iff a pad is empty. With both pads signed and a working export it always yields a record. |
| `ReportApp.SubmittedRecordComplete` | App.jsx:73-91 | A record exists only if all fourteen checks pass and both pads are signed. Its keys are the form fields plus the two signatures. |
| `ReportApp.ParsedDataDropsRemark` | App.jsx:86-91 | From the schema parser's data, a connection remark never reaches the record. |
| `ReportApp.RecordKeepsRemarks` | App.jsx:90 | With the whole form values submitted, every connection remark and test result is in the record unchanged. |
| `ReportApp.App.constructor` | App.jsx:38-46 | Mounting gives a store with the full schema, two distinct empty pads, a lowered flag and an empty flag log. |
| `ReportApp.App.SetIsSubmitting` | App.jsx:79 | The flag takes the value, and the value is appended to the log. |
| `ReportApp.App.ClearSignatures` | App.jsx:111-114 | "Clear Signatures" leaves both pads empty. |
| `ReportApp.App.OnResize` | App.jsx:49-52 | A resize of either pad's area leaves both pads empty. |
| `ReportApp.App.OnSubmit` | App.jsx:73-104 | The outcome is `SubmitResult` of the pads' strokes. With an empty pad the flag is never set. Otherwise it is set true and then false, whatever the outcome, and is left lowered. |
| `ReportApp.App.HandleSubmit` | App.jsx:126 | The submit button records the error map and yields `FormSubmitResult`. The flag moves only when a record is attempted. |
| `ReportForm.SharedParsedDataKeys` | ReportForm.jsx:8-10 | The shared schema parser's data holds at most serviceSupportMobile and reportDate. It never holds a connection remark or a test result. |
| `ReportForm.ReportFormView.constructor` | ReportForm.jsx:8-10 | The component's store uses the shared schema. |
| `ReportForm.ReportFormView.Edit` | ReportForm.jsx:14-19 | An edit applies the same report-date watch as the page. |
| `ReportForm.ReportFormView.Submit` | ReportForm.jsx:25 | The parent's callback receives the values iff the mobile number is ten digits and the report date is filled. Otherwise nothing is delivered. |
| `PdfExport.TableBody` | src/lib/pdfGenerator.js:21-25 | The body has exactly one row per connection. |
| `PdfExport.TableBodyRows` | src/lib/pdfGenerator.js:22-24 | Row i is [i+1, particulars of entry i, remark of entry i]. Serial numbers strictly increase. |
| `PdfExport.ExportMatchesForm` | src/lib/pdfGenerator.js:19-27 | Exported rows carry the same serial numbers and texts as the form's table for the same items. |
| `PdfExport.ReportOps` | src/lib/pdfGenerator.js:9-32 | The first four drawing calls are always the title, the company name, "Basic Information" and the connections table. |
| `PdfExport.HeaderFixed` | src/lib/pdfGenerator.js:10-12 | The document opens with "Smart Networking Report" and "LAXMI SECURITY SYSTEMS AND ELECTRICALS". |
| `PdfExport.OneConnectionsTable` | src/lib/pdfGenerator.js:20 | There is exactly one table, with head ["S.N", "Particulars", "Remark"] and the connections body. |
| `PdfExport.CustomerSignatureOnly` | src/lib/pdfGenerator.js:30-32 | An image is drawn iff the customer signature is truthy. Every image drawn is the customer's signature. |
| `PdfExport.GenerateReportPdf` | src/lib/pdfGenerator.js:5-32 | The drawing calls made on the new document are exactly `ReportOps`. |

## Findings

| source | as written | input that shows it | evidently intended | confidence | as-written member | corrected member |
|---|---|---|---|---|---|---|
| App.jsx:38-40, App.jsx:86-91 | The schema resolver hands `onSubmit` the parser's output. That output keeps only the fourteen schema fields. So `...data` carries no checklist remark, test result or WAN field. | A form that passes every check with `connectionRemark0 = "OK"`: the assembled record has no `connectionRemark0`. | The record includes all the other form data, as the comment at App.jsx:90 says. | medium, not executed: it rests on the schema parser dropping undeclared keys by default. | `ReportApp.ParsedDataDropsRemark` | `ReportApp.RecordKeepsRemarks` |
| ReportForm.jsx:8-10, ReportForm.jsx:25 | The component's resolver uses the shared schema, which declares only serviceSupportMobile and reportDate. Its parser's output is all the parent's `onSubmit` receives. | A form with `reportDate`, `serviceSupportMobile = "9876543210"` and `connectionRemark0 = "OK"`: the parent receives only the first two fields. | The parent receives the whole report, checklist remarks included, to assemble and export it. | medium, not executed: it rests on the schema parser dropping undeclared keys by default. | `ReportForm.SharedParsedDataKeys` | `ReportForm.ReportFormView.Submit` |

Elsewhere the model uses the corrected behaviour: `FormState.FormStore.HandleSubmit`
hands on the whole form values. The five members built on it are listed under
"## Left out".

## Left out

- Rendering, layout, styling and the UI components: presentation only.
- Date parsing: `new Date(value)` and its local-time getters depend on the time zone. The model takes their results as a `DateReading` input.
- The validation and form libraries' internals. The rules are modelled directly. Re-validation on each change after a first failed submit is not modelled: `FormState.FormStore.Edit` leaves the error map as it was.
- String length: the schema counts UTF-16 code units, while a Dafny `char` is a Unicode scalar value. Characters outside the Basic Multilingual Plane count once here and twice in the code.
- Signature capture internals: pointer events, rasterisation, canvas sizing with the device pixel ratio, and the image encoding. A `PngDataUrl` stands for the image of its strokes. The `clear` property of SignaturePad.jsx (lines 34-38) has the same effect as `Pad.Clear`.
- PDF drawing details: positions, font sizes, the table's placement, and saving the file. Only the sequence of texts, table and image drawn is modelled.
- src/App.jsx: it only forwards data. Its signatures state is never filled in, and it refers to an undefined `formData`.
- Alerts, console output and the commented-out network request: `ReportApp.AlertMessage` names the alert text only.
- React's batching of state updates: the log records each `setIsSubmitting` call. Whether a render shows "Submitting..." between the two calls is not modelled.
- The "Generate PDF" stub alert, the reset button, and the WAN-parameter inputs (App.jsx:305-321). The WAN inputs are plain form values with no rule.
- `ReportApp.App.OnSubmit`: the only failure inside the attempt is the image export throwing, modelled as the `exportFails` input. Nothing else in the try block can fail in the model.
- FormState.FormStore.HandleSubmit: hands on the whole form values, which is the corrected behaviour. As written, the resolver hands on only the schema's declared fields (`ReportSchema.ParsedData`; see "## Findings").
- ReportApp.SubmittedRecordComplete: its record keys are the form fields plus the two signatures, under the corrected hand-off. As written, they are the fourteen schema fields present plus the two signatures (`ReportApp.ParsedDataDropsRemark`).
- ReportApp.FormSubmitResult: passes the whole form values to `SubmitResult`, under the corrected hand-off. As written it would pass `ReportSchema.ParsedData` of them. A form that passes every check, with both pads signed and `connectionRemark0 = "OK"`, gives a record holding `connectionRemark0` here and not in the code.
- ReportApp.App.HandleSubmit: yields `FormSubmitResult`, so it inherits the corrected whole-values hand-off; as written the record holds only the schema fields present plus the two signatures.
- ReportForm.ReportFormView.Submit: delivers the whole form values, under the corrected hand-off. As written, the parent receives only serviceSupportMobile and reportDate (`ReportForm.SharedParsedDataKeys`).
- Signature.Pad and ReportApp.App assume two working pads. App.jsx:389-392 and App.jsx:420-423 attach the pad refs to `div` elements, and App.jsx:45-46 builds signature pads on them. A signature pad draws on a canvas, so as written the mount effect would throw and nothing in App.jsx catches the error: the page would fail to mount. The model does not capture that failure.
- ReportForm.ReportFormView assumes the report-date watch is installed. ReportForm.jsx:13 calls `useEffect`, which the imports at ReportForm.jsx:2-5 do not bring in. The model does not capture that failure.
- Checklist.SharedTables: ReportForm.jsx:27-49 uses `TableSection`, `BasicInformationSection`, `SignatureSection` and `FormActions`, which are not part of this model. `SharedTables` assumes that `TableSection` numbers rows and names remark inputs as App.jsx:273-280 does.
