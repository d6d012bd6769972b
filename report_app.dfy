/**
  The report page: the form store with the full schema, the customer's and
  the engineer's signature pads, the submitting flag, and the submission that
  refuses unless both pads hold a signature and otherwise assembles the
  record from the form data and the two signature images.
 */
module ReportApp {
  import opened Wrappers
  import opened ReportSchema
  import opened FormState
  import opened Signature
  import Checklist

  /** A value of the assembled record: a form field's text or a signature image. */
  datatype FieldValue = Text(text: string) | Image(image: PngDataUrl)

  type Record = map<string, FieldValue>

  const CustomerSignatureKey := "customerSignature"
  const EngineerSignatureKey := "engineerSignature"

  /**
    The record `{ ...data, customerSignature, engineerSignature }`: every
    data field, then the two images, which win over data fields of the same
    names.
   */
  function AssembleRecord(data: map<string, string>, customer: PngDataUrl, engineer: PngDataUrl)
    : (record: Record)
    ensures record.Keys == data.Keys + {CustomerSignatureKey, EngineerSignatureKey}
    ensures record[CustomerSignatureKey] == Image(customer)
    ensures record[EngineerSignatureKey] == Image(engineer)
    ensures forall k :: k in data && k != CustomerSignatureKey && k != EngineerSignatureKey ==>
      record[k] == Text(data[k])
  {
    (map k | k in data :: Text(data[k]))[CustomerSignatureKey := Image(customer)][EngineerSignatureKey := Image(engineer)]
  }

  /** How one press of the submit button ends. */
  datatype SubmitOutcome =
    | Invalid(errors: map<string, string>)
    | MissingSignatures
    | Submitted(record: Record)
    | Failed

  /** The alert the page shows for an outcome (validation errors are shown beside the fields instead). */
  function AlertMessage(outcome: SubmitOutcome): (message: Option<string>)
    ensures message.None? <==> outcome.Invalid?
  {
    match outcome
    case Invalid(_) => None
    case MissingSignatures => Some("Please provide both signatures")
    case Submitted(_) => Some("Report submitted successfully!")
    case Failed => Some("Error submitting report")
  }

  /**
    What the submit handler does with validated `data`, given the strokes on
    the two pads. `exportFails` stands for the image export throwing, the one
    step of the attempt that can.
   */
  function SubmitResult(data: map<string, string>, customer: seq<Stroke>, engineer: seq<Stroke>, exportFails: bool)
    : (outcome: SubmitOutcome)
    ensures !outcome.Invalid?
    ensures outcome.MissingSignatures? <==> customer == [] || engineer == []
    ensures outcome.Failed? <==> customer != [] && engineer != [] && exportFails
    ensures outcome.Submitted? ==>
      && CustomerSignatureKey in outcome.record && EngineerSignatureKey in outcome.record
      && outcome.record[CustomerSignatureKey] == Image(PngDataUrl(customer))
      && outcome.record[EngineerSignatureKey] == Image(PngDataUrl(engineer))
      && forall k :: k in data && k != CustomerSignatureKey && k != EngineerSignatureKey ==>
           k in outcome.record && outcome.record[k] == Text(data[k])
  {
    if customer == [] || engineer == [] then MissingSignatures
    else if exportFails then Failed
    else Submitted(AssembleRecord(data, PngDataUrl(customer), PngDataUrl(engineer)))
  }

  /** A press of the submit button: validation first, then the submit handler. */
  function FormSubmitResult(schema: Schema, values: map<string, string>, customer: seq<Stroke>,
                            engineer: seq<Stroke>, exportFails: bool): (outcome: SubmitOutcome)
    ensures outcome.Invalid? <==> Validate(schema, values) != map[]
    ensures outcome.Invalid? ==> outcome.errors == Validate(schema, values)
    ensures outcome.Submitted? ==> customer != [] && engineer != [] && !exportFails
    ensures Validate(schema, values) == map[] ==> outcome == SubmitResult(values, customer, engineer, exportFails)
  {
    var errors := Validate(schema, values);
    if errors != map[] then Invalid(errors) else SubmitResult(values, customer, engineer, exportFails)
  }

  /**
    A form that passes validation is refused exactly when a pad is empty, and
    with both pads signed and a working export it always produces a record.
   */
  lemma ValidFormOutcomes(values: map<string, string>, customer: seq<Stroke>,
                          engineer: seq<Stroke>, exportFails: bool)
    requires AppChecksPass(values)
    ensures var outcome := FormSubmitResult(AppSchema, values, customer, engineer, exportFails);
      && (outcome.MissingSignatures? <==> customer == [] || engineer == [])
      && (customer != [] && engineer != [] && !exportFails ==> outcome.Submitted?)
  {
    AppSchemaAccepts(values);
  }

  /**
    A record is produced only from a form that passes all fourteen checks and
    two non-empty signatures, and it carries every form value.
   */
  lemma SubmittedRecordComplete(values: map<string, string>, customer: seq<Stroke>,
                                engineer: seq<Stroke>, exportFails: bool)
    requires FormSubmitResult(AppSchema, values, customer, engineer, exportFails).Submitted?
    ensures AppChecksPass(values)
    ensures customer != [] && engineer != []
    ensures var record := FormSubmitResult(AppSchema, values, customer, engineer, exportFails).record;
      && record.Keys == values.Keys + {CustomerSignatureKey, EngineerSignatureKey}
      && forall k :: k in values && k != CustomerSignatureKey && k != EngineerSignatureKey ==>
           record[k] == Text(values[k])
  {
    AppSchemaAccepts(values);
  }

  /**
    As the schema parser returns its data, a checklist remark never reaches
    the record: it is not a schema field, so it is dropped before submission.
   */
  lemma ParsedDataDropsRemark(values: map<string, string>, i: nat, customer: PngDataUrl, engineer: PngDataUrl)
    requires Checklist.RemarkField(Checklist.ConnectionRemarkPrefix, i) in values
    ensures Checklist.RemarkField(Checklist.ConnectionRemarkPrefix, i) !in ParsedData(AppSchema, values)
    ensures Checklist.RemarkField(Checklist.ConnectionRemarkPrefix, i) !in
      AssembleRecord(ParsedData(AppSchema, values), customer, engineer)
  {
    var name := Checklist.RemarkField(Checklist.ConnectionRemarkPrefix, i);
    Checklist.RemarkFieldsOutsideSchema(i);
    assert name != CustomerSignatureKey && name != EngineerSignatureKey by {
      assert name[0] == 'c' && name[1] == 'o';
    }
  }

  /** Submitting the whole form values keeps every checklist remark in the record. */
  lemma RecordKeepsRemarks(values: map<string, string>, customer: seq<Stroke>, engineer: seq<Stroke>,
                           exportFails: bool, prefix: string, i: nat)
    requires prefix == Checklist.ConnectionRemarkPrefix || prefix == Checklist.TestResultPrefix
    requires FormSubmitResult(AppSchema, values, customer, engineer, exportFails).Submitted?
    requires Checklist.RemarkField(prefix, i) in values
    ensures var name := Checklist.RemarkField(prefix, i);
      FormSubmitResult(AppSchema, values, customer, engineer, exportFails).record[name] == Text(values[name])
  {
    var name := Checklist.RemarkField(prefix, i);
    assert name != CustomerSignatureKey && name != EngineerSignatureKey by {
      assert name[..|prefix|] == prefix;
      assert name[0] != 'e';
      assert prefix == Checklist.ConnectionRemarkPrefix ==> name[1] == 'o';
    }
  }

  class App {
    const form: FormStore
    const customerPad: Pad
    const engineerPad: Pad
    var isSubmitting: bool
    /** Every value the submitting flag has been set to, oldest first. */
    var submittingLog: seq<bool>

    predicate Valid()
      reads this
    {
      customerPad != engineerPad && form.schema == AppSchema && !isSubmitting
    }

    /** Mounting the page: a fresh form store and two empty pads. */
    constructor(initial: map<string, string>)
      ensures Valid()
      ensures fresh(form) && fresh(customerPad) && fresh(engineerPad)
      ensures form.values == initial && form.errors == map[]
      ensures customerPad.IsEmpty() && engineerPad.IsEmpty()
      ensures submittingLog == []
    {
      form := new FormStore(AppSchema, initial);
      customerPad := new Pad();
      engineerPad := new Pad();
      isSubmitting := false;
      submittingLog := [];
    }

    method SetIsSubmitting(value: bool)
      modifies this`isSubmitting, this`submittingLog
      ensures isSubmitting == value
      ensures submittingLog == old(submittingLog) + [value]
    {
      isSubmitting := value;
      submittingLog := submittingLog + [value];
    }

    /** The "Clear Signatures" button empties both pads. */
    method ClearSignatures()
      requires Valid()
      modifies customerPad, engineerPad
      ensures customerPad.IsEmpty() && engineerPad.IsEmpty()
    {
      customerPad.Clear();
      engineerPad.Clear();
    }

    /** A resize of either pad's area empties both pads. */
    method OnResize()
      requires Valid()
      modifies customerPad, engineerPad
      ensures customerPad.IsEmpty() && engineerPad.IsEmpty()
    {
      customerPad.Clear();
      engineerPad.Clear();
    }

    /**
      The submit handler, run with validated `data`. With an empty pad it
      stops at once and never touches the submitting flag; otherwise the flag
      goes up for the attempt and down again after it, whatever the outcome.
     */
    method OnSubmit(data: map<string, string>, exportFails: bool) returns (outcome: SubmitOutcome)
      requires Valid()
      modifies this`isSubmitting, this`submittingLog
      ensures Valid()
      ensures outcome == SubmitResult(data, customerPad.strokes, engineerPad.strokes, exportFails)
      ensures submittingLog == old(submittingLog) + (if outcome.MissingSignatures? then [] else [true, false])
    {
      if customerPad.IsEmpty() || engineerPad.IsEmpty() {
        outcome := MissingSignatures;
        return;
      }
      SetIsSubmitting(true);
      if exportFails {
        outcome := Failed;
      } else {
        var customerSignature := customerPad.ToDataUrl();
        var engineerSignature := engineerPad.ToDataUrl();
        outcome := Submitted(AssembleRecord(data, customerSignature, engineerSignature));
      }
      SetIsSubmitting(false);
    }

    /** The submit button: the form store's gate, then the submit handler on success. */
    method HandleSubmit(exportFails: bool) returns (outcome: SubmitOutcome)
      requires Valid()
      modifies form`errors, this`isSubmitting, this`submittingLog
      ensures Valid()
      ensures form.errors == Validate(AppSchema, form.values)
      ensures outcome == FormSubmitResult(AppSchema, form.values, customerPad.strokes, engineerPad.strokes, exportFails)
      ensures submittingLog == old(submittingLog) +
        (if outcome.Submitted? || outcome.Failed? then [true, false] else [])
    {
      var data := form.HandleSubmit();
      if data.None? {
        outcome := Invalid(form.errors);
        return;
      }
      outcome := OnSubmit(data.value, exportFails);
    }
  }
}
