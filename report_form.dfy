/**
  The report form component built on the shared schema and the shared
  checklist lists: it derives the PO code from the report date like the page
  does, and hands the form data to its parent's submit callback only when the
  shared schema accepts it.
 */
module ReportForm {
  import opened ReportSchema
  import opened PoCode
  import opened FormState
  import Checklist

  /**
    As the schema parser returns its data, the component's parent receives at
    most the shared schema's two fields: a checklist remark is always dropped.
   */
  lemma SharedParsedDataKeys(values: map<string, string>, i: nat)
    ensures ParsedData(SharedSchema, values).Keys <= {"serviceSupportMobile", "reportDate"}
    ensures Checklist.RemarkField(Checklist.ConnectionRemarkPrefix, i) !in ParsedData(SharedSchema, values)
    ensures Checklist.RemarkField(Checklist.TestResultPrefix, i) !in ParsedData(SharedSchema, values)
  {
    var c := Checklist.RemarkField(Checklist.ConnectionRemarkPrefix, i);
    var t := Checklist.RemarkField(Checklist.TestResultPrefix, i);
    assert c[0] == 'c' && t[0] == 't';
  }

  class ReportFormView {
    const form: FormStore
    /** Every data map handed to the parent's submit callback, oldest first. */
    var delivered: seq<map<string, string>>

    predicate Valid()
      reads this
    {
      form.schema == SharedSchema
    }

    constructor(initial: map<string, string>)
      ensures Valid() && fresh(form)
      ensures form.values == initial && form.errors == map[]
      ensures delivered == []
    {
      form := new FormStore(SharedSchema, initial);
      delivered := [];
    }

    /** A field edit, followed by the report-date watch. */
    method Edit(name: string, value: string, reading: DateReading)
      requires Valid()
      modifies form`values
      ensures Valid()
      ensures form.values == AfterEdit(old(form.values), name, value, reading)
    {
      form.Edit(name, value, reading);
    }

    /**
      The form's submit: the shared schema's checks, and the parent's callback
      only when they pass.
     */
    method Submit() returns (delivers: bool)
      requires Valid()
      modifies form`errors, this`delivered
      ensures Valid()
      ensures form.errors == Validate(SharedSchema, form.values)
      ensures delivers <==>
        "serviceSupportMobile" in form.values && IsTenDigits(form.values["serviceSupportMobile"])
        && Filled(form.values, "reportDate")
      ensures delivered == old(delivered) + (if delivers then [form.values] else [])
    {
      var data := form.HandleSubmit();
      SharedSchemaAccepts(form.values);
      delivers := data.Some?;
      if delivers {
        delivered := delivered + [data.value];
      }
    }

  }
}
