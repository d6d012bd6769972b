/**
  The form store shared by both report components: the current field values,
  the error map of the last submission attempt, the report-date watch that
  fills in the PO code, and the submit gate that passes the values on only
  when the schema accepts them.
 */
module FormState {
  import opened Wrappers
  import opened ReportSchema
  import opened PoCode

  /**
    The values after field `name` is set to `value`, with the watch applied:
    when the changed field is the report date and it is not empty, the PO
    code derived from `reading` (the Date getters' view of the new value)
    replaces poCode. Nothing else changes.
   */
  function AfterEdit(values: map<string, string>, name: string, value: string, reading: DateReading)
    : (after: map<string, string>)
    ensures after.Keys == values.Keys + {name} + (if name == "reportDate" && value != "" then {"poCode"} else {})
    ensures forall k :: k in after && k != "poCode" ==> after[k] == values[name := value][k]
    ensures "poCode" in after ==>
      after["poCode"] == if name == "reportDate" && value != "" then PoCodeFor(reading) else values[name := value]["poCode"]
  {
    var edited := values[name := value];
    if name == "reportDate" && edited["reportDate"] != "" then edited["poCode" := PoCodeFor(reading)] else edited
  }

  /** A non-empty report date puts the code of its date into poCode. */
  lemma ReportDateDerivesPoCode(values: map<string, string>, value: string, reading: DateReading)
    requires value != ""
    ensures "poCode" in AfterEdit(values, "reportDate", value, reading)
    ensures AfterEdit(values, "reportDate", value, reading)["poCode"] == PoCodeFor(reading)
    ensures AfterEdit(values, "reportDate", value, reading)["reportDate"] == value
  {
  }

  /** Any other edit, or clearing the report date, leaves poCode as it was. */
  lemma OtherEditsKeepPoCode(values: map<string, string>, name: string, value: string, reading: DateReading)
    requires name != "poCode"
    requires name != "reportDate" || value == ""
    ensures Lookup(AfterEdit(values, name, value, reading), "poCode") == Lookup(values, "poCode")
  {
  }

  /** Entering the same value twice gives the same values as entering it once. */
  lemma EditIdempotent(values: map<string, string>, name: string, value: string, reading: DateReading)
    ensures AfterEdit(AfterEdit(values, name, value, reading), name, value, reading) ==
      AfterEdit(values, name, value, reading)
  {
  }

  /** The derived code depends on the date alone, not on anything else in the form. */
  lemma PoCodeOnlyFromDate(v1: map<string, string>, v2: map<string, string>, value: string, reading: DateReading)
    requires value != ""
    ensures AfterEdit(v1, "reportDate", value, reading)["poCode"] == AfterEdit(v2, "reportDate", value, reading)["poCode"]
  {
  }

  /** After a non-empty report date is entered, both it and poCode pass their checks. */
  lemma DerivedPoCodePasses(values: map<string, string>, value: string, reading: DateReading)
    requires value != ""
    ensures "poCode" !in Validate(AppSchema, AfterEdit(values, "reportDate", value, reading))
    ensures "reportDate" !in Validate(AppSchema, AfterEdit(values, "reportDate", value, reading))
  {
    var after := AfterEdit(values, "reportDate", value, reading);
    ReportDateDerivesPoCode(values, value, reading);
    RequiredFieldErrors(after, "poCode");
    RequiredFieldErrors(after, "reportDate");
  }

  class FormStore {
    const schema: Schema
    var values: map<string, string>
    var errors: map<string, string>

    constructor(schema: Schema, initial: map<string, string>)
      ensures this.schema == schema && values == initial && errors == map[]
    {
      this.schema := schema;
      values := initial;
      errors := map[];
    }

    /** `setValue(name, value)`. */
    method SetValue(name: string, value: string)
      modifies this`values
      ensures values == old(values)[name := value]
    {
      values := values[name := value];
    }

    /** The user changes one field; the report-date watch then runs. */
    method Edit(name: string, value: string, reading: DateReading)
      modifies this`values
      ensures values == AfterEdit(old(values), name, value, reading)
    {
      SetValue(name, value);
      if name == "reportDate" && values["reportDate"] != "" {
        SetValue("poCode", PoCodeFor(reading));
      }
    }

    /**
      `handleSubmit`: validate every field; record the error map; hand the
      values on only when it is empty. The values are handed on whole (see
      ParsedData for the narrower data the schema parser itself returns).
     */
    method HandleSubmit() returns (data: Option<map<string, string>>)
      modifies this`errors
      ensures errors == Validate(schema, values)
      ensures data.Some? <==> errors == map[]
      ensures data.Some? ==> data.value == values
    {
      errors := Validate(schema, values);
      if errors == map[] {
        data := Some(values);
      } else {
        data := None;
      }
    }
  }
}
