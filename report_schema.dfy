/**
  The report form's validation rules. Each field of the schema carries one
  string check: exactly ten ASCII digits (the two phone numbers) or a minimum
  length (every other field). Lengths are taken as entered: nothing is
  trimmed, so whitespace counts. Validation looks at every field and reports
  one message per failing field.
 */
module ReportSchema {
  import opened Wrappers
  import opened Decimal

  /** One string check of the schema and the message it reports when it fails. */
  datatype Rule =
    | TenDigits(message: string)
    | MinLength(min: nat, message: string)

  /** A schema maps each field name to its rule. */
  type Schema = map<string, Rule>

  /** The message reported for a field that is not a string at all (absent). */
  const MissingMessage := "Required"

  const MobileMessage := "Invalid mobile number"
  const ContactMessage := "Invalid contact number"
  const RequiredMessage := "Required"
  const AddressMessage := "Address too short"
  const RemarkMessage := "Minimum 50 characters required"

  /** The full schema of the report form. */
  const AppSchema: Schema := map[
    "serviceSupportMobile" := TenDigits(MobileMessage),
    "reportDate" := MinLength(1, RequiredMessage),
    "startingDate" := MinLength(1, RequiredMessage),
    "completionDate" := MinLength(1, RequiredMessage),
    "customerNameAddress" := MinLength(10, AddressMessage),
    "spocName" := MinLength(1, RequiredMessage),
    "spocDesignation" := MinLength(1, RequiredMessage),
    "spocContact" := TenDigits(ContactMessage),
    "poCode" := MinLength(1, RequiredMessage),
    "lsseRemark" := MinLength(50, RemarkMessage),
    "customerName" := MinLength(1, RequiredMessage),
    "customerSignDate" := MinLength(1, RequiredMessage),
    "engineerName" := MinLength(1, RequiredMessage),
    "engineerSignDate" := MinLength(1, RequiredMessage)
  ]

  /** The names of the fourteen fields of AppSchema. */
  const AppFields: set<string> := {
    "serviceSupportMobile", "reportDate", "startingDate", "completionDate",
    "customerNameAddress", "spocName", "spocDesignation", "spocContact", "poCode",
    "lsseRemark", "customerName", "customerSignDate", "engineerName", "engineerSignDate"
  }

  /** The shared schema module, which so far declares only two of the fields. */
  const SharedSchema: Schema := map[
    "serviceSupportMobile" := TenDigits(MobileMessage),
    "reportDate" := MinLength(1, RequiredMessage)
  ]

  /** The pattern `^[0-9]{n}$` matched from the start of `s`. */
  function MatchesDigitRun(s: string, n: nat): bool
  {
    if n == 0 then s == []
    else s != [] && IsDigit(s[0]) && MatchesDigitRun(s[1..], n - 1)
  }

  /** Exactly ten characters, each one of '0'..'9'. */
  predicate IsTenDigits(s: string) {
    |s| == 10 && AllDigits(s)
  }

  /** The pattern matcher accepts exactly the strings of n ASCII digits. */
  lemma {:induction false} DigitRunMatches(s: string, n: nat)
    ensures MatchesDigitRun(s, n) <==> |s| == n && AllDigits(s)
    decreases n
  {
    if n > 0 && s != [] {
      DigitRunMatches(s[1..], n - 1);
      if |s| == n && AllDigits(s) {
        assert AllDigits(s[1..]) by {
          forall i | 0 <= i < |s[1..]| ensures IsDigit(s[1..][i]) {
            assert s[1..][i] == s[i + 1];
          }
        }
      }
      if MatchesDigitRun(s, n) {
        forall i | 0 <= i < |s| ensures IsDigit(s[i]) {
          if i > 0 {
            assert s[i] == s[1..][i - 1];
          }
        }
      }
    }
  }

  predicate Accepts(rule: Rule, s: string) {
    match rule
    case TenDigits(_) => MatchesDigitRun(s, 10)
    case MinLength(n, _) => |s| >= n
  }

  function Lookup(values: map<string, string>, name: string): (v: Option<string>)
    ensures v.Some? <==> name in values
    ensures v.Some? ==> v.value == values[name]
  {
    if name in values then Some(values[name]) else None
  }

  /** The message a field reports, or None when it passes its rule. */
  function FieldError(rule: Rule, value: Option<string>): (e: Option<string>)
    ensures value.None? ==> e == Some(MissingMessage)
    ensures value.Some? && rule.TenDigits? ==> (e.None? <==> IsTenDigits(value.value))
    ensures value.Some? && rule.MinLength? ==> (e.None? <==> |value.value| >= rule.min)
    ensures value.Some? && e.Some? ==> e.value == rule.message
  {
    match value
    case None => Some(MissingMessage)
    case Some(s) =>
      DigitRunMatches(s, 10);
      if Accepts(rule, s) then None else Some(rule.message)
  }

  /** The error map: one entry for every schema field that fails, none for the others. */
  function Validate(schema: Schema, values: map<string, string>): (errors: map<string, string>)
    ensures errors.Keys <= schema.Keys
    ensures forall name :: name in schema ==>
      (name in errors <==> FieldError(schema[name], Lookup(values, name)).Some?)
    ensures forall name :: name in errors ==>
      errors[name] == FieldError(schema[name], Lookup(values, name)).value
  {
    map name | name in schema && FieldError(schema[name], Lookup(values, name)).Some?
      :: FieldError(schema[name], Lookup(values, name)).value
  }

  /**
    The data the schema parser hands on when validation passes: only the
    fields the schema declares, every other key dropped.
   */
  function ParsedData(schema: Schema, values: map<string, string>): (data: map<string, string>)
    ensures data.Keys == values.Keys * schema.Keys
    ensures forall k :: k in data ==> data[k] == values[k]
  {
    map k | k in values && k in schema :: values[k]
  }

  // ---------------------------------------------------------------------------
  // The form's acceptance, field by field.

  predicate Filled(values: map<string, string>, name: string) {
    name in values && |values[name]| >= 1
  }

  /** Every one of the fourteen checks of the report form, written out. */
  predicate AppChecksPass(values: map<string, string>) {
    && "serviceSupportMobile" in values && IsTenDigits(values["serviceSupportMobile"])
    && Filled(values, "reportDate")
    && Filled(values, "startingDate")
    && Filled(values, "completionDate")
    && "customerNameAddress" in values && |values["customerNameAddress"]| >= 10
    && Filled(values, "spocName")
    && Filled(values, "spocDesignation")
    && "spocContact" in values && IsTenDigits(values["spocContact"])
    && Filled(values, "poCode")
    && "lsseRemark" in values && |values["lsseRemark"]| >= 50
    && Filled(values, "customerName")
    && Filled(values, "customerSignDate")
    && Filled(values, "engineerName")
    && Filled(values, "engineerSignDate")
  }

  /** A field of AppSchema passes exactly when it is present and meets its check. */
  lemma AppFieldPasses(values: map<string, string>, name: string)
    requires name in AppSchema
    ensures name !in Validate(AppSchema, values) <==>
      name in values && Accepts(AppSchema[name], values[name])
  {
  }

  lemma AppSchemaKeys()
    ensures AppSchema.Keys == AppFields
  {
  }

  /** The form is accepted (no error at all) exactly when all fourteen checks pass. */
  lemma AppSchemaAccepts(values: map<string, string>)
    ensures Validate(AppSchema, values) == map[] <==> AppChecksPass(values)
  {
    if AppChecksPass(values) {
      AllChecksNoErrors(values);
    }
    if Validate(AppSchema, values) == map[] {
      NoErrorsAllChecks(values);
    }
  }

  lemma AllChecksNoErrors(values: map<string, string>)
    requires AppChecksPass(values)
    ensures Validate(AppSchema, values) == map[]
  {
    var errors := Validate(AppSchema, values);
    AppSchemaKeys();
    DigitRunMatches(values["serviceSupportMobile"], 10);
    DigitRunMatches(values["spocContact"], 10);
    forall name | name in AppFields ensures name !in errors {
      AppFieldPasses(values, name);
    }
    assert errors.Keys == {};
  }

  lemma NoErrorsAllChecks(values: map<string, string>)
    requires Validate(AppSchema, values) == map[]
    ensures AppChecksPass(values)
  {
    NoErrorsPhoneFields(values);
    NoErrorsDateFields(values);
    NoErrorsTextFields(values);
    NoErrorsSignOffFields(values);
  }

  lemma NoErrorsPhoneFields(values: map<string, string>)
    requires Validate(AppSchema, values) == map[]
    ensures "serviceSupportMobile" in values && IsTenDigits(values["serviceSupportMobile"])
    ensures "spocContact" in values && IsTenDigits(values["spocContact"])
  {
    PassesTenDigits(values, "serviceSupportMobile");
    PassesTenDigits(values, "spocContact");
  }

  lemma NoErrorsDateFields(values: map<string, string>)
    requires Validate(AppSchema, values) == map[]
    ensures Filled(values, "reportDate") && Filled(values, "startingDate")
    ensures Filled(values, "completionDate") && Filled(values, "poCode")
  {
    PassesMinLength(values, "reportDate", 1);
    PassesMinLength(values, "startingDate", 1);
    PassesMinLength(values, "completionDate", 1);
    PassesMinLength(values, "poCode", 1);
  }

  lemma NoErrorsTextFields(values: map<string, string>)
    requires Validate(AppSchema, values) == map[]
    ensures "customerNameAddress" in values && |values["customerNameAddress"]| >= 10
    ensures Filled(values, "spocName") && Filled(values, "spocDesignation")
    ensures "lsseRemark" in values && |values["lsseRemark"]| >= 50
  {
    PassesMinLength(values, "customerNameAddress", 10);
    PassesMinLength(values, "spocName", 1);
    PassesMinLength(values, "spocDesignation", 1);
    PassesMinLength(values, "lsseRemark", 50);
  }

  lemma NoErrorsSignOffFields(values: map<string, string>)
    requires Validate(AppSchema, values) == map[]
    ensures Filled(values, "customerName") && Filled(values, "customerSignDate")
    ensures Filled(values, "engineerName") && Filled(values, "engineerSignDate")
  {
    PassesMinLength(values, "customerName", 1);
    PassesMinLength(values, "customerSignDate", 1);
    PassesMinLength(values, "engineerName", 1);
    PassesMinLength(values, "engineerSignDate", 1);
  }

  lemma PassesMinLength(values: map<string, string>, name: string, n: nat)
    requires name in AppSchema && AppSchema[name].MinLength? && AppSchema[name].min == n
    requires name !in Validate(AppSchema, values)
    ensures name in values && |values[name]| >= n
  {
  }

  lemma PassesTenDigits(values: map<string, string>, name: string)
    requires name in AppSchema && AppSchema[name].TenDigits?
    requires name !in Validate(AppSchema, values)
    ensures name in values && IsTenDigits(values[name])
  {
    DigitRunMatches(values[name], 10);
  }

  /**
    A phone field (service support mobile, SPOC contact) is rejected exactly
    when it is not ten ASCII digits; a present value reports the field's own
    message.
   */
  lemma PhoneFieldErrors(values: map<string, string>, name: string)
    requires name == "serviceSupportMobile" || name == "spocContact"
    ensures name in Validate(AppSchema, values) <==> !(name in values && IsTenDigits(values[name]))
    ensures name in values && name in Validate(AppSchema, values) ==>
      Validate(AppSchema, values)[name] ==
        (if name == "serviceSupportMobile" then MobileMessage else ContactMessage)
  {
    if name in values {
      DigitRunMatches(values[name], 10);
    }
  }

  /** A mobile number of eight or eleven characters fails, whatever they are. */
  lemma MobileWrongLength(number: string)
    requires |number| == 8 || |number| == 11
    ensures "serviceSupportMobile" in Validate(AppSchema, map["serviceSupportMobile" := number])
  {
    PhoneFieldErrors(map["serviceSupportMobile" := number], "serviceSupportMobile");
  }

  /** Ten characters with a space among them fail, whatever the other characters are. */
  lemma MobileWithSpace(number: string)
    requires |number| == 10 && ' ' in number
    ensures "serviceSupportMobile" in Validate(AppSchema, map["serviceSupportMobile" := number])
  {
    var spaced := map["serviceSupportMobile" := number];
    PhoneFieldErrors(spaced, "serviceSupportMobile");
    var k :| 0 <= k < |number| && number[k] == ' ';
    assert !IsDigit(spaced["serviceSupportMobile"][k]);
  }

  /** Ten digits pass. */
  lemma MobileTenDigits()
    ensures "serviceSupportMobile" !in Validate(AppSchema, map["serviceSupportMobile" := "9876543210"])
  {
    var good := map["serviceSupportMobile" := "9876543210"];
    SampleNumberIsTenDigits();
    PhoneFieldErrors(good, "serviceSupportMobile");
  }

  lemma SampleNumberIsTenDigits()
    ensures IsTenDigits("9876543210")
  {
    var s := "9876543210";
    forall i | 0 <= i < |s| ensures IsDigit(s[i]) {
    }
  }

  /**
    The remark needs fifty characters counted as entered: a present remark is
    rejected, with its own message, exactly when it is shorter than fifty.
   */
  lemma RemarkMinimum(values: map<string, string>)
    ensures "lsseRemark" in values ==>
      ("lsseRemark" in Validate(AppSchema, values) <==> |values["lsseRemark"]| < 50)
    ensures "lsseRemark" in values && "lsseRemark" in Validate(AppSchema, values) ==>
      Validate(AppSchema, values)["lsseRemark"] == RemarkMessage
  {
  }

  /** A 49-character remark fails, and one more space makes it pass: whitespace is not trimmed. */
  lemma RemarkBoundary(remark: string)
    requires |remark| == 49
    ensures "lsseRemark" in Validate(AppSchema, map["lsseRemark" := remark])
    ensures "lsseRemark" !in Validate(AppSchema, map["lsseRemark" := remark + " "])
  {
    RemarkMinimum(map["lsseRemark" := remark]);
    RemarkMinimum(map["lsseRemark" := remark + " "]);
  }

  /** The customer name and address needs ten characters, counted as entered. */
  lemma AddressMinimum(values: map<string, string>)
    ensures "customerNameAddress" in values ==>
      ("customerNameAddress" in Validate(AppSchema, values) <==> |values["customerNameAddress"]| < 10)
    ensures "customerNameAddress" in values && "customerNameAddress" in Validate(AppSchema, values) ==>
      Validate(AppSchema, values)["customerNameAddress"] == AddressMessage
  {
  }

  /**
    Every field other than the two phone numbers, the address and the remark
    is rejected only when it is absent or empty, and then reports "Required".
   */
  lemma RequiredFieldErrors(values: map<string, string>, name: string)
    requires name in AppFields
    requires name !in {"serviceSupportMobile", "spocContact", "customerNameAddress", "lsseRemark"}
    ensures name in Validate(AppSchema, values) <==> (name !in values || values[name] == "")
    ensures name in Validate(AppSchema, values) ==> Validate(AppSchema, values)[name] == RequiredMessage
  {
    AppSchemaKeys();
    assert AppSchema[name] == MinLength(1, RequiredMessage);
  }

  /**
    The shared schema's two fields are checked exactly as the full schema
    checks them: its error map is the full one restricted to those two fields.
   */
  lemma SharedSchemaAgrees(values: map<string, string>)
    ensures SharedSchema.Keys <= AppSchema.Keys
    ensures Validate(SharedSchema, values) ==
      map k | k in Validate(AppSchema, values) && k in SharedSchema :: Validate(AppSchema, values)[k]
  {
    assert SharedSchema["serviceSupportMobile"] == AppSchema["serviceSupportMobile"];
    assert SharedSchema["reportDate"] == AppSchema["reportDate"];
    ValidateRestricts(SharedSchema, AppSchema, values);
  }

  /** A schema that copies some of another's rules reports exactly the other's errors on its own fields. */
  lemma ValidateRestricts(sub: Schema, full: Schema, values: map<string, string>)
    requires sub.Keys <= full.Keys
    requires forall k :: k in sub ==> sub[k] == full[k]
    ensures Validate(sub, values) ==
      map k | k in Validate(full, values) && k in sub :: Validate(full, values)[k]
  {
    var errors := Validate(full, values);
    assert Validate(sub, values).Keys == errors.Keys * sub.Keys;
  }

  lemma SharedSchemaAccepts(values: map<string, string>)
    ensures Validate(SharedSchema, values) == map[] <==>
      "serviceSupportMobile" in values && IsTenDigits(values["serviceSupportMobile"]) && Filled(values, "reportDate")
  {
    var errors := Validate(SharedSchema, values);
    assert SharedSchema.Keys == {"serviceSupportMobile", "reportDate"};
    if "serviceSupportMobile" in values {
      DigitRunMatches(values["serviceSupportMobile"], 10);
    }
    if "serviceSupportMobile" in values && IsTenDigits(values["serviceSupportMobile"]) && Filled(values, "reportDate") {
      assert "serviceSupportMobile" !in errors && "reportDate" !in errors;
      assert errors.Keys == {};
    }
  }
}
