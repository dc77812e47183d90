/**
 * The public entry page: when a campaign loads, one validation rule is built per
 * form field, keyed by the field's name; the entry is checked against those
 * rules before it is posted. This is the only check entry data ever gets: the
 * server stores `data` as it arrives.
 */
module CampaignPage {
  import opened Wrappers
  import opened Js
  import opened CampaignModel
  import ApiClient

  /** The schema of one field: a string, non-empty when required, an email or a phone number by type. */
  datatype Rule = Rule(fieldLabel: string, required: bool, email: bool, phone: bool)

  function RuleFor(f: FormField): Rule
  {
    Rule(f.fieldLabel, f.required, f.fieldType == "email", f.fieldType == "phone")
  }

  /** `schemaFields`: field names to rules, in the order names were first assigned. */
  type Schema = seq<(string, Rule)>

  function SchemaKeys(schema: Schema): (r: seq<string>)
    ensures |r| == |schema|
    ensures forall i :: 0 <= i < |schema| ==> r[i] == schema[i].0
  {
    if schema == [] then [] else [schema[0].0] + SchemaKeys(schema[1..])
  }

  predicate DistinctNames(schema: Schema)
  {
    forall i, j :: 0 <= i < j < |schema| ==> schema[i].0 != schema[j].0
  }

  /** The rule stored under a name. */
  function RuleAt(schema: Schema, name: string): (r: Option<Rule>)
    ensures r.Some? <==> name in SchemaKeys(schema)
    ensures DistinctNames(schema) ==> forall i :: 0 <= i < |schema| && schema[i].0 == name ==> r == Some(schema[i].1)
  {
    if schema == [] then None
    else if schema[0].0 == name then Some(schema[0].1)
    else RuleAt(schema[1..], name)
  }

  /**
   * `schemaFields[name] = rule`: an existing name keeps its place and gets the new
   * rule; a new name is added at the end; every other name keeps its rule.
   */
  function Assign(schema: Schema, name: string, rule: Rule): (r: Schema)
    ensures SchemaKeys(r) == if name in SchemaKeys(schema) then SchemaKeys(schema) else SchemaKeys(schema) + [name]
    ensures RuleAt(r, name) == Some(rule)
    ensures forall k :: k != name ==> RuleAt(r, k) == RuleAt(schema, k)
  {
    if schema == [] then [(name, rule)]
    else if schema[0].0 == name then [(name, rule)] + schema[1..]
    else [schema[0]] + Assign(schema[1..], name, rule)
  }

  /** The schema after the `forEach` over the first fields. */
  function SchemaOf(fields: seq<FormField>): Schema
  {
    if fields == [] then []
    else
      var f := fields[|fields| - 1];
      Assign(SchemaOf(fields[..|fields| - 1]), f.name, RuleFor(f))
  }

  /** The schema-building loop of `loadCampaign`. */
  method BuildSchema(fields: seq<FormField>) returns (schemaFields: Schema)
    ensures schemaFields == SchemaOf(fields)
  {
    schemaFields := [];
    var i := 0;
    while i < |fields|
      invariant 0 <= i <= |fields|
      invariant schemaFields == SchemaOf(fields[..i])
    {
      var field := fields[i];
      assert fields[..i + 1][..i] == fields[..i];
      schemaFields := Assign(schemaFields, field.name, RuleFor(field));
      i := i + 1;
    }
    assert fields[..i] == fields;
  }

  /** Assigning a name keeps the names distinct. */
  lemma AssignKeepsDistinct(schema: Schema, name: string, rule: Rule)
    requires DistinctNames(schema)
    ensures DistinctNames(Assign(schema, name, rule))
  {
    var r := Assign(schema, name, rule);
    forall i, j | 0 <= i < j < |r|
      ensures r[i].0 != r[j].0
    {
      assert SchemaKeys(r)[i] == r[i].0 && SchemaKeys(r)[j] == r[j].0;
      if name !in SchemaKeys(schema) && j == |schema| {
        assert SchemaKeys(r)[i] == SchemaKeys(schema)[i];
      } else {
        assert SchemaKeys(r)[i] == SchemaKeys(schema)[i] && SchemaKeys(r)[j] == SchemaKeys(schema)[j];
      }
    }
  }

  /** The names with a rule are exactly the names of the fields. */
  lemma {:induction false} SchemaNames(fields: seq<FormField>)
    ensures forall k :: k in SchemaKeys(SchemaOf(fields)) <==> exists f :: f in fields && f.name == k
  {
    if fields != [] {
      var init, f := fields[..|fields| - 1], fields[|fields| - 1];
      assert fields == init + [f];
      SchemaNames(init);
      var s := SchemaOf(init);
      forall k
        ensures k in SchemaKeys(SchemaOf(fields)) <==> exists g :: g in fields && g.name == k
      {
        if k in SchemaKeys(SchemaOf(fields)) && k != f.name {
          assert k in SchemaKeys(s);
          var g :| g in init && g.name == k;
          assert g in fields;
        }
        if k != f.name && (exists g :: g in fields && g.name == k) {
          var g :| g in fields && g.name == k;
          assert g in init;
        }
      }
    }
  }

  /** Exactly one rule per distinct field name: the names of the schema are those of the fields, each once. */
  lemma {:induction false} OneRulePerName(fields: seq<FormField>)
    ensures DistinctNames(SchemaOf(fields))
    ensures forall k :: k in SchemaKeys(SchemaOf(fields)) <==> exists f :: f in fields && f.name == k
  {
    if fields != [] {
      var init, f := fields[..|fields| - 1], fields[|fields| - 1];
      OneRulePerName(init);
      AssignKeepsDistinct(SchemaOf(init), f.name, RuleFor(f));
    }
    SchemaNames(fields);
  }

  /** A later field with the same name replaces an earlier one: the rule under a name is that of the last field with it. */
  lemma {:induction false} LastFieldWins(fields: seq<FormField>, i: nat)
    requires i < |fields|
    requires forall j :: i < j < |fields| ==> fields[j].name != fields[i].name
    ensures RuleAt(SchemaOf(fields), fields[i].name) == Some(RuleFor(fields[i]))
  {
    var init := fields[..|fields| - 1];
    if i < |fields| - 1 {
      forall j | i < j < |init|
        ensures init[j].name != init[i].name
      {
        assert init[j] == fields[j];
      }
      LastFieldWins(init, i);
      assert init[i] == fields[i];
    }
  }

  /** A name no field carries has no rule. */
  lemma {:induction false} UnnamedHasNoRule(fields: seq<FormField>, name: string)
    requires forall f :: f in fields ==> f.name != name
    ensures RuleAt(SchemaOf(fields), name).None?
  {
    OneRulePerName(fields);
  }

  // ---------------------------------------------------------------- the checks

  /** `\s` of a JavaScript regular expression. */
  predicate JsSpace(c: char)
  {
    c == '\t' || c == '\n' || c == '\U{000B}' || c == '\U{000C}' || c == '\r' || c == ' '
    || c == '\U{00A0}' || c == '\U{1680}' || ('\U{2000}' <= c <= '\U{200A}')
    || c == '\U{2028}' || c == '\U{2029}' || c == '\U{202F}' || c == '\U{205F}'
    || c == '\U{3000}' || c == '\U{FEFF}'
  }

  /** The class `[\d\s-()]`: an ASCII digit, whitespace, a hyphen or a parenthesis. */
  predicate PhoneChar(c: char)
  {
    ('0' <= c <= '9') || JsSpace(c) || c == '-' || c == '(' || c == ')'
  }

  /** `[\d\s-()]+$`: one or more class characters up to the end. */
  function ClassRun(t: string): (r: bool)
    ensures r <==> |t| >= 1 && forall i :: 0 <= i < |t| ==> PhoneChar(t[i])
  {
    |t| >= 1 && PhoneChar(t[0]) && (|t| == 1 || ClassRun(t[1..]))
  }

  /** `/^\+?[\d\s-()]+$/.test(s)`. */
  function IsPhone(s: string): (r: bool)
    ensures r <==>
      (|s| >= 1 && forall i :: 0 <= i < |s| ==> PhoneChar(s[i]))
      || (|s| >= 2 && s[0] == '+' && forall i :: 1 <= i < |s| ==> PhoneChar(s[i]))
  {
    if |s| > 0 && s[0] == '+' then
      assert !PhoneChar(s[0]);
      assert forall i :: 1 <= i < |s| ==> s[i] == s[1..][i - 1];
      ClassRun(s[1..])
    else ClassRun(s)
  }

  /** What the page shows for a field that fails, in the order the checks run. */
  datatype Issue = NotAString | Required(fieldLabel: string) | InvalidEmail | InvalidPhone

  /** The text shown under the field; for a value that is not a string zod's own message is used. */
  function Message(issue: Issue): Option<string>
  {
    match issue
    case NotAString => None
    case Required(fieldLabel) => Some(fieldLabel + " is required")
    case InvalidEmail => Some("Invalid email address")
    case InvalidPhone => Some("Invalid phone number")
  }

  /**
   * Every failed check of a field's value: a value that is not a string fails
   * alone; a string is checked for length, email and phone form, each when the
   * rule asks. `isEmail` stands for zod's email test.
   */
  function Check(rule: Rule, v: Option<Value>, isEmail: string -> bool): (r: seq<Issue>)
    ensures r == [] <==>
      v.Some? && v.value.Str?
      && (rule.required ==> v.value.s != "")
      && (rule.email ==> isEmail(v.value.s))
      && (rule.phone ==> IsPhone(v.value.s))
    ensures (v.None? || !v.value.Str?) ==> r == [NotAString]
    ensures v.Some? && v.value.Str? && rule.required && v.value.s == "" ==> r[0] == Required(rule.fieldLabel)
  {
    if v.None? || !v.value.Str? then [NotAString]
    else
      var s := v.value.s;
      (if rule.required && |s| < 1 then [Required(rule.fieldLabel)] else [])
      + (if rule.email && !isEmail(s) then [InvalidEmail] else [])
      + (if rule.phone && !IsPhone(s) then [InvalidPhone] else [])
  }

  /** Text, textarea, select and checkbox fields ask for a string, non-empty when required, and nothing more. */
  lemma PlainFieldsNeedOnlyAString(f: FormField, v: Option<Value>, isEmail: string -> bool)
    requires f.fieldType != "email" && f.fieldType != "phone"
    ensures Check(RuleFor(f), v, isEmail) == [] <==> v.Some? && v.value.Str? && (f.required ==> v.value.s != "")
  {
  }

  /** An empty phone number is rejected even when the field is optional: the pattern needs a character. */
  lemma EmptyPhoneRejected(f: FormField, isEmail: string -> bool)
    requires f.fieldType == "phone"
    ensures InvalidPhone in Check(RuleFor(f), Some(Str("")), isEmail)
  {
  }

  /** A required field left empty shows "<label> is required" first. */
  lemma RequiredMessage(f: FormField, isEmail: string -> bool)
    requires f.required
    ensures Message(Check(RuleFor(f), Some(Str("")), isEmail)[0]) == Some(f.fieldLabel + " is required")
  {
  }

  // ---------------------------------------------------------------- the form

  /** The outcome of validating the whole form: the parsed values, or the first issue of each failing field. */
  datatype Validation = Passed(values: Object) | Failed(errors: seq<(string, Issue)>)

  /** Every schema entry's check passes on the value given for its name. */
  predicate AllPass(schema: Schema, data: Object, isEmail: string -> bool)
  {
    forall i :: 0 <= i < |schema| ==> Check(schema[i].1, Get(data, schema[i].0), isEmail) == []
  }

  lemma AllPassCons(schema: Schema, data: Object, isEmail: string -> bool)
    requires schema != []
    ensures AllPass(schema, data, isEmail) <==>
      Check(schema[0].1, Get(data, schema[0].0), isEmail) == [] && AllPass(schema[1..], data, isEmail)
  {
    assert forall i :: 1 <= i < |schema| ==> schema[i] == schema[1..][i - 1];
  }

  /** The first issue of every failing field, in schema order. */
  function Errors(schema: Schema, data: Object, isEmail: string -> bool): (r: seq<(string, Issue)>)
    ensures r == [] <==> AllPass(schema, data, isEmail)
  {
    if schema == [] then []
    else
      var issues := Check(schema[0].1, Get(data, schema[0].0), isEmail);
      var rest := Errors(schema[1..], data, isEmail);
      AllPassCons(schema, data, isEmail);
      if issues == [] then rest else [(schema[0].0, issues[0])] + rest
  }

  /** The parsed object: each schema name with the string given for it, in schema order, without unknown keys. */
  function Parsed(schema: Schema, data: Object): (r: Object)
    requires forall i :: 0 <= i < |schema| ==> Get(data, schema[i].0).Some?
    ensures |r| == |schema|
    ensures forall i :: 0 <= i < |r| ==> r[i].0 == schema[i].0 && Some(r[i].1) == Get(data, schema[i].0)
  {
    seq(|schema|, i requires 0 <= i < |schema| => (schema[i].0, Get(data, schema[i].0).value))
  }

  function ValidateForm(schema: Schema, data: Object, isEmail: string -> bool): (r: Validation)
    ensures r.Passed? <==> AllPass(schema, data, isEmail)
    ensures r.Passed? ==> r.values == Parsed(schema, data)
  {
    var errors := Errors(schema, data, isEmail);
    if errors == [] then Passed(Parsed(schema, data)) else Failed(errors)
  }

  /** `onSubmit`: the entry is posted only when the page has a route id. */
  function OnSubmit(id: Option<string>, data: Object): (r: Option<ApiClient.ClientRequest>)
    ensures r.Some? <==> id.Some? && id.value != ""
    ensures r.Some? ==> r.value == ApiClient.CreateSubmissionRequest(id.value, data)
  {
    if id.None? || id.value == "" then None else Some(ApiClient.CreateSubmissionRequest(id.value, data))
  }

  /** Submitting the form: validation first, then `onSubmit` with the parsed values. */
  function Submit(id: Option<string>, fields: seq<FormField>, data: Object, isEmail: string -> bool): Option<ApiClient.ClientRequest>
  {
    match ValidateForm(SchemaOf(fields), data, isEmail)
    case Failed(_) => None
    case Passed(values) => OnSubmit(id, values)
  }

  /** The values of a form that passes: one string per schema name, in schema order, each passing that name's rule. */
  lemma PassedValues(schema: Schema, data: Object, isEmail: string -> bool)
    requires DistinctNames(schema)
    requires ValidateForm(schema, data, isEmail).Passed?
    ensures var values := ValidateForm(schema, data, isEmail).values;
      && Keys(values) == SchemaKeys(schema)
      && DistinctKeys(values)
      && forall i :: 0 <= i < |values| ==>
           values[i].1.Str? && Check(RuleAt(schema, values[i].0).value, Some(values[i].1), isEmail) == []
  {
    var values := ValidateForm(schema, data, isEmail).values;
    assert Keys(values) == SchemaKeys(schema) by {
      assert |Keys(values)| == |SchemaKeys(schema)|;
      assert forall i :: 0 <= i < |schema| ==> Keys(values)[i] == SchemaKeys(schema)[i];
    }
    forall i | 0 <= i < |values|
      ensures values[i].1.Str? && Check(RuleAt(schema, values[i].0).value, Some(values[i].1), isEmail) == []
    {
      assert Check(schema[i].1, Get(data, schema[i].0), isEmail) == [];
      assert RuleAt(schema, values[i].0) == Some(schema[i].1);
    }
    forall i, j | 0 <= i < j < |values|
      ensures values[i].0 != values[j].0
    {
      assert values[i].0 == schema[i].0 && values[j].0 == schema[j].0;
    }
  }

  /**
   * What the page posts is exactly one string per field name, in schema order,
   * each passing the rule of the last field with that name.
   */
  lemma SubmittedEntryPassedTheRules(id: Option<string>, fields: seq<FormField>, data: Object, isEmail: string -> bool)
    requires Submit(id, fields, data, isEmail).Some?
    ensures var body := Submit(id, fields, data, isEmail).value.body;
      && body.SubmissionBody?
      && body.campaignId == id.value
      && Keys(body.data) == SchemaKeys(SchemaOf(fields))
      && DistinctKeys(body.data)
      && forall i :: 0 <= i < |body.data| ==>
           body.data[i].1.Str? && Check(RuleAt(SchemaOf(fields), body.data[i].0).value, Some(body.data[i].1), isEmail) == []
  {
    OneRulePerName(fields);
    PassedValues(SchemaOf(fields), data, isEmail);
  }
}
