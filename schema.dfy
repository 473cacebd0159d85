/**
 * The payment-event schema, checked the way Joi checks it with
 * `abortEarly: false`, `allowUnknown: true` and `stripUnknown: true`:
 * every declared field is checked in declaration order and all violations
 * are collected; undeclared keys are neither errors nor kept in the
 * validated value. The `data` object's cross-field rule (at least one truthy
 * customer identifier) runs only once all of `data`'s own fields pass, since
 * Joi stops at a child error before running an object's custom rules.
 */
module Schema {
  import opened Wrappers
  import opened Json

  /** The rule a violation breaks, after Joi's error codes. */
  datatype Rule =
    | Required              // any.required
    | MustBeString          // string.base
    | NotEmpty              // string.empty
    | MustBeGuid            // string.guid
    | MustBeDate            // date.base
    | MustBeObject          // object.base
    | MustBeNumber          // number.base
    | MustBeSafe            // number.unsafe
    | MustBePositive        // number.positive
    | NoCustomerIdentifier  // any.custom, raised by the rule on `data`

  /** One entry of Joi's error details: the dotted path of the field and the rule broken. */
  datatype Violation = Violation(path: string, rule: Rule)

  /**
   * Joi's string formats, left uninterpreted: `isUuid` is what both
   * `.uuid()` and `.guid()` accept, `isDate` what `Joi.date()` accepts.
   */
  datatype Formats = Formats(isUuid: string -> bool, isDate: JVal -> bool)

  /** The Joi rule chains the schema uses. */
  datatype FieldRule =
    | RequiredString               // Joi.string().required()
    | RequiredUuid                 // Joi.string().uuid().required(), Joi.string().guid().required()
    | RequiredDate                 // Joi.date().required()
    | StringDefault(def: string)   // Joi.string().default(def)
    | IdentifierNumber             // Joi.number().integer().positive().optional().allow('', null)
    | IdentifierString             // Joi.string().optional().allow('', null)
    | RequiredPositiveInt          // Joi.number().integer().positive().required()

  datatype Field = Field(name: string, rule: FieldRule)

  /** The top-level keys, in declaration order; `data` comes last and is checked by `CheckData`. */
  const EventFields: seq<Field> := [
    Field("specversion", RequiredString),
    Field("type", RequiredString),
    Field("source", RequiredString),
    Field("id", RequiredUuid),
    Field("time", RequiredDate),
    Field("subject", StringDefault("None")),
    Field("datacontenttype", StringDefault("None"))
  ]

  /** The keys of `data`, in declaration order. */
  const DataFields: seq<Field> := [
    Field("frn", IdentifierNumber),
    Field("sbi", IdentifierNumber),
    Field("trader", IdentifierString),
    Field("vendor", IdentifierString),
    Field("correlationId", RequiredUuid),
    Field("schemeId", RequiredPositiveInt),
    Field("invoiceNumber", RequiredString)
  ]

  function Names(fields: seq<Field>): (ns: set<string>)
    ensures forall i :: 0 <= i < |fields| ==> fields[i].name in ns
    ensures forall k :: k in ns ==> exists i :: 0 <= i < |fields| && fields[i].name == k
  {
    set i | 0 <= i < |fields| :: fields[i].name
  }

  /** `Joi.string()`: a non-empty string, or absent unless required. */
  function CheckString(path: string, v: JVal, required: bool): seq<Violation> {
    match v
    case JUndefined => if required then [Violation(path, Required)] else []
    case JStr(s) => if s == "" then [Violation(path, NotEmpty)] else []
    case _ => [Violation(path, MustBeString)]
  }

  /** `Number.MAX_SAFE_INTEGER`, 2^53 - 1. */
  const MaxSafeInteger: int := 9_007_199_254_740_991

  /**
   * `Joi.number().integer().positive()` over integers: absent unless
   * required; the base check refuses a number outside the safe range before
   * the rules run; then greater than zero.
   */
  function CheckPositiveInt(path: string, v: JVal, required: bool): seq<Violation> {
    match v
    case JUndefined => if required then [Violation(path, Required)] else []
    case JInt(n) =>
      if n < -MaxSafeInteger || n > MaxSafeInteger then [Violation(path, MustBeSafe)]
      else if n > 0 then [] else [Violation(path, MustBePositive)]
    case _ => [Violation(path, MustBeNumber)]
  }

  /** The violations one field's value causes under its rule chain. */
  function CheckValue(path: string, rule: FieldRule, v: JVal, f: Formats): (r: seq<Violation>)
    ensures |r| <= 1
  {
    match rule
    case RequiredString => CheckString(path, v, true)
    case RequiredUuid =>
      if v.JStr? && v.s != "" then (if f.isUuid(v.s) then [] else [Violation(path, MustBeGuid)])
      else CheckString(path, v, true)
    case RequiredDate =>
      if v.JUndefined? then [Violation(path, Required)]
      else if f.isDate(v) then [] else [Violation(path, MustBeDate)]
    case StringDefault(_) => CheckString(path, v, false)
    case IdentifierNumber =>
      if v == JNull || v == JStr("") then [] else CheckPositiveInt(path, v, false)
    case IdentifierString =>
      if v == JNull || v.JStr? then [] else CheckString(path, v, false)
    case RequiredPositiveInt => CheckPositiveInt(path, v, true)
  }

  /** The violations of every field in `fields`, in order; `prefix` is the path of the enclosing object. */
  function CheckFields(prefix: string, fields: seq<Field>, m: map<string, JVal>, f: Formats): (r: seq<Violation>)
    ensures |r| <= |fields|
    decreases |fields|
  {
    if fields == [] then []
    else CheckValue(prefix + fields[0].name, fields[0].rule, Get(m, fields[0].name), f)
         + CheckFields(prefix, fields[1..], m, f)
  }

  /** The custom rule: `!frn && !sbi && !trader && !vendor` fails. */
  predicate HasCustomerIdentifier(dm: map<string, JVal>): (b: bool)
    ensures b <==> exists j | 0 <= j < 4 :: Truthy(Get(dm, DataFields[j].name))
  {
    assert DataFields[0].name == "frn" && DataFields[1].name == "sbi";
    assert DataFields[2].name == "trader" && DataFields[3].name == "vendor";
    Truthy(Get(dm, "frn")) || Truthy(Get(dm, "sbi")) || Truthy(Get(dm, "trader")) || Truthy(Get(dm, "vendor"))
  }

  /** `data: Joi.object({...}).required().custom(...)`. */
  function CheckData(v: JVal, f: Formats): (r: seq<Violation>)
    ensures |r| <= |DataFields|
    ensures r == [] ==> v.JObj? && HasCustomerIdentifier(v.fields)
  {
    match v
    case JUndefined => [Violation("data", Required)]
    case JObj(dm) =>
      var errs := CheckFields("data.", DataFields, dm, f);
      if errs != [] then errs
      else if HasCustomerIdentifier(dm) then []
      else [Violation("data", NoCustomerIdentifier)]
    case _ => [Violation("data", MustBeObject)]
  }

  /** Every violation the whole schema reports for `event`, in Joi's order. */
  function Violations(event: JVal, f: Formats): (r: seq<Violation>)
    ensures |r| <= |EventFields| + |DataFields|
  {
    match event
    case JUndefined => [Violation("value", Required)]
    case JObj(m) => CheckFields("", EventFields, m, f) + CheckData(Get(m, "data"), f)
    case _ => [Violation("value", MustBeObject)]
  }

  /** A path the schema declares: a top-level field, `data`, or a field of `data`. */
  predicate DeclaredPath(p: string) {
    p == "data" ||
    (exists j | 0 <= j < |EventFields| :: p == EventFields[j].name) ||
    (exists j | 0 <= j < |DataFields| :: p == "data." + DataFields[j].name)
  }

  /** The object's own fields, or none when it is not an object. */
  function FieldsOf(v: JVal): map<string, JVal> {
    if v.JObj? then v.fields else map[]
  }

  /** The default a declared key takes when it is absent. */
  function DefaultOf(fields: seq<Field>, k: string): (d: Option<string>)
    decreases |fields|
  {
    if fields == [] then None
    else if fields[0].name == k && fields[0].rule.StringDefault? then Some(fields[0].rule.def)
    else DefaultOf(fields[1..], k)
  }

  /** The declared keys of `m` that carry a value, plus the defaults of the absent ones; nothing else. */
  function Pruned(m: map<string, JVal>, fields: seq<Field>): (p: map<string, JVal>)
    ensures p.Keys <= Names(fields)
    ensures forall k | k in p :: Get(m, k) != JUndefined || DefaultOf(fields, k).Some?
    ensures forall k | k in Names(fields) && Get(m, k) != JUndefined :: k in p && p[k] == m[k]
  {
    map k | k in Names(fields) && (Get(m, k) != JUndefined || DefaultOf(fields, k).Some?) ::
      if Get(m, k) != JUndefined then m[k] else JStr(DefaultOf(fields, k).value)
  }

  /** The value Joi returns on success: declared keys only, defaults filled in. */
  function Normalized(event: JVal): (n: JVal)
    ensures n.JObj? && n.fields.Keys <= Names(EventFields) + {"data"}
    ensures "data" in n.fields && n.fields["data"].JObj? && n.fields["data"].fields.Keys <= Names(DataFields)
  {
    var m := FieldsOf(event);
    JObj(Pruned(m, EventFields)["data" := JObj(Pruned(FieldsOf(Get(m, "data")), DataFields))])
  }

  /** `schema.validate(event, options)`: the validated value, or the non-empty list of violations. */
  function Validate(event: JVal, f: Formats): (r: Result<JVal, seq<Violation>>)
    ensures r.Failure? <==> Violations(event, f) != []
    ensures r.Failure? ==> r.error == Violations(event, f)
    ensures r.Success? ==> event.JObj? && r.value.JObj?
  {
    var errs := Violations(event, f);
    if errs != [] then Failure(errs) else Success(Normalized(event))
  }

  // ---------------------------------------------------------------------
  // Rendering: Joi's error message joins the details' messages with ". ".
  // ---------------------------------------------------------------------

  function RuleText(r: Rule): string {
    match r
    case Required => "is required"
    case MustBeString => "must be a string"
    case NotEmpty => "is not allowed to be empty"
    case MustBeGuid => "must be a valid GUID"
    case MustBeDate => "must be a valid date"
    case MustBeObject => "must be of type object"
    case MustBeNumber => "must be a number"
    case MustBeSafe => "must be a safe number"
    case MustBePositive => "must be a positive number"
    case NoCustomerIdentifier => CustomRuleText + " because "
  }

  function Quoted(path: string): string {
    "\"" + path + "\""
  }

  function Render(v: Violation): string {
    Quoted(v.path) + " " + RuleText(v.rule)
  }

  lemma RenderRequired(k: string)
    ensures Render(Violation(k, Required)) == "\"" + k + "\" is required"
  {
  }

  /** Joi's `any.custom` wording, up to the reason it would insert. */
  const CustomRuleText: string := "failed custom validation"

  lemma RenderNoCustomerIdentifier()
    ensures Render(Violation("data", NoCustomerIdentifier)) == (Quoted("data") + " " + CustomRuleText) + " because "
  {
    var a, b := Quoted("data") + " ", CustomRuleText;
    assert a + (b + " because ") == (a + b) + " because ";
  }

  /** `lines.join('. ')`. */
  function Join(lines: seq<string>): (s: string)
    ensures lines == [] ==> s == ""
    ensures lines != [] ==> |lines[0]| <= |s| && s[..|lines[0]|] == lines[0]
    decreases |lines|
  {
    if lines == [] then ""
    else if |lines| == 1 then lines[0]
    else lines[0] + ". " + Join(lines[1..])
  }

  /** The details' messages, one per violation, in order. */
  function Lines(vs: seq<Violation>): seq<string> {
    seq(|vs|, i requires 0 <= i < |vs| => Render(vs[i]))
  }

  /**
   * `error.message`: the details' messages joined with ". ". Joi drops
   * repeated messages first (`[...new Set(messages)]`); for this schema's
   * reports that changes nothing, as `MessageNeedsNoDedup` shows.
   */
  function Message(vs: seq<Violation>): (msg: string)
    ensures msg == "" <==> vs == []
    ensures vs != [] ==> |Render(vs[0])| <= |msg| && msg[..|Render(vs[0])|] == Render(vs[0])
  {
    Join(Lines(vs))
  }

  /** `x` occurs in `s` at index `i`. */
  predicate OccursAt(s: string, i: int, x: string) {
    0 <= i && i + |x| <= |s| && s[i..i + |x|] == x
  }

  /** `s.includes(x)`. */
  predicate Contains(s: string, x: string) {
    exists i | 0 <= i <= |s| :: OccursAt(s, i, x)
  }

  // ---------------------------------------------------------------------
  // Properties of the schema.
  // ---------------------------------------------------------------------

  /** No violation is lost: whatever field `i` breaks is reported (abortEarly: false). */
  lemma {:induction false} FieldViolationCollected(prefix: string, fields: seq<Field>, m: map<string, JVal>,
                                                    f: Formats, i: nat, v: Violation)
    requires i < |fields|
    requires v in CheckValue(prefix + fields[i].name, fields[i].rule, Get(m, fields[i].name), f)
    ensures v in CheckFields(prefix, fields, m, f)
    decreases i
  {
    if i > 0 {
      FieldViolationCollected(prefix, fields[1..], m, f, i - 1, v);
    }
  }

  /** The field rules never raise the custom rule's violation. */
  lemma {:induction false} FieldRulesNeverCustom(prefix: string, fields: seq<Field>, m: map<string, JVal>, f: Formats)
    ensures Violation("data", NoCustomerIdentifier) !in CheckFields(prefix, fields, m, f)
    decreases |fields|
  {
    if fields != [] {
      FieldRulesNeverCustom(prefix, fields[1..], m, f);
    }
  }

  /** The field rules read only the declared keys. */
  lemma {:induction false} FieldRulesReadOnlyDeclaredKeys(prefix: string, fields: seq<Field>,
                                                          m1: map<string, JVal>, m2: map<string, JVal>, f: Formats)
    requires forall k :: k in Names(fields) ==> Get(m1, k) == Get(m2, k)
    ensures CheckFields(prefix, fields, m1, f) == CheckFields(prefix, fields, m2, f)
    decreases |fields|
  {
    if fields != [] {
      assert fields[0].name in Names(fields);
      assert Names(fields[1..]) <= Names(fields) by {
        forall k | k in Names(fields[1..]) ensures k in Names(fields) {
          var i :| 0 <= i < |fields[1..]| && fields[1..][i].name == k;
          assert fields[i + 1].name == k;
        }
      }
      FieldRulesReadOnlyDeclaredKeys(prefix, fields[1..], m1, m2, f);
    }
  }

  /** A field's violation is reported at that field's path and is never the custom rule's. */
  lemma ValueViolationAt(path: string, rule: FieldRule, v: JVal, f: Formats, x: Violation)
    requires x in CheckValue(path, rule, v, f)
    ensures x.path == path && x.rule != NoCustomerIdentifier
  {
  }

  /** Anything but an object is rejected as a whole, with one violation at the top. */
  lemma NonObjectRejected(event: JVal, f: Formats)
    requires !event.JObj?
    ensures |Violations(event, f)| == 1 && Violations(event, f)[0].path == "value"
  {
  }

  /** An absent value breaks its rule exactly when the rule is `.required()`, and then only that. */
  lemma AbsentValueReported(path: string, rule: FieldRule, f: Formats)
    ensures var r := CheckValue(path, rule, JUndefined, f);
            (r == [] <==> rule.StringDefault? || rule.IdentifierNumber? || rule.IdentifierString?) &&
            (r != [] ==> r == [Violation(path, Required)])
  {
  }

  /** Every violation of a field rule names one of the declared fields, under `prefix`. */
  lemma {:induction false} FieldPathDeclared(prefix: string, fields: seq<Field>, m: map<string, JVal>,
                                             f: Formats, x: Violation)
    requires x in CheckFields(prefix, fields, m, f)
    ensures exists j | 0 <= j < |fields| :: x.path == prefix + fields[j].name
    decreases |fields|
  {
    if x in CheckValue(prefix + fields[0].name, fields[0].rule, Get(m, fields[0].name), f) {
      ValueViolationAt(prefix + fields[0].name, fields[0].rule, Get(m, fields[0].name), f, x);
    } else {
      FieldPathDeclared(prefix, fields[1..], m, f, x);
      var j :| 0 <= j < |fields[1..]| && x.path == prefix + fields[1..][j].name;
      assert fields[1..][j] == fields[j + 1];
    }
  }

  /** A violation of an object event names a declared path: never an undeclared key, never the whole value. */
  lemma ViolationPathDeclared(event: JVal, f: Formats, x: Violation)
    requires event.JObj?
    requires x in Violations(event, f)
    ensures DeclaredPath(x.path)
  {
    var m := event.fields;
    var d := Get(m, "data");
    var top := CheckFields("", EventFields, m, f);
    assert Violations(event, f) == top + CheckData(d, f);
    assert x in top || x in CheckData(d, f);
    if x in top {
      FieldPathDeclared("", EventFields, m, f, x);
      var j :| 0 <= j < |EventFields| && x.path == "" + EventFields[j].name;
      assert x.path == EventFields[j].name;
    } else {
      DataPathDeclared(d, f, x);
    }
  }

  /** A violation `data` raises names `data` itself or one of its declared fields. */
  lemma DataPathDeclared(d: JVal, f: Formats, x: Violation)
    requires x in CheckData(d, f)
    ensures x.path == "data" || exists j | 0 <= j < |DataFields| :: x.path == "data." + DataFields[j].name
  {
    if d.JObj? {
      var errs := CheckFields("data.", DataFields, d.fields, f);
      if errs != [] {
        assert CheckData(d, f) == errs;
        FieldPathDeclared("data.", DataFields, d.fields, f, x);
      } else {
        assert CheckData(d, f) == if HasCustomerIdentifier(d.fields) then [] else [Violation("data", NoCustomerIdentifier)];
      }
    }
  }

  lemma EventFieldViolationReported(m: map<string, JVal>, f: Formats, i: nat, v: Violation)
    requires i < |EventFields|
    requires v in CheckValue(EventFields[i].name, EventFields[i].rule, Get(m, EventFields[i].name), f)
    ensures v in Violations(JObj(m), f)
  {
    assert "" + EventFields[i].name == EventFields[i].name;
    FieldViolationCollected("", EventFields, m, f, i, v);
  }

  lemma DataFieldViolationReported(m: map<string, JVal>, dm: map<string, JVal>, f: Formats, i: nat, v: Violation)
    requires Get(m, "data") == JObj(dm)
    requires i < |DataFields|
    requires v in CheckValue("data." + DataFields[i].name, DataFields[i].rule, Get(dm, DataFields[i].name), f)
    ensures v in Violations(JObj(m), f)
  {
    FieldViolationCollected("data.", DataFields, dm, f, i, v);
    DataViolationReported(m, dm, f, v);
  }

  /** A violation of `data`'s field rules is part of the whole report. */
  lemma DataViolationReported(m: map<string, JVal>, dm: map<string, JVal>, f: Formats, v: Violation)
    requires Get(m, "data") == JObj(dm)
    requires v in CheckFields("data.", DataFields, dm, f)
    ensures v in Violations(JObj(m), f)
  {
    assert CheckData(JObj(dm), f) == CheckFields("data.", DataFields, dm, f);
  }

  /** A missing required top-level field is reported by name. */
  lemma MissingRequiredFieldReported(m: map<string, JVal>, f: Formats, k: string)
    requires k in ["specversion", "type", "source", "id", "time", "data"]
    requires Get(m, k) == JUndefined
    ensures Violation(k, Required) in Violations(JObj(m), f)
  {
    if k == "data" {
      assert CheckData(Get(m, "data"), f) == [Violation("data", Required)];
      assert Violations(JObj(m), f) == CheckFields("", EventFields, m, f) + CheckData(Get(m, "data"), f);
    } else {
      var i := if k == "specversion" then 0 else if k == "type" then 1 else if k == "source" then 2
               else if k == "id" then 3 else 4;
      assert EventFields[i].name == k;
      AbsentValueReported(k, EventFields[i].rule, f);
      EventFieldViolationReported(m, f, i, Violation(k, Required));
    }
  }

  /** A missing required field of `data` is reported under its dotted path. */
  lemma MissingRequiredDataFieldReported(m: map<string, JVal>, dm: map<string, JVal>, f: Formats, k: string)
    requires Get(m, "data") == JObj(dm)
    requires k in ["correlationId", "schemeId", "invoiceNumber"]
    requires Get(dm, k) == JUndefined
    ensures Violation("data." + k, Required) in Violations(JObj(m), f)
  {
    if k == "correlationId" {
      DataFieldViolationReported(m, dm, f, 4, Violation("data." + k, Required));
    } else if k == "schemeId" {
      DataFieldViolationReported(m, dm, f, 5, Violation("data." + k, Required));
    } else {
      DataFieldViolationReported(m, dm, f, 6, Violation("data." + k, Required));
    }
  }

  /** A non-empty `id` that is not a UUID is reported as `id`. */
  lemma InvalidIdReported(m: map<string, JVal>, f: Formats, s: string)
    requires Get(m, "id") == JStr(s) && s != "" && !f.isUuid(s)
    ensures Violation("id", MustBeGuid) in Violations(JObj(m), f)
  {
    EventFieldViolationReported(m, f, 3, Violation("id", MustBeGuid));
  }

  /** A non-empty `data.correlationId` that is not a GUID is reported as `data.correlationId`. */
  lemma InvalidCorrelationIdReported(m: map<string, JVal>, dm: map<string, JVal>, f: Formats, s: string)
    requires Get(m, "data") == JObj(dm)
    requires Get(dm, "correlationId") == JStr(s) && s != "" && !f.isUuid(s)
    ensures Violation("data.correlationId", MustBeGuid) in Violations(JObj(m), f)
  {
    assert "data." + DataFields[4].name == "data.correlationId";
    DataFieldViolationReported(m, dm, f, 4, Violation("data.correlationId", MustBeGuid));
  }

  /** `data.schemeId` must be positive: zero or a negative number is reported. */
  lemma NonPositiveSchemeIdReported(m: map<string, JVal>, dm: map<string, JVal>, f: Formats, n: int)
    requires Get(m, "data") == JObj(dm)
    requires Get(dm, "schemeId") == JInt(n) && -MaxSafeInteger <= n <= 0
    ensures Violation("data.schemeId", MustBePositive) in Violations(JObj(m), f)
  {
    assert "data." + DataFields[5].name == "data.schemeId";
    DataFieldViolationReported(m, dm, f, 5, Violation("data.schemeId", MustBePositive));
  }

  /** A `data.schemeId` outside the safe range, such as 2^53, is refused as unsafe before positivity is checked. */
  lemma UnsafeSchemeIdReported(m: map<string, JVal>, dm: map<string, JVal>, f: Formats, n: int)
    requires Get(m, "data") == JObj(dm)
    requires Get(dm, "schemeId") == JInt(n) && (n < -MaxSafeInteger || n > MaxSafeInteger)
    ensures Violation("data.schemeId", MustBeSafe) in Violations(JObj(m), f)
  {
    assert "data." + DataFields[5].name == "data.schemeId";
    DataFieldViolationReported(m, dm, f, 5, Violation("data.schemeId", MustBeSafe));
  }

  /** `frn` and `sbi` accept exactly: absent, `null`, `''` or a positive safe integer. */
  lemma IdentifierNumberAccepts(path: string, v: JVal, f: Formats)
    ensures CheckValue(path, IdentifierNumber, v, f) == [] <==>
            v == JUndefined || v == JNull || v == JStr("") || (v.JInt? && 0 < v.n <= MaxSafeInteger)
  {
  }

  /** `trader` and `vendor` accept exactly: absent, `null` or any string, `''` included. */
  lemma IdentifierStringAccepts(path: string, v: JVal, f: Formats)
    ensures CheckValue(path, IdentifierString, v, f) == [] <==> v == JUndefined || v == JNull || v.JStr?
  {
  }

  /** With `data`'s fields all valid and all four identifiers falsy, the custom rule rejects the event. */
  lemma NoIdentifierRejected(m: map<string, JVal>, dm: map<string, JVal>, f: Formats)
    requires Get(m, "data") == JObj(dm)
    requires CheckFields("data.", DataFields, dm, f) == []
    requires !Truthy(Get(dm, "frn")) && !Truthy(Get(dm, "sbi"))
    requires !Truthy(Get(dm, "trader")) && !Truthy(Get(dm, "vendor"))
    ensures Violation("data", NoCustomerIdentifier) in Violations(JObj(m), f)
    ensures Validate(JObj(m), f).Failure?
  {
    assert CheckData(Get(m, "data"), f) == [Violation("data", NoCustomerIdentifier)];
  }

  /** One truthy identifier among the four is enough for the custom rule. */
  lemma AnyIdentifierSatisfiesRule(m: map<string, JVal>, dm: map<string, JVal>, f: Formats)
    requires Get(m, "data") == JObj(dm)
    requires HasCustomerIdentifier(dm)
    ensures Violation("data", NoCustomerIdentifier) !in Violations(JObj(m), f)
  {
    FieldRulesNeverCustom("", EventFields, m, f);
    FieldRulesNeverCustom("data.", DataFields, dm, f);
  }

  /** The custom rule is not run while one of `data`'s own fields is invalid. */
  lemma CustomRuleWaitsForFieldRules(m: map<string, JVal>, dm: map<string, JVal>, f: Formats)
    requires Get(m, "data") == JObj(dm)
    requires CheckFields("data.", DataFields, dm, f) != []
    ensures Violation("data", NoCustomerIdentifier) !in Violations(JObj(m), f)
  {
    FieldRulesNeverCustom("", EventFields, m, f);
    FieldRulesNeverCustom("data.", DataFields, dm, f);
  }

  /** `data` passes exactly when it is an object whose fields pass and which has a customer identifier. */
  lemma DataPassesIff(v: JVal, f: Formats)
    ensures CheckData(v, f) == [] <==>
            v.JObj? && CheckFields("data.", DataFields, v.fields, f) == [] && HasCustomerIdentifier(v.fields)
  {
  }

  /** An event passes exactly when every field rule passes and `data` has a customer identifier. */
  lemma ValidIff(event: JVal, f: Formats)
    ensures Validate(event, f).Success? <==>
            event.JObj? &&
            CheckFields("", EventFields, event.fields, f) == [] &&
            Get(event.fields, "data").JObj? &&
            CheckFields("data.", DataFields, Get(event.fields, "data").fields, f) == [] &&
            HasCustomerIdentifier(Get(event.fields, "data").fields)
  {
    if event.JObj? {
      var m := event.fields;
      assert Violations(event, f) == CheckFields("", EventFields, m, f) + CheckData(Get(m, "data"), f);
      DataPassesIff(Get(m, "data"), f);
    }
  }

  lemma {:induction false} DefaultOfIn(fields: seq<Field>, k: string)
    requires DefaultOf(fields, k).Some?
    ensures k in Names(fields)
    decreases |fields|
  {
    if fields[0].name != k || !fields[0].rule.StringDefault? {
      DefaultOfIn(fields[1..], k);
      var i :| 0 <= i < |fields[1..]| && fields[1..][i].name == k;
      assert fields[i + 1].name == k;
    }
  }

  /** `subject` and `datacontenttype` default to "None". */
  lemma EventDefaults(k: string)
    requires k in ["subject", "datacontenttype"]
    ensures DefaultOf(EventFields, k) == Some("None")
  {
    assert EventFields[5].name == "subject" && EventFields[6].name == "datacontenttype";
    assert EventFields[5..] == [EventFields[5], EventFields[6]];
    assert DefaultOf(EventFields[7..], k) == None;
  }

  /** No other top-level key has a default. */
  lemma OnlyTwoEventDefaults(k: string)
    requires k !in ["subject", "datacontenttype"]
    ensures DefaultOf(EventFields, k) == None
  {
  }

  /** No key of `data` has a default. */
  lemma NoDataDefaults(k: string)
    ensures DefaultOf(DataFields, k) == None
  {
  }

  lemma DataIsNotAnEventField()
    ensures "data" !in Names(EventFields)
  {
    forall i | 0 <= i < |EventFields| ensures EventFields[i].name != "data" {
    }
  }

  lemma SuccessIsNormalized(event: JVal, f: Formats)
    requires Validate(event, f).Success?
    ensures event.JObj? && Validate(event, f).value == Normalized(event)
  {
  }

  /** Looking up a key of a pruned object. */
  lemma PrunedAt(m: map<string, JVal>, fields: seq<Field>, k: string)
    requires k in Names(fields)
    ensures Get(m, k) != JUndefined ==> k in Pruned(m, fields) && Pruned(m, fields)[k] == m[k]
    ensures Get(m, k) == JUndefined && DefaultOf(fields, k).Some? ==>
              k in Pruned(m, fields) && Pruned(m, fields)[k] == JStr(DefaultOf(fields, k).value)
  {
  }

  /** On success `subject` and `datacontenttype` keep their value, or become "None" when absent. */
  lemma DefaultsApplied(event: JVal, f: Formats, k: string)
    requires Validate(event, f).Success?
    requires k in ["subject", "datacontenttype"]
    ensures var value := Validate(event, f).value.fields;
            k in value &&
            value[k] == if Get(event.fields, k) == JUndefined then JStr("None") else event.fields[k]
  {
    SuccessIsNormalized(event, f);
    NormalizedDefault(event.fields, k);
  }

  /** `subject` and `datacontenttype` in the normalized copy of an object. */
  lemma NormalizedDefault(m: map<string, JVal>, k: string)
    requires k in ["subject", "datacontenttype"]
    ensures var value := Normalized(JObj(m)).fields;
            k in value && value[k] == if Get(m, k) == JUndefined then JStr("None") else m[k]
  {
    EventDefaults(k);
    PrunedDefault(m, EventFields, k, "None");
    var pruned := Pruned(m, EventFields);
    assert Normalized(JObj(m)).fields == pruned["data" := JObj(Pruned(FieldsOf(Get(m, "data")), DataFields))];
    assert k != "data";
  }

  /** A key with a default is always in the pruned copy: its own value, or the default when absent. */
  lemma PrunedDefault(m: map<string, JVal>, fields: seq<Field>, k: string, d: string)
    requires DefaultOf(fields, k) == Some(d)
    ensures k in Pruned(m, fields)
    ensures Pruned(m, fields)[k] == if Get(m, k) == JUndefined then JStr(d) else m[k]
  {
    DefaultOfIn(fields, k);
    PrunedAt(m, fields, k);
  }

  /** On success every declared top-level key that carried a value keeps that value. */
  lemma DeclaredValuesKept(event: JVal, f: Formats, k: string)
    requires Validate(event, f).Success?
    requires k in Names(EventFields) && Get(event.fields, k) != JUndefined
    ensures var value := Validate(event, f).value.fields;
            k in value && value[k] == event.fields[k]
  {
    SuccessIsNormalized(event, f);
    DataIsNotAnEventField();
    PrunedAt(event.fields, EventFields, k);
  }

  /** On success every declared key of `data` that carried a value keeps that value. */
  lemma DeclaredDataValuesKept(event: JVal, f: Formats, k: string)
    requires Validate(event, f).Success?
    requires k in Names(DataFields) && Get(FieldsOf(Get(event.fields, "data")), k) != JUndefined
    ensures var value := Validate(event, f).value.fields;
            "data" in value && value["data"].JObj? && k in value["data"].fields &&
            value["data"].fields[k] == FieldsOf(Get(event.fields, "data"))[k]
  {
    SuccessIsNormalized(event, f);
    PrunedAt(FieldsOf(Get(event.fields, "data")), DataFields, k);
  }

  /** On success no undeclared key survives (stripUnknown), at the top or in `data`. */
  lemma UnknownKeysStripped(event: JVal, f: Formats)
    requires Validate(event, f).Success?
    ensures var value := Validate(event, f).value.fields;
            value.Keys <= Names(EventFields) + {"data"} &&
            "data" in value && value["data"].JObj? && value["data"].fields.Keys <= Names(DataFields)
  {
    SuccessIsNormalized(event, f);
  }

  /** An undeclared top-level key changes nothing in the outcome (allowUnknown). */
  lemma UnknownKeyTolerated(m: map<string, JVal>, f: Formats, k: string, v: JVal)
    requires k !in Names(EventFields) && k != "data"
    ensures Violations(JObj(m[k := v]), f) == Violations(JObj(m), f)
  {
    FieldRulesIgnoreUndeclared("", EventFields, m, k, v, f);
    assert Get(m[k := v], "data") == Get(m, "data");
    ViolationsDependOnFieldsAndData(m[k := v], m, f);
  }

  /** The report depends only on the top-level field rules' result and on `data`. */
  lemma ViolationsDependOnFieldsAndData(m1: map<string, JVal>, m2: map<string, JVal>, f: Formats)
    requires CheckFields("", EventFields, m1, f) == CheckFields("", EventFields, m2, f)
    requires Get(m1, "data") == Get(m2, "data")
    ensures Violations(JObj(m1), f) == Violations(JObj(m2), f)
  {
  }

  /** Field rules ignore any key they do not declare. */
  lemma FieldRulesIgnoreUndeclared(prefix: string, fields: seq<Field>, m: map<string, JVal>, k: string, v: JVal,
                                   f: Formats)
    requires k !in Names(fields)
    ensures CheckFields(prefix, fields, m[k := v], f) == CheckFields(prefix, fields, m, f)
  {
    forall n | n in Names(fields) ensures Get(m[k := v], n) == Get(m, n) {
      assert n != k;
    }
    FieldRulesReadOnlyDeclaredKeys(prefix, fields, m[k := v], m, f);
  }

  lemma IdentifiersAreDataFields()
    ensures "frn" in Names(DataFields) && "sbi" in Names(DataFields)
    ensures "trader" in Names(DataFields) && "vendor" in Names(DataFields)
  {
    assert DataFields[0].name == "frn" && DataFields[1].name == "sbi";
    assert DataFields[2].name == "trader" && DataFields[3].name == "vendor";
  }

  lemma CheckDataIgnoresUnknownKey(dm: map<string, JVal>, f: Formats, k: string, v: JVal)
    requires k !in Names(DataFields)
    ensures CheckData(JObj(dm[k := v]), f) == CheckData(JObj(dm), f)
  {
    FieldRulesIgnoreUndeclared("data.", DataFields, dm, k, v, f);
    IdentifierRuleIgnoresUnknownKey(dm, k, v);
  }

  /** The custom rule reads only the four declared identifiers. */
  lemma IdentifierRuleIgnoresUnknownKey(dm: map<string, JVal>, k: string, v: JVal)
    requires k !in Names(DataFields)
    ensures HasCustomerIdentifier(dm[k := v]) == HasCustomerIdentifier(dm)
  {
    IdentifiersAreDataFields();
    assert Get(dm[k := v], "frn") == Get(dm, "frn");
    assert Get(dm[k := v], "sbi") == Get(dm, "sbi");
    assert Get(dm[k := v], "trader") == Get(dm, "trader");
    assert Get(dm[k := v], "vendor") == Get(dm, "vendor");
  }

  /** The top-level field rules do not read `data`. */
  lemma EventFieldsIgnoreData(m: map<string, JVal>, d: JVal, f: Formats)
    ensures CheckFields("", EventFields, m["data" := d], f) == CheckFields("", EventFields, m, f)
  {
    DataIsNotAnEventField();
    FieldRulesIgnoreUndeclared("", EventFields, m, "data", d, f);
  }

  /** An undeclared key inside `data` changes nothing in the outcome either. */
  lemma UnknownDataKeyTolerated(m: map<string, JVal>, dm: map<string, JVal>, f: Formats, k: string, v: JVal)
    requires Get(m, "data") == JObj(dm)
    requires k !in Names(DataFields)
    ensures Violations(JObj(m["data" := JObj(dm[k := v])]), f) == Violations(JObj(m), f)
  {
    EventFieldsIgnoreData(m, JObj(dm[k := v]), f);
    CheckDataIgnoresUnknownKey(dm, f, k, v);
  }

  lemma OccursInLeft(a: string, b: string, j: int, x: string)
    requires OccursAt(a, j, x)
    ensures OccursAt(a + b, j, x)
  {
    assert (a + b)[j..j + |x|] == a[j..j + |x|];
  }

  lemma OccursInRight(a: string, b: string, j: int, x: string)
    requires OccursAt(b, j, x)
    ensures OccursAt(a + b, |a| + j, x)
  {
    assert (a + b)[|a| + j..|a| + j + |x|] == b[j..j + |x|];
  }

  lemma ContainsPrefix(s: string, x: string, y: string)
    requires Contains(s, x + y)
    ensures Contains(s, x)
  {
    var i :| 0 <= i <= |s| && OccursAt(s, i, x + y);
    assert s[i..i + |x|] == (x + y)[..|x|] == x;
    assert OccursAt(s, i, x);
  }

  /** Every line is part of the joined text. */
  lemma {:induction false} JoinHoldsEveryLine(lines: seq<string>, i: nat)
    requires i < |lines|
    ensures Contains(Join(lines), lines[i])
    decreases |lines|
  {
    var head := lines[0];
    assert OccursAt(head, 0, head);
    if |lines| == 1 {
      assert Join(lines) == head;
    } else if i == 0 {
      OccursInLeft(head, ". " + Join(lines[1..]), 0, head);
      assert head + ". " + Join(lines[1..]) == head + (". " + Join(lines[1..]));
    } else {
      JoinHoldsEveryLine(lines[1..], i - 1);
      assert lines[1..][i - 1] == lines[i];
      var j :| 0 <= j <= |Join(lines[1..])| && OccursAt(Join(lines[1..]), j, lines[i]);
      OccursInRight(head + ". ", Join(lines[1..]), j, lines[i]);
      assert Join(lines) == (head + ". ") + Join(lines[1..]);
    }
  }

  /** Joi's message holds the rendered text of every violation it reports. */
  lemma MessageNamesEveryViolation(vs: seq<Violation>, i: nat)
    requires i < |vs|
    ensures Contains(Message(vs), Render(vs[i]))
  {
    JoinHoldsEveryLine(Lines(vs), i);
  }

  // ---------------------------------------------------------------------
  // One violation per path, and what that means for Joi's de-duplication.
  // ---------------------------------------------------------------------

  /** No two entries of `xs` are equal. */
  predicate Distinct<T(==)>(xs: seq<T>) {
    forall i, j | 0 <= i < j < |xs| :: xs[i] != xs[j]
  }

  /** No two violations of a report share a path. */
  predicate PathsDistinct(vs: seq<Violation>) {
    forall i, j | 0 <= i < j < |vs| :: vs[i].path != vs[j].path
  }

  /** No two fields of a list share a name. */
  predicate NamesDistinct(fields: seq<Field>) {
    forall i, j | 0 <= i < j < |fields| :: fields[i].name != fields[j].name
  }

  /** `[...new Set(lines)]`: each line once, where it first occurs. */
  function Dedup(lines: seq<string>): (d: seq<string>)
    ensures forall x :: x in d <==> x in lines
    ensures Distinct(d)
    decreases |lines|
  {
    if lines == [] then []
    else
      var rest := Dedup(lines[..|lines| - 1]);
      assert forall x :: x in lines <==> x in lines[..|lines| - 1] || x == lines[|lines| - 1];
      if lines[|lines| - 1] in rest then rest else rest + [lines[|lines| - 1]]
  }

  /** De-duplicating lines that are already distinct changes nothing. */
  lemma {:induction false} DedupKeepsDistinct(lines: seq<string>)
    requires Distinct(lines)
    ensures Dedup(lines) == lines
    decreases |lines|
  {
    if lines != [] {
      var init := lines[..|lines| - 1];
      DedupKeepsDistinct(init);
      assert lines[|lines| - 1] !in init by {
        forall i | 0 <= i < |init| ensures init[i] != lines[|lines| - 1] {
          assert init[i] == lines[i];
        }
      }
      assert init + [lines[|lines| - 1]] == lines;
    }
  }

  /** The declared names of each object are pairwise different, contain no `.` and no `"`. */
  lemma DeclaredNamesWellFormed()
    ensures NamesDistinct(EventFields) && NamesDistinct(DataFields)
    ensures forall j | 0 <= j < |EventFields| :: '.' !in EventFields[j].name && '"' !in EventFields[j].name
    ensures forall j | 0 <= j < |DataFields| :: Plain(DataFields[j].name)
  {
    EventNamesDistinct();
    DataNamesDistinct();
    EventNamesPlain();
    DataNamesPlain();
  }

  /** A name that holds neither a `.` nor a `"`. */
  predicate Plain(name: string) {
    '.' !in name && '"' !in name
  }

  /** No top-level name holds a `.` or a `"`. */
  lemma EventNamesPlain()
    ensures forall j | 0 <= j < |EventFields| :: Plain(EventFields[j].name)
  {
    forall j | 0 <= j < |EventFields| ensures Plain(EventFields[j].name) {
      if j == 0 { assert Plain("specversion"); }
      else if j == 1 { assert Plain("type"); }
      else if j == 2 { assert Plain("source"); }
      else if j == 3 { assert Plain("id"); }
      else if j == 4 { assert Plain("time"); }
      else if j == 5 { assert Plain("subject"); }
      else { assert Plain("datacontenttype"); }
    }
  }

  /** No name of `data` holds a `.` or a `"`. */
  lemma DataNamesPlain()
    ensures forall j | 0 <= j < |DataFields| :: Plain(DataFields[j].name)
  {
    forall j | 0 <= j < |DataFields| ensures Plain(DataFields[j].name) {
      if j == 0 { assert Plain("frn"); }
      else if j == 1 { assert Plain("sbi"); }
      else if j == 2 { assert Plain("trader"); }
      else if j == 3 { assert Plain("vendor"); }
      else if j == 4 { assert Plain("correlationId"); }
      else if j == 5 { assert Plain("schemeId"); }
      else { assert Plain("invoiceNumber"); }
    }
  }

  /** The top-level names already differ in their second character. */
  lemma EventNamesDistinct()
    ensures NamesDistinct(EventFields)
  {
    var second := seq(|EventFields|, i requires 0 <= i < |EventFields| => EventFields[i].name[1]);
    assert second == ['p', 'y', 'o', 'd', 'i', 'u', 'a'];
    forall i, j | 0 <= i < j < |EventFields| ensures EventFields[i].name != EventFields[j].name {
      assert second[i] != second[j];
    }
  }

  /** The names of `data` differ in their length or their first character. */
  lemma DataNamesDistinct()
    ensures NamesDistinct(DataFields)
  {
    var key := seq(|DataFields|, i requires 0 <= i < |DataFields| => (|DataFields[i].name|, DataFields[i].name[0]));
    assert key == [(3, 'f'), (3, 's'), (6, 't'), (6, 'v'), (13, 'c'), (8, 's'), (13, 'i')];
    forall i, j | 0 <= i < j < |DataFields| ensures DataFields[i].name != DataFields[j].name {
      assert key[i] != key[j];
    }
  }

  /** Distinct names give one violation per field at most: no two share a path. */
  lemma {:induction false} FieldPathsDistinct(prefix: string, fields: seq<Field>, m: map<string, JVal>, f: Formats)
    requires NamesDistinct(fields)
    ensures PathsDistinct(CheckFields(prefix, fields, m, f))
    decreases |fields|
  {
    if fields != [] {
      var tail := fields[1..];
      assert NamesDistinct(tail) by {
        forall i, j | 0 <= i < j < |tail| ensures tail[i].name != tail[j].name {
          assert tail[i] == fields[i + 1] && tail[j] == fields[j + 1];
        }
      }
      FieldPathsDistinct(prefix, tail, m, f);
      var p := prefix + fields[0].name;
      var h := CheckValue(p, fields[0].rule, Get(m, fields[0].name), f);
      var t := CheckFields(prefix, tail, m, f);
      var r := h + t;
      assert r == CheckFields(prefix, fields, m, f);
      forall i, j | 0 <= i < j < |r| ensures r[i].path != r[j].path {
        if i < |h| {
          ValueViolationAt(p, fields[0].rule, Get(m, fields[0].name), f, r[i]);
          assert r[j] == t[j - |h|];
          FieldPathDeclared(prefix, tail, m, f, r[j]);
          var k :| 0 <= k < |tail| && r[j].path == prefix + tail[k].name;
          assert tail[k] == fields[k + 1];
          assert (prefix + fields[0].name)[|prefix|..] == fields[0].name != tail[k].name == (prefix + tail[k].name)[|prefix|..];
        } else {
          assert r[i] == t[i - |h|] && r[j] == t[j - |h|];
        }
      }
    }
  }

  /** `data` reports one violation per path at most. */
  lemma DataPathsDistinct(d: JVal, f: Formats)
    ensures PathsDistinct(CheckData(d, f))
  {
    if d.JObj? && CheckFields("data.", DataFields, d.fields, f) != [] {
      DeclaredNamesWellFormed();
      FieldPathsDistinct("data.", DataFields, d.fields, f);
    }
  }

  /** Two reports with distinct paths, and no path in common, join into one with distinct paths. */
  lemma PathsDistinctConcat(a: seq<Violation>, b: seq<Violation>)
    requires PathsDistinct(a) && PathsDistinct(b)
    requires forall x, y | x in a && y in b :: x.path != y.path
    ensures PathsDistinct(a + b)
  {
    var r := a + b;
    forall i, j | 0 <= i < j < |r| ensures r[i].path != r[j].path {
      if j < |a| {
        assert r[i] == a[i] && r[j] == a[j];
      } else if i >= |a| {
        assert r[i] == b[i - |a|] && r[j] == b[j - |a|];
      } else {
        assert r[i] in a && r[j] == b[j - |a|] && r[j] in b;
      }
    }
  }

  /** A top-level field's path is a plain name other than `data`. */
  lemma TopPathShape(m: map<string, JVal>, f: Formats, x: Violation)
    requires x in CheckFields("", EventFields, m, f)
    ensures x.path != "data" && '.' !in x.path
  {
    FieldPathDeclared("", EventFields, m, f, x);
    var k :| 0 <= k < |EventFields| && x.path == "" + EventFields[k].name;
    assert x.path == EventFields[k].name;
    EventNamesPlain();
    assert Plain(EventFields[k].name);
    DataIsNotAnEventField();
  }

  /** A path `data` reports is `data` itself or has a `.` after `data`. */
  lemma DataPathShape(d: JVal, f: Formats, y: Violation)
    requires y in CheckData(d, f)
    ensures y.path == "data" || (|y.path| > 4 && y.path[4] == '.')
  {
    DataPathDeclared(d, f, y);
  }

  /** A top-level field's path is never one that `data` reports. */
  lemma TopAndDataPathsDiffer(m: map<string, JVal>, f: Formats, x: Violation, y: Violation)
    requires x in CheckFields("", EventFields, m, f)
    requires y in CheckData(Get(m, "data"), f)
    ensures x.path != y.path
  {
    TopPathShape(m, f, x);
    DataPathShape(Get(m, "data"), f, y);
    if y.path != "data" {
      assert y.path[4] in y.path;
    }
  }

  /** The whole report holds one violation per declared path at most. */
  lemma ViolationPathsDistinct(event: JVal, f: Formats)
    ensures PathsDistinct(Violations(event, f))
  {
    if event.JObj? {
      var m := event.fields;
      var top := CheckFields("", EventFields, m, f);
      var data := CheckData(Get(m, "data"), f);
      assert Violations(event, f) == top + data;
      EventNamesDistinct();
      FieldPathsDistinct("", EventFields, m, f);
      DataPathsDistinct(Get(m, "data"), f);
      forall x, y | x in top && y in data ensures x.path != y.path {
        TopAndDataPathsDiffer(m, f, x, y);
      }
      PathsDistinctConcat(top, data);
    }
  }

  /** The parts of a rendered line: a quote, the path, a quote. */
  lemma RenderShape(v: Violation)
    ensures |Render(v)| > |v.path| + 1
    ensures Render(v)[1..|v.path| + 1] == v.path && Render(v)[|v.path| + 1] == '"'
  {
    var s := Render(v);
    assert s == "\"" + v.path + ("\" " + RuleText(v.rule));
  }

  /** Paths without a quote render to different lines when they differ. */
  lemma RenderInjective(v1: Violation, v2: Violation)
    requires '"' !in v1.path && '"' !in v2.path
    requires v1.path != v2.path
    ensures Render(v1) != Render(v2)
  {
    RenderShape(v1);
    RenderShape(v2);
    var n1, n2 := |v1.path|, |v2.path|;
    if n1 < n2 {
      assert v2.path[n1] in v2.path;
      assert Render(v2)[n1 + 1] == v2.path[n1] != '"' == Render(v1)[n1 + 1];
    } else if n2 < n1 {
      assert v1.path[n2] in v1.path;
      assert Render(v1)[n2 + 1] == v1.path[n2] != '"' == Render(v2)[n2 + 1];
    } else {
      assert Render(v1)[1..n1 + 1] != Render(v2)[1..n2 + 1];
    }
  }

  /** A declared path holds no quote. */
  lemma DeclaredPathHasNoQuote(p: string)
    requires DeclaredPath(p)
    ensures '"' !in p
  {
    if j :| 0 <= j < |EventFields| && p == EventFields[j].name {
      EventNamesPlain();
      assert Plain(EventFields[j].name);
    } else if j :| 0 <= j < |DataFields| && p == "data." + DataFields[j].name {
      DataNamesPlain();
      assert Plain(DataFields[j].name);
    }
  }

  /** No violation's path contains a quote. */
  lemma PathHasNoQuote(event: JVal, f: Formats, x: Violation)
    requires x in Violations(event, f)
    ensures '"' !in x.path
  {
    if event.JObj? {
      ViolationPathDeclared(event, f, x);
      DeclaredPathHasNoQuote(x.path);
    }
  }

  /** The rendered lines of a report are pairwise different. */
  lemma LinesDistinct(event: JVal, f: Formats)
    ensures Distinct(Lines(Violations(event, f)))
  {
    var vs := Violations(event, f);
    ViolationPathsDistinct(event, f);
    forall i, j | 0 <= i < j < |vs| ensures Lines(vs)[i] != Lines(vs)[j] {
      PathHasNoQuote(event, f, vs[i]);
      PathHasNoQuote(event, f, vs[j]);
      RenderInjective(vs[i], vs[j]);
    }
  }

  /** Joi's message, with repeated lines dropped, is the plain join of the report. */
  lemma MessageNeedsNoDedup(event: JVal, f: Formats)
    ensures Join(Dedup(Lines(Violations(event, f)))) == Message(Violations(event, f))
  {
    LinesDistinct(event, f);
    DedupKeepsDistinct(Lines(Violations(event, f)));
  }
}
