/**
 * `validateEvent`: runs the schema with every violation collected and
 * unknown keys tolerated, and turns a schema error into a
 * VALIDATION-tagged error. On success it returns nothing: the defaulted,
 * pruned value the schema produced is dropped.
 */
module Validate {
  import opened Wrappers
  import opened Json
  import opened Errors
  import Schema

  const InvalidPrefix: string := "Event is invalid, "

  /** `validateEvent(event, eventType)`: `Pass` when it returns, `Fail(e)` when it throws `e`. */
  function ValidateEvent(event: JVal, eventType: string, f: Schema.Formats): (r: Outcome<Error>)
    ensures r.Fail? <==> Schema.Violations(event, f) != []
    ensures r.Fail? ==> r.error.category == Validation
    ensures r.Fail? ==> r.error.message == InvalidPrefix + Schema.Message(Schema.Violations(event, f))
  {
    match Schema.Validate(event, f)
    case Failure(vs) => Fail(Error(InvalidPrefix + Schema.Message(vs), Validation))
    case Success(_) => Pass
  }

  /** The `eventType` argument is never read. */
  lemma EventTypeIgnored(event: JVal, t1: string, t2: string, f: Schema.Formats)
    ensures ValidateEvent(event, t1, f) == ValidateEvent(event, t2, f)
  {
  }

  /** The thrown message states every violation, field and rule, after the fixed prefix. */
  lemma InvalidMessageNamesField(event: JVal, t: string, f: Schema.Formats, v: Schema.Violation)
    requires v in Schema.Violations(event, f)
    ensures ValidateEvent(event, t, f).Fail?
    ensures Schema.Contains(ValidateEvent(event, t, f).error.message, Schema.Render(v))
  {
    var vs := Schema.Violations(event, f);
    var i :| 0 <= i < |vs| && vs[i] == v;
    Schema.MessageNamesEveryViolation(vs, i);
    var j :| 0 <= j <= |Schema.Message(vs)| && Schema.OccursAt(Schema.Message(vs), j, Schema.Render(v));
    Schema.OccursInRight(InvalidPrefix, Schema.Message(vs), j, Schema.Render(v));
  }

  /** An event missing a required top-level field is rejected with a message naming it. */
  lemma MissingFieldRejected(m: map<string, JVal>, t: string, f: Schema.Formats, k: string)
    requires k in ["specversion", "type", "source", "id", "time", "data"]
    requires Get(m, k) == JUndefined
    ensures ValidateEvent(JObj(m), t, f).Fail?
    ensures ValidateEvent(JObj(m), t, f).error.category == Validation
    ensures Schema.Contains(ValidateEvent(JObj(m), t, f).error.message, "\"" + k + "\" is required")
  {
    Schema.MissingRequiredFieldReported(m, f, k);
    InvalidMessageNamesField(JObj(m), t, f, Schema.Violation(k, Schema.Required));
    Schema.RenderRequired(k);
  }

  /** A payment event without any truthy customer identifier is rejected. */
  lemma NoCustomerIdentifierRejected(m: map<string, JVal>, dm: map<string, JVal>, t: string, f: Schema.Formats)
    requires Get(m, "data") == JObj(dm)
    requires Schema.CheckFields("data.", Schema.DataFields, dm, f) == []
    requires !Schema.HasCustomerIdentifier(dm)
    ensures ValidateEvent(JObj(m), t, f).Fail?
    ensures Schema.Contains(ValidateEvent(JObj(m), t, f).error.message,
                            Schema.Quoted("data") + " " + Schema.CustomRuleText)
  {
    Schema.NoIdentifierRejected(m, dm, f);
    var v := Schema.Violation("data", Schema.NoCustomerIdentifier);
    InvalidMessageNamesField(JObj(m), t, f, v);
    Schema.RenderNoCustomerIdentifier();
    Schema.ContainsPrefix(ValidateEvent(JObj(m), t, f).error.message,
                          Schema.Quoted("data") + " " + Schema.CustomRuleText, " because ");
  }
}
