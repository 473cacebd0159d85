/**
 * `processEvent`: parse the raw message, classify the event's `type`, and
 * for a payment event validate it and publish the parsed event; other
 * categories are only logged as skipped. Nothing is caught: an error from
 * any step is the error of the whole call.
 *
 * The pipeline is stated over its collaborators (`parseEvent`,
 * `validateEvent`, `publishEvent`), given as ports; `AdapterPorts` binds the
 * validator to the modelled `Validate.ValidateEvent`. The calls made and the
 * info lines logged are returned as a trace.
 */
module Process {
  import opened Wrappers
  import opened Json
  import opened Errors
  import opened EventTypes
  import Schema
  import Validate

  const PublishedLog: string := "Event successfully published to FDM"
  const SkippedLog: string := "Skipping unsupported event type"

  /** The calls `processEvent` makes, and its info log lines `logger.info({ id, type }, message)`. */
  datatype Call =
    | ParseCall(raw: JVal)
    | ClassifyCall(typeValue: JVal)
    | ValidateCall(event: JVal, eventType: string)
    | PublishCall(event: JVal)
    | LogInfo(id: JVal, typeValue: JVal, message: string)

  /** How a call that did not throw ended. */
  datatype Processed = Published(event: JVal) | Skipped(category: EventType)

  datatype Run = Run(calls: seq<Call>, result: Result<Processed, Error>)

  /**
   * The collaborators: `parseEvent` (the event, or the error it throws),
   * `validateEvent` and `publishEvent` (each returns or throws).
   */
  datatype Ports = Ports(
    parse: JVal -> Result<JVal, Error>,
    validate: (JVal, string) -> Outcome<Error>,
    publish: JVal -> Outcome<Error>)

  /** The ports as `process.js` wires them: the adapter's own `validateEvent` over the payment schema. */
  function AdapterPorts(parse: JVal -> Result<JVal, Error>, publish: JVal -> Outcome<Error>, f: Schema.Formats): (p: Ports)
    ensures p.parse == parse && p.publish == publish
    ensures forall e, t :: p.validate(e, t) == Validate.ValidateEvent(e, t, f)
  {
    Ports(parse, (e, t) => Validate.ValidateEvent(e, t, f), publish)
  }

  function TypeError(message: string): (e: Error)
    ensures e.category == Untagged
  {
    Error("TypeError: " + message, Untagged)
  }

  /** Evaluating `event.type`: reading a property of `undefined` or `null` throws. */
  function ReadType(event: JVal): (r: Result<JVal, Error>)
    ensures r.Failure? <==> event == JUndefined || event == JNull
    ensures r.Failure? ==> r.error.category == Untagged
    ensures event.JObj? ==> r == Success(Get(event.fields, "type"))
    ensures !event.JObj? && event != JUndefined && event != JNull ==> r == Success(JUndefined)
  {
    match event
    case JUndefined => Failure(TypeError("Cannot read properties of undefined (reading 'type')"))
    case JNull => Failure(TypeError("Cannot read properties of null (reading 'type')"))
    case JObj(m) => Success(Get(m, "type"))
    case _ => Success(JUndefined)
  }

  /** `getEventType(type)` on whatever `event.type` held: only a string has `startsWith`. */
  function Classify(t: JVal): (r: Result<EventType, Error>)
    ensures r.Success? ==> t.JStr? && StartsWith(t.s, Prefix(r.value))
    ensures t.JStr? ==> r == GetEventType(t.s)
    ensures !t.JStr? ==> r.Failure? && r.error.category == Untagged
  {
    match t
    case JStr(s) => GetEventType(s)
    case JUndefined => Failure(TypeError("Cannot read properties of undefined (reading 'startsWith')"))
    case JNull => Failure(TypeError("Cannot read properties of null (reading 'startsWith')"))
    case _ => Failure(TypeError("type.startsWith is not a function"))
  }

  /** The event `parseEvent` returns, or undefined when it throws. */
  function ParsedEvent(raw: JVal, ports: Ports): JVal {
    match ports.parse(raw)
    case Success(event) => event
    case Failure(_) => JUndefined
  }

  /** What `event.type` evaluated to, or undefined when evaluating it threw. */
  function TypeValue(raw: JVal, ports: Ports): JVal {
    match ReadType(ParsedEvent(raw, ports))
    case Success(t) => t
    case Failure(_) => JUndefined
  }

  /** `processEvent(rawEvent)`. */
  function ProcessEvent(raw: JVal, ports: Ports): (run: Run)
    ensures |run.calls| >= 1 && run.calls[0] == ParseCall(raw)
    ensures ports.parse(raw).Failure? ==> run == Run([ParseCall(raw)], Failure(ports.parse(raw).error))
  {
    match ports.parse(raw)
    case Failure(e) => Run([ParseCall(raw)], Failure(e))
    case Success(event) =>
      match ReadType(event)
      case Failure(e) => Run([ParseCall(raw)], Failure(e))
      case Success(t) =>
        var classified := [ParseCall(raw), ClassifyCall(t)];
        var id := Get(Schema.FieldsOf(event), "id");
        match Classify(t)
        case Failure(e) => Run(classified, Failure(e))
        case Success(c) =>
          if c == Payment then
            var validated := classified + [ValidateCall(event, Name(Payment))];
            match ports.validate(event, Name(Payment))
            case Fail(e) => Run(validated, Failure(e))
            case Pass =>
              var published := validated + [PublishCall(event)];
              match ports.publish(event)
              case Fail(e) => Run(published, Failure(e))
              case Pass => Run(published + [LogInfo(id, t, PublishedLog)], Success(Published(event)))
          else
            Run(classified + [LogInfo(id, t, SkippedLog)], Success(Skipped(c)))
  }

  /**
   * The steps run in `processEvent`'s order and a run takes one of five shapes:
   * it stops at parse or classify, skips a non-payment event, stops at
   * validate, stops at publish, or publishes and logs.
   */
  lemma StepsInOrder(raw: JVal, ports: Ports)
    ensures var run := ProcessEvent(raw, ports);
            var event := ParsedEvent(raw, ports);
            var t := TypeValue(raw, ports);
            var id := Get(Schema.FieldsOf(event), "id");
            var prefix := [ParseCall(raw), ClassifyCall(t)];
            || (run.calls <= prefix && run.result.Failure? &&
                (ports.parse(raw).Failure? || ReadType(event).Failure? || Classify(t).Failure?))
            || (ports.parse(raw).Success? && ReadType(event).Success? &&
                Classify(t).Success? && Classify(t).value != Payment &&
                run == Run(prefix + [LogInfo(id, t, SkippedLog)], Success(Skipped(Classify(t).value))))
            || (ports.parse(raw).Success? && ReadType(event).Success? && Classify(t) == Success(Payment) &&
                var v := ports.validate(event, "payment");
                || (v.Fail? && run == Run(prefix + [ValidateCall(event, "payment")], Failure(v.error)))
                || (v.Pass? && ports.publish(event).Fail? &&
                    run == Run(prefix + [ValidateCall(event, "payment"), PublishCall(event)],
                               Failure(ports.publish(event).error)))
                || (v.Pass? && ports.publish(event).Pass? &&
                    run == Run(prefix + [ValidateCall(event, "payment"), PublishCall(event), LogInfo(id, t, PublishedLog)],
                               Success(Published(event)))))
  {
    var p := ports.parse(raw);
    if p.Success? {
      var rt := ReadType(p.value);
      if rt.Success? {
        var c := Classify(rt.value);
        if c.Success? && c.value == Payment {
          assert Name(Payment) == "payment";
        }
      }
    }
  }

  /** Whether the trace contains a call to `publishEvent`. */
  predicate PublishCalled(run: Run) {
    exists j :: 0 <= j < |run.calls| && run.calls[j].PublishCall?
  }

  /** Publish is called at most once per invocation. */
  lemma PublishAtMostOnce(raw: JVal, ports: Ports)
    ensures var calls := ProcessEvent(raw, ports).calls;
            forall i, j :: 0 <= i < j < |calls| ==> !(calls[i].PublishCall? && calls[j].PublishCall?)
  {
    StepsInOrder(raw, ports);
  }

  /** Publish receives exactly the parsed event, and only right after that event passed validation. */
  lemma PublishReceivesParsedEvent(raw: JVal, ports: Ports, j: nat)
    requires var calls := ProcessEvent(raw, ports).calls; j < |calls| && calls[j].PublishCall?
    ensures var calls := ProcessEvent(raw, ports).calls;
            ports.parse(raw) == Success(calls[j].event) &&
            j >= 1 && calls[j - 1] == ValidateCall(calls[j].event, "payment") &&
            ports.validate(calls[j].event, "payment") == Pass
  {
    StepsInOrder(raw, ports);
  }

  /** The event is reported published exactly when publish was called and returned; it is the parsed event. */
  lemma PublishedIff(raw: JVal, ports: Ports)
    ensures var run := ProcessEvent(raw, ports);
            (run.result.Success? && run.result.value.Published?) <==>
            (PublishCalled(run) && ports.publish(ParsedEvent(raw, ports)) == Pass)
    ensures var run := ProcessEvent(raw, ports);
            run.result.Success? && run.result.value.Published? ==> run.result.value.event == ParsedEvent(raw, ports)
  {
    StepsInOrder(raw, ports);
    var run := ProcessEvent(raw, ports);
    if run.result.Success? && run.result.value.Published? {
      assert run.calls[3].PublishCall?;
    }
  }

  /** "Event successfully published to FDM" is logged only after publish returned, as the last entry. */
  lemma SuccessLoggedOnlyAfterPublish(raw: JVal, ports: Ports, j: nat)
    requires var calls := ProcessEvent(raw, ports).calls;
             j < |calls| && calls[j].LogInfo? && calls[j].message == PublishedLog
    ensures var run := ProcessEvent(raw, ports);
            j == |run.calls| - 1 && j >= 1 && run.calls[j - 1].PublishCall? &&
            run.result == Success(Published(run.calls[j - 1].event))
  {
    StepsInOrder(raw, ports);
  }

  /** `hold`, `warning` and `batch` events are neither validated nor published; a skip line is logged. */
  lemma NonPaymentSkipped(raw: JVal, ports: Ports, c: EventType)
    requires ports.parse(raw).Success?
    requires Classify(TypeValue(raw, ports)) == Success(c) && c != Payment
    ensures var run := ProcessEvent(raw, ports);
            run.result == Success(Skipped(c)) && !PublishCalled(run) &&
            (forall j :: 0 <= j < |run.calls| ==> !run.calls[j].ValidateCall?) &&
            run.calls[|run.calls| - 1].LogInfo? && run.calls[|run.calls| - 1].message == SkippedLog
  {
    StepsInOrder(raw, ports);
    assert ProcessEvent(raw, ports).calls[0] == ParseCall(raw);
  }

  /** Every error is the very error a step threw; none is caught, wrapped or retagged. */
  lemma ErrorsPropagateUnchanged(raw: JVal, ports: Ports)
    ensures var run := ProcessEvent(raw, ports);
            var event := ParsedEvent(raw, ports);
            var t := TypeValue(raw, ports);
            && (ports.parse(raw).Failure? ==> run.result == Failure(ports.parse(raw).error))
            && (ports.parse(raw).Success? && ReadType(event).Failure? ==> run.result == Failure(ReadType(event).error))
            && (ports.parse(raw).Success? && ReadType(event).Success? && Classify(t).Failure? ==>
                  run.result == Failure(Classify(t).error))
            && (ports.parse(raw).Success? && ReadType(event).Success? && Classify(t) == Success(Payment) &&
                ports.validate(event, "payment").Fail? ==>
                  run.result == Failure(ports.validate(event, "payment").error))
            && (ports.parse(raw).Success? && ReadType(event).Success? && Classify(t) == Success(Payment) &&
                ports.validate(event, "payment").Pass? && ports.publish(event).Fail? ==>
                  run.result == Failure(ports.publish(event).error))
  {
    StepsInOrder(raw, ports);
  }

  /** If parse, classify or validate throws, publish is never called. */
  lemma NoPublishAfterFailure(raw: JVal, ports: Ports)
    requires var event := ParsedEvent(raw, ports);
             ports.parse(raw).Failure? || ReadType(event).Failure? || Classify(TypeValue(raw, ports)).Failure? ||
             ports.validate(event, "payment").Fail?
    ensures !PublishCalled(ProcessEvent(raw, ports))
  {
    StepsInOrder(raw, ports);
  }

  // ---------------------------------------------------------------------
  // The pipeline with the adapter's own `validateEvent`.
  // ---------------------------------------------------------------------

  /** An unknown `type` fails with the classifier's VALIDATION error, whatever `data` holds, and nothing is published. */
  lemma UnknownTypeNeverPublished(raw: JVal, ports: Ports, m: map<string, JVal>, s: string)
    requires ports.parse(raw) == Success(JObj(m))
    requires Get(m, "type") == JStr(s)
    requires forall c: EventType :: !StartsWith(s, Prefix(c))
    ensures var run := ProcessEvent(raw, ports);
            run.result == Failure(UnknownEventType(s)) && run.result.error.category == Validation &&
            !PublishCalled(run)
  {
    StepsInOrder(raw, ports);
  }

  /** A payment event that its validator rejects fails with the validator's error, unpublished. */
  lemma RejectedPaymentNotPublished(raw: JVal, ports: Ports, event: JVal, e: Error)
    requires ports.parse(raw) == Success(event)
    requires Classify(TypeValue(raw, ports)) == Success(Payment)
    requires ports.validate(event, "payment") == Fail(e)
    ensures var run := ProcessEvent(raw, ports);
            run.result == Failure(e) && !PublishCalled(run)
  {
    StepsInOrder(raw, ports);
  }

  /** A payment event that its validator accepts is handed to publish. */
  lemma AcceptedPaymentPublished(raw: JVal, ports: Ports, event: JVal)
    requires ports.parse(raw) == Success(event)
    requires Classify(TypeValue(raw, ports)) == Success(Payment)
    requires ports.validate(event, "payment") == Pass
    requires ports.publish(event) == Pass
    ensures var run := ProcessEvent(raw, ports);
            run.result == Success(Published(event)) && run.calls[|run.calls| - 2] == PublishCall(event)
  {
    StepsInOrder(raw, ports);
  }

  /** A payment event that fails the schema is rejected with a VALIDATION error and never published. */
  lemma SchemaViolationNeverPublished(raw: JVal, parse: JVal -> Result<JVal, Error>, publish: JVal -> Outcome<Error>,
                                      f: Schema.Formats, m: map<string, JVal>, s: string)
    requires parse(raw) == Success(JObj(m))
    requires Get(m, "type") == JStr(s) && StartsWith(s, PaymentPrefix)
    requires Schema.Violations(JObj(m), f) != []
    ensures var run := ProcessEvent(raw, AdapterPorts(parse, publish, f));
            run.result.Failure? && run.result.error.category == Validation &&
            !PublishCalled(run)
  {
    var ports := AdapterPorts(parse, publish, f);
    ClassifiesByMatchingPrefix(s, Payment);
    var v := Validate.ValidateEvent(JObj(m), "payment", f);
    assert ports.validate(JObj(m), "payment") == v;
    RejectedPaymentNotPublished(raw, ports, JObj(m), v.error);
  }

  /** A payment event without any customer identifier is never published. */
  lemma NoCustomerIdentifierNeverPublished(raw: JVal, parse: JVal -> Result<JVal, Error>, publish: JVal -> Outcome<Error>,
                                           f: Schema.Formats, m: map<string, JVal>, dm: map<string, JVal>, s: string)
    requires parse(raw) == Success(JObj(m))
    requires Get(m, "type") == JStr(s) && StartsWith(s, PaymentPrefix)
    requires Get(m, "data") == JObj(dm)
    requires Schema.CheckFields("data.", Schema.DataFields, dm, f) == []
    requires !Schema.HasCustomerIdentifier(dm)
    ensures var run := ProcessEvent(raw, AdapterPorts(parse, publish, f));
            run.result.Failure? && run.result.error.category == Validation && !PublishCalled(run)
  {
    Schema.NoIdentifierRejected(m, dm, f);
    SchemaViolationNeverPublished(raw, parse, publish, f, m, s);
  }

  /** A payment event whose `data.schemeId` is not positive, such as -1, is never published. */
  lemma NonPositiveSchemeIdNeverPublished(raw: JVal, parse: JVal -> Result<JVal, Error>, publish: JVal -> Outcome<Error>,
                                          f: Schema.Formats, m: map<string, JVal>, dm: map<string, JVal>, s: string, n: int)
    requires parse(raw) == Success(JObj(m))
    requires Get(m, "type") == JStr(s) && StartsWith(s, PaymentPrefix)
    requires Get(m, "data") == JObj(dm) && Get(dm, "schemeId") == JInt(n) && n <= 0
    ensures var run := ProcessEvent(raw, AdapterPorts(parse, publish, f));
            run.result.Failure? && run.result.error.category == Validation && !PublishCalled(run)
  {
    if n < -Schema.MaxSafeInteger {
      Schema.UnsafeSchemeIdReported(m, dm, f, n);
    } else {
      Schema.NonPositiveSchemeIdReported(m, dm, f, n);
    }
    SchemaViolationNeverPublished(raw, parse, publish, f, m, s);
  }

  /** A schema-valid payment event is published unchanged when publish returns. */
  lemma ValidPaymentPublishedUnchanged(raw: JVal, parse: JVal -> Result<JVal, Error>, publish: JVal -> Outcome<Error>,
                                       f: Schema.Formats, m: map<string, JVal>, s: string)
    requires parse(raw) == Success(JObj(m))
    requires Get(m, "type") == JStr(s) && StartsWith(s, PaymentPrefix)
    requires Schema.Violations(JObj(m), f) == []
    requires publish(JObj(m)) == Pass
    ensures var run := ProcessEvent(raw, AdapterPorts(parse, publish, f));
            run.result == Success(Published(JObj(m))) &&
            run.calls[|run.calls| - 2] == PublishCall(JObj(m))
  {
    var ports := AdapterPorts(parse, publish, f);
    ClassifiesByMatchingPrefix(s, Payment);
    assert ports.validate(JObj(m), "payment") == Validate.ValidateEvent(JObj(m), "payment", f);
    AcceptedPaymentPublished(raw, ports, JObj(m));
  }
}
