# fcp-fdm-pay-adapter event pipeline, modelled in Dafny

The adapter subscribes to an Azure Service Bus topic of payment-hub
events. It turns each message into a CloudEvent, classifies it by its
`type` prefix and keeps only payment events. Each payment event is
validated against a Joi schema and then published to the Farming Data
Model (FDM). Events of the other categories (`hold`, `warning` and
`batch`) are logged as skipped.

The model has one module per source file:

- `EventTypes` (`types.js`) is the prefix classifier. Its contract states
  that the result is sound and complete over the four prefixes. The lemmas
  prove that the prefixes exclude each other, so the order of the if/else
  chain is irrelevant.
- `Schema` (`schema.js`) is the payment schema as Joi applies it with
  `abortEarly: false`, `allowUnknown: true` and `stripUnknown: true`:
  - every violation is collected, in declaration order;
  - undeclared keys are tolerated and stripped;
  - `subject` and `datacontenttype` take the default `"None"`;
  - the cross-field rule needs at least one truthy `frn`, `sbi`, `trader`
    or `vendor`. It runs only when all of `data`'s own fields pass, because
    Joi does not run an object's custom rules after a child error.

  The error message is the rendered violations joined with ". ". No two
  violations share a path, so no message repeats and Joi's removal of
  repeated messages changes nothing.
- `Validate` (`validate.js`) wraps the violations in a VALIDATION error
  whose message starts with `Event is invalid, `.
- `Process` (`process.js`) is `processEvent`. It returns a trace of the
  calls it made (parse, classify, validate, publish, one info log line)
  and the outcome: published, skipped, or the error that escaped. Its
  collaborators are ports. `AdapterPorts` binds the validator to
  `Validate.ValidateEvent`.
- `Polling` (`polling.js`) is a `Poller` class. Its fields are the
  module-level `sbClient`/`sbReceiver` handles. A ghost trace records the
  bus calls and log lines. The two pure helpers build the connection string
  and the WebSocket options.

JavaScript values are the `Json.JVal` datatype. `JUndefined` stands for a
missing property, and `Json.Truthy` is JavaScript truthiness.

`processEvent` follows the code in `src/events/process.js`, which
disagrees with its unit tests. `test/unit/events/process.test.js:101-219`
expects three things the code does not do:
- the message is completed after processing;
- it is dead-lettered on a VALIDATION error;
- other errors are caught and logged.

Instead, `processEvent` takes one argument, settles nothing and catches
nothing. The receiver that `polling.js:40` passes as a second argument is
ignored. No method of the `Poller` completes or dead-letters a message,
and its invariant records that.

## Model

| member | source | states |
|---|---|---|
| EventTypes.GetEventType | src/events/types.js:1-15 | success means `type` starts with the returned category's prefix; failure happens exactly when no prefix matches, and its error is `Unknown event type: <type>` tagged VALIDATION |
| EventTypes.FirstMatch | src/events/types.js:2-14 | a category returned is listed in the given order and `type` starts with its prefix; `None` exactly when no listed category matches |
| EventTypes.FirstMatchIsEarliest | src/events/types.js:2-14 | the category returned is the first match: no category listed before it matches `type` |
| EventTypes.PrefixesDifferAt21 | src/events/types.js:2-9 | the four prefixes share their first 21 characters and differ pairwise at index 21 |
| EventTypes.PrefixesExclusive | src/events/types.js:2-9 | no `type` starts with two different category prefixes |
| EventTypes.ClassifiesByMatchingPrefix | src/events/types.js:2-9 | a `type` that starts with a category's prefix is classified as that category |
| EventTypes.GetEventTypeIsFirstMatch | src/events/types.js:2-14 | the if/else chain equals the first match in `getEventType`'s order payment, hold, warning, batch |
| EventTypes.OrderIsIrrelevant | src/events/types.js:2-14 | the first match over any order that lists every category equals the if/else chain |
| EventTypes.EmptyTypeRejected | src/events/types.js:10-14 | the empty `type` fails with the message `Unknown event type: ` and category VALIDATION |
| EventTypes.TrailingDotRequired | src/events/types.js:2-9 | a prefix without its trailing dot (such as `uk.gov.defra.ffc.pay.payment`) is unknown |
| EventTypes.PrefixLaterInStringRejected | src/events/types.js:2-9 | the match is anchored at the start: a prefix that follows a non-empty lead not starting with `u` is unknown |
| Schema.Names | src/events/schema.js:3-28 | the set of the declared key names, no more and no fewer |
| Schema.CheckValue | src/events/schema.js:4-18 | one field's rule chain reports at most one violation, since no value without a fraction can break two of its rules |
| Schema.ValueViolationAt | src/events/schema.js:4-18 | a field's violation is reported at that field's own path and is never the custom rule's |
| Schema.AbsentValueReported | src/events/schema.js:4-18 | an absent value fails exactly under the `.required()` chains, and then with the single `any.required` violation |
| Schema.CheckFields | src/events/schema.js:4-18 | a list of fields reports at most as many violations as it has fields |
| Schema.FieldPathsDistinct | src/events/schema.js:4-18 | when the field names differ, no two violations share a path, so each field reports at most one |
| Schema.FieldPathDeclared | src/events/schema.js:4-18 | every violation of the field rules is at `<prefix><name>` for some declared field |
| Schema.HasCustomerIdentifier | src/events/schema.js:20-22 | the custom rule passes exactly when one of `data`'s first four declared fields (`frn`, `sbi`, `trader`, `vendor`) is truthy |
| Json.Truthy | src/events/schema.js:22 | JavaScript's `!x` holds exactly for `undefined`, `null`, `false`, `0` and `''` |
| Schema.CheckData | src/events/schema.js:11-27 | `data` reports at most as many violations as it declares keys; it passes only as an object that has a customer identifier |
| Schema.DataPathsDistinct | src/events/schema.js:11-27 | no two violations of `data` share a path |
| Schema.Violations | src/events/schema.js:3-28 | the report holds at most as many violations as the event and `data` declare fields |
| Schema.ViolationPathsDistinct | src/events/schema.js:3-28 | no two violations of the whole report share a path: at most one per declared path |
| Schema.TopPathShape | src/events/schema.js:4-10 | a top-level field's violation is at a plain name, never `data` and without a `.` |
| Schema.DataPathShape | src/events/schema.js:11-27 | a violation of `data` is at `data` itself or at a path with `.` right after `data` |
| Schema.TopAndDataPathsDiffer | src/events/schema.js:3-27 | a top-level field never reports at a path that `data` reports at |
| Schema.DeclaredNamesWellFormed | src/events/schema.js:4-18 | the declared names of each object differ pairwise, and hold neither `.` nor `"` |
| Schema.NonObjectRejected | src/events/schema.js:3-28 | anything but an object is rejected as a whole, with one violation at path `value` |
| Schema.ViolationPathDeclared | src/events/schema.js:3-28 | each violation of an object event is at a declared path: a top-level field, `data`, or `data.<key>` for a declared key |
| Schema.DataPathDeclared | src/events/schema.js:11-27 | each violation `data` raises is at `data` itself or at `data.<key>` for a declared key |
| Schema.Pruned | src/events/schema.js:3-28 | stripUnknown and defaults: only declared keys remain, each from the input or from its default, and every declared key with a value keeps it |
| Schema.Normalized | src/events/schema.js:3-28 | the validated copy is an object of declared keys plus `data`, and `data` is an object of its own declared keys |
| Schema.Validate | src/events/schema.js:3-28 | `schema.validate` fails exactly when some rule is violated, and the error is the full list of violations; on success input and value are objects |
| Schema.FieldViolationCollected | src/events/schema.js:3-19 | with abortEarly false no violation of any field in the list is lost |
| Schema.FieldRulesNeverCustom | src/events/schema.js:4-18 | the per-field rules never report the custom rule's violation |
| Schema.FieldRulesReadOnlyDeclaredKeys | src/events/schema.js:4-18 | the field rules depend only on the values of the declared keys |
| Schema.EventFieldViolationReported | src/events/schema.js:4-10 | any violation of a top-level field is in the schema's report |
| Schema.DataFieldViolationReported | src/events/schema.js:11-18 | any violation of a field of `data` is in the schema's report, under `data.<key>` |
| Schema.DataViolationReported | src/events/schema.js:11-27 | a violation of `data`'s field rules is part of the whole report |
| Schema.MissingRequiredFieldReported | src/events/schema.js:4-8 | a missing `specversion`, `type`, `source`, `id`, `time` or `data` is reported as required under its own name |
| Schema.MissingRequiredDataFieldReported | src/events/schema.js:16-18 | a missing `correlationId`, `schemeId` or `invoiceNumber` of `data` is reported as required under `data.<key>` |
| Schema.InvalidIdReported | src/events/schema.js:7 | a non-empty `id` that is not a UUID is reported under `id` |
| Schema.InvalidCorrelationIdReported | src/events/schema.js:16 | a non-empty `data.correlationId` that is not a GUID is reported under `data.correlationId` |
| Schema.NonPositiveSchemeIdReported | src/events/schema.js:17 | a `data.schemeId` from -(2^53-1) up to zero is reported as not positive |
| Schema.UnsafeSchemeIdReported | src/events/schema.js:17 | a `data.schemeId` beyond ±(2^53-1) is reported as not a safe number |
| Schema.IdentifierNumberAccepts | src/events/schema.js:12-13 | `frn`/`sbi` pass exactly when absent, `null`, `''` or an integer from 1 to 2^53-1 |
| Schema.IdentifierStringAccepts | src/events/schema.js:14-15 | `trader`/`vendor` pass exactly when absent, `null` or any string, the empty one included |
| Schema.NoIdentifierRejected | src/events/schema.js:19-27 | when `data`'s fields pass but all four identifiers are falsy, the custom violation is reported and validation fails |
| Schema.AnyIdentifierSatisfiesRule | src/events/schema.js:20-26 | one truthy identifier among the four is enough: the custom violation is not reported |
| Schema.CustomRuleWaitsForFieldRules | src/events/schema.js:11-27 | while a field of `data` is invalid the custom rule is not reported |
| Schema.DataPassesIff | src/events/schema.js:11-27 | `data` passes exactly when it is an object whose fields all pass and which has a customer identifier |
| Schema.ValidIff | src/events/schema.js:3-28 | an event passes exactly when it is an object, every top-level and `data` field passes, and `data` has a customer identifier |
| Schema.DefaultOfIn | src/events/schema.js:9-10 | only declared keys have a default |
| Schema.EventDefaults | src/events/schema.js:9-10 | `subject` and `datacontenttype` default to `"None"` |
| Schema.OnlyTwoEventDefaults | src/events/schema.js:4-10 | no other top-level key has a default |
| Schema.NoDataDefaults | src/events/schema.js:11-19 | no key of `data` has a default |
| Schema.PrunedDefault | src/events/schema.js:9-10 | a key with a default is always present in the validated copy: its own value, or the default when absent |
| Schema.NormalizedDefault | src/events/schema.js:9-10 | in the normalized copy of any object, `subject` and `datacontenttype` hold their value or `"None"` |
| Schema.DataIsNotAnEventField | src/events/schema.js:11 | `data` is checked by its own rule, not with the plain fields |
| Schema.SuccessIsNormalized | src/events/schema.js:3-28 | the value of a successful validation is the pruned, defaulted copy of the input |
| Schema.PrunedAt | src/events/schema.js:3-28 | a declared key keeps its value in the validated copy, and an absent one with a default gets the default |
| Schema.DefaultsApplied | src/events/schema.js:9-10 | on success `subject` and `datacontenttype` hold their input value, or `"None"` when absent |
| Schema.DeclaredValuesKept | src/events/schema.js:4-10 | on success every declared top-level key that had a value keeps it unchanged |
| Schema.DeclaredDataValuesKept | src/events/schema.js:12-18 | on success every declared key of `data` that had a value keeps it unchanged |
| Schema.UnknownKeysStripped | src/events/schema.js:3-28 | on success no undeclared key is left, at the top level or in `data` (stripUnknown) |
| Schema.UnknownKeyTolerated | src/events/schema.js:3-28 | adding an undeclared top-level key changes none of the violations (allowUnknown) |
| Schema.ViolationsDependOnFieldsAndData | src/events/schema.js:3-28 | the report is determined by the top-level field rules' result and the `data` value alone |
| Schema.FieldRulesIgnoreUndeclared | src/events/schema.js:4-18 | updating a key the field list does not declare leaves the field rules' result unchanged |
| Schema.IdentifierRuleIgnoresUnknownKey | src/events/schema.js:20-22 | the custom rule reads only `frn`, `sbi`, `trader` and `vendor` |
| Schema.IdentifiersAreDataFields | src/events/schema.js:12-15 | the four identifiers the custom rule reads are declared keys of `data` |
| Schema.CheckDataIgnoresUnknownKey | src/events/schema.js:11-27 | `data`'s rules, its custom rule included, ignore undeclared keys |
| Schema.EventFieldsIgnoreData | src/events/schema.js:4-10 | the top-level field rules do not read `data` |
| Schema.UnknownDataKeyTolerated | src/events/schema.js:11-27 | adding an undeclared key inside `data` changes none of the violations |
| Schema.Join | src/events/validate.js:7 | joining no lines gives `""`; otherwise the result begins with the first line |
| Schema.Message | src/events/validate.js:7 | Joi's message is empty exactly when there is no violation, and otherwise begins with the first violation's text |
| Schema.JoinHoldsEveryLine | src/events/validate.js:7 | every detail message is a substring of the joined message |
| Schema.MessageNamesEveryViolation | src/events/validate.js:7 | Joi's message contains the rendered text (quoted path and rule) of every violation |
| Schema.Dedup | src/events/validate.js:7 | Joi's removal of repeated detail messages keeps every message and leaves no message twice |
| Schema.DedupKeepsDistinct | src/events/validate.js:7 | removing repeats from messages that are already distinct changes nothing |
| Schema.RenderInjective | src/events/validate.js:7 | violations at different quote-free paths render to different messages |
| Schema.PathHasNoQuote | src/events/schema.js:3-28 | no path in the report contains a `"` |
| Schema.LinesDistinct | src/events/validate.js:7 | the rendered messages of every report differ pairwise |
| Schema.MessageNeedsNoDedup | src/events/validate.js:7 | Joi's message with repeated details removed equals the plain `. `-join, so the model's `Message` is Joi's |
| Validate.ValidateEvent | src/events/validate.js:3-11 | it throws exactly when the schema reports a violation; the error is tagged VALIDATION and its message is `Event is invalid, ` followed by Joi's message |
| Validate.EventTypeIgnored | src/events/validate.js:3 | the `eventType` argument has no effect on the outcome |
| Validate.InvalidMessageNamesField | src/events/validate.js:6-10 | the thrown message contains the rendered text of every violation |
| Validate.MissingFieldRejected | src/events/validate.js:3-11 | an event missing a required top-level field throws a VALIDATION error whose message contains `"<field>" is required` |
| Validate.NoCustomerIdentifierRejected | src/events/validate.js:3-11 | an event whose `data` fields pass but which has no customer identifier throws a message containing `"data" failed custom validation` |
| Process.AdapterPorts | src/events/process.js:2-5 | `process.js`'s wiring: the given parser and publisher, with `validateEvent` as the modelled validator |
| Process.ReadType | src/events/process.js:11 | reading `event.type` throws exactly when the event is `undefined` or `null`; an object yields its `type` property (or `undefined` when it has none); any other value yields `undefined` |
| Process.Classify | src/events/process.js:11 | a string `type` is classified by `getEventType`; any other value throws an uncategorised TypeError |
| Process.ProcessEvent | src/events/process.js:9-21 | the first call is always the parse; a parse that throws ends the run with that very error and nothing else called |
| Process.StepsInOrder | src/events/process.js:9-21 | every run takes one of five shapes, in `processEvent`'s order: stops at parse/classify; skips a non-payment; stops at validate; stops at publish; publishes and logs |
| Process.PublishAtMostOnce | src/events/process.js:16 | publish is called at most once |
| Process.PublishReceivesParsedEvent | src/events/process.js:15-16 | publish receives exactly the parsed event, right after that event was validated as `payment` and passed |
| Process.PublishedIff | src/events/process.js:14-17 | the run reports the event published exactly when publish was called and returned; the event published is the parsed one |
| Process.SuccessLoggedOnlyAfterPublish | src/events/process.js:17 | the success line is logged only as the last entry, right after publish, and the run then reports that event published |
| Process.NonPaymentSkipped | src/events/process.js:18-20 | a hold, warning or batch event is neither validated nor published, ends with the skip line, and is reported skipped |
| Process.ErrorsPropagateUnchanged | src/events/process.js:9-21 | the error of a failed run is exactly the error of the step that threw; nothing is caught or retagged |
| Process.NoPublishAfterFailure | src/events/process.js:10-16 | if parse, classify or validate throws, publish is never called |
| Process.UnknownTypeNeverPublished | src/events/process.js:11 | an unknown `type` fails with the classifier's VALIDATION error and nothing is published |
| Process.RejectedPaymentNotPublished | src/events/process.js:14-16 | a payment event its validator rejects fails with that error, unpublished |
| Process.AcceptedPaymentPublished | src/events/process.js:14-17 | a payment event its validator accepts is handed to publish and reported published |
| Process.SchemaViolationNeverPublished | src/events/process.js:14-16 | with the adapter's own `validateEvent`, a payment event that breaks the schema fails with a VALIDATION error and is never published |
| Process.NoCustomerIdentifierNeverPublished | src/events/process.js:14-16 | with the adapter's own `validateEvent`, a payment event without a customer identifier is never published |
| Process.NonPositiveSchemeIdNeverPublished | src/events/process.js:14-16 | with the adapter's own `validateEvent`, a payment event whose `schemeId` is zero or negative is never published |
| Process.ValidPaymentPublishedUnchanged | src/events/process.js:14-17 | with the adapter's own `validateEvent`, a schema-valid payment event is published as parsed, not as Joi's stripped copy |
| Polling.GetConnectionString | src/events/polling.js:49-53 | the string starts with `Endpoint=sb://<host>`; the emulator form ends with the key pair and `;UseDevelopmentEmulator=true;`, the production form with `.servicebus.windows.net` and the key pair |
| Polling.AfterHostStartsWith | src/events/polling.js:50-52 | the character after the host is `;` in the emulator form and `.` in the production form |
| Polling.ConnectionStringShowsMode | src/events/polling.js:49-53 | for the same host, equal connection strings imply the same emulator flag |
| Polling.GetWebSocketOptions | src/events/polling.js:55-65 | the proxied WebSocket is used exactly when `httpProxy` is truthy, with that proxy URL |
| Polling.Poller.constructor | src/events/polling.js:12-13 | both handles start as `null` and the invariant holds |
| Polling.Poller.PollForEvents | src/events/polling.js:35-47 | both handles are replaced by a client built from the connection string and options and its receiver for the topic and subscription; the receiver is subscribed with `autoCompleteMessages: false` |
| Polling.Poller.StartPolling | src/events/polling.js:15-21 | when `active` is false nothing changes and nothing is logged; otherwise `Starting event polling` is logged, then the steps of `pollForEvents` follow |
| Polling.Poller.StopPolling | src/events/polling.js:23-33 | only the set handles are closed, the receiver before the client; `Event polling stopped` is logged; the handles stay set |
| Polling.Poller.ProcessMessage | src/events/polling.js:40 | while subscribed, the result is `processEvent` of the message with `process.js`'s wiring (the adapter's own `validateEvent`); the handles do not change; a thrown error reaches the error handler; no message is settled |
| Polling.Poller.ProcessError | src/events/polling.js:41-43 | while subscribed, the error is logged with `Service Bus error occurred` and nothing else changes |

## Left out

- Schema.Validate: Joi's conversions are not modelled. Numeric strings are not accepted for number fields. `time` is not turned into a `Date` in the validated copy. The validated copy is discarded by `validateEvent` anyway.
- Schema.Formats: Joi's UUID/GUID checks and `Joi.date()`'s date parsing (no `.iso()`: any string JavaScript's `Date` parses, and numbers as timestamps) are not reimplemented. They are parameters of the schema (`isUuid`, `isDate`).
- Floating-point numbers are not modelled. Numbers are unbounded integers, so `.integer()` adds no check of its own. Joi's number check refuses values beyond ±(2^53-1) as unsafe before `.positive()` runs, and the model does the same.
- Schema.RuleText: only the wordings of the rules this schema uses are given. The custom rule passes its reason as `message`, not as `error.message`, so Joi's `any.custom` template has nothing to insert after "because ". The model renders it that way.
- Process.Classify: the wording of the V8 TypeErrors for `event.type` on `undefined`/`null` and `startsWith` on a non-string is not modelled. Only that they carry no category is.
- `parseEvent` (`src/events/parse.js`) is not part of this model. It enters `ProcessEvent` as its `parse` port.
- `publishEvent` (`src/events/publish.js`) and its SNS serialisation are not part of this model. It enters `ProcessEvent` as its `publish` port.
- Completing and dead-lettering messages, and catching and logging errors in `processEvent`: the unit tests expect them, but the code does not do them.
- Polling.Poller.ProcessMessage: the Service Bus SDK routes a rejected `processMessage` to `processError`. That is taken as given, and message redelivery is not modelled.
- `await` and concurrency: closes are issued without waiting, handlers run one at a time, and `pollForEvents` being `async` is not modelled.
- Configuration loading (`convict`) and logger formatting are not modelled. The configuration is a value; the log is the trace.
- `WebSocket` and `HttpsProxyAgent` objects are not modelled. The options record only the proxy URL chosen.
