# Startup pitch intake form — verified model

A single-page intake form lets a person or a script fill in and submit a
startup pitch. Its shape comes from a fixed schema of five required fields.
The page keeps three pieces of state:

- the in-progress form data, a map from field name to string;
- an in-memory mirror of the submission log, which the page lists;
- the log itself, persisted in the browser's local storage under the key
  `formSubmissions`. The key is either absent or holds an ordered list of
  `{id, timestamp, data}` entries.

A person changes this state by editing a widget, pressing submit, or pressing
"Clear All". A script changes it through `window.formAPI`, which offers
`getSchema`, `fillForm`, `submitForm`, `getSubmissions` and `clearSubmissions`.
On mount, the page copies a persisted log into the mirror.

The model has three modules:

- `FormSchema` (`form_schema.dfy`) holds the field, schema and submission
  record types and the schema constant `STARTUP_FORM_SCHEMA`. Lemmas state the
  constant's invariants: five fields in a fixed order, distinct names,
  `id == name`, all required, and the field types.
- `AgentForm` (`agent_form.dfy`) holds the state as a value (`State`), the
  steps (`Op`) and their effect (`Apply`), which is the specification. It also
  holds the class `Component`. Its three fields are the three pieces of state,
  and each handler is a method that changes them. Every state-changing method
  ensures `Snapshot() == Apply(old(Snapshot()), op)` and also spells out its
  effect field by field.
- `FormTraces` (`form_traces.dfy`) covers whole sessions. No sequence of steps
  breaks mirror/storage consistency. Without a clear, the log only grows at
  its end. A run of `submitForm` calls appends exactly its entries, in call
  order. With fresh identifiers, the log's ids stay pairwise distinct. Two
  client methods sit alongside: the demo agent's session, and two reads in a
  row.

Modelling choices:

- `crypto.randomUUID()` and `new Date().toISOString()` are passed in as the
  `id` and `timestamp` parameters.
- Whether the browser accepts a `localStorage.setItem` write is passed in as
  `writeOk`. A refused write raises `QuotaExceededError`. It escapes the
  handler as `Completion.Thrown`, and nothing has changed at that point.
- JSON encoding and decoding of the log are identity: storage holds the
  decoded sequence (`Stored = Option<seq<FormSubmission>>`).
- The identifiers' freshness is not a precondition of any method. It appears
  only as a hypothesis of the id-distinctness lemmas, because uniqueness
  comes from the identifier generator and no code checks it.

What the code does on failure, and what it leaves unordered:

- `submitForm` has no `try`/`catch` (src/AgentForm.tsx:23-36), so a refused
  `setItem` escapes to the caller. `SubmitForm` returns
  `Thrown(QuotaExceededError)` for it.
- Nothing handles `JSON.parse` failing on a stored value
  (src/AgentForm.tsx:13, 30, 38). The model has no such error.
- Nothing orders timestamps: each comes from the clock as it is. The model
  claims nothing about timestamp order.

## Model

| member | source | states |
|---|---|---|
| `FormSchema.FieldTypeName` | src/formSchema.ts:4 | a field type is written as one of the literals `text`, `email`, `textarea` |
| `FormSchema.ParseFieldType` | src/formSchema.ts:4 | a string names a field type exactly when it is one of the three literals |
| `FormSchema.FieldTypeRoundTrip` | src/formSchema.ts:4 | reading back the literal of a field type gives that type |
| `FormSchema.FieldTypeNameRoundTrip` | src/formSchema.ts:4 | a literal that parses is the literal of the type it parses to |
| `FormSchema.FieldNames` | src/formSchema.ts:16 | the field names, one per field, in schema order |
| `FormSchema.StartupFieldOrder` | src/formSchema.ts:24-70 | the schema has exactly five fields: `fullName`, `email`, `problem`, `valueProposition`, `traction`, in that order |
| `FormSchema.StartupNamesDistinct` | src/formSchema.ts:24-70 | no two fields of the schema share a name |
| `FormSchema.StartupIdsMatchNames` | src/formSchema.ts:26-63 | every field's `id` equals its `name` |
| `FormSchema.StartupAllRequired` | src/formSchema.ts:31-67 | every field is required |
| `FormSchema.StartupFieldTypes` | src/formSchema.ts:28-64 | only `fullName` is a text input, only `email` an email input, and the other three are text areas |
| `FormSchema.StartupMetadata` | src/formSchema.ts:20-23 | schema id `startup-pitch-form`, title `Startup Pitch Form`, version `1.0.0` |
| `AgentForm.LoadEstablishesConsistent` | src/AgentForm.tsx:11-14 | loading into the empty mirror makes it equal to the persisted log, or `[]` when the key is absent, and leaves storage alone |
| `AgentForm.ApplyPreservesConsistent` | src/AgentForm.tsx:19-66 | every step keeps the mirror equal to the persisted log |
| `AgentForm.ApplyExtendsLog` | src/AgentForm.tsx:30-33 | from a state whose mirror equals the persisted log, every step other than a clear keeps the old log as a prefix of the new one |
| `AgentForm.SubmitPathsAgree` | src/AgentForm.tsx:23-66 | on a consistent state, the page's submit and `submitForm` of the current form data write the same log; only the page's submit empties the form |
| `AgentForm.ApplyKeepsIdsDistinct` | src/AgentForm.tsx:24-31 | from a state whose mirror equals the persisted log and whose ids are already distinct, a step whose submission id is fresh keeps the log's ids pairwise distinct |
| `AgentForm.DisplayAfterInputChange` | src/AgentForm.tsx:116-129 | after an edit, the edited widget shows the new value and every other widget keeps its value |
| `AgentForm.DisplayAfterFill` | src/AgentForm.tsx:116-128 | after a fill, each widget shows its field's value in the data, or empty when the data omits the field |
| `AgentForm.Component.constructor` | src/AgentForm.tsx:5-6 | the component starts with empty form data and an empty mirror, and storage holds what the browser had |
| `AgentForm.Component.InitialLoad` | src/AgentForm.tsx:11-14 | a persisted log replaces the mirror; an absent key leaves the mirror as it was; form data and storage are unchanged; from the empty start the mirror then equals the persisted log |
| `AgentForm.Component.GetSchema` | src/AgentForm.tsx:18 | returns the schema constant, with its five distinct fields, whatever the state |
| `AgentForm.Component.FillForm` | src/AgentForm.tsx:19-22 | form data becomes exactly `data` (keys absent from `data` disappear); mirror and storage are unchanged; always returns success with the fixed message |
| `AgentForm.Component.SubmitForm` | src/AgentForm.tsx:23-36 | storage becomes the old persisted log, or `[]` when absent, plus one entry `{id, timestamp, data}`; the mirror becomes that log; form data is untouched; returns success with that entry's id; a refused write raises and changes nothing |
| `AgentForm.Component.GetSubmissions` | src/AgentForm.tsx:37-39 | returns the persisted log, or `[]` when the key is absent, and changes no state; on a consistent state this equals the mirror |
| `AgentForm.Component.ClearSubmissions` | src/AgentForm.tsx:40-44 | removes the storage key, empties the mirror, keeps form data, and returns success |
| `AgentForm.Component.HandleInputChange` | src/AgentForm.tsx:48-50 | sets the edited field to the new value and leaves every other key and value of the form data, the mirror and storage unchanged |
| `AgentForm.Component.HandleSubmit` | src/AgentForm.tsx:52-68 | on success, the mirror becomes the old mirror plus one entry holding the pre-submit form data, storage holds that same log, and the form is emptied; when the write is refused, form data, mirror and storage all keep their pre-submit values |
| `AgentForm.Component.ClearAll` | src/AgentForm.tsx:139-147 | the button, offered only while the mirror is non-empty, removes the storage key, empties the mirror and keeps form data |
| `FormTraces.RunPreservesConsistent` | src/AgentForm.tsx:11-66 | after the mount load, the mirror equals the persisted log through any sequence of steps |
| `FormTraces.RunExtendsLog` | src/AgentForm.tsx:30-63 | from a state whose mirror equals the persisted log, through any sequence of steps without a clear, the earlier log stays a prefix: entries are never altered, dropped or reordered |
| `FormTraces.AgentEntries` | src/AgentForm.tsx:24-28 | the entries a sequence of `submitForm` calls creates: one per call, in call order, each carrying that call's id, timestamp and data |
| `FormTraces.AgentSubmitsAppendInOrder` | src/AgentForm.tsx:23-36 | after any sequence of successful `submitForm` calls, the persisted log is the old log followed by exactly the submitted entries, in call order, and form data is unchanged |
| `FormTraces.RunKeepsIdsDistinct` | src/AgentForm.tsx:25-56 | from a state whose mirror equals the persisted log and whose ids are already distinct, when every submission brings a fresh id, no two log entries ever share an id |
| `FormTraces.ClearThenReadIsEmpty` | src/AgentForm.tsx:40-44 | after a clear step, the log reads as `[]` and the mirror is empty |
| `FormTraces.ClearThenRead` | src/AgentForm.tsx:37-44 | `clearSubmissions` followed by `getSubmissions` returns `[]`, and the mirror is empty |
| `FormTraces.ReadTwice` | src/AgentForm.tsx:37-39 | two consecutive `getSubmissions` calls return equal logs |
| `FormTraces.AgentDemo` | public/agent-demo.js:14-51 | on a freshly loaded page, the demo finds 5 fields, `fillForm` succeeds, `submitForm` returns success with the given id, the log read back is the old log plus the one new entry, and the form shows the filled data |

## Left out

- Rendering (src/AgentForm.tsx:70-192) is not modelled: the JSX, the schema display toggle, the `alert` after a submit, and the shortened id and localised time in the submission list. `DisplayedValue` models only what a widget shows.
- React's asynchronous, batched state updates and the effect lifecycle are not modelled. Each handler is one synchronous, atomic step, and the mount effect is the `InitialLoad` method.
- Installing `window.formAPI` on the global object is not modelled, and neither is access to storage from several tabs at once.
- `crypto.randomUUID` and `Date` are foreign calls. They become parameters. Id uniqueness is a lemma hypothesis, and nothing is claimed about timestamp order.
- JSON encoding and decoding are identity in the model. A corrupt stored value, which makes `JSON.parse` throw in the code, is not modelled.
- Aliasing is not modelled: the model holds maps as values. In the code, `fillForm` and `submitForm` keep the caller's own `data` object in the form state and in the mirror. If the caller later mutates that object, the mirror changes too, while storage holds the serialized copy.
- The browser's HTML `required` checks on the page's inputs (src/AgentForm.tsx:115, 127) are not modelled. `submitForm` checks nothing, and the model adds no check.
- A `removeItem` that fails is not modelled. Only the `setItem` failure of the two submit paths is modelled.
- A page submit before the mount load is not covered by any claim. The page's submit builds on the mirror, not on storage, so it relies on the two being consistent: the mount load establishes this, and `RunPreservesConsistent` shows that no step breaks it.
