/** The intake form component: the in-progress field values, the in-memory
    mirror of the submission log, and the log persisted in local storage under
    the key `formSubmissions`, together with the handlers a human drives through
    the page and the `formAPI` surface a script drives. Each handler runs as one
    synchronous step. */
module AgentForm {
  import opened FormSchema

  /** What local storage holds under `formSubmissions`: nothing, or the log
      (the JSON text is identified with the sequence it encodes). */
  type Stored = Option<seq<FormSubmission>>

  /** The log as a reader of the storage key sees it: an absent key reads as `[]`. */
  function PersistedLog(stored: Stored): seq<FormSubmission> {
    if stored.Some? then stored.value else []
  }

  /** The exception `localStorage.setItem` raises when the browser refuses the write. */
  datatype StorageError = QuotaExceededError

  /** How a handler ends: it returns a value, or an exception escapes from it. */
  datatype Completion<+T> = Normal(value: T) | Thrown(error: StorageError)

  datatype FillResponse = FillResponse(success: bool, message: string)
  datatype SubmitResponse = SubmitResponse(success: bool, submissionId: string)
  datatype ClearResponse = ClearResponse(success: bool)

  const FILL_MESSAGE := "Form filled successfully"

  /** The whole state of one page session, as a value. */
  datatype State = State(formData: map<string, string>, submissions: seq<FormSubmission>, stored: Stored)

  /** The mirror shows exactly what is persisted. */
  ghost predicate Consistent(s: State) {
    s.submissions == PersistedLog(s.stored)
  }

  /** The steps that change state. `id` and `timestamp` stand for what
      `crypto.randomUUID()` and `new Date().toISOString()` produce; `writeOk` is
      whether the browser accepts the `setItem` write. */
  datatype Op =
    | Load
    | InputChange(fieldName: string, value: string)
    | Fill(data: map<string, string>)
    | HumanSubmit(id: string, timestamp: string, writeOk: bool)
    | AgentSubmit(data: map<string, string>, id: string, timestamp: string, writeOk: bool)
    | Clear

  /** The effect of one step: the specification the methods of `Component` meet. */
  function Apply(s: State, op: Op): State {
    match op
    case Load =>
      if s.stored.Some? then s.(submissions := s.stored.value) else s
    case InputChange(n, v) =>
      s.(formData := s.formData[n := v])
    case Fill(data) =>
      s.(formData := data)
    case HumanSubmit(id, ts, ok) =>
      if ok then
        var updated := s.submissions + [FormSubmission(id, ts, s.formData)];
        State(map[], updated, Some(updated))
      else s
    case AgentSubmit(data, id, ts, ok) =>
      if ok then
        var updated := PersistedLog(s.stored) + [FormSubmission(id, ts, data)];
        s.(submissions := updated, stored := Some(updated))
      else s
    case Clear =>
      s.(submissions := [], stored := None)
  }

  /** Loading into the fresh, empty mirror makes it consistent with storage. */
  lemma LoadEstablishesConsistent(s: State)
    requires s.submissions == []
    ensures Consistent(Apply(s, Load))
    ensures PersistedLog(Apply(s, Load).stored) == PersistedLog(s.stored)
  {
  }

  /** Every step keeps the mirror equal to the persisted log. */
  lemma ApplyPreservesConsistent(s: State, op: Op)
    requires Consistent(s)
    ensures Consistent(Apply(s, op))
  {
  }

  /** Every step but a clear keeps the old log as a prefix of the new one. */
  lemma ApplyExtendsLog(s: State, op: Op)
    requires Consistent(s)
    requires !op.Clear?
    ensures PersistedLog(s.stored) <= PersistedLog(Apply(s, op).stored)
  {
  }

  /** On a consistent state the two submit paths write the same log; only the
      human path empties the form. */
  lemma SubmitPathsAgree(s: State, id: string, timestamp: string)
    requires Consistent(s)
    ensures var human := Apply(s, HumanSubmit(id, timestamp, true));
            var agent := Apply(s, AgentSubmit(s.formData, id, timestamp, true));
            human.stored == agent.stored && human.submissions == agent.submissions
            && human.formData == map[] && agent.formData == s.formData
  {
  }

  ghost predicate IdsDistinct(log: seq<FormSubmission>) {
    forall i, j :: 0 <= i < j < |log| ==> log[i].id != log[j].id
  }

  ghost predicate IdFresh(log: seq<FormSubmission>, id: string) {
    forall i :: 0 <= i < |log| ==> log[i].id != id
  }

  /** A submit step's identifier is not yet in the log. */
  ghost predicate OpIdFresh(s: State, op: Op) {
    (op.HumanSubmit? || op.AgentSubmit?) ==> IdFresh(PersistedLog(s.stored), op.id)
  }

  /** Fresh identifiers keep the log's identifiers pairwise distinct. */
  lemma ApplyKeepsIdsDistinct(s: State, op: Op)
    requires Consistent(s)
    requires IdsDistinct(PersistedLog(s.stored))
    requires OpIdFresh(s, op)
    ensures IdsDistinct(PersistedLog(Apply(s, op).stored))
  {
  }

  /** The value a schema field's widget shows: its entry in the form data, or empty. */
  function DisplayedValue(formData: map<string, string>, name: string): string {
    if name in formData then formData[name] else ""
  }

  /** After an edit the edited widget shows the new value and every other widget its old one. */
  lemma DisplayAfterInputChange(s: State, fieldName: string, value: string, other: string)
    requires other != fieldName
    ensures DisplayedValue(Apply(s, InputChange(fieldName, value)).formData, fieldName) == value
    ensures DisplayedValue(Apply(s, InputChange(fieldName, value)).formData, other)
         == DisplayedValue(s.formData, other)
  {
  }

  /** After a fill every widget shows what the filled data says, and an omitted field shows empty. */
  lemma DisplayAfterFill(s: State, data: map<string, string>, name: string)
    ensures name !in data ==> DisplayedValue(Apply(s, Fill(data)).formData, name) == ""
    ensures name in data ==> DisplayedValue(Apply(s, Fill(data)).formData, name) == data[name]
  {
  }

  /** The component on one page, with its state held in fields. */
  class Component {
    var formData: map<string, string>
    var submissions: seq<FormSubmission>
    /** The `formSubmissions` entry of local storage. */
    var stored: Stored

    function Snapshot(): State
      reads this
    {
      State(formData, submissions, stored)
    }

    /** A freshly mounted component: empty form, empty mirror, and whatever the
        browser already had in storage. */
    constructor (initialStorage: Stored)
      ensures formData == map[] && submissions == [] && stored == initialStorage
    {
      formData := map[];
      submissions := [];
      stored := initialStorage;
    }

    /** The mount effect: copies a persisted log into the mirror. */
    method InitialLoad()
      modifies this
      ensures Snapshot() == Apply(old(Snapshot()), Load)
      ensures formData == old(formData) && stored == old(stored)
      ensures old(stored).Some? ==> submissions == old(stored).value
      ensures old(stored).None? ==> submissions == old(submissions)
      ensures old(submissions) == [] ==> Consistent(Snapshot())
    {
      var existing := stored;
      if existing.Some? {
        submissions := existing.value;
      }
    }

    /** `formAPI.getSchema`: the schema constant, whatever the state. */
    method GetSchema() returns (schema: Schema)
      ensures schema == STARTUP_FORM_SCHEMA
      ensures |schema.fields| == 5 && NamesDistinct(schema.fields)
    {
      schema := STARTUP_FORM_SCHEMA;
      StartupFieldOrder();
      StartupNamesDistinct();
    }

    /** `formAPI.fillForm`: replaces the form data by `data` (no merge). */
    method FillForm(data: map<string, string>) returns (r: FillResponse)
      modifies this
      ensures Snapshot() == Apply(old(Snapshot()), Fill(data))
      ensures formData == data
      ensures submissions == old(submissions) && stored == old(stored)
      ensures r == FillResponse(true, FILL_MESSAGE)
    {
      formData := data;
      r := FillResponse(true, FILL_MESSAGE);
    }

    /** `formAPI.submitForm`: appends one submission of `data` to the persisted
        log, then mirrors that log. The form data is left alone. A refused write
        raises and changes nothing. */
    method SubmitForm(data: map<string, string>, id: string, timestamp: string, writeOk: bool)
      returns (r: Completion<SubmitResponse>)
      modifies this
      ensures Snapshot() == Apply(old(Snapshot()), AgentSubmit(data, id, timestamp, writeOk))
      ensures formData == old(formData)
      ensures writeOk ==> stored == Some(PersistedLog(old(stored)) + [FormSubmission(id, timestamp, data)])
      ensures writeOk ==> submissions == PersistedLog(stored)
      ensures writeOk ==> r == Normal(SubmitResponse(true, id))
      ensures !writeOk ==> submissions == old(submissions) && stored == old(stored)
      ensures !writeOk ==> r == Thrown(QuotaExceededError)
    {
      var submission := FormSubmission(id, timestamp, data);
      var existing := PersistedLog(stored);
      var updated := existing + [submission];
      if !writeOk {
        return Thrown(QuotaExceededError);
      }
      stored := Some(updated);
      submissions := updated;
      r := Normal(SubmitResponse(true, submission.id));
    }

    /** `formAPI.getSubmissions`: the persisted log, `[]` when the key is absent. */
    method GetSubmissions() returns (log: seq<FormSubmission>)
      ensures stored.None? ==> log == []
      ensures stored.Some? ==> log == stored.value
      ensures Consistent(Snapshot()) ==> log == submissions
    {
      log := PersistedLog(stored);
    }

    /** `formAPI.clearSubmissions`: removes the storage key and empties the mirror. */
    method ClearSubmissions() returns (r: ClearResponse)
      modifies this
      ensures Snapshot() == Apply(old(Snapshot()), Clear)
      ensures stored == None && submissions == [] && formData == old(formData)
      ensures r == ClearResponse(true)
    {
      stored := None;
      submissions := [];
      r := ClearResponse(true);
    }

    /** An edit of one widget: overwrites that field's value, keeps every other. */
    method HandleInputChange(fieldName: string, value: string)
      modifies this
      ensures Snapshot() == Apply(old(Snapshot()), InputChange(fieldName, value))
      ensures fieldName in formData && formData[fieldName] == value
      ensures formData.Keys == old(formData).Keys + {fieldName}
      ensures forall k :: k in old(formData) && k != fieldName ==> formData[k] == old(formData)[k]
      ensures submissions == old(submissions) && stored == old(stored)
    {
      formData := formData[fieldName := value];
    }

    /** The page's submit: appends the current form data to the mirrored log,
        writes that log to storage, mirrors it and empties the form. The write
        comes first, so a refused write raises before anything has changed. */
    method HandleSubmit(id: string, timestamp: string, writeOk: bool) returns (c: Completion<()>)
      modifies this
      ensures Snapshot() == Apply(old(Snapshot()), HumanSubmit(id, timestamp, writeOk))
      ensures writeOk ==> submissions == old(submissions) + [FormSubmission(id, timestamp, old(formData))]
      ensures writeOk ==> stored == Some(submissions) && formData == map[] && c == Normal(())
      ensures !writeOk ==> formData == old(formData) && submissions == old(submissions) && stored == old(stored)
      ensures !writeOk ==> c == Thrown(QuotaExceededError)
    {
      var submission := FormSubmission(id, timestamp, formData);
      var updated := submissions + [submission];
      if !writeOk {
        return Thrown(QuotaExceededError);
      }
      stored := Some(updated);
      submissions := updated;
      formData := map[];
      c := Normal(());
    }

    /** The "Clear All" button, shown only while the mirror is non-empty. */
    method ClearAll()
      requires |submissions| > 0
      modifies this
      ensures Snapshot() == Apply(old(Snapshot()), Clear)
      ensures stored == None && submissions == [] && formData == old(formData)
    {
      stored := None;
      submissions := [];
    }
  }
}
