/** Properties of whole sessions: sequences of steps of the intake form, and
    the scripted agent session that drives `formAPI` end to end. */
module FormTraces {
  import opened FormSchema
  import opened AgentForm

  /** The state after the steps `ops`, taken in order from `s`. */
  function Run(s: State, ops: seq<Op>): State
    decreases |ops|
  {
    if ops == [] then s else Run(Apply(s, ops[0]), ops[1..])
  }

  /** Once the mirror agrees with storage, no sequence of steps separates them. */
  lemma {:induction false} RunPreservesConsistent(s: State, ops: seq<Op>)
    requires Consistent(s)
    ensures Consistent(Run(s, ops))
    decreases |ops|
  {
    if ops != [] {
      ApplyPreservesConsistent(s, ops[0]);
      RunPreservesConsistent(Apply(s, ops[0]), ops[1..]);
    }
  }

  ghost predicate NoClears(ops: seq<Op>) {
    forall i :: 0 <= i < |ops| ==> !ops[i].Clear?
  }

  /** Without a clear, the log only grows at its end: earlier entries are
      never altered, dropped or reordered. */
  lemma {:induction false} RunExtendsLog(s: State, ops: seq<Op>)
    requires Consistent(s)
    requires NoClears(ops)
    ensures PersistedLog(s.stored) <= PersistedLog(Run(s, ops).stored)
    decreases |ops|
  {
    if ops != [] {
      ApplyExtendsLog(s, ops[0]);
      ApplyPreservesConsistent(s, ops[0]);
      assert NoClears(ops[1..]) by {
        forall i | 0 <= i < |ops[1..]| ensures !ops[1..][i].Clear? {
          assert ops[1..][i] == ops[i + 1];
        }
      }
      RunExtendsLog(Apply(s, ops[0]), ops[1..]);
    }
  }

  ghost predicate AllAgentSubmitsSucceed(ops: seq<Op>) {
    forall i :: 0 <= i < |ops| ==> ops[i].AgentSubmit? && ops[i].writeOk
  }

  /** The entries a sequence of agent submits creates, in call order. */
  function AgentEntries(ops: seq<Op>): (entries: seq<FormSubmission>)
    requires AllAgentSubmitsSucceed(ops)
    ensures |entries| == |ops|
    ensures forall i :: 0 <= i < |ops| ==>
      entries[i] == FormSubmission(ops[i].id, ops[i].timestamp, ops[i].data)
    decreases |ops|
  {
    if ops == [] then []
    else
      assert AllAgentSubmitsSucceed(ops[1..]) by {
        forall i | 0 <= i < |ops[1..]| ensures ops[1..][i].AgentSubmit? && ops[1..][i].writeOk {
          assert ops[1..][i] == ops[i + 1];
        }
      }
      [FormSubmission(ops[0].id, ops[0].timestamp, ops[0].data)] + AgentEntries(ops[1..])
  }

  /** A run of successful `submitForm` calls leaves the persisted log as the
      old log followed by exactly the submitted entries, in call order, and
      does not touch the form data. */
  lemma {:induction false} AgentSubmitsAppendInOrder(s: State, ops: seq<Op>)
    requires AllAgentSubmitsSucceed(ops)
    ensures PersistedLog(Run(s, ops).stored) == PersistedLog(s.stored) + AgentEntries(ops)
    ensures Run(s, ops).formData == s.formData
    decreases |ops|
  {
    if ops != [] {
      var next := Apply(s, ops[0]);
      assert PersistedLog(next.stored)
          == PersistedLog(s.stored) + [FormSubmission(ops[0].id, ops[0].timestamp, ops[0].data)];
      AgentSubmitsAppendInOrder(next, ops[1..]);
      assert AgentEntries(ops)
          == [FormSubmission(ops[0].id, ops[0].timestamp, ops[0].data)] + AgentEntries(ops[1..]);
    }
  }

  /** Every submit in `ops` brings an identifier not yet in the log it is appended to. */
  ghost predicate IdsFreshAlong(s: State, ops: seq<Op>)
    decreases |ops|
  {
    ops == [] || (OpIdFresh(s, ops[0]) && IdsFreshAlong(Apply(s, ops[0]), ops[1..]))
  }

  /** With fresh identifiers, no two entries of the log ever share an id. */
  lemma {:induction false} RunKeepsIdsDistinct(s: State, ops: seq<Op>)
    requires Consistent(s)
    requires IdsDistinct(PersistedLog(s.stored))
    requires IdsFreshAlong(s, ops)
    ensures IdsDistinct(PersistedLog(Run(s, ops).stored))
    decreases |ops|
  {
    if ops != [] {
      ApplyKeepsIdsDistinct(s, ops[0]);
      ApplyPreservesConsistent(s, ops[0]);
      RunKeepsIdsDistinct(Apply(s, ops[0]), ops[1..]);
    }
  }

  /** Clearing, then reading, gives `[]`, whatever came before. */
  lemma ClearThenReadIsEmpty(s: State)
    ensures PersistedLog(Apply(s, Clear).stored) == [] && Apply(s, Clear).submissions == []
  {
  }

  /** `clearSubmissions`, then `getSubmissions`, on the component itself. */
  method ClearThenRead(form: Component) returns (cleared: ClearResponse, log: seq<FormSubmission>)
    modifies form
    ensures cleared == ClearResponse(true)
    ensures log == [] && form.submissions == []
  {
    cleared := form.ClearSubmissions();
    log := form.GetSubmissions();
  }

  /** Two reads of the log with nothing in between agree. */
  method ReadTwice(form: Component) returns (first: seq<FormSubmission>, second: seq<FormSubmission>)
    ensures first == second
  {
    first := form.GetSubmissions();
    second := form.GetSubmissions();
  }

  /** The demo agent's session on a freshly loaded page: read the schema, fill
      the form with `agentData`, submit the same data, read the log back. */
  method AgentDemo(initialStorage: Stored, agentData: map<string, string>, id: string, timestamp: string)
    returns (fieldCount: nat, fill: FillResponse, submit: Completion<SubmitResponse>,
             log: seq<FormSubmission>, shown: map<string, string>)
    ensures fieldCount == 5
    ensures fill == FillResponse(true, FILL_MESSAGE)
    ensures submit == Normal(SubmitResponse(true, id))
    ensures log == PersistedLog(initialStorage) + [FormSubmission(id, timestamp, agentData)]
    ensures shown == agentData
  {
    var form := new Component(initialStorage);
    form.InitialLoad();
    var schema := form.GetSchema();
    fieldCount := |schema.fields|;
    fill := form.FillForm(agentData);
    submit := form.SubmitForm(agentData, id, timestamp, true);
    log := form.GetSubmissions();
    shown := form.formData;
  }
}
