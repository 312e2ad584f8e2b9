/**
 * `OrchestratorCallable.call`: submit the workflow, and when the build waits
 * for it, poll the execution's state until it is complete, fetch its output
 * and assemble the map of results. The server's answers are inputs: the
 * submission's answer, the answers to the successive state polls, and the
 * answer to the output fetch. Sleeping and console output are not modelled.
 */
module OrchestratorCallable {
  import opened Lang
  import opened Json
  import opened Model
  import opened RestClient
  import opened OrchestratorClient

  const ExecutionStateKey := "ORCHESTRATOR_WORKFLOW_EXECUTION_STATE"
  const ExecutionOutputKey := "ORCHESTRATOR_WORKFLOW_EXECUTION_OUTPUT"
  const ExecutionExceptionKey := "ORCHESTRATOR_WORKFLOW_EXECUTION_EXCEPTION"

  /** A state poll that ends the loop: its fetch fails, or it reports completion. */
  predicate Stops(poll: Result<Json>)
  {
    StateOf(poll).Err? || StateOf(poll).value.completed
  }

  /** Some poll ends the loop. */
  predicate PollEnds(polls: seq<Result<Json>>)
  {
    exists k :: 0 <= k < |polls| && Stops(polls[k])
  }

  /** The index of the first poll that ends the loop. */
  function FirstStop(polls: seq<Result<Json>>): (k: nat)
    requires PollEnds(polls)
    ensures k < |polls| && Stops(polls[k])
    ensures forall j :: 0 <= j < k ==> !Stops(polls[j])
  {
    if Stops(polls[0]) then 0
    else
      assert PollEnds(polls[1..]) by {
        var k :| 0 <= k < |polls| && Stops(polls[k]);
        assert polls[1..][k - 1] == polls[k];
      }
      1 + FirstStop(polls[1..])
  }

  /** `new IOException(e.getMessage(), e)`: every exception leaves `call` wrapped. */
  function Wrap<T>(r: Result<T>): (w: Result<T>)
    ensures r.Ok? ==> w == r
    ensures r.Err? ==> w == Err(Rethrown(r.error))
  {
    if r.Ok? then r else Err(Rethrown(r.error))
  }

  /** The states the execution ends in with an error, compared ignoring case. */
  predicate IsFailedState(s: string)
  {
    EqualsIgnoreCase(s, "canceled") || EqualsIgnoreCase(s, "failed")
  }

  /** The map of a waited-for execution: the output's state and parameters, and
      its exception when the last polled state is canceled or failed. */
  function ResultMap(lastState: string, out: OutputRecord): (m: map<string, Nullable<string>>)
    ensures m.Keys <= {ExecutionStateKey, ExecutionOutputKey, ExecutionExceptionKey}
    ensures ExecutionStateKey in m && m[ExecutionStateKey] == out.state
    ensures ExecutionOutputKey in m && m[ExecutionOutputKey] == out.parameters
    ensures ExecutionExceptionKey in m <==> IsFailedState(lastState)
    ensures ExecutionExceptionKey in m ==> m[ExecutionExceptionKey] == out.exception
  {
    var data := map[ExecutionStateKey := out.state, ExecutionOutputKey := out.parameters];
    if IsFailedState(lastState) then data[ExecutionExceptionKey := out.exception] else data
  }

  /** `call` waits for the execution exactly when asked to and the submission was
      accepted: only then does the loop run. */
  predicate Waits(p: BuildParam, submit: Result<Nullable<Response>>)
  {
    p.waitExec && ExecutionLocation(p.inputParams, submit).Ok? && ExecutionLocation(p.inputParams, submit).value.Val?
  }

  /** What `call` returns. */
  function CallResult(p: BuildParam, submit: Result<Nullable<Response>>, polls: seq<Result<Json>>,
                      output: Result<Json>, toJson: Json -> string): (r: Result<map<string, Nullable<string>>>)
    requires Waits(p, submit) ==> PollEnds(polls)
    ensures r.Err? ==> r.error.Rethrown?
    ensures ExecutionLocation(p.inputParams, submit).Err? ==> r == Err(Rethrown(ExecutionLocation(p.inputParams, submit).error))
    ensures !p.waitExec && ExecutionLocation(p.inputParams, submit).Ok? ==> r == Ok(map[])
    ensures r.Ok? && p.waitExec ==> Waits(p, submit)
    ensures p.waitExec && ExecutionLocation(p.inputParams, submit) == Ok(Null) ==> r == Err(Rethrown(MalformedUrl))
    ensures Waits(p, submit) ==> (r.Ok? <==> StateOf(polls[FirstStop(polls)]).Ok? && OutputOf(output, toJson).Ok?)
    ensures Waits(p, submit) && StateOf(polls[FirstStop(polls)]).Err? ==>
              r == Err(Rethrown(StateOf(polls[FirstStop(polls)]).error))
    ensures Waits(p, submit) && StateOf(polls[FirstStop(polls)]).Ok? && OutputOf(output, toJson).Err? ==>
              r == Err(Rethrown(OutputOf(output, toJson).error))
    ensures r.Ok? && p.waitExec ==>
      (Waits(p, submit) && StateOf(polls[FirstStop(polls)]).Ok? && OutputOf(output, toJson).Ok?
       && StateOf(polls[FirstStop(polls)]).value.state.Val?
       && r.value == ResultMap(StateOf(polls[FirstStop(polls)]).value.state.v, OutputOf(output, toJson).value))
  {
    var location :- Wrap(ExecutionLocation(p.inputParams, submit));
    if !p.waitExec then Ok(map[])
    else if location.Null? then Err(Rethrown(MalformedUrl))
    else
      var last :- Wrap(StateOf(polls[FirstStop(polls)]));
      var out :- Wrap(OutputOf(output, toJson));
      Ok(ResultMap(last.state.v, out))
  }

  /** With waiting off, an accepted submission returns the empty map. */
  lemma NoWaitReturnsEmptyMap(p: BuildParam, submit: Result<Nullable<Response>>, polls: seq<Result<Json>>,
                              output: Result<Json>, toJson: Json -> string)
    requires !p.waitExec && ExecutionLocation(p.inputParams, submit).Ok?
    ensures CallResult(p, submit, polls, output, toJson) == Ok(map[])
  {
  }

  /** A map from `call` holds an exception entry exactly when the execution ended
      canceled or failed, in any case. */
  lemma ExceptionEntryIffFailed(p: BuildParam, submit: Result<Nullable<Response>>, polls: seq<Result<Json>>,
                                output: Result<Json>, toJson: Json -> string)
    requires Waits(p, submit) && PollEnds(polls)
    requires CallResult(p, submit, polls, output, toJson).Ok?
    ensures var last := StateOf(polls[FirstStop(polls)]).value.state;
      last.Val? && IsTerminalState(last.v)
      && (ExecutionExceptionKey in CallResult(p, submit, polls, output, toJson).value <==> last.v != "completed")
  {
  }

  /** An accepted submission of a workflow without inputs, and the parameters
      of a build that waits for it. */
  function ScenarioParam(): BuildParam
  {
    BuildParam(Val("https://host"), Val("user"), Val("secret"), Null, Val("42"), true, Null)
  }

  function ScenarioSubmit(): Result<Nullable<Response>>
  {
    Ok(Val(Response(202, "HTTP/1.1 202 Accepted", [Header("Location", "https://host/exec/42")], Null)))
  }

  /** A first poll reports "running", the second "completed": the loop fetches
      twice, and the map holds the completed state and the serialised outputs and
      no exception. */
  lemma CompletedScenario(toJson: Json -> string)
    ensures var outputs := JArray([JObject(map[NameKey := JString("x"), ValueKey := JString("1")])]);
      var done := JObject(map[StateKey := JString("completed"), OutputParameters := outputs]);
      var polls := [Ok(JObject(map[StateKey := JString("running")])), Ok(done)];
      PollEnds(polls) && FirstStop(polls) == 1
      && CallResult(ScenarioParam(), ScenarioSubmit(), polls, Ok(done), toJson)
         == Ok(map[ExecutionStateKey := Val("completed"), ExecutionOutputKey := Val(toJson(outputs))])
  {
    var outputs := JArray([JObject(map[NameKey := JString("x"), ValueKey := JString("1")])]);
    var done := JObject(map[StateKey := JString("completed"), OutputParameters := outputs]);
    var polls := [Ok(JObject(map[StateKey := JString("running")])), Ok(done)];
    assert !Stops(polls[0]) && Stops(polls[1]);
    assert polls[1..][0] == polls[1];
    assert !IsFailedState("completed") by {
      assert ToLower("completed") == "completed";
      assert ToLower("canceled") == "canceled" && ToLower("failed") == "failed";
    }
  }

  /** The execution ends "failed" at the first poll: the map holds the failed
      state, no serialised outputs (there are none) and the exception text. */
  lemma FailedScenario(toJson: Json -> string)
    ensures var done := JObject(map[StateKey := JString("failed"), ContentException := JString("boom")]);
      PollEnds([Ok(done)])
      && CallResult(ScenarioParam(), ScenarioSubmit(), [Ok(done)], Ok(done), toJson)
      == Ok(map[ExecutionStateKey := Val("failed"), ExecutionOutputKey := Null, ExecutionExceptionKey := Val("boom")])
  {
    var done := JObject(map[StateKey := JString("failed"), ContentException := JString("boom")]);
    assert Stops([Ok(done)][0]);
    assert IsFailedState("failed") by {
      assert ToLower("failed") == "failed";
    }
  }

  /** The polling loop of `call`: fetch the state, report it, and fetch again
      until it is complete. `fetches` counts the state fetches, `log` holds the
      state reported after each successful one. */
  method AwaitCompletion(polls: seq<Result<Json>>)
    returns (r: Result<ExecutionState>, fetches: nat, log: seq<Nullable<string>>)
    requires PollEnds(polls)
    ensures fetches == FirstStop(polls) + 1
    ensures r.Ok? <==> StateOf(polls[FirstStop(polls)]).Ok?
    ensures r.Ok? ==> fresh(r.value) && r.value.View() == StateOf(polls[FirstStop(polls)]).value
    ensures r.Err? ==> r.error == StateOf(polls[FirstStop(polls)]).error
    ensures |log| == (if r.Ok? then fetches else fetches - 1)
    ensures forall j :: 0 <= j < |log| ==> StateOf(polls[j]).Ok? && log[j] == StateOf(polls[j]).value.state
  {
    var k := FirstStop(polls);
    log := [];
    var fetched := FetchWorkflowState(polls[0]);
    fetches := 1;
    if fetched.Err? {
      return fetched, fetches, log;
    }
    var executionState := fetched.value;
    log := log + [executionState.state];
    var i := 0;
    while !executionState.completed
      invariant 0 <= i <= k && fetches == i + 1
      invariant StateOf(polls[i]).Ok? && fresh(executionState) && executionState.View() == StateOf(polls[i]).value
      invariant |log| == i + 1
      invariant forall j :: 0 <= j <= i ==> StateOf(polls[j]).Ok? && log[j] == StateOf(polls[j]).value.state
      decreases k - i
    {
      assert i < k;
      fetched := FetchWorkflowState(polls[i + 1]);
      fetches := fetches + 1;
      i := i + 1;
      if fetched.Err? {
        return fetched, fetches, log;
      }
      executionState := fetched.value;
      log := log + [executionState.state];
    }
    r := Ok(executionState);
  }

  /** `call`: submit, then, when waiting, poll until complete, fetch the output
      and fill the map; any exception comes out wrapped. */
  method Call(p: BuildParam, submit: Result<Nullable<Response>>, polls: seq<Result<Json>>,
              output: Result<Json>, toJson: Json -> string)
    returns (r: Result<map<string, Nullable<string>>>, fetches: nat, log: seq<Nullable<string>>)
    requires Waits(p, submit) ==> PollEnds(polls)
    ensures r == CallResult(p, submit, polls, output, toJson)
    ensures !Waits(p, submit) ==> log == [] && fetches <= 1
    ensures Waits(p, submit) ==> fetches == FirstStop(polls) + 1
    ensures Waits(p, submit) ==>
      |log| == (if StateOf(polls[FirstStop(polls)]).Ok? then fetches else fetches - 1)
      && forall j :: 0 <= j < |log| ==> StateOf(polls[j]).Ok? && log[j] == StateOf(polls[j]).value.state
  {
    fetches, log := 0, [];
    var data: map<string, Nullable<string>> := map[];
    var posted, location := ExecuteWorkflow(p, submit);
    if location.Err? {
      return Err(Rethrown(location.error)), fetches, log;
    }
    if p.waitExec {
      if location.value.Null? {
        // `new URL(null)` in the first state fetch
        return Err(Rethrown(MalformedUrl)), 1, log;
      }
      var executionState;
      executionState, fetches, log := AwaitCompletion(polls);
      if executionState.Err? {
        return Err(Rethrown(executionState.error)), fetches, log;
      }
      var last := executionState.value;
      var executionOutput := FetchWorkflowOutputParameters(output, toJson);
      if executionOutput.Err? {
        return Err(Rethrown(executionOutput.error)), fetches, log;
      }
      var out := executionOutput.value;
      data := data[ExecutionStateKey := out.state];
      data := data[ExecutionOutputKey := out.parameters];
      if IsFailedState(last.state.v) {
        data := data[ExecutionExceptionKey := out.exception];
      }
    }
    r := Ok(data);
  }
}
