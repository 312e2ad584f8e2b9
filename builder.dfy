/**
 * `OrchestratorBuilder`: the build step. `perform` resolves the configured
 * workflow name to an id, resolves the settings against the build's
 * variables, validates them, runs the callable and turns its map into the
 * build's outcome. The descriptor's `doCheck*` methods are the form rules of
 * the configuration page, and `OrchestratorEnvAction` hands the results to
 * later build steps as environment variables.
 */
module OrchestratorBuilder {
  import opened Lang
  import opened Json
  import opened Model
  import opened RestClient
  import opened OrchestratorClient
  import opened EnvVariableResolver
  import opened OrchestratorCallable

  // ---------------------------------------------------------------------------
  // Resolving a workflow name to its id

  /** Some workflow in `ws` has no name. */
  predicate SomeUnnamed(ws: seq<WorkflowRecord>)
  {
    exists k :: 0 <= k < |ws| && ws[k].name.Null?
  }

  /** Some workflow in `ws` has exactly the name `name`. */
  predicate SomeNamed(ws: seq<WorkflowRecord>, name: Nullable<string>)
  {
    exists k :: 0 <= k < |ws| && ws[k].name == name
  }

  /** Some workflow in `ws` has exactly the name `name` and the id `id`. */
  predicate SomeNamedWithId(ws: seq<WorkflowRecord>, name: Nullable<string>, id: Nullable<string>)
  {
    exists k :: 0 <= k < |ws| && ws[k].name == name && ws[k].id == id
  }

  /** The loop of `perform` (and of `doFillNameItems`): the id of the first
      workflow whose name equals `name` exactly, null when none does; a workflow
      without a name met before the match is dereferenced. */
  function FirstMatch(ws: seq<WorkflowRecord>, name: Nullable<string>): (r: Result<Nullable<string>>)
    ensures r.Err? ==> r == Err(NullPointer) && SomeUnnamed(ws)
    ensures r.Ok? && r.value.Val? ==> SomeNamedWithId(ws, name, r.value)
    ensures r.Ok? && SomeNamed(ws, name) ==> SomeNamedWithId(ws, name, r.value)
    ensures !SomeUnnamed(ws) && !SomeNamed(ws, name) ==> r == Ok(Null)
  {
    if ws == [] then Ok(Null)
    else if ws[0].name.Null? then Err(NullPointer)
    else if ws[0].name == name then Ok(ws[0].id)
    else FirstMatch(ws[1..], name)
  }

  /** The first workflow with the name gives its id. */
  lemma {:induction false} FirstMatchFinds(ws: seq<WorkflowRecord>, name: Nullable<string>, k: nat)
    requires k < |ws| && ws[k].name.Val? && ws[k].name == name
    requires forall j :: 0 <= j < k ==> ws[j].name.Val? && ws[j].name != name
    ensures FirstMatch(ws, name) == Ok(ws[k].id)
  {
    if k > 0 {
      FirstMatchFinds(ws[1..], name, k - 1);
    }
  }

  /** A workflow without a name before any match makes the search fail. */
  lemma {:induction false} FirstMatchNullName(ws: seq<WorkflowRecord>, name: Nullable<string>, k: nat)
    requires k < |ws| && ws[k].name.Null?
    requires forall j :: 0 <= j < k ==> ws[j].name.Val? && ws[j].name != name
    ensures FirstMatch(ws, name) == Err(NullPointer)
  {
    if k > 0 {
      FirstMatchNullName(ws[1..], name, k - 1);
    }
  }

  /** Of two workflows named "A" the first one's id is taken; "Missing" is not found. */
  lemma FirstMatchExamples()
    ensures FirstMatch([WorkflowRecord(Val("A"), Val("1")), WorkflowRecord(Val("A"), Val("2"))], Val("A")) == Ok(Val("1"))
    ensures FirstMatch([WorkflowRecord(Val("A"), Val("1"))], Val("Missing")) == Ok(Null)
  {
    var ws := [WorkflowRecord(Val("A"), Val("1"))];
    assert ws[1..] == [];
  }

  /** The search loop over the fetched workflows; it stops at the first match. */
  method ResolveWorkflowId(workflows: seq<Workflow>, name: Nullable<string>) returns (r: Result<Nullable<string>>)
    ensures r == FirstMatch(WorkflowViews(workflows), name)
  {
    ghost var views := WorkflowViews(workflows);
    var workflowId: Nullable<string> := Null;
    var i := 0;
    while i < |workflows|
      invariant 0 <= i <= |workflows|
      invariant FirstMatch(views, name) == FirstMatch(views[i..], name)
    {
      assert views[i..][0] == views[i] && views[i..][1..] == views[i + 1..];
      if workflows[i].name.Null? {
        return Err(NullPointer);
      }
      if workflows[i].name == name {
        workflowId := workflows[i].id;
        break;
      }
      i := i + 1;
    }
    r := Ok(workflowId);
  }

  // ---------------------------------------------------------------------------
  // The outcome of a build

  const WorkflowMissing := "Workflow doesn't exist in the server."

  /** A failed build, or a successful one whose environment action holds the map. */
  datatype Verdict = Failure | Success(envData: map<string, Nullable<string>>)

  /** The end of `perform`: the build fails exactly when the returned state is
      canceled or failed, ignoring case; a map without a state is dereferenced. */
  function PerformVerdict(data: map<string, Nullable<string>>): (r: Result<Verdict>)
    ensures r.Err? <==> ExecutionStateKey !in data || data[ExecutionStateKey].Null?
    ensures r.Err? ==> r.error == NullPointer
    ensures r == Ok(Failure) <==>
      ExecutionStateKey in data && data[ExecutionStateKey].Val? && IsFailedState(data[ExecutionStateKey].v)
    ensures r.Ok? && r.value.Success? ==> r.value.envData == data
  {
    if ExecutionStateKey !in data || data[ExecutionStateKey].Null? then Err(NullPointer)
    else if IsFailedState(data[ExecutionStateKey].v) then Ok(Failure)
    else Ok(Success(data))
  }

  /** The builder's configuration, as saved with the job. */
  datatype Settings = Settings(
    serverUrl: Nullable<string>,
    userName: Nullable<string>,
    password: Nullable<string>,
    tenant: Nullable<string>,
    workflowName: Nullable<string>,
    waitExec: bool,
    inputParams: Nullable<seq<Parameter>>)

  /** The input parameters of the settings, as values. */
  function InputViews(s: Settings): Nullable<seq<ParameterRecord>>
    reads if s.inputParams.Val? then s.inputParams.v else []
  {
    if s.inputParams.Val? then Val(ParameterViews(s.inputParams.v)) else Null
  }

  /** The workflow id `perform` resolves: the configured name is resolved against
      the build's variables and looked up in the fetched list. */
  function WorkflowIdOf(expand: string -> string, workflowName: Nullable<string>, listBody: Result<Json>): Result<Nullable<string>>
  {
    var ws :- WorkflowsOf(listBody);
    FirstMatch(ws, Resolve(expand, workflowName))
  }

  /** The parameters `perform` hands to the callable: every setting resolved, the
      workflow id in place of the workflow name, the resolved inputs. */
  function ExecutionParam(s: Settings, inputs: Nullable<seq<ParameterRecord>>, expand: string -> string, id: string): (p: BuildParam)
    ensures p.workflowName == Val(id) && p.waitExec == s.waitExec
    ensures p.serverUrl == Resolve(expand, s.serverUrl) && p.tenant == Resolve(expand, s.tenant)
    ensures p.userName == Resolve(expand, s.userName) && p.password == Resolve(expand, s.password)
    ensures p.inputParams == Val(ResolveRecords(expand, inputs))
  {
    BuildParam(Resolve(expand, s.serverUrl), Resolve(expand, s.userName), Resolve(expand, s.password),
               Resolve(expand, s.tenant), Val(id), s.waitExec, Val(ResolveRecords(expand, inputs)))
  }

  /** What `perform` gives: exceptions of the lookup come out wrapped, a missing
      workflow is reported before anything is validated, and the callable's map
      decides the outcome. */
  function PerformResult(s: Settings, inputs: Nullable<seq<ParameterRecord>>, expand: string -> string,
                         listBody: Result<Json>, submit: Result<Nullable<Response>>, polls: seq<Result<Json>>,
                         output: Result<Json>, toJson: Json -> string): (r: Result<Verdict>)
    requires s.waitExec ==> PollEnds(polls)
    ensures var w := WorkflowIdOf(expand, s.workflowName, listBody);
      w.Err? ==> r == Err(Rethrown(w.error))
    ensures WorkflowIdOf(expand, s.workflowName, listBody) == Ok(Null) ==> r == Err(IOError(WorkflowMissing))
    ensures var w := WorkflowIdOf(expand, s.workflowName, listBody);
      w.Ok? && w.value.Val? ==> r == RunResult(ExecutionParam(s, inputs, expand, w.value.v), submit, polls, output, toJson)
    ensures var w := WorkflowIdOf(expand, s.workflowName, listBody);
      r.Ok? ==> w.Ok? && w.value.Val? && ExecutionParam(s, inputs, expand, w.value.v).Validate().Ok?
  {
    var id :- Wrap(WorkflowIdOf(expand, s.workflowName, listBody));
    if id.Null? then Err(IOError(WorkflowMissing))
    else RunResult(ExecutionParam(s, inputs, expand, id.v), submit, polls, output, toJson)
  }

  /** The second half of `perform`: validate, run the callable, judge its map. */
  function RunResult(param: BuildParam, submit: Result<Nullable<Response>>, polls: seq<Result<Json>>,
                     output: Result<Json>, toJson: Json -> string): (r: Result<Verdict>)
    requires param.waitExec ==> PollEnds(polls)
    ensures param.Validate().Err? ==> r == Err(param.Validate().error)
    ensures param.Validate().Ok? && CallResult(param, submit, polls, output, toJson).Err? ==>
      r == Err(CallResult(param, submit, polls, output, toJson).error)
    ensures param.Validate().Ok? && CallResult(param, submit, polls, output, toJson).Ok? ==>
      r == PerformVerdict(CallResult(param, submit, polls, output, toJson).value)
  {
    var _ :- param.Validate();
    var data :- CallResult(param, submit, polls, output, toJson);
    PerformVerdict(data)
  }

  /** An unknown workflow is reported as such even when every other setting is blank. */
  lemma MissingWorkflowReportedFirst(s: Settings, inputs: Nullable<seq<ParameterRecord>>, expand: string -> string,
                                     listBody: Result<Json>, submit: Result<Nullable<Response>>, polls: seq<Result<Json>>,
                                     output: Result<Json>, toJson: Json -> string)
    requires s.waitExec ==> PollEnds(polls)
    requires WorkflowIdOf(expand, s.workflowName, listBody) == Ok(Null)
    ensures PerformResult(s, inputs, expand, listBody, submit, polls, output, toJson) == Err(IOError(WorkflowMissing))
  {
  }

  /** It is the resolved id that is validated as the workflow name: a workflow
      whose id is empty fails validation with the workflow-name message. */
  lemma IdIsValidatedAsWorkflowName(s: Settings, inputs: Nullable<seq<ParameterRecord>>, expand: string -> string,
                                    listBody: Result<Json>, submit: Result<Nullable<Response>>, polls: seq<Result<Json>>,
                                    output: Result<Json>, toJson: Json -> string)
    requires s.waitExec ==> PollEnds(polls)
    requires WorkflowIdOf(expand, s.workflowName, listBody) == Ok(Val(""))
    requires !IsBlank(Resolve(expand, s.serverUrl)) && !IsBlank(Resolve(expand, s.userName))
    requires !IsBlank(Resolve(expand, s.password))
    ensures PerformResult(s, inputs, expand, listBody, submit, polls, output, toJson) == Err(IOError(WorkflowNameEmpty))
  {
    var p := ExecutionParam(s, inputs, expand, "");
    assert IsBlank(Val(""));
    assert p.Validate() == Err(IOError(WorkflowNameEmpty));
  }

  /** Without waiting the callable returns an empty map, so a build that gets that
      far always dereferences the missing state. */
  lemma NoWaitBuildDereferencesState(s: Settings, inputs: Nullable<seq<ParameterRecord>>, expand: string -> string,
                                     listBody: Result<Json>, submit: Result<Nullable<Response>>, polls: seq<Result<Json>>,
                                     output: Result<Json>, toJson: Json -> string, id: string)
    requires !s.waitExec
    requires WorkflowIdOf(expand, s.workflowName, listBody) == Ok(Val(id))
    requires ExecutionParam(s, inputs, expand, id).Validate().Ok?
    requires ExecutionLocation(ExecutionParam(s, inputs, expand, id).inputParams, submit).Ok?
    ensures PerformResult(s, inputs, expand, listBody, submit, polls, output, toJson) == Err(NullPointer)
  {
    NoWaitReturnsEmptyMap(ExecutionParam(s, inputs, expand, id), submit, polls, output, toJson);
  }

  /** The lookup at the start of `perform`, with its exceptions wrapped. */
  method LookupWorkflowId(expand: string -> string, workflowName: Nullable<string>, listBody: Result<Json>)
    returns (r: Result<Nullable<string>>)
    ensures r == Wrap(WorkflowIdOf(expand, workflowName, listBody))
  {
    var resolvedWfName := Resolve(expand, workflowName);
    var workflows := FetchWorkflows(listBody);
    if workflows.Err? {
      return Err(Rethrown(workflows.error));
    }
    var workflowId := ResolveWorkflowId(workflows.value, resolvedWfName);
    if workflowId.Err? {
      return Err(Rethrown(workflowId.error));
    }
    r := workflowId;
  }

  /** The rest of `perform`; on success the environment action it adds to the build. */
  method Run(param: BuildParam, submit: Result<Nullable<Response>>, polls: seq<Result<Json>>,
             output: Result<Json>, toJson: Json -> string)
    returns (r: Result<Verdict>, action: Nullable<OrchestratorEnvAction>)
    requires param.waitExec ==> PollEnds(polls)
    ensures r == RunResult(param, submit, polls, output, toJson)
    ensures action.Val? <==> r.Ok? && r.value.Success?
    ensures action.Val? ==> fresh(action.v) && action.v.data == Val(r.value.envData)
  {
    var valid := param.Validate();
    if valid.Err? {
      return Err(valid.error), Null;
    }
    var outputParameters, _, _ := Call(param, submit, polls, output, toJson);
    if outputParameters.Err? {
      return Err(outputParameters.error), Null;
    }
    var data := outputParameters.value;
    if ExecutionStateKey !in data || data[ExecutionStateKey].Null? {
      return Err(NullPointer), Null;
    }
    var state := data[ExecutionStateKey].v;
    if IsFailedState(state) {
      return Ok(Failure), Null;
    }
    var orchestratorAction := new OrchestratorEnvAction.Of(Val(data));
    r, action := Ok(Success(data)), Val(orchestratorAction);
  }

  /** `perform`. On success the environment action it adds to the build is returned. */
  method Perform(s: Settings, expand: string -> string, listBody: Result<Json>, submit: Result<Nullable<Response>>,
                 polls: seq<Result<Json>>, output: Result<Json>, toJson: Json -> string)
    returns (r: Result<Verdict>, action: Nullable<OrchestratorEnvAction>)
    requires s.waitExec ==> PollEnds(polls)
    ensures r == PerformResult(s, InputViews(s), expand, listBody, submit, polls, output, toJson)
    ensures action.Val? <==> r.Ok? && r.value.Success?
    ensures action.Val? ==> fresh(action.v) && action.v.data == Val(r.value.envData)
  {
    var workflowId := LookupWorkflowId(expand, s.workflowName, listBody);
    if workflowId.Err? {
      return Err(workflowId.error), Null;
    }
    if workflowId.value.Null? {
      return Err(IOError(WorkflowMissing)), Null;
    }
    var resolved := ResolveParameters(expand, s.inputParams);
    var param := BuildParam(Resolve(expand, s.serverUrl), Resolve(expand, s.userName), Resolve(expand, s.password),
                            Resolve(expand, s.tenant), workflowId.value, s.waitExec, Val(ParameterViews(resolved)));
    assert param == ExecutionParam(s, InputViews(s), expand, workflowId.value.v);
    r, action := Run(param, submit, polls, output, toJson);
  }

  // ---------------------------------------------------------------------------
  // Form validation

  datatype FormValidation = Valid | Invalid(message: string)

  const EnterServerUrl := "Please enter Orchestrator server URL."
  const NotValidUri := "This is not a valid URI"
  const EnterUserName := "Please enter user name."
  const EnterPassword := "Please enter password."
  const NoVariableInPassword := "Environment variable cannot be used in password."
  const EnterWorkflowName := "Please enter workflow name."
  const WorkflowNotFound := "Workflow with the given name doesn't exist in the server."
  const EnterTenant := "Please enter tenant."

  /** `doCheckServerUrl`. `isValidUri` stands for `new URL(value).toURI()`
      succeeding; it is given the value as entered, untrimmed. */
  function CheckServerUrl(value: Nullable<string>, isValidUri: string -> bool): (r: FormValidation)
    ensures FixEmptyAndTrim(value).Null? <==> r == Invalid(EnterServerUrl)
    ensures FixEmptyAndTrim(value).Val? && '$' in value.v ==> r == Valid
    ensures FixEmptyAndTrim(value).Val? && '$' !in value.v ==>
              (r == Valid <==> isValidUri(value.v)) && (r != Valid ==> r == Invalid(NotValidUri))
  {
    var url := FixEmptyAndTrim(value);
    if url.Null? then Invalid(EnterServerUrl)
    else
      TrimKeepsNonTrimmable(value.v, '$');
      if IndexOf(url.v, '$') >= 0 then Valid
      else if isValidUri(value.v) then Valid
      else Invalid(NotValidUri)
  }

  /** `doCheckUserName`: only a user name that is empty after trimming is refused. */
  function CheckUserName(value: Nullable<string>): (r: FormValidation)
    ensures r != Valid <==> value.Null? || forall i :: 0 <= i < |value.v| ==> IsTrimmable(value.v[i])
    ensures r != Valid ==> r == Invalid(EnterUserName)
  {
    var username := FixEmptyAndTrim(value);
    if username.Null? then Invalid(EnterUserName)
    else if IndexOf(username.v, '$') >= 0 then Valid
    else Valid
  }

  /** `doCheckPassword`: an empty password and one naming a variable are refused. */
  function CheckPassword(value: Nullable<string>): (r: FormValidation)
    ensures r == Valid <==> FixEmptyAndTrim(value).Val? && '$' !in value.v
    ensures FixEmptyAndTrim(value).Null? ==> r == Invalid(EnterPassword)
    ensures FixEmptyAndTrim(value).Val? && '$' in value.v ==> r == Invalid(NoVariableInPassword)
  {
    var password := FixEmptyAndTrim(value);
    if password.Null? then Invalid(EnterPassword)
    else
      TrimKeepsNonTrimmable(value.v, '$');
      if IndexOf(password.v, '$') >= 0 then Invalid(NoVariableInPassword)
      else Valid
  }

  /** `doCheckWorkflowName` once the list is fetched: is some workflow called
      exactly `workflowName`? Every workflow is looked at (there is no early
      exit), so any workflow without a name makes the check fail. */
  function NameListed(ws: seq<WorkflowRecord>, workflowName: Nullable<string>): (r: Result<bool>)
    ensures r.Err? <==> exists k :: 0 <= k < |ws| && ws[k].name.Null?
    ensures r.Ok? ==> (r.value <==> exists k :: 0 <= k < |ws| && ws[k].name == workflowName)
  {
    if exists k :: 0 <= k < |ws| && ws[k].name.Null? then Err(NullPointer)
    else Ok(exists k :: 0 <= k < |ws| && ws[k].name == workflowName)
  }

  /** Unlike `perform`'s search, the check goes on after a match: a nameless
      workflow after it still fails the check. */
  lemma CheckScansPastMatch()
    ensures FirstMatch([WorkflowRecord(Val("A"), Val("1")), WorkflowRecord(Null, Null)], Val("A")) == Ok(Val("1"))
    ensures NameListed([WorkflowRecord(Val("A"), Val("1")), WorkflowRecord(Null, Null)], Val("A")) == Err(NullPointer)
  {
    var ws := [WorkflowRecord(Val("A"), Val("1")), WorkflowRecord(Null, Null)];
    assert ws[1].name.Null?;
  }

  /** `doCheckWorkflowName`. The fetched names are compared with the name as
      entered, not with its trimmed form. */
  function WorkflowNameCheck(workflowName: Nullable<string>, listBody: Result<Json>): (r: Result<FormValidation>)
    ensures FixEmptyAndTrim(workflowName).Null? ==> r == Ok(Invalid(EnterWorkflowName))
    ensures FixEmptyAndTrim(workflowName).Val? && '$' in workflowName.v ==> r == Ok(Valid)
    ensures FixEmptyAndTrim(workflowName).Val? && '$' !in workflowName.v ==>
      (r.Err? <==> WorkflowsOf(listBody).Err? || NameListed(WorkflowsOf(listBody).value, workflowName).Err?)
    ensures FixEmptyAndTrim(workflowName).Val? && '$' !in workflowName.v && r.Ok? ==>
      (r.value == Valid <==> exists k :: 0 <= k < |WorkflowsOf(listBody).value| && WorkflowsOf(listBody).value[k].name == workflowName)
      && (r.value != Valid ==> r.value == Invalid(WorkflowNotFound))
  {
    var value := FixEmptyAndTrim(workflowName);
    if value.Null? then Ok(Invalid(EnterWorkflowName))
    else
      TrimKeepsNonTrimmable(workflowName.v, '$');
      if IndexOf(value.v, '$') >= 0 then Ok(Valid)
      else
        var ws :- WorkflowsOf(listBody);
        var found :- NameListed(ws, workflowName);
        if found then Ok(Valid) else Ok(Invalid(WorkflowNotFound))
  }

  /** The name is compared as entered: one with a trailing space is accepted by
      the 'enter a name' rule but matches no workflow of the trimmed name. */
  lemma CheckComparesUntrimmedName()
    ensures FixEmptyAndTrim(Val("A ")) == Val("A")
    ensures NameListed([WorkflowRecord(Val("A"), Val("1"))], Val("A ")) == Ok(false)
  {
    assert TrimStart("A ") == "A ";
    assert "A "[..1] == "A";
    assert TrimEnd("A ") == "A";
  }

  /** The loop of `doCheckWorkflowName` over the fetched workflows. */
  method CheckWorkflowName(workflowName: Nullable<string>, listBody: Result<Json>) returns (r: Result<FormValidation>)
    ensures r == WorkflowNameCheck(workflowName, listBody)
  {
    var value := FixEmptyAndTrim(workflowName);
    if value.Null? {
      return Ok(Invalid(EnterWorkflowName));
    }
    if IndexOf(value.v, '$') >= 0 {
      return Ok(Valid);
    }
    var fetched := FetchWorkflows(listBody);
    if fetched.Err? {
      return Err(fetched.error);
    }
    var found := ScanWorkflowNames(fetched.value, workflowName);
    if found.Err? {
      return Err(found.error);
    }
    if !found.value {
      return Ok(Invalid(WorkflowNotFound));
    }
    r := Ok(Valid);
  }

  /** The loop of `doCheckWorkflowName`: every fetched name is compared, and a
      nameless workflow anywhere in the list is dereferenced. */
  method ScanWorkflowNames(workflows: seq<Workflow>, workflowName: Nullable<string>) returns (r: Result<bool>)
    ensures r == NameListed(WorkflowViews(workflows), workflowName)
  {
    ghost var views := WorkflowViews(workflows);
    var isWorkflowFound := false;
    for i := 0 to |workflows|
      invariant forall k :: 0 <= k < i ==> views[k].name.Val?
      invariant isWorkflowFound <==> exists k :: 0 <= k < i && views[k].name == workflowName
    {
      if workflows[i].name.Null? {
        assert views[i].name.Null?;
        return Err(NullPointer);
      }
      if workflows[i].name == workflowName {
        isWorkflowFound := true;
      }
    }
    r := Ok(isWorkflowFound);
  }

  /** `doCheckTenant`: a tenant is required only when single sign-on is enabled. */
  function CheckTenant(ssoEnabled: bool, tenant: Nullable<string>): (r: FormValidation)
    ensures !ssoEnabled ==> r == Valid
    ensures r != Valid <==> ssoEnabled && FixEmptyAndTrim(tenant).Null?
    ensures r != Valid ==> r == Invalid(EnterTenant)
  {
    if ssoEnabled then
      var tenantVal := FixEmptyAndTrim(tenant);
      if tenantVal.Null? then Invalid(EnterTenant)
      else if IndexOf(tenantVal.v, '$') >= 0 then Valid
      else Valid
    else Valid
  }

  // ---------------------------------------------------------------------------
  // Handing the results to later build steps

  /** The build's environment, as a map from variable name to value. */
  class EnvVars {
    var vars: map<string, Nullable<string>>

    constructor (vars: map<string, Nullable<string>>)
      ensures this.vars == vars
    {
      this.vars := vars;
    }
  }

  /** `OrchestratorEnvAction`: the map `perform` hands on, possibly null. */
  class OrchestratorEnvAction {
    var data: Nullable<map<string, Nullable<string>>>

    /** The no-argument constructor starts from an empty map. */
    constructor ()
      ensures data == Val(map[])
    {
      data := Val(map[]);
    }

    constructor Of(data: Nullable<map<string, Nullable<string>>>)
      ensures this.data == data
    {
      this.data := data;
    }

    /** `add`: puts one entry; nothing happens when there is no map. */
    method Add(key: string, val: Nullable<string>)
      modifies this
      ensures old(data).Null? ==> data == Null
      ensures old(data).Val? ==> data == Val(old(data).v[key := val])
    {
      if data.Null? {
        return;
      }
      data := Val(data.v[key := val]);
    }

    /** `addAll`: puts every entry of `m`, later entries of `m` replacing existing
        ones; without a map it is a null dereference. */
    method AddAll(m: map<string, Nullable<string>>) returns (o: Outcome)
      modifies this
      ensures old(data).Null? ==> o == Fail(NullPointer) && data == Null
      ensures old(data).Val? ==> o == Pass && data == Val(old(data).v + m)
    {
      if data.Null? {
        return Fail(NullPointer);
      }
      data := Val(data.v + m);
      o := Pass;
    }

    /** `buildEnvVars`: copies every entry of the map into the environment and
        leaves every other variable as it was. */
    method BuildEnvVars(env: EnvVars)
      modifies env
      ensures data.Null? ==> env.vars == old(env.vars)
      ensures data.Val? ==> forall k :: k in data.v ==> k in env.vars && env.vars[k] == data.v[k]
      ensures data.Val? ==> forall k :: k in old(env.vars) && k !in data.v ==> k in env.vars && env.vars[k] == old(env.vars)[k]
      ensures data.Val? ==> env.vars.Keys == old(env.vars).Keys + data.v.Keys
    {
      if data.Val? {
        env.vars := env.vars + data.v;
      }
    }
  }
}
