/**
 * The plugin's records (package `model`): the mutable holders `Workflow`,
 * `Parameter`, `ExecutionState` and `ExecutionOutput`, whose setters each
 * change one field, and the immutable `BuildParam` with its `validate`.
 * Each class has a value view, a datatype of the same fields, which the
 * specification functions of the other modules work on.
 */
module Model {
  import opened Lang

  datatype WorkflowRecord = WorkflowRecord(name: Nullable<string>, id: Nullable<string>)
  datatype ParameterRecord = ParameterRecord(name: Nullable<string>, paramType: Nullable<string>, value: Nullable<string>)
  datatype StateRecord = StateRecord(state: Nullable<string>, completed: bool)
  datatype OutputRecord = OutputRecord(state: Nullable<string>, parameters: Nullable<string>, exception: Nullable<string>)

  /** A workflow known to the server: its display name and its id. */
  class Workflow {
    var name: Nullable<string>
    var id: Nullable<string>

    function View(): WorkflowRecord
      reads this
    {
      WorkflowRecord(name, id)
    }

    /** The no-argument constructor leaves both fields null. */
    constructor ()
      ensures View() == WorkflowRecord(Null, Null)
    {
      name, id := Null, Null;
    }

    constructor Of(name: Nullable<string>, id: Nullable<string>)
      ensures View() == WorkflowRecord(name, id)
    {
      this.name, this.id := name, id;
    }

    method SetName(name: Nullable<string>)
      modifies this
      ensures View() == old(View()).(name := name)
    {
      this.name := name;
    }

    method SetId(id: Nullable<string>)
      modifies this
      ensures View() == old(View()).(id := id)
    {
      this.id := id;
    }
  }

  /** A workflow input: its name, its type tag and the value to pass. */
  class Parameter {
    var name: Nullable<string>
    var paramType: Nullable<string>
    var value: Nullable<string>

    function View(): ParameterRecord
      reads this
    {
      ParameterRecord(name, paramType, value)
    }

    constructor (name: Nullable<string>, paramType: Nullable<string>, value: Nullable<string>)
      ensures View() == ParameterRecord(name, paramType, value)
    {
      this.name, this.paramType, this.value := name, paramType, value;
    }

    method SetName(name: Nullable<string>)
      modifies this
      ensures View() == old(View()).(name := name)
    {
      this.name := name;
    }

    method SetValue(value: Nullable<string>)
      modifies this
      ensures View() == old(View()).(value := value)
    {
      this.value := value;
    }

    method SetType(paramType: Nullable<string>)
      modifies this
      ensures View() == old(View()).(paramType := paramType)
    {
      this.paramType := paramType;
    }

    /** `Object.clone`: a new object with the same three fields. */
    method Clone() returns (c: Parameter)
      ensures fresh(c) && c.View() == View()
    {
      c := new Parameter(name, paramType, value);
    }
  }

  /** The state of a running execution, as last fetched. */
  class ExecutionState {
    var state: Nullable<string>
    var completed: bool

    function View(): StateRecord
      reads this
    {
      StateRecord(state, completed)
    }

    constructor ()
      ensures View() == StateRecord(Null, false)
    {
      state, completed := Null, false;
    }

    method SetState(state: Nullable<string>)
      modifies this
      ensures View() == old(View()).(state := state)
    {
      this.state := state;
    }

    method SetCompleted(completed: bool)
      modifies this
      ensures View() == old(View()).(completed := completed)
    {
      this.completed := completed;
    }
  }

  /** The result of a finished execution. The `exception` field and its setter are
      not in the class as published, but the client sets it and the callable reads it. */
  class ExecutionOutput {
    var state: Nullable<string>
    var parameters: Nullable<string>
    var exception: Nullable<string>

    function View(): OutputRecord
      reads this
    {
      OutputRecord(state, parameters, exception)
    }

    constructor ()
      ensures View() == OutputRecord(Null, Null, Null)
    {
      state, parameters, exception := Null, Null, Null;
    }

    method SetState(state: Nullable<string>)
      modifies this
      ensures View() == old(View()).(state := state)
    {
      this.state := state;
    }

    method SetParameters(parameters: Nullable<string>)
      modifies this
      ensures View() == old(View()).(parameters := parameters)
    {
      this.parameters := parameters;
    }

    method SetException(exception: Nullable<string>)
      modifies this
      ensures View() == old(View()).(exception := exception)
    {
      this.exception := exception;
    }
  }

  /** The values held by a list of workflow objects, in order. This and
      `ParameterViews` are written out for each class: the two classes share no
      supertype, so one function cannot read both. */
  function WorkflowViews(ws: seq<Workflow>): (r: seq<WorkflowRecord>)
    reads ws
    ensures |r| == |ws| && forall i :: 0 <= i < |ws| ==> r[i] == ws[i].View()
  {
    seq(|ws|, i reads ws requires 0 <= i < |ws| => ws[i].View())
  }

  /** The values held by a list of parameter objects, in order. */
  function ParameterViews(ps: seq<Parameter>): (r: seq<ParameterRecord>)
    reads ps
    ensures |r| == |ps| && forall i :: 0 <= i < |ps| ==> r[i] == ps[i].View()
  {
    seq(|ps|, i reads ps requires 0 <= i < |ps| => ps[i].View())
  }

  // ---------------------------------------------------------------------------
  // BuildParam

  const ServerUrlEmpty := "Orchestrator server url cannot be empty"
  const UserNameEmpty := "Orchestrator server username cannot be empty"
  const PasswordEmpty := "Orchestrator server password cannot be empty"
  const WorkflowNameEmpty := "Orchestrator workflow name cannot be empty"

  /** Everything one build step needs. The fields are final, so the value is the object. */
  datatype BuildParam = BuildParam(
    serverUrl: Nullable<string>,
    userName: Nullable<string>,
    password: Nullable<string>,
    tenant: Nullable<string>,
    workflowName: Nullable<string>,
    waitExec: bool,
    inputParams: Nullable<seq<ParameterRecord>>)
  {
    /** The fields `validate` checks, in the order it checks them, with the message of each. */
    function CheckedFields(): (r: seq<(Nullable<string>, string)>)
    {
      [(serverUrl, ServerUrlEmpty), (userName, UserNameEmpty),
       (password, PasswordEmpty), (workflowName, WorkflowNameEmpty)]
    }

    /** `validate`: true when the server URL, user name, password and workflow name
        are all non-blank; otherwise the message of the first blank one. */
    function Validate(): (r: Result<bool>)
      ensures r.Ok? <==> !IsBlank(serverUrl) && !IsBlank(userName) && !IsBlank(password) && !IsBlank(workflowName)
      ensures r.Ok? ==> r.value
    {
      if IsBlank(serverUrl) then Err(IOError(ServerUrlEmpty))
      else if IsBlank(userName) then Err(IOError(UserNameEmpty))
      else if IsBlank(password) then Err(IOError(PasswordEmpty))
      else if IsBlank(workflowName) then Err(IOError(WorkflowNameEmpty))
      else Ok(true)
    }
  }

  /** The five-argument constructor: no waiting, no input parameters. */
  function BuildParamWithoutInputs(serverUrl: Nullable<string>, userName: Nullable<string>, password: Nullable<string>,
                                   tenant: Nullable<string>, workflowName: Nullable<string>): (p: BuildParam)
    ensures !p.waitExec && p.inputParams == Null
    ensures p.serverUrl == serverUrl && p.userName == userName && p.password == password
    ensures p.tenant == tenant && p.workflowName == workflowName
  {
    BuildParam(serverUrl, userName, password, tenant, workflowName, false, Null)
  }

  /** A failed `validate` reports the first blank field of the fixed order
      server URL, user name, password, workflow name. */
  lemma ValidateReportsFirstBlank(p: BuildParam)
    requires p.Validate().Err?
    ensures exists k :: (0 <= k < 4 && IsBlank(p.CheckedFields()[k].0)
      && (forall j :: 0 <= j < k ==> !IsBlank(p.CheckedFields()[j].0))
      && p.Validate().error == IOError(p.CheckedFields()[k].1))
  {
    var f := p.CheckedFields();
    if IsBlank(p.serverUrl) {
      assert IsBlank(f[0].0);
    } else if IsBlank(p.userName) {
      assert IsBlank(f[1].0) && !IsBlank(f[0].0);
    } else if IsBlank(p.password) {
      assert IsBlank(f[2].0) && !IsBlank(f[0].0) && !IsBlank(f[1].0);
    } else {
      assert IsBlank(f[3].0) && !IsBlank(f[0].0) && !IsBlank(f[1].0) && !IsBlank(f[2].0);
    }
  }

  /** The tenant, the wait flag and the input parameters play no part in `validate`. */
  lemma ValidateIgnoresUncheckedFields(p: BuildParam, tenant: Nullable<string>, waitExec: bool,
                                       inputParams: Nullable<seq<ParameterRecord>>)
    ensures p.(tenant := tenant, waitExec := waitExec, inputParams := inputParams).Validate() == p.Validate()
  {
  }
}
