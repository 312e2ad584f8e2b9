/**
 * `Parameter.DescriptorImpl.doFillNameItems`: the drop-down of a workflow's
 * input parameters on the configuration page. The workflow is looked up by
 * name in the server's list, its input parameters are fetched by the id
 * found, and each becomes an option labelled `name@type`. The server's two
 * answers are inputs; `matches` stands for `String.matches`, the regular
 * expression match of a label against the option currently chosen.
 */
module ParameterDescriptor {
  import opened Lang
  import opened Json
  import opened Model
  import opened OrchestratorClient
  import opened OrchestratorBuilder

  /** `ListBoxModel.Option`: the text shown, the value submitted, whether it is selected. */
  datatype ListOption = ListOption(name: string, value: string, selected: bool)

  /** `String.format("%s@%s", name, type)`. */
  function OptionLabel(p: ParameterRecord): string
  {
    Show(p.name) + "@" + Show(p.paramType)
  }

  /** The label of a parameter whose name holds no '@' splits back, at its first
      '@', into the parameter's name and type, as the payload encoder splits it. */
  lemma LabelSplitsBack(p: ParameterRecord)
    requires p.name.Val? && p.paramType.Val? && '@' !in p.name.v
    ensures SplitName(Val(OptionLabel(p))) == Ok((p.name.v, p.paramType.v))
  {
    SplitLabelRoundTrip(p.name.v, p.paramType.v);
  }

  /** One option per parameter, in order, each labelled and valued by its label
      and selected when the label matches `name`; matching against a null `name`
      is a null dereference, met only when there is a parameter to match. */
  function Options(ps: seq<ParameterRecord>, name: Nullable<string>, matches: (string, string) -> bool): (r: Result<seq<ListOption>>)
    ensures ps == [] ==> r == Ok([])
    ensures ps != [] && name.Null? ==> r == Err(NullPointer)
    ensures r.Ok? ==> |r.value| == |ps|
    ensures r.Ok? ==> forall i :: 0 <= i < |ps| ==>
      name.Val? && r.value[i].name == OptionLabel(ps[i]) && r.value[i].value == OptionLabel(ps[i])
      && (r.value[i].selected <==> matches(OptionLabel(ps[i]), name.v))
  {
    if ps == [] then Ok([])
    else if name.Null? then Err(NullPointer)
    else Ok(seq(|ps|, i requires 0 <= i < |ps| => ListOption(OptionLabel(ps[i]), OptionLabel(ps[i]), matches(OptionLabel(ps[i]), name.v))))
  }

  /** What `doFillNameItems` returns: the workflow named exactly `workflowName`
      (as entered, not resolved) is looked up in the list, its inputs are fetched
      by the id found, and they become options. */
  function NameItems(workflowName: Nullable<string>, name: Nullable<string>, listBody: Result<Json>,
                     detailBody: Result<Json>, matches: (string, string) -> bool): (r: Result<seq<ListOption>>)
    ensures WorkflowsOf(listBody).Err? ==> r == Err(WorkflowsOf(listBody).error)
    ensures WorkflowsOf(listBody).Ok? && FirstMatch(WorkflowsOf(listBody).value, workflowName).Err? ==>
              r == Err(FirstMatch(WorkflowsOf(listBody).value, workflowName).error)
    ensures WorkflowsOf(listBody).Ok? && FirstMatch(WorkflowsOf(listBody).value, workflowName).Ok? ==>
              var ps := InputParametersOf(FirstMatch(WorkflowsOf(listBody).value, workflowName).value, detailBody);
              && (ps.Err? ==> r == Err(ps.error))
              && (ps.Ok? ==> r == Options(ps.value, name, matches))
  {
    var ws :- WorkflowsOf(listBody);
    var id :- FirstMatch(ws, workflowName);
    var ps :- InputParametersOf(id, detailBody);
    Options(ps, name, matches)
  }

  /** A workflow that is not in the list gives no options, whatever the server
      would answer and whatever option is chosen. */
  lemma UnknownWorkflowHasNoOptions(workflowName: Nullable<string>, name: Nullable<string>, listBody: Result<Json>,
                                    detailBody: Result<Json>, matches: (string, string) -> bool)
    requires WorkflowsOf(listBody).Ok? && FirstMatch(WorkflowsOf(listBody).value, workflowName) == Ok(Null)
    ensures NameItems(workflowName, name, listBody, detailBody, matches) == Ok([])
  {
  }

  /** For a known workflow there is one option per input parameter, in order,
      and the label of each splits back into that parameter's name and type when
      the name holds no '@'. */
  lemma OneOptionPerInput(workflowName: Nullable<string>, name: string, listBody: Result<Json>,
                          detailBody: Result<Json>, matches: (string, string) -> bool, id: string)
    requires WorkflowsOf(listBody).Ok? && FirstMatch(WorkflowsOf(listBody).value, workflowName) == Ok(Val(id))
    requires InputParametersOf(Val(id), detailBody).Ok?
    ensures var ps := InputParametersOf(Val(id), detailBody).value;
      var r := NameItems(workflowName, Val(name), listBody, detailBody, matches);
      r.Ok? && |r.value| == |ps|
      && forall i :: 0 <= i < |ps| && '@' !in ps[i].name.v ==>
           SplitName(Val(r.value[i].value)) == Ok((ps[i].name.v, ps[i].paramType.v))
  {
    var ps := InputParametersOf(Val(id), detailBody).value;
    var r := NameItems(workflowName, Val(name), listBody, detailBody, matches);
    forall i | 0 <= i < |ps| && '@' !in ps[i].name.v
      ensures SplitName(Val(r.value[i].value)) == Ok((ps[i].name.v, ps[i].paramType.v))
    {
      LabelSplitsBack(ps[i]);
    }
  }

  /** The loop that turns the fetched parameters into options. */
  method NewOptions(parameters: seq<Parameter>, name: Nullable<string>, matches: (string, string) -> bool)
    returns (r: Result<seq<ListOption>>)
    ensures r == Options(ParameterViews(parameters), name, matches)
  {
    ghost var views := ParameterViews(parameters);
    var options: seq<ListOption> := [];
    for i := 0 to |parameters|
      invariant |options| == i && (i > 0 ==> name.Val?)
      invariant forall k :: 0 <= k < i ==>
        name.Val? && options[k] == ListOption(OptionLabel(views[k]), OptionLabel(views[k]), matches(OptionLabel(views[k]), name.v))
    {
      var paramDisplayName := Show(parameters[i].name) + "@" + Show(parameters[i].paramType);
      assert paramDisplayName == OptionLabel(views[i]);
      if name.Null? {
        return Err(NullPointer);
      }
      options := options + [ListOption(paramDisplayName, paramDisplayName, matches(paramDisplayName, name.v))];
    }
    if parameters != [] {
      assert options == Options(views, name, matches).value;
    }
    r := Ok(options);
  }

  /** `doFillNameItems`. The credentials only address the server, whose answers
      are `listBody` (the workflow list) and `detailBody` (the workflow found). */
  method FillNameItems(serverUrl: Nullable<string>, userName: Nullable<string>, password: Nullable<string>,
                       tenant: Nullable<string>, workflowName: Nullable<string>, name: Nullable<string>,
                       listBody: Result<Json>, detailBody: Result<Json>, matches: (string, string) -> bool)
    returns (r: Result<seq<ListOption>>)
    ensures r == NameItems(workflowName, name, listBody, detailBody, matches)
  {
    var workflows := FetchWorkflows(listBody);
    if workflows.Err? {
      return Err(workflows.error);
    }
    var workflowId := ResolveWorkflowId(workflows.value, workflowName);
    if workflowId.Err? {
      return Err(workflowId.error);
    }
    var buildParam := BuildParamWithoutInputs(serverUrl, userName, password, tenant, workflowId.value);
    var parameters := FetchWorkflowInputParameters(buildParam, detailBody);
    if parameters.Err? {
      return Err(parameters.error);
    }
    r := NewOptions(parameters.value, name, matches);
  }
}
