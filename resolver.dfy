/**
 * `EnvVariableResolver`: build variables substituted into the plugin's
 * settings. The environment's `expand` is a parameter: the model makes no
 * assumption about which variables exist or how they are written.
 */
module EnvVariableResolver {
  import opened Lang
  import opened Model

  /** `getValueForBuildParameter(String)`: expand, trim, and turn the empty
      string into null; a null setting stays null. */
  function Resolve(expand: string -> string, s: Nullable<string>): (r: Nullable<string>)
    ensures s.Null? ==> r == Null
    ensures s.Val? ==> (r.Null? <==> forall i :: 0 <= i < |expand(s.v)| ==> IsTrimmable(expand(s.v)[i]))
    ensures r.Val? ==> s.Val? && r.v == Trim(expand(s.v)) && r.v != []
  {
    match s
    case Null => Null
    case Val(t) => FixEmptyAndTrim(Val(expand(t)))
  }

  /** With nothing to substitute, resolving an already resolved setting changes nothing. */
  lemma ResolveIdempotent(s: Nullable<string>)
    ensures Resolve(x => x, Resolve(x => x, s)) == Resolve(x => x, s)
  {
    if s.Val? {
      var once := Resolve(x => x, s);
      if once.Val? {
        TrimIdempotent(s.v);
      }
    }
  }

  /** One input parameter with its three fields resolved. */
  function ResolveRecord(expand: string -> string, p: ParameterRecord): ParameterRecord
  {
    ParameterRecord(Resolve(expand, p.name), Resolve(expand, p.paramType), Resolve(expand, p.value))
  }

  /** The resolved input parameters: none for a null list, otherwise one per input, in order. */
  function ResolveRecords(expand: string -> string, ps: Nullable<seq<ParameterRecord>>): (r: seq<ParameterRecord>)
    ensures ps.Null? ==> r == []
    ensures ps.Val? ==> |r| == |ps.v| && forall i :: 0 <= i < |ps.v| ==> r[i] == ResolveRecord(expand, ps.v[i])
  {
    match ps
    case Null => []
    case Val(s) => seq(|s|, i requires 0 <= i < |s| => ResolveRecord(expand, s[i]))
  }

  /** `getValueForBuildParameter(List<Parameter>)`: each input is cloned and the
      clone's name, value and type are resolved; the inputs themselves are not
      touched (the method may modify nothing that existed before it). */
  method ResolveParameters(expand: string -> string, workflowInputParams: Nullable<seq<Parameter>>)
    returns (inputParams: seq<Parameter>)
    ensures workflowInputParams.Null? ==> inputParams == []
    ensures workflowInputParams.Val? ==>
      ParameterViews(inputParams) == ResolveRecords(expand, Val(ParameterViews(workflowInputParams.v)))
    ensures forall k :: 0 <= k < |inputParams| ==> fresh(inputParams[k])
  {
    inputParams := [];
    if workflowInputParams.Null? {
      return;
    }
    var ps := workflowInputParams.v;
    for i := 0 to |ps|
      invariant |inputParams| == i
      invariant forall k :: 0 <= k < i ==> fresh(inputParams[k])
      invariant forall k :: 0 <= k < i ==> inputParams[k].View() == ResolveRecord(expand, ps[k].View())
    {
      var cloned := ResolvedClone(expand, ps[i]);
      inputParams := inputParams + [cloned];
    }
  }

  /** The body of that loop: a clone of `parameter` whose name, value and type
      are then resolved in turn. */
  method ResolvedClone(expand: string -> string, parameter: Parameter) returns (cloned: Parameter)
    ensures fresh(cloned) && cloned.View() == ResolveRecord(expand, parameter.View())
  {
    cloned := parameter.Clone();
    cloned.SetName(Resolve(expand, cloned.name));
    cloned.SetValue(Resolve(expand, cloned.value));
    cloned.SetType(Resolve(expand, cloned.paramType));
  }
}
