/**
 * `OrchestratorClient`: the body of a workflow submission, built from the
 * `name@type` input parameters, and the decoders that turn the server's JSON
 * answers into records. Each answer is given as the parsed body of the GET
 * (`Err` for any failure of the request itself, its token exchange or the
 * parse); the decoders add the Gson exceptions of their own accessors.
 */
module OrchestratorClient {
  import opened Lang
  import opened Json
  import opened Model
  import opened RestClient

  // JSON keys
  const InputParameters := "input-parameters"
  const OutputParameters := "output-parameters"
  const ContentException := "content-exception"
  const NameKey := "name"
  const TypeKey := "type"
  const ValueKey := "value"
  const IdKey := "id"
  const SdkObject := "sdk-object"
  const ParametersKey := "parameters"
  const StateKey := "state"
  const LinkKey := "link"
  const AttributesKey := "attributes"

  // ---------------------------------------------------------------------------
  // The submission body

  /** The split of a parameter name `name@type` at its first '@'; a null name is
      dereferenced and a name without '@' makes `substring(0, -1)` fail. */
  function SplitName(name: Nullable<string>): (r: Result<(string, string)>)
    ensures name.Null? ==> r == Err(NullPointer)
    ensures name.Val? ==> (r.Ok? <==> '@' in name.v)
    ensures name.Val? && '@' !in name.v ==> r == Err(IndexOutOfBounds)
    ensures r.Ok? ==> name.Val? && name.v == r.value.0 + "@" + r.value.1 && '@' !in r.value.0
  {
    match name
    case Null => Err(NullPointer)
    case Val(s) =>
      var k := IndexOf(s, '@');
      if k < 0 then Err(IndexOutOfBounds)
      else
        assert s == s[..k] + "@" + s[k + 1..];
        Ok((s[..k], s[k + 1..]))
  }

  /** A name without '@' joined to any type tag splits back into the two. */
  lemma SplitLabelRoundTrip(name: string, tag: string)
    requires '@' !in name
    ensures SplitName(Val(name + "@" + tag)) == Ok((name, tag))
  {
    var s := name + "@" + tag;
    assert s[|name|] == '@';
    var r := SplitName(Val(s));
    var (a, b) := r.value;
    assert a == s[..|a|] == name;
    assert b == s[|name| + 1..] == tag;
  }

  /** `isPrimitiveType`: the six type tags the server takes as plain values.
      A tag is primitive exactly when its lowercase form is one of the six names in lowercase. */
  predicate IsPrimitiveType(tag: string)
    ensures IsPrimitiveType(tag) <==>
      ToLower(tag) in {"string", "encryptedstring", "securestring", "number", "date", "boolean"}
  {
    LowerLiterals();
    EqualsIgnoreCaseIsLowerEquality(tag, "string");
    EqualsIgnoreCaseIsLowerEquality(tag, "EncryptedString");
    EqualsIgnoreCaseIsLowerEquality(tag, "SecureString");
    EqualsIgnoreCaseIsLowerEquality(tag, "number");
    EqualsIgnoreCaseIsLowerEquality(tag, "date");
    EqualsIgnoreCaseIsLowerEquality(tag, "boolean");
    || EqualsIgnoreCase(tag, "string") || EqualsIgnoreCase(tag, "EncryptedString")
    || EqualsIgnoreCase(tag, "SecureString") || EqualsIgnoreCase(tag, "number")
    || EqualsIgnoreCase(tag, "date") || EqualsIgnoreCase(tag, "boolean")
  }

  lemma LowerLiterals()
    ensures ToLower("string") == "string" && ToLower("number") == "number"
    ensures ToLower("date") == "date" && ToLower("boolean") == "boolean"
    ensures ToLower("EncryptedString") == "encryptedstring" && ToLower("SecureString") == "securestring"
  {
  }

  /** The key a value of type `tag` travels under. */
  function WireKind(tag: string): (k: string)
    ensures k in {"string", "number", "date", "boolean", SdkObject}
    ensures k == SdkObject <==> !IsPrimitiveType(tag)
    ensures EqualsIgnoreCase(tag, "EncryptedString") || EqualsIgnoreCase(tag, "SecureString") ==> k == "string"
    ensures IsPrimitiveType(tag) && !EqualsIgnoreCase(tag, "EncryptedString") && !EqualsIgnoreCase(tag, "SecureString") ==>
              k == ToLower(tag)
  {
    if IsPrimitiveType(tag) then
      if EqualsIgnoreCase(tag, "EncryptedString") || EqualsIgnoreCase(tag, "SecureString") then "string"
      else
        LowerLiterals();
        EqualsIgnoreCaseIsLowerEquality(tag, "string");
        EqualsIgnoreCaseIsLowerEquality(tag, "number");
        EqualsIgnoreCaseIsLowerEquality(tag, "date");
        EqualsIgnoreCaseIsLowerEquality(tag, "boolean");
        ToLower(tag)
    else SdkObject
  }

  /** `constructValueObjectBasedOnType`: a primitive as `{kind: {"value": v}}`,
      anything else as `{"sdk-object": {"id": v, "type": tag}}`. */
  function ValueObject(tag: string, value: Nullable<string>): (r: Json)
    ensures r.JObject? && r.fields.Keys == {WireKind(tag)} && r.fields[WireKind(tag)].JObject?
    ensures IsPrimitiveType(tag) ==>
              r.fields[WireKind(tag)].fields.Keys == {ValueKey} && r.fields[WireKind(tag)].fields[ValueKey] == FromNullable(value)
    ensures !IsPrimitiveType(tag) ==>
              && r.fields[WireKind(tag)].fields.Keys == {IdKey, TypeKey}
              && r.fields[WireKind(tag)].fields[IdKey] == FromNullable(value)
              && r.fields[WireKind(tag)].fields[TypeKey] == JString(tag)
  {
    if IsPrimitiveType(tag) then JObject(map[WireKind(tag) := JObject(map[ValueKey := FromNullable(value)])])
    else JObject(map[SdkObject := JObject(map[IdKey := FromNullable(value), TypeKey := JString(tag)])])
  }

  /** A typed value as the server reads it. */
  datatype TypedValue = Primitive(kind: string, value: Nullable<string>) | SdkReference(sdkType: string, id: Nullable<string>)

  /** The string a JSON member holds, null for anything else. */
  function StringOrNull(j: Json): (r: Nullable<string>)
    ensures r == Null <==> !j.JString?
  {
    if j.JString? then Val(j.s) else Null
  }

  /** Reads a typed value: an object with a single key, under which either the
      sdk-object fields or a "value" member stand. */
  ghost function ReadTypedValue(j: Json): Nullable<TypedValue>
  {
    if j.JObject? && |j.fields| == 1 then
      var k :| k in j.fields;
      var inner := j.fields[k];
      if !inner.JObject? then Null
      else if k == SdkObject then
        if IdKey in inner.fields && TypeKey in inner.fields && inner.fields[TypeKey].JString?
        then Val(SdkReference(inner.fields[TypeKey].s, StringOrNull(inner.fields[IdKey])))
        else Null
      else if ValueKey in inner.fields then Val(Primitive(k, StringOrNull(inner.fields[ValueKey])))
      else Null
    else Null
  }

  /** Every value object reads back as the value it was built from: a primitive
      under its wire kind, anything else as an sdk-object naming the tag unchanged. */
  lemma ValueObjectRoundTrip(tag: string, value: Nullable<string>)
    ensures ReadTypedValue(ValueObject(tag, value)) ==
      Val(if IsPrimitiveType(tag) then Primitive(WireKind(tag), value) else SdkReference(tag, value))
  {
    var j := ValueObject(tag, value);
    var k0 := if IsPrimitiveType(tag) then WireKind(tag) else SdkObject;
    assert j.fields.Keys == {k0};
    assert |j.fields| == 1;
    var k :| k in j.fields;
    assert k == k0;
  }

  /** EncryptedString and SecureString travel as plain strings, whatever their case. */
  lemma SecretsTravelAsStrings(tag: string, value: Nullable<string>)
    requires EqualsIgnoreCase(tag, "EncryptedString") || EqualsIgnoreCase(tag, "SecureString")
    ensures ReadTypedValue(ValueObject(tag, value)) == Val(Primitive("string", value))
  {
    ValueObjectRoundTrip(tag, value);
  }

  /** One entry of the "parameters" array: the two halves of the parameter's
      name and the value object; the parameter's own type field plays no part. */
  function ParameterEntry(p: ParameterRecord): (r: Result<Json>)
    ensures r.Ok? <==> SplitName(p.name).Ok?
    ensures r.Err? ==> r.error == SplitName(p.name).error
    ensures r.Ok? ==> var (n, t) := SplitName(p.name).value;
      p.name.Val? && p.name.v == n + "@" + t && '@' !in n
      && r.value.JObject? && r.value.fields.Keys == {NameKey, TypeKey, ValueKey}
      && r.value.fields[NameKey] == JString(n) && r.value.fields[TypeKey] == JString(t)
      && ReadTypedValue(r.value.fields[ValueKey])
         == Val(if IsPrimitiveType(t) then Primitive(WireKind(t), p.value) else SdkReference(t, p.value))
  {
    var (n, t) :- SplitName(p.name);
    ValueObjectRoundTrip(t, p.value);
    Ok(JObject(map[NameKey := JString(n), TypeKey := JString(t), ValueKey := ValueObject(t, p.value)]))
  }

  /** The body `constructRequestPayload` returns: none for a null or empty list,
      otherwise `{"parameters": [...]}` with one entry per input in input order. */
  function RequestPayload(inputs: Nullable<seq<ParameterRecord>>): (r: Result<Nullable<Json>>)
    ensures inputs.Null? || inputs.v == [] ==> r == Ok(Null)
    ensures inputs.Val? && inputs.v != [] ==>
      (r.Ok? <==> forall i :: 0 <= i < |inputs.v| ==> SplitName(inputs.v[i].name).Ok?)
    ensures r.Ok? && r.value.Val? ==>
      inputs.Val? && inputs.v != [] && r.value.v.JObject? && r.value.v.fields.Keys == {ParametersKey}
      && r.value.v.fields[ParametersKey].JArray?
      && |r.value.v.fields[ParametersKey].items| == |inputs.v|
      && forall i :: 0 <= i < |inputs.v| ==>
           r.value.v.fields[ParametersKey].items[i] == ParameterEntry(inputs.v[i]).value
  {
    if inputs.Null? || inputs.v == [] then Ok(Null)
    else
      var entries :- MapAll(ParameterEntry, inputs.v);
      Ok(Val(JObject(map[ParametersKey := JArray(entries)])))
  }

  /** The first input whose name is null or has no '@' decides the exception. */
  lemma RequestPayloadFailsAtFirstBadName(inputs: seq<ParameterRecord>, k: nat)
    requires k < |inputs| && SplitName(inputs[k].name).Err?
    requires forall j :: 0 <= j < k ==> SplitName(inputs[j].name).Ok?
    ensures RequestPayload(Val(inputs)) == Err(SplitName(inputs[k].name).error)
  {
    MapAllFirstError(ParameterEntry, inputs, k);
  }

  /** The type field of the inputs makes no difference to the body. */
  lemma RequestPayloadIgnoresTypeField(inputs: seq<ParameterRecord>, types: seq<Nullable<string>>)
    requires |types| == |inputs|
    ensures RequestPayload(Val(seq(|inputs|, i requires 0 <= i < |inputs| => inputs[i].(paramType := types[i]))))
         == RequestPayload(Val(inputs))
  {
    var other := seq(|inputs|, i requires 0 <= i < |inputs| => inputs[i].(paramType := types[i]));
    assert forall i :: 0 <= i < |inputs| ==> ParameterEntry(other[i]) == ParameterEntry(inputs[i]);
    MapAllPointwise(ParameterEntry, other, inputs);
  }

  /** `MapAll` of the same function over two lists that agree pointwise is the same. */
  lemma {:induction false} MapAllPointwise<A, B>(f: A -> Result<B>, s: seq<A>, t: seq<A>)
    requires |s| == |t| && forall i :: 0 <= i < |s| ==> f(s[i]) == f(t[i])
    ensures MapAll(f, s) == MapAll(f, t)
  {
    if s != [] {
      var n := |s| - 1;
      MapAllPointwise(f, s[..n], t[..n]);
    }
  }

  /** `constructRequestPayload`: walks the inputs, appending one entry each. */
  method ConstructRequestPayload(inputs: Nullable<seq<ParameterRecord>>) returns (r: Result<Nullable<Json>>)
    ensures r == RequestPayload(inputs)
  {
    if inputs.Null? || inputs.v == [] {
      return Ok(Null);
    }
    var params := inputs.v;
    var entries: seq<Json> := [];
    for i := 0 to |params|
      invariant MapAll(ParameterEntry, params[..i]) == Ok(entries)
    {
      MapAllStep(ParameterEntry, params, i);
      var split := SplitName(params[i].name);
      if split.Err? {
        MapAllErrSticky(ParameterEntry, params, i + 1);
        return Err(split.error);
      }
      var (name, tag) := split.value;
      var entry := JObject(map[NameKey := JString(name), TypeKey := JString(tag), ValueKey := ValueObject(tag, params[i].value)]);
      entries := entries + [entry];
    }
    assert params[..|params|] == params;
    r := Ok(Val(JObject(map[ParametersKey := JArray(entries)])));
  }

  /** The body `executeWorkflow` posts: the request payload, or `{}` when there is none. */
  function SubmitPayload(inputs: Nullable<seq<ParameterRecord>>): (r: Result<Json>)
    ensures r.Ok? <==> RequestPayload(inputs).Ok?
    ensures r.Ok? ==> (r.value == JObject(map[]) <==> inputs.Null? || inputs.v == [])
    ensures r.Ok? && r.value != JObject(map[]) ==> Val(r.value) == RequestPayload(inputs).value
  {
    var payload :- RequestPayload(inputs);
    if payload.Null? then Ok(JObject(map[])) else Ok(payload.v)
  }

  /** What `executeWorkflow` yields once the server has answered the submission
      (`reply` is the answer, or the failure of the request or its token exchange). */
  function ExecutionLocation(inputs: Nullable<seq<ParameterRecord>>, reply: Result<Nullable<Response>>): (r: Result<Nullable<string>>)
    ensures SubmitPayload(inputs).Err? ==> r == Err(SubmitPayload(inputs).error)
    ensures SubmitPayload(inputs).Ok? && reply.Err? ==> r == Err(reply.error)
    ensures SubmitPayload(inputs).Ok? && reply.Ok? ==> r == SubmissionLocation(reply.value)
  {
    var _ :- SubmitPayload(inputs);
    var response :- reply;
    SubmissionLocation(response)
  }

  /** `executeWorkflow`: builds the body (`{}` when there are no inputs), posts it
      and returns the location of the accepted execution. `posted` is the body
      that went out, Null when building it failed and nothing was sent. */
  method ExecuteWorkflow(p: BuildParam, reply: Result<Nullable<Response>>)
    returns (posted: Nullable<Json>, r: Result<Nullable<string>>)
    ensures posted.Null? <==> SubmitPayload(p.inputParams).Err?
    ensures posted.Val? ==> posted.v == SubmitPayload(p.inputParams).value
    ensures r == ExecutionLocation(p.inputParams, reply)
  {
    var payload := ConstructRequestPayload(p.inputParams);
    if payload.Err? {
      return Null, Err(payload.error);
    }
    var body := if payload.value.Null? then JObject(map[]) else payload.value.v;
    posted := Val(body);
    if reply.Err? {
      return posted, Err(reply.error);
    }
    r := SubmissionLocation(reply.value);
  }

  // ---------------------------------------------------------------------------
  // Decoding the workflow list

  /** `has(key) ? get(key).getAsString() : null`. */
  function OptionalString(obj: map<string, Json>, key: string): (r: Result<Nullable<string>>)
    ensures key !in obj ==> r == Ok(Null)
    ensures key in obj ==> (r.Ok? <==> AsString(obj[key]).Ok?)
    ensures key in obj && r.Ok? ==> r.value == Val(AsString(obj[key]).value)
  {
    if key in obj then var s :- AsString(obj[key]); Ok(Val(s)) else Ok(Null)
  }

  /** The name of one attribute of a link. */
  function AttributeName(a: Json): Result<string>
  {
    var obj :- AsObject(a);
    StringMember(obj, NameKey)
  }

  /** The value of one attribute of a link; null when it has none. */
  function AttributeValue(a: Json): Result<Nullable<string>>
  {
    var obj :- AsObject(a);
    var _ :- StringMember(obj, NameKey);
    OptionalString(obj, ValueKey)
  }

  /** One attribute read into the workflow built so far: only "name" and "id" are kept. */
  function ApplyAttribute(w: WorkflowRecord, a: Json): (r: Result<WorkflowRecord>)
    ensures r.Ok? <==> AttributeName(a).Ok? && AttributeValue(a).Ok?
  {
    var name :- AttributeName(a);
    var value :- AttributeValue(a);
    Ok(if name == NameKey then w.(name := value) else if name == IdKey then w.(id := value) else w)
  }

  /** The workflow built from a link's attributes, in order, from an empty one. */
  function ApplyAttributes(attrs: seq<Json>): (r: Result<WorkflowRecord>)
    ensures r.Ok? <==> forall k :: 0 <= k < |attrs| ==> AttributeName(attrs[k]).Ok? && AttributeValue(attrs[k]).Ok?
  {
    if attrs == [] then Ok(WorkflowRecord(Null, Null))
    else
      var n := |attrs| - 1;
      assert forall k :: 0 <= k < n ==> attrs[..n][k] == attrs[k];
      var w :- ApplyAttributes(attrs[..n]);
      ApplyAttribute(w, attrs[n])
  }

  /** The field a "name" or "id" attribute sets. */
  function Field(w: WorkflowRecord, key: string): Nullable<string>
  {
    if key == NameKey then w.name else w.id
  }

  /** Of several attributes with the same name the last one wins; with none the field stays null. */
  lemma {:induction false} LastAttributeWins(attrs: seq<Json>, key: string)
    requires key == NameKey || key == IdKey
    requires ApplyAttributes(attrs).Ok?
    ensures (forall k :: 0 <= k < |attrs| ==> AttributeName(attrs[k]).value != key) ==>
              Field(ApplyAttributes(attrs).value, key) == Null
    ensures forall k :: (0 <= k < |attrs| && AttributeName(attrs[k]).value == key
                         && (forall j :: k < j < |attrs| ==> AttributeName(attrs[j]).value != key)) ==>
              Field(ApplyAttributes(attrs).value, key) == AttributeValue(attrs[k]).value
  {
    if attrs != [] {
      var n := |attrs| - 1;
      var init := attrs[..n];
      assert forall k :: 0 <= k < n ==> init[k] == attrs[k];
      LastAttributeWins(init, key);
      var w := ApplyAttributes(init).value;
      assert ApplyAttributes(attrs) == ApplyAttribute(w, attrs[n]);
      if AttributeName(attrs[n]).value != key {
        assert Field(ApplyAttributes(attrs).value, key) == Field(w, key);
      }
    }
  }

  lemma {:induction false} ApplyAttributesErrSticky(attrs: seq<Json>, i: nat)
    requires i <= |attrs| && ApplyAttributes(attrs[..i]).Err?
    ensures ApplyAttributes(attrs) == ApplyAttributes(attrs[..i])
  {
    if i < |attrs| {
      var n := |attrs| - 1;
      assert attrs[..n][..i] == attrs[..i];
      ApplyAttributesErrSticky(attrs[..n], i);
    } else {
      assert attrs[..i] == attrs;
    }
  }

  /** What one element of "link" contributes: a workflow when it has "attributes", nothing otherwise. */
  function LinkWorkflows(link: Json): (r: Result<seq<WorkflowRecord>>)
    ensures r.Ok? ==> |r.value| <= 1
    ensures r.Ok? ==> link.JObject? && (|r.value| == 1 <==> AttributesKey in link.fields)
  {
    var obj :- AsObject(link);
    if AttributesKey in obj then
      var attrs :- ArrayMember(obj, AttributesKey);
      var w :- ApplyAttributes(attrs);
      Ok([w])
    else Ok([])
  }

  /** The workflows `fetchWorkflows` decodes from the list body. */
  function WorkflowsOf(body: Result<Json>): (r: Result<seq<WorkflowRecord>>)
    ensures body.Err? ==> r == Err(body.error)
    ensures body.Ok? && !body.value.JObject? ==> r == Err(IllegalState)
    ensures body.Ok? && body.value.JObject? && LinkKey !in body.value.fields ==> r == Ok([])
    ensures body.Ok? && body.value.JObject? && LinkKey in body.value.fields && !body.value.fields[LinkKey].JArray? ==>
      r == Err(ClassCast)
    ensures body.Ok? && body.value.JObject? && LinkKey in body.value.fields && body.value.fields[LinkKey].JArray? ==>
      r == Collect(LinkWorkflows, body.value.fields[LinkKey].items)
  {
    var j :- body;
    var obj :- AsObject(j);
    if LinkKey in obj then
      var links :- ArrayMember(obj, LinkKey);
      Collect(LinkWorkflows, links)
    else Ok([])
  }

  /** The links that have attributes. */
  function WithAttributes(links: seq<Json>): seq<Json>
  {
    if links == [] then []
    else
      var n := |links| - 1;
      WithAttributes(links[..n]) + (if links[n].JObject? && AttributesKey in links[n].fields then [links[n]] else [])
  }

  /** One workflow per link that has attributes, in link order, each built from that link's attributes. */
  lemma {:induction false} OneWorkflowPerLink(links: seq<Json>)
    requires Collect(LinkWorkflows, links).Ok?
    ensures var ws := Collect(LinkWorkflows, links).value; var ls := WithAttributes(links);
      |ws| == |ls| && forall i :: 0 <= i < |ls| ==>
        ls[i].JObject? && ArrayMember(ls[i].fields, AttributesKey).Ok?
        && ApplyAttributes(ArrayMember(ls[i].fields, AttributesKey).value) == Ok(ws[i])
  {
    if links != [] {
      var n := |links| - 1;
      assert forall k :: 0 <= k < n ==> links[..n][k] == links[k];
      OneWorkflowPerLink(links[..n]);
      var ws0 := Collect(LinkWorkflows, links[..n]).value;
      var ls0 := WithAttributes(links[..n]);
      var last := LinkWorkflows(links[n]);
      assert last.Ok?;
      assert Collect(LinkWorkflows, links).value == ws0 + last.value;
      assert WithAttributes(links) == ls0 + (if AttributesKey in links[n].fields then [links[n]] else []);
    }
  }

  /** The inner loop of `fetchWorkflows`: a new `Workflow` filled by its setters
      from one link's attributes. */
  method NewWorkflow(attrs: seq<Json>) returns (r: Result<Workflow>)
    ensures r.Ok? <==> ApplyAttributes(attrs).Ok?
    ensures r.Ok? ==> fresh(r.value) && r.value.View() == ApplyAttributes(attrs).value
    ensures r.Err? ==> r.error == ApplyAttributes(attrs).error
  {
    var w := new Workflow();
    for j := 0 to |attrs|
      invariant ApplyAttributes(attrs[..j]) == Ok(w.View())
      modifies w
    {
      assert attrs[..j + 1][..j] == attrs[..j];
      var name := AttributeName(attrs[j]);
      var value := AttributeValue(attrs[j]);
      if name.Err? || value.Err? {
        ApplyAttributesErrSticky(attrs, j + 1);
        return Err(if name.Err? then name.error else value.error);
      }
      if name.value == NameKey {
        w.SetName(value.value);
      } else if name.value == IdKey {
        w.SetId(value.value);
      }
    }
    assert attrs[..|attrs|] == attrs;
    r := Ok(w);
  }

  /** `fetchWorkflows`: one new `Workflow` per link with attributes, filled by its setters. */
  method FetchWorkflows(body: Result<Json>) returns (r: Result<seq<Workflow>>)
    ensures r.Ok? <==> WorkflowsOf(body).Ok?
    ensures r.Ok? ==> WorkflowViews(r.value) == WorkflowsOf(body).value
    ensures r.Ok? ==> forall k :: 0 <= k < |r.value| ==> fresh(r.value[k])
    ensures r.Err? ==> r.error == WorkflowsOf(body).error
  {
    if body.Err? {
      return Err(body.error);
    }
    var top := AsObject(body.value);
    if top.Err? {
      return Err(top.error);
    }
    var workflows: seq<Workflow> := [];
    if LinkKey in top.value {
      var links := ArrayMember(top.value, LinkKey);
      if links.Err? {
        return Err(links.error);
      }
      var arr := links.value;
      for i := 0 to |arr|
        invariant Collect(LinkWorkflows, arr[..i]) == Ok(WorkflowViews(workflows))
        invariant forall k :: 0 <= k < |workflows| ==> fresh(workflows[k])
      {
        CollectStep(LinkWorkflows, arr, i);
        var link := AsObject(arr[i]);
        if link.Err? {
          CollectErrSticky(LinkWorkflows, arr, i + 1);
          return Err(link.error);
        }
        if AttributesKey in link.value {
          var attrList := ArrayMember(link.value, AttributesKey);
          if attrList.Err? {
            CollectErrSticky(LinkWorkflows, arr, i + 1);
            return Err(attrList.error);
          }
          var w := NewWorkflow(attrList.value);
          if w.Err? {
            CollectErrSticky(LinkWorkflows, arr, i + 1);
            return Err(w.error);
          }
          assert WorkflowViews(workflows + [w.value]) == WorkflowViews(workflows) + [w.value.View()];
          workflows := workflows + [w.value];
        } else {
          assert WorkflowViews(workflows) + [] == WorkflowViews(workflows);
        }
      }
      assert arr[..|arr|] == arr;
    }
    r := Ok(workflows);
  }

  // ---------------------------------------------------------------------------
  // Decoding a workflow's input parameters

  /** One element of "input-parameters": its name and type, with an empty value. */
  function InputParameter(j: Json): (r: Result<ParameterRecord>)
    ensures r.Ok? <==> j.JObject? && StringMember(j.fields, NameKey).Ok? && StringMember(j.fields, TypeKey).Ok?
    ensures r.Ok? ==> r.value == ParameterRecord(Val(StringMember(j.fields, NameKey).value),
                                                 Val(StringMember(j.fields, TypeKey).value), Val(""))
    ensures !j.JObject? ==> r == Err(IllegalState)
    ensures j.JObject? && StringMember(j.fields, NameKey).Err? ==> r == Err(StringMember(j.fields, NameKey).error)
    ensures j.JObject? && StringMember(j.fields, NameKey).Ok? && StringMember(j.fields, TypeKey).Err? ==>
      r == Err(StringMember(j.fields, TypeKey).error)
  {
    var obj :- AsObject(j);
    var name :- StringMember(obj, NameKey);
    var tag :- StringMember(obj, TypeKey);
    Ok(ParameterRecord(Val(name), Val(tag), Val("")))
  }

  /** An entry whose name and type are strings decodes to exactly them, with an
      empty value, whatever else it holds; one without a type is dereferenced. */
  lemma InputEntryDecodes(others: map<string, Json>, name: string, tag: string)
    ensures InputParameter(JObject(others[NameKey := JString(name)][TypeKey := JString(tag)]))
            == Ok(ParameterRecord(Val(name), Val(tag), Val("")))
    ensures InputParameter(JObject((others - {TypeKey})[NameKey := JString(name)])) == Err(NullPointer)
  {
    var with := others[NameKey := JString(name)][TypeKey := JString(tag)];
    assert with[NameKey] == JString(name);
    var without := (others - {TypeKey})[NameKey := JString(name)];
    assert TypeKey !in without;
  }

  /** The parameters `fetchWorkflowInputParameters` decodes; a blank workflow
      name is answered with none, without the body being looked at. */
  function InputParametersOf(workflowName: Nullable<string>, body: Result<Json>): (r: Result<seq<ParameterRecord>>)
    ensures IsBlank(workflowName) ==> r == Ok([])
    ensures !IsBlank(workflowName) && body.Ok? && body.value.JObject? && InputParameters in body.value.fields
            && body.value.fields[InputParameters].JArray? ==>
              r == MapAll(InputParameter, body.value.fields[InputParameters].items)
    ensures !IsBlank(workflowName) && body.Ok? && body.value.JObject? && InputParameters !in body.value.fields ==>
              r == Ok([])
    ensures !IsBlank(workflowName) && body.Err? ==> r == Err(body.error)
    ensures !IsBlank(workflowName) && body.Ok? && !body.value.JObject? ==> r == Err(IllegalState)
    ensures !IsBlank(workflowName) && body.Ok? && body.value.JObject? && InputParameters in body.value.fields
            && !body.value.fields[InputParameters].JArray? ==>
              r == Err(ClassCast)
  {
    if IsBlank(workflowName) then Ok([])
    else
      var j :- body;
      var obj :- AsObject(j);
      if InputParameters in obj then
        var items :- ArrayMember(obj, InputParameters);
        MapAll(InputParameter, items)
      else Ok([])
  }

  /** The loop of `fetchWorkflowInputParameters`: one new `Parameter` per entry. */
  method NewInputParameters(items: seq<Json>) returns (r: Result<seq<Parameter>>)
    ensures r.Ok? <==> MapAll(InputParameter, items).Ok?
    ensures r.Ok? ==> ParameterViews(r.value) == MapAll(InputParameter, items).value
    ensures r.Ok? ==> forall k :: 0 <= k < |r.value| ==> fresh(r.value[k])
    ensures r.Err? ==> r.error == MapAll(InputParameter, items).error
  {
    var parameters: seq<Parameter> := [];
    for i := 0 to |items|
      invariant MapAll(InputParameter, items[..i]) == Ok(ParameterViews(parameters))
      invariant forall k :: 0 <= k < |parameters| ==> fresh(parameters[k])
    {
      MapAllStep(InputParameter, items, i);
      var entry := InputParameter(items[i]);
      if entry.Err? {
        MapAllErrSticky(InputParameter, items, i + 1);
        return Err(entry.error);
      }
      var param := new Parameter(entry.value.name, entry.value.paramType, Val(""));
      assert ParameterViews(parameters + [param]) == ParameterViews(parameters) + [param.View()];
      parameters := parameters + [param];
    }
    assert items[..|items|] == items;
    r := Ok(parameters);
  }

  /** `fetchWorkflowInputParameters`: one new `Parameter(name, type, "")` per entry, in order. */
  method FetchWorkflowInputParameters(p: BuildParam, body: Result<Json>) returns (r: Result<seq<Parameter>>)
    ensures r.Ok? <==> InputParametersOf(p.workflowName, body).Ok?
    ensures r.Ok? ==> ParameterViews(r.value) == InputParametersOf(p.workflowName, body).value
    ensures r.Ok? ==> forall k :: 0 <= k < |r.value| ==> fresh(r.value[k])
    ensures r.Err? ==> r.error == InputParametersOf(p.workflowName, body).error
  {
    var parameters: seq<Parameter> := [];
    if !IsBlank(p.workflowName) {
      if body.Err? {
        return Err(body.error);
      }
      var top := AsObject(body.value);
      if top.Err? {
        return Err(top.error);
      }
      if InputParameters in top.value {
        var list := ArrayMember(top.value, InputParameters);
        if list.Err? {
          return Err(list.error);
        }
        r := NewInputParameters(list.value);
        return;
      }
    }
    r := Ok(parameters);
  }

  // ---------------------------------------------------------------------------
  // Decoding an execution's state and output

  /** The three states `fetchWorkflowState` takes as the end of an execution,
      compared exactly (case matters). */
  predicate IsTerminalState(s: string)
    ensures IsTerminalState(s) <==> s == ToLower(s) && ToLower(s) in {"completed", "canceled", "failed"}
  {
    s == "completed" || s == "canceled" || s == "failed"
  }

  /** The state `fetchWorkflowState` decodes: the "state" member when there is
      one, completed exactly when it is a terminal state. */
  function StateOf(body: Result<Json>): (r: Result<StateRecord>)
    ensures r.Ok? && r.value.completed ==> r.value.state.Val? && IsTerminalState(r.value.state.v)
    ensures r.Ok? && r.value.state.Val? && IsTerminalState(r.value.state.v) ==> r.value.completed
    ensures body.Ok? && body.value.JObject? && StateKey !in body.value.fields ==> r == Ok(StateRecord(Null, false))
    ensures body.Ok? && body.value.JObject? && StateKey in body.value.fields && body.value.fields[StateKey].JString? ==>
              r == Ok(StateRecord(Val(body.value.fields[StateKey].s), IsTerminalState(body.value.fields[StateKey].s)))
    ensures body.Err? ==> r == Err(body.error)
    ensures body.Ok? && !body.value.JObject? ==> r == Err(IllegalState)
    ensures body.Ok? && body.value.JObject? && StateKey in body.value.fields ==>
              var read := AsString(body.value.fields[StateKey]);
              && (r.Ok? <==> read.Ok?)
              && (r.Err? ==> r.error == read.error)
              && (r.Ok? ==> r.value.state == Val(read.value))
  {
    var j :- body;
    var obj :- AsObject(j);
    if StateKey in obj then
      var s :- AsString(obj[StateKey]);
      Ok(StateRecord(Val(s), IsTerminalState(s)))
    else Ok(StateRecord(Null, false))
  }

  /** The terminal check does not ignore case: "COMPLETED" does not end an execution. */
  lemma TerminalCheckIsCaseSensitive()
    ensures StateOf(Ok(JObject(map[StateKey := JString("COMPLETED")]))) == Ok(StateRecord(Val("COMPLETED"), false))
    ensures EqualsIgnoreCase("COMPLETED", "completed")
  {
    assert "COMPLETED" != "completed" && "COMPLETED" != "canceled" && "COMPLETED" != "failed";
  }

  /** `fetchWorkflowState`: a new `ExecutionState`, filled by its setters. */
  method FetchWorkflowState(body: Result<Json>) returns (r: Result<ExecutionState>)
    ensures r.Ok? <==> StateOf(body).Ok?
    ensures r.Ok? ==> fresh(r.value) && r.value.View() == StateOf(body).value
    ensures r.Err? ==> r.error == StateOf(body).error
  {
    var executionState := new ExecutionState();
    if body.Err? {
      return Err(body.error);
    }
    var top := AsObject(body.value);
    if top.Err? {
      return Err(top.error);
    }
    if StateKey in top.value {
      var state := AsString(top.value[StateKey]);
      if state.Err? {
        return Err(state.error);
      }
      executionState.SetState(Val(state.value));
      if state.value == "completed" || state.value == "canceled" || state.value == "failed" {
        executionState.SetCompleted(true);
        return Ok(executionState);
      }
    }
    r := Ok(executionState);
  }

  /** The output `fetchWorkflowOutputParameters` decodes; each field is set only
      when its key is present, the parameters as the text `toJson` gives the array. */
  function OutputOf(body: Result<Json>, toJson: Json -> string): (r: Result<OutputRecord>)
    ensures body.Err? ==> r == Err(body.error)
    ensures body.Ok? && !body.value.JObject? ==> r == Err(IllegalState)
    ensures body.Ok? && body.value.JObject? ==>
      var obj := body.value.fields;
      (r.Ok? <==> (StateKey in obj ==> AsString(obj[StateKey]).Ok?)
                  && (OutputParameters in obj ==> obj[OutputParameters].JArray?)
                  && (ContentException in obj ==> AsString(obj[ContentException]).Ok?))
    ensures body.Ok? && body.value.JObject? && r.Ok? ==>
      var obj := body.value.fields;
      r.value.state == (if StateKey in obj then Val(AsString(obj[StateKey]).value) else Null)
      && r.value.parameters == (if OutputParameters in obj then Val(toJson(obj[OutputParameters])) else Null)
      && r.value.exception == (if ContentException in obj then Val(AsString(obj[ContentException]).value) else Null)
    ensures body.Ok? && body.value.JObject? ==>
      var obj := body.value.fields;
      (StateKey in obj && AsString(obj[StateKey]).Err? ==> r == Err(AsString(obj[StateKey]).error))
      && ((StateKey in obj ==> AsString(obj[StateKey]).Ok?) && OutputParameters in obj && !obj[OutputParameters].JArray?
          ==> r == Err(ClassCast))
      && ((StateKey in obj ==> AsString(obj[StateKey]).Ok?) && (OutputParameters in obj ==> obj[OutputParameters].JArray?)
          && ContentException in obj && AsString(obj[ContentException]).Err?
          ==> r == Err(AsString(obj[ContentException]).error))
  {
    var j :- body;
    var obj :- AsObject(j);
    var state :- OptionalString(obj, StateKey);
    var parameters :- if OutputParameters in obj then
                        var items :- ArrayMember(obj, OutputParameters);
                        Ok(Val(toJson(JArray(items))))
                      else Ok(Null);
    var exception :- OptionalString(obj, ContentException);
    Ok(OutputRecord(state, parameters, exception))
  }

  /** An output body as the server sends it: a "state", an "output-parameters"
      array and a "content-exception", each present or not. */
  function OutputBody(state: Nullable<string>, items: Nullable<seq<Json>>, exception: Nullable<string>): Json
  {
    JObject((if state.Val? then map[StateKey := JString(state.v)] else map[])
            + (if items.Val? then map[OutputParameters := JArray(items.v)] else map[])
            + (if exception.Val? then map[ContentException := JString(exception.v)] else map[]))
  }

  /** Decoding such a body gives back each member that is present, the state
      and the exception as sent and the parameters as the text of their array. */
  lemma OutputBodyDecodes(state: Nullable<string>, items: Nullable<seq<Json>>, exception: Nullable<string>,
                          toJson: Json -> string)
    ensures OutputOf(Ok(OutputBody(state, items, exception)), toJson)
            == Ok(OutputRecord(state, if items.Val? then Val(toJson(JArray(items.v))) else Null, exception))
  {
    var obj := OutputBody(state, items, exception).fields;
    assert StateKey != OutputParameters && StateKey != ContentException && OutputParameters != ContentException by {
      assert StateKey[0] == 's' && OutputParameters[0] == 'o' && ContentException[0] == 'c';
    }
    assert StateKey in obj <==> state.Val?;
    assert OutputParameters in obj <==> items.Val?;
    assert ContentException in obj <==> exception.Val?;
  }

  /** `fetchWorkflowOutputParameters`: a new `ExecutionOutput`, filled by its setters. */
  method FetchWorkflowOutputParameters(body: Result<Json>, toJson: Json -> string) returns (r: Result<ExecutionOutput>)
    ensures r.Ok? <==> OutputOf(body, toJson).Ok?
    ensures r.Ok? ==> fresh(r.value) && r.value.View() == OutputOf(body, toJson).value
    ensures r.Err? ==> r.error == OutputOf(body, toJson).error
  {
    var executionOutput := new ExecutionOutput();
    if body.Err? {
      return Err(body.error);
    }
    var top := AsObject(body.value);
    if top.Err? {
      return Err(top.error);
    }
    var obj := top.value;
    if StateKey in obj {
      var state := AsString(obj[StateKey]);
      if state.Err? {
        return Err(state.error);
      }
      executionOutput.SetState(Val(state.value));
    }
    if OutputParameters in obj {
      var items := ArrayMember(obj, OutputParameters);
      if items.Err? {
        return Err(items.error);
      }
      executionOutput.SetParameters(Val(toJson(JArray(items.value))));
    }
    if ContentException in obj {
      var exception := AsString(obj[ContentException]);
      if exception.Err? {
        return Err(exception.error);
      }
      executionOutput.SetException(Val(exception.value));
    }
    r := Ok(executionOutput);
  }
}
