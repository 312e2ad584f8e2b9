# vRealize Orchestrator Jenkins plugin, modelled in Dafny

This project models the core of the Jenkins build step that runs a VMware vRealize
Orchestrator workflow, and proves properties of the model. The build step does the
following:

- It resolves the configured settings against the build's variables.
- It looks up the workflow by name in the server's workflow list.
- It validates the settings.
- It submits an execution, with the input parameters encoded in the server's
  typed-value JSON form.
- When asked to wait, it polls the execution's state until it is complete.
- It fetches the execution's output and returns a map of results.
- The build fails when that map says the execution was canceled or failed.
  Otherwise the map becomes environment variables for later build steps.

The configuration page's form checks and the parameter drop-down are modelled too.

## Modules

- `Lang` (`lang.dfy`) holds the Java behaviour the plugin relies on:
  - `Nullable` for references that may be null;
  - `Result` for the exceptions;
  - `String.trim`, `StringUtils.isBlank`, Jenkins' `Util.fixEmptyAndTrim`, `equalsIgnoreCase` and `indexOf`;
  - two list combinators that stop at the first exception.
- `Json` (`json.dfy`) is a JSON value type with Gson's accessors (`getAsJsonObject`, `getAsString`, `getAsJsonArray`) and their exceptions.
- `Encoding` (`encoding.dfy`) holds UTF-8 and the Base64 alphabet of section 4 of RFC 4648, with round trips.
- `Model` (`model.dfy`) holds the record classes `Workflow`, `Parameter`, `ExecutionState` and `ExecutionOutput`, each with its setters, and the immutable `BuildParam` with `validate`.
- `RestClient` (`rest_client.dfy`) holds the request headers (Basic or Bearer), the token request, reading a response body, the `Location` headers, and the 202 decision.
- `OrchestratorClient` (`orchestrator_client.dfy`) holds the submission body and the decoders of the workflow list, of a workflow's inputs, of an execution's state and of its output.
- `EnvVariableResolver` (`resolver.dfy`) resolves variables in a setting and in a list of parameters.
- `OrchestratorCallable` (`callable.dfy`) is the submit-and-poll routine and its result map.
- `OrchestratorBuilder` (`builder.dfy`) holds `perform`, the `doCheck*` form rules and `OrchestratorEnvAction`.
- `ParameterDescriptor` (`parameter_descriptor.dfy`) is `doFillNameItems`.

## How the model is built

Each routine that loops or mutates objects in the source is a `method` with the same loop. It is proved equal to a specification function, and the specification's properties are then proved as lemmas.

The server is not called. Its answers are inputs to the model:

- the parsed body of each GET (`Result<Json>`: `Err` when the request, its token exchange or the parse failed);
- the submission's response (`Result<Nullable<Response>>`);
- the token reply (`Result<Json>`);
- the successive answers of the state polls (`seq<Result<Json>>`).

Some computations the source delegates become function parameters:

- `expand` stands for `EnvVars.expand`;
- `toJson` stands for Gson's `JsonArray.toString`;
- `isValidUri` stands for `new URL(value).toURI()` succeeding;
- `matches` stands for `String.matches`.

An exception is `Err(e)`. Java's `null` is `Null`.

### Behaviour worth knowing

- **Terminal states are case-sensitive.** The terminal-state rule of `fetchWorkflowState` compares with `equals` (`OrchestratorClient.java:154`), so only the lower-case `completed`, `canceled` and `failed` end the polling. `OrchestratorClient.TerminalCheckIsCaseSensitive` shows that "COMPLETED" does not end an execution. The later failure checks in `perform` and `call` use `equalsIgnoreCase`.
- **A build that does not wait always fails with a null dereference.** Without waiting, `call` returns an empty map. `perform` still takes the state out of that map and calls `equalsIgnoreCase` on it (`OrchestratorBuilder.java:122-125`). So every such build starts the workflow and then throws a `NullPointerException`. `OrchestratorBuilder.NoWaitBuildDereferencesState` proves this for every build that gets past the submission.
- **`ExecutionOutput` has an exception field that its class does not declare.** `ExecutionOutput.java` declares only `state` and `parameters` with their accessors. Yet `fetchWorkflowOutputParameters` calls `setException` (`OrchestratorClient.java:181`), and `call` calls `getException` (`OrchestratorCallable.java:63`). The model gives the class a third nullable field, `exception`, with that setter, inferred from these two uses.
- **The submitted type comes from the name.** The type sent for an input parameter is the part of its name after the first `@`. The parameter's own type field is ignored (`OrchestratorClient.RequestPayloadIgnoresTypeField`).
- **`doCheckWorkflowName`, `perform` and `doFillNameItems` compare names differently.** `doCheckWorkflowName` compares the name as entered, untrimmed, and reads every workflow in the list. `perform` compares the resolved name and stops at the first match. `doFillNameItems` compares the name as entered and stops at the first match.

## Model

| member | source | states |
|---|---|---|
| Lang.FixEmptyAndTrim | src/main/java/com/vmware/vro/jenkins/plugin/util/EnvVariableResolver.java:27 | null exactly when the value is null or all its characters are trimmable; otherwise the trimmed value, never empty |
| Lang.TrimIdempotent | src/main/java/com/vmware/vro/jenkins/plugin/util/EnvVariableResolver.java:27 | trimming an already trimmed value changes nothing |
| Lang.TrimKeepsNonTrimmable | src/main/java/com/vmware/vro/jenkins/plugin/OrchestratorBuilder.java:190-198 | a character above U+0020, such as '$', is in the trimmed value exactly when it is in the raw value |
| Json.AsObject | src/main/java/com/vmware/vro/jenkins/plugin/OrchestratorClient.java:239-242 | succeeds exactly on an object and gives its members; otherwise IllegalState |
| Json.ArrayMember | src/main/java/com/vmware/vro/jenkins/plugin/OrchestratorClient.java:70 | succeeds exactly when the member is present and an array, and gives its items |
| Json.StringMember | src/main/java/com/vmware/vro/jenkins/plugin/util/RestClient.java:177 | a missing member is a null dereference; a string member gives its text |
| Encoding.Utf8RoundTrip | src/main/java/com/vmware/vro/jenkins/plugin/util/RestClient.java:187 | decoding the UTF-8 bytes of a string gives the string back |
| Encoding.Base64Encode | src/main/java/com/vmware/vro/jenkins/plugin/util/RestClient.java:187 | the encoding has 4 characters per started group of 3 bytes |
| Encoding.Base64RoundTrip | src/main/java/com/vmware/vro/jenkins/plugin/util/RestClient.java:187 | decoding the Base64 text of any byte sequence gives the bytes back |
| Model.Workflow.constructor | src/main/java/com/vmware/vro/jenkins/plugin/model/Workflow.java:12-13 | name and id are null |
| Model.Workflow.Of | src/main/java/com/vmware/vro/jenkins/plugin/model/Workflow.java:15-18 | name and id are the arguments |
| Model.Workflow.SetName | src/main/java/com/vmware/vro/jenkins/plugin/model/Workflow.java:24-26 | only the name changes |
| Model.Workflow.SetId | src/main/java/com/vmware/vro/jenkins/plugin/model/Workflow.java:32-34 | only the id changes |
| Model.Parameter.constructor | src/main/java/com/vmware/vro/jenkins/plugin/model/Parameter.java:33-37 | name, type and value are the arguments, unchanged |
| Model.Parameter.SetName | src/main/java/com/vmware/vro/jenkins/plugin/model/Parameter.java:43-45 | only the name changes |
| Model.Parameter.SetValue | src/main/java/com/vmware/vro/jenkins/plugin/model/Parameter.java:51-53 | only the value changes |
| Model.Parameter.SetType | src/main/java/com/vmware/vro/jenkins/plugin/model/Parameter.java:59-61 | only the type changes |
| Model.Parameter.Clone | src/main/java/com/vmware/vro/jenkins/plugin/model/Parameter.java:106-108 | a new object, distinct from every existing one, with equal name, type and value |
| Model.ExecutionState.constructor | src/main/java/com/vmware/vro/jenkins/plugin/model/ExecutionState.java:8-11 | no state, not completed |
| Model.ExecutionState.SetState | src/main/java/com/vmware/vro/jenkins/plugin/model/ExecutionState.java:17-19 | only the state changes |
| Model.ExecutionState.SetCompleted | src/main/java/com/vmware/vro/jenkins/plugin/model/ExecutionState.java:25-27 | only the completed flag changes |
| Model.ExecutionOutput.constructor | src/main/java/com/vmware/vro/jenkins/plugin/model/ExecutionOutput.java:8-11 | state and parameters are null; so is the inferred exception field, which this file does not declare |
| Model.ExecutionOutput.SetState | src/main/java/com/vmware/vro/jenkins/plugin/model/ExecutionOutput.java:17-19 | only the state changes |
| Model.ExecutionOutput.SetParameters | src/main/java/com/vmware/vro/jenkins/plugin/model/ExecutionOutput.java:25-27 | only the parameters change |
| Model.ExecutionOutput.SetException | src/main/java/com/vmware/vro/jenkins/plugin/OrchestratorClient.java:179-182 | only the exception changes (the inferred field the client sets and the callable reads) |
| Model.BuildParam.Validate | src/main/java/com/vmware/vro/jenkins/plugin/model/BuildParam.java:67-85 | succeeds, with true, exactly when server URL, user name, password and workflow name are all non-blank |
| Model.ValidateReportsFirstBlank | src/main/java/com/vmware/vro/jenkins/plugin/model/BuildParam.java:67-82 | a failure carries the message of the first blank field in the order server URL, user name, password, workflow name |
| Model.ValidateIgnoresUncheckedFields | src/main/java/com/vmware/vro/jenkins/plugin/model/BuildParam.java:67-85 | tenant, wait flag and input parameters do not affect the result |
| Model.BuildParamWithoutInputs | src/main/java/com/vmware/vro/jenkins/plugin/model/BuildParam.java:34-37 | no waiting, no input parameters, the other five fields as given |
| RestClient.BasicCredential | src/main/java/com/vmware/vro/jenkins/plugin/util/RestClient.java:185-188 | the Basic credential decodes (Base64, then UTF-8) back to exactly `userName:password` |
| RestClient.TokenRequest | src/main/java/com/vmware/vro/jenkins/plugin/util/RestClient.java:164-173 | a POST to the server URL followed by "/identity/api/tokens". Its only header is Accept (JSON), as `httpPost` sets it, so it carries no Authorization. Its body has exactly the members username, password and tenant, each the credential's text or JSON null. |
| RestClient.AuthToken | src/main/java/com/vmware/vro/jenkins/plugin/util/RestClient.java:175-177 | the token is the reply's "id"; a failed reply fails alike, and a reply without "id" is a null dereference |
| RestClient.GetRequestHeaders | src/main/java/com/vmware/vro/jenkins/plugin/util/RestClient.java:150-162 | the headers are exactly Accept (JSON) and Authorization. A blank tenant gives Basic with no request sent. Otherwise exactly the token request is sent, and the result is Bearer with its token or the token's failure |
| RestClient.WithoutLineBreaksAppend | src/main/java/com/vmware/vro/jenkins/plugin/util/RestClient.java:206-208 | dropping line terminators distributes over concatenation |
| RestClient.ReadLine | src/main/java/com/vmware/vro/jenkins/plugin/util/RestClient.java:206 | one `readLine` advances past the next terminator and adds the line's characters to the text read so far |
| RestClient.ParseResponse | src/main/java/com/vmware/vro/jenkins/plugin/util/RestClient.java:193-225 | null for no response. A response without an entity is a null dereference. Otherwise the body with every line terminator removed |
| RestClient.HeaderValuesFirst | src/main/java/com/vmware/vro/jenkins/plugin/util/RestClient.java:239-242 | the first value found is that of the first header whose name matches, ignoring case |
| RestClient.HeaderValuesNone | src/main/java/com/vmware/vro/jenkins/plugin/util/RestClient.java:239-242 | no matching header gives no values |
| RestClient.ParseResponseLocationHeader | src/main/java/com/vmware/vro/jenkins/plugin/util/RestClient.java:236-249 | the values of all Location headers, in header order |
| RestClient.SubmissionLocation | src/main/java/com/vmware/vro/jenkins/plugin/util/RestClient.java:99-108 | null for no response. Status 202 with a Location header gives the first Location value, and status 202 without one is an index error. Any other status fails with "Server responded with status code " and the status line |
| RestClient.AcceptedYieldsFirstLocation | src/main/java/com/vmware/vro/jenkins/plugin/util/RestClient.java:101-103 | a 202 response gives the value of its first Location header |
| RestClient.HttpGet | src/main/java/com/vmware/vro/jenkins/plugin/util/RestClient.java:70-80 | with a blank tenant, exactly one GET goes out, with no body and with the headers Accept (JSON) and Basic authorization. Otherwise the token request goes out first. A token failure stops there with that failure; otherwise the GET follows with Bearer authorization. Whenever the GET is sent, the result is the reply's body text (`ResponseText`) |
| RestClient.ResponseTextJoinsLines | src/main/java/com/vmware/vro/jenkins/plugin/util/RestClient.java:205-208 | a body of two lines reads as the two lines joined, whether "\n", "\r" or "\r\n" separates them |
| RestClient.HttpPostForLocationHeader | src/main/java/com/vmware/vro/jenkins/plugin/util/RestClient.java:85-109 | with a blank tenant, exactly one POST goes out, with the payload as its entity and with the headers Accept (JSON) and Basic authorization. Otherwise the token request goes out first. A token failure stops there with that failure; otherwise the POST follows with Bearer authorization. Whenever the POST is sent, the result is the submission's location (`SubmissionLocation`) |
| OrchestratorClient.SplitName | src/main/java/com/vmware/vro/jenkins/plugin/OrchestratorClient.java:192-194 | a null name is a null dereference. A name without '@' is an index error. Otherwise the name is `a@b` with no '@' in `a` |
| OrchestratorClient.SplitLabelRoundTrip | src/main/java/com/vmware/vro/jenkins/plugin/OrchestratorClient.java:192-194 | `name@tag` splits back into name and tag when the name holds no '@' |
| OrchestratorClient.IsPrimitiveType | src/main/java/com/vmware/vro/jenkins/plugin/OrchestratorClient.java:232-237 | a tag is primitive exactly when its lower-case form is string, encryptedstring, securestring, number, date or boolean |
| OrchestratorClient.WireKind | src/main/java/com/vmware/vro/jenkins/plugin/OrchestratorClient.java:209-229 | the key is one of string, number, date, boolean and sdk-object. It is sdk-object exactly for non-primitive tags. EncryptedString and SecureString, in any case, give "string". Every other primitive gives its tag in lower case |
| OrchestratorClient.ValueObject | src/main/java/com/vmware/vro/jenkins/plugin/OrchestratorClient.java:208-230 | an object with the single key `WireKind(tag)`. For a primitive, that key holds an object with only "value", which is the value or JSON null. Otherwise it holds an object with only "id", which is the value, and "type", which is the tag unchanged |
| OrchestratorClient.ValueObjectRoundTrip | src/main/java/com/vmware/vro/jenkins/plugin/OrchestratorClient.java:208-230 | a primitive reads back under its lower-case kind with its value. Anything else reads back as an sdk-object with the value as id and the tag unchanged as type |
| OrchestratorClient.SecretsTravelAsStrings | src/main/java/com/vmware/vro/jenkins/plugin/OrchestratorClient.java:214-215 | EncryptedString and SecureString, in any case, travel as "string" |
| OrchestratorClient.ParameterEntry | src/main/java/com/vmware/vro/jenkins/plugin/OrchestratorClient.java:191-198 | an entry exists exactly when the name splits. It holds exactly name, type and value. Name and type are the halves of the parameter's name, and the value reads back as the typed value |
| OrchestratorClient.RequestPayload | src/main/java/com/vmware/vro/jenkins/plugin/OrchestratorClient.java:186-206 | no body for a null or empty list. Otherwise it succeeds exactly when every name splits, and gives `{"parameters": [...]}` with one entry per input, in input order |
| OrchestratorClient.RequestPayloadFailsAtFirstBadName | src/main/java/com/vmware/vro/jenkins/plugin/OrchestratorClient.java:190-194 | the first input whose name does not split decides the exception |
| OrchestratorClient.RequestPayloadIgnoresTypeField | src/main/java/com/vmware/vro/jenkins/plugin/OrchestratorClient.java:192-197 | changing the parameters' type fields does not change the body |
| OrchestratorClient.ConstructRequestPayload | src/main/java/com/vmware/vro/jenkins/plugin/OrchestratorClient.java:186-206 | the loop builds exactly the body of `RequestPayload` |
| OrchestratorClient.SubmitPayload | src/main/java/com/vmware/vro/jenkins/plugin/OrchestratorClient.java:134-137 | the posted body is `{}` exactly when the inputs are null or empty, and `RequestPayload`'s body otherwise |
| OrchestratorClient.ExecutionLocation | src/main/java/com/vmware/vro/jenkins/plugin/OrchestratorClient.java:127-140 | a payload failure comes first; then the reply's failure; then the submission's location |
| OrchestratorClient.ExecuteWorkflow | src/main/java/com/vmware/vro/jenkins/plugin/OrchestratorClient.java:127-140 | posts exactly `SubmitPayload`'s body, and nothing when it fails; returns `ExecutionLocation` |
| OrchestratorClient.OptionalString | src/main/java/com/vmware/vro/jenkins/plugin/OrchestratorClient.java:79-82 | null when the key is missing; otherwise `getAsString` of the member |
| OrchestratorClient.ApplyAttribute | src/main/java/com/vmware/vro/jenkins/plugin/OrchestratorClient.java:77-87 | it succeeds exactly when the attribute's name and value can be read |
| OrchestratorClient.ApplyAttributes | src/main/java/com/vmware/vro/jenkins/plugin/OrchestratorClient.java:74-88 | it succeeds exactly when every attribute can be read |
| OrchestratorClient.LastAttributeWins | src/main/java/com/vmware/vro/jenkins/plugin/OrchestratorClient.java:83-87 | the workflow's name (id) is the value of the last attribute named "name" ("id"), and null when there is none |
| OrchestratorClient.ApplyAttributesErrSticky | src/main/java/com/vmware/vro/jenkins/plugin/OrchestratorClient.java:76-78 | once an attribute fails, the later ones do not matter |
| OrchestratorClient.LinkWorkflows | src/main/java/com/vmware/vro/jenkins/plugin/OrchestratorClient.java:72-90 | a link is an object; it gives one workflow exactly when it has "attributes", none otherwise |
| OrchestratorClient.WorkflowsOf | src/main/java/com/vmware/vro/jenkins/plugin/OrchestratorClient.java:67-93 | a failed request fails alike. A body that is not an object fails the cast. No "link" member gives no workflows, and a "link" that is not an array fails the cast. A "link" array gives what its links give, in order, with `Collect`. `OneWorkflowPerLink` describes that result |
| OrchestratorClient.OneWorkflowPerLink | src/main/java/com/vmware/vro/jenkins/plugin/OrchestratorClient.java:71-91 | one workflow per link that has attributes, in link order |
| OrchestratorClient.FetchWorkflows | src/main/java/com/vmware/vro/jenkins/plugin/OrchestratorClient.java:62-94 | the nested loops build new `Workflow` objects whose fields are exactly `WorkflowsOf`, or fail with its exception |
| OrchestratorClient.NewWorkflow | src/main/java/com/vmware/vro/jenkins/plugin/OrchestratorClient.java:74-88 | a new `Workflow` is built exactly when every attribute of the link applies; it then holds the name and id the attributes give, and otherwise the failure is the first attribute's |
| OrchestratorClient.InputParameter | src/main/java/com/vmware/vro/jenkins/plugin/OrchestratorClient.java:113-116 | an entry decodes exactly when it is an object whose "name" and "type" read as strings. It then gives those two strings and the empty string as value. Otherwise it fails on the first of these steps that fails: not an object, the name, then the type |
| OrchestratorClient.InputEntryDecodes | src/main/java/com/vmware/vro/jenkins/plugin/OrchestratorClient.java:113-116 | an entry with a string name and type gives exactly them, whatever else it holds; an entry without a type is a null dereference |
| OrchestratorClient.InputParametersOf | src/main/java/com/vmware/vro/jenkins/plugin/OrchestratorClient.java:99-121 | nothing for a blank workflow id. Otherwise a failed request fails alike, and a body that is not an object fails with IllegalState. Nothing when there is no "input-parameters", and a ClassCast error when it is not an array. Otherwise one parameter per entry, in order, or the first entry's failure |
| OrchestratorClient.NewInputParameters | src/main/java/com/vmware/vro/jenkins/plugin/OrchestratorClient.java:112-117 | the loop builds new `Parameter` objects equal to the decoded entries, or fails with the first entry's exception |
| OrchestratorClient.FetchWorkflowInputParameters | src/main/java/com/vmware/vro/jenkins/plugin/OrchestratorClient.java:99-121 | new `Parameter` objects whose fields are exactly `InputParametersOf` |
| OrchestratorClient.StateOf | src/main/java/com/vmware/vro/jenkins/plugin/OrchestratorClient.java:145-160 | a failed request fails alike, and a body that is not an object fails with IllegalState. Without a "state" member there is no state and it is not completed. A "state" member decodes exactly when `getAsString` reads it: a number or boolean as its text, a one-element array as its element, null or an object failing with UnsupportedOperation and any other array with IllegalState. The state is then that text, taken as is, and it is completed exactly when the text is one of the three terminal names |
| OrchestratorClient.IsTerminalState | src/main/java/com/vmware/vro/jenkins/plugin/OrchestratorClient.java:154 | a state is terminal exactly when it is already in lower case and is completed, canceled or failed, so case matters |
| OrchestratorClient.TerminalCheckIsCaseSensitive | src/main/java/com/vmware/vro/jenkins/plugin/OrchestratorClient.java:154 | "COMPLETED" is not terminal although it equals "completed" ignoring case |
| OrchestratorClient.FetchWorkflowState | src/main/java/com/vmware/vro/jenkins/plugin/OrchestratorClient.java:145-160 | a new `ExecutionState` whose fields are exactly `StateOf` |
| OrchestratorClient.OutputOf | src/main/java/com/vmware/vro/jenkins/plugin/OrchestratorClient.java:165-184 | it fails with a failed request, and with a body that is not an object. Otherwise it succeeds exactly when every present member reads: the state and exception as strings, "output-parameters" as an array. It then sets each field exactly when its key is present: the state and exception to their strings, the parameters to the serialised array. A failure is that of the first member in source order that does not read |
| OrchestratorClient.OutputBodyDecodes | src/main/java/com/vmware/vro/jenkins/plugin/OrchestratorClient.java:165-184 | a body built from a state, an output array and an exception, each present or not, decodes back to them, with the array as its serialised text |
| OrchestratorClient.FetchWorkflowOutputParameters | src/main/java/com/vmware/vro/jenkins/plugin/OrchestratorClient.java:165-184 | a new `ExecutionOutput` whose fields are exactly `OutputOf` |
| EnvVariableResolver.Resolve | src/main/java/com/vmware/vro/jenkins/plugin/util/EnvVariableResolver.java:26-28 | null for null, and for an expansion that is all trimmable; otherwise the trimmed expansion, never empty |
| EnvVariableResolver.ResolveIdempotent | src/main/java/com/vmware/vro/jenkins/plugin/util/EnvVariableResolver.java:26-28 | with no variables to expand, resolving twice is resolving once |
| EnvVariableResolver.ResolveRecords | src/main/java/com/vmware/vro/jenkins/plugin/util/EnvVariableResolver.java:30-46 | no parameters for a null list; otherwise one per input, in order, each field resolved |
| EnvVariableResolver.ResolveParameters | src/main/java/com/vmware/vro/jenkins/plugin/util/EnvVariableResolver.java:30-46 | the loop returns new clones, with the inputs left unmodified, whose fields are exactly `ResolveRecords` |
| EnvVariableResolver.ResolvedClone | src/main/java/com/vmware/vro/jenkins/plugin/util/EnvVariableResolver.java:35-38 | a new parameter, distinct from every existing one, whose name, value and type are the original's resolved |
| OrchestratorCallable.FirstStop | src/main/java/com/vmware/vro/jenkins/plugin/OrchestratorCallable.java:43-51 | the index of a poll that ends the loop, with no earlier one that does |
| OrchestratorCallable.Wrap | src/main/java/com/vmware/vro/jenkins/plugin/OrchestratorCallable.java:68-71 | a success passes unchanged; any exception comes out wrapped once |
| OrchestratorCallable.ResultMap | src/main/java/com/vmware/vro/jenkins/plugin/OrchestratorCallable.java:58-64 | keys only among the three constants. STATE and OUTPUT hold the output's state and parameters. EXCEPTION is present, with the output's exception, exactly when the last polled state is canceled or failed, ignoring case |
| OrchestratorCallable.CallResult | src/main/java/com/vmware/vro/jenkins/plugin/OrchestratorCallable.java:28-75 | every exception is wrapped, and a submission failure comes first. Without waiting, the map is empty. With waiting and no location, the result is a malformed-URL error. With waiting and a location, it succeeds exactly when the first stopping poll and the output fetch both succeed, and the map is then `ResultMap` of that poll's state and the output. Otherwise it fails with the poll's exception wrapped, or, after a good poll, with the output fetch's exception wrapped |
| OrchestratorCallable.NoWaitReturnsEmptyMap | src/main/java/com/vmware/vro/jenkins/plugin/OrchestratorCallable.java:37 | without waiting, an accepted submission returns the empty map |
| OrchestratorCallable.ExceptionEntryIffFailed | src/main/java/com/vmware/vro/jenkins/plugin/OrchestratorCallable.java:46-64 | the last polled state is terminal, and the EXCEPTION entry is present exactly when it is not "completed" |
| OrchestratorCallable.CompletedScenario | src/main/java/com/vmware/vro/jenkins/plugin/OrchestratorCallable.java:43-59 | running then completed: two polls, and a map of the completed state and the serialised outputs, with no exception |
| OrchestratorCallable.FailedScenario | src/main/java/com/vmware/vro/jenkins/plugin/OrchestratorCallable.java:54-64 | a failed execution maps to its state, no outputs and its exception text |
| OrchestratorCallable.AwaitCompletion | src/main/java/com/vmware/vro/jenkins/plugin/OrchestratorCallable.java:43-51 | states are fetched until the first stopping answer, and no fewer: that is its index plus one fetches. The state is reported after every successful fetch. The result is that answer's state or its exception |
| OrchestratorCallable.Call | src/main/java/com/vmware/vro/jenkins/plugin/OrchestratorCallable.java:28-76 | returns exactly `CallResult`. It polls only when waiting for an accepted submission, and then as many times as `AwaitCompletion` |
| OrchestratorBuilder.FirstMatch | src/main/java/com/vmware/vro/jenkins/plugin/OrchestratorBuilder.java:84-90 | a failure is a null dereference, and some workflow then has no name. An id found belongs to a workflow with exactly that name. When some workflow has the name and nothing fails, the result is the id of such a workflow. With every workflow named and none named so, the result is null |
| OrchestratorBuilder.FirstMatchFinds | src/main/java/com/vmware/vro/jenkins/plugin/OrchestratorBuilder.java:84-90 | the id of the first workflow with exactly that name |
| OrchestratorBuilder.FirstMatchNullName | src/main/java/com/vmware/vro/jenkins/plugin/OrchestratorBuilder.java:86 | a workflow without a name before any match is a null dereference |
| OrchestratorBuilder.FirstMatchExamples | src/main/java/com/vmware/vro/jenkins/plugin/OrchestratorBuilder.java:84-90 | of two workflows "A" the first one's id is taken; "Missing" is not found |
| OrchestratorBuilder.ResolveWorkflowId | src/main/java/com/vmware/vro/jenkins/plugin/OrchestratorBuilder.java:80-90 | the loop, which breaks at the first match, gives exactly `FirstMatch` |
| OrchestratorBuilder.PerformVerdict | src/main/java/com/vmware/vro/jenkins/plugin/OrchestratorBuilder.java:122-133 | a missing or null state is a null dereference. The build fails exactly when the state is canceled or failed, ignoring case. Otherwise the action holds the whole map |
| OrchestratorBuilder.ExecutionParam | src/main/java/com/vmware/vro/jenkins/plugin/OrchestratorBuilder.java:99-105 | the found id becomes the workflow name; the wait flag is kept; server URL, user name, password, tenant and the inputs are resolved |
| OrchestratorBuilder.RunResult | src/main/java/com/vmware/vro/jenkins/plugin/OrchestratorBuilder.java:107-133 | validation failure first; then the callable's failure; then the outcome of its map |
| OrchestratorBuilder.PerformResult | src/main/java/com/vmware/vro/jenkins/plugin/OrchestratorBuilder.java:71-134 | a lookup exception comes out wrapped. A workflow that is not found fails with "Workflow doesn't exist in the server.". A found id leads to `RunResult` with the settings resolved and that id as the workflow name. Success implies that the lookup found an id and that validation passed |
| OrchestratorBuilder.MissingWorkflowReportedFirst | src/main/java/com/vmware/vro/jenkins/plugin/OrchestratorBuilder.java:95-97 | an unknown workflow fails with "Workflow doesn't exist in the server." before any validation |
| OrchestratorBuilder.IdIsValidatedAsWorkflowName | src/main/java/com/vmware/vro/jenkins/plugin/OrchestratorBuilder.java:99-107 | the found id is what `validate` checks as the workflow name |
| OrchestratorBuilder.NoWaitBuildDereferencesState | src/main/java/com/vmware/vro/jenkins/plugin/OrchestratorBuilder.java:122-125 | without waiting, a build that gets past the submission dereferences the missing state |
| OrchestratorBuilder.LookupWorkflowId | src/main/java/com/vmware/vro/jenkins/plugin/OrchestratorBuilder.java:80-93 | the fetch-and-search gives the id of `WorkflowIdOf`, with exceptions wrapped |
| OrchestratorBuilder.Run | src/main/java/com/vmware/vro/jenkins/plugin/OrchestratorBuilder.java:107-133 | gives exactly `RunResult`; a new environment action, holding the map, exactly on success |
| OrchestratorBuilder.Perform | src/main/java/com/vmware/vro/jenkins/plugin/OrchestratorBuilder.java:71-134 | gives exactly `PerformResult` of the settings' inputs; a new environment action, holding the map, exactly on success |
| OrchestratorBuilder.CheckServerUrl | src/main/java/com/vmware/vro/jenkins/plugin/OrchestratorBuilder.java:187-209 | blank gives "Please enter Orchestrator server URL.". A value with '$' is accepted unchecked. Otherwise it is valid exactly when the raw value is a valid URI, else "This is not a valid URI" |
| OrchestratorBuilder.CheckUserName | src/main/java/com/vmware/vro/jenkins/plugin/OrchestratorBuilder.java:211-225 | an error, "Please enter user name.", exactly when the value is blank after trimming |
| OrchestratorBuilder.CheckPassword | src/main/java/com/vmware/vro/jenkins/plugin/OrchestratorBuilder.java:227-240 | valid exactly when non-blank with no '$'. Blank gives "Please enter password."; a '$' gives "Environment variable cannot be used in password." |
| OrchestratorBuilder.NameListed | src/main/java/com/vmware/vro/jenkins/plugin/OrchestratorBuilder.java:264-269 | a null dereference exactly when some workflow has no name; otherwise whether some workflow has exactly that name |
| OrchestratorBuilder.CheckScansPastMatch | src/main/java/com/vmware/vro/jenkins/plugin/OrchestratorBuilder.java:265-269 | a nameless workflow after the match fails the check, though `perform`'s search finds the match |
| OrchestratorBuilder.WorkflowNameCheck | src/main/java/com/vmware/vro/jenkins/plugin/OrchestratorBuilder.java:242-274 | blank gives "Please enter workflow name.". A '$' is accepted unchecked. Otherwise it fails exactly when the list or a name fails, and is valid exactly when a workflow has the name as entered, else "Workflow with the given name doesn't exist in the server." |
| OrchestratorBuilder.CheckComparesUntrimmedName | src/main/java/com/vmware/vro/jenkins/plugin/OrchestratorBuilder.java:250-266 | "A " passes the blank rule as "A" but matches no workflow named "A" |
| OrchestratorBuilder.CheckWorkflowName | src/main/java/com/vmware/vro/jenkins/plugin/OrchestratorBuilder.java:242-274 | the loop, which has no early exit, gives exactly `WorkflowNameCheck` |
| OrchestratorBuilder.ScanWorkflowNames | src/main/java/com/vmware/vro/jenkins/plugin/OrchestratorBuilder.java:264-269 | the scan compares every fetched name with the name as entered, and fails with a null dereference when any fetched workflow has no name |
| OrchestratorBuilder.CheckTenant | src/main/java/com/vmware/vro/jenkins/plugin/OrchestratorBuilder.java:276-292 | always valid without single sign-on; otherwise "Please enter tenant." exactly when the tenant is blank |
| OrchestratorBuilder.OrchestratorEnvAction.constructor | src/main/java/com/vmware/vro/jenkins/plugin/OrchestratorBuilder.java:296-299 | starts from an empty map |
| OrchestratorBuilder.OrchestratorEnvAction.Of | src/main/java/com/vmware/vro/jenkins/plugin/OrchestratorBuilder.java:301-303 | holds the given map, possibly null |
| OrchestratorBuilder.OrchestratorEnvAction.Add | src/main/java/com/vmware/vro/jenkins/plugin/OrchestratorBuilder.java:305-310 | nothing happens without a map; otherwise the entry is put |
| OrchestratorBuilder.OrchestratorEnvAction.AddAll | src/main/java/com/vmware/vro/jenkins/plugin/OrchestratorBuilder.java:312-314 | a null dereference without a map; otherwise every entry is put, the new ones replacing |
| OrchestratorBuilder.OrchestratorEnvAction.BuildEnvVars | src/main/java/com/vmware/vro/jenkins/plugin/OrchestratorBuilder.java:317-321 | every entry of the map is in the environment with its value; every other variable is kept; nothing changes without a map |
| ParameterDescriptor.LabelSplitsBack | src/main/java/com/vmware/vro/jenkins/plugin/model/Parameter.java:96-98 | the label `name@type` splits back into name and type when the name holds no '@' |
| ParameterDescriptor.Options | src/main/java/com/vmware/vro/jenkins/plugin/model/Parameter.java:94-100 | one option per parameter, in order, with the label as text and value, selected when the label matches the chosen name. A null chosen name is a null dereference when there is a parameter |
| ParameterDescriptor.UnknownWorkflowHasNoOptions | src/main/java/com/vmware/vro/jenkins/plugin/model/Parameter.java:80-100 | a workflow not in the list gives no options |
| ParameterDescriptor.OneOptionPerInput | src/main/java/com/vmware/vro/jenkins/plugin/model/Parameter.java:91-100 | for a known workflow, one option per input parameter; each label splits back into that parameter's name and type |
| ParameterDescriptor.NewOptions | src/main/java/com/vmware/vro/jenkins/plugin/model/Parameter.java:94-100 | the loop gives exactly `Options` |
| ParameterDescriptor.NameItems | src/main/java/com/vmware/vro/jenkins/plugin/model/Parameter.java:71-103 | a failure to list the workflows or to search them is passed on unchanged, and so is a failure to fetch the inputs of the id found. Otherwise the options are exactly `Options` of those inputs |
| ParameterDescriptor.FillNameItems | src/main/java/com/vmware/vro/jenkins/plugin/model/Parameter.java:71-103 | gives exactly `NameItems`: lookup by the name as entered, inputs by the id found, then options |

## Left out

- HTTP transport is not modelled. This covers the TLS trust-all client, URL building, `URLEncoder`, consuming entities and closing streams. The server's answers are inputs.
- JSON text parsing and Gson's serialisation are not modelled. Bodies are given parsed, and the "output-parameters" text is given by `toJson`.
- The serialised form of the submitted body and of the token request is not modelled. The model works with JSON values, so the posted `{}` is the empty object.
- `EnvVars.expand` is the parameter `expand`. The merging of the build's variables into the environment (`EnvVariableResolver`'s constructor) is left out.
- URI validity in `doCheckServerUrl` is the parameter `isValidUri`.
- `String.matches` in `doFillNameItems` is the parameter `matches`. An invalid pattern's `PatternSyntaxException` is not modelled.
- `Thread.sleep` between polls is left out, along with `InterruptedException`. Of the console output, the model keeps only the state reported after each poll, as the `log` of `OrchestratorCallable.AwaitCompletion`. Every other message is dropped.
- OrchestratorCallable.Call: requires the polled answers to contain one that ends the loop, because an execution that never completes polls forever. OrchestratorCallable.AwaitCompletion, OrchestratorBuilder.Perform, OrchestratorBuilder.Run, OrchestratorBuilder.PerformResult and OrchestratorBuilder.RunResult require the same whenever they wait.
- `Encoding.Utf8` and `RestClient.BasicCredential`: a model string is a sequence of Unicode scalar values, while a Java `String` is UTF-16. A lone surrogate, which `getBytes("UTF-8")` replaces by '?', cannot occur in the model.
- Character case is folded for ASCII letters only, in `equalsIgnoreCase`, `toLowerCase` and header-name matching. `type.toLowerCase()` at `OrchestratorClient.java:217` uses the JVM's default locale. Under a Turkish locale, "STRING" becomes "strıng" with a dotless i. The model folds as the root locale does.
- OrchestratorBuilder.OrchestratorEnvAction.BuildEnvVars: Jenkins' `EnvVars` has case-insensitive names and refuses null values. The model's environment is a plain map that takes null values.
- EnvVariableResolver.ResolveParameters: the `CloneNotSupportedException` branch cannot be taken, because `Parameter` implements `Cloneable`. The model keeps every element.
- RestClient.ParseResponse: an entity whose content stream is null (the code then returns null) is not distinguished from a missing entity.
- The credentials used for each request are not modelled. They only address the server, so they play no part in the decoders. `perform` and `doCheckWorkflowName` list the workflows with the unresolved settings.
- Jenkins plumbing is left out: descriptors' display names, `isApplicable`, `load`, serialisation, the getters, and the action's icon, display name and URL.
- `RestClient.httpPost` is modelled only as the token request it carries. It has no other caller in the core.
