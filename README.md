# Hydro Flow Vision back end: agent loop, tool lookups and profile helpers

This Dafny project models the computational core of the Hydro Flow Vision
back end, a Django service for water-treatment work whose AI assistant runs
as a LangGraph workflow. It covers four parts.

- **The agent loop** (`agent_graph.dfy`, `agent_configs.dfy`). The three
  workflow modules share it. The state is `{messages, steps}`. An "agent"
  node calls the language model and adds one to `steps`. A "tools" node
  answers each tool call of the last message with a `ToolMessage`.
  `should_continue` routes after every node and stops once ten agent steps
  have run. `run_agent` reports the last AI message. The language model and
  the tools are function-valued parameters. The three graphs differ only in
  their tool registry and system prompt, so those are parameters too. The
  older orchestrator's `run_agent` also differs in how it reads the query
  (see "## Left out").
- **The mock tools of the react workflow** (`mock_tools.dfy`):
  - the pump catalogue lookup, with its name normalisation, exact match,
    then first partial match;
  - the weather table with its fallback report;
  - the table part of the unit converter.
- **The ERP pump lookup** (`erp_tools.dfy`). It checks the credentials,
  then scans the pump items the ERP returned for the first
  case-insensitive match. The HTTP response is a parameter.
- **The profile helpers** (`profiles.dfy`):
  - the upload-path helper `user_directory_path`;
  - the 5 MiB image-size validator;
  - the phone-number validator, with the regular expression proved equal
    to a closed form;
  - the role and status choices with their defaults;
  - the caption fallback of an image's title.

`pystr.dfy` holds the Python string operations these rely on:

- `lower`;
- one-character `replace`;
- the substring test `in`;
- `split(sep)[-1]`.

`optional.dfy` holds the `Option` type.

The operations that loop in the source are methods, each proved equal to a
specification function:

- `AgentGraph.CallModel` (the scan for a system message), equal to
  `ModelUpdate`;
- `AgentGraph.CallTools`, equal to `ToolsUpdate`;
- `AgentGraph.Run` (the compiled graph), equal to `RunFrom`, which runs a
  node, merges its output and follows the edge `should_continue` picks;
- `MockTools.SearchCatalogue`;
- `ErpTools.GetPumpFromErp`.

Lemmas then prove what the source promises about those specification
functions. Since the model and the tools are parameters, `RunFrom` is the
run for any model and any tools, and its lemmas hold for all of them.

The three workflow modules are one agent/tools loop, with different tool
registries.

## Model

| member | source | states |
|---|---|---|
| AgentGraph.Apply | management/AI/old/react_workflow.py:23-26 | A node's output is appended to the history (`add_messages`): the old history is a prefix, the new messages follow it, and `steps` is replaced |
| AgentGraph.ShouldContinue | management/AI/old/react_workflow.py:336-356 | At ten steps or more the run ends. Below the cap it continues to the tools node exactly when the last message carries tool calls, continues to the agent exactly when the last message is a tool message, and otherwise ends |
| AgentGraph.ModelInput | management/AI/old/react_workflow.py:262-265 | The model sees the history unchanged, with at most one message put in front of it |
| AgentGraph.ModelInputSpec | management/AI/old/react_workflow.py:262-265 | The system prompt is put in front exactly when `steps` is 0 and the history has no system message. The history is otherwise sent unchanged, and on step 0 the model always sees a system message |
| AgentGraph.ModelReply | management/AI/old/react_workflow.py:279-283 | The reply is an AI message exactly when the model call succeeded, and then it is the model's response unchanged: the same text and the same tool calls. A failed call yields the system message `Error calling model: <error>` |
| AgentGraph.CallModel | management/AI/old/react_workflow.py:260-283 | Returns only the reply to the prepared input, and raises `steps` by one on success and on error alike: the agent node's output `ModelUpdate` |
| AgentGraph.ToolReply | management/AI/old/react_workflow.py:296-332 | Each call yields a tool message carrying the call's id, or "unknown" when the call has no id. The content is the tool's JSON exactly when the tool is registered, ran and the id exists, and then it is named after the tool. Every error is named "error". An unregistered name gives `Tool '<name>' not found`, and a raised exception gives its text. A registered tool that returned normally, called without an id, gives the `KeyError` text `'id'` |
| AgentGraph.CallTools | management/AI/old/react_workflow.py:285-334 | Exactly one reply per tool call of the last message, in call order, and none when it has no calls. `steps` is unchanged: the tools node's output `ToolsUpdate` |
| AgentGraph.Run | management/AI/old/react_workflow.py:359-390 | The loop over supersteps returns exactly what `RunFrom` gives from the "agent" entry point: the final state and the number of agent and tools calls. It always reaches END. The history only grows, `steps` rises by the number of agent calls, and there are at most max(1, 10 - steps) agent calls. Tools steps never outnumber agent steps, and at the end `should_continue` says "end" |
| AgentGraph.RunFromBounds | management/AI/old/react_workflow.py:359-390 | For any model and any tools, the run of the graph ends where `should_continue` says "end", keeps the old history as a prefix, and raises `steps` by its agent calls. From the agent node it calls the model at least once and at most max(1, 10 - steps) times, and the tools node no more often than the model |
| AgentGraph.RunStartsWithModelReply | management/AI/old/react_workflow.py:359-366 | The first message a run adds to the history is the model's reply to the prepared input of the entry node "agent" |
| AgentGraph.DirectAnswerEndsRun | management/AI/old/react_workflow.py:339-356 | When the model answers without tool calls, the run ends after that one agent step, with no tools step and that answer as the last message |
| AgentGraph.Next | management/AI/old/react_workflow.py:369-387 | The conditional edges: "end" goes to END, "continue_to_tools" to the tools node and "continue_to_agent" to the agent node, and no other decision reaches any of them |
| AgentGraph.InitialState | management/AI/old/react_workflow.py:398-402 | A fresh run starts with the full budget of ten agent steps |
| AgentGraph.FinalAnswer | management/AI/old/react_workflow.py:426-428 | The reported answer, when there is one, is an AI message, and a history that ends with an AI message reports that message |
| AgentGraph.FinalAnswerIsLastAi | management/AI/old/react_workflow.py:425-429 | The reported answer is the last AI message of the history, and there is none exactly when no message is from the AI |
| AgentGraph.RunAgent | management/AI/old/react_workflow.py:393-436 | Returns the final state and the call counts of `RunFrom` from the query alone, so the history is what the nodes returned. That history starts with the query and ends where `should_continue` says "end". The reported answer is `FinalAnswer` of that history, so by `FinalAnswerIsLastAi` it is its last AI message. A fresh run makes 1 to 10 model calls, and no more tools calls than model calls, so it never reaches LangGraph's recursion limit of 25 |
| AgentConfigs.AnalyseLabReportNotFound | management/AI/old/mainai.py:21-30 | `analyse_lab_report` is imported by the older orchestrator but not registered, so a call to it always gets the not-found error |
| AgentConfigs.ReactWorkflowDispatch | management/AI/old/react_workflow.py:208-209 | The react workflow registers the same four tools as the current agent module, so every tool call gets the same reply in both |
| AgentConfigs.ErpLookupNotRegistered | management/AI/old/react_workflow.py:208-209 | `get_pump_from_erp` is not among the react workflow's tools, so a call to it always gets the not-found error |
| AgentConfigs.MainAiDispatchIsExact | management/AI/mainai.py:29-30 | Tools are looked up by exact name: a name that differs only in case is not found, and a registered name returns the tool's JSON |
| MockTools.ExactEntry | management/AI/old/react_workflow.py:88-89 | The dictionary lookup finds nothing exactly when no key equals the search key. Otherwise it finds the record of an item with that key |
| MockTools.FirstPartialIsFirst | management/AI/old/react_workflow.py:92-96 | The partial scan returns the earliest item whose key, space-free lowered product model or lowered description contains the search key. It returns nothing exactly when no item does |
| MockTools.SearchCatalogue | management/AI/old/react_workflow.py:85-98 | The scan returns the exact match, else the first partial match, else the error quoting the name as typed |
| MockTools.GetPumpDetails | management/AI/old/react_workflow.py:45-101 | The tool is the scan over its three-item mock catalogue |
| MockTools.PumpLookupIgnoresSpelling | management/AI/old/react_workflow.py:85-98 | Names that differ in case, or by a space or a hyphen anywhere, find the same record or both find none |
| MockTools.NormaliseIgnoresSpelling | management/AI/old/react_workflow.py:85 | The search key `lower().replace(" ", "").replace("-", "")` is unchanged by lowering the name first and by a space or a hyphen inserted anywhere |
| MockTools.PumpLookupCharacterised | management/AI/old/react_workflow.py:85-98 | The lookup `PumpLookup`, the specification of the scan, errs exactly when no key equals the search key and no item matches partially. The error quotes the original name, and any found record is in the catalogue |
| MockTools.PumpLookupDdp60Spellings | management/AI/old/react_workflow.py:50-59 | "DDP-60", "ddp 60" and "DDP60" all find the DDP60 record |
| MockTools.PumpLookupEmptyKey | management/AI/old/react_workflow.py:85-96 | A name that normalises to the empty key (e.g. only spaces and hyphens) matches the first item partially |
| MockTools.AbsentCharMatchesNothing | management/AI/old/react_workflow.py:92-96 | A search key holding a non-letter that appears in no key, model or description matches no item |
| MockTools.GetWeather | management/AI/old/react_workflow.py:104-145 | A known place (case and spaces ignored) gets its stored report. Any other place gets the default report that echoes the place as given, and the condition is "Unknown" exactly then |
| MockTools.GetWeatherIgnoresSpelling | management/AI/old/react_workflow.py:134-145 | Place names that differ in case, or by a space anywhere, are both unknown or get the same stored report |
| MockTools.LocationKeyIgnoresSpelling | management/AI/old/react_workflow.py:134 | The table key `lower().replace(" ", "")` is unchanged by lowering the place name first and by a space inserted anywhere |
| MockTools.GetWeatherNairobi | management/AI/old/react_workflow.py:110-117 | "NAIROBI" gets the Nairobi report |
| MockTools.GetWeatherUnknownPlace | management/AI/old/react_workflow.py:138-145 | An unknown place gets the default report naming it |
| MockTools.UnitConverter | management/AI/old/react_workflow.py:168-202 | The conversion succeeds exactly when the lowered unit names form a table key. It echoes the value and both unit names as given with that key's factor, and otherwise gives the not-supported error quoting the units |
| MockTools.IdentityConversionUnsupported | management/AI/old/react_workflow.py:174-192 | No unit converts to itself: the table holds no `<u>_to_<u>` key |
| ErpTools.GetPumpFromErp | management/AI/tools.py:23-71 | The tool equals its specification: the credentials error without all three settings, the request's own error text when the request fails, and otherwise the first-match scan |
| ErpTools.ErpSearch | management/AI/tools.py:46-68 | A found pump is the info of an item in the list that can be lowered and matches the lowered name. Every error is the not-found message or the `NoneType` `.lower()` error |
| ErpTools.ErpLookup | management/AI/tools.py:23-71 | A pump is found only with all three credentials set and a successful request, and it comes from the returned items. Every error is the credentials error, the request's own error, the not-found message or the `.lower()` error |
| ErpTools.CredentialGuard | management/AI/tools.py:28-33 | The credentials error is returned exactly when the URL, user name or password is unset or empty, whatever the ERP would return. A failed request is reported by its text |
| ErpTools.ExactIsPartial | management/AI/tools.py:51-66 | Every text contains itself, so the exact-number branch never returns anything the partial branch would not |
| ErpTools.ErpSearchFindsFirst | management/AI/tools.py:46-66 | The scan returns item `i` when every earlier item can be lowered and does not match and item `i` matches. It fails with the `NoneType` error at the first item with a null field |
| ErpTools.ErpSearchNotFound | management/AI/tools.py:46-68 | The not-found error, quoting the name as typed, comes exactly when every item can be lowered and none matches |
| ErpTools.EarlierPartialBeatsLaterExact | management/AI/tools.py:46-66 | An earlier partial match wins over a later item whose number equals the name |
| ErpTools.ErpSearchIgnoresCase | management/AI/tools.py:51-59 | Names that differ only in case find the same item |
| Profiles.UserDirectoryPathInUploadDirectory | profiles/models.py:47-53 | Every path the helper `UserDirectoryPath` builds lies under `uploads/<model>/<username>/`, with `anonymous` when the object has no user |
| Profiles.ExtensionWithoutDot | profiles/models.py:51 | A file name without a dot is its own extension |
| Profiles.UserDirectoryPathKeepsExtension | profiles/models.py:51-53 | The stored path has the uploaded file's extension |
| Profiles.UserDirectoryPathLastSegment | profiles/models.py:52-53 | The last path segment is `<uuid>.<ext>`: nothing of the original base name survives |
| Profiles.ValidateImageSize | profiles/models.py:56-59 | The validator fails only with the message "Image size exceeds 5120 KB." |
| Profiles.ImageSizeLimit | profiles/models.py:56-59 | An image passes exactly when it has at most 5,242,880 bytes, so exactly 5 MiB passes and one byte more fails. A smaller image passes whenever a larger one does |
| Profiles.PhoneClosedForm | profiles/models.py:79 | `^\+?1?\d{9,15}$` accepts exactly an optional '+' followed by 9 to 15 digits, or by 16 digits starting with '1' |
| Profiles.PhoneExamples | profiles/tests_dir/test_models.py:37-66 | The test fixture "+1234567890" (line 37) is accepted and "invalid" (lines 60-66) is rejected. The other cases are this model's own examples: "254712345678" is accepted, 16 digits are accepted only after a leading '1', and 8 digits are rejected |
| Profiles.PhoneFitsColumn | profiles/models.py:75-79 | Every accepted number fits the column's `max_length` of 20 |
| Profiles.RoleLabel | profiles/models.py:16-20 | Every role has a label. Only the customer's label is the same as its stored value |
| Profiles.ParseRole | profiles/models.py:16-20 | A stored value names a role only when it is that role's value |
| Profiles.RoleChoices | profiles/models.py:16-20 | Role values are exactly customer, system_admin, support and finance. Each round-trips and fits `max_length` 20 |
| Profiles.StatusLabel | profiles/models.py:23-28 | Every status label is capitalised, so it differs from the lower-case stored value |
| Profiles.ParseStatus | profiles/models.py:23-28 | A stored value names a status only when it is that status's value |
| Profiles.StatusChoices | profiles/models.py:23-28 | Status values are exactly inactive, active, pending, suspended and archived. Each round-trips and fits `max_length` 20 |
| Profiles.DefaultRole | profiles/models.py:65 | A new user's role is stored as "customer" |
| Profiles.DefaultStatus | profiles/models.py:66 | A new user's status is stored as "inactive" |
| Profiles.ImageTitle | profiles/models.py:130-131 | The title starts with "Image for " and ends with the caption, or with "No Caption" when the caption is blank |
| PyStr.Lower | management/AI/old/react_workflow.py:85 | Lowering keeps the length and lowers each character in place |
| PyStr.InLowerIff | management/AI/old/react_workflow.py:85 | Lowering neither adds nor removes a character that is not a letter |
| PyStr.RemoveSpec | management/AI/old/react_workflow.py:85 | `Remove`, one-character `replace(c, "")`, drops every occurrence of it and keeps every other character |
| PyStr.ContainsIffOccurs | management/AI/tools.py:59 | `Contains`, the substring test `needle in hay`, holds exactly when the needle occurs at some position |
| PyStr.AfterLast | profiles/models.py:51 | `split(sep)[-1]` is the longest suffix free of the separator |
| PyStr.AfterLastOfSuffix | profiles/models.py:51-52 | Appending `sep + ext` makes `ext` the last piece |

## Left out

- The language model, LangChain's `bind_tools` and the tools' own bodies in the two orchestrator modules are function parameters. The three system prompts are a string parameter.
- Both orchestrators import their tools from a `tools` module (mainai.py:19-21 and old/mainai.py:19-21): `get_pump_details`, `get_weather`, `calculator`, `unit_converter`, `analyse_lab_report`, `treatment_recommendation`, `ro_sizing`, `quotation_generator`, `proposal_generator` and `AgentState`. The only tools module in the code, management/AI/tools.py, defines none of these names; it defines only `get_pump_from_erp`. So those imports fail as written. The registries here assume a tools module that defines each tool under its function name, and `AgentState` as react_workflow.py:23-26 defines it, with `add_messages` on `messages`. That the three graphs differ only in registry and prompt rests on this assumption.
- The older orchestrator's `run_agent` (old/mainai.py:228) builds the first message from `query["formatted_prompt"]`, so its query is a dictionary. A query without that key raises `KeyError` before the graph runs, outside the `try`. `AgentGraph.RunAgent` takes the prompt text itself, as the react workflow and mainai.py do.
- No model field shown uses `user_directory_path` (profiles/models.py:47-53): `UserImage.image` uploads to `user_images/%Y/%m/` (profiles/models.py:112-115). The Django storage that expands that date pattern is not modelled.
- `add_messages` is modelled as append. LangGraph's replacement of a message whose ID is already present is left out, because every node here returns fresh messages.
- Tool arguments and tool results are opaque JSON text. The pydantic validation of tool arguments and the `json.dumps` serialisation are left out, and a failure of either is a `ToolRaised` outcome.
- `calculator` evaluates Python expressions with `eval`. That is not modelled.
- MockTools.PumpLookupCharacterised: covers the no-match case in general. The "DDP 69" query of the source's examples is not proved as a concrete instance, because it needs character-by-character evaluation of the catalogue's long description texts.
- MockTools.UnitConverter: does not compute `value * factor`. The factors are exact decimals rather than binary floating point.
- The danfoss record's `Power` is the integer 22 in the source. Here it is the real 22.0.
- PyStr.LowerChar: lowers ASCII letters only. Python's full Unicode case mapping is not modelled.
- Logging, `print` output, environment loading and the HTTP request are left out. The request's outcome is a parameter of `ErpTools.GetPumpFromErp`.
- A `value` list that is not a list of JSON objects is not modelled in the ERP lookup. Neither are `No`, `Description` or `Product_Model` values of non-string JSON types.
- `run_agent2` of the older orchestrator repeats `run_agent` with different printing. It is left out. Its `last_message["tool_calls"]` would raise and end the run through its exception handler.
- Profiles.PhoneClosedForm: `\d` is taken as the ASCII digits 0-9. Python's `\d` also matches other Unicode decimal digits. `$` also matches before one trailing newline, which is not modelled. Django's skipping of validators for empty values is not modelled either.
- `uuid1()` in `user_directory_path` is a parameter. `getattr(..., 'user', None)` becomes an optional user name.
- `FileExtensionValidator` (jpg, png, dcm), the `Gender` choices, the `sensitivity_level` default and the `User.__str__` format are not modelled.
- The Django plumbing is left out: views, serializers, URLs, admin, migrations and signals. So are the seed commands, PDF generation and email sending.
