/** The three instances of the shared agent loop: the tool registries the
    workflows build `tools_by_name` from. Tool objects are registered under
    their function names. */
module AgentConfigs {
  import opened Optional
  import opened AgentGraph

  /** `tools` of the react workflow. */
  const ReactWorkflowTools: seq<string> :=
    ["get_pump_details", "get_weather", "calculator", "unit_converter"]

  /** `tools` of the current agent module. */
  const MainAiTools: seq<string> :=
    ["get_pump_details", "get_weather", "calculator", "unit_converter"]

  /** `tools` of the older orchestrator; `analyse_lab_report` is imported
      there but not registered. */
  const OldMainAiTools: seq<string> :=
    ["get_pump_details", "treatment_recommendation", "ro_sizing", "quotation_generator", "proposal_generator"]

  /** A call the older orchestrator's model makes to the unregistered
      `analyse_lab_report` is answered with the not-found error, whatever
      the tools would do. */
  lemma AnalyseLabReportNotFound(invoke: (string, Args) -> ToolOutcome, args: Args, id: string)
    ensures ToolReply(OldMainAiTools, invoke, ToolCall("analyse_lab_report", args, Some(id)))
            == Tool(ErrorContent("Tool 'analyse_lab_report' not found"), "error", id)
  {
    assert "analyse_lab_report" !in OldMainAiTools;
    assert NotFoundError("analyse_lab_report") == "Tool 'analyse_lab_report' not found";
  }

  /** The react workflow registers the same four tools as the current
      agent module, so every tool call gets the same reply in both. */
  lemma ReactWorkflowDispatch(invoke: (string, Args) -> ToolOutcome, call: ToolCall)
    ensures ToolReply(ReactWorkflowTools, invoke, call) == ToolReply(MainAiTools, invoke, call)
  {
    assert ReactWorkflowTools == MainAiTools;
  }

  /** The ERP lookup `get_pump_from_erp` is not among the react workflow's
      tools, so a call to it is answered with the not-found error. */
  lemma ErpLookupNotRegistered(invoke: (string, Args) -> ToolOutcome, args: Args, id: string)
    ensures ToolReply(ReactWorkflowTools, invoke, ToolCall("get_pump_from_erp", args, Some(id)))
            == Tool(ErrorContent("Tool 'get_pump_from_erp' not found"), "error", id)
  {
    assert "get_pump_from_erp" !in ReactWorkflowTools;
    assert NotFoundError("get_pump_from_erp") == "Tool 'get_pump_from_erp' not found";
  }

  /** Dispatch in the current agent module is by exact name: a name that
      differs from a registered one only in case is not found. */
  lemma MainAiDispatchIsExact(invoke: (string, Args) -> ToolOutcome, args: Args, id: string)
    ensures ToolReply(MainAiTools, invoke, ToolCall("Get_Weather", args, Some(id))).content
            == ErrorContent("Tool 'Get_Weather' not found")
    ensures invoke("get_weather", args).Returned? ==>
              ToolReply(MainAiTools, invoke, ToolCall("get_weather", args, Some(id)))
              == Tool(Payload(invoke("get_weather", args).json), "get_weather", id)
  {
    assert "Get_Weather" !in MainAiTools;
    assert NotFoundError("Get_Weather") == "Tool 'Get_Weather' not found";
    assert "get_weather" in MainAiTools;
  }
}
