/**
 * The configuration `create_agent` assembles before it hands it to the agent
 * library: the model settings (`model_kwargs`) and the agent settings
 * (`agent_kwargs`). A key the source leaves out of a keyword dictionary is
 * `None` here; the library's own defaults for missing keys are not modelled.
 *
 * Both agent scripts share this code. Each reads its own module globals, so
 * `CreateAgent` takes them as a `ScriptGlobals` record; the scripts differ
 * only in the default model id.
 */
module AgentSetup {
  import opened Wrappers
  import opened Text
  import opened Transcript
  import RestaurantTools

  // ---------------------------------------------------------------------------
  // The tool catalog

  /** The nine tools, one constructor per `@tool` function. */
  datatype Tool =
    | CreateAccountTool
    | UpdateAccountTool
    | SearchAccountTool
    | CheckAvailabilityTool
    | CreateBookingTool
    | CancelReservationTool
    | CheckReservationDetailsTool
    | GetMenuTool
    | GetDietaryValuesPerItemTool

  /** The name under which the model calls a tool: its Python function name. */
  function ToolName(t: Tool): string
  {
    match t
    case CreateAccountTool => "create_account"
    case UpdateAccountTool => "update_account"
    case SearchAccountTool => "search_account"
    case CheckAvailabilityTool => "check_availability"
    case CreateBookingTool => "create_booking"
    case CancelReservationTool => "cancel_reservation"
    case CheckReservationDetailsTool => "check_reservation_details"
    case GetMenuTool => "get_menu"
    case GetDietaryValuesPerItemTool => "get_dietary_values_per_item"
  }

  /** TOOLS, in the order of the source list. */
  const Tools: seq<Tool> := [
    CreateAccountTool, UpdateAccountTool, SearchAccountTool,
    CheckAvailabilityTool, CreateBookingTool, CancelReservationTool,
    CheckReservationDetailsTool, GetMenuTool, GetDietaryValuesPerItemTool
  ]

  /** Every tool is registered, exactly once. */
  lemma ToolsListEachToolOnce()
    ensures |Tools| == 9
    ensures forall t: Tool :: t in Tools
    ensures forall i, j :: 0 <= i < j < |Tools| ==> Tools[i] != Tools[j]
  {
    forall t: Tool
      ensures t in Tools
    {
      var i: nat :=
        match t
        case CreateAccountTool => 0
        case UpdateAccountTool => 1
        case SearchAccountTool => 2
        case CheckAvailabilityTool => 3
        case CreateBookingTool => 4
        case CancelReservationTool => 5
        case CheckReservationDetailsTool => 6
        case GetMenuTool => 7
        case GetDietaryValuesPerItemTool => 8;
      assert Tools[i] == t;
    }
  }

  /** No two tools share a name, so a call by name selects one tool. */
  lemma ToolNameInjective(a: Tool, b: Tool)
    ensures ToolName(a) == ToolName(b) <==> a == b
  {
  }

  /**
   * The one tool call seeded in the conversation history names a registered
   * tool, and its recorded result is exactly what that tool returns for the
   * recorded arguments.
   */
  lemma SeededCallMatchesTool()
    ensures AccountToolUse.ToolUse? && AccountToolUse.name == ToolName(CreateAccountTool)
    ensures "name" in AccountToolUse.input && "email" in AccountToolUse.input
    ensures AccountToolResult.ToolResult? && AccountToolResult.toolUseId == AccountToolUse.toolUseId
    ensures AccountToolResult.content
         == [Text(RestaurantTools.CreateAccount(AccountToolUse.input["name"], AccountToolUse.input["email"]))]
  {
    var name, email := "Michael Man", "mikeman@gmail.com";
    assert AccountToolUse.input["name"] == name && AccountToolUse.input["email"] == email;
  }

  // ---------------------------------------------------------------------------
  // Constants of the agent

  const SystemPrompt: string :=
    "You are a friendly restaurant assistant. You help customers with:\n"
    + "- Creating and managing their accounts\n"
    + "- Checking availability and making reservations\n"
    + "- Browsing the menu and checking dietary information\n"
    + "- Cancelling or looking up existing reservations\n"
    + "\n"
    + "Information:\n"
    + "- Name of the restaurent is Vino's Italian Restaurant\n"
    + "- Open everyday 11am to 11pm\n"
    + "- We are located at 55 Main St. in Smallsville Kentucky\n"
    + "- Before creating a reservation, always check availability\n"
    + "- Before canceling a reservation, always check to make sure it exists first\n"
    + "\n"
    + "Be helpful, concise, and conversational."

  /** The window size given to the sliding-window conversation manager. */
  const WindowSize: nat := 200

  // ---------------------------------------------------------------------------
  // Arguments and the assembled configuration

  /** A hook provider supplied by the caller; only its identity matters here. */
  datatype HookProvider = HookProvider(id: nat)

  /**
   * The `callback_handler` argument: any Python value. The source compares it
   * with the string "default", so strings are kept apart from other values.
   */
  datatype CallbackArg =
    | NoneValue
    | StrValue(s: string)
    | HandlerObject(id: nat)

  /** The argument's default value. */
  const DefaultCallback: CallbackArg := StrValue("default")

  /** `model_kwargs`: `region_name` is None when the key is left out. */
  datatype ModelConfig = ModelConfig(modelId: string, regionName: Option<string>)

  /** `agent_kwargs`: each optional key is None when the source leaves it out. */
  datatype AgentConfig = AgentConfig(
    model: ModelConfig,
    tools: seq<Tool>,
    systemPrompt: string,
    windowSize: nat,
    messages: Option<seq<Turn>>,
    hooks: Option<seq<HookProvider>>,
    callbackHandler: Option<CallbackArg>)

  /** Python truthiness of the `hooks` argument: given and not an empty list. */
  predicate HooksGiven(hooks: Option<seq<HookProvider>>)
  {
    hooks.Some? && |hooks.value| > 0
  }

  /**
   * The module globals `create_agent` reads: DEFAULT_MODEL_ID, TOOLS,
   * SYSTEM_PROMPT and MOCK_CONVERSATION_HISTORY.
   */
  datatype ScriptGlobals = ScriptGlobals(
    defaultModelId: string,
    tools: seq<Tool>,
    systemPrompt: string,
    history: seq<Turn>)

  /**
   * create_agent: fills the two keyword dictionaries one key at a time from
   * the arguments and the script's globals `g`.
   */
  method CreateAgent(
    g: ScriptGlobals,
    modelId: Option<string> := None,
    regionName: Option<string> := None,
    hooks: Option<seq<HookProvider>> := None,
    callbackHandler: CallbackArg := DefaultCallback,
    loadHistory: bool := false)
    returns (cfg: AgentConfig)
    // `model_id or DEFAULT_MODEL_ID`
    ensures Truthy(modelId) ==> cfg.model.modelId == modelId.value
    ensures !Truthy(modelId) ==> cfg.model.modelId == g.defaultModelId
    ensures g.defaultModelId != "" ==> cfg.model.modelId != ""
    // region only when truthy, and then unchanged
    ensures cfg.model.regionName.Some? <==> Truthy(regionName)
    ensures cfg.model.regionName.Some? ==> cfg.model.regionName == regionName
    // fixed keys
    ensures cfg.tools == g.tools && cfg.systemPrompt == g.systemPrompt && cfg.windowSize == 200
    // history only on request, and then a copy of the seeded transcript
    ensures cfg.messages.Some? <==> loadHistory
    ensures cfg.messages.Some? ==> cfg.messages.value == g.history
    // hooks only when a non-empty list is given, and then that list
    ensures cfg.hooks.Some? <==> HooksGiven(hooks)
    ensures cfg.hooks.Some? ==> cfg.hooks == hooks
    // callback handler unless it is the string "default"
    ensures cfg.callbackHandler.Some? <==> callbackHandler != StrValue("default")
    ensures cfg.callbackHandler.Some? ==> cfg.callbackHandler.value == callbackHandler
  {
    var model := ModelConfig(if Truthy(modelId) then modelId.value else g.defaultModelId, None);
    if Truthy(regionName) {
      model := model.(regionName := regionName);
    }

    cfg := AgentConfig(model, g.tools, g.systemPrompt, WindowSize, None, None, None);
    if loadHistory {
      cfg := cfg.(messages := Some(g.history));
    }
    if HooksGiven(hooks) {
      cfg := cfg.(hooks := hooks);
    }
    if callbackHandler != StrValue("default") {
      cfg := cfg.(callbackHandler := Some(callbackHandler));
    }
  }
}
