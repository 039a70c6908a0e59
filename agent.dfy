/**
 * agent.py: the restaurant agent on the default model "moonshotai.kimi-k2.5".
 * Its tools, system prompt and seeded history are the shared ones.
 */
module AgentPy {
  import opened Wrappers
  import opened Text
  import opened Transcript
  import opened AgentSetup

  const DefaultModelId: string := "moonshotai.kimi-k2.5"

  const Globals: ScriptGlobals := ScriptGlobals(DefaultModelId, Tools, SystemPrompt, MockConversationHistory)

  /** create_agent with this script's globals. */
  method CreateAgent(
    modelId: Option<string> := None,
    regionName: Option<string> := None,
    hooks: Option<seq<HookProvider>> := None,
    callbackHandler: CallbackArg := DefaultCallback,
    loadHistory: bool := false)
    returns (cfg: AgentConfig)
    ensures Truthy(modelId) ==> cfg.model.modelId == modelId.value
    ensures !Truthy(modelId) ==> cfg.model.modelId == "moonshotai.kimi-k2.5"
    ensures cfg.model.regionName.Some? <==> Truthy(regionName)
    ensures cfg.model.regionName.Some? ==> cfg.model.regionName == regionName
    ensures cfg.tools == Tools && cfg.systemPrompt == SystemPrompt && cfg.windowSize == 200
    ensures cfg.messages.Some? <==> loadHistory
    ensures cfg.messages.Some? ==> cfg.messages.value == MockConversationHistory
    ensures cfg.messages.Some? ==> SeededShape(cfg.messages.value)
    ensures cfg.hooks.Some? <==> HooksGiven(hooks)
    ensures cfg.hooks.Some? ==> cfg.hooks == hooks
    ensures cfg.callbackHandler.Some? <==> callbackHandler != StrValue("default")
    ensures cfg.callbackHandler.Some? ==> cfg.callbackHandler.value == callbackHandler
  {
    cfg := AgentSetup.CreateAgent(Globals, modelId, regionName, hooks, callbackHandler, loadHistory);
    MockHistoryWellFormed();
  }
}
