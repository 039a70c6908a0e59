/**
 * prompt_eng_agent.py: the same agent with tool docstrings written for prompt
 * engineering, on the default model "global.anthropic.claude-sonnet-4-5-20250929-v1:0".
 * Its tools, system prompt and seeded history are the shared ones.
 */
module PromptEngAgent {
  import opened Wrappers
  import opened Text
  import opened Transcript
  import opened AgentSetup

  const DefaultModelId: string := "global.anthropic.claude-sonnet-4-5-20250929-v1:0"

  const Globals: ScriptGlobals := ScriptGlobals(DefaultModelId, Tools, SystemPrompt, MockConversationHistory)

  /** create_agent with this script's globals. */
  method CreateAgent(
    modelId: Option<string> := None,
    regionName: Option<string> := None,
    hooks: Option<seq<HookProvider>> := None,
    callbackHandler: CallbackArg := DefaultCallback,
    loadHistory: bool := false)
    returns (cfg: AgentConfig)
    ensures Truthy(modelId) ==> cfg.model.modelId == modelId.value
    ensures !Truthy(modelId) ==> cfg.model.modelId == "global.anthropic.claude-sonnet-4-5-20250929-v1:0"
    ensures cfg.model.regionName.Some? <==> Truthy(regionName)
    ensures cfg.model.regionName.Some? ==> cfg.model.regionName == regionName
    ensures cfg.tools == Tools && cfg.systemPrompt == SystemPrompt && cfg.windowSize == 200
    ensures cfg.messages.Some? <==> loadHistory
    ensures cfg.messages.Some? ==> cfg.messages.value == MockConversationHistory
    ensures cfg.messages.Some? ==> SeededShape(cfg.messages.value)
    ensures cfg.hooks.Some? <==> HooksGiven(hooks)
    ensures cfg.hooks.Some? ==> cfg.hooks == hooks
    ensures cfg.callbackHandler.Some? <==> callbackHandler != StrValue("default")
    ensures cfg.callbackHandler.Some? ==> cfg.callbackHandler.value == callbackHandler
  {
    cfg := AgentSetup.CreateAgent(Globals, modelId, regionName, hooks, callbackHandler, loadHistory);
    MockHistoryWellFormed();
  }
}
