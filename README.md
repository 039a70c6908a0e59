# Restaurant assistant agent — Dafny model

The repository is a restaurant assistant built on the `strands` agent library.
Two scripts, `agent.py` and `prompt_eng_agent.py`, each define the same nine
tools, a system prompt, a seeded conversation history and a `create_agent`
factory. This project models what those scripts compute themselves:

- **The nine tools** (`tools.dfy`, module `RestaurantTools`). Each is a string
  formatter over its arguments and canned values: account `ACC-001`,
  reservation `RES-101`, three fixed time slots, a five-item menu and its
  dietary table.
  - `update_account` and `search_account` fill a local list and join it. They
    are methods, proved against the case-wise reference `AccountFields`. Python
    truthiness is `Text.Truthy`: `None` and `""` both count as absent.
  - Every other tool is a function.
    - The availability and reservation replies have decoders
      (`ParseAvailability`, `Between`) that recover the arguments.
    - The menu has a splitting lemma (`GetMenuLines`).
    - The dietary lookup has an if-and-only-if for its fallback.
    - The contracts of `CreateAccount` and `CreateBooking` fix the reply's
      prefix, suffix and length, so the reply is determined by the arguments.
- **The seeded transcript** `MOCK_CONVERSATION_HISTORY` (`transcript.dfy`,
  module `Transcript`). It is a value of `Turn`/`ContentBlock`. The model
  proves its shape: 40 turns, roles alternating from the user, one tool use,
  answered at once by a successful result with the same id.
- **`create_agent`'s configuration** (`agent_setup.dfy`, module `AgentSetup`).
  The keyword dictionaries it fills become the `ModelConfig` and `AgentConfig`
  records, and a key the source leaves out is `None`. `CreateAgent` reads the
  script's globals from a `ScriptGlobals` record.
- **The two scripts** (`agent.dfy`, module `AgentPy`; `prompt_eng_agent.dfy`,
  module `PromptEngAgent`). Each fixes its own `DEFAULT_MODEL_ID` and calls
  the shared `CreateAgent`.

The two scripts share everything except the docstrings and `DEFAULT_MODEL_ID`
(`agent.py:153`, `prompt_eng_agent.py:349`). The tool bodies, SYSTEM_PROMPT,
TOOLS, MOCK_CONVERSATION_HISTORY and `create_agent` body are the same in both.
The table cites `agent.py`. The same code sits in `prompt_eng_agent.py`:

- tools at lines 34, 67-72, 107-112, 144, 179, 206, 236, 270-278 and 316-323;
- SYSTEM_PROMPT at 328-341;
- TOOLS at 343-347;
- the history at 352-393;
- `create_agent` at 396-447, its key-by-key assembly at 430-447.

## Model

| member | source | states |
|---|---|---|
| RestaurantTools.CreateAccount | agent.py:9-16 | the reply confirms the given name and email in parentheses and always ends with the fixed id `ACC-001`; its length is the template's plus the two arguments' |
| RestaurantTools.UpdateAccount | agent.py:20-33 | the reply is `Account <id> updated: ` followed by the present fields joined by `, `, as given by `AccountFields` |
| RestaurantTools.SearchAccount | agent.py:37-49 | the reply lists the present criteria as `AccountFields` gives them and always reports the same match `ACC-001 - John Doe (john@example.com)` |
| RestaurantTools.AccountFieldsIgnoreFalsy | agent.py:29-32 | a `None` and an empty-string field contribute the same (nothing); with neither field truthy the list part is empty |
| RestaurantTools.AccountFieldsOrder | agent.py:29-33 | a truthy name gives an entry `name=<name>` at the front, a truthy email gives `email=<email>` at the end, so name always precedes email |
| RestaurantTools.UpdateAccountWithoutFields | agent.py:28-33 | with no truthy field the update reply is exactly `Account <id> updated: ` |
| RestaurantTools.CheckAvailability | agent.py:55-62 | the reply starts with `Available slots on <date> for ` and always ends with the same three slots 12:00 PM, 2:00 PM, 6:30 PM |
| RestaurantTools.DateAndGuestsRoundTrip | agent.py:62 | the date and the decimal guest count are recovered from `<date> for <count>` |
| RestaurantTools.AvailabilityRoundTrip | agent.py:62 | parsing the availability reply gives back the date and guest count it was made from, negative counts included |
| RestaurantTools.CheckAvailabilityInjective | agent.py:62 | equal availability replies come only from equal arguments |
| RestaurantTools.CreateBooking | agent.py:66-74 | the reply names the guest and the decimal guest count after the fixed reservation `RES-101`, ends with the date at 7:00 PM, and its length is the template's plus the three arguments', so nothing else lies between `guests on ` and the date |
| RestaurantTools.CancelReservation | agent.py:78-84 | the reservation id is exactly what lies between `Reservation ` and ` has been cancelled successfully.` |
| RestaurantTools.CheckReservationDetails | agent.py:88-94 | the reservation id is exactly what lies between `Reservation ` and the canned details of John Doe's booking, the same for every id |
| RestaurantTools.ReservationRepliesInjective | agent.py:84-94 | different reservation ids give different cancellation and detail replies |
| RestaurantTools.GetMenu | agent.py:100-110 | the menu text begins with the header line `Restaurant Menu:` and a newline |
| RestaurantTools.GetMenuLines | agent.py:102-110 | splitting the menu text at newlines gives exactly the header and the five item lines `  <id>: <name> - $<price>` in order M001..M005: six parts, no trailing newline |
| RestaurantTools.MenuLinesHaveNoNewline | agent.py:102-109 | no item line contains a newline, so each menu entry is one line |
| RestaurantTools.GetDietaryValuesPerItem | agent.py:114-127 | a known item id gives its table entry; any other id gives `No dietary info found for item <id>`, and the lookup never fails |
| RestaurantTools.DietaryKeysAreMenuIds | agent.py:120-126 | the dietary table has an entry for exactly the five menu ids |
| RestaurantTools.DietaryEntriesNameTheirItem | agent.py:120-126 | each menu item's dietary entry begins with that item's menu name |
| RestaurantTools.DietaryNotFoundIff | agent.py:127 | the reply is the not-found message if and only if the id is not in the table |
| Transcript.DialogueAlternatesTextOnly | agent.py:157-193 | a chat built from user/assistant text pairs alternates roles from the user and holds only text blocks |
| Transcript.AccountExchangeWellFormed | agent.py:193-196 | the closing account exchange alternates roles, its single tool use is answered in the next user turn by a successful result with the same id, and that result follows its use |
| Transcript.ChatThenAccountExchange | agent.py:156-197 | 36 alternating text-only turns followed by the account exchange make a well-formed 40-turn history whose only tool use sits at index 37, answered at index 38 |
| Transcript.MockHistoryWellFormed | agent.py:156-197 | MOCK_CONVERSATION_HISTORY has 40 turns alternating user/assistant from the user; its only tool use (`create_account`) is answered immediately by a `success` result with the same tool-use id |
| AgentSetup.ToolsListEachToolOnce | agent.py:147-151 | TOOLS registers all nine tools, each exactly once |
| AgentSetup.ToolNameInjective | agent.py:147-151 | the nine tool names are distinct, so a call by name selects a single tool |
| AgentSetup.SeededCallMatchesTool | agent.py:194-195 | the seeded tool use calls `create_account` with a name and an email, and the recorded result is exactly what `create_account` returns for them |
| AgentSetup.CreateAgent | agent.py:200-227 | the model id is `model_id` when truthy, else the default; region only when truthy; tools, system prompt and window size 200 always; messages (a copy of the history) exactly when `load_history`; hooks exactly when a non-empty list is given; the callback handler exactly when it is not the string `"default"` |
| AgentPy.CreateAgent | agent.py:153 | with this script's globals the model id is `model_id` when truthy and otherwise falls back to `moonshotai.kimi-k2.5`; the region, the hooks and the callback handler (including `None`) are passed with their given values exactly under their conditions; tools, system prompt and window size 200 are always set; the messages, when loaded, are the well-formed seeded history |
| PromptEngAgent.CreateAgent | prompt_eng_agent.py:349 | with this script's globals the model id is `model_id` when truthy and otherwise falls back to `global.anthropic.claude-sonnet-4-5-20250929-v1:0`; the region, the hooks and the callback handler (including `None`) are passed with their given values exactly under their conditions; tools, system prompt and window size 200 are always set; the messages, when loaded, are the well-formed seeded history |

## Left out

- The `strands` library is not part of this model. This covers the `Agent` and `BedrockModel` constructors, the `SlidingWindowConversationManager` and its pruning, and tool dispatch and validation. The model stops at the configuration `create_agent` passes to them, and defaults the library fills in for missing keys are not modelled.
- The `__main__` chat loop (`argparse`, `input`, `print`) is pure terminal I/O and is not modelled.
- Menu prices are floats formatted by Python's `str`. The model writes them as the literal strings that formatting produces (`"24.99"` and so on), not as reals.
- Behaviour that only the docstrings describe is not modelled. The code behind it returns canned strings. This covers sequential account and reservation numbering, "the existing name is retained", and database lookups.
- SYSTEM_PROMPT and the chat texts of the transcript are reproduced as constants. Nothing is proved about their prose.
- The history passed with `load_history` is `list(MOCK_CONVERSATION_HISTORY)`. That is a shallow copy: the list is fresh, but its 40 turn dictionaries and their content lists are shared with the constant. The model treats the messages as a value equal to the constant. It does not model that sharing, so an in-place edit of a turn, which would also change the constant, is not captured.
- Hook providers and callback handlers are opaque to the scripts. They are represented by an identity number, and a callback argument is either `None`, a string or another object.
- `number_of_guests` is an unbounded integer, and its decimal rendering, minus sign included, is `Text.IntToString`. Python's conversion of an `int` to decimal is capped: by default it raises `ValueError` for more than 4300 digits, and f-strings are subject to the cap. The model renders every integer.
- RestaurantTools.CheckAvailability: does not model the `ValueError` Python raises when `number_of_guests` has more than 4300 decimal digits (|n| >= 10^4300). The model returns a reply for every integer, and `AvailabilityRoundTrip`, `DateAndGuestsRoundTrip` and `CheckAvailabilityInjective` are stated for all integers.
- RestaurantTools.CreateBooking: does not model the `ValueError` Python raises when `number_of_guests` has more than 4300 decimal digits (|n| >= 10^4300). The model returns a reply for every integer.
