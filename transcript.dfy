/**
 * The seeded transcript `MOCK_CONVERSATION_HISTORY`, in the Bedrock
 * Converse message shape: each turn has a role and a list of content blocks,
 * a block being a text, a `toolUse {toolUseId, name, input}` or a
 * `toolResult {toolUseId, content, status}`.
 *
 * The transcript is nine small-talk exchanges, the same nine again, and an
 * account-creation exchange in which the assistant calls `create_account`
 * once and the user turn after it carries the result. The message texts are
 * opaque constants; only the structure is reasoned about.
 */
module Transcript {

  datatype Role = User | Assistant

  datatype ToolStatus = Success | Error

  datatype ContentBlock =
    | Text(text: string)
    | ToolUse(toolUseId: string, name: string, input: map<string, string>)
    | ToolResult(toolUseId: string, content: seq<ContentBlock>, status: ToolStatus)

  datatype Turn = Turn(role: Role, content: seq<ContentBlock>)

  // ---------------------------------------------------------------------------
  // Well-formedness of a history

  /** The role a turn at position `i` must have: user first, then strictly alternating. */
  function ExpectedRole(i: nat): Role
  {
    if i % 2 == 0 then User else Assistant
  }

  predicate RolesAlternate(h: seq<Turn>)
  {
    forall i :: 0 <= i < |h| ==> h[i].role == ExpectedRole(i)
  }

  predicate HasResultFor(blocks: seq<ContentBlock>, id: string, status: ToolStatus)
  {
    exists k :: 0 <= k < |blocks| && blocks[k].ToolResult? && blocks[k].toolUseId == id && blocks[k].status == status
  }

  predicate HasUseFor(blocks: seq<ContentBlock>, id: string)
  {
    exists k :: 0 <= k < |blocks| && blocks[k].ToolUse? && blocks[k].toolUseId == id
  }

  /** Every tool use is answered in the very next turn, a user turn, by a successful result with its id. */
  predicate ToolUsesAnswered(h: seq<Turn>)
  {
    forall i, j :: 0 <= i < |h| && 0 <= j < |h[i].content| && h[i].content[j].ToolUse? ==>
      i + 1 < |h| && h[i + 1].role == User && HasResultFor(h[i + 1].content, h[i].content[j].toolUseId, Success)
  }

  /** Every tool result answers a tool use with the same id in the turn just before it. */
  predicate ToolResultsAnswer(h: seq<Turn>)
  {
    forall i, j :: 0 <= i < |h| && 0 <= j < |h[i].content| && h[i].content[j].ToolResult? ==>
      i >= 1 && HasUseFor(h[i - 1].content, h[i].content[j].toolUseId)
  }

  /** All tool-use blocks of a history, in order. */
  function ToolUses(h: seq<Turn>): seq<ContentBlock>
  {
    if |h| == 0 then [] else ToolUsesIn(h[0].content) + ToolUses(h[1..])
  }

  function ToolUsesIn(blocks: seq<ContentBlock>): seq<ContentBlock>
  {
    if |blocks| == 0 then []
    else (if blocks[0].ToolUse? then [blocks[0]] else []) + ToolUsesIn(blocks[1..])
  }

  predicate TextOnly(h: seq<Turn>)
  {
    forall i, j :: 0 <= i < |h| && 0 <= j < |h[i].content| ==> h[i].content[j].Text?
  }

  // ---------------------------------------------------------------------------
  // The transcript

  /** Alternating user/assistant text turns, one pair per (user text, assistant text). */
  function Dialogue(pairs: seq<(string, string)>): (h: seq<Turn>)
    ensures |h| == 2 * |pairs|
  {
    if |pairs| == 0 then []
    else [Turn(User, [Text(pairs[0].0)]), Turn(Assistant, [Text(pairs[0].1)])] + Dialogue(pairs[1..])
  }

  /** The k-th small-talk exchange: what the user said, then the assistant's reply. */
  function SmallTalkExchange(k: nat): (string, string)
    requires k < 9
  {
    match k
    case 0 => ("Hey how are you?",
      "Hello! I'm doing great, thank you for asking! Welcome to Vino's Italian Restaurant! How can I help you today? Whether you're looking to make a reservation, browse our menu, or have questions about our restaurant, I'm here to assist you. What would you like to do?")
    case 1 => ("Oh cool where are you located?",
      "We're located at 55 Main St. in Smallsville, Kentucky. We're open every day from 11am to 11pm, so plenty of time to stop by for lunch or dinner! Is there anything else you'd like to know, or would you like to make a reservation?")
    case 2 => ("Wow everyday? that's a lot! You never get a day off?",
      "You're right, that is a lot! We work hard to make sure we're here for our customers whenever they want some delicious Italian food - seven days a week! But don't worry, our team rotates shifts so everyone gets their well-deserved breaks and time off. We just love serving great food and don't want anyone to miss out, whether it's a weekday craving or a weekend celebration! Is there anything I can help you with today? Maybe a reservation or checking out our menu?")
    case 3 => ("Who is Vino? Tell me about him",
      "That's a great question! While I don't have the full history and story of Vino in my system, the name \"Vino\" means \"wine\" in Italian, which gives our restaurant that authentic Italian flair. What I can tell you is that Vino's Italian Restaurant is all about bringing delicious Italian cuisine to Smallsville, Kentucky, and we're passionate about serving our community great food every single day! If you'd like to know more about the restaurant's history and the person behind the name, I'd recommend asking our staff when you visit - they'd love to share the story with you over a great meal! Speaking of which, would you like to see our menu or make a reservation to come experience Vino's for yourself?")
    case 4 => ("Super cool, so like where are you located again? Sorry I forgot",
      "No problem at all! We're located at 55 Main St. in Smallsville, Kentucky. Open every day from 11am to 11pm! Feel free to ask if you need anything else!")
    case 5 => ("Oooh smallsville, that's not too far from me. It's like 30 mins away. Do you know if there are any other restaurants like you around?",
      "That's great that we're only about 30 minutes away from you! As for other restaurants in the area, I'm afraid I don't have information about other dining options nearby - I'm specifically here to help with Vino's Italian Restaurant. But hey, I'd love to think we're the best Italian spot around! Since you're relatively close by, would you like to make a reservation to come visit us? Or maybe take a look at our menu to see what we have to offer? I'd be happy to help you plan a visit!")
    case 6 => ("Do you know about snowmen?",
      "Ha! That's a fun question! I do know what snowmen are - those frosty friends we build in winter - but I have to admit, my expertise is really all about Italian food, reservations, and helping you with anything related to Vino's Italian Restaurant! Is there something specific you'd like help with today? Maybe planning a cozy dinner reservation for after a day out in the snow? Or checking out our menu for some warm, comforting Italian dishes?")
    case 7 => ("I have a good friend Jenny she's super cool. She likes italian food and japanese food",
      "Jenny sounds like she has great taste! Italian and Japanese food are both amazing cuisines. Well, I can definitely help with the Italian food part! Vino's has lots of delicious options that Jenny might love. Would you like to see our menu to check out what we offer? Or make a reservation for you and Jenny? Or get information about any dietary options for specific menu items? It could be a fun outing for you two! What do you think?")
    case _ => ("No no just chatting in general. How's the weather been like lately?",
      "I appreciate the chat! Though I have to admit, I'm not really equipped with weather updates - I'm pretty focused on all things Vino's Italian Restaurant! But I'm here whenever you're ready to talk about reservations, our menu, or anything restaurant-related. Whether it's today or down the road, just let me know when you'd like to plan a visit or if you have any questions about Vino's! Is there anything else about the restaurant I can help you with?")
  }

  /** The nine small-talk exchanges that open the transcript (and are then repeated). */
  const SmallTalk: seq<(string, string)> := seq(9, k requires 0 <= k < 9 => SmallTalkExchange(k))

  const AccountRequest := "Yeah actually, can you create an account for me? My name is Michael Man and my email is mikeman@gmail.com"
  const AccountConfirmation := "Your account has been created successfully! Here are your details:\n\n- Name: Michael Man\n- Email: mikeman@gmail.com\n- Account ID: ACC-001\n\nYou're all set! Would you like to make a reservation or check out our menu?"

  const AccountToolUseId := "tooluse_mock0createaccount001"

  const AccountToolUse :=
    ToolUse(AccountToolUseId, "create_account", map["name" := "Michael Man", "email" := "mikeman@gmail.com"])

  /** The recorded tool output, written in the pieces create_account formats. */
  const AccountToolResult :=
    ToolResult(AccountToolUseId,
               [Text("Account created for " + "Michael Man" + " (" + "mikeman@gmail.com" + ") with ID: ACC-001")],
               Success)

  /** The closing exchange: a request, the assistant's create_account call, its result, the confirmation. */
  const AccountExchange: seq<Turn> := [
    Turn(User, [Text(AccountRequest)]),
    Turn(Assistant, [AccountToolUse]),
    Turn(User, [AccountToolResult]),
    Turn(Assistant, [Text(AccountConfirmation)])
  ]

  /** `MOCK_CONVERSATION_HISTORY`: the small talk twice over, then the account exchange. */
  const MockConversationHistory: seq<Turn> := Dialogue(SmallTalk + SmallTalk) + AccountExchange

  // ---------------------------------------------------------------------------
  // Lemmas

  lemma {:induction false} DialogueAlternatesTextOnly(pairs: seq<(string, string)>)
    ensures RolesAlternate(Dialogue(pairs)) && TextOnly(Dialogue(pairs))
  {
    if |pairs| > 0 {
      DialogueAlternatesTextOnly(pairs[1..]);
      var h := Dialogue(pairs);
      var rest := Dialogue(pairs[1..]);
      forall i | 2 <= i < |h| ensures h[i] == rest[i - 2] && ExpectedRole(i) == ExpectedRole(i - 2) {
      }
    }
  }

  lemma {:induction false} TextOnlyHasNoToolBlocks(h: seq<Turn>)
    requires TextOnly(h)
    ensures ToolUses(h) == [] && ToolUsesAnswered(h) && ToolResultsAnswer(h)
  {
    if |h| > 0 {
      TextOnlyHasNoToolBlocks(h[1..]);
      TextBlocksHaveNoToolUse(h[0].content);
    }
  }

  lemma {:induction false} TextBlocksHaveNoToolUse(blocks: seq<ContentBlock>)
    requires forall j :: 0 <= j < |blocks| ==> blocks[j].Text?
    ensures ToolUsesIn(blocks) == []
  {
    if |blocks| > 0 {
      TextBlocksHaveNoToolUse(blocks[1..]);
    }
  }

  lemma {:induction false} ToolUsesAppend(a: seq<Turn>, b: seq<Turn>)
    ensures ToolUses(a + b) == ToolUses(a) + ToolUses(b)
  {
    if |a| == 0 {
      assert a + b == b;
    } else {
      assert (a + b)[1..] == a[1..] + b;
      ToolUsesAppend(a[1..], b);
    }
  }

  /** Shifting a position by an even amount keeps its expected role. */
  lemma ExpectedRoleShift(j: nat, k: nat)
    requires k % 2 == 0
    ensures ExpectedRole(j + k) == ExpectedRole(j)
  {
    var q := k / 2;
    assert k == 2 * q;
    assert (j + 2 * q) % 2 == j % 2;
  }

  /** Appending an even-length alternating history to another keeps the alternation. */
  lemma RolesAlternateAppend(a: seq<Turn>, b: seq<Turn>)
    requires RolesAlternate(a) && RolesAlternate(b) && |a| % 2 == 0
    ensures RolesAlternate(a + b)
  {
    forall i | |a| <= i < |a + b| ensures (a + b)[i].role == ExpectedRole(i) {
      var j := i - |a|;
      assert (a + b)[i] == b[j];
      ExpectedRoleShift(j, |a|);
    }
  }

  /** Pairing holds across a concatenation when it holds on each side: no side ends or starts mid-pair. */
  lemma PairingAppend(a: seq<Turn>, b: seq<Turn>)
    requires ToolUsesAnswered(a) && ToolResultsAnswer(a)
    requires ToolUsesAnswered(b) && ToolResultsAnswer(b)
    ensures ToolUsesAnswered(a + b) && ToolResultsAnswer(a + b)
  {
    var h := a + b;
    forall i, j | 0 <= i < |h| && 0 <= j < |h[i].content| && h[i].content[j].ToolUse?
      ensures i + 1 < |h| && h[i + 1].role == User && HasResultFor(h[i + 1].content, h[i].content[j].toolUseId, Success)
    {
      if i < |a| {
        assert a[i].content[j].ToolUse?;
        assert h[i + 1] == a[i + 1];
      } else {
        assert b[i - |a|].content[j].ToolUse?;
        assert h[i + 1] == b[i + 1 - |a|];
      }
    }
    forall i, j | 0 <= i < |h| && 0 <= j < |h[i].content| && h[i].content[j].ToolResult?
      ensures i >= 1 && HasUseFor(h[i - 1].content, h[i].content[j].toolUseId)
    {
      if i < |a| {
        assert a[i].content[j].ToolResult?;
        assert h[i - 1] == a[i - 1];
      } else {
        assert b[i - |a|].content[j].ToolResult?;
        assert h[i - 1] == b[i - 1 - |a|];
      }
    }
  }

  lemma AccountExchangeWellFormed()
    ensures RolesAlternate(AccountExchange)
    ensures ToolUsesAnswered(AccountExchange) && ToolResultsAnswer(AccountExchange)
    ensures ToolUses(AccountExchange) == [AccountToolUse]
  {
    var e := AccountExchange;
    assert HasResultFor(e[2].content, AccountToolUseId, Success) by {
      assert e[2].content[0] == AccountToolResult;
    }
    assert HasUseFor(e[1].content, AccountToolUseId) by {
      assert e[1].content[0] == AccountToolUse;
    }
    assert ToolUsesIn(e[1].content) == [AccountToolUse];
    assert ToolUses(e[3..]) == [] by {
      assert ToolUsesIn(e[3].content) == [];
      assert e[3..][1..] == [];
    }
    assert ToolUses(e[2..]) == [] by {
      assert ToolUsesIn(e[2].content) == [];
      assert e[2..][1..] == e[3..];
    }
    assert ToolUses(e[1..]) == [AccountToolUse] by {
      assert e[1..][1..] == e[2..];
    }
    assert ToolUsesIn(e[0].content) == [];
  }

  /**
   * The shape the seeded history has: 40 turns alternating user/assistant from
   * a user turn; its only tool use is the create_account call at index 37,
   * answered at index 38 by a user turn carrying a successful result with the
   * same toolUseId; and no result appears without its call.
   */
  predicate SeededShape(h: seq<Turn>)
  {
    && |h| == 40
    && h[0].role == User
    && RolesAlternate(h)
    && ToolUsesAnswered(h) && ToolResultsAnswer(h)
    && ToolUses(h) == [AccountToolUse]
    && h[37] == Turn(Assistant, [AccountToolUse])
    && h[38] == Turn(User, [AccountToolResult])
  }

  /** Any 36 turns of plain alternating chat followed by the account exchange have the seeded shape. */
  lemma ChatThenAccountExchange(talk: seq<Turn>)
    requires |talk| == 36 && RolesAlternate(talk) && TextOnly(talk)
    ensures SeededShape(talk + AccountExchange)
  {
    TextOnlyHasNoToolBlocks(talk);
    AccountExchangeWellFormed();
    RolesAlternateAppend(talk, AccountExchange);
    PairingAppend(talk, AccountExchange);
    ToolUsesAppend(talk, AccountExchange);
    var h := talk + AccountExchange;
    assert h[37] == AccountExchange[1] && h[38] == AccountExchange[2];
  }

  /** `MOCK_CONVERSATION_HISTORY` has the seeded shape. */
  lemma MockHistoryWellFormed()
    ensures SeededShape(MockConversationHistory)
  {
    var pairs := SmallTalk + SmallTalk;
    DialogueAlternatesTextOnly(pairs);
    ChatThenAccountExchange(Dialogue(pairs));
  }
}
