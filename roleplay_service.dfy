/** The roleplay prompt engine: the persona's system prompt, the role-tagged message list sent to
    the chat-completion model for one turn, and the transcript sent for coaching feedback.
    The chat-completion service is an oracle passed in as a function. */
module RoleplayService {
  import opened Js
  import opened Text

  /** How many history messages one turn sends at most. */
  const MaxHistoryMessages := 40

  datatype Persona = Persona(name: string, roleTitle: string, systemPrompt: string)

  datatype Script = Script(productName: string, industry: string, companySize: string, targetLocation: string)

  /** A chat message; history roles are copied through as they are. */
  datatype Message = Message(role: string, content: string)

  // ---------------------------------------------------------------------------------------------
  // The system prompt

  /** The literal text of the system-prompt template, around the interpolated values. */
  const SystemPromptQuasis: seq<string> := [
    "You are roleplaying as ", ", a ", ".\n\nPERSONALITY:\n",
    "\n\nSCENARIO CONTEXT:\nThe caller is a Sales Development Representative (SDR) from ",
    ".\nThey are cold-calling you. The product targets the ", " industry\nfor ",
    "-sized companies in ",
    ".\n\nBEHAVIORAL RULES:\n"
    + "1. Stay fully in character at ALL times. Never break character.\n"
    + "2. React naturally to what the SDR says.\n"
    + "3. You have a busy schedule. You did NOT expect this call.\n"
    + "4. Introduce realistic objections based on your persona.\n"
    + "5. Keep responses concise (1-4 sentences, like a real phone call).\n"
    + "6. Do NOT volunteer information the SDR hasn't asked about.\n"
    + "7. If the SDR handles objections well, gradually become more receptive.\n"
    + "8. If the SDR is pushy or robotic, become more resistant.\n"
    + "9. Ask clarifying questions a real ",
    " would ask.\n10. Never reference that this is a roleplay or simulation."]

  /** The values interpolated into the template, in order. */
  function SystemPromptValues(persona: Persona, script: Script): seq<string> {
    [ persona.name, persona.roleTitle, persona.systemPrompt, script.productName,
      script.industry, script.companySize, script.targetLocation, persona.roleTitle ]
  }

  /** `buildSystemPrompt(persona, script)`: the template literal. */
  function BuildSystemPrompt(persona: Persona, script: Script): string {
    Interpolate(SystemPromptQuasis, SystemPromptValues(persona, script))
  }

  /** The system prompt carries the persona's name, its role title twice (the identity line and
      rule 9), its personality prompt verbatim, and the four scenario fields of the script. */
  lemma SystemPromptMentions(persona: Persona, script: Script)
    ensures var prompt := BuildSystemPrompt(persona, script);
      && Contains(prompt, persona.name)
      && OccursTwice(prompt, persona.roleTitle)
      && Contains(prompt, persona.systemPrompt)
      && Contains(prompt, script.productName)
      && Contains(prompt, script.industry)
      && Contains(prompt, script.companySize)
      && Contains(prompt, script.targetLocation)
  {
    var q, v := SystemPromptQuasis, SystemPromptValues(persona, script);
    assert |q| == |v| + 1;
    InterpolateContains(q, v);
    InterpolateTwice(q, v, 1, 7);
    var prompt := Interpolate(q, v);
    assert Contains(prompt, v[0]) && Contains(prompt, v[2]) && Contains(prompt, v[3]);
    assert Contains(prompt, v[4]) && Contains(prompt, v[5]) && Contains(prompt, v[6]);
  }

  /** The values sit in the prompt in template order, each after the end of the one before. */
  lemma SystemPromptOrder(persona: Persona, script: Script, i: nat, j: nat)
    requires i < j < |SystemPromptValues(persona, script)|
    ensures var q, v := SystemPromptQuasis, SystemPromptValues(persona, script);
      && Occurs(BuildSystemPrompt(persona, script), v[i], InterpolateOffset(q, v, i))
      && Occurs(BuildSystemPrompt(persona, script), v[j], InterpolateOffset(q, v, j))
      && InterpolateOffset(q, v, i) + |v[i]| <= InterpolateOffset(q, v, j)
  {
    var q, v := SystemPromptQuasis, SystemPromptValues(persona, script);
    assert |q| == |v| + 1;
    InterpolateOccurs(q, v, i);
    InterpolateOccurs(q, v, j);
    InterpolateOrdered(q, v, i, j);
  }

  // ---------------------------------------------------------------------------------------------
  // The message list of one turn

  function Min(a: int, b: int): int { if a <= b then a else b }

  /** `history.length > MAX_HISTORY_MESSAGES ? history.slice(-MAX_HISTORY_MESSAGES) : history`:
      the last `min(|history|, 40)` messages. */
  function HistoryWindow(history: seq<Message>): (w: seq<Message>)
    ensures |w| == Min(|history|, MaxHistoryMessages)
    ensures w == history[|history| - |w|..]
  {
    if |history| > MaxHistoryMessages then history[|history| - MaxHistoryMessages..] else history
  }

  /** The message list one turn sends: the system prompt, the history window, the new message. */
  function ChatMessages(persona: Persona, script: Script, history: seq<Message>, userMessage: string): seq<Message> {
    [Message("system", BuildSystemPrompt(persona, script))] + HistoryWindow(history) + [Message("user", userMessage)]
  }

  /** The message assembly of `getAiResponse`. */
  method AssembleMessages(persona: Persona, script: Script, history: seq<Message>, userMessage: string)
    returns (messages: seq<Message>)
    ensures messages == ChatMessages(persona, script, history, userMessage)
    ensures |messages| == 2 + Min(|history|, MaxHistoryMessages)
    ensures messages[0] == Message("system", BuildSystemPrompt(persona, script))
    ensures messages[|messages| - 1] == Message("user", userMessage)
    ensures forall k | 1 <= k < |messages| - 1 :: messages[k] == history[|history| - (|messages| - 2) + (k - 1)]
  {
    var systemPrompt := BuildSystemPrompt(persona, script);
    messages := [Message("system", systemPrompt)];
    var historyToUse := HistoryWindow(history);
    var i := 0;
    while i < |historyToUse|
      invariant 0 <= i <= |historyToUse|
      invariant messages == [Message("system", systemPrompt)] + historyToUse[..i]
    {
      messages := messages + [Message(historyToUse[i].role, historyToUse[i].content)];
      i := i + 1;
    }
    assert historyToUse[..i] == historyToUse;
    messages := messages + [Message("user", userMessage)];
  }

  /** A message list that starts with the system prompt and ends with the new message, with only the
      history window between them, is the one `AssembleMessages` builds: assembly depends on its
      four inputs alone. */
  lemma ChatMessagesUnique(persona: Persona, script: Script, history: seq<Message>, userMessage: string, m: seq<Message>)
    requires |m| == 2 + Min(|history|, MaxHistoryMessages)
    requires m[0] == Message("system", BuildSystemPrompt(persona, script))
    requires m[|m| - 1] == Message("user", userMessage)
    requires forall k | 1 <= k < |m| - 1 :: m[k] == history[|history| - (|m| - 2) + (k - 1)]
    ensures m == ChatMessages(persona, script, history, userMessage)
  {
    var c := ChatMessages(persona, script, history, userMessage);
    var w := HistoryWindow(history);
    assert |c| == |m|;
    forall k | 0 <= k < |m| ensures m[k] == c[k] {
      if 0 < k < |m| - 1 {
        assert c[k] == w[k - 1];
        assert w[k - 1] == history[|history| - |w| + k - 1];
      }
    }
  }

  /** The window keeps everything up to 40 messages, and otherwise exactly the last 40. */
  lemma HistoryWindowCases(history: seq<Message>)
    ensures |history| <= MaxHistoryMessages ==> HistoryWindow(history) == history
    ensures |history| > MaxHistoryMessages ==>
      |HistoryWindow(history)| == MaxHistoryMessages && history == history[..|history| - MaxHistoryMessages] + HistoryWindow(history)
  {
  }

  // ---------------------------------------------------------------------------------------------
  // The chat-completion service and its reply

  /** What is sent: the model name, the messages and the token cap (sampling parameters, which
      are floating-point numbers, are not modelled). */
  datatype Request = Request(model: string, messages: seq<Message>, maxTokens: int)

  /** `choices[i].message.content`, which the service may give as `null`. */
  datatype Choice = Choice(content: Option<string>)

  /** The awaited call: it rejects with an error message, or resolves to a list of choices. */
  datatype Completion = CallFailed(message: string) | Completed(choices: seq<Choice>)

  type CompletionApi = Request -> Completion

  /** `response.choices[0].message.content || ""`, after awaiting the call. */
  function ReplyText(c: Completion): (r: Result<string, JsError>)
    ensures c.CallFailed? ==> r == Err(Thrown(c.message))
    ensures c.Completed? && |c.choices| == 0 ==> r == Err(ReadOfNullish(Undefined, "message"))
    ensures c.Completed? && |c.choices| > 0 ==> r.Ok?
    ensures c.Completed? && |c.choices| > 0 ==>
      (r == Ok("") <==> c.choices[0].content == None || c.choices[0].content == Some(""))
    ensures r.Ok? && r.value != "" ==> c.Completed? && c.choices[0].content == Some(r.value)
  {
    match c
    case CallFailed(message) => Err(Thrown(message))
    case Completed(choices) =>
      if |choices| == 0 then Err(ReadOfNullish(Undefined, "message"))
      else
        var content := choices[0].content;
        Ok(if content.Some? && content.value != "" then content.value else "")
  }

  /** `getAiResponse`: one turn's reply. */
  method GetAiResponse(persona: Persona, script: Script, history: seq<Message>, userMessage: string, api: CompletionApi)
    returns (r: Result<string, JsError>)
    ensures r == ReplyText(api(Request("gpt-4o", ChatMessages(persona, script, history, userMessage), 300)))
  {
    var messages := AssembleMessages(persona, script, history, userMessage);
    var response := api(Request("gpt-4o", messages, 300));
    r := ReplyText(response);
  }

  // ---------------------------------------------------------------------------------------------
  // Coaching feedback

  /** One transcript line: the SDR is the user, everyone else is the prospect. */
  function TranscriptLine(m: Message): string {
    (if m.role == "user" then "SDR" else "Prospect") + ": " + m.content
  }

  function TranscriptLines(messages: seq<Message>): (r: seq<string>)
    ensures |r| == |messages|
    ensures forall k | 0 <= k < |r| :: r[k] == TranscriptLine(messages[k])
  {
    seq(|messages|, k requires 0 <= k < |messages| => TranscriptLine(messages[k]))
  }

  /** `conversationText`: the lines joined by newlines. */
  function Transcript(messages: seq<Message>): string {
    Join(TranscriptLines(messages), "\n")
  }

  /** A transcript grows by one line per message, at its end. */
  lemma TranscriptAppend(messages: seq<Message>, m: Message)
    requires |messages| > 0
    ensures Transcript(messages + [m]) == Transcript(messages) + "\n" + TranscriptLine(m)
  {
    assert TranscriptLines(messages + [m]) == TranscriptLines(messages) + [TranscriptLine(m)];
    JoinAppend(TranscriptLines(messages), TranscriptLine(m), "\n");
  }

  /** A line starts with `SDR: ` exactly when it is the user's, and then gives the content. */
  lemma TranscriptLineSpeaker(m: Message)
    ensures StartsWith(TranscriptLine(m), "SDR: ") <==> m.role == "user"
    ensures m.role == "user" ==> TranscriptLine(m) == "SDR: " + m.content
    ensures m.role != "user" ==> TranscriptLine(m) == "Prospect: " + m.content
  {
    if m.role != "user" {
      assert TranscriptLine(m)[0] == 'P';
    } else {
      assert TranscriptLine(m)[..5] == "SDR: ";
    }
  }

  /** When no message contains a newline, the transcript splits back into its lines, one per
      message and in order. */
  lemma TranscriptSplits(messages: seq<Message>)
    requires |messages| > 0
    requires forall i | 0 <= i < |messages| :: '\n' !in messages[i].content
    ensures SplitOn(Transcript(messages), '\n') == TranscriptLines(messages)
  {
    var lines := TranscriptLines(messages);
    forall i | 0 <= i < |lines| ensures '\n' !in lines[i] {
      var m := messages[i];
      assert lines[i] == (if m.role == "user" then "SDR" else "Prospect") + ": " + m.content;
    }
    SplitJoin(lines, '\n');
  }

  /** Decoding the feedback transcript: line `k` tells who spoke and what was said. */
  lemma TranscriptDecodes(messages: seq<Message>, k: nat)
    requires forall i | 0 <= i < |messages| :: '\n' !in messages[i].content
    requires k < |messages|
    ensures |SplitOn(Transcript(messages), '\n')| == |messages|
    ensures var line := SplitOn(Transcript(messages), '\n')[k];
      && (StartsWith(line, "SDR: ") <==> messages[k].role == "user")
      && (messages[k].role == "user" ==> line == "SDR: " + messages[k].content)
      && (messages[k].role != "user" ==> line == "Prospect: " + messages[k].content)
  {
    TranscriptSplits(messages);
    TranscriptLineSpeaker(messages[k]);
  }

  const CoachingInstruction: string :=
    "You are a sales coaching expert. Analyze this SDR cold call practice "
    + "session and provide brief, actionable feedback in 3-5 bullet points "
    + "covering: opening effectiveness, objection handling, discovery questions, "
    + "and overall impression. Be specific and constructive."

  /** The feedback request: the coaching instruction, then the whole transcript as one user message. */
  function FeedbackRequest(messages: seq<Message>): Request {
    Request("gpt-4o", [Message("system", CoachingInstruction), Message("user", Transcript(messages))], 500)
  }

  /** `getSessionFeedback`. */
  function GetSessionFeedback(messages: seq<Message>, api: CompletionApi): (r: Result<string, JsError>)
    ensures var c := api(FeedbackRequest(messages));
      && (c.CallFailed? ==> r == Err(Thrown(c.message)))
      && (c.Completed? && |c.choices| > 0 ==> r.Ok?)
      && (c.Completed? && |c.choices| > 0 && (c.choices[0].content == None || c.choices[0].content == Some("")) ==> r == Ok(""))
      && (c.Completed? && |c.choices| > 0 && c.choices[0].content.Some? && c.choices[0].content.value != "" ==>
            r == Ok(c.choices[0].content.value))
      && (c.Completed? && |c.choices| == 0 ==> r == Err(ReadOfNullish(Undefined, "message")))
  {
    ReplyText(api(FeedbackRequest(messages)))
  }
}
