/** The translation to the wire format, after `toChatMessages` in `src/models/openai-compatible-provider.ts`. */
module ChatMessages {
  import opened Basics
  import opened Agent
  import opened Conversation

  /** A call as the wire has it, its arguments printed. */
  datatype Wire = Wire(id: string, name: string, arguments: string)

  datatype Chat =
    | System(text: string)
    | Tool(callId: string, content: string)
    | CallTools(said: Option<string>, calls: seq<Wire>)
    | Say(role: Role, text: string)

  function Results(content: seq<Part>): seq<Part> {
    Filter((p: Part) => p.ToolResult?, content)
  }

  /** All the text of a message, joined. */
  function JoinText(content: seq<Part>): string {
    if content == [] then ""
    else (if content[0].Text? then content[0].text else "") + JoinText(content[1..])
  }

  /** The calls of a message, in order; `json` is how an input is printed. */
  function Wires(json: string -> string, calls: seq<Part>): seq<Wire> {
    if calls == [] then []
    else (if calls[0].ToolCall? then [Wire(calls[0].id, calls[0].name, json(calls[0].input))] else []) + Wires(json, calls[1..])
  }

  function ToolFor(part: Part): seq<Chat> {
    if part.ToolResult? then [Tool(part.callId, part.content)] else []
  }

  function ToolsFor(results: seq<Part>): seq<Chat> {
    if results == [] then [] else ToolFor(results[0]) + ToolsFor(results[1..])
  }

  /** What one message becomes: its results first, then its calls or its text. */
  function One(json: string -> string, m: Message): seq<Chat> {
    var text, calls, results := JoinText(m.content), Calls(m.content), Results(m.content);
    ToolsFor(results) +
    (if calls != [] then [CallTools(if text == "" then None else Some(text), Wires(json, calls))]
     else if text != "" || results == [] then [Say(m.role, text)]
     else [])
  }

  function All(json: string -> string, messages: seq<Message>): seq<Chat> {
    if messages == [] then [] else One(json, messages[0]) + All(json, messages[1..])
  }

  function ToChat(json: string -> string, system: Option<string>, messages: seq<Message>): seq<Chat> {
    (if system.None? then [] else [System(system.value)]) + All(json, messages)
  }

  lemma {:induction false} AllPush(json: string -> string, messages: seq<Message>, i: nat)
    requires i < |messages|
    ensures All(json, messages[..i + 1]) == All(json, messages[..i]) + One(json, messages[i])
  {
    hide One;
    if i == 0 {
      assert messages[..1][1..] == [];
      assert All(json, messages[..1][1..]) == [];
    } else {
      assert messages[..i + 1][1..] == messages[1..][..i];
      assert messages[..i][1..] == messages[1..][..i - 1];
      AllPush(json, messages[1..], i - 1);
    }
  }

  lemma {:induction false} ToolsForAppend(results: seq<Part>, last: Part)
    ensures ToolsFor(results + [last]) == ToolsFor(results) + ToolFor(last)
  {
    hide ToolFor;
    var whole := results + [last];
    if results == [] {
      assert whole[1..] == [];
    } else {
      assert whole[0] == results[0] && whole[1..] == results[1..] + [last];
      ToolsForAppend(results[1..], last);
    }
  }

  lemma {:induction false} ToolsForPush(content: seq<Part>, j: nat)
    requires j < |Results(content)|
    ensures var results := Results(content);
      results[j].ToolResult? && ToolsFor(results[..j + 1]) == ToolsFor(results[..j]) + [Tool(results[j].callId, results[j].content)]
  {
    hide ToolsFor;
    var results := Results(content);
    assert results[j] in results;
    assert results[..j + 1] == results[..j] + [results[j]];
    ToolsForAppend(results[..j], results[j]);
  }

  method ToChatMessages(json: string -> string, system: Option<string>, messages: seq<Message>) returns (chat: seq<Chat>)
    ensures chat == ToChat(json, system, messages)
  {
    hide All, One, ToolsFor, ToolFor, Calls, Results, JoinText, Wires;
    chat := if system.None? then [] else [System(system.value)];
    ghost var start := chat;
    AllNone(json);
    for i := 0 to |messages|
      invariant chat == start + All(json, messages[..i])
    {
      ghost var before := chat;
      chat := PushMessage(json, chat, messages[i]);
      AllPush(json, messages, i);
      assert start + All(json, messages[..i]) + One(json, messages[i]) == start + (All(json, messages[..i]) + One(json, messages[i]));
    }
    assert messages[..|messages|] == messages;
  }

  /** The body of the loop: what one message adds. */
  method PushMessage(json: string -> string, before: seq<Chat>, message: Message) returns (chat: seq<Chat>)
    ensures chat == before + One(json, message)
  {
    hide One, ToolsFor, ToolFor, Calls, Results, JoinText, Wires;
    var text, calls, results := JoinText(message.content), Calls(message.content), Results(message.content);
    chat := before;
    OneIs(json, message);
    NoTools(results);
    for j := 0 to |results|
      invariant chat == before + ToolsFor(results[..j])
    {
      ToolsForPush(message.content, j);
      chat := chat + [Tool(results[j].callId, results[j].content)];
    }
    assert results[..|results|] == results;
    if calls != [] {
      chat := chat + [CallTools(if text == "" then None else Some(text), Wires(json, calls))];
      return;
    }
    if text != "" || results == [] {
      chat := chat + [Say(message.role, text)];
    }
  }

  lemma OneIs(json: string -> string, m: Message)
    ensures var text, calls, results := JoinText(m.content), Calls(m.content), Results(m.content);
      && (calls != [] ==> One(json, m) == ToolsFor(results) + [CallTools(if text == "" then None else Some(text), Wires(json, calls))])
      && (calls == [] && (text != "" || results == []) ==> One(json, m) == ToolsFor(results) + [Say(m.role, text)])
      && (calls == [] && text == "" && results != [] ==> One(json, m) == ToolsFor(results))
  {}

  lemma NoTools(results: seq<Part>)
    ensures ToolsFor(results[..0]) == []
  {}

  lemma AllNone(json: string -> string)
    ensures All(json, []) == []
  {}

  // ---------------------------------------------------------------------------------------------
  // Nothing said, called or answered is lost or made up

  /** The texts of a message one after another, the parts that are no text passed over. */
  ghost predicate IsText(text: string, content: seq<Part>) {
    exists texts: seq<string> :: text == Flatten(texts) && AreTexts(texts, content)
  }

  ghost predicate AreTexts(texts: seq<string>, content: seq<Part>) {
    && |texts| == |content|
    && forall i :: 0 <= i < |content| ==> texts[i] == if content[i].Text? then content[i].text else ""
  }

  ghost predicate AreWires(json: string -> string, wires: seq<Wire>, calls: seq<Part>) {
    && |wires| == |calls|
    && forall i :: 0 <= i < |calls| ==>
        calls[i].ToolCall? && wires[i] == Wire(calls[i].id, calls[i].name, json(calls[i].input))
  }

  ghost predicate AreTools(chat: seq<Chat>, results: seq<Part>) {
    && |results| <= |chat|
    && forall i :: 0 <= i < |results| ==>
        results[i].ToolResult? && chat[i] == Tool(results[i].callId, results[i].content)
  }

  /**
   * What a message becomes: one `tool` message a result, in order, and then, with calls, one message of them all
   * with the text if there is any; with none, the text under the role of the message, which is left out when it is
   * empty and there were results.
   */
  ghost predicate Carries(json: string -> string, chat: seq<Chat>, m: Message, text: string) {
    var results := Filter((p: Part) => p.ToolResult?, m.content);
    var calls := Filter((p: Part) => p.ToolCall?, m.content);
    && IsText(text, m.content) && AreTools(chat, results)
    && if calls != [] then
        && |chat| == |results| + 1 && chat[|results|].CallTools? && AreWires(json, chat[|results|].calls, calls)
        && chat[|results|].said == if text == "" then None else Some(text)
      else if text == "" && results != [] then |chat| == |results|
      else |chat| == |results| + 1 && chat[|results|] == Say(m.role, text)
  }

  lemma {:induction false} JoinTextIs(content: seq<Part>) returns (texts: seq<string>)
    ensures JoinText(content) == Flatten(texts) && AreTexts(texts, content)
  {
    if content == [] {
      texts := [];
    } else {
      var rest := JoinTextIs(content[1..]);
      texts := [if content[0].Text? then content[0].text else ""] + rest;
      assert texts[1..] == rest;
      assert forall i :: 1 <= i < |content| ==> texts[i] == rest[i - 1] && content[i] == content[1..][i - 1];
    }
  }

  lemma {:induction false} ToolsForAre(results: seq<Part>)
    requires forall i :: 0 <= i < |results| ==> results[i].ToolResult?
    ensures |ToolsFor(results)| == |results| && AreTools(ToolsFor(results), results)
  {
    if results != [] {
      ToolsForAre(results[1..]);
      var tools, rest := ToolsFor(results), ToolsFor(results[1..]);
      assert tools == [Tool(results[0].callId, results[0].content)] + rest;
      assert forall i :: 1 <= i < |results| ==> tools[i] == rest[i - 1] && results[i] == results[1..][i - 1];
    }
  }

  lemma OneCarries(json: string -> string, m: Message)
    ensures Carries(json, One(json, m), m, JoinText(m.content))
  {
    hide One, ToolsFor, JoinText, Wires, AreTexts;
    var results, calls := Results(m.content), Calls(m.content);
    OneIs(json, m);
    var texts := JoinTextIs(m.content);
    forall i | 0 <= i < |results| ensures results[i].ToolResult? { assert results[i] in results; }
    forall i | 0 <= i < |calls| ensures calls[i].ToolCall? { assert calls[i] in calls; }
    ToolsForAre(results);
    WiresAre(json, calls);
  }

  /** Message by message, the wire carries the system prompt and then what each message said, called and answered. */
  lemma {:induction false} NothingIsLost(json: string -> string, system: Option<string>, messages: seq<Message>)
      returns (chats: seq<seq<Chat>>, texts: seq<string>)
    ensures |chats| == |texts| == |messages|
    ensures ToChat(json, system, messages) == (if system.None? then [] else [System(system.value)]) + Flatten(chats)
    ensures forall i :: 0 <= i < |messages| ==> Carries(json, chats[i], messages[i], texts[i])
  {
    hide Carries, One, JoinText;
    chats := seq(|messages|, i requires 0 <= i < |messages| => One(json, messages[i]));
    texts := seq(|messages|, i requires 0 <= i < |messages| => JoinText(messages[i].content));
    forall i | 0 <= i < |messages| ensures Carries(json, chats[i], messages[i], texts[i]) {
      OneCarries(json, messages[i]);
    }
    AllJoin(json, messages, chats);
  }

  lemma {:induction false} AllJoin(json: string -> string, messages: seq<Message>, chats: seq<seq<Chat>>)
    requires |chats| == |messages| && forall i :: 0 <= i < |messages| ==> chats[i] == One(json, messages[i])
    ensures All(json, messages) == Flatten(chats)
  {
    hide One;
    if messages != [] {
      AllJoin(json, messages[1..], chats[1..]);
    }
  }

  // ---------------------------------------------------------------------------------------------
  // What the wire format asks for

  /** Every `tool_calls` message is directly followed by one `tool` message per id, and there are no others. */
  predicate Wired(chat: seq<Chat>) {
    if chat == [] then true
    else if chat[0].System? || chat[0].Say? then Wired(chat[1..])
    else
      && chat[0].CallTools? && AnswersCalls(chat[1..], chat[0].calls)
      && Wired(chat[1 + |chat[0].calls|..])
  }

  predicate AnswersCalls(chat: seq<Chat>, calls: seq<Wire>) {
    && |calls| <= |chat|
    && forall i :: 0 <= i < |calls| ==> chat[i].Tool? && chat[i].callId == calls[i].id
  }

  lemma {:induction false} OneSpoken(json: string -> string, m: Message)
    requires Spoken(m)
    ensures One(json, m) == [Say(m.role, JoinText(m.content))]
  {
    FilterNone((p: Part) => p.ToolCall?, m.content);
    FilterNone((p: Part) => p.ToolResult?, m.content);
  }

  /** One wire call for each call, with its id and name. */
  lemma {:induction false} WiresAre(json: string -> string, calls: seq<Part>)
    requires forall i :: 0 <= i < |calls| ==> calls[i].ToolCall?
    ensures |Wires(json, calls)| == |calls|
    ensures forall i :: 0 <= i < |calls| ==> Wires(json, calls)[i] == Wire(calls[i].id, calls[i].name, json(calls[i].input))
  {
    if calls != [] {
      WiresAre(json, calls[1..]);
      var wires, rest := Wires(json, calls), Wires(json, calls[1..]);
      assert wires == [Wire(calls[0].id, calls[0].name, json(calls[0].input))] + rest;
      forall i | 0 <= i < |calls| ensures wires[i] == Wire(calls[i].id, calls[i].name, json(calls[i].input)) {
        if i > 0 { assert wires[i] == rest[i - 1]; }
      }
    }
  }

  lemma {:induction false} OneCalling(json: string -> string, m: Message)
    requires Calling(m)
    ensures |One(json, m)| == 1 && One(json, m)[0].CallTools? && One(json, m)[0].calls == Wires(json, Calls(m.content))
  {
    hide Wires;
    FilterNone((p: Part) => p.ToolResult?, m.content);
  }

  lemma {:induction false} ResultsOnly(content: seq<Part>)
    requires forall i :: 0 <= i < |content| ==> content[i].ToolResult?
    ensures Results(content) == content && Calls(content) == [] && JoinText(content) == ""
    ensures |ToolsFor(content)| == |content|
    ensures forall i :: 0 <= i < |content| ==> ToolsFor(content)[i] == Tool(content[i].callId, content[i].content)
  {
    if content != [] {
      ResultsOnly(content[1..]);
      assert content == [content[0]] + content[1..];
      var tools, rest := ToolsFor(content), ToolsFor(content[1..]);
      assert tools == [Tool(content[0].callId, content[0].content)] + rest;
      forall i | 0 <= i < |content| ensures tools[i] == Tool(content[i].callId, content[i].content) {
        if i > 0 { assert tools[i] == rest[i - 1]; }
      }
    }
  }

  lemma {:induction false} OneAnswering(json: string -> string, m: Message, calls: seq<Part>)
    requires Answers(m, calls) && calls != []
    ensures |One(json, m)| == |Wires(json, calls)| == |calls| && AnswersCalls(One(json, m), Wires(json, calls))
  {
    hide Wires;
    WiresAre(json, calls);
    ResultsOnly(m.content);
  }

  lemma {:induction false} ClosedIsWired(json: string -> string, messages: seq<Message>)
    requires Closed(messages)
    ensures Wired(All(json, messages))
  {
    hide One, Spoken, Calling, Answers, Calls, Wires;
    if messages == [] {
    } else if Spoken(messages[0]) {
      OneSpoken(json, messages[0]);
      ClosedIsWired(json, messages[1..]);
      assert All(json, messages)[1..] == All(json, messages[1..]);
    } else {
      var calls := Calls(messages[0].content);
      OneCalling(json, messages[0]);
      CallingCalls(messages[0]);
      OneAnswering(json, messages[1], calls);
      ClosedIsWired(json, messages[2..]);
      AllTwo(json, messages);
      CallTurnWired(All(json, messages), One(json, messages[0]), One(json, messages[1]), All(json, messages[2..]), Wires(json, calls));
    }
  }

  lemma AllTwo(json: string -> string, messages: seq<Message>)
    requires |messages| >= 2
    ensures All(json, messages) == One(json, messages[0]) + (One(json, messages[1]) + All(json, messages[2..]))
  {
    hide One;
    assert messages[1..][1..] == messages[2..];
  }

  lemma CallingCalls(m: Message)
    requires Calling(m)
    ensures Calls(m.content) != []
  {}

  lemma {:induction false} CallTurnWired(chat: seq<Chat>, turn: seq<Chat>, answers: seq<Chat>, rest: seq<Chat>, calls: seq<Wire>)
    requires chat == turn + (answers + rest)
    requires |turn| == 1 && turn[0].CallTools? && turn[0].calls == calls
    requires |answers| == |calls| && AnswersCalls(answers, calls) && Wired(rest)
    ensures Wired(chat)
  {
    assert chat[1..] == answers + rest;
    assert chat[1 + |calls|..] == rest;
  }

  /**
   * The shape read at a position: a `tool_calls` message is directly followed by one `tool` message per id
   * and no more, and a `tool` message answers a call of the `tool_calls` message it follows.
   */
  ghost predicate WiredAt(chat: seq<Chat>, k: nat) {
    && k < |chat|
    && (chat[k].CallTools? ==>
          var n := |chat[k].calls|;
          && AnswersCalls(chat[k + 1..], chat[k].calls)
          && (k + 1 + n < |chat| ==> !chat[k + 1 + n].Tool?))
    && (chat[k].Tool? ==> exists j :: 0 <= j < k && AnswersAt(chat, j, k))
  }

  ghost predicate AnswersAt(chat: seq<Chat>, j: nat, k: nat)
    requires j < k < |chat|
  {
    && chat[j].CallTools? && k - j <= |chat[j].calls|
    && chat[k].Tool? && chat[j].calls[k - j - 1].id == chat[k].callId
  }

  lemma {:induction false} WiredMeans(chat: seq<Chat>, k: nat)
    requires Wired(chat) && k < |chat|
    ensures WiredAt(chat, k)
    decreases |chat|
  {
    if k == 0 {
      WiredHead(chat);
    } else if chat[0].System? || chat[0].Say? {
      WiredMeans(chat[1..], k - 1);
      WiredShift(chat, 1, k);
    } else if k > |chat[0].calls| {
      WiredMeans(chat[1 + |chat[0].calls|..], k - 1 - |chat[0].calls|);
      WiredShift(chat, 1 + |chat[0].calls|, k);
    } else {
      assert chat[1..][k - 1] == chat[k];
      assert AnswersAt(chat, 0, k);
    }
  }

  lemma {:induction false} WiredHead(chat: seq<Chat>)
    requires Wired(chat) && chat != []
    ensures WiredAt(chat, 0)
  {
    if chat[0].CallTools? && 1 + |chat[0].calls| < |chat| {
      var rest := chat[1 + |chat[0].calls|..];
      assert Wired(rest) && rest[0] == chat[1 + |chat[0].calls|];
    }
  }

  /** A fact about the rest of the messages, read at its place in all of them. */
  lemma WiredShift(chat: seq<Chat>, d: nat, k: nat)
    requires d <= k < |chat| && WiredAt(chat[d..], k - d)
    ensures WiredAt(chat, k)
  {
    var rest := chat[d..];
    assert rest[k - d] == chat[k];
    if chat[k].CallTools? {
      assert rest[k - d + 1..] == chat[k + 1..];
      var n := |chat[k].calls|;
      if k + 1 + n < |chat| { assert rest[k - d + 1 + n] == chat[k + 1 + n]; }
    }
    if chat[k].Tool? {
      var j :| 0 <= j < k - d && AnswersAt(rest, j, k - d);
      assert rest[j] == chat[d + j];
      assert AnswersAt(chat, d + j, k);
    }
  }

  lemma {:induction false} AllIsWired(json: string -> string, system: Option<string>, messages: seq<Message>)
    requires Closed(messages)
    ensures Wired(ToChat(json, system, messages))
  {
    hide Closed;
    ClosedIsWired(json, messages);
    if system.Some? {
      assert ToChat(json, system, messages)[1..] == All(json, messages);
    } else {
      assert ToChat(json, system, messages) == All(json, messages);
    }
  }

  /**
   * Every conversation sent to the model, in any schedule that leaves a paused session to `resume`,
   * translates to a list where each `tool_calls` message is directly followed by exactly one `tool` message
   * per id, and where every `tool` message is one of those.
   */
  lemma {:induction false} SentHistoriesAreWired(json: string -> string, s: Setup, actions: seq<Action>, system: Option<string>, k: nat, i: nat)
    requires ModelSpeaks(s) && Patient(s, NEW, actions)
    requires k < |ExecuteAll(s, NEW, actions).log| && ExecuteAll(s, NEW, actions).log[k].Sent?
    requires i < |ToChat(json, system, ExecuteAll(s, NEW, actions).log[k].history)|
    ensures WiredAt(ToChat(json, system, ExecuteAll(s, NEW, actions).log[k].history), i)
  {
    hide ExecuteAll, Closed, ToChat, Wired, WiredAt;
    assert ShapeOk(NEW);
    ScheduleShape(s, NEW, actions);
    var history := ExecuteAll(s, NEW, actions).log[k].history;
    AllIsWired(json, system, history);
    WiredMeans(ToChat(json, system, history), i);
  }
}
