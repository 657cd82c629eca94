/**
  Which stored messages are replayed to the model (_messages_to_history in
  backend/src/doda/application/conversation_service.py).
*/
module History {
  import opened Wrappers

  datatype MessageRole = User | Assistant | Tool

  datatype Message = Message(id: string, role: MessageRole, content: string, toolCallId: Option<string>,
                             toolName: Option<string>, toolArguments: Option<string>)

  datatype ToolCall = ToolCall(callId: string, name: string, arguments: string)

  datatype ChatTurn = ChatTurn(role: MessageRole, content: string, toolCallId: Option<string>, toolCalls: seq<ToolCall>)

  // Python's `value or default` on an optional string.
  function OrElse(o: Option<string>, default: string): string {
    match o
    case None => default
    case Some(s) => if s == "" then default else s
  }

  function Cost(m: Message): nat { |m.content| + |OrElse(m.toolArguments, "")| }

  function TurnOf(m: Message): ChatTurn {
    if m.role.Tool? then ChatTurn(Tool, m.content, m.toolCallId, [])
    else if m.role.Assistant? && m.toolName.Some? then
      ChatTurn(Assistant, "", None,
               [ToolCall(OrElse(m.toolCallId, m.id), m.toolName.value, OrElse(m.toolArguments, "{}"))])
    else ChatTurn(if m.role.User? then User else Assistant, m.content, None, [])
  }

  // What is replayed of a message: its role; a tool result with its content and id; a tool call with its
  // name, and with its arguments and id where they were stored; any other message with its content.
  lemma ReplaysMessage(m: Message)
    ensures var turn := TurnOf(m);
      && turn.role == m.role
      && (turn.toolCalls != [] <==> m.role == Assistant && m.toolName.Some?)
      && (turn.toolCalls == [] ==> turn.content == m.content)
      && (turn.toolCalls != [] ==>
            && |turn.toolCalls| == 1 && turn.content == "" && turn.toolCalls[0].name == m.toolName.value
            && (m.toolArguments.Some? && m.toolArguments.value != "" ==> turn.toolCalls[0].arguments == m.toolArguments.value)
            && (m.toolArguments.None? || m.toolArguments.value == "" ==> turn.toolCalls[0].arguments == "{}")
            && (m.toolCallId.Some? && m.toolCallId.value != "" ==> turn.toolCalls[0].callId == m.toolCallId.value)
            && (m.toolCallId.None? || m.toolCallId.value == "" ==> turn.toolCalls[0].callId == m.id))
      && turn.toolCallId == (if m.role == Tool then m.toolCallId else None)
  {
  }

  // So a stored result is replayed under the id of the stored call it answers.
  lemma ResultAnswersCall(call: Message, result: Message)
    requires call.role == Assistant && call.toolName.Some? && result.role == Tool
    requires call.toolCallId.Some? && call.toolCallId.value != "" && result.toolCallId == call.toolCallId
    ensures |TurnOf(call).toolCalls| == 1 && TurnOf(result).toolCallId == Some(TurnOf(call).toolCalls[0].callId)
  {
    ReplaysMessage(call);
    ReplaysMessage(result);
  }

  function TotalCost(messages: seq<Message>): nat {
    if messages == [] then 0 else Cost(messages[0]) + TotalCost(messages[1..])
  }

  // All the text there is to count.
  function TextOf(messages: seq<Message>): string {
    if messages == [] then ""
    else TextOf(messages[..|messages| - 1]) + messages[|messages| - 1].content
         + (if messages[|messages| - 1].toolArguments.Some? then messages[|messages| - 1].toolArguments.value else "")
  }

  lemma {:induction false} CostSnoc(messages: seq<Message>)
    requires messages != []
    ensures TotalCost(messages) == TotalCost(messages[..|messages| - 1]) + Cost(messages[|messages| - 1])
  {
    if |messages| > 1 {
      CostSnoc(messages[1..]);
      assert messages[1..][..|messages| - 2] == messages[..|messages| - 1][1..];
    }
  }

  // The budget counts characters of content and of stored arguments.
  lemma {:induction false} CostIsLength(messages: seq<Message>)
    ensures TotalCost(messages) == |TextOf(messages)|
  {
    if messages != [] {
      CostSnoc(messages);
      CostIsLength(messages[..|messages| - 1]);
    }
  }

  // messages[start..] is the longest suffix that fits the budget, or just the last message if not even
  // that one fits.
  ghost predicate LongestFitting(messages: seq<Message>, maxChars: int, start: nat) {
    && start <= |messages|
    && (start == |messages| ==> messages == [])
    && (TotalCost(messages[start..]) <= maxChars || start == |messages| - 1 || messages == [])
    && forall shorter :: 0 <= shorter < start ==> TotalCost(messages[shorter..]) > maxChars
  }

  // At most one start is right, so the predicate says which history is replayed.
  lemma LongestFittingUnique(messages: seq<Message>, maxChars: int, a: nat, b: nat)
    requires LongestFitting(messages, maxChars, a) && LongestFitting(messages, maxChars, b)
    ensures a == b
  {
    if a < b { LongerCostsMore(messages, a, b); }
    if b < a { LongerCostsMore(messages, b, a); }
  }

  // A longer suffix costs at least as much.
  lemma {:induction false} LongerCostsMore(messages: seq<Message>, i: nat, j: nat)
    requires i <= j <= |messages|
    ensures TotalCost(messages[j..]) <= TotalCost(messages[i..])
    decreases j - i
  {
    if i < j {
      SuffixCost(messages, i);
      LongerCostsMore(messages, i + 1, j);
    }
  }

  lemma SuffixCost(messages: seq<Message>, i: nat)
    requires i < |messages|
    ensures TotalCost(messages[i..]) == Cost(messages[i]) + TotalCost(messages[i + 1..])
  {
    assert messages[i..][1..] == messages[i + 1..];
  }

  lemma NoneLongerFits(messages: seq<Message>, maxChars: int, start: nat)
    requires 0 < start <= |messages| && TotalCost(messages[start - 1..]) > maxChars
    ensures forall shorter :: 0 <= shorter < start ==> TotalCost(messages[shorter..]) > maxChars
  {
    forall shorter | 0 <= shorter < start
      ensures TotalCost(messages[shorter..]) > maxChars
    {
      LongerCostsMore(messages, shorter, start - 1);
    }
  }

  // The first loop of _messages_to_history, newest message first.
  method SelectRecent(messages: seq<Message>, maxChars: int) returns (start: nat)
    ensures LongestFitting(messages, maxChars, start)
  {
    start := |messages|;  // messages[start..] is what has been selected
    var totalChars := 0;
    while start > 0
      invariant start <= |messages|
      invariant totalChars == TotalCost(messages[start..])
      invariant start < |messages| - 1 ==> totalChars <= maxChars
      decreases start
    {
      var cost := Cost(messages[start - 1]);
      SuffixCost(messages, start - 1);
      if start < |messages| && totalChars + cost > maxChars {
        NoneLongerFits(messages, maxChars, start);
        return;
      }
      totalChars := totalChars + cost;
      start := start - 1;
    }
  }

  // One turn per message of the longest suffix that fits, in order; empty only for no messages at all.
  method MessagesToHistory(messages: seq<Message>, maxChars: int) returns (turns: seq<ChatTurn>)
    ensures |turns| <= |messages|
    ensures LongestFitting(messages, maxChars, |messages| - |turns|)
    ensures forall i :: 0 <= i < |turns| ==> turns[i] == TurnOf(messages[|messages| - |turns| + i])
    ensures messages != [] ==> turns != []
  {
    var start := SelectRecent(messages, maxChars);
    turns := [];
    for i := start to |messages|
      invariant |turns| == i - start
      invariant forall j :: 0 <= j < |turns| ==> turns[j] == TurnOf(messages[start + j])
    {
      turns := turns + [TurnOf(messages[i])];
    }
  }
}
