/**
  What the messages of a turn hold, told of the gateway's events: the text of a call, the tools it asks
  for, and what is saved of them.
*/
module TurnMessages {
  import opened Wrappers
  import opened Pricing
  import opened ChatTurn

  // ---------- The text of a call ----------

  predicate NoStructured(events: seq<GatewayEvent>) { forall i :: 0 <= i < |events| ==> !events[i].StructuredOutput? }

  lemma {:induction false} TextIsSpoken(events: seq<GatewayEvent>)
    requires NoStructured(events)
    ensures TextLeft(events) == SpokenBy(events)
  {
    if events != [] { TextIsSpoken(events[..|events| - 1]); }
  }

  // Structured output takes the place of whatever was streamed before it; what is streamed after it is
  // added.
  lemma {:induction false} StructuredReplaces(before: seq<GatewayEvent>, json: JsonText, after: seq<GatewayEvent>)
    requires NoStructured(after)
    ensures TextLeft(before + [StructuredOutput(json)] + after) == json + SpokenBy(after)
  {
    var events := before + [StructuredOutput(json)] + after;
    if after == [] {
      assert events[..|events| - 1] == before;
    } else {
      var last := |after| - 1;
      StructuredReplaces(before, json, after[..last]);
      assert events[..|events| - 1] == before + [StructuredOutput(json)] + after[..last];
    }
  }

  // ---------- The tools a call asks for ----------

  lemma {:induction false} ToolsConcat(a: seq<GatewayEvent>, b: seq<GatewayEvent>)
    ensures ToolsIn(a + b) == ToolsIn(a) + ToolsIn(b)
  {
    if b == [] {
      assert a + b == a;
    } else {
      ToolsConcat(a, b[..|b| - 1]);
      assert (a + b)[..|a + b| - 1] == a + b[..|b| - 1];
    }
  }

  // Every tool call that is ready is asked for, in order, and nothing else.
  lemma ToolsAround(before: seq<GatewayEvent>, e: GatewayEvent, after: seq<GatewayEvent>)
    ensures ToolsIn(before + [e] + after) ==
        ToolsIn(before) + (if e.ToolCallReady? then [e.call] else []) + ToolsIn(after)
  {
    assert [e][..0] == [];
    ToolsConcat(before, [e]);
    ToolsConcat(before + [e], after);
  }

  // The write call that is proposed is the first one.
  lemma {:induction false} FirstWriteIff(calls: seq<ToolCall>, c: ToolCall)
    ensures FirstWrite(calls) == Some(c) <==>
        exists i :: 0 <= i < |calls| && calls[i] == c && IsWriteTool(c.name) && forall j :: 0 <= j < i ==> !IsWriteTool(calls[j].name)
    ensures FirstWrite(calls).None? <==> forall i :: 0 <= i < |calls| ==> !IsWriteTool(calls[i].name)
  {
    if calls != [] {
      FirstWriteIff(calls[1..], c);
      assert calls == [calls[0]] + calls[1..];
    }
  }

  // ---------- What is saved ----------

  // One message per call asked for, with the text of the call, in order.
  lemma {:induction false} AskedAt(p: Provider, text: string, calls: seq<ToolCall>)
    ensures |AskedMessages(p, text, calls)| == |calls|
    ensures forall i :: 0 <= i < |calls| ==>
        AskedMessages(p, text, calls)[i] == Saved(ToolCallMessage, Some(p), Words(text), calls[i].callId)
  {
    if calls != [] { AskedAt(p, text, calls[..|calls| - 1]); }
  }

  lemma {:induction false} ResultsConcat(t: Turn, a: seq<ToolCall>, b: seq<ToolCall>)
    ensures ResultMessages(t, a + b) == ResultMessages(t, a) + ResultMessages(t, b)
  {
    if b == [] {
      assert a + b == a;
    } else {
      ResultsConcat(t, a, b[..|b| - 1]);
      assert (a + b)[..|a + b| - 1] == a + b[..|b| - 1];
    }
  }

  // One result per read tool, with what the tool said, under the call's id, in order.
  lemma ResultsAround(t: Turn, before: seq<ToolCall>, c: ToolCall, after: seq<ToolCall>)
    ensures ResultMessages(t, before + [c] + after) ==
        ResultMessages(t, before)
        + (if IsReadTool(c.name) then [Saved(ToolResult, None, Words(t.readTool(c)), c.callId)] else [])
        + ResultMessages(t, after)
  {
    assert [c][..0] == [];
    ResultsConcat(t, before, [c]);
    ResultsConcat(t, before + [c], after);
  }

  // What the last message of a turn that ended normally says.
  function FinalContent(t: Turn, n: nat): Content {
    if n <= FirstCall(t) || GoesOn(t, n - 1) then RoundsUsedUp
    else
      var events := t.gateway(n - 1).events;
      var write := FirstWrite(ToolsIn(events));
      if write.Some? && t.proposal(write.value).Some? then ProposalNotice(write.value.name, t.proposal(write.value).value)
      else Words(TextLeft(events))
  }

  lemma LastOfConversation(t: Turn, p: Provider, from: nat, v: Watched)
    requires WasAnswered(t, p, from, v) && from == FirstCall(t)
    ensures v.saved != [] && v.saved[|v.saved| - 1] == Saved(FinalMessage, Some(p), FinalContent(t, v.calls), "")
  {
    if v.calls > from && !GoesOn(t, v.calls - 1) {
      assert Closing(t, p, v.calls - 1) != [];
    }
  }

  // It is the only final message, by the provider the turn ended with: the text of the last call, or the
  // notice of the action that was proposed, or that the rounds were used up.
  lemma AnswerSays(t: Turn, w: Watched, o: Outcome)
    requires TurnDone(t, w, o) && IsNormal(o)
    ensures w.finals == 1 && w.saved != []
    ensures w.saved[|w.saved| - 1] == Saved(FinalMessage, Some(LastChoice(t).0), FinalContent(t, w.calls), "")
  {
    var v := BeforeDone(w);
    assert WasAnswered(t, LastChoice(t).0, FirstCall(t), v);
    LastOfConversation(t, LastChoice(t).0, FirstCall(t), v);
  }
}
