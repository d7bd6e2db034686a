/** The laws of the direct Anthropic stream, said of the converter object itself:
    its maps at any time, and its event log once the stream has ended. */
module AnthropicConverter {
  import opened Common
  import opened ChatChunks
  import opened AnthropicProtocol
  import opened AnthropicAssembly
  import opened AnthropicStream
  import opened AnthropicStreamLaws
  import opened AnthropicToolOrder
  import opened AnthropicBatch

  lemma SlotOfRun(v: View, ins: seq<Input>, k: int)
    requires v == InitialView(v.responseId, v.model) && End !in ins
    ensures var a := Run(v, ins).it;
            (k in a.slots <==> k in SeenOf(ins)) &&
            (k in a.slots ==> (a.slots[k].Waiting? <==> FirstNameOf(ins, k) == "") &&
                              (a.slots[k].Waiting? ==> a.slots[k].args == ArgsOf(ins, k)))
  {
    hide Run, Sound, ArgsOf, FirstNameOf, SeenOf, OwnerOf, PaddedOf;
    RunInStep(v, ins);
    var a := Run(v, ins).it;
    if k in a.slots {
      assert SlotTells(a, k, FirstNameOf(ins, k), ArgsOf(ins, k), k in PaddedOf(ins));
    }
  }

  /** Before the end: the pending ids are exactly the tools that were seen and have
      no name yet, the tools announced exactly those that have one, and what is
      buffered for a pending tool is exactly the fragments that came. */
  lemma PendingIsUnnamed(s: StreamState, k: int)
    requires s.Valid() && End !in s.received
    ensures k in s.pendingToolCallID <==> k in SeenOf(s.received) && FirstNameOf(s.received, k) == ""
    ensures k in s.toolAnnounced && s.toolAnnounced[k] <==> k in SeenOf(s.received) && FirstNameOf(s.received, k) != ""
    ensures (if k in s.pendingToolArgs then s.pendingToolArgs[k] else "")
            == if k in s.pendingToolCallID then ArgsOf(s.received, k) else ""
  {
    SlotOfRun(s.origin, s.received, k);
    LookupLink(s.slots, k);
    assert s.slots == Run(s.origin, s.received).it.slots;
    assert MapsOf(s.slots) == ToolMaps(s.toolBlockIndex, s.toolAnnounced, s.pendingToolCallID, s.pendingToolArgs);
  }

  /** Once the stream has ended nothing is pending or buffered any more. */
  lemma NothingPending(s: StreamState, ins: seq<Input>)
    requires s.Valid() && End !in ins && s.received == ins + [End]
    ensures s.pendingToolCallID == map[] && s.pendingToolArgs == map[]
  {
    var a := Run(s.origin, ins + [End]).it;
    assert s.slots == a.slots;
    assert MapsOf(s.slots) == ToolMaps(s.toolBlockIndex, s.toolAnnounced, s.pendingToolCallID, s.pendingToolArgs);
    hide Run, Sound, FirstNameOf, SeenOf, PaddedOf, ArgsOf;
    EndedInStep(s.origin, ins);
    forall k | k in a.slots ensures a.slots[k].Placed? {
      assert Delivered(a, k, FirstNameOf(ins, k), AssembledArgs(ins, k));
    }
  }

  /** Once the stream has ended, the events sent are one message_start, numbered and
      matched blocks, one message_delta and one message_stop. */
  lemma LogBracketed(s: StreamState, ins: seq<Input>)
    requires s.Valid() && End !in ins && s.received == ins + [End]
    ensures var n := |s.log|;
            && n >= 3 && s.log[0].MessageStart? && s.log[n - 2].MessageDelta? && s.log[n - 1].MessageStop?
            && (forall i | 0 < i < n - 2 :: IsBlockEvent(s.log[i]))
            && |Starts(s.log)| == |Stops(s.log)|
            && forall i | 0 <= i < |Starts(s.log)| :: Starts(s.log)[i] == i && Stops(s.log)[i] == i
  {
    hide Run, Replay, Starts, Stops;
    FinishedRunBracketed(s.origin, ins, s.log);
  }

  /** The blocks, the stop reason and the usage that a client takes from the events are
      those of the non-streaming conversion of the message delivered; the blocks,
      exactly when they were opened in order, there is something besides reasoning, and
      the calls match. */
  lemma ClientHoldsMessage(s: StreamState, ins: seq<Input>)
    requires s.Valid() && End !in ins && s.received == ins + [End]
    ensures Replay(s.log).Some? &&
            var c, blocks := Replay(s.log).value, MessageBlocks(MessageFor(ins));
            && (c.blocks == blocks <==> Orderly(KindsOf(ins)) && (TextOf(ins) != "" || SeenOf(ins) != {}) && CallsMatch(ins))
            && c.ending == Some((BatchStopReason(FinishOf(ins), blocks), UsageOf(ins)))
  {
    hide Run, Replay, MessageBlocks, MessageFor, CallsMatch, Orderly, KindsOf, SeenOf;
    StreamRefinesBatch(s.origin, ins);
    EndingRefinesBatch(s.origin, ins);
  }

  /** message_start carries the id and model known once the first chunk header was
      read; the client holds one tool_use block for every tool, in order, each under
      exactly the id it kept unless that has the legacy prefix. */
  lemma ClientHoldsTools(s: StreamState, ins: seq<Input>, i: nat)
    requires s.Valid() && End !in ins && s.received == ins + [End]
    ensures s.log != [] && s.log[0] == MessageStart(ResponseIdIn(UpToHead(ins), s.origin.responseId),
                                                    ModelIn(UpToHead(ins), s.origin.model))
    ensures Replay(s.log).Some? && |ToolBlocks(Replay(s.log).value.blocks)| == |SeenOf(ins)|
    ensures i < |SeenOf(ins)| ==>
              i < |BlockOrder(ins)| &&
              var k, b := BlockOrder(ins)[i], ToolBlocks(Replay(s.log).value.blocks)[i];
              && k in SeenOf(ins) && b.ToolUseBlock?
              && (if Legacy(KeptIdOf(ins, k)) then b.id.Given? && "fc_" + b.id.id == KeptIdOf(ins, k).id
                  else b.id == KeptIdOf(ins, k))
              && b.name == FirstNameOf(ins, k) && b.body == AssembledArgs(ins, k)
  {
    hide Run, Replay, ToolBlocks, BlockOrder, KeptIdOf, AssembledArgs, FirstNameOf, SeenOf, ResponseIdIn, ModelIn, UpToHead;
    MessageAtEnd(s.origin, ins);
    LogBracketed(s, ins);
    MessageTold(s.log);
    EveryToolDelivered(s.origin, ins);
    SameLength(BlockOrder(ins), SeenOf(ins));
    if i < |SeenOf(ins)| {
      assert BlockOrder(ins)[i] in BlockOrder(ins);
      IdsDelivered(s.origin, ins, i, i);
    }
  }
}
