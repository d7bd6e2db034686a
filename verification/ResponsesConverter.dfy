/** The laws of the Responses stream, said of the converter object itself: its event
    log once the stream has ended. */
module ResponsesConverter {
  import opened Common
  import opened ChatChunks
  import opened ResponsesProtocol
  import opened ResponsesAssembly
  import opened ResponsesLaws
  import opened ResponsesFit
  import opened ResponsesEnding
  import opened ResponsesCalls
  import opened ResponsesBatch
  import opened ResponsesStream

  /** The events sent are numbered 0, 1, 2, ...; the first and only the first is
      response.created, the last and only the last the terminal one. */
  lemma LogNumbered(s: StreamState, ins: seq<Input>)
    requires s.Valid() && End !in ins && s.received == ins + [End]
    ensures forall i | 0 <= i < |s.log| :: s.log[i].seqNo == i
    ensures forall i | 0 <= i < |s.log| :: s.log[i].body.Created? <==> i == 0
    ensures forall i | 0 <= i < |s.log| :: s.log[i].body.Completed? <==> i == |s.log| - 1
  {
    hide Run, Replay;
    WholeStream(s.log, s.origin, s.cfg, ins, 0);
  }

  /** Every item that was added is done once, later and under the same id and type,
      when the upstream numbers its calls without gaps. */
  lemma ItemsMatched(s: StreamState, ins: seq<Input>, index: nat)
    requires s.Valid() && End !in ins && s.received == ins + [End]
    ensures CountDones(s.log, index) <= CountAdds(s.log, index) <= 1
    ensures Contiguous(SeenOf(ins)) ==> CountDones(s.log, index) == CountAdds(s.log, index)
    ensures forall i, j | 0 <= i < |s.log| && 0 <= j < |s.log| && Adds(s.log[i], index) && Finishes(s.log[j], index) ::
              i < j && s.log[i].body.item == s.log[j].body.item && SameKind(s.log[j].body.content, s.log[i].body.content)
  {
    hide Run, Replay, InReach, Contiguous, CountAdds, CountDones, SameKind;
    WholeStream(s.log, s.origin, s.cfg, ins, index);
    EveryItemDone(s.origin, s.cfg, ins);
  }

  /** The response the client got with the terminal event is the non-streaming
      conversion of the message delivered, exactly when the calls are faithful. */
  lemma ClientGotResponse(s: StreamState, ins: seq<Input>)
    requires s.Valid() && End !in ins && s.received == ins + [End]
    ensures Replay(s.log).Some? &&
            (Replay(s.log).value.completed
             == Some(BatchResponse(s.cfg, ResponseIdIn(ins, s.origin.responseId), ModelIn(ins, s.origin.model), FinishOf(ins),
                                   ChatUsageIn(ins), MessageFor(ins)))
             <==> Faithful(s.cfg, ins))
    ensures s.log != [] && s.log[0].body == Created(ResponseIdIn(UpToHead(ins), s.origin.responseId),
                                                    ModelIn(UpToHead(ins), s.origin.model))
    ensures Last(s.log).body.Completed? && Replay(s.log).value.completed == Some(Last(s.log).body.response)
    ensures var r := Last(s.log).body.response;
            if FinishOf(ins) == "length" then r.status == "incomplete" && r.incomplete == "max_output_tokens"
            else r.status == "completed" && r.incomplete == ""
  {
    hide Run, Replay, Faithful, BatchResponse, MessageFor, ResponseIdIn, ModelIn, UpToHead;
    StreamRefinesBatch(s.origin, s.cfg, ins);
    CreatedAtEnd(s.origin, s.cfg, ins);
    HeadersAtEnd(s.origin, s.cfg, ins);
    LogNumbered(s, ins);
    AcceptedLogNumbered(s.log);
    EndsTold(s.log, |s.log| - 1);
  }

  /** At every point before the end: the event that added the item of a call carries
      the id known by then and the name, or namespace and name, it restores to; and
      the argument events so far carried the id and name known when they were sent. */
  lemma CallsIntroduced(s: StreamState, ins: seq<Input>, k: int)
    requires s.Valid() && End !in ins && s.received == ins && Announceable(s.cfg, ins, k)
    ensures k in s.toolOutputIndex
    ensures var at := Opening(s.cfg, ins, k);
            var out := s.toolOutputIndex[k];
            && CountAdds(s.log, out) == 1 && CountDones(s.log, out) == 0
            && (forall i | 0 <= i < |s.log| && Adds(s.log[i], out) ::
                  Introduces(s.cfg, s.log[i].body.content, LastIdOf(at, k), LastNameOf(at, k)))
            && (if Streamable(s.cfg, LastNameOf(at, k)) then
                  RoutesAre(RoutesIn(s.log, out), RoutesTold(s.cfg, ins, k)) && TextIn(s.log, out) == ArgsOf(ins, k)
                else RoutesIn(s.log, out) == [] && TextIn(s.log, out) == "")
  {
    var d := Run(s.origin, s.cfg, ins).it;
    hide Run, Replay, Introduces, RoutesAre, Opening, RoutesTold, Streamable, CountAdds, CountDones, Fits, Unfinished, MapsOf;
    RunTells(s.origin, s.cfg, ins);
    RunIntroduces(s.origin, s.cfg, ins);
    ArgumentsStreamAsTheyCome(s.origin, s.cfg, ins, k);
    RunUnfinished(s.origin, s.cfg, ins);
    assert CallTells(s.cfg, d.calls[k], ins, k) && CallIntroduced(d, s.cfg, ins, k);
    OpeningKind(s.cfg, d.calls[k], ins, k);
    LookupLink(s.calls, k);
    StillOpen(d, k);
    AcceptedItemsPair(s.log, d.calls[k].out);
    ReadOffLog(s.log, d.calls[k].out);
  }

  lemma StillOpen(d: Desk, k: int)
    requires Unfinished(d) && k in d.calls && d.calls[k].out in d.client.items
    ensures d.client.items[d.calls[k].out].stage.Fresh?
  {
    assert CallOpen(d, k);
  }

  /** After the end, for every call numbered below the count of calls: one event
      added its item and one finished it, each under the id and name known by then;
      the argument events carried them too, and the deltas add up to the arguments
      the finished item has. */
  lemma CallsCompleted(s: StreamState, ins: seq<Input>, k: int)
    requires s.Valid() && End !in ins && s.received == ins + [End] && k in SeenOf(ins) && 0 <= k < |SeenOf(ins)|
    ensures k in s.toolOutputIndex
    ensures var at := Opening(s.cfg, ins, k);
            var out := s.toolOutputIndex[k];
            && CountAdds(s.log, out) == 1 && CountDones(s.log, out) == 1
            && RoutesAre(RoutesIn(s.log, out), RoutesAtEnd(s.cfg, ins, k))
            && (forall i | 0 <= i < |s.log| && Adds(s.log[i], out) ::
                  Introduces(s.cfg, s.log[i].body.content, LastIdOf(at, k), LastNameOf(at, k)))
            && (forall i | 0 <= i < |s.log| && Finishes(s.log[i], out) ::
                  Completes(s.cfg, s.log[i].body.content, LastIdOf(ins, k), LastNameOf(at, k), LastNameOf(ins, k),
                            ArgsOf(ins, k)))
            && (forall i, j | 0 <= i < |s.log| && 0 <= j < |s.log| && Adds(s.log[i], out) && Finishes(s.log[j], out) ::
                  i < j && Calls(s.log[i].body.content) && Calls(s.log[j].body.content) &&
                  (SameCall(s.log[i].body.content, s.log[j].body.content)
                   <==> LastIdOf(at, k) == LastIdOf(ins, k) && KeepsName(s.cfg, ins, k)))
  {
    var d := Run(s.origin, s.cfg, ins + [End]).it;
    hide Run, Replay, Introduces, Completes, RoutesAre, Opening, RoutesAtEnd, KeepsName, SameCall, CountAdds, CountDones, MapsOf;
    EndIntroduces(s.origin, s.cfg, ins, k);
    var out := d.calls[k].out;
    LookupLink(s.calls, k);
    AddedAsDone(s.cfg, d.calls[k], d.client.items[out], ins, k);
    AcceptedItemsPair(s.log, out);
    ReadOffLog(s.log, out);
  }

  /** A call whose id and name came with its first delta and never changed is added,
      streamed and done under that id and that name, or the namespace and name the
      request declared for it. */
  lemma SteadyCalls(s: StreamState, ins: seq<Input>, k: int, id: string, name: string)
    requires s.Valid() && End !in ins && s.received == ins + [End] && 0 <= k < |SeenOf(ins)|
    requires Steady(ins, k, id, name) && id != "" && name != ""
    ensures k in s.toolOutputIndex
    ensures var out := s.toolOutputIndex[k];
            && CountAdds(s.log, out) == 1 && CountDones(s.log, out) == 1
            && (forall i | 0 <= i < |s.log| && Adds(s.log[i], out) :: Introduces(s.cfg, s.log[i].body.content, id, name))
            && (forall i | 0 <= i < |s.log| && Finishes(s.log[i], out) ::
                  Completes(s.cfg, s.log[i].body.content, id, name, name, ArgsOf(ins, k)))
            && (forall i, j | 0 <= i < |s.log| && 0 <= j < |s.log| && Adds(s.log[i], out) && Finishes(s.log[j], out) ::
                  i < j && Calls(s.log[i].body.content) && Calls(s.log[j].body.content) &&
                  SameCall(s.log[i].body.content, s.log[j].body.content))
            && (forall r | r in RoutesIn(s.log, out) ::
                  r.0 == Given(id) && (r.1 == name || (name in s.cfg.namespaces && r.1 == s.cfg.namespaces[name].1)))
  {
    hide Replay, Run, Introduces, Completes, Opening, SameCall, CountAdds, CountDones, RoutesTold, Steady;
    SteadyTells(s.cfg, ins, k, id, name);
    CallsCompleted(s, ins, k);
  }
}
