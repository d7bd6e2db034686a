# Protocol bridges, bundles and account picking: a verified model

A Dafny model of the parts of UmbraForge that translate between chat protocols,
install protected plugin bundles and pick accounts. `dafny verify dfyconfig.toml`
checks all of it.

**Three stream converters.** Each is a class with the fields of the Go state struct
and, as a ghost, the log of the events sent. For the two that read Chat Completions
chunks a strict client of the outgoing protocol replays the log and refuses an event
that breaks the protocol: a gap in the numbering, a delta for an item of the wrong
type, a stop for a block that is not open. Every method is proved to send only
events this client accepts, and to leave client and fields equal to a view of the
inputs received alone. The laws are then proved about that view for every sequence
of inputs, and carried back to the log. The third may be fed any events at all; every
event it sends must follow from the log before it, and its own strict client keeps
track of the open item. What an event carries is stated by its fields and by readers
that collect texts, images, calls or ids from messages or logs, not by the functions
that build them.

- `AnthropicProtocol`, `AnthropicAssembly`, `AnthropicStream`,
  `AnthropicStreamLaws`, `AnthropicToolOrder`, `AnthropicBatch`,
  `AnthropicConverter`: Chat Completions chunks as Anthropic events.
- `ResponsesProtocol`, `ResponsesAssembly`, `ResponsesFit`, `ResponsesStream`,
  `ResponsesLaws`, `ResponsesEnding`, `ResponsesBatch`, `ResponsesCalls`,
  `ResponsesIds`, `ResponsesConverter`: Chat Completions chunks as Responses events.
- `AnthropicEvents`, `AnthropicEventLaws`, `AnthropicEventLog`: Anthropic events as
  Responses events.
- `Usages`: token counts across the three APIs.

**Requests.** `ChatMessages`, `Normalize`, `ToolOutputMedia`, `NamespaceTools` and
`ResponsesInput` model how a Responses history and its tools become a Chat
Completions request, and `ResponsesHistory` what of the history the upstream is told;
`RequestTranslation`, `RequestEquality`, `RequestConditions`, `RequestAgreement` and
`RequestKept` compare the direct translation of Anthropic requests with the one
through the Responses API, and both with the request.

**Bundles.** `Envelope` is the length-prefixed, signed envelope, `BundleArchive`
the agreement of archive, manifest and installed tree, `BundleInstall` the swap of
directories.

**Accounts.** `AccountPicker` has one method per locked section of the picker, and
runs that interleave them in any order.

`Common` and `ChatChunks` hold what these share. Ids drawn at random are drawn from
a counter, times are parameters, and JSON, hashes, ciphers and the case folding of
strings are function values with the laws they are known to obey stated where they
are needed.

## Where the code differs from what is said about it

- The direct Anthropic request translation is documented as equivalent to the
  composed one. It is so exactly under the condition of
  `RequestAgreement.RequestsAgree`; `EmptyTurnDiffers` and `SplitTurnDiffers` are
  inputs for which it is not. The lists before normalisation may differ when the
  messages sent do not (a call that nobody answered is dropped either way):
  `RequestTranslation.BuiltListsAgree` is exact for the former,
  `RequestConditions.MessagesAgreeExactly` for the latter. Both conditions are read
  off the turns of the request.
- The comment on the normaliser says that orphan tool replies are emitted in place;
  the code drops them, and so does the model.
- Closing the tool items of a Responses stream walks 0 .. n-1. With other indices an
  item stays open and the call is missing from the terminal event
  (`CountingFromOne`).
- In the direct Anthropic stream a tool block that another tool interrupts before
  its first fragment is closed with `{}`, and later fragments follow that
  (`InterleavingPads`).
- In the direct Anthropic stream the id of a call that comes between its first delta
  and its name is dropped (`LateIdIsLost`).
- The stream from Anthropic events takes the output count from message_delta only,
  and the other counts from whichever of message_start and message_delta gave a
  positive one last; the batch conversion takes the usage of the response as it is
  (`TerminalEvent`).
- In the stream from Anthropic events, thinking that starts while a message is open
  replaces the message without closing it (`TextBeforeThinking`), and the text of a
  text block that breaks off is dropped (`CutTextIsLost`).
- In that stream the start of a block of another type is skipped, but not its JSON and
  its end: an open message gets an empty part (`OtherRun`), and with no message open
  the next call's arguments start with the input of a server tool
  (`ServerToolSpills`).
- The check of an installed tree speaks of a missing marker, but never notices one
  (`MarkerMayBeMissing`).
- Swapping directories keeps a complete tree in place when there was a destination.
  When there was none it does so exactly if the first RemoveAll, whose error is
  ignored, fails and leaves a complete tree at dest.old (`Disk.ReplaceDir`); when no
  call fails, a tree left there by an earlier crash is gone before the new one is in
  place (`LeftoverIsRemoved`).
- A pick with a session does not check the group of the bound account
  (`SessionIgnoresGroup`) and reports no error when nobody can be picked.

## Model

| member | source | states |
|---|---|---|
| `AnthropicStream.StreamState.constructor` | backend/internal/pkg/apicompat/chatcompletions_anthropic_bridge.go:567-578 | a fresh converter whose client has received nothing |
| `ChatChunks.ChunkTells` | backend/internal/pkg/apicompat/chatcompletions_anthropic_bridge.go:582-641 | what a chunk delivers: its header first, then all reasoning, text and argument fragments of its choices, a call without an index counting as tool 0 |
| `ChatChunks.ChoiceInOrder` | backend/internal/pkg/apicompat/chatcompletions_anthropic_bridge.go:606-640 | within a choice: reasoning, text, calls, finish reason |
| `AnthropicStream.StreamState.Chunk` | backend/internal/pkg/apicompat/chatcompletions_anthropic_bridge.go:582-641 | whatever the chunk holds, the strict client accepts the events, and the converter's maps, buffers and flags stay those of the assembly of everything received |
| `AnthropicStream.StreamState.Finalize` | backend/internal/pkg/apicompat/chatcompletions_anthropic_bridge.go:645-693 | the same for the end of the stream; a second end sends nothing |
| `AnthropicStream.StreamState.HandleToolCall` | backend/internal/pkg/apicompat/chatcompletions_anthropic_bridge.go:760-815 | a tool delta announces, buffers or streams so that the client holds exactly the assembled arguments |
| `AnthropicStream.StreamState.AnnounceToolBlock` | backend/internal/pkg/apicompat/chatcompletions_anthropic_bridge.go:820-854 | closes what is open, opens the tool's block and flushes what was buffered for it, leaving nothing pending |
| `AnthropicStream.StreamState.AnnounceNameless` | backend/internal/pkg/apicompat/chatcompletions_anthropic_bridge.go:645-693 | at the end every tool whose name never came gets a block, lowest index first |
| `AnthropicStream.StreamState.CloseBlock` | backend/internal/pkg/apicompat/chatcompletions_anthropic_bridge.go:882-907 | one stop event for the open block; a tool block without arguments gets `{}` first |
| `AnthropicProtocol.AcceptedBlocksNest` | backend/internal/pkg/apicompat/chatcompletions_anthropic_bridge.go:582-693 | in every event log the client accepts, block starts and stops are both 0, 1, 2, ... with at most one block open |
| `AnthropicProtocol.AcceptedLogShape` | backend/internal/pkg/apicompat/chatcompletions_anthropic_bridge.go:582-693 | in every accepted log message_start is first, then only block events, then message_delta and message_stop |
| `AnthropicProtocol.CallIdKept` | backend/internal/pkg/apicompat/anthropic_to_responses.go:341-350 | a call id comes through unchanged, except that "fc_" is taken off, and nothing else, in front of "toolu_" and "call_" |
| `AnthropicStreamLaws.FinishedRunBracketed` | backend/internal/pkg/apicompat/chatcompletions_anthropic_bridge.go:582-693 | every run of chunks followed by the end is well bracketed: one message_start first, numbered matched blocks, one message_delta and one message_stop last |
| `AnthropicStreamLaws.NoTextLost` | backend/internal/pkg/apicompat/chatcompletions_anthropic_bridge.go:582-625 | at every point of every run the thinking blocks together hold exactly the reasoning delivered and the text blocks exactly the text |
| `AnthropicStreamLaws.RunInStep` | backend/internal/pkg/apicompat/chatcompletions_anthropic_bridge.go:760-854 | at every point a tool is either waiting with exactly the fragments that came, or has one block with its name and arguments; fragments were on time exactly when the inputs delivered none late |
| `AnthropicToolOrder.RunInOrder` | backend/internal/pkg/apicompat/chatcompletions_anthropic_bridge.go:760-854 | at every point each tool waits with, or its block carries, the id of its first delta, or a drawn one, unless the delta that brought the name brought another id; and the blocks stand in the order in which the names came |
| `AnthropicToolOrder.EveryToolDelivered` | backend/internal/pkg/apicompat/chatcompletions_anthropic_bridge.go:645-854 | after the end the tool_use blocks are, in order, exactly one for every tool seen: as their names came, then those never named by index, each with id, name and arguments; nothing waits any more |
| `AnthropicToolOrder.IdsDelivered` | backend/internal/pkg/apicompat/chatcompletions_anthropic_bridge.go:760-854 | the block of every tool has exactly the id the tool kept, less a legacy "fc_"; that id came with one of its own deltas or was drawn; tools that kept different ids have different ones on their blocks |
| `AnthropicToolOrder.DrawnOnce` | backend/internal/pkg/apicompat/chatcompletions_anthropic_bridge.go:760-790 | an id that is drawn is drawn for one tool only |
| `AnthropicStreamLaws.ArgumentsConserved` | backend/internal/pkg/apicompat/chatcompletions_anthropic_bridge.go:793-907 | a tool's assembled arguments are its fragments, or `{}` if it had none, exactly unless its block had been closed with `{}` before its first fragment |
| `AnthropicStreamLaws.InterleavingPads` | backend/internal/pkg/apicompat/chatcompletions_anthropic_bridge.go:882-907 | two interleaved calls for which the condition fails: the first call's JSON comes out as `{}` followed by its arguments |
| `AnthropicAssembly.RunSound` | backend/internal/pkg/apicompat/chatcompletions_anthropic_bridge.go:760-854 | in every reachable state every placed tool owns one tool_use block, no two share one, and every such block has an owner |
| `AnthropicConverter.PendingIsUnnamed` | backend/internal/pkg/apicompat/chatcompletions_anthropic_bridge.go:760-854 | at any time before the end the pending-id map holds exactly the tools seen without a name, and the argument buffer exactly the fragments that came for them |
| `AnthropicConverter.NothingPending` | backend/internal/pkg/apicompat/chatcompletions_anthropic_bridge.go:645-693 | after the end nothing is pending or buffered |
| `AnthropicConverter.LogBracketed` | backend/internal/pkg/apicompat/chatcompletions_anthropic_bridge.go:582-693 | the converter's own event log after the end: one message_start, numbered matched blocks, one message_delta, one message_stop |
| `AnthropicConverter.ClientHoldsTools` | backend/internal/pkg/apicompat/chatcompletions_anthropic_bridge.go:582-854 | read off the log after the end: message_start carries the id and model known by then; one tool_use block per tool, with its id, first name and arguments |
| `AnthropicBatch.ChunkingIrrelevant` | backend/internal/pkg/apicompat/chatcompletions_anthropic_bridge.go:582-641 | where chunks begin, and when the finish reason comes, changes no block |
| `AnthropicBatch.StreamAssembles` | backend/internal/pkg/apicompat/chatcompletions_anthropic_bridge.go:582-693 | for every run: the client ends up with the reasoning in one thinking block, the text in one text block and then the tools in their order, exactly when the inputs open their blocks in that order |
| `AnthropicBatch.StreamRefinesBatch` | backend/internal/pkg/apicompat/chatcompletions_anthropic_bridge.go:424-458 | for every run, however cut and interleaved: the blocks are the non-streaming conversion of the message the fragments add up to, exactly when blocks open in order, there is text or a call, and the calls match one by one |
| `AnthropicBatch.InTurnRefinesBatch` | backend/internal/pkg/apicompat/chatcompletions_anthropic_bridge.go:424-458 | for reasoning, then text, then whole calls, wherever the id and the name of a call come or if they never do: the blocks are the non-streaming conversion exactly when there is text or a call, calls never named come last, each call is announced under its last id and name, and no arguments are blank but not empty |
| `AnthropicBatch.LateIdIsLost` | backend/internal/pkg/apicompat/chatcompletions_anthropic_bridge.go:760-790 | a call whose id comes after its first delta and before its name goes out under a drawn id |
| `AnthropicBatch.EndingRefinesBatch` | backend/internal/pkg/apicompat/chatcompletions_anthropic_bridge.go:469-515 | for every run, stop reason and usage are those of the non-streaming conversion |
| `AnthropicBatch.MessageAtEnd` | backend/internal/pkg/apicompat/chatcompletions_anthropic_bridge.go:696-714 | message_start carries the response id and model as they stood at the first chunk, or at the end when there was none |
| `Usages.TwoWaysAgree` | backend/internal/pkg/apicompat/chatcompletions_anthropic_bridge.go:485-515 | direct usage equals the one by way of the Responses API, as the comment there claims, exactly unless the details hold no positive count but a negative one |
| `Usages.TokensAddUp` | backend/internal/pkg/apicompat/chatcompletions_anthropic_bridge.go:485-515 | fresh, read and written input make up the prompt tokens, or the fresh ones are 0 |
| `Usages.CountsKept` | backend/internal/pkg/apicompat/chatcompletions_responses_bridge.go:1184-1210 | every count of a Chat Completions usage is found again in the Responses usage; a missing total is the sum |
| `Usages.TokensComeBack` | backend/internal/pkg/apicompat/responses_to_anthropic.go:98-119 | token counts of an Anthropic response converted to Responses and back are the same exactly when fresh and cached input are not negative |
| `AnthropicConverter.ClientHoldsMessage` | backend/internal/pkg/apicompat/chatcompletions_anthropic_bridge.go:424-515 | a client that replays the converter's log holds the blocks of the non-streaming conversion, under the condition of StreamRefinesBatch, and always its stop reason and usage |
| `ResponsesStream.StreamState.constructor` | backend/internal/pkg/apicompat/chatcompletions_responses_bridge.go:1283-1296 | a fresh converter whose client has received nothing |
| `ResponsesStream.StreamState.Chunk` | backend/internal/pkg/apicompat/chatcompletions_responses_bridge.go:1306-1412 | whatever the chunk holds, the strict client accepts the events, and all fields stay those of the view of everything received |
| `ResponsesStream.StreamState.Finalize` | backend/internal/pkg/apicompat/chatcompletions_responses_bridge.go:1415-1480 | the same for the end of the stream; a second end sends nothing |
| `ResponsesStream.StreamState.AnnounceToolItem` | backend/internal/pkg/apicompat/chatcompletions_responses_bridge.go:1617-1670 | the item of a call is added once its name decides the type, and arguments that came before follow exactly for ordinary calls |
| `ResponsesStream.StreamState.CloseToolItems` | backend/internal/pkg/apicompat/chatcompletions_responses_bridge.go:1676-1773 | the loop closes calls 0 .. n-1, each as its type demands |
| `ResponsesStream.StreamState.ChatOutput` | backend/internal/pkg/apicompat/chatcompletions_responses_bridge.go:1775-1844 | the output list of the terminal event, up to item ids |
| `ResponsesStream.StreamState.SynthesizeFallback` | backend/internal/pkg/apicompat/chatcompletions_responses_bridge.go:1556-1581 | reasoning stands in as the message when there is neither text nor call and it is not blank |
| `ResponsesProtocol.AcceptedLogNumbered` | backend/internal/pkg/apicompat/chatcompletions_responses_bridge.go:1306-1480 | in every log the client accepts, numbers are 0, 1, 2, ...; response.created is first and only once; a terminal event with nothing after it is last and only once |
| `ResponsesProtocol.AcceptedItemsPair` | backend/internal/pkg/apicompat/chatcompletions_responses_bridge.go:1306-1480 | in every accepted log an item is added at most once and done at most once, at a later position than it was added, with the same id and type |
| `ResponsesFit.RunFits` | backend/internal/pkg/apicompat/chatcompletions_responses_bridge.go:1306-1480 | in every reachable state output indices are pairwise distinct and every item is known under its index and id, in the stage the converter takes it to be |
| `ResponsesIds.RunIdsApart` | backend/internal/pkg/apicompat/chatcompletions_responses_bridge.go:1306-1480 | in every reachable state no two output items share an item id and no two calls a drawn call id |
| `ResponsesIds.ItemsAddedApart` | backend/internal/pkg/apicompat/chatcompletions_responses_bridge.go:1306-1480 | read off the log: two items that are added have different indices and different ids |
| `ResponsesFit.RunCompletes` | backend/internal/pkg/apicompat/chatcompletions_responses_bridge.go:1415-1480 | the terminal event is sent exactly when the stream has ended |
| `ResponsesLaws.RunTells` | backend/internal/pkg/apicompat/chatcompletions_responses_bridge.go:1306-1412 | at every point before the end the calls on record hold the last name and id and all fragments delivered for them, and the text and reasoning delivered |
| `ResponsesLaws.ArgumentsStreamAsTheyCome` | backend/internal/pkg/apicompat/chatcompletions_responses_bridge.go:1355-1405 | at every prefix of every run an announced ordinary call has streamed exactly its fragments so far, a custom or tool_search call none, an unannounced call has no item |
| `ResponsesCalls.RunIntroduces` | backend/internal/pkg/apicompat/chatcompletions_responses_bridge.go:1617-1670 | at every point before the end the item of an announced call has the type its name decides, the call id known then, and the name, or the namespace and name the request declared for it; each argument event so far carried the id and name known when it was sent |
| `ResponsesCalls.EndIntroduces` | backend/internal/pkg/apicompat/chatcompletions_responses_bridge.go:1676-1773 | after the end the same of every call closed, whose finished item has the last id, the name it was announced or last known by, and all arguments |
| `ResponsesCalls.AddedAsDone` | backend/internal/pkg/apicompat/chatcompletions_responses_bridge.go:1617-1773 | the item is added and done under one call id, name and namespace exactly when no later delta brought another id, or another name that shows |
| `ResponsesLaws.TidyUnlessLateReasoning` | backend/internal/pkg/apicompat/chatcompletions_responses_bridge.go:1501-1554 | every delta reaches an item that is not done, exactly unless reasoning resumes after its item was closed |
| `ResponsesLaws.ReasoningAfterText` | backend/internal/pkg/apicompat/chatcompletions_responses_bridge.go:1501-1554 | the three inputs for which that fails |
| `ResponsesEnding.CallsAtEnd` | backend/internal/pkg/apicompat/chatcompletions_responses_bridge.go:1676-1773 | after the end a call numbered below the count of calls has an item that is done with all its arguments; any other call's item stays open |
| `ResponsesEnding.EveryItemDone` | backend/internal/pkg/apicompat/chatcompletions_responses_bridge.go:1676-1773 | every item that was added is done, exactly when all calls that could be announced are numbered below their count; numbering without gaps is enough |
| `ResponsesEnding.WholeStream` | backend/internal/pkg/apicompat/chatcompletions_responses_bridge.go:1306-1480 | the lifecycle of a whole stream told by its event log alone: numbering, created first, completed last, each item added once and later done once, under one id and type |
| `ResponsesBatch.OutputAtEnd` | backend/internal/pkg/apicompat/chatcompletions_responses_bridge.go:1775-1844 | the terminal event lists reasoning, then the message or its fallback, then calls 0 .. n-1 |
| `ResponsesBatch.StreamRefinesBatch` | backend/internal/pkg/apicompat/chatcompletions_responses_bridge.go:1014-1133 | however cut and interleaved, the terminal event is the non-streaming conversion of the message delivered, exactly when the calls are numbered without gaps, each has an id, and its first and last name restore to the same tool |
| `ResponsesBatch.CountingFromOne` | backend/internal/pkg/apicompat/chatcompletions_responses_bridge.go:1676-1844 | an upstream that counts its calls from 1: the call's item is never done and is missing from the terminal event |
| `ResponsesConverter.LogNumbered` | backend/internal/pkg/apicompat/chatcompletions_responses_bridge.go:1306-1480 | the converter's own event log after the end: numbered without gaps, created first and once, terminal last and once |
| `ResponsesConverter.ItemsMatched` | backend/internal/pkg/apicompat/chatcompletions_responses_bridge.go:1306-1480 | in that log every item added is later done once, under one id and type, when the calls are numbered without gaps |
| `ResponsesConverter.CallsIntroduced` | backend/internal/pkg/apicompat/chatcompletions_responses_bridge.go:1617-1670 | RunIntroduces read off the log: the one event that added the call, and the deltas for it |
| `ResponsesConverter.CallsCompleted` | backend/internal/pkg/apicompat/chatcompletions_responses_bridge.go:1676-1773 | EndIntroduces and AddedAsDone read off the log: one event adds the call, one later finishes it |
| `ResponsesConverter.SteadyCalls` | backend/internal/pkg/apicompat/chatcompletions_responses_bridge.go:1617-1773 | a call whose id and name came with its first delta and never changed: added, streamed and done under exactly these, or the namespace and name declared for it |
| `ResponsesConverter.ClientGotResponse` | backend/internal/pkg/apicompat/chatcompletions_responses_bridge.go:1014-1133 | the response a client takes from the terminal event is the non-streaming conversion exactly when the calls are faithful; its status tells a cut response; response.created carries the id and model of the first chunk |
| `Normalize.IndexReplies` | backend/internal/pkg/apicompat/chatcompletions_responses_bridge.go:576-583 | the last reply wins for each id |
| `Normalize.NormalizeMessages` | backend/internal/pkg/apicompat/chatcompletions_responses_bridge.go:576-645 | the loops compute the rebuilt history |
| `Normalize.NormalizedPaired` | backend/internal/pkg/apicompat/chatcompletions_responses_bridge.go:554-645 | every message with tool calls is followed at once by exactly one reply per call, in call order, each the latest for its id, and no other reply is left |
| `Normalize.NormalizedKeeps` | backend/internal/pkg/apicompat/chatcompletions_responses_bridge.go:576-645 | for any media map: messages that are no replies keep content and order, except those that only made unanswered calls; each message whose answered calls have media is followed by one message with them; exactly the answered calls are left, in order |
| `Normalize.NormalizedImages` | backend/internal/pkg/apicompat/chatcompletions_responses_bridge.go:576-645 | the images in what is sent are, in order, those of every kept message, of the replies to its answered calls and of the media taken out of their outputs |
| `Normalize.MediaUnderItsCall` | backend/internal/pkg/apicompat/chatcompletions_responses_bridge.go:626-642 | the media of an answered call stand in a user message, together and right behind the text that names the call |
| `Normalize.NormalizedTwice` | backend/internal/pkg/apicompat/chatcompletions_responses_bridge.go:576-645 | normalising again changes nothing |
| `Normalize.FixedWhenPaired` | backend/internal/pkg/apicompat/chatcompletions_responses_bridge.go:576-645 | a history is left alone exactly when it is in order already |
| `NamespaceTools.Flatten` | backend/internal/pkg/apicompat/chatcompletions_responses_bridge.go:921-937 | the loop over runes computes the flat name |
| `NamespaceTools.FlatNameFits` | backend/internal/pkg/apicompat/chatcompletions_responses_bridge.go:916-937 | a flat name is at most 64 bytes of UTF-8 and never tool_search, for any hash |
| `NamespaceTools.FlatNameTells` | backend/internal/pkg/apicompat/chatcompletions_responses_bridge.go:921-941 | a flat name is namespace, "__" and name, or its longest prefix of whole runes in 54 bytes with a hash of all of it |
| `NamespaceTools.FitIsUnique` | backend/internal/pkg/apicompat/chatcompletions_responses_bridge.go:927-935 | the truncated part is the longest prefix of whole runes that fits |
| `NamespaceTools.ToChatTools` | backend/internal/pkg/apicompat/chatcompletions_responses_bridge.go:795-914 | a tool list is accepted exactly when nothing in it would be confused under flat names |
| `NamespaceTools.EachChildOnce` | backend/internal/pkg/apicompat/chatcompletions_responses_bridge.go:878-914 | in an accepted list each declared child becomes exactly one function tool |
| `NamespaceTools.ToolsDeclared` | backend/internal/pkg/apicompat/chatcompletions_responses_bridge.go:795-862 | every tool of the request is declared under its own name with its description, parameters and strictness |
| `NamespaceTools.DeclaredAreShown` | backend/internal/pkg/apicompat/chatcompletions_responses_bridge.go:795-918 | every declaration is shown to the upstream as it is; of two of the same child the first |
| `NamespaceTools.ShownAreDeclared` | backend/internal/pkg/apicompat/chatcompletions_responses_bridge.go:795-918 | and nothing else is |
| `NamespaceTools.NamespaceToolNames` | backend/internal/pkg/apicompat/chatcompletions_responses_bridge.go:149-173 | the loops compute the map from flat names to namespace and name |
| `NamespaceTools.NamespacedComesBack` | backend/internal/pkg/apicompat/chatcompletions_responses_bridge.go:795-937 | in an accepted list a namespaced tool's flat name fits, differs from every top-level name and tool_search, restores to exactly that namespace and name, and flattens to itself again |
| `NamespaceTools.TopLevelComesBack` | backend/internal/pkg/apicompat/chatcompletions_responses_bridge.go:124-186 | in an accepted list top-level tools come back as custom or plain calls under their own names and tool_search as a search |
| `NamespaceTools.FlatNamesCollide` | backend/internal/pkg/apicompat/chatcompletions_responses_bridge.go:900-903 | two tools with one flat name, and that they are refused |
| `ToolOutputMedia.Rewrite` | backend/internal/pkg/apicompat/chatcompletions_responses_bridge.go:459-495 | the recursion computes the rewritten tree and the media, and reports a change exactly when there are media |
| `ToolOutputMedia.UntouchedWithoutMedia` | backend/internal/pkg/apicompat/chatcompletions_responses_bridge.go:459-495 | a tree is returned identical exactly when it holds no image |
| `ToolOutputMedia.NothingLeft` | backend/internal/pkg/apicompat/chatcompletions_responses_bridge.go:459-495 | rewriting a rewritten tree finds nothing |
| `ToolOutputMedia.MediaInOrder` | backend/internal/pkg/apicompat/chatcompletions_responses_bridge.go:459-512 | the media are the addresses of the images at all reachable positions, in document order, each once |
| `ToolOutputMedia.RestUntouched` | backend/internal/pkg/apicompat/chatcompletions_responses_bridge.go:459-495 | after the rewrite the marker stands where an image was, and every position without an image below is unchanged |
| `ToolOutputMedia.SurroundingsKept` | backend/internal/pkg/apicompat/chatcompletions_responses_bridge.go:459-495 | around an image nothing changes: arrays keep their length, objects their keys and all fields but the content |
| `ToolOutputMedia.ImageUrlTells` | backend/internal/pkg/apicompat/chatcompletions_responses_bridge.go:497-512 | which nodes are images, and with what address |
| `ToolOutputMedia.DataUrlsAre` | backend/internal/pkg/apicompat/chatcompletions_responses_bridge.go:514-526 | a string is an image exactly when it is a data URL with a type and data around the first ";base64," |
| `ToolOutputMedia.ExtractedOnce` | backend/internal/pkg/apicompat/chatcompletions_responses_bridge.go:404-457 | what is sent in place of an output with media holds none when it is read again |
| `ResponsesInput.BuildMessages` | backend/internal/pkg/apicompat/chatcompletions_responses_bridge.go:235-399 | the loop over input items builds the messages and the media map, and fails exactly on a malformed item |
| `ResponsesInput.CallsBuilt` | backend/internal/pkg/apicompat/chatcompletions_responses_bridge.go:539-552 | every tool call of the history is on an assistant message, once and in order |
| `ResponsesHistory.HistorySaid` | backend/internal/pkg/apicompat/chatcompletions_responses_bridge.go:235-402 | everything said in a history is said to the upstream once and in order, by the same speaker, with the same text and images |
| `ResponsesHistory.CallComesBack` | backend/internal/pkg/apicompat/chatcompletions_responses_bridge.go:262-325 | the round trip of a call: the upstream calls a tool it was given, the client gets the restored item and sends it back, and the upstream finds the same id, name and arguments in its history, for namespaced, custom, search and plain tools |
| `ResponsesHistory.RepliesBuilt` | backend/internal/pkg/apicompat/chatcompletions_responses_bridge.go:330-352 | the reply to a call is the text of the last output of the history for it |
| `ResponsesHistory.ImagesConserved` | backend/internal/pkg/apicompat/chatcompletions_responses_bridge.go:404-645 | from items to messages sent no image is lost or doubled: those said in the history, and for every answered call those in its last output, except that a message of nothing but unanswered calls takes its own with it |
| `ResponsesInput.AnsweredCallsSent` | backend/internal/pkg/apicompat/chatcompletions_responses_bridge.go:201-231 | after building and normalising with the media found on the way, exactly the answered calls reach the upstream, in order |
| `ResponsesInput.ReasoningReachesItsCall` | backend/internal/pkg/apicompat/chatcompletions_responses_bridge.go:238-245 | reasoning is passed back on the message of the call that follows it |
| `ResponsesInput.ReasoningOutlivesText` | backend/internal/pkg/apicompat/chatcompletions_responses_bridge.go:391-395 | an assistant text between reasoning and call does not lose the reasoning |
| `ResponsesInput.ReasoningEnds` | backend/internal/pkg/apicompat/chatcompletions_responses_bridge.go:330-396 | anything but an assistant text in between ends the reasoning: the call goes out without it |
| `RequestTranslation.DirectMessages` | backend/internal/pkg/apicompat/chatcompletions_anthropic_bridge.go:119-147 | the direct loop, error or result |
| `RequestTranslation.ConvertInput` | backend/internal/pkg/apicompat/anthropic_to_responses.go:118-147 | the first leg of the composed translation, error or result |
| `RequestTranslation.ComposedMessages` | backend/internal/pkg/apicompat/chatcompletions_responses_bridge.go:201-231 | both legs together, error or result |
| `RequestTranslation.TurnsBuilt` | backend/internal/pkg/apicompat/chatcompletions_anthropic_bridge.go:149-293 | the composed list is shorter than the direct one by exactly the irregular turns, and without them equals it up to the text sent for tool outputs |
| `RequestTranslation.SentUnchanged` | backend/internal/pkg/apicompat/chatcompletions_responses_bridge.go:404-444 | the text sent for a tool output differs from the original exactly when it holds an image |
| `RequestTranslation.BuiltListsAgree` | backend/internal/pkg/apicompat/chatcompletions_anthropic_bridge.go:37-147 | both translations build the same messages exactly when every assistant turn has text or a call, no calls without text follow another assistant message at once, and no tool output holds an image |
| `RequestTranslation.MessagesAgree` | backend/internal/pkg/apicompat/chatcompletions_anthropic_bridge.go:37-147 | then the messages sent are equal, too: a condition to check on the request alone |
| `RequestEquality.MergedBuilt` | backend/internal/pkg/apicompat/chatcompletions_responses_bridge.go:235-399 | on every history the composed list is the merged turns with tool outputs as they are sent |
| `RequestEquality.MergedMedia` | backend/internal/pkg/apicompat/chatcompletions_responses_bridge.go:325-354 | every entry of the media map was found in the last output of its call |
| `RequestEquality.SentTools` | backend/internal/pkg/apicompat/chatcompletions_responses_bridge.go:576-645 | the tool messages both send are the same, in order, up to what is sent for an output with images |
| `RequestEquality.RunInStep` | backend/internal/pkg/apicompat/chatcompletions_anthropic_bridge.go:119-147 | on every history the direct translation sends exactly as many messages more as there are turns of three kinds, and without any the same messages |
| `RequestConditions.MergedEnd` | backend/internal/pkg/apicompat/chatcompletions_responses_bridge.go:539-552 | the assistant message that further calls would join, read off the turns: whether there is one, its text and its calls |
| `RequestConditions.NoExcess` | backend/internal/pkg/apicompat/chatcompletions_anthropic_bridge.go:119-147 | the direct translation sends no message more exactly when no turn is surplus: silent, or calling without text where an assistant message precedes that is sent anyway or that is blank |
| `RequestConditions.ImagesAre` | backend/internal/pkg/apicompat/chatcompletions_responses_bridge.go:576-645 | no tool message that is sent holds an image exactly when no tool result of the turns does that has no call id or is the last one for a call of the history |
| `RequestConditions.MessagesAgreeExactly` | backend/internal/pkg/apicompat/chatcompletions_anthropic_bridge.go:37-147 | on every history: both send the same messages exactly when no turn is surplus and no tool result that is sent holds an image |
| `RequestKept.DirectSays` | backend/internal/pkg/apicompat/chatcompletions_anthropic_bridge.go:119-293 | the direct translation says, line by line, what the blocks of the request say: system prompt without billing header, texts, tool results, images as data URIs, and makes the same calls |
| `RequestKept.ComposedSays` | backend/internal/pkg/apicompat/anthropic_to_responses.go:118-330 | so does the way through a Responses request, for every request, with the images inside tool results taken out |
| `RequestAgreement.ToolsAgree` | backend/internal/pkg/apicompat/chatcompletions_anthropic_bridge.go:298-315 | both declare the same function tools, and the composed list is always accepted |
| `RequestAgreement.ToChatTools` | backend/internal/pkg/apicompat/chatcompletions_anthropic_bridge.go:298-315 | the loop that converts tools directly drops exactly the server tools |
| `RequestAgreement.ToResponsesTools` | backend/internal/pkg/apicompat/anthropic_to_responses.go:445-462 | the loop of the first leg keeps a server tool as such |
| `RequestAgreement.ToolByTool` | backend/internal/pkg/apicompat/anthropic_to_responses.go:445-462 | both lists are made tool by tool and in order, each function with its description and normalised parameters |
| `RequestAgreement.ChoiceMeans` | backend/internal/pkg/apicompat/chatcompletions_anthropic_bridge.go:327-354 | what each tool choice comes to: the modes under their Chat names, a declared tool by name, otherwise nothing |
| `RequestAgreement.ChoicesAgree` | backend/internal/pkg/apicompat/chatcompletions_anthropic_bridge.go:327-354 | both give the same tool choice, or the same error, exactly when a named tool has a name, types only the Responses API knows hit no declared tool, and a malformed choice does not meet an empty tool list |
| `RequestAgreement.DirectRequest` | backend/internal/pkg/apicompat/chatcompletions_anthropic_bridge.go:42-114 | the direct translation of a whole request; output limit, sampling settings and effort as the request has them, within the bounds the upstream sets |
| `RequestAgreement.ToResponses` | backend/internal/pkg/apicompat/anthropic_to_responses.go:13-81 | the first leg of a whole request, composed from the message, tool and choice conversions, when it fails, and the same of its settings |
| `RequestAgreement.ToChat` | backend/internal/pkg/apicompat/chatcompletions_responses_bridge.go:23-76 | the second leg of a whole request |
| `RequestAgreement.RequestsAgree` | backend/internal/pkg/apicompat/chatcompletions_anthropic_bridge.go:37-114 | on every request: both give the same result or error exactly when both fail alike, or no turn is surplus, no tool result that is sent holds an image and the tool choice is one both understand |
| `RequestAgreement.EmptyTurnDiffers` | backend/internal/pkg/apicompat/chatcompletions_anthropic_bridge.go:254-293 | an assistant turn without text or calls: sent by one, dropped by the other |
| `RequestAgreement.SplitTurnDiffers` | backend/internal/pkg/apicompat/chatcompletions_responses_bridge.go:539-552 | calls right after an assistant text: two messages in one, one message in the other |
| `AnthropicEvents.StreamState.constructor` | backend/internal/pkg/apicompat/anthropic_to_responses_response.go:186-190 | a fresh converter |
| `AnthropicEvents.StreamState.Convert` | backend/internal/pkg/apicompat/anthropic_to_responses_response.go:194-214 | for any event whatsoever the state becomes the next one, the log stays consistent, a strict client accepts it and knows the open item as it is, and what the log tells is exactly what the events received told: response, blocks opened and every non-empty piece, in order |
| `AnthropicEvents.StreamState.HandleBlockStart` | backend/internal/pkg/apicompat/anthropic_to_responses_response.go:271-348 | what each opening does to the open item |
| `AnthropicEvents.StreamState.HandleBlockDelta` | backend/internal/pkg/apicompat/anthropic_to_responses_response.go:350-399 | a non-empty piece is sent once, as it is, for the open item, and collected; an empty one is not sent |
| `AnthropicEvents.StreamState.HandleBlockStop` | backend/internal/pkg/apicompat/anthropic_to_responses_response.go:401-452 | thinking and tool blocks close their item, a text block only its part |
| `AnthropicEvents.StreamState.CloseCurrent` | backend/internal/pkg/apicompat/anthropic_to_responses_response.go:497-545 | the open item moves to the outputs under the next index, with one done event |
| `AnthropicEvents.StreamState.Finalize` | backend/internal/pkg/apicompat/anthropic_to_responses_response.go:218-232 | the terminal event is sent once, after closing what is open |
| `AnthropicEvents.ConsistentAt` | backend/internal/pkg/apicompat/anthropic_to_responses_response.go:497-612 | in every log: numbers are consecutive, every event is about the item after those done, the terminal event lists exactly the items done before it |
| `AnthropicEvents.DonesNumbered` | backend/internal/pkg/apicompat/anthropic_to_responses_response.go:497-545 | the i-th item done has output index i and is the i-th of the list |
| `AnthropicEventLog.PiecesPassedOn` | backend/internal/pkg/apicompat/anthropic_to_responses_response.go:350-399 | read off the log: the text, thinking and JSON of the deltas are, one by one and in order, the non-empty pieces received, and the calls announced are those opened |
| `AnthropicEventLog.FinishedAsSent` | backend/internal/pkg/apicompat/anthropic_to_responses_response.go:401-545 | read off the log: a finished text repeats the deltas since its part was added; an item is done under the id, type, call id and name it was added with, with the parts, thinking or arguments sent since |
| `AnthropicEventLog.IdsDrawnOnce` | backend/internal/pkg/apicompat/anthropic_to_responses_response.go:271-348 | the items added have the ids drawn, each its own |
| `AnthropicEventLaws.QuietErased` | backend/internal/pkg/apicompat/anthropic_to_responses_response.go:194-214 | pings, signatures and other events the converter skips change nothing, wherever they stand |
| `AnthropicEventLaws.EveryItemClosed` | backend/internal/pkg/apicompat/anthropic_to_responses_response.go:271-452 | on well-nested streams of thinking, text, tool and unknown blocks, with any skipped events in between, every item added is closed once and in order, exactly when thinking never starts while a message is open |
| `AnthropicEventLaws.LapsesAre` | backend/internal/pkg/apicompat/anthropic_to_responses_response.go:282-345 | what that condition means, block by block: no thinking block comes after a text block with only text and unknown blocks in between |
| `AnthropicEventLaws.StreamAgainstBatch` | backend/internal/pkg/apicompat/anthropic_to_responses_response.go:18-117 | reasoning of the terminal event agrees with the batch conversion in order; the calls agree in order exactly when none starts with JSON of unknown blocks before it; the text agrees exactly when no text stood before thinking |
| `AnthropicEventLaws.ConvertResponse` | backend/internal/pkg/apicompat/anthropic_to_responses_response.go:18-107 | the batch conversion of a whole response: output list, status, usage, and an id drawn when there is none |
| `AnthropicEventLaws.TerminalEvent` | backend/internal/pkg/apicompat/anthropic_to_responses_response.go:563-612 | the terminal event against the batch conversion of the same response: reasoning agrees in order, the calls exactly when none starts with JSON of unknown blocks, text exactly when none was lost, the id exactly when there is one, the status exactly when both or neither were cut short, the usage exactly when the response counts what message_start and message_delta together deliver |
| `AnthropicEventLaws.TextBeforeThinking` | backend/internal/pkg/apicompat/anthropic_to_responses_response.go:282-292 | a stream of text, then thinking: the text is missing from the terminal event and its item never done |
| `AnthropicEventLaws.OtherRun` | backend/internal/pkg/apicompat/anthropic_to_responses_response.go:401-452 | a block of a type the converter does not know: its end adds an empty part to an open message, and its JSON is collected as if it were a call's |
| `AnthropicEventLaws.ServerToolSpills` | backend/internal/pkg/apicompat/anthropic_to_responses_response.go:350-399 | a server tool with input, then a call: the call's arguments start with the other tool's input |
| `AnthropicEventLaws.BrokenOff` | backend/internal/pkg/apicompat/anthropic_to_responses_response.go:218-232 | a stream that breaks off in a block: what the terminal event keeps of it |
| `AnthropicEventLaws.CutTextIsLost` | backend/internal/pkg/apicompat/anthropic_to_responses_response.go:497-545 | the text of a text block that was cut off is not in the terminal event |
| `Envelope.WriteFrame` | backend/internal/protectedbundle/bundle.go:258-272 | the buffers add up to the frame |
| `Envelope.ParseFrame` | backend/internal/protectedbundle/bundle.go:375-408 | exactly the written frames are accepted, with what was written and nothing left over; every slice is in bounds on every byte string |
| `Envelope.WrittenInjective` | backend/internal/protectedbundle/bundle.go:258-272 | two frames that fit are written alike only if they are the same |
| `Envelope.OpenEnvelope` | backend/internal/protectedbundle/bundle.go:375-444 | a plaintext is handed out exactly when the blob is a frame that is signed, decrypts under its own prefix and has the hash its header names; so its last 64 bytes verify as the signature of all before their length |
| `Envelope.AuthenticDeciphers` | backend/internal/protectedbundle/bundle.go:375-444 | the plaintext is deciphered under a 12-byte nonce and a key from a 32-byte salt, bound to every byte in front of the length of the ciphertext |
| `Envelope.OpenPacked` | backend/internal/protectedbundle/bundle.go:88-278 | opening what was packed gives back header and plaintext, exactly when the ciphertext keeps the limit that only the reader checks |
| `BundleArchive.CleanPathSafe` | backend/internal/protectedbundle/bundle.go:633-667 | an accepted path cannot leave the directory it is joined to, and cleaning it again changes nothing |
| `BundleArchive.CleanPathExactly` | backend/internal/protectedbundle/bundle.go:633-667 | the paths accepted as they are: exactly the safe ones without space around them, none of whose components ends in a dot or space or names a device |
| `BundleArchive.ReadAndVerify` | backend/internal/protectedbundle/bundle.go:446-536 | both loops: accepted exactly when archive, manifest and header agree |
| `BundleArchive.AcceptedExactly` | backend/internal/protectedbundle/bundle.go:446-536 | acceptance entry by entry and file by file: plain readable files within the limits, no two names alike, a manifest of version 1 for this build, and every file listed is there with its size and hash |
| `BundleArchive.PathsAgree` | backend/internal/protectedbundle/bundle.go:504-536 | on acceptance archive paths and manifest paths are equal as sets, with matching sizes and hashes, and nothing else is in the archive but the manifest |
| `BundleArchive.VerifyExtracted` | backend/internal/protectedbundle/bundle.go:538-605 | the check of an installed tree, both loops |
| `BundleArchive.WriteTree` | backend/internal/protectedbundle/bundle.go:344-367 | the tree that extract writes: every file of the manifest with its body, the marker with the manifest, nothing else |
| `BundleArchive.InstalledVerifies` | backend/internal/protectedbundle/bundle.go:344-367 | the tree written from an accepted archive verifies |
| `BundleArchive.VerifiedIsExact` | backend/internal/protectedbundle/bundle.go:538-605 | a verified tree holds the manifest's files and nothing else but the marker |
| `BundleArchive.MarkerMayBeMissing` | backend/internal/protectedbundle/bundle.go:567-605 | a tree without its marker still verifies |
| `BundleInstall.Disk.ReplaceDir` | backend/internal/protectedbundle/bundle.go:716-736 | whatever fails, how the three directories end; with a destination a complete old or new tree is at dest or dest.old after every single call; without one exactly when the first RemoveAll leaves a complete tree at dest.old |
| `BundleInstall.Disk.Extract` | backend/internal/protectedbundle/bundle.go:296-373 | success leaves the tree of the archive, verified, unless one that verifies was there and is not touched; a refused bundle, or one whose files stand in each other's way, changes nothing; a complete tree is there throughout as far as the swap promises; nothing is left in tmp |
| `BundleInstall.ExtractTwice` | backend/internal/protectedbundle/bundle.go:296-373 | a second extraction of the same bundle succeeds and leaves every directory as the first did, without a single change in between |
| `BundleInstall.LeftoverIsRemoved` | backend/internal/protectedbundle/bundle.go:716-736 | a swap without a destination in which no call fails: the complete tree that a crash left at dest.old is removed before the new one is in place |
| `AccountPicker.Picker.AccountHealthy` | backend/internal/engine/gateway/picker.go:71-100 | an account may serve exactly when it has a token and quota, is neither banned nor forbidden, waits for nothing and serves fewer than two requests |
| `AccountPicker.Picker.Pick` | backend/internal/engine/gateway/picker.go:106-151 | nobody is eligible and nothing changes, or an eligible account with minimal load, first in rotation, is taken |
| `AccountPicker.Picker.PickBound` | backend/internal/engine/gateway/picker.go:161-190 | the bound account is taken while it is healthy, in whatever group; otherwise the binding is dropped |
| `AccountPicker.Picker.PickWithSession` | backend/internal/engine/gateway/picker.go:156-200 | the whole call: a healthy bound account, in whatever group, or else the fair choice among the eligible accounts of the group asked for, or nobody when there is none; with a session an error is reported only when the first list cannot be read, also when nobody is picked |
| `AccountPicker.Picker.Release` | backend/internal/engine/gateway/picker.go:203-209 | one slot less, never below zero |
| `AccountPicker.Picker.RecordFailure` | backend/internal/engine/gateway/picker.go:215-235 | 403 or "forbidden" forbids for good and clears the cooldown, 429 or "rate limit" cools down for 30 minutes, any other error with a message for 5 |
| `AccountPicker.PickKeeps` | backend/internal/engine/gateway/picker.go:106-151 | a pick is in the list, eligible and not forbidden, and only its own count grows, by one |
| `AccountPicker.AlwaysBounded` | backend/internal/engine/gateway/picker.go:20-23 | over every interleaving of the locked steps each count stays between 0 and the limit |
| `AccountPicker.ForbiddenNeverPicked` | backend/internal/engine/gateway/picker.go:215-222 | once an account is marked forbidden no later step hands it out |
| `AccountPicker.CooldownRespected` | backend/internal/engine/gateway/picker.go:215-235 | over every interleaving: after a failure an account is not handed out for half an hour if it was a rate limit, for five minutes otherwise, unless a later failure sets another time |
| `AccountPicker.LoadIsOutstanding` | backend/internal/engine/gateway/picker.go:203-209 | an account's count is its picks less its releases, while nobody releases more than was picked |
| `AccountPicker.SessionIgnoresGroup` | backend/internal/engine/gateway/picker.go:161-179 | after a session's first pick its account is handed out again although the next request names another group: a run from the fresh picker |

## Left out

- JSON syntax: values are datatypes, and a value that was read is taken to be read
  again as it was written. A raw JSON text that is passed through unread is a string.
- sanitizeAnthropicToolUseInput and containsAnthropicToolUseBlock are not part of
  this model; the blocks compared are those before sanitising.
- The schemas and descriptions the bridge declares its own proxy tools with are
  stand-ins; no result depends on what they say.
- extractCustomToolCallInput is any function of the arguments; so are
  normalizeToolParameters and strings.ToLower.
- Item ids in the terminal event of the Responses stream are drawn afresh by the
  converter; the model compares everything else.
- Fields that are written and never read (CurrentToolName, toolName), creation
  times, item statuses and the `role` of message items.
- A nil chunk, state, event or request: the converters return at once.
- Integers are unbounded: counters, token counts and the round-robin index are not
  cut to the machine's width. The length fields of the envelope are.
- path.Clean is modelled by the paths it leaves alone, which is all cleanBundlePath
  asks of it.
- The key derivation, AES-GCM, Ed25519, SHA-256 and ZIP decoding are functions with
  their laws; building the ZIP in Pack and reading the payload from disk are not
  modelled.
- File modes, and directories without files in them, which the check of an
  installed tree walks past. Whether a rename may replace an empty directory is a
  choice left open. File systems that fold the case of names.
- Content blocks of unknown types that send pieces of text or thinking.
- The account list and its storage: each reading of the list is a parameter, and
  what RecordFailure stores is not modelled. Choosing a proxy at random and the
  snapshot for the user interface.
- HTTP handlers, event framing, the remaining bridges of the package, the
  protocols' tool_search and web_search servers, and everything outside the three
  packages.
