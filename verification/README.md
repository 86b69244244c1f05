# CodeMind backend: protocol and state machine proofs

A Dafny model of the state machines in the CodeMind Go backend, with proofs about every run of
them. `dafny verify dfyconfig.toml` checks the whole project.

- **Stream conversion.** `StreamProtocol` has chunks, events and a reference client of the
  Anthropic protocol; `StreamConverter` is the OpenAI-to-Anthropic converter on values and
  `StreamState` the same as the mutable object of the program; `StreamBracketing`,
  `StreamMeaning`, `StreamTheorems`, `StreamConservation` and `StreamClient` prove what a
  client receives. `ReverseStream` is the other direction, `StreamForwarding` what it forwards,
  `StreamRoundTrip` the composition of both, and `StreamPipes` the handler's loops. `TokenUsage` has the token accounts.
- **Request conversion.** `RequestFormat`, `RequestConversion` (functions and the program's
  loops), `RequestRoundTrip`, `RequestShape` and `RequestContent`.
- **Admission control.** `BalancerProtocol`, `BackendRefresh` and `LoadBalancer`,
  `ConcurrencyLimit`, `TokenQuota` and `QuotaOvershoot`: interleavings as sequences of atomic
  steps, and the program's objects and loops.
- **Derived structures.** `DepartmentTree`, `RouteCache`, `TrainingBuffer`, `LoginLock`.
- **Framing.** `SseFraming`: the printers and line readers of server-sent events.

How to read the model:

- A chunk's content is a list of items (text, tool calls, finish) in the order the program
  acts on them. The program closes an open text block once before the tool calls of a delta;
  here every tool call does so, which closes nothing after the first.
- `newId` gives the generated id for a tool index, `drawn` the random part of a chunk id, and
  `draw` the random number of the balancer; all theorems hold for all of them.
- Events whose payload is missing or unknown are `Other`, but for a message start, which then
  has neither id, model nor counts.
- JSON values are represented by their canonical text. `canon` is decoding followed by
  encoding; nothing is assumed about it.
- An Anthropic request is described as it looks when encoded, with empty fields left out.
- In the concurrent models an action that is not possible changes nothing, so a theorem about
  all action sequences is one about all interleavings.

Where the code does less than its surroundings suggest, the model follows the code, and the
exact condition is proved: arguments after the finish (`StreamTheorems.ReadConvert`), cache
writes in usage (`TokenUsage.AnthropicRoundTrip`), the counts of a message start, which the
way through the OpenAI format loses (`StreamRoundTrip.RoundTripInvisibleIff` and, for an
ordinary stream, `StreamPipes.StartCountsAreLost`), recorded counts
(`StreamPipes.RecordedIsHeldIff`), parent cycles
(`DepartmentTree.UpdateKeepsForestIff`), leases across a refresh
(`BackendRefresh.RefreshSafeIffUnused`), expiring concurrency keys
(`ConcurrencyLimit.ExpiryHarmlessIffIdle`), the end of a quota period
(`TokenQuota.DisplayAgreesIff`), enabling a provider
(`RouteCache.ReplaceKeepsDisjointIff`), and misplaced tool blocks
(`RequestShape.ToolsConservedIffInPlace`).

## Model

| member | source | states |
|---|---|---|
| `TokenUsage.AnthropicRoundTrip` | backend/pkg/llm/anthropic_types.go:105-123 | Anthropic token counts come back from the OpenAI format unchanged if and only if they are not negative and a cache write is accompanied by a cache hit |
| `TokenUsage.CacheWriteDoesNotSurvive` | backend/pkg/llm/anthropic_types.go:117-121 | every cache write without a cache hit comes back as a cache write and a cache hit of the same size, taken from the uncached tokens |
| `TokenUsage.TotalsConserved` | backend/pkg/llm/adapter.go:866-887 | converting OpenAI usage to Anthropic conserves the prompt total if and only if the cached counts are not negative and fit into the prompt; the completion count always survives |
| `TokenUsage.MergeKeepsLatest` | backend/pkg/llm/adapter.go:889-909 | over any sequence of reports each merged count is the last positive one reported, or the first report's when none was positive |
| `TokenUsage.ToOpenAiAccounts` | backend/pkg/llm/anthropic_types.go:105-123 | for every usage the converted prompt is all input, the total is the sum of all four counts, and cached tokens are listed if and only if there are any |
| `TokenUsage.BothStyles` | backend/pkg/llm/adapter.go:866-887 | both ways of reporting cached tokens, for all numbers: each cached count is the Anthropic one when positive and the OpenAI one otherwise, and input is what is left of the prompt |
| `StreamProtocol.StopReasonRoundTrip` | backend/pkg/llm/adapter.go:1180-1207 | exactly three stop reasons survive the trip in each direction |
| `StreamProtocol.StopReasonTables` | backend/pkg/llm/adapter.go:1180-1207 | the two tables for every reason: which reasons become length, tool_calls, max_tokens and tool_use, and that all others become stop or end_turn |
| `StreamBracketing.RunSeen` | backend/pkg/llm/adapter.go:603-642 | a client that reads the events of any chunk items ends with exactly the announced blocks and their bodies, and sees a protocol violation if and only if a call hits a block that was closed |
| `StreamBracketing.RunValid` | backend/pkg/llm/adapter.go:721-765 | in every reachable state no two blocks serve the same tool index, only the last block can be an open text block, and a tool block is open only once it was announced and holds nothing back after that |
| `StreamMeaning.ItemsAreTold` | backend/pkg/llm/adapter.go:580-639 | for every chunk list the conversion acts on the text, then the tool calls, then the finish reason of each chunk's first choice, in the order of the chunks, whatever id, model and usage they carry, and on nothing else |
| `StreamMeaning.RunTracks` | backend/pkg/llm/adapter.go:767-863 | after any chunk items each block holds what its tool call or text run contributed: known id and name, arguments sent or held back, open or closed |
| `StreamMeaning.HitsClosedIsLate` | backend/pkg/llm/adapter.go:785-791 | a closed block is written to exactly when arguments arrive for a call that an earlier finish reason sealed |
| `StreamTheorems.StopIsFirstFinish` | backend/pkg/llm/adapter.go:629-636 | whatever follows, the stop reason is the image of the first finish reason |
| `StreamTheorems.RunChunksShape` | backend/pkg/llm/adapter.go:580-642 | over any non-empty chunk list there is one message start, first, with the first chunk's id and model; state and events do not depend on how the items are cut into chunks |
| `StreamTheorems.ReadConvert` | backend/pkg/llm/adapter.go:580-677 | for every non-empty chunk list, with what it says and reports read off the chunks, a client of the converted stream completes if and only if no arguments arrive after the finish that sealed their call; then it holds exactly the meaning of the chunks, the image of the first finish reason (end_turn by default) and the merge of all reports, although its start has told it the first report already; only a negative output count is not taken after a start that told zero |
| `StreamTheorems.ReadPrefix` | backend/pkg/llm/adapter.go:580-642 | the same at every point before the end: the client is in mid-message with the blocks so far |
| `StreamTheorems.EmptyUpstream` | backend/pkg/llm/adapter.go:645-677 | an upstream that ends before its first chunk yields a stream without a start, which no client accepts |
| `StreamTheorems.LateArgumentsExample` | backend/pkg/llm/adapter.go:785-791 | two chunks whose conversion breaks the protocol |
| `StreamTheorems.FinalizeOnce` | backend/pkg/llm/adapter.go:645-648 | after the end of the message, whatever chunks still come, a second finalize writes nothing and changes nothing |
| `StreamTheorems.TextConserved` | backend/pkg/llm/adapter.go:605-622 | the text blocks in order are all the text received, nothing lost or repeated |
| `StreamTheorems.OneBlockPerCall` | backend/pkg/llm/adapter.go:755-765 | no two blocks belong to the same tool call |
| `StreamTheorems.NoGapsIffAllSpoken` | backend/pkg/llm/adapter.go:814-825 | the started blocks are 0, 1, ... without a gap if and only if every tool call carried an id, a name or arguments |
| `StreamClient.ClientHoldsText` | backend/pkg/llm/adapter.go:603-622 | the client's text blocks, read in the order of their indices, are the contents of all chunks |
| `StreamClient.ClientHoldsArguments` | backend/pkg/llm/adapter.go:767-797 | each tool block of the client holds exactly the argument fragments that the chunks carry for one tool call number, no two the same number, and every number with arguments has one |
| `StreamClient.ArgumentsConserved` | backend/pkg/llm/adapter.go:767-797 | at every point of every chunk list, late arguments included, the fragments sent for a tool call followed by those held back are exactly the fragments in the chunks |
| `StreamClient.NothingHeldBack` | backend/pkg/llm/adapter.go:814-863 | at the end of every chunk list all fragments in the chunks have been sent |
| `StreamState.MergeAnthropicUsage` | backend/pkg/llm/adapter.go:889-909 | the in-place update refines the merge on values, and never touches the report |
| `StreamState.SortToolBlockIndices` | backend/pkg/llm/adapter.go:738-746 | the exchange sort orders the indices and permutes them |
| `StreamState.OpenAIToAnthropicState.CloseOpenToolBlocks` | backend/pkg/llm/adapter.go:721-736 | for every iteration order of the map the stops go out in index order, once for each open block |
| `StreamState.OpenAIToAnthropicState.LateStartPendingToolBlocks` | backend/pkg/llm/adapter.go:814-863 | for every iteration order of the map the late starts go out in index order with everything held back |
| `StreamState.OpenAIToAnthropicState.ProcessOpenAIToolCallDeltas` | backend/pkg/llm/adapter.go:767-797 | the loop over the tool calls of a delta on the mutable tool blocks does to the blocks, and writes, what the machine of the theorems does |
| `StreamState.OpenAIToAnthropicState.OpenAIChunkToAnthropicEvents` | backend/pkg/llm/adapter.go:580-642 | the mutable converter refines the machine on values for every chunk |
| `StreamState.OpenAIToAnthropicState.OpenAIStreamFinalize` | backend/pkg/llm/adapter.go:645-677 | the mutable converter refines the end of the message |
| `ReverseStream.OneChunkId` | backend/pkg/llm/adapter.go:1027-1035 | all chunks of a stream carry one id, drawn at the first event, and the requested model |
| `StreamForwarding.StateIsHistory` | backend/pkg/llm/adapter.go:1046-1112 | after all events of any kind the state is the block last started and not stopped, and the number of tool blocks stopped |
| `StreamForwarding.AllForwarded` | backend/pkg/llm/adapter.go:1027-1132 | for all events up to the end of the message the chunks carry exactly the tool calls and pieces of tool input, numbered by tool block, the images of the stop reasons, and an account of each usage told with one: total the sum of the four counts |
| `StreamRoundTrip.SequentialIsAccepted` | backend/pkg/llm/adapter.go:1027-1132 | the streams considered for the round trip are ordinary ones: a client accepts each of them and holds its blocks |
| `StreamRoundTrip.RoundTrip` | backend/pkg/llm/adapter.go:1027-1132 | for every sequential Anthropic stream, converting it event by event to chunks and the chunks back gives a complete stream whose blocks are the original ones without thinking and empty text and with adjacent texts merged, whose stop reason is its image and whose counts are the image of the message delta's; it opens without counts, whatever the message start told |
| `StreamRoundTrip.BlocksPreservedIffNamed` | backend/pkg/llm/adapter.go:814-834 | the blocks are the original ones if and only if every tool block has an id and a name |
| `StreamRoundTrip.NormalKeeps` | backend/pkg/llm/adapter.go:1054-1108 | the normal form keeps all text and all tool blocks in order |
| `StreamRoundTrip.NormalIsNormal` | backend/pkg/llm/adapter.go:605-622 | in the normal form no text block is empty and no two are adjacent |
| `StreamRoundTrip.ReadDirect` | backend/pkg/llm/adapter.go:1027-1132 | what a client receives of a sequential stream itself, unconverted: its blocks, its stop reason, and the counts of the message start updated by those of the message delta; a stream that leaves a block open is refused |
| `StreamRoundTrip.RoundTripInvisibleIff` | backend/pkg/llm/adapter.go:580-1132 | the client behind both conversions holds the blocks, stop reason and token counts of a direct client if and only if the stream closes its blocks, has only plain blocks with named tools, ends with one of the three common reasons, and its message delta tells every count that its message start told, in a form that survives the OpenAI format |
| `TokenUsage.SameCountsIffRetold` | backend/pkg/llm/adapter.go:866-909 | a reader told counts at the start and at the end, and one told nothing and then what the OpenAI format leaves of the end, hold the same if and only if the end repeats every count of the start and survives; after a cache write without a hit, only if the start happens to tell what comes back |
| `StreamPipes.StartCountsAreLost` | backend/pkg/llm/adapter.go:1037-1043 | an ordinary stream with 25 input tokens in its message start and 15 output tokens in its message delta: the record and a direct client hold both, the client behind both conversions no input tokens |
| `StreamPipes.RecordedIsHeldIff` | backend/internal/handler/llm_proxy.go:772-796 | the recorded counts are those of the message start with the last positive output count, and what a direct client holds if and only if the message delta tells no other new count; without counts in the start they are the message delta's, and what a client holds if none is negative |
| `StreamPipes.PipeOpenAIStreamToAnthropic` | backend/internal/handler/llm_proxy.go:805-860 | the driver loop writes the whole conversion after a clean end and the part so far after a read error; the recorded content is all text, the reason the last one, the usage an account of the merge of all reports after a clean end and the last report otherwise |
| `StreamPipes.DecodedAppend` | backend/internal/handler/llm_proxy.go:815-822 | lines that cannot be decoded are passed over one by one |
| `StreamPipes.LastFinishIs` | backend/internal/handler/llm_proxy.go:826-838 | the recorded reason is that of the last chunk whose first choice has one |
| `StreamPipes.LastUsageIs` | backend/internal/handler/llm_proxy.go:839-841 | the usage of the record, when there is no clean end, is that of the last chunk that carries one |
| `StreamPipes.AnthropicToOpenAIState.AnthropicEventToOpenAIChunk` | backend/pkg/llm/adapter.go:1027-1132 | the mutable reverse converter refines the machine of the round trip |
| `StreamPipes.LinesCarryTheChunks` | backend/pkg/llm/adapter.go:1027-1132 | a reader of the written lines up to the first end marker takes exactly the chunks of the round trip theorem |
| `StreamPipes.SaidIsForwarded` | backend/internal/handler/llm_proxy.go:782-785 | for all events of a message the recorded content is exactly the text of the forwarded chunks |
| `StreamPipes.PipeAnthropicStreamToOpenAI` | backend/internal/handler/llm_proxy.go:744-802 | the driver loop writes one line for each event that has one and an end marker after a clean end; the recorded usage is an account of the counts, its patched total the sum of all four |
| `StreamPipes.CountedFrom` | backend/internal/handler/llm_proxy.go:772-796 | for events of any shape: the counts are those of the last message start that has some, or else of the first message delta that has some, with the last positive output count after it |
| `StreamPipes.ReasonIsLast` | backend/internal/handler/llm_proxy.go:786-789 | the recorded reason is that of the last message delta that has one |
| `RequestFormat.JoinBlank` | backend/pkg/llm/adapter.go:250-270 | a join of texts is blank only if all of them are |
| `RequestFormat.ImageOf` | backend/pkg/llm/adapter.go:971-998 | a data address is split so that it can be put together again; only non-empty parts are accepted |
| `RequestConversion.OpenAIToAnthropic` | backend/pkg/llm/adapter.go:93-162 | the nested loop on one index ends, and computes the conversion on values; only lists without any other message than system ones are refused |
| `RequestConversion.CollectToolRun` | backend/pkg/llm/adapter.go:103-119 | the inner loop consumes the maximal run of tool messages into one message |
| `RequestConversion.ConvertContentPartsToAnthropic` | backend/pkg/llm/adapter.go:946-969 | the loop over the parts refines the conversion on values |
| `RequestConversion.AnthropicToOpenAI` | backend/pkg/llm/adapter.go:209-246 | the loops over system blocks and messages refine the conversion on values |
| `RequestConversion.ConvertAnthropicMessageToOpenAI` | backend/pkg/llm/adapter.go:275-409 | the loops over the blocks of a message refine the conversion on values |
| `RequestConversion.CollapseSystemMessagesToHead` | backend/pkg/llm/adapter.go:250-273 | the loop refines the collapse on values |
| `RequestRoundTrip.RoundTripActsByMessage` | backend/pkg/llm/adapter.go:93-151 | from OpenAI to Anthropic and back every message is changed on its own, although runs of tool messages are merged in between; the system messages become one at the head |
| `RequestRoundTrip.RefusedIffOnlySystem` | backend/pkg/llm/adapter.go:153-159 | a request is refused if and only if it holds nothing but system and developer messages |
| `RequestRoundTrip.MessageUnchanged` | backend/pkg/llm/adapter.go:275-409 | a message comes back as itself if and only if it is in normal form |
| `RequestRoundTrip.CallUnchanged` | backend/pkg/llm/adapter.go:307-330 | a tool call comes back as itself if and only if it has no index, type function, a name and canonical arguments other than null |
| `RequestRoundTrip.UserUnchanged` | backend/pkg/llm/adapter.go:912-969 | a user message comes back as itself if and only if its content is a string, or non-empty texts followed by at least one inline image |
| `RequestRoundTrip.RoundTripIffNormal` | backend/pkg/llm/adapter.go:46-273 | the round trip of a message list is the identity if and only if the list has at most one system message, at the head, a string and not blank, then at least one other message, all in normal form |
| `RequestShape.CollapseIdempotent` | backend/pkg/llm/adapter.go:250-273 | collapsing the system messages a second time changes nothing, for every message list |
| `RequestShape.CollapseOfOne` | backend/pkg/llm/adapter.go:250-273 | a system message that is a string goes to the head unless it is blank, and every other message stays; with the append lemma beside it this is the collapse of every list |
| `RequestShape.SystemOnlyAtHead` | backend/pkg/llm/adapter.go:240-273 | every converted request has at most one system message, at the head, a string that is not blank |
| `RequestShape.OrderKept` | backend/pkg/llm/adapter.go:233-246 | all other messages keep their order |
| `RequestShape.ToolsConserved` | backend/pkg/llm/adapter.go:295-365 | every tool use of an assistant message and every tool result of another one comes out exactly once, in the order of the request, with its id, name, arguments or text; a message of role tool without blocks comes out as a result without id |
| `RequestShape.ToolsConservedIffInPlace` | backend/pkg/llm/adapter.go:295-380 | all tool blocks of a request come out one for one, in order, if and only if every tool use stands in an assistant message and every tool result in another one (a message of role tool without blocks being a result) |
| `RequestShape.MisplacedToolsVanish` | backend/pkg/llm/adapter.go:295-380 | any tool use in a user message and any tool result in an assistant message: nothing comes out |
| `RequestContent.PromptConserved` | backend/pkg/llm/adapter.go:213-273 | for every Anthropic request the system message is the join of all texts of the system prompt, unless all are blank, and of the system messages among the messages that are not blank, at the head; without such a text there is none |
| `RequestContent.TextConserved` | backend/pkg/llm/adapter.go:275-409 | for every Anthropic request, message by message and in order, all text of the text blocks and all data images come out under the role of the message |
| `RequestContent.EverythingConserved` | backend/pkg/llm/adapter.go:93-162 | for every list of chat messages that is not refused texts, images, tool uses and tool results come out in the order they went in and nothing else, and the texts of system and developer messages joined with blank lines are the prompt |
| `RequestContent.PlainTextSays` | backend/pkg/llm/types.go:53-85 | the text of a content in parts is the text of all its text parts |
| `RequestContent.JoinAppend` | backend/pkg/llm/adapter.go:153-155 | a join has the separator between neighbours and nowhere else |
| `RequestContent.ImageAddress` | backend/pkg/llm/adapter.go:971-987 | a data address becomes the image of its first possible reading, and only with both parts |
| `RequestContent.WebAddress` | backend/pkg/llm/adapter.go:988-998 | exactly web addresses are passed on as links |
| `DepartmentTree.BuildTree` | backend/internal/service/department.go:184-217 | the recursion from the roots ends for every table with unique ids, cycles and dangling parents included, and lists under each department exactly the rows under it, in table order |
| `DepartmentTree.ListTree` | backend/internal/service/department.go:169-182 | called for the roots, which needs nothing but unique ids |
| `DepartmentTree.UnderInOrder` | backend/internal/service/department.go:184-217 | the departments under another one stand in the order of the table |
| `DepartmentTree.TreeHoldsTheRooted` | backend/internal/service/department.go:184-217 | the tree holds a department if and only if its parent chain reaches a root, and no department twice |
| `DepartmentTree.MissingIffDanglingOrCyclic` | backend/internal/service/department.go:184-217 | a department is missing if and only if its parents lead to a row that does not exist or run in a cycle |
| `DepartmentTree.RootedIffTop` | backend/internal/service/department.go:184-217 | a walk of as many steps as there are departments decides whether one is shown |
| `DepartmentTree.PathsAgree` | backend/internal/service/department.go:184-217 | a department has at most one path from a root |
| `DepartmentTree.DepartmentStore.Create` | backend/internal/service/department.go:38-78 | creation is refused exactly for a taken name or an unknown parent, and then changes nothing |
| `DepartmentTree.DepartmentStore.Update` | backend/internal/service/department.go:90-133 | an update is refused exactly for an unknown department, a taken name, itself as parent or an unknown parent; other rows stay |
| `DepartmentTree.MayUpdateMeans` | backend/internal/service/department.go:90-127 | what an update asks, read off the table: the department and the new parent exist, the parent is another one, and no other department has the name |
| `DepartmentTree.FieldsReplaced` | backend/internal/service/department.go:98-127 | only the row with the id changes, and of it only the fields given |
| `DepartmentTree.DepartmentStore.Delete` | backend/internal/service/department.go:136-166 | deletion is refused exactly for an unknown department, one with users or one with children; one row goes |
| `DepartmentTree.UpdateKeepsForestIff` | backend/internal/service/department.go:108-113 | a new parent keeps every department in the tree if and only if it does not stand below the moved department; only the first step of this is checked |
| `DepartmentTree.MissingAfterCycle` | backend/internal/service/department.go:108-113 | in every table, after a department was moved below itself, exactly it and whatever stood below it are missing, beside what was missing before |
| `DepartmentTree.CycleExample` | backend/internal/service/department.go:108-113 | an update that the checks allow, and after which nothing is shown |
| `DepartmentTree.CreateKeepsForest` | backend/internal/service/department.go:47-52 | the check of a creation is enough to keep every department in the tree |
| `DepartmentTree.DeleteKeepsForest` | backend/internal/service/department.go:150-156 | the check of a deletion is enough to keep every other department in the tree |
| `BalancerProtocol.CountersAreLeases` | backend/pkg/llm/balancer.go:68-91 | in every interleaving the counter of every node object, replaced ones included, is the number of requests that hold it; the repair at zero is never needed |
| `BalancerProtocol.CloseTwice` | backend/pkg/llm/balancer.go:374-384 | closing a stream again releases nothing more |
| `BalancerProtocol.OnlyFirstCloseCounts` | backend/pkg/llm/balancer.go:374-384 | after a stream was closed, closing it any number of times at any point of any run makes no difference to anything |
| `BalancerProtocol.ActiveBound` | backend/pkg/llm/balancer.go:154-168 | when at most k requests at a time stand between finding a node suitable and taking it, its counter never exceeds the limit less one plus k |
| `BalancerProtocol.BoundIsTight` | backend/pkg/llm/balancer.go:68-91 | for every limit and every k some interleaving reaches that bound |
| `BalancerProtocol.FoundSuitable` | backend/pkg/llm/balancer.go:154-168 | in every interleaving a request considers or takes only nodes that were listed, healthy and below their limit when it looked at them |
| `BalancerProtocol.UnhealthyIsNotTaken` | backend/pkg/llm/balancer.go:154-168 | after a node was marked unhealthy no request finds it, whatever happens, until it is marked healthy again |
| `BackendRefresh.RefreshSafeIffUnused` | backend/pkg/llm/balancer.go:50-91 | after a refresh that brings one new object for a backend, every continuation up to the next refresh keeps the backend, counted over all its objects, within the bound of one object if and only if no request holds, or has already found suitable, one of the old objects |
| `BackendRefresh.RefreshForgetsLeases` | backend/pkg/llm/balancer.go:50-64 | a run of this kind: a backend that admits one request serves two, without any two deciding at the same time |
| `BalancerProtocol.StepExact` | backend/pkg/llm/balancer.go:366-370 | every single step moves a node's leases and its counter together |
| `LoadBalancer.Balancer.SelectProvider` | backend/pkg/llm/balancer.go:68-91 | run alone, a selection fails only when no node suits, follows the user's affinity while that node has room and otherwise the weighted draw among the suitable nodes, and takes one connection of one suitable node |
| `LoadBalancer.Balancer.FilterByModel` | backend/pkg/llm/balancer.go:154-168 | the loop keeps exactly the healthy nodes with room that match the model, in order |
| `LoadBalancer.SuitableSnoc` | backend/pkg/llm/balancer.go:154-168 | each node is looked at by itself and kept at most once |
| `LoadBalancer.Balancer.GetAffinityNode` | backend/pkg/llm/balancer.go:170-193 | the remembered node is returned if and only if it is a candidate with room |
| `LoadBalancer.Balancer.UpdateNodes` | backend/pkg/llm/balancer.go:50-64 | new nodes become healthy and keep their counters; the list is replaced |
| `LoadBalancer.LBNode.Release` | backend/pkg/llm/balancer.go:366-370 | the counter goes down by one and not below zero |
| `LoadBalancer.ReleaseOnCloseReader.Close` | backend/pkg/llm/balancer.go:380-384 | only the first close releases |
| `LoadBalancer.WeightedSelect` | backend/pkg/llm/balancer.go:205-242 | the subtraction loop picks the node on whose stretch of the summed scores the draw falls; with one candidate the shortcut picks the same |
| `LoadBalancer.ShareOfDraws` | backend/pkg/llm/balancer.go:232-241 | every candidate can be drawn: the draws that fall on it are an interval whose length is its share of the scores |
| `LoadBalancer.FallsOnOne` | backend/pkg/llm/balancer.go:232-241 | a draw falls on one candidate only |
| `LoadBalancer.BusierScoresLess` | backend/pkg/llm/balancer.go:219-227 | a busier node never scores higher; scores lie between 1 and the weight, and not below 30 per cent of it |
| `LoadBalancer.ScoreExtremes` | backend/pkg/llm/balancer.go:219-227 | an idle node scores its weight, a full one 30 per cent of it, never less than one |
| `LoadBalancer.ScoreInProportion` | backend/pkg/llm/balancer.go:219-227 | in between the score falls in proportion to the connections in use |
| `ConcurrencyLimit.SlotsBounded` | backend/internal/service/llm_proxy.go:115-157 | in every interleaving, as long as the key does not expire under a request, the counter is the granted slots plus the rollbacks to come; granted slots never exceed the limit, the counter is never negative and returns to zero |
| `ConcurrencyLimit.DeniedIffFull` | backend/internal/service/llm_proxy.go:134-143 | a request is turned away if and only if granted slots and rollbacks on their way have reached its limit |
| `ConcurrencyLimit.DeniedWithoutUsers` | backend/internal/service/llm_proxy.go:139-142 | a rollback on its way can turn away a request although no slot is in use |
| `ConcurrencyLimit.ExpiryHarmlessIffIdle` | backend/internal/service/llm_proxy.go:22-26 | whatever follows, an expiry of the key never lets the granted slots exceed the limit if and only if no slot is in use and no rollback is on its way |
| `ConcurrencyLimit.ExpiryGivesOutAgain` | backend/internal/service/llm_proxy.go:134-157 | otherwise some continuation grants every such slot and rollback once more on top of the limit |
| `ConcurrencyLimit.ExpiryOvercommits` | backend/internal/service/llm_proxy.go:22-26 | a run of this kind: a key that expires under a running request gives its slot out again |
| `ConcurrencyLimit.EffectiveLimit` | backend/internal/service/llm_proxy.go:116-131 | the loop finds the largest positive limit, and 5 when there is none |
| `ConcurrencyLimit.SlotCounter.AcquireConcurrency` | backend/internal/service/llm_proxy.go:115-144 | run alone, a slot is granted if and only if the counter is below the largest limit, and otherwise nothing changes |
| `ConcurrencyLimit.SlotCounter.ReleaseConcurrency` | backend/internal/service/llm_proxy.go:147-157 | the counter goes down by one and not below zero |
| `TokenQuota.CheckMeansUsed` | backend/internal/service/limit.go:153-182 | after any history of records, checks and evictions on a clock that does not run backwards, a check says exceeded if and only if the tokens recorded since the current window opened reach the limit |
| `TokenQuota.OnlyRecordsCount` | backend/internal/service/limit.go:153-182 | checks, although they delete keys, and evictions by the store never change a later verdict |
| `TokenQuota.OpenerMeaning` | backend/internal/service/limit.go:208-225 | the window is opened by the first record after the end of the one before, starts with the second of that record, lasts the configured hours or those of the label, and holds all later records |
| `TokenQuota.ExceededUntil` | backend/internal/model/ratelimit.go:55-75 | after any history, with the hours of the rule in numbers: a check says exceeded if and only if the window of the opening record is not over and its tokens reach the limit |
| `TokenQuota.RefusedUntil` | backend/internal/model/ratelimit.go:55-75 | a record that reaches the limit keeps the rule refusing for exactly the configured hours, or 168, 720 or 24 by the label |
| `TokenQuota.EvictedIsOver` | backend/internal/service/limit.go:204-205 | the store evicts a cycle only after its end, although the stored start is rounded down to seconds |
| `TokenQuota.DisplayAgreesIff` | backend/internal/service/limit.go:257-290 | the shown state and the check differ if and only if it is the very instant the period ends and the limit was reached |
| `TokenQuota.DisplayDisagreesExample` | backend/internal/service/limit.go:257-290 | a daily limit used up at once: at the end of the day the display shows an empty cycle and the check still refuses |
| `TokenQuota.CycleStore.IsRuleExceeded` | backend/internal/service/limit.go:153-182 | reading and deleting the keys refines the check on values |
| `TokenQuota.CycleStore.CheckAllQuotas` | backend/internal/service/limit.go:128-150 | the loop reports enough quota if and only if no rule with a limit is exceeded |
| `TokenQuota.CycleStore.RecordRuleUsage` | backend/internal/service/limit.go:201-228 | writing the keys refines the record on values |
| `TokenQuota.CycleStore.RecordCycleUsage` | backend/internal/service/limit.go:185-198 | the loop records in the cycle of every rule with a limit and touches no other |
| `TokenQuota.CycleStore.GetLimitProgress` | backend/internal/service/limit.go:231-297 | an item is exceeded exactly when nothing remains and the percentage is 100; before that used and remaining tokens are the limit and the percentage is the used part in whole per cent; any item exceeded is reported |
| `QuotaOvershoot.OvershootBound` | backend/internal/service/limit.go:128-228 | in every interleaving and across all cycles, with at most k requests between check and record that use at most t tokens each, the usage never exceeds the limit less one plus k times t |
| `QuotaOvershoot.OvershootIsTight` | backend/internal/service/limit.go:128-228 | for all limits, k and t some run reaches that bound |
| `RouteCache.ProviderService.ResolveThirdPartyModel` | backend/internal/service/third_party_provider.go:313-368 | a model resolves if and only if an active provider of the user lists it, and then to id, name, both addresses, key, format and scheme of such a provider as they are now, cached or not |
| `RouteCache.ProviderService.CreateProvider` | backend/internal/service/third_party_provider.go:156-199 | creation succeeds exactly when addresses, name and models are free of conflict; a refusal changes neither table nor cache; the cache stays coherent |
| `RouteCache.ProviderService.UpdateProvider` | backend/internal/service/third_party_provider.go:207-268 | an update succeeds exactly for a provider of the user and a change that fits; a refusal changes nothing; the cache stays coherent |
| `RouteCache.ChangeFitsMeans` | backend/internal/service/third_party_provider.go:221-265 | what an update asks, read off the table: no other provider of the user has the name, no other active one a model, the key can be encrypted and the addresses of the format are there |
| `RouteCache.PatchedFields` | backend/internal/service/third_party_provider.go:221-259 | each field the request carries is replaced by what it carries, an empty key and everything else stays |
| `RouteCache.CreateKeepsNamesApartIff` | backend/internal/service/third_party_provider.go:163-167 | the name check of a creation is exactly what keeps a user's names apart |
| `RouteCache.ReplaceKeepsNamesApartIff` | backend/internal/service/third_party_provider.go:221-227 | so is the name check of an update |
| `RouteCache.ProviderService.UpdateProviderStatus` | backend/internal/service/third_party_provider.go:271-286 | only the status of one provider changes; the cache stays coherent |
| `RouteCache.ProviderService.DeleteProvider` | backend/internal/service/third_party_provider.go:289-304 | one provider goes; the cache stays coherent |
| `RouteCache.ProviderService.Expire` | backend/internal/service/third_party_provider.go:363-365 | expiry of an entry keeps the cache coherent |
| `RouteCache.ProviderService.CheckModelConflict` | backend/internal/service/third_party_provider.go:402-426 | the loops find a conflict if and only if another active provider lists one of the models |
| `RouteCache.FillMeaning` | backend/internal/service/third_party_provider.go:344-361 | the filled map routes exactly the listed models, each to a provider that lists it |
| `RouteCache.FilledIsCurrent` | backend/internal/service/third_party_provider.go:338-366 | an entry filled from the active providers in any order agrees with the table |
| `RouteCache.DroppedIsCoherent` | backend/internal/service/third_party_provider.go:473-477 | dropping a user's entry makes up for any change of that user's providers |
| `RouteCache.CreateKeepsDisjoint` | backend/internal/service/third_party_provider.go:168-170 | creation keeps the models of the active providers apart |
| `RouteCache.ReplaceKeepsDisjointIff` | backend/internal/service/third_party_provider.go:207-286 | a changed provider keeps the models apart if and only if it is not active or offers nothing that another active one offers; enabling is not checked |
| `RouteCache.EnablingOverlaps` | backend/internal/service/third_party_provider.go:271-286 | create, disable, create for the same model, enable: every call succeeds and both providers offer the model |
| `RouteCache.OrderIrrelevant` | backend/internal/service/third_party_provider.go:344-361 | when the models are apart, the routes do not depend on the order of the listing |
| `SseFraming.SseSession.SendEvent` | backend/pkg/mcp/transport.go:47-54 | after any number of calls the output is the printed list of all pairs sent |
| `SseFraming.ReadEvents` | backend/pkg/mcp/transport.go:253-281 | the scanner loop delivers exactly the events of the text |
| `SseFraming.ReceivedOfLines` | backend/pkg/mcp/transport.go:246-281 | every line of the text is read, a last one without line feed included |
| `SseFraming.BlockDelivered` | backend/pkg/mcp/transport.go:253-281 | any lines up to a blank one deliver their last event name and last data as one event, if there are data, whatever other lines stand between; a name without data is kept for what follows |
| `SseFraming.ReadPrintIff` | backend/pkg/mcp/transport.go:253-281 | printing a list of pairs and reading it gives the list back if and only if no part holds a line feed or ends in a carriage return and every pair has data |
| `SseFraming.ReceivedPrinted` | backend/pkg/mcp/transport.go:253-281 | for pairs without line feeds: each arrives once with one trailing carriage return dropped, those left without data are skipped, and no event name is carried over to another pair |
| `SseFraming.AnthropicStreamReader.ReadEvent` | backend/pkg/llm/anthropic_stream.go:28-73 | each call returns the next frame of the text, its name, data and raw lines, until the end or the message stop |
| `SseFraming.BlockIsFrame` | backend/pkg/llm/anthropic_stream.go:28-73 | any lines up to a blank one are one frame with all of them, comments and unknown fields included, if it has a name and data, and nothing is read after the message stop |
| `SseFraming.ValueIsLast` | backend/pkg/llm/anthropic_stream.go:58-68 | name and data of a frame are those of its last such lines |
| `SseFraming.FramesOfText` | backend/pkg/llm/anthropic_stream.go:37-46 | only complete lines are looked at |
| `SseFraming.PipeAnthropicStream` | backend/internal/handler/llm_proxy.go:694-715 | the loop writes the pass-through of the text |
| `SseFraming.NoBlankEnd` | backend/internal/handler/llm_proxy.go:712-714 | the raw lines of a frame never end with a blank line, so the separator is always written |
| `SseFraming.PassThroughIsFaithful` | backend/internal/handler/llm_proxy.go:694-715 | for every text the pass-through reads as the same frames, line by line, and passing it through again changes nothing |
| `SseFraming.PrintedThroughReader` | backend/pkg/llm/anthropic_stream.go:28-92 | for printed pairs with name and data the reader recovers the pairs up to the message stop, and the pass-through reproduces their text byte for byte |
| `SseFraming.ReaderUndoesPrintIff` | backend/pkg/llm/anthropic_stream.go:28-92 | printing and this reader undo each other if and only if every pair has a name and data without line feeds or trailing line ends, and nothing follows a stop |
| `TrainingBuffer.RunConserved` | backend/internal/service/training_buffer.go:56-130 | in every interleaving attempted writes, batch and queue are the accepted records in order; the batch stays below its size while the consumer runs |
| `TrainingBuffer.AttemptsOnlyGrow` | backend/internal/service/training_buffer.go:82-104 | attempts are never taken back, and each record is attempted at its own turn |
| `TrainingBuffer.ShutdownCompletes` | backend/internal/service/training_buffer.go:119-129 | at the step that stops the consumer everything accepted so far has been attempted once; later additions stay in the queue |
| `TrainingBuffer.TrainingDataBuffer.Add` | backend/internal/service/training_buffer.go:56-65 | a record is queued if and only if the queue is not full |
| `TrainingBuffer.TrainingDataBuffer.FlushBatch` | backend/internal/service/training_buffer.go:81-104 | the whole batch is stored, or after a failure exactly the records whose own write succeeds, in order |
| `TrainingBuffer.SavedAppend` | backend/internal/service/training_buffer.go:92-100 | after a failed batch every record is tried by itself, whatever became of the others |
| `TrainingBuffer.TrainingDataBuffer.OnRecord` | backend/internal/service/training_buffer.go:108-113 | a received record joins the batch, which is written when it is full |
| `TrainingBuffer.TrainingDataBuffer.Consume` | backend/internal/service/training_buffer.go:106-130 | under every schedule of arms, additions and closing the consumer loop refines the protocol: nothing is stored twice or without an attempt, everything attempted is stored when batch writes succeed, and after a stop attempts and queue are what was accepted |
| `TrainingBuffer.TrainingDataBuffer.OnStop` | backend/internal/service/training_buffer.go:119-129 | the drain loop ends and attempts everything queued |
| `LoginLock.CalculateLockDuration` | backend/internal/service/auth.go:166-184 | the doubling loop computes five minutes times two to the failures beyond the fifth, at most a day |
| `LoginLock.LockTimeGrows` | backend/internal/service/auth.go:166-184 | the lock time never shrinks with further failures, and is a full day exactly from the fourteenth on |
| `LoginLock.AccountStore.LoginUser` | backend/internal/service/auth.go:69-106 | locked accounts are refused unseen, a wrong password counts and locks from the fifth on, a disabled account changes nothing, a login clears; with the outcome of each |
| `LoginLock.CountIsStreak` | backend/internal/service/auth.go:69-106 | in every run the failure count is the number of wrong passwords that were looked at since the last login or unlocking, and without failures there is no lock |
| `LoginLock.RunSpaced` | backend/internal/service/auth.go:69-162 | in every run the lock ends exactly the lock time after the last counted failure, and failures from the fifth on are at least the lock time apart |
| `LoginLock.GuessingTakes` | backend/internal/service/auth.go:69-162 | reaching failure n takes at least the sum of the lock times before it, whatever clearing happened earlier |
| `LoginLock.GuessingBoundIsTight` | backend/internal/service/auth.go:69-162 | for every n a run reaches it in exactly that time |
| `LoginLock.TotalLockGrows` | backend/internal/service/auth.go:22-30 | twelve failures cost 1275 minutes of waiting before the thirteenth, and each one after the fourteenth a full day |

## Left out

- JSON, HTTP, Redis, SQL and clocks: payloads are data, store commands are atomic steps, times and random draws are inputs; a failing store or database is not modelled, so the paths that let a request pass when the store is down are not either.
- The text of the converted events is not modelled; the message id and model are written into it without JSON escaping.
- Array content in streaming deltas, the fields of chat messages beyond role, content, tool calls and tool call id, and content that is neither null, a string nor a list of objects.
- The request fields beside the messages (limits, stop sequences, tools, tool choice, stream options): each is copied or renamed on its own.
- The conversion of whole responses: the same block and call conversions without state.
- The id and model recorded in stream results, and the block id and name that the reverse converter keeps and never reads.
- The responses stream and the OpenAI pass-through: loops without conversion.
- StreamRoundTrip.RoundTrip: covers Anthropic to OpenAI and back; the other order does not compose, because several tool blocks may be open at once.
- RequestRoundTrip.RoundTripIffNormal: goes through the encoded form of the Anthropic request; handing the program's own structures over without encoding is not a path the program has.
- RequestConversion.OpenAIToAnthropic: copies part lists and blocks as values; aliasing of the caller's lists is not captured.
- DepartmentTree.BuildTree: carries the ids on the way down as a ghost argument; managers and descriptions are left out.
- DepartmentTree.DepartmentStore.Update: the refusal of an unknown parent is that of the foreign key in deploy/docker/postgres/init.sql; managers are left out.
- LoadBalancer.WeightedSelect: uses real numbers, so rounding at the last node is not captured; it asks for positive limits, which every filtered node has as long as counters are not negative.
- BalancerProtocol.ActiveBound: pattern matching and affinity are choices of the interleaving; affinity keys do not expire.
- BalancerProtocol.CountersAreLeases: lets each selected wrapper make one call, as every handler in backend/internal/handler/llm_proxy.go does; a wrapper used twice would release twice, and is not modelled.
- LoadBalancer.Balancer.SelectProvider: is proved for a run without interference; interleavings are the subject of BalancerProtocol.
- ConcurrencyLimit.SlotsBounded: lets the key expire only while no slot or rollback is outstanding; ConcurrencyLimit.ExpiryHarmlessIffIdle shows that this is exactly what it takes.
- QuotaOvershoot.OvershootBound: takes the update of the start and usage keys of one rule as one step.
- TokenQuota.CycleStore.CheckAllQuotas: sees one instant for all rules of a request.
- RouteCache.ProviderService.ResolveThirdPartyModel: operations run one after another; races inside one cache fill are not modelled.
- SseFraming.ReadEvents: has no limit on the length of a line; the flushing of writers is left out.
- TrainingBuffer.TrainingDataBuffer.OnStop: is the drain without additions meanwhile; TrainingBuffer.ShutdownCompletes has them.
- LoginLock.RunSpaced: logins of one account run one after another; two at once may both pass the lock check.
- Model name patterns, password hashing, encryption and identifiers are library calls; they are inputs where they matter.
- The remaining services (users, keys, documents, statistics, announcements, monitoring) and the frontend: only easy members.
