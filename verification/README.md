# CacheInvariant: a verification model

CacheInvariant drives a two-slot inference server through a fixed schedule, recomputes oracles on what it observed,
and unpacks or converts pinned binary inputs. The modules here model that behaviour in Dafny and prove what it
promises, for all inputs, all runs and all thread schedules.

## What is modelled

- **Extraction** (`MemberPaths`, `FileTrees`, `AliasChains`, `TarExtraction`). Regular members are written first;
  deferred symlinks are turned into copies by passes over the unresolved ones. The file tree is an object that the
  methods change. Success is characterised exactly, and so is the resulting tree. The checks of a member path for
  empty and dot components never fire, because a pure POSIX path has none; the model keeps them.
- **The dual-stream protocol** (`DualStream`). Two workers and a controller are a transition system in which every
  wait may time out and every call may fail. A run is any interleaving of their steps. The architecture notes say that
  a nonterminal event is required from both workers before either disconnects. The code requires a well-formed event
  there; that it is nonterminal is reported, and the oracle demands it later. The model follows the code, and
  `SomeRunReturns` shows a run that disconnects after a terminal first event.
- **The cut-off stream** (`SingleStream`). The caller and the thread that samples the slot are a second transition
  system, with the readiness check, the idle poll and every fault. The flag for activity does not say when the slot
  was active: `ActiveBeforeOpening` and `ActiveAfterClosing` show runs that set it outside the stream. A close that
  raises skips telling the sampler to stop, and no other failure does.
- **Processes** (`BoundedCapture`, `ProcessTree`, `ServerLifecycle`). The operating system is an object that may let
  processes exit and fork at any moment. Wait handles are conserved except exactly where the taskkill call itself
  raises while some captured pid was not refused (`HandlesConserved`, `LoneServerLeaks`). Pids refused with error 87
  are believed to have exited and are not checked. A stop that finds the root already gone does not look at its
  descendants. A raise between the spawn and the polling loop leaves the server running. All of this is as in the
  code, and the contracts of `StopWindows`, `Stop` and `Start` say so.
- **Binary parsers** (`Checkpoint`, `TensorEmission`, `Tokenizer`, `Decimal`). Floats and scores are opaque elements;
  sizes are mathematical integers; header fields and lengths are read with their 32-bit widths.
- **The schedule against a server** (`Adapter`, `SlotServer`, `Runner`, `PrefixOracle`, `Scenarios`,
  `ScenarioVerdicts`). The adapter's checks of every response are functions on JSON values. The server is an
  assumption: a slot holds tokens, erasing empties it, a cache-on request reuses the longest common prefix but
  evaluates at least one token, a cache-off request reuses nothing, greedy answers depend on the prompt alone, any
  suffix may be left behind, a slot whose request has been answered is idle, and a response that passes the adapter's
  checks is true. The client records every request it makes, so that the order of requests is part of each lane's
  contract. A cut-off stream and two streams at once are runs of the protocols above. Against this server the schedule
  makes every verdict true except those that report what was seen of a stream and that the protocols do not guarantee.
  Two conditions on the stimuli come out exactly: cached prompts need two tokens, and the prefix rule fails for targets
  that extend their source by two tokens or more. No registered prefix case does.
- **Evidence** (`Json`, `Sorting`, `Verdicts`, `Oracle`, `Reading`, `KeyOrder`, `Evidence`, `Building`, `Registration`,
  `EvidenceBuilding`). An untyped value keeps its key order, and Booleans, integers and floats compare as in Python.
  A float literal may overflow to an infinity. Each oracle lookup is a partial function; shapes are what the
  validators demand. Pins are parameters, of which only this is assumed: that the oracle can read the registration it
  is pinned to, that every pinned runtime names its platform, and that no pinned value is infinite. What a run writes
  down is read back by the oracles as it was observed.
- **Bundles** (`Junit`, `Bundle`, `BundleWriter`, `EndToEnd`). Printing, strict parsing and the digest are parameters.
  Assumed of them is that the parser refuses duplicate keys and that a digest is 64 hexadecimal digits (`Strict`). Of
  printing nothing is assumed in general, since a printer does not tell apart two fractions of one float and may
  refuse a very long integer. Where it matters, the evidence at hand and its manifest are assumed to be read back with
  sorted keys (`Carries`), and `VerifiedRunExists` shows that all this can be met. The writer's disk keeps a history of
  every state it has been in. `EndToEnd` composes the whole path from the schedule to the verified bundle.

Where the code can raise, an operation returns `Raised`, `None` or `false`; kinds of exceptions are told apart only in
`Evidence`, where `Unhashable` stands for the TypeError of a list or an object that is looked up in a set or a
dictionary, and `Crashed` for any other failing lookup. `dafny verify dfyconfig.toml` checks everything.

## Model

| member | source | states |
|---|---|---|
| `MemberPaths.SafePartsArePlain` | src/cache_invariant/fetch.py:102-111 | Every path read from a member name consists of plain components: none is empty, a dot, two dots, or holds a separator or a colon. |
| `MemberPaths.JoinRoundTrip` | src/cache_invariant/fetch.py:102-111 | Joining a plain path with slashes and reading the result as a member name gives the path back. |
| `MemberPaths.SafePathsAreThePlainPaths` | src/cache_invariant/fetch.py:102-111 | A path can be read from some member name if and only if it is plain. |
| `FileTrees.FileTree.MakeDirs` | src/cache_invariant/fetch.py:144-149 | Making a directory with its parents is refused exactly when the path or an ancestor is a file; otherwise exactly the prefixes are added. |
| `FileTrees.FileTree.WriteNew` | src/cache_invariant/fetch.py:150-152 | Exclusive creation is refused exactly when the path is taken; otherwise one file with the given bytes and mode is added. |
| `AliasChains.ChainEndUnique` | src/cache_invariant/fetch.py:157-185 | With fresh aliases, two chains of links from one path end at the same file after the same number of links. |
| `AliasChains.MaterialisedUnique` | src/cache_invariant/fetch.py:157-185 | The materialised tree is determined by the base tree and the multiset of links. |
| `AliasChains.ClosedChainsAreRefused` | src/cache_invariant/fetch.py:183-184 | A set of paths closed under following links that holds no regular file is refused if any alias lies in it: cycles, self-links, dangling links and links to directories. |
| `AliasChains.CopyStep` | src/cache_invariant/fetch.py:172-180 | Copying one link whose target is a regular file makes exactly one more alias correct and keeps the others. |
| `AliasChains.StuckLinksReachNothing` | src/cache_invariant/fetch.py:181-184 | If no target of the remaining links exists, no remaining link has a chain to a regular file, however long. |
| `AliasChains.TryLink` | src/cache_invariant/fetch.py:161-182 | One link raises only if the links cannot all be materialised, copies correctly, or waits because its target is missing. |
| `AliasChains.Sweep` | src/cache_invariant/fetch.py:158-182 | One pass partitions the links into done and remaining, reports progress exactly when fewer remain, and raises only on unmaterialisable links. |
| `AliasChains.LeftoversGetDeeper` | src/cache_invariant/fetch.py:181-185 | A link left over by one more pass has a chain at least one link longer than was known before. |
| `AliasChains.MaterialiseLinks` | src/cache_invariant/fetch.py:157-185 | The loop succeeds if and only if every link name is plain, aliases are distinct and new, and every chain reaches a regular file; the tree then holds each chain's end at its alias and nothing else, after at most as many passes as the deepest chain. |
| `TarExtraction.RegularTreeUnique` | src/cache_invariant/fetch.py:133-152 | The tree that the regular and directory members describe is unique. |
| `TarExtraction.PlaceableExtends` | src/cache_invariant/fetch.py:133-151 | One more member fits if and only if it is admissible and collides with no file on the way or at its path. |
| `TarExtraction.Install` | src/cache_invariant/fetch.py:142-152 | Installing one member succeeds if and only if the members so far and it are collision-free, and the tree then is the one they describe. |
| `TarExtraction.LinksOfPermutation` | src/cache_invariant/fetch.py:132-139 | Archives with the same members have the same links. |
| `TarExtraction.ReadAllPermutation` | src/cache_invariant/fetch.py:132-134 | Archives that store the same members in another order read to the same members. |
| `TarExtraction.OrderIsIrrelevant` | src/cache_invariant/fetch.py:130-185 | Neither the success of an extraction nor its resulting tree depends on the order of the members. |
| `TarExtraction.ArchiveOrderIsIrrelevant` | src/cache_invariant/fetch.py:130-185 | Nor does either depend on the order in which the archive stores its members, names unread. |
| `TarExtraction.ExtractTar` | src/cache_invariant/fetch.py:130-185 | From the member names as the archive stores them: extraction succeeds if and only if the members that they read to are extractable, and yields exactly the tree that these describe. |
| `DualStream.WorkerKeepsInv` | src/cache_invariant/adapter.py:523-559 | Every step of a worker, faults and timeouts included, keeps the protocol invariant. |
| `DualStream.ControllerKeepsInv` | src/cache_invariant/adapter.py:569-640 | Every step of the controller, timeouts and failed polls included, keeps the protocol invariant. |
| `DualStream.RunKeepsInv` | src/cache_invariant/adapter.py:492-659 | The invariant holds in every state of every interleaving of the controller and both workers. |
| `DualStream.ReturnedRunIsOrdered` | src/cache_invariant/adapter.py:569-659 | In every run that returns, both first events were published before either connection was closed, the survivor's was closed only after the idle poll had ended, streams were opened only after the barrier, and both workers finished without an error. |
| `DualStream.ReportCannotRaise` | src/cache_invariant/adapter.py:641-659 | Once the error check has passed, both first events are well-formed, so building the returned record cannot raise. |
| `DualStream.ReportsPublished` | src/cache_invariant/adapter.py:641-659 | Every report of a run that returns says that both first events came before the disconnect and were observed. |
| `DualStream.SomeRunReturns` | src/cache_invariant/adapter.py:569-659 | For either order of disconnecting and whatever the two first events say of their streams, some run returns with all gating flags set; so the code can disconnect after a terminal first event, and the claims about returning runs are not empty. |
| `DualStream.FlagAloneShowsNothing` | src/cache_invariant/adapter.py:550-588 | The flag for both first events can be set in a run where no event was published, because a failing worker sets its ready event too. |
| `SingleStream.StepKeepsInv` | src/cache_invariant/adapter.py:401-490 | Every step of the sampler and of the caller, faults and timeouts included, keeps the invariant of a cut-off stream. |
| `SingleStream.ReturnedRunIsOrdered` | src/cache_invariant/adapter.py:435-490 | In every run that returns, the caller has opened the stream after a first slot list, received the event, closed the response, closed the connection, joined the sampler and only then seen the slot idle, each of them once; no activity is recorded after the joining, and the two sampled flags say exactly what was seen. |
| `SingleStream.FailedRunStopsItsSampler` | src/cache_invariant/adapter.py:435-477 | A run that raises has told a started sampler to stop, and closed what it opened, if and only if closing itself did not raise. |
| `SingleStream.RaisingCloseLeavesSampler` | src/cache_invariant/adapter.py:468-474 | If closing the response raises, the sampler runs on and the connection stays open. |
| `SingleStream.StoppedSamplerEnds` | src/cache_invariant/adapter.py:405-433 | Once told to stop the sampler ends within five steps of its own, and it can be held up by a poll only. |
| `SingleStream.SomeRunReturns` | src/cache_invariant/adapter.py:386-490 | A run in which everything goes as intended returns with all flags set, whatever the first event says of its stream. |
| `SingleStream.ActiveBeforeOpening` | src/cache_invariant/adapter.py:401-467 | The same record is returned by a run that saw the slot active before the stream was opened. |
| `SingleStream.ActiveAfterClosing` | src/cache_invariant/adapter.py:456-490 | And by one that saw it active only after both halves had been closed. |
| `BoundedCapture.TailOfExtension` | src/cache_invariant/process.py:30-38 | Trimming after each block keeps the same bytes as trimming once at the end. |
| `BoundedCapture.Capture.Drain` | src/cache_invariant/process.py:30-38 | After any sequence of reads the buffer holds the last 8192 bytes, or fewer if fewer came, of the whole stream. |
| `BoundedCapture.Capture.Nonempty` | src/cache_invariant/process.py:40-42 | The capture reports nonempty exactly when any byte was read. |
| `ProcessTree.Pass` | src/cache_invariant/process.py:99-103 | One pass adds descendants only, reports a change exactly when it grew, and leaves a set closed under children when it did not. |
| `ProcessTree.Tree` | src/cache_invariant/process.py:96-104 | For every parent map the list is sorted, free of duplicates, and exactly the root and the pids whose parent chain reaches it, within one pass more than there are entries. |
| `ProcessTree.SortedUnique` | src/cache_invariant/process.py:104 | A strictly sorted list is determined by its members, so the iteration order of the snapshot does not matter. |
| `ProcessTree.CyclesStayOut` | src/cache_invariant/process.py:98-103 | No pid on a parent cycle that misses the root is a descendant of it. |
| `ServerLifecycle.HandlesAreDistinct` | src/cache_invariant/process.py:113-127 | Wait handles on different pids are different, so no entry is closed twice. |
| `ServerLifecycle.OpenWaitHandles` | src/cache_invariant/process.py:107-127 | Either every pid has an open handle of its own or was refused with the race code, or the call raises and no handle it opened is left open. |
| `ServerLifecycle.WaitAndClose` | src/cache_invariant/process.py:130-145 | All handles are closed on every path, each once; a normal return means that every awaited process has exited. |
| `ServerLifecycle.HandlesConserved` | src/cache_invariant/process.py:257-290 | Wait handles are conserved by a stop except exactly where the taskkill call itself raises and some captured pid was not refused. |
| `ServerLifecycle.LoneServerLeaks` | src/cache_invariant/process.py:270-283 | The smallest case of the exception: where the taskkill call for a server without children raises, exactly its one handle stays open. |
| `ServerLifecycle.StopWindows` | src/cache_invariant/process.py:257-290 | After a stop the open handles are those from before and, only where the taskkill call raised, one on each captured pid that was not refused; a normal stop confirms the exit of the root and of every captured process except those refused with the race code. |
| `ServerLifecycle.StopPosix` | src/cache_invariant/process.py:291-309 | A normal stop confirms that the root has exited and that no process of its group is left. |
| `ServerLifecycle.ServerProcess.Stop` | src/cache_invariant/process.py:253-318 | Stop returns only with the process field cleared and the root gone, raises with the field unchanged, and accounts for the wait handles on either platform; it stops a server exactly when its first poll found it running, and otherwise only clears the field. |
| `ServerLifecycle.ServerProcess.Start` | src/cache_invariant/process.py:176-251 | Start on a started server raises and changes nothing; on a stopped one it adds at most one live server, which a raise between the spawn and the polling loop leaves running with the field set. |
| `Checkpoint.TotalOfLayout` | src/cache_invariant/_vendor/llama2c_gguf.py:120-139 | The sizes of all blocks in read order add up to one closed formula in the configuration. |
| `Checkpoint.StretchesPartition` | src/cache_invariant/_vendor/llama2c_gguf.py:78-86 | Consecutive takes of the block sizes are a partition of the array's prefix: no gap and no overlap. |
| `Checkpoint.CutHolds` | src/cache_invariant/_vendor/llama2c_gguf.py:115-118 | Each named block is filed under its name with its shape and its own stretch of the array. |
| `Checkpoint.Reader.Take` | src/cache_invariant/_vendor/llama2c_gguf.py:78-86 | A take succeeds exactly when enough values are left, returns them and advances the cursor by their number. |
| `Checkpoint.Reader.Load` | src/cache_invariant/_vendor/llama2c_gguf.py:115-118 | A load extends what has been read by one block, and fails only when the array is shorter than the layout. |
| `Checkpoint.LoadCheckpoint` | src/cache_invariant/_vendor/llama2c_gguf.py:89-145 | Loading succeeds if and only if the header is complete, all fields are positive, the heads divide and the number of floats equals the closed formula; the tensors are then those of the layout. |
| `Checkpoint.OutputTensor` | src/cache_invariant/_vendor/llama2c_gguf.py:136-139 | The output matrix is the embedding matrix when weights are shared. |
| `Checkpoint.TensorsPartitionTheInput` | src/cache_invariant/_vendor/llama2c_gguf.py:120-145 | On acceptance all tensors and the skipped rotary block, in read order, are exactly the input array. |
| `TensorEmission.EmitLayer` | src/cache_invariant/_vendor/llama2c_gguf.py:233-251 | One layer emits nine tensors, each the layer's row of its stacked tensor under the layer's name. |
| `TensorEmission.Emit` | src/cache_invariant/_vendor/llama2c_gguf.py:230-251 | The loop emits the three model tensors and then every layer's nine in order. |
| `TensorEmission.LayerNamesDistinct` | src/cache_invariant/_vendor/llama2c_gguf.py:234-251 | A layer tensor's name determines its layer number and its role. |
| `TensorEmission.EmittedNamesDistinct` | src/cache_invariant/_vendor/llama2c_gguf.py:230-251 | For every layer count there are three tensors and nine for each layer, all named differently. |
| `TensorEmission.AcceptedIsEmittable` | src/cache_invariant/_vendor/llama2c_gguf.py:230-251 | Every accepted checkpoint has all tensors that emission reads, stacked by layer. |
| `TensorEmission.ConversionConserves` | src/cache_invariant/_vendor/llama2c_gguf.py:136-139 | For every weighing of the floats, what is emitted weighs as much as the input less the rotary block, plus the embeddings once more when they are shared. |
| `TensorEmission.EmittedFloatCount` | src/cache_invariant/_vendor/llama2c_gguf.py:230-251 | The number of floats emitted is the input size less the rotary block plus the shared duplicate. |
| `Tokenizer.EscapeLeavesNoSpace` | src/cache_invariant/_vendor/llama2c_gguf.py:189 | No token text holds a space byte after the escape. |
| `Tokenizer.EscapeInvertible` | src/cache_invariant/_vendor/llama2c_gguf.py:189 | The reverse replacement undoes the escape if and only if the text holds no U+2581 of its own. |
| `Tokenizer.ParseUndoesEncode` | src/cache_invariant/_vendor/llama2c_gguf.py:163-172 | Parsing the serialisation of any record list returns the list. |
| `Tokenizer.EncodeUndoesParse` | src/cache_invariant/_vendor/llama2c_gguf.py:163-172 | Whatever parses as records is their serialisation, byte for byte. |
| `Tokenizer.RecordsUnique` | src/cache_invariant/_vendor/llama2c_gguf.py:157-195 | A file holds at most one record list of a given length. |
| `Tokenizer.MakeToken` | src/cache_invariant/_vendor/llama2c_gguf.py:174-192 | Ids 0 to 2 are fixed; from 3 on the kind follows the text and the text is escaped. |
| `Tokenizer.TakeRecord` | src/cache_invariant/_vendor/llama2c_gguf.py:164-172 | The three reads come up short exactly when no record starts there, and otherwise yield it and the position after it. |
| `Tokenizer.LoadRecords` | src/cache_invariant/_vendor/llama2c_gguf.py:163-195 | The loop and the check for trailing bytes accept exactly what parses as the declared number of records. |
| `Tokenizer.LoadTokenizer` | src/cache_invariant/_vendor/llama2c_gguf.py:148-197 | Loading succeeds if and only if the bytes are a header and exactly the declared number of records; the tokens are those of the records. |
| `Tokenizer.SerialisedRecordsAreRead` | src/cache_invariant/_vendor/llama2c_gguf.py:157-195 | Every record list is read back from its serialisation, and it alone. |
| `Tokenizer.TextRecoverable` | src/cache_invariant/_vendor/llama2c_gguf.py:189-192 | From id 3 on a record's text is recoverable from its token if and only if it holds no U+2581. |
| `Runner.RuleHoldsForEverySuffix` | src/cache_invariant/oracle.py:240-248 | The registered cache rule predicts the reuse after every generated suffix if and only if the target does not extend the source by two tokens or more. |
| `Runner.RunCase` | src/cache_invariant/runner.py:243-264 | The requests of a case are exactly: erase slot 0, source, cache-on target, erase slot 0, cache-off target, each with its entry in the trace; the counters are those of some suffix generated after the source. |
| `Runner.CallsOfCase` | src/cache_invariant/runner.py:242-259 | In the requests of any case list every source and every cache-off target is immediately preceded by an erasure of slot 0. |
| `Runner.TokenPrefixDivergence` | src/cache_invariant/runner.py:237-265 | For every case list the lane makes exactly the listed requests with the entries registered for them, and records one observation a case in order. |
| `Runner.LaneSatisfiesOracle` | src/cache_invariant/runner.py:237-265 | For every list of rightly registered cases, none extending its source by two tokens, every observation the schedule can make satisfies every verdict. |
| `Runner.LanePassesExactly` | src/cache_invariant/oracle.py:200-273 | For every list of rightly registered cases: every observation that the schedule can make passes every verdict if and only if no target extends its source by two tokens or more, or some prompt is empty, so that no observation can be made. |
| `Runner.ObservableExactly` | src/cache_invariant/adapter.py:260-264 | The schedule can make an observation of a case list if and only if none of its prompts is empty: an empty one raises before its request. |
| `Runner.ExtendingCaseFails` | src/cache_invariant/oracle.py:240-263 | Any case that is rightly registered and extends its source by two tokens, in a list without empty prompts, has an observation of the list that the schedule can make fail. |
| `Runner.RegisteredCasesAreSound` | src/cache_invariant/registration.py:28-31 | The three registered prefix cases are rightly registered, named differently, and none extends its source by two tokens. |
| `Runner.TokenPrefixTraced` | src/cache_invariant/registration.py:233-243 | The trace of the lane's steps is the registered order of the lane, for every case list. |
| `Runner.OrderMatchesFourPairings` | src/cache_invariant/registration.py:191-253 | The executed order equals the registered order if and only if there are four pairing cases, for every list of prefix cases. |
| `Adapter.SlotOrderIsIrrelevant` | src/cache_invariant/adapter.py:59-92 | The view of a slot does not depend on the order in which the server lists its slots. |
| `SlotServer.ReuseOfItself` | src/cache_invariant/runner.py:72-84 | A slot that has seen a prompt reuses all of it but its last token, whatever was generated since. |
| `SlotServer.Client.Erase` | src/cache_invariant/adapter.py:147-159 | An acknowledged erase empties the slot and no other. |
| `SlotServer.Client.DirectTokenPrefill` | src/cache_invariant/adapter.py:249-328 | An empty prompt raises before any request. Otherwise one request is made, and where the response and the slot list pass every check, the counters are those of a server that reuses the common prefix but evaluates a token, or nothing when the cache is off; the slot then holds the prompt and some suffix. |
| `SlotServer.Client.Complete` | src/cache_invariant/adapter.py:161-247 | One request is made, and where the response and the slot list pass every check, the answer holds a token, depends on its prompt and length limit alone, and is described by its hashes and counts; reuse and slot are as for a prefill. |
| `SlotServer.Client.Restore` | src/cache_invariant/adapter.py:676-692 | Where the acknowledgement and the count pass their checks, the slot holds what was saved and the count is that of its tokens. |
| `SlotServer.Client.StreamThenDisconnect` | src/cache_invariant/adapter.py:386-490 | What is returned is the record of some run of the caller and its sampler, under any schedule of their steps; anything may be left in the slots. |
| `SlotServer.Client.DualStreamDisconnect` | src/cache_invariant/adapter.py:492-659 | What is returned is the report of some run of the dual-stream protocol, under any schedule of its steps. |
| `Scenarios.RunCases` | src/cache_invariant/runner.py:80-84 | For every list of cases with one prompt, a case reuses all but one token if it may and its slot was used before, and nothing otherwise. |
| `Scenarios.PairCaches` | src/cache_invariant/runner.py:72-84 | The lane's requests are exactly an erasure of each slot and then the cases in order, with the registered entries; with one prompt, what each case reuses is determined. |
| `Scenarios.CancellationReuse` | src/cache_invariant/runner.py:87-116 | The lane's requests are exactly: erase both slots, baseline, cut-off stream, reuse; both completions reuse nothing, whatever the stream left behind, and the stream's flags are those of some run of the caller and its sampler. |
| `Scenarios.InterleavingIsolation` | src/cache_invariant/runner.py:192-219 | The lane's requests are exactly: erase both slots and run both baselines, then for either direction erase both slots, run the dual stream and both reuses; all six completions reuse nothing, and the flags of each direction are those of some run of the protocol. |
| `Scenarios.SaveRestoreSameProcess` | src/cache_invariant/runner.py:119-142 | The lane's requests are exactly: erase both slots, source, save of slot 0, restore of slot 1, repeat; the restored slot reuses all of the prompt but one token, and the counts are those of the saved slot. |
| `Scenarios.RestoreAfterRestart` | src/cache_invariant/runner.py:268-281 | The second server is asked exactly for an erasure and a restore of slot 0 and one completion, which reuses all of the prompt but one token from the file that the first server left. |
| `Scenarios.PrefixRequestsFollowErasures` | src/cache_invariant/runner.py:376-384 | In what a whole run asks of the first server, the five requests of every prefix case stand together, its source and its cache-off target right after an erasure of slot 0. |
| `Scenarios.RunScenarios` | src/cache_invariant/runner.py:352-415 | At most one server is live at any time. Every run that reaches the trace check has made exactly the listed requests and recorded their entries, has no server left and no wait handle open, and passes the check if and only if there are four pairing cases; a finished run observed what the schedule calls for in every lane, the restart confirmed from the process fields. |
| `ScenarioVerdicts.CacheLaneHolds` | src/cache_invariant/oracle.py:30-60 | Against the assumed server the cache lane passes if and only if its prompt has two tokens or more. |
| `ScenarioVerdicts.CancellationLaneHolds` | src/cache_invariant/oracle.py:63-84 | The cancellation lane passes if and only if activity, a nonterminal first event and the idle slot were observed. |
| `ScenarioVerdicts.InterleavingLaneHolds` | src/cache_invariant/oracle.py:138-197 | The interleaving lane passes if and only if, in both directions, both idle polls succeeded and both first events were nonterminal. |
| `ScenarioVerdicts.SaveLaneHolds` | src/cache_invariant/oracle.py:87-135 | The save-and-restore lane passes if and only if its prompt has two tokens or more. |
| `ScenarioVerdicts.ReturnedRunGates` | src/cache_invariant/adapter.py:641-659 | Of the seven gating flags a direction that some run of the protocol reported has three set; all seven are set if and only if the other four are. |
| `ScenarioVerdicts.RunSatisfiesOracle` | src/cache_invariant/runner.py:417-430 | Against the assumed server every run of the schedule passes every verdict if and only if what the protocols leave open of the streams was observed as intended and the two cached prompts have two tokens or more. |
| `PrefixOracle.ComputeTokenPrefixInvariants` | src/cache_invariant/oracle.py:200-273 | The two loops compute the dictionary of the verdicts. |
| `PrefixOracle.CaseNamesDistinct` | src/cache_invariant/oracle.py:249-270 | A case verdict's name determines the case and the verdict, whatever the cases are called. |
| `PrefixOracle.VerdictCount` | src/cache_invariant/oracle.py:220-273 | There are exactly five verdicts and five for each case. |
| `PrefixOracle.VerdictsDetermineCounters` | src/cache_invariant/oracle.py:220-273 | All verdicts are true if and only if every registration is satisfiable and every counter has the one value it allows. |
| `PrefixOracle.WorkRelationFollows` | src/cache_invariant/oracle.py:266-270 | Given the other four verdicts of a case, the work-relation verdict holds if and only if the expected cache count is not negative; it is negative only for a negative prefix length or an empty target with the prefix length zero. |
| `PrefixOracle.VerdictsIgnoreOrder` | src/cache_invariant/oracle.py:200-273 | A permutation of the cases has the same verdicts. |
| `Oracle.FirstDoesNotMatter` | src/cache_invariant/oracle.py:37-42 | Whether all results are equal does not depend on which one is listed first. |
| `Oracle.CachePairingIgnoresOrder` | src/cache_invariant/oracle.py:30-60 | The cache verdicts do not depend on the order in which the object lists its cases. |
| `Oracle.MergeLanes` | src/cache_invariant/oracle.py:276-315 | The merge loop returns if and only if no two lanes share a name; the result holds the names of the lanes and no other. |
| `Oracle.MergedExactly` | src/cache_invariant/oracle.py:305-314 | Merging one lane after another raises if and only if two of them share a name, wherever they stand. |
| `Oracle.MergingNeverRaises` | src/cache_invariant/oracle.py:276-315 | No two lanes share a name; the merged verdicts are all true if and only if each lane's are. |
| `Oracle.InvariantCount` | src/cache_invariant/oracle.py:276-315 | There are 29 verdicts in the first version, 57 in the second, and 62 plus five for each prefix case in the third. |
| `Json.CanonicalAgrees` | src/cache_invariant/util.py:28-38 | Sorting all keys of a value yields a value that agrees with it up to key order. |
| `Json.ShapeIgnoresOrder` | src/cache_invariant/util.py:173-185 | Whether a value has a shape, pinned parts compared by Python equality included, does not depend on key order. |
| `Json.ClosedMeansFinite` | src/cache_invariant/util.py:28-51 | A value whose shape leaves nothing open and names finite values only holds no infinite float. |
| `KeyOrder.CachePairingAgrees` | src/cache_invariant/oracle.py:30-60 | Reading the cache lane of values that agree up to key order and unread keys gives the same cases. |
| `KeyOrder.LanesAgree` | src/cache_invariant/oracle.py:276-315 | Reading all lanes of values that agree up to key order and unread keys gives the same lanes up to order. |
| `KeyOrder.SameLanesSameVerdicts` | src/cache_invariant/oracle.py:276-315 | Lanes that differ in order only have the same verdicts. |
| `KeyOrder.VerdictIsRead` | src/cache_invariant/oracle.py:20-315 | No verdict has the name of one of the three keys that no oracle reads, for any lanes. |
| `Evidence.CompletionReads` | src/cache_invariant/verify.py:55-87 | Every lookup that an oracle makes in a validated completion finds a value of the right type. |
| `Evidence.CachePairingReads` | src/cache_invariant/verify.py:106-119 | So does every lookup in a validated cache lane, in whatever key order. |
| `Evidence.CancellationReads` | src/cache_invariant/verify.py:122-142 | So does every lookup in a validated cancellation lane. |
| `Evidence.InterleavingReads` | src/cache_invariant/verify.py:187-212 | So does every lookup in a validated interleaving lane. |
| `Evidence.PrefixLaneReads` | src/cache_invariant/verify.py:242-259 | So does every lookup in a validated direct-token lane and in a readable registration. |
| `Evidence.SaveRestoreReads` | src/cache_invariant/verify.py:262-301 | So does every lookup in a validated save-and-restore lane. |
| `Evidence.EqualRegistered` | src/cache_invariant/verify.py:359-360 | A registration that is merely equal, number for number, has the same counts. |
| `Evidence.NeverCrashes` | src/cache_invariant/verify.py:304-469 | For every JSON value, infinite floats included, validation refuses it, returns, or raises the TypeError of an unhashable schema or platform; no lookup of the oracle fails. |
| `Evidence.UnhashableExactly` | src/cache_invariant/verify.py:304-398 | Validation raises that TypeError if and only if the schema is unhashable, or it is known and the platform of an otherwise well-shaped head is. |
| `Evidence.SchemaListIsUnhashable` | src/cache_invariant/verify.py:304-309 | A schema that is a list is such a TypeError. |
| `Evidence.PlatformListIsUnhashable` | src/cache_invariant/verify.py:379-398 | So is a platform that is a list, in evidence that is well-shaped otherwise. |
| `Evidence.KeyOrderIsIgnored` | src/cache_invariant/verify.py:304-469 | Reordering the keys of any object in the value leaves the outcome unchanged. |
| `Evidence.CanonicalValidates` | src/cache_invariant/evidence.py:39 | A value read back after writing with sorted keys is judged as the value that was written. |
| `Evidence.UnreadFieldsAreIgnored` | src/cache_invariant/oracle.py:20-197 | Changing the cached-token count of a response or the two sampled stream flags within their types, and the order of any keys, does not change the outcome. |
| `Evidence.AcceptedCount` | src/cache_invariant/verify.py:454-469 | Accepted evidence has 29, 57 or 77 verdicts, by its version. |
| `Evidence.AcceptedCounters` | src/cache_invariant/verify.py:454-469 | In accepted evidence of the third version every counter of the direct-token lane has the one value that the pinned lengths allow. |
| `Evidence.AcceptedFinite` | src/cache_invariant/verify.py:304-469 | Accepted evidence holds no infinite float, so it can be written. |
| `Evidence.OwnVerdictsValidate` | src/cache_invariant/runner.py:342-343 | Well-shaped evidence that stores its own recomputed verdicts is accepted if and only if they are all true. |
| `Building.ObservedRoundTrip` | src/cache_invariant/adapter.py:216-247 | A completion and its idle slot are read back by the oracle as they were written, whatever cached-token count is written with them. |
| `Building.DirectionRoundTrip` | src/cache_invariant/runner.py:173-189 | So is one direction of the interleaving lane, whatever its two sampled flags and cached-token counts. |
| `Building.SaveRoundTrip` | src/cache_invariant/runner.py:134-142 | So is the save-and-restore lane, whatever its cached-token counts. |
| `Building.CaseRoundTrip` | src/cache_invariant/runner.py:260-264 | So is a case of the direct-token lane. |
| `Registration.RegisteredRead` | src/cache_invariant/registration.py:294-312 | From the registration of any case the oracle reads the lengths of its prompts and its prefix length. |
| `Registration.RegistrationListsItsCases` | src/cache_invariant/registration.py:401-416 | A registration built from cases of the three names lists their lengths, whatever the earlier lanes are. |
| `EvidenceBuilding.CacheRoundTrip` | src/cache_invariant/runner.py:80-84 | So is the cache lane, with its cases in the order in which they were requested. |
| `EvidenceBuilding.PrefixRoundTrip` | src/cache_invariant/runner.py:242-265 | So is the direct-token lane in any case order, with the registration that lists its lengths. |
| `EvidenceBuilding.EvidenceReadBack` | src/cache_invariant/runner.py:284-343 | All lanes are read back from the evidence as they were observed, whatever is written in the fields that no oracle reads. |
| `EvidenceBuilding.EvidenceConforms` | src/cache_invariant/runner.py:284-343 | The evidence of writable lanes has the shape that validation demands, whatever is written in those fields within their types. |
| `EvidenceBuilding.BuiltEvidenceValidates` | src/cache_invariant/runner.py:284-343 | The evidence of observed lanes is accepted if and only if all of its own verdicts are true. |
| `EndToEnd.ReturnedCompletionConforms` | src/cache_invariant/adapter.py:191-222 | Whatever the server answers: a completion that passes the adapter's checks has the shape that validation demands. |
| `EndToEnd.ReturnedPrefillConforms` | src/cache_invariant/adapter.py:281-301 | So have the counters of a prefill with the view of its slot. |
| `EndToEnd.SavedCountConforms` | src/cache_invariant/adapter.py:661-674 | A count of zero is the one that the adapter returns from a save or a restore and that validation refuses. |
| `EndToEnd.RunIsAccepted` | src/cache_invariant/runner.py:352-431 | The evidence of a run against the assumed server, whatever is written in the fields that no oracle reads, is accepted if and only if what the protocols leave open of the streams was observed as intended and the two cached prompts have two tokens or more. |
| `EndToEnd.RegisteredRunIsAccepted` | src/cache_invariant/registration.py:401-416 | The same for the three registered prefix cases and pins whose registration is built from them, with nothing assumed of either. |
| `EndToEnd.AcceptedRunExists` | src/cache_invariant/runner.py:352-431 | In particular, for some model, schedule and pins a run is accepted. |
| `EndToEnd.AcceptedRunVerifies` | src/cache_invariant/verify.py:523-554 | The bundle staged for such evidence verifies if and only if it is within the size limits, and reports 77 verdicts, for every strict library that carries this evidence and its manifest. |
| `EndToEnd.SmallLibraryServes` | src/cache_invariant/util.py:28-51 | For every evidence value there is a library as it is assumed to be, and with it the bundle is within the limits. |
| `EndToEnd.VerifiedRunExists` | src/cache_invariant/runner.py:352-431 | All conditions can be met at once: for some model, schedule, pins and library a run is accepted and its staged bundle verifies with 77 verdicts. |
| `Junit.JunitText` | src/cache_invariant/verify.py:472-486 | The loop builds the projection of the sorted names. |
| `Junit.LinesOfText` | src/cache_invariant/verify.py:486 | A line parser gets the lines of a text back. |
| `Junit.NamesRecovered` | src/cache_invariant/verify.py:472-486 | From the fixed layout a line parser recovers the sorted names, and the advertised number of tests is the number of testcase lines. |
| `Junit.ProjectionIsTheNameSet` | src/cache_invariant/verify.py:472-486 | For names without newlines two projections are equal if and only if the sets of names are. |
| `Junit.NewlinesBlurNames` | src/cache_invariant/verify.py:472-486 | The condition is needed: two different sets of names that hold newlines have the same projection. |
| `Bundle.ValidateManifest` | src/cache_invariant/verify.py:489-520 | The loop accepts exactly a manifest with one record for each of the two files, stating its true size and digest. |
| `Bundle.StagedVerifies` | src/cache_invariant/evidence.py:37-58 | For accepted evidence that the library carries, with its manifest, through printing and parsing: what the writer stages verifies if and only if it is within the size limits, with the summary of the original value. |
| `Bundle.VerifiedMeans` | src/cache_invariant/verify.py:523-554 | Whatever the library prints: a directory that verifies holds exactly the three files, accepted evidence, its projection, and every verdict of its version. |
| `Bundle.ValidatorIsSound` | src/cache_invariant/verify.py:304-469 | Validation of evidence meets what the bundle relies on: it ignores key order, and accepted evidence can be printed and summarised. |
| `BundleWriter.Disk.Fill` | src/cache_invariant/evidence.py:37-56 | The three writes fill the staging directory or stop at the first failure; no other directory changes. |
| `BundleWriter.Disk.Publish` | src/cache_invariant/evidence.py:37-59 | Whatever the library does, the guarded part succeeds if and only if every write, the verification of what was staged and the replacement do; with a library that carries the evidence, verification comes down to the size limits. |
| `BundleWriter.Disk.WriteBundle` | src/cache_invariant/evidence.py:22-63 | Whatever the library does: in every state on the way the output is absent or complete and verified, a call succeeds if and only if the evidence is accepted, the output is new, nothing fails and what is staged verifies, and a failed call leaves the disk as it was, but for a staging directory that is not plain or cannot be removed. With a library that carries the evidence, verifying comes down to the size limits. |

## Left out

- HTTP, sockets, server-sent events and downloads: their outcomes are nondeterministic choices; decoding of tar and zip containers: an archive is a list of members.
- `_extract_zip`: the regular pass of the tar extraction without links.
- Case-insensitive file systems and link-following destinations: paths are compared component by component, and no node of the tree is a link, so that no link remains is by construction.
- Clocks and durations: a bounded wait may end at any time.
- ctypes, signals and the process snapshot itself: what the calls return is arbitrary within the stated assumptions on the operating system.
- SlotServer.Client.Complete: an empty prompt is assumed to be refused by the server, since the adapter does not check prompts that are text.
- Runs of the real client in which a slot is still busy after a request: the view of a slot after its request is assumed to be idle, or refused.
- JSON text and SHA-256: parameters, of which only what is said under Bundles is assumed.
- The real server: the slot environment is assumed, not proved.
- GGUF metadata and writer internals, float values and NumPy's fixed-width products: elements are opaque and sizes unbounded.
- Links and other special files inside a bundle directory, and creation of the output's parent directories: a bundle directory maps names to bytes.
- Junit.ProjectionIsTheNameSet: says nothing about names that hold newlines, for which different sets can share a text, as `Junit.NewlinesBlurNames` shows.
- Evidence.NeverCrashes: ranges over values whose strings hold no lone surrogates, since a Dafny character is never one, while a Python string may hold them. The failure of UTF-8 encoding on such a text is a possible outcome of the library parameter, not computed.
- `fetch`, `validate_lock`, `pins.py`, `cli.py`, `convert.py`, `subprocess_env.py` and the tools: constants, wiring and single-branch checks.
