# cpu2tensor, modelled and verified

cpu2tensor streams what the CPUs of an emulated machine do - blocks entered, memory
touched, registers changed, paging contexts switched - out of a QEMU plugin, through a
framed wire protocol, into tensors. This project models that pipeline from the plugin's
per-vCPU callbacks to the batches a learner reads, and proves the laws that tie its
parts together. `dafny verify dfyconfig.toml` checks everything.

The centre is the stream validator (`Stream::accept`). `Validator` states what it
accepts as a pure function over abstract state: a set of transition keys, freshly
scanned baselines. `StreamChecker` is the validator as written, with its probing hash
table, cached baseline flags and row loops, proved to accept the same frames and reach
the same state. The other results fall into five groups.

- **What a producer sends is accepted.** Whole reduced, raw, filtered and interactive captures,
  from Hello to Complete, with or without registers, are accepted frame by frame in any
  interleaving of the vCPUs. Where the code can be made to send something its own validator
  refuses, the exact condition is proved together with a run that breaks it (see Findings).
- **What an accepted trace is.** Mixed frames equal their runs sent one by one, row numbers of a
  source are dense, a terminator is last, boundaries alternate, every row follows a complete
  register baseline.
- **Fast forms refine simple ones.** The transition reducer's epoch-stamped table yields the
  first distinct pairs in order with exact counts whatever the hash; the key table is a set; the
  two-pass group decoder yields exactly the tables of single frames; the JSON splitter stops exactly
  at the end of the first object.
- **Nothing is lost.** Batched rows decode back to themselves, a collator's output is its input
  per CPU and signal, every reader delivers a prefix of what its worker produced, filter books
  balance.
- **Every interleaving.** The frame ring with stale cursor loads and wrapping 64-bit cursors, the
  collector against the stopped-world drain, the kernel worker's stop / drain / act / continue
  protocol, the endpoint readers with failures and close.

State that the original updates in place is a class or an array here, and each such method
is proved against a function of the old state. Loops of the original are loops. Integers
are unbounded, so every 64-bit limit the code tests is written out, and cursors that wrap
are reduced modulo 2^64. Hash functions are arbitrary parameters.

## Modules

| modules | models |
|---|---|
| `Words`, `Wire` | little-endian words, frame headers and their legality |
| `Validator`, `ValidatorRuns`, `BoundaryRuns`, `BaselineRuns` | the validator's rules, and what whole accepted traces satisfy |
| `Probe`, `KeyTable`, `StreamChecker` | linear probing, the duplicate detector, the validator as written |
| `Transitions`, `WindowReducer`, `WindowFrames`, `WindowAcceptance`, `WindowPublisher`, `ActionWindows` | transition windows: meaning, reducer, frames, publication, and the window half of the plugin's action loop |
| `Contexts`, `ReductionAcceptance`, `ReductionPublication`, `ReducedCapture`, `ReducedSources` | reduced capture from block entry to Complete |
| `RowBatches`, `MixedTables`, `BatchRuns`, `SourceBuffer`, `MixedDecoder` | row batching, its wire form and its decoder |
| `RegisterSchemas`, `RegisterSetup` | a starting vCPU's register schema |
| `RowAcceptance`, `RowStreams`, `CaptureRows`, `RawCapture`, `ContextCrowding`, `RawTraces` | raw capture from the callbacks to Complete |
| `ActionCapture` | interactive capture: callbacks, action windows, drains and exit together |
| `ContextFilters`, `FilterRuns`, `FilterOverflow`, `FilteredCapture` | the context filter, its books, and filtered capture |
| `KernelProtocol`, `KernelWorker` | the kernel worker's event loop in its system |
| `Wrapping`, `FrameRing`, `FrameQueue`, `Collector` | frame rings, collector thread and drains |
| `GroupDecoding`, `ContextGroups` | the grouped context decoder |
| `Batches`, `Collation`, `CollatorRuns`, `BatchCollator` | merging and collating batches |
| `Readers`, `EndpointReaders` | reading from several workers |
| `GuestPayload`, `GuestLines` | splitting a guest line into its JSON object and a kernel log suffix |

## Model

| member | source | states |
|---|---|---|
| `StreamChecker.Stream.Accept` | native/core/trace.cpp:327-684 | the validator as written accepts a frame exactly when the rules do and reaches the state the rules give, for any hash function; the concrete fields stay sound |
| `StreamChecker.Stream.AcceptSingle` | native/core/trace.cpp:348-684 | the same for one frame that holds no runs |
| `StreamChecker.Stream.AcceptRuns` | native/core/trace.cpp:348-373 | the run loop accepts a mixed frame exactly when every run parses, is accepted in turn and the row counts add up to the header |
| `StreamChecker.Stream.constructor` | native/core/trace.cpp:327-346 | a new stream is the initial state of the rules |
| `StreamChecker.Check` | native/core/trace.cpp:374-684 | dispatch over all kinds: hash table, cached flags and result agree with the rules |
| `StreamChecker.CheckTransitions` | native/core/trace.cpp:414-444 | transition rows are accepted exactly when they are new, counted and within the bounds, by hash table or by set alike |
| `StreamChecker.RememberRows` | native/core/trace.cpp:422-436 | the row loop succeeds exactly when every key is new and the counts fit, and then has remembered exactly those keys |
| `StreamChecker.CheckWindow` | native/core/trace.cpp:522-561 | a window summary closes the window and empties the detector without touching a slot |
| `StreamChecker.CheckReducedContext` | native/core/trace.cpp:445-472 | retained contexts are accepted exactly when valid and strictly ascending across frames |
| `StreamChecker.CheckReducedRows` | native/core/trace.cpp:450-463 | one carried position decides the ascending order of all rows, including the seam to the previous frame |
| `StreamChecker.DeclareRows` | native/core/trace.cpp:243-271 | the schema loop accepts exactly distinct identifiers and names of legal width |
| `StreamChecker.ApplyRows` | native/core/trace.cpp:272-294 | the register loop accepts exactly rows of declared width whose baseline flag marks the first sample |
| `StreamChecker.CheckAccesses` | native/core/trace.cpp:295-326 | memory rows are accepted exactly when each is well formed and names the latest context |
| `StreamChecker.CheckSource` | native/core/trace.cpp:615-684 | sequence, terminator, baseline and row rules of one source, with a cached baseline flag that never goes stale |
| `StreamChecker.ScanBoundary` | native/core/trace.cpp:387-413 | a kernel boundary is ready exactly when every source with data has complete baselines |
| `StreamChecker.CheckComplete` | native/core/trace.cpp:595-614 | Complete is accepted exactly when every seen source has ended and every announced report was given |
| `StreamChecker.CheckFilter` | native/core/trace.cpp:562-590 | a filter summary is accepted exactly when its equations hold and the stream counted its rows |
| `KeyTable.Remember` | native/core/trace.cpp:218-242 | a key is accepted exactly when it is new this window and the bound is not reached; growth never loses or invents a key |
| `KeyTable.Grow` | native/core/trace.cpp:199-217 | rehashing keeps exactly the live keys; stale stamps disappear |
| `KeyTable.Place` | native/core/trace.cpp:205-210 | a key not yet in the new table goes to the first free slot from its home on, and no other key is lost |
| `KeyTable.Insert` | native/core/trace.cpp:228-241 | the probe finds the key or claims the first free slot, and terminates because the table is never full |
| `KeyTable.Find` | native/core/trace.cpp:228-241 | a probe ends on the key or on a free slot with no occurrence of the key before it |
| `KeyTable.NextWindow` | native/core/trace.cpp:522-561 | a new window identifier empties the set in constant time |
| `Probe.FreeMeansAbsent` | native/core/trace.cpp:218-242 | a free slot reached by probing proves the key absent, and filling it keeps every other key reachable |
| `ValidatorRuns.MixedIsItsRuns` | native/core/trace.cpp:348-373 | over whole traces, mixed frames lead to the same state as their runs sent as frames of their own |
| `ValidatorRuns.DenseSequences` | native/core/trace.cpp:615-648 | the row numbers of a source in any accepted trace are 0, 1, 2, ... without gap or repetition |
| `ValidatorRuns.TerminatorIsLast` | native/core/trace.cpp:615-648 | a terminator carries the final row count and no row or second terminator of its source follows |
| `ValidatorRuns.CompleteTrace` | native/core/trace.cpp:595-614 | in a trace ending with Complete, every source that any frame announced has dense rows and exactly one terminator with their number |
| `BoundaryRuns.BoundariesAlternate` | native/core/trace.cpp:387-413 | requests and window summaries alternate, windows are numbered 1, 2, ..., and Complete leaves none open |
| `BoundaryRuns.TraceBoundariesAlternate` | native/core/trace.cpp:522-561 | the same over traces with mixed frames |
| `BaselineRuns.FirstRowIsBaseline` | native/core/trace.cpp:272-294 | in any accepted trace the first row of each register, and only that row, is a baseline |
| `BaselineRuns.RowsFollowBaseline` | native/core/trace.cpp:649-662 | every block or memory row comes after a sample of every declared register of its source |
| `BaselineRuns.TraceBaselines` | native/core/trace.cpp:649-684 | both over traces with mixed frames |
| `Wire.HeaderRoundTrip` | native/core/trace.cpp:24-32 | an encoded header decodes to itself exactly when it is legal |
| `Wire.HeaderIsCanonical` | native/core/trace.cpp:44-182 | bytes that decode are the encoding of what they decode to |
| `Words.LoadStored` | native/core/trace.cpp:9-16 | loading what was stored gives the value back |
| `Words.StoredLoad` | native/core/trace.cpp:9-16 | storing what was loaded gives the bytes back |
| `Words.Store` | native/core/trace.cpp:9-11 | the store loop writes exactly its own bytes |
| `WindowReducer.WindowSource.Observe` | native/core/transition_window.cpp:112-158 | one block extends the pair history; after any history the table holds the first distinct pairs with exact counts, whatever the hash |
| `WindowReducer.TransitionWindow.Configure` | native/core/transition_window.cpp:20-47 | succeeds exactly once, on legal sizes, with empty windows |
| `WindowReducer.TransitionWindow.Begin` | native/core/transition_window.cpp:49-62 | opens a window with a fresh identifier, no block of an older window visible |
| `WindowReducer.TransitionWindow.End` | native/core/transition_window.cpp:64-70 | ends only a recording window |
| `WindowReducer.TransitionWindow.Abort` | native/core/transition_window.cpp:72-78 | aborts only a recording window |
| `WindowReducer.TransitionWindow.Admit` | native/core/transition_window.cpp:80-84 | a block is admitted exactly while a window records, under that window's identifier |
| `WindowReducer.EnterBlock` | native/qemu/plugin.cpp:754-759 | a block entered while a window records joins its vCPU history and no other; outside a window it changes nothing |
| `WindowReducer.TransitionWindow.Observe` | native/core/transition_window.cpp:112-158 | an admitted block joins its own vCPU history and no other; a stale admission is refused without change |
| `WindowReducer.TransitionWindow.Close` | native/core/transition_window.cpp:160-180 | the summary is that of the recorded blocks; fails exactly when the transition total leaves 64 bits |
| `WindowReducer.TransitionWindow.RowCount` | native/core/transition_window.cpp:182-186 | the number of retained distinct pairs; zero for an unknown vCPU or another window |
| `WindowReducer.TransitionWindow.RowAt` | native/core/transition_window.cpp:188-195 | row k is the k-th pair to occur first, with its exact count; a zero row for an unknown vCPU, another window or an index past the end |
| `WindowReducer.TransitionWindow.SourceSummary` | native/core/transition_window.cpp:197-204 | distinct, observed and overflow counts of the recorded blocks; zeros for an unknown vCPU or another window |
| `Transitions.FirstsAreFirsts` | native/core/transition_window.cpp:112-158 | the retained pairs are distinct, are those that occur, and stand in order of first occurrence |
| `Transitions.Conservation` | native/core/transition_window.cpp:160-180 | row counts plus overflow are exactly the observed transitions; no overflow while the distinct pairs fit |
| `WindowFrames.RowsRoundTrip` | native/qemu/plugin.cpp:941-981 | row frames decode to the rows they were built from |
| `WindowFrames.SummaryRoundTrip` | native/qemu/plugin.cpp:941-981 | a window summary decodes to itself |
| `WindowAcceptance.PublishedWindowAccepted` | native/qemu/plugin.cpp:941-981 | the frames of any closable window are accepted exactly when no vCPU with rows has ended, and leave the validator expecting the next window |
| `WindowPublisher.ChunkFrame` | native/qemu/plugin.cpp:955-963 | a chunk carries exactly the rows at its offset |
| `WindowPublisher.PublishSource` | native/qemu/plugin.cpp:951-966 | chunks of at most 169 rows cover each row once, in order |
| `WindowPublisher.Publish` | native/qemu/plugin.cpp:941-981 | closes the window and sends exactly its frames, or nothing when none was open |
| `ActionWindows.StepMirrors` | native/qemu/plugin.cpp:1044-1087 | each plugin step keeps its `expected` flag, window counter and live vCPUs equal to the validator's, and its frames are accepted exactly on a stated guard |
| `ActionWindows.RunMirrors` | native/qemu/plugin.cpp:1044-1087 | over every accepted run plugin and validator agree on what comes next |
| `ActionWindows.RunAccepted` | native/qemu/plugin.cpp:1044-1087 | the window half with capture frames as given: accepted one step further exactly when the boundary is ready at a drain and every row source is open at exit |
| `ActionWindows.StartMirrors` | native/qemu/plugin.cpp:1044-1087 | they agree after Hello |
| `ActionWindows.FinishAccepted` | native/qemu/plugin.cpp:1089-1183 | the drain at exit is accepted exactly when no window is open or no vCPU with rows has ended |
| `ActionWindows.FinishAfterSourceEnd` | native/qemu/plugin.cpp:1089-1183 | the failing family: the same window is accepted before a recording vCPU's terminator and refused after it |
| `ActionWindows.LateWindowRejected` | native/qemu/plugin.cpp:1089-1183 | a concrete run from Hello whose exit drain is refused |
| `ActionCapture.FlushedReady` | native/core/trace.cpp:392-405 | with every vCPU active and flushed, the callbacks have left complete baselines: the boundary is ready |
| `ActionCapture.DrainFollows` | native/qemu/plugin.cpp:1055-1084 | every drain of the plugin's own capture is accepted, window and request included, legacy or mixed |
| `ActionCapture.StepFollows` | native/qemu/plugin.cpp:706-760 | callbacks, recorded blocks, window markers and drains each keep capture, windows and stream in agreement, and say exactly when their frames are accepted |
| `ActionCapture.RunAccepted` | native/qemu/plugin.cpp:1044-1087 | every run of callbacks, windows and drains is accepted exactly when names are printable and no frame holds neighbouring contexts; nothing is assumed of the stream |
| `ActionCapture.FinishedFollows` | native/qemu/plugin.cpp:1103-1138 | the whole exit is accepted exactly when no vCPU with rows in the open window has ended before |
| `ActionCapture.CompleteFollows` | native/core/trace.cpp:595-614 | after the exit Complete is accepted |
| `ActionCapture.ActionCaptureAccepted` | native/qemu/plugin.cpp:1089-1182 | a whole interactive capture from Hello to Complete: accepted exactly when names are printable, no frame holds neighbouring contexts, and no vCPU with rows in the last window has ended before the exit |
| `ActionCapture.BlocksAccepted` | native/qemu/plugin.cpp:1089-1182 | with block rows the condition on contexts always holds |
| `ActionCapture.StartJoined` | native/qemu/plugin.cpp:1411-1424 | the hypotheses hold after Hello |
| `Contexts.ChangesMeaning` | native/qemu/plugin.cpp:516-553 | the recorded positions are exactly those where the context changed, ascending |
| `Contexts.ItemsStep` | native/qemu/plugin.cpp:516-553 | later blocks never alter a retained row |
| `ReducedSources.ReducedSource.RecordBlock` | native/qemu/plugin.cpp:631-668 | a block is counted and its context retained exactly when it changed and there is room; only the block counter can be full |
| `ReducedSources.ReducedSource.constructor` | native/qemu/plugin.cpp:614-629 | a new source has recorded nothing |
| `ReducedSources.Count` | native/qemu/plugin.cpp:516-537 | the counter updates keep blocks, changes, retained and overflow exact |
| `ReducedSources.Publish` | native/qemu/plugin.cpp:983-1042 | closing builds every report; the cross-checks between the two sets of counters never fire |
| `ReducedSources.Report` | native/qemu/plugin.cpp:1003-1041 | rows and summary of one vCPU are those of its recorded blocks |
| `ReductionAcceptance.ContextFrameAccepted` | native/core/trace.cpp:445-472 | a frame of retained contexts is accepted by a stream that saw exactly the rows before it |
| `ReductionPublication.ReductionRoundTrip` | native/qemu/plugin.cpp:1025-1038 | a reduction summary decodes to itself |
| `ReductionPublication.ReportsAccepted` | native/core/trace.cpp:473-521 | the reports of any number of vCPUs are accepted in order |
| `ReductionPublication.SealingAccepted` | native/qemu/plugin.cpp:983-1042 | whatever was captured, rows, summaries and Complete are accepted |
| `ReducedCapture.RunTracks` | native/qemu/plugin.cpp:516-553 | every frame of every interleaving of block entries and flushes is accepted |
| `ReducedCapture.CaptureAccepted` | native/qemu/plugin.cpp:1089-1183 | a whole reduced capture, buffered contexts included, is accepted through Complete |
| `ReducedCapture.StartTracks` | native/qemu/plugin.cpp:614-629 | the hypothesis holds after Hello |
| `RowBatches.JoiningValid` | native/qemu/plugin.cpp:304-345 | appending keeps the buffer within one frame and accounts for every byte |
| `RowBatches.PayloadGrows` | native/qemu/plugin.cpp:311-328 | patching the last run header in place gives the encoding of the grouped rows |
| `SourceBuffer.Buffer.Append` | native/qemu/plugin.cpp:304-345 | append in place refines joining rows; a full buffer is published first, byte for byte |
| `SourceBuffer.Buffer.AppendMixed` | native/qemu/plugin.cpp:306-329 | the run path: fails exactly when the sequence is exhausted |
| `SourceBuffer.Buffer.AppendLegacy` | native/qemu/plugin.cpp:330-344 | the one-kind path; schema rows take no sequence number |
| `SourceBuffer.Buffer.MakeRoom` | native/qemu/plugin.cpp:307-310 | flushes exactly when the row does not fit, and keeps the open run located |
| `SourceBuffer.Buffer.Flush` | native/qemu/plugin.cpp:276-302 | publishes the buffered rows under the header of the batch and leaves the buffer empty |
| `SourceBuffer.Buffer.constructor` | native/qemu/plugin.cpp:276-302 | an empty buffer |
| `SourceBuffer.EncodeInto` | native/core/trace.cpp:24-32 | the header written in place is the encoded header, nothing else is touched |
| `SourceBuffer.OpenRun` | native/qemu/plugin.cpp:311-319 | writes an empty run header |
| `SourceBuffer.PatchRun` | native/qemu/plugin.cpp:320-322 | counts one more row in the run header and touches nothing else |
| `MixedTables.ParseRuns` | native/core/trace.cpp:348-373 | walking encoded runs from any run on gives exactly the runs from there |
| `MixedTables.TabulatedGrouped` | native/python/module.cpp:311-373 | each table holds exactly the rows of its kind under their own sequence numbers |
| `MixedTables.TableRowsBack` | native/python/module.cpp:311-373 | a table splits back into its rows |
| `MixedTables.MergeSelections` | native/python/module.cpp:311-373 | merging the tables by sequence number restores the original row order |
| `BatchRuns.FrameRoundTrip` | native/python/module.cpp:311-373 | a batched frame is legal and decodes to its rows |
| `BatchRuns.BatchingRoundTrip` | native/qemu/plugin.cpp:276-345 | over any appends and flushes no row is lost, repeated, renumbered or changed; the run fails exactly beyond 2^64 - 1 rows |
| `MixedDecoder.DecodeMixed` | native/python/module.cpp:311-373 | on a payload the validator accepted no bounds check fires and the tables hold exactly the rows of their kinds |
| `MixedDecoder.AddSequences` | native/python/module.cpp:311-344 | consecutive numbers from the first row of the run |
| `MixedDecoder.TableIndex` | native/python/module.cpp:311-344 | the table of a kind, or none |
| `RegisterSchemas.NameDecides` | native/core/trace.cpp:255-263 | a padded name is valid exactly when every byte is visible ASCII |
| `RegisterSchemas.SchemaAccepted` | native/core/trace.cpp:243-271 | a frame of schema rows continues the schema exactly when its names are printable, and the stream then knows exactly those registers |
| `RegisterSchemas.SetupAccepted` | native/qemu/plugin.cpp:395-500 | all schema frames of a starting vCPU, however many: accepted exactly when every name is printable |
| `RegisterSetup.CheckName` | native/qemu/plugin.cpp:433-443 | accepts exactly nonempty ASCII names of at most 63 bytes |
| `RegisterSetup.NameTaken` | native/qemu/plugin.cpp:444-448 | finds a name among the registers before |
| `RegisterSetup.DeclareAll` | native/qemu/plugin.cpp:408-499 | the setup loop on the real buffer: fails exactly on registers it must not declare, otherwise publishes exactly the schema frames |
| `RowAcceptance.BatchIsRows` | native/core/trace.cpp:348-373 | a flushed frame is accepted exactly when its rows would be one by one and no two contexts are neighbours in it; both leave the same state |
| `RowAcceptance.KindFrameIsRows` | native/core/trace.cpp:615-684 | a frame of one kind is accepted as its rows are |
| `RowAcceptance.RunsAreRows` | native/core/trace.cpp:348-373 | runs are accepted exactly when the rows are and no run holds two contexts |
| `RowAcceptance.RowsApplied` | native/core/trace.cpp:615-684 | rows of one source act on that source alone |
| `RowStreams.PutLeads` | native/qemu/plugin.cpp:304-345 | appending a row the validator would take next keeps buffer and stream consistent, frames sent on the way included |
| `RowStreams.FlushLeads` | native/qemu/plugin.cpp:276-302 | so does flushing |
| `CaptureRows.ContextFollows` | native/qemu/plugin.cpp:516-553 | an emitted context row is accepted and becomes the source's context |
| `CaptureRows.BlockFollows` | native/qemu/plugin.cpp:661-666 | an emitted block row is accepted after context and baselines |
| `CaptureRows.RegisterFollows` | native/qemu/plugin.cpp:563-582 | a register row is flagged as baseline exactly on the first sample and is accepted |
| `CaptureRows.MemoryFollows` | native/qemu/plugin.cpp:762-823 | a memory row names the latest context and is accepted |
| `CaptureRows.AccessValid` | native/qemu/plugin.cpp:762-823 | page bounds, mapping and value fields of a reported access satisfy every validator check |
| `RawCapture.RunAccepted` | native/qemu/plugin.cpp:614-920 | for every interleaving of starts, translations, block entries, samples, accesses, input requests, flushes and exits: the frames are accepted exactly when names are printable, input is requested only while recording, no frame holds two neighbouring contexts, and filtered rows fit the counter |
| `RawCapture.StartMoves` | native/qemu/plugin.cpp:614-629 | a vCPU may start at any time: its schema is accepted exactly when names are printable, and the stream then knows its registers |
| `RawCapture.LayoutAccepted` | native/qemu/plugin.cpp:826-838 | the code span announced by the first translation is accepted |
| `RawCapture.AskMoves` | native/qemu/plugin.cpp:880-911 | a request for standard input is accepted exactly when registers were sampled or there are none |
| `ContextCrowding.ActTurns` | native/qemu/plugin.cpp:516-553 | a callback makes two contexts neighbours exactly when it appends a changed one behind a context that is still the last buffered row and joins its frame |
| `ContextCrowding.RunCrowds` | native/qemu/plugin.cpp:516-553 | over every run neighbouring contexts appear exactly when some callback does so, read off the callbacks alone |
| `ContextCrowding.EventsAccepted` | native/core/trace.cpp:348-373 | every run that ends with empty buffers: accepted exactly when its callbacks never crowd contexts, names are printable and input is requested only while recording |
| `ContextCrowding.BlocksKeepApart` | native/qemu/plugin.cpp:649-666 | with block rows on no run ever sends neighbouring contexts |
| `RawTraces.HelloGreets` | native/core/trace.cpp:335-346 | a legal Hello is accepted first |
| `RawTraces.StartTracks` | native/qemu/plugin.cpp:1503 | a capture starts consistent after Hello |
| `RawTraces.BlocksAccepted` | native/qemu/plugin.cpp:631-704 | from any consistent point, with block rows: everything that follows is accepted exactly when names are printable and input is requested only while recording |
| `RawTraces.CompletesWhenEnded` | native/qemu/plugin.cpp:670-704 | once every started vCPU has ended, Complete is accepted |
| `RawTraces.RawCaptureAccepted` | native/qemu/plugin.cpp:1089-1182 | a whole raw capture with block rows, with or without registers and code span: accepted from Hello to Complete exactly when names are printable and input is requested only while recording |
| `RawTraces.TwinsRejected` | native/qemu/plugin.cpp:516-553 | a concrete run without block rows whose frame is refused |
| `RawTraces.SpacedNameRejected` | native/qemu/plugin.cpp:438-443 | a concrete run whose register name has a space: published by the plugin, refused by the stream |
| `RawTraces.EarlyInputRejected` | native/qemu/plugin.cpp:884-905 | a concrete run that reads standard input before the start block: the request is refused |
| `ContextFilters.AccountBalances` | native/core/context_filter.cpp:56-67 | accounting keeps kept + dropped = matching + foreign + unknown, and raises kept exactly by what the policy admits |
| `ContextFilters.SumBalances` | native/core/context_filter.cpp:8-20 | adding balanced books gives balanced books |
| `ContextFilters.ContextFilter.SetLatch` | native/core/context_filter.cpp:26-38 | latches exactly once |
| `ContextFilters.ContextFilter.Related` | native/core/context_filter.cpp:40-49 | a context matches exactly by paging root, and is unknown before the latch |
| `ContextFilters.ContextFilter.AddTo` | native/core/context_filter.cpp:56-67 | both counters are checked before either changes |
| `ContextFilters.ContextFilter.Configure` | native/core/context_filter.cpp:22 | sets the policy alone |
| `ContextFilters.ContextFilter.constructor` | native/core/context_filter.cpp:22-38 | nothing is latched |
| `FilterRuns.StepKeeps` | native/qemu/plugin.cpp:596-760 | each step of any vCPU keeps every book exact and the latch with one writer |
| `FilterRuns.RunKeeps` | native/qemu/plugin.cpp:596-760 | so does every interleaving, while inline counters have not wrapped |
| `FilterRuns.StartInv` | native/qemu/plugin.cpp:614-629 | the initial state satisfies the invariant |
| `FilterRuns.TotalsBalance` | native/qemu/plugin.cpp:1151-1174 | the sum over all vCPUs balances, and kept is exactly the rows emitted |
| `FilterRuns.FilterRoundTrip` | native/qemu/plugin.cpp:1151-1174 | the summary decodes to its fields |
| `FilterRuns.FilterSummaryAccepted` | native/core/trace.cpp:562-590 | the summary of any finished run is accepted exactly when kept + dropped fits 64 bits |
| `FilterRuns.FilterRowsCounted` | native/core/trace.cpp:562-590 | the validator's count is the memory rows on the wire |
| `FilterOverflow.SumOverflows` | native/core/trace.cpp:579-587 | a reachable run whose summary every stream refuses |
| `FilteredCapture.ActRows` | native/qemu/plugin.cpp:762-823 | a callback emits a memory row exactly when it is a recorded access |
| `FilteredCapture.RunAgrees` | native/qemu/plugin.cpp:596-823 | over every run the books count exactly the memory rows buffered and sent |
| `FilteredCapture.AwaitsSummary` | native/qemu/plugin.cpp:1151-1174 | once all vCPUs have ended the stream has counted exactly the kept accesses |
| `FilteredCapture.FilteredCaptureAccepted` | native/qemu/plugin.cpp:1089-1182 | a whole filtered capture: schemas, rows and terminators are accepted exactly when names are printable, the stream counts exactly the kept accesses, and summary and Complete follow exactly when kept + dropped fits 64 bits |
| `FilteredCapture.StartsTogether` | native/qemu/plugin.cpp:614-629 | the hypotheses hold after Hello |
| `KernelProtocol.RunKeeps` | native/worker/kernel.cpp:287-562 | in every interleaving of guest, QEMU, plugin and worker the log stays in the language that repeats ready, stop, stopped, drain, sealed, act, continue |
| `KernelProtocol.StepKeeps` | native/worker/kernel.cpp:360-557 | each step keeps the protocol phase equal to the worker's flags, the queued command and the machine state |
| `KernelProtocol.ActsWhileStopped` | native/worker/kernel.cpp:383-415 | an action reaches the guest only on the seal of the open drain, machine stopped, nothing queued |
| `KernelProtocol.CompletesIdle` | native/worker/kernel.cpp:505-526 | completion is accepted only with no request open |
| `KernelProtocol.OneEach` | native/worker/kernel.cpp:383-455 | each ready gets exactly one stop, drain, action and continue |
| `KernelProtocol.PausedStartIsNeeded` | native/worker/kernel.cpp:254 | shows that the order depends on QEMU starting paused |
| `KernelWorker.EventLoop.Iterate` | native/worker/kernel.cpp:360-557 | one loop iteration refines the handlers in order: frame, QMP lines, guest lines, stop |
| `KernelWorker.EventLoop.TakeFrame` | native/worker/kernel.cpp:360-418 | a trace frame is handled as the protocol says |
| `KernelWorker.EventLoop.TakeMessage` | native/worker/kernel.cpp:422-455 | a QMP line is handled as the protocol says |
| `KernelWorker.EventLoop.TakeAnswer` | native/worker/kernel.cpp:434-455 | the answer the loop waits for: capabilities are followed by a resume, a stop by a drain |
| `KernelWorker.EventLoop.TakeEvent` | native/worker/kernel.cpp:505-526 | a guest event is handled as the protocol says |
| `KernelWorker.EventLoop.TakeMessages` | native/worker/kernel.cpp:422-471 | the line loop handles every buffered message or stops at the first failure |
| `KernelWorker.EventLoop.TakeEvents` | native/worker/kernel.cpp:474-550 | the line loop handles every buffered event or stops at the first failure |
| `KernelWorker.EventLoop.MaybeStop` | native/worker/kernel.cpp:551-557 | a stop is sent exactly for an open request with no command pending and no drain |
| `KernelWorker.EventLoop.Send` | native/worker/kernel.cpp:322-335 | one command is queued under a fresh identifier |
| `KernelWorker.IterationIsRun` | native/worker/kernel.cpp:287-562 | an iteration is a run of protocol steps, so RunKeeps covers the loop |
| `FrameRing.RunKeeps` | native/include/cpu2tensor/frame_ring.hpp:37-68 | for every interleaving of byte copies and cursor accesses: pops are a prefix of pushes, occupancy is the cursors' 64-bit difference and stays within capacity |
| `FrameRing.HeldViewStays` | native/include/cpu2tensor/frame_ring.hpp:55-60 | no producer step changes a byte of the frame the consumer holds |
| `FrameRing.DecideKeeps` | native/include/cpu2tensor/frame_ring.hpp:37-51 | a stale cursor never makes a full ring look free |
| `FrameRing.FoundKeeps` | native/include/cpu2tensor/frame_ring.hpp:55-60 | a stale write cursor never makes an empty ring look filled |
| `FrameRing.Starts` | native/include/cpu2tensor/frame_ring.hpp:37-68 | an empty ring satisfies the invariant |
| `Wrapping.WrapDistance` | native/include/cpu2tensor/frame_ring.hpp:37-51 | cursor distance and equality survive the wrap |
| `Wrapping.WrapIndex` | native/include/cpu2tensor/frame_ring.hpp:37-60 | masking a wrapped cursor gives the right slot, because capacity is a power of two |
| `Wrapping.SlotsApart` | native/include/cpu2tensor/frame_ring.hpp:37-60 | cursors less than a lap apart never share a slot |
| `FrameQueue.Queue.TryPush` | native/include/cpu2tensor/frame_ring.hpp:37-51 | refuses illegal sizes, reports full, else appends |
| `FrameQueue.Queue.Front` | native/include/cpu2tensor/frame_ring.hpp:55-60 | the oldest frame |
| `FrameQueue.Queue.Pop` | native/include/cpu2tensor/frame_ring.hpp:62-68 | removes the oldest frame |
| `Collector.StepKeeps` | native/qemu/plugin.cpp:241-345 | each step of vCPUs, collector and control thread, the unlocked flush of a full buffer included, keeps buffers, rings and wire in order |
| `Collector.RunKeeps` | native/qemu/plugin.cpp:241-302 | so does every interleaving |
| `Collector.StartInv` | native/qemu/plugin.cpp:241-302 | the initial state satisfies the invariant |
| `Collector.WireOrder` | native/qemu/plugin.cpp:252-302 | each vCPU's frames are on the wire in flush order; after its terminator nothing, and then everything it appended is there |
| `Collector.RequestAfterEverything` | native/qemu/plugin.cpp:1044-1087 | a drain requests the next action only after every row appended before the stop is on the wire |
| `Collector.StoppedAppendsNothing` | native/qemu/plugin.cpp:1044-1087 | no vCPU appends while the world is stopped |
| `ContextGroups.DecodeGroup` | native/python/module.cpp:504-608 | one group per source with exactly the rows its frames decode to one by one, for precisely the frames before the first that fails; after a group without error the stream has taken all of it |
| `ContextGroups.CountRows` | native/python/module.cpp:381-404 | succeeds exactly on frames with only blocks and contexts, and counts them |
| `ContextGroups.FillFrame` | native/python/module.cpp:453-483 | the filling pass advances by exactly what the counting pass counted |
| `ContextGroups.FillRun` | native/python/module.cpp:453-483 | one run's rows land behind the cursor |
| `ContextGroups.ReadFrames` | native/python/module.cpp:519-543 | stops at the first buffer that is not one whole mixed frame |
| `ContextGroups.AcceptFrames` | native/python/module.cpp:550-559 | stops at the first frame the stream refuses |
| `ContextGroups.CountFrames` | native/python/module.cpp:550-608 | tallies per source in order of first occurrence |
| `ContextGroups.FindTally` | native/python/module.cpp:550-608 | the first tally of a source |
| `ContextGroups.FillSource` | native/python/module.cpp:550-608 | buffers of the counted size are filled to the last row |
| `ContextGroups.FillGroups` | native/python/module.cpp:550-608 | one group per source, in order |
| `GroupDecoding.EntriesAreTables` | native/python/module.cpp:453-483 | the filled columns are the tables of the single-frame decoder |
| `GroupDecoding.PublishedPrefix` | native/python/module.cpp:550-608 | the published frames are accepted, and the first unpublished one fails to parse, to validate or to be context-only |
| `GroupDecoding.SourcesMeaning` | native/python/module.cpp:550-608 | each source that occurs is listed exactly once |
| `CollatorRuns.RunCollates` | python/cpu2tensor/_batching.py:104-151 | for every sequence of calls on batches with consistent columns: calls succeed, bounds hold, and output plus pending is exactly the input per CPU and signal |
| `CollatorRuns.CallCollates` | python/cpu2tensor/_batching.py:118-151 | the same for one call |
| `CollatorRuns.AddedBounds` | python/cpu2tensor/_batching.py:118-144 | pending bytes stay below twice the target, each CPU below the target, frames within their limit |
| `CollatorRuns.AddedConserves` | python/cpu2tensor/_batching.py:118-144 | flushed plus pending batches of a CPU are the old pending ones plus the new one, in order |
| `CollatorRuns.ConformingMerge` | python/cpu2tensor/_batching.py:50-85 | batches of one CPU with the same optional columns always merge |
| `Collation.MergeRows` | python/cpu2tensor/_batching.py:50-85 | a merge has exactly the rows of its inputs, in order, for every signal |
| `Batches.MergeKeepsRows` | python/cpu2tensor/_batching.py:50-85 | padding and concatenation keep each row's sequence, cells and own bytes |
| `Batches.RowsConcat` | python/cpu2tensor/_batching.py:40-47 | columns laid end to end are rows laid end to end |
| `BatchCollator.OptionalColumn` | python/cpu2tensor/_batching.py:31-37 | a column is merged exactly when all tables or none have it |
| `BatchCollator.PaddedValues` | python/cpu2tensor/_batching.py:50-85 | the padding loop |
| `BatchCollator.JoinedSequences` | python/cpu2tensor/_batching.py:40-47 | explicit row sequences in order |
| `BatchCollator.MergeTables` | python/cpu2tensor/_batching.py:50-85 | fails exactly on inconsistent optional columns |
| `BatchCollator.MergeSignal` | python/cpu2tensor/_batching.py:50-85 | one signal over all batches |
| `BatchCollator.MergeBatches` | python/cpu2tensor/_batching.py:50-85 | fails exactly when CPUs or optional columns disagree |
| `BatchCollator.NewCollator` | python/cpu2tensor/_batching.py:104-110 | refuses targets outside 1 byte to 4 MiB |
| `BatchCollator.Collator.FlushAt` | python/cpu2tensor/_batching.py:112-116 | takes out one source and merges what it held |
| `BatchCollator.Collator.TrimPending` | python/cpu2tensor/_batching.py:118-144 | flushes oldest sources until the limits hold |
| `BatchCollator.Collator.Join` | python/cpu2tensor/_batching.py:118-144 | a batch joins the pending ones of its CPU |
| `BatchCollator.Collator.Add` | python/cpu2tensor/_batching.py:118-144 | special batches pass through, unusable ones are refused without change, others flush exactly what the specification says |
| `BatchCollator.Collator.End` | python/cpu2tensor/_batching.py:146-148 | everything pending of one CPU |
| `BatchCollator.Collator.FinishAll` | python/cpu2tensor/_batching.py:150-151 | everything pending, oldest source first |
| `Readers.RunKeeps` | python/cpu2tensor/_multipool.py:84-158 | in every interleaving deliveries of a worker are a prefix of what it produced; after a clean end they are all of it |
| `Readers.CleanEnd` | python/cpu2tensor/_multipool.py:125-153 | the reader ends cleanly only when every thread is gone and every slot is empty |
| `Readers.Fairness` | python/cpu2tensor/_multipool.py:125-153 | a filled slot waits for at most N - 1 deliveries of other workers |
| `Readers.StartInv` | python/cpu2tensor/_multipool.py:84-111 | the initial state satisfies the invariant |
| `EndpointReaders.Shared.TakeTurn` | python/cpu2tensor/_multipool.py:125-153 | one turn of the consumer is the rotation's step: first filled slot, failure or end |
| `EndpointReaders.Shared.Put` | python/cpu2tensor/_multipool.py:84-111 | a batch is stored exactly when the pool is open |
| `EndpointReaders.Shared.Fail` | python/cpu2tensor/_multipool.py:84-111 | only the first failure of an open pool is kept |
| `EndpointReaders.Shared.Finish` | python/cpu2tensor/_multipool.py:84-111 | a thread leaves |
| `EndpointReaders.Shared.Shutdown` | python/cpu2tensor/_multipool.py:163-174 | close empties every slot |
| `EndpointReaders.Shared.constructor` | python/cpu2tensor/_multipool.py:22-64 | empty slots, nobody finished |
| `GuestPayload.ScanMeaning` | native/worker/kernel_protocol.hpp:82-125 | the scan ends at a position exactly when a JSON-shaped object of bounded depth ends there |
| `GuestPayload.ScanObject` | native/worker/kernel_protocol.hpp:82-125 | the scanner closes exactly at the end of the first object, and on none that nests too deep |
| `GuestPayload.UniqueBoundary` | native/worker/kernel_protocol.hpp:82-125 | no object is a proper prefix of another |
| `GuestLines.SplitPayload` | native/worker/kernel_protocol.hpp:82-125 | the splitting loop computes the specified split |
| `GuestLines.SplitsAtObject` | native/worker/kernel_protocol.hpp:82-125 | any split is at the end of the first whole object, and an accepted suffix carries no event marker |
| `GuestLines.RecoversObject` | native/worker/kernel_protocol.hpp:82-125 | an object followed by a kernel log line is recovered exactly |
| `GuestLines.DeepStaysWhole` | native/worker/kernel_protocol.hpp:82-125 | an over-deep object is never cut at an earlier brace |
| `GuestLines.Finish` | native/worker/kernel_protocol.hpp:112-122 | blanks are skipped and the suffix classified |
| `GuestLines.IsPrintk` | native/worker/kernel_protocol.hpp:56-76 | accepts exactly the kernel's log form without the event marker |
| `GuestLines.ContainsMarker` | native/worker/kernel_protocol.hpp:49-54 | finds the marker anywhere |

## Findings

Five properties that the parts suggest are false of the code as it stands. Each has a run
that breaks it and the exact condition under which it holds.

- **The window drained at exit can be refused.** `finish` publishes the open window without looking
  at the vCPUs, but a vCPU's exit callback has already sent its terminator, and the validator takes no
  transition row of an ended source. `ActionWindows.LateWindowRejected` is the run,
  `ActionWindows.FinishAfterSourceEnd` the family. `ActionWindows.FinishAccepted` and
  `ActionCapture.ActionCaptureAccepted` give the condition: no window open, or no vCPU with rows in it has
  ended (`native/qemu/plugin.cpp:1089`, `native/core/trace.cpp:414`).
- **A correct filter summary can be refused.** Each of the five totals is checked against 64 bits on
  its own, the validator also needs kept + dropped to fit. `FilterOverflow.SumOverflows` is a run with one
  kept access and 2^64 - 1 dropped ones, `FilterRuns.FilterSummaryAccepted` and
  `FilteredCapture.FilteredCaptureAccepted` the condition (`native/core/context_filter.cpp:8`,
  `native/core/trace.cpp:562`).
- **Without block rows, contexts can share a frame that is refused.** A frame or run of contexts must hold one
  row, but with blocks off two context changes in a row are appended to the same buffer.
  `RawTraces.TwinsRejected` is the run, `ContextCrowding.EventsAccepted` the condition on the callbacks, and
  `ContextCrowding.BlocksKeepApart` shows that block rows always prevent it (`native/qemu/plugin.cpp:516`,
  `native/core/trace.cpp:44`).
- **A register name the plugin publishes can be refused.** `register_setup` turns away names with bytes above
  127, the validator those with bytes below 33 or above 126. Where all registers are selected, a descriptor
  named `a b` ends the trace. `RawTraces.SpacedNameRejected` is the run, `RegisterSchemas.SetupAccepted` the
  condition: every name is visible ASCII (`native/qemu/plugin.cpp:440`, `native/core/trace.cpp:258`).
- **Reading standard input before the start block is refused.** With a start address, a system call before it
  samples no register, but the input request is sent all the same, and the validator wants a complete
  baseline. `RawTraces.EarlyInputRejected` is the run, `RawCapture.AskMoves` the condition: registers were
  sampled, or there are none (`native/qemu/plugin.cpp:884`, `native/core/trace.cpp:650`).

## Left out

- ActionWindows.RunAccepted: takes capture frames as given and one unmixed frame a step; `ActionCapture.RunAccepted`
  is the full form, in which they come from the callbacks.
- Sockets, poll, fork, deadlines, signals and process cleanup of the workers: bytes and events arrive as parameters.
- QEMU itself: which blocks, accesses, registers and contexts are reported is arbitrary; which registers a profile
  selects and whether the program counter is among them is arbitrary too. Option parsing is reduced to the
  combinations it lets through.
- The wait for input: the process stops at an input request and the worker writes the answer; the trace only shows
  the request.
- Memory orderings weaker than sequential consistency, and failed allocations: threads interleave atomic steps; in
  `FrameRing` a loaded cursor may be stale when it is used.
- State after a refused frame: the C++ validator may keep part of an update, the connection ends there; the model
  promises nothing about it.
- Null payload pointers: a payload is a byte sequence of the size the header announces.
- Collector: models the ring publication path and the drain; `finish` joining the collector thread is not part of it.
- KernelProtocol: the client's action socket, timeouts and a refused trace inside the loop end the run and are not
  modelled further.
- Readers: thread start, device transfer and the per-worker transport are outside; a worker's production is arbitrary.
- BatchCollator: torch storage and devices; a memory row's 16 value bytes are one cell that weighs 16.
- GuestPayload: numbers, strings and literals are scanned as the source does, by brackets and quotes; json-c, which
  parses the object afterwards, is not modelled.
- Parallel arrays of the two reducers' tables are sequences of records, which have no aliasing between columns.
- Hardware tracing (Linux perf, Intel PT, Windows WPR), the Gymnasium wrappers, the pretraining examples and the
  development tooling: separate from the capture pipeline modelled here.
