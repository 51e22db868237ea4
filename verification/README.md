# Verified model of a terminal coding agent's client and stream core

A Dafny model of the stateful pieces of one terminal coding agent: how transcript
rows reach the terminal's own scrollback exactly once, how clients attach to a run
and settle approvals, how a provider's stream becomes a message, how the log folds,
and how the prompt editor keeps lines, cursor and undo straight. `dafny verify
dfyconfig.toml` checks every file.

Each mutable object of the program is a class whose methods are proved against a
specification on values; what the program promises is then proved about that
specification, for every input or every run.

- `Emission.dfy`, `EmissionLaws.dfy`, `EmissionRuns.dfy`, `EmissionReplay.dfy`,
  `EmissionRewind.dfy`, `EmissionStory.dfy`, `Transcript.dfy`: the paced emission
  queue. `Inv` ties the six counters together; `ExactlyOnce`, `ReplayIsScrollback`,
  `RequeuedAtWidth` and `BlocksTell` are the main results.
- `Contract.dfy`: the shared wire vocabulary.
- `StableSort.dfy`, `Assembler.dfy`, `Arguments.dfy`, `AssemblerLaws.dfy`,
  `AssemblerNotes.dfy`, `StreamMap.dfy`, `RoundTrip.dfy`: stream aggregation. `MapThenAssemble`,
  `InterleavingIndependent` and `LiveViewMatches` are the main results.
- `Trajectory.dfy`, `TrajectoryLaws.dfy`, `TrajectoryContent.dfy`: the log fold, message
  by message (`MessagesAre`), and the anchor walk.
- `Transport.dfy`, `Broadcaster.dfy`, `Tails.dfy`, `ApprovalLaws.dfy`,
  `HandshakeLaws.dfy`: the hub, its bounded tails, which decision counts, and what an
  attach hands out. `TailsExact`, `PendingShowsFirstAnswers`, `SettlementsExact`,
  `SettledOncePerRequest` and `OpenTurnHandedOut` are the main results.
- `Dialog.dfy`, `DialogFeeds.dfy`, `Clients.dfy`, `Convergence.dfy`, `Feeds.dfy`,
  `Attach.dfy`, `AnswerLaws.dfy`: the approval dialog, a client's picture of the open
  approvals, exactly when it agrees with the hub from any attach point
  (`AgreesThroughout`, `AttachAnywhere`), and that an answer reaches the call the user
  was looking at (`AnswerReachesCall`).
- `Terminal.dfy`, `StyleLaws.dfy`, `HistoryInsert.dfy`, `HistoryLaws.dfy`, `Shell.dfy`,
  `ShellLaws.dfy`: a terminal (screen, scrollback, scrolling region, pen) with the
  control functions CUP, ED and EL of ECMA-48 (sections 8.3.21, 8.3.39 and 8.3.41)
  and DECSTBM; the programs written to it; and `InsertAppends`, `HeightConserves`,
  `HeightPlaces`, `ReplayAppends` and `RunAppends`.
- `Scrollback.dfy`: the two together, every row of the transcript in the terminal's
  history exactly once (`TranscriptReachesHistory`).
- `EditorText.dfy`, `FlatEditor.dfy`, `Composer.dfy`, `EditorLaws.dfy`,
  `EditorMeaning.dfy`, `Layout.dfy`: the composer refines a flat text editor; what each
  key does to the text; bounded undo; wrapping.
- `Prelude.dfy`: sequence windows used throughout.

Two promises do not hold of every input, and the condition under which they do is
proved both ways. History insertion through a partial scrolling region appends only on
terminals that keep departing rows (`Safe`, `ScrollSafe`), which is why the program
takes the full-screen strategy on the one it knows not to (`ChoiceIsSafe`). And client
and hub part where the stream repeats an id harmfully: the hub ignores a repeated event
id and acts on the oldest batch of a request id, while the client goes by position and
acts on its slots and dialogs of that id. They agree after every message exactly when
the client acts on no batch but those the hub acts on (`ItemExact`,
`AgreesThroughout`); with request ids distinct among the open ones, exactly when each
repeated event finds nothing left to do (`RepeatAgrees`, `HarmlessRepeats`).
`RepeatDiverges` and `TwinsPart` show the two ways to part.

The parameters of the model are the markdown pipeline and the word wrapper (`Env`,
with the law that a stable line survives later text), the re-wrapping of a row too wide
for the screen (`Wrapper`: some rows, all of which fit), a partial JSON parser, the
terminal's two quirks, and the outcome of each write to the terminal.

## Model

| member | source | states |
|---|---|---|
| Transcripts.Transcript.constructor | crates/cadmus-tui/src/transcript.rs:213-216 | a new transcript has no block, nothing queued and nothing confirmed |
| Transcripts.Transcript.SealOpen | crates/cadmus-tui/src/transcript.rs:812-819 | closes the open assistant block over its own source; the counter invariant survives |
| Transcripts.Transcript.Push | crates/cadmus-tui/src/transcript.rs:252-277 | a prompt, note or marker becomes a block of its own after sealing the open one, so that only the tail block is ever open |
| Transcripts.Transcript.AgentBlock | crates/cadmus-tui/src/transcript.rs:793-808 | afterwards the open block is the tail and belongs to the turn; a different turn seals the old one |
| Transcripts.Transcript.PushDelta | crates/cadmus-tui/src/transcript.rs:301-312 | a delta extends the source of the open tail block and of nothing else |
| Transcripts.Transcript.ApplyResponse | crates/cadmus-tui/src/transcript.rs:845-871 | a response finalizes the open turn with its text, or becomes a finished block when no delta arrived |
| Transcripts.Transcript.Materialize | crates/cadmus-tui/src/transcript.rs:534-607 | the materialization loop is one pass of the queue specification, and `tail_live` says exactly whether the open tail still has unstable lines |
| Transcripts.Transcript.QueueAgent | crates/cadmus-tui/src/transcript.rs:552-603 | no subtraction underflows, only newly stable lines are queued, and the completing ack is queued exactly when a sealed block has nothing live left |
| Transcripts.Transcript.PendingRows | crates/cadmus-tui/src/transcript.rs:609-613 | the queue depth is the number of rows not yet drained |
| Transcripts.Transcript.PopFront | crates/cadmus-tui/src/transcript.rs:628-641 | up to `room` rows leave the front emission and its prefix count grows by as many |
| Transcripts.Transcript.Drain | crates/cadmus-tui/src/transcript.rs:622-642 | the rows and acks a budget takes; an ack leaves only with the last row of its slice |
| Transcripts.Transcript.ApplyFlush | crates/cadmus-tui/src/transcript.rs:706-728 | confirmation moves `acked` and `flushed` past exactly the acknowledged slices and remembers the partly drained front |
| Transcripts.Transcript.PumpRows | crates/cadmus-tui/src/app.rs:513-585 | one pump: materialize, drain, insert, confirm, in that order, with the invariant restored at the end |
| Transcripts.Transcript.RewindQueue | crates/cadmus-tui/src/transcript.rs:661-701 | a width change folds every unconfirmed slice back into its block, except a front that already lost rows |
| Transcripts.Transcript.FoldBlocks | crates/cadmus-tui/src/transcript.rs:696-700 | the fold-back loop sets `emitted` to `acked` in every assistant block from the given one on and touches no other block |
| Transcripts.Transcript.Replay | crates/cadmus-tui/src/transcript.rs:740-789 | the newest-first walk over the blocks returns the replay specification |
| EmissionLaws.SealKeeps | crates/cadmus-tui/src/transcript.rs:812-819 | sealing keeps the alignment of the six counters and changes no confirmed position |
| EmissionLaws.PushStaticKeeps | crates/cadmus-tui/src/transcript.rs:252-277 | so does pushing a block |
| EmissionLaws.DeltaKeeps | crates/cadmus-tui/src/transcript.rs:793-808 | so does a delta: only the tail grows and every queued slice keeps its lines |
| EmissionLaws.ResponseKeeps | crates/cadmus-tui/src/transcript.rs:845-871 | so does a response that extends the deltas seen |
| EmissionLaws.QueueBlockKeeps | crates/cadmus-tui/src/transcript.rs:542-605 | queueing one block keeps the queue aligned with the blocks it was cut from |
| EmissionLaws.SnapshotKeeps | crates/cadmus-tui/src/transcript.rs:534-607 | a whole pass does, at any width |
| EmissionLaws.RewindKeeps | crates/cadmus-tui/src/transcript.rs:661-701 | so does the rewind, also around a partly drained front |
| EmissionLaws.DrainExact | crates/cadmus-tui/src/transcript.rs:614-642 | drained rows and kept rows together are the queued rows in order, and the acks are those of the slices that left whole |
| EmissionRuns.AckWalk | crates/cadmus-tui/src/transcript.rs:706-721 | walking the acks from `flushed` ends exactly where the drained slices end |
| EmissionRuns.PumpKeeps | crates/cadmus-tui/src/transcript.rs:614-728 | drain then confirm keeps the invariant, the acks always fit the unflushed blocks, and the confirmed cursor moves to the end of what was drained |
| EmissionRuns.StepExact | crates/cadmus-tui/src/transcript.rs:26-35 | every step of the app keeps: confirmed rows are the wraps of consecutive slices from the first line to the confirmed cursor, plus the confirmed prefix of the front |
| EmissionRuns.SlicesTile | crates/cadmus-tui/src/transcript.rs:118-138 | consecutive slices tile: their lines, one after the other, are the blocks' lines, none lost, repeated or reordered |
| EmissionRuns.ExactlyOnce | crates/cadmus-tui/src/transcript.rs:104-138 | over every run of pushes, deltas, responses, passes at any width, drains of any budget and width changes, every line before the confirmed cursor was emitted exactly once, in block order |
| EmissionRuns.RunWidth | crates/cadmus-tui/src/transcript.rs:642-660 | a run that only materializes at one width holds and confirmed only rows wrapped at that width |
| EmissionRuns.ScrollbackIsTranscript | crates/cadmus-tui/src/transcript.rs:26-35 | at one width, scrollback is the wrap of the transcript up to the confirmed cursor, plus the front's confirmed prefix |
| EmissionReplay.ReplayWindow | crates/cadmus-tui/src/transcript.rs:748-788 | the windowed newest-first walk is the last `max` rows of the whole replay |
| EmissionReplay.PartialIsFront | crates/cadmus-tui/src/transcript.rs:765-781 | the partial rows rebuilt from the source slice at the old width are the rows that really left |
| EmissionReplay.ReplayIsConfirmed | crates/cadmus-tui/src/transcript.rs:730-789 | at any width, replay is the confirmed lines wrapped at that width and the confirmed rows of the front, cut to the window; nothing queued or unstable leaks in |
| EmissionReplay.ReplayIsScrollback | crates/cadmus-tui/src/transcript.rs:730-789 | when every row was queued at one width, replay equals the last `max` rows ever confirmed |
| EmissionReplay.DumpCompletes | crates/cadmus-tui/src/app.rs:505-529 | one whole pump leaves the queue empty and everything stable in scrollback, each line once |
| EmissionRewind.WidthChangeClears | crates/cadmus-tui/src/transcript.rs:661-701 | right after a width change, whatever the run: the queue is empty, or exactly the front that had rows out, nothing reached scrollback and the confirmed position stays |
| EmissionRewind.RequeuedAtWidth | crates/cadmus-tui/src/transcript.rs:642-660 | after a width change and the next pass, every emission with no row out is wrapped at the new width, only the front may be otherwise, and the queue reaches the end of everything stable |
| EmissionRewind.DrainTakes | crates/cadmus-tui/src/transcript.rs:614-642 | a drain takes as many rows as budget and queue allow, also out of the middle of one emission |
| EmissionRewind.PumpTakes | crates/cadmus-tui/src/app.rs:513-585 | a pump of any run confirms exactly the next rows in line, up to its budget |
| EmissionStory.BlocksTell | crates/cadmus-tui/src/transcript.rs:252-312 | after every run the blocks say exactly what was told: each note where it came, each turn's deltas joined, a response in place of its turn's text or as an entry of its own |
| StableSort.SortKeeps | crates/cadmus-core/src/assembler.rs:164-172 | sorting by index keeps, for every index, the elements filed under it in their order |
| StableSort.SortedUnique | crates/cadmus-core/src/assembler.rs:164-172 | a sorted list is determined by what is filed under each index |
| Assembler.MessageAssembler.constructor | crates/cadmus-core/src/assembler.rs:46-49 | a new assembler holds nothing |
| Assembler.MessageAssembler.PushChunk | crates/cadmus-core/src/assembler.rs:51-104 | each chunk acts on its own channel: text and reasoning append, starts open or replace a partial, arguments extend it, ends seal it, opaque values merge, usage and finish are the latest |
| Assembler.MessageAssembler.Seal | crates/cadmus-core/src/assembler.rs:212-234 | sealing parses the trimmed arguments, an empty text as the empty object, and quarantines what does not parse |
| Assembler.MessageAssembler.SortedKeys | crates/cadmus-core/src/assembler.rs:145-151 | open calls are listed in ascending index order |
| Assembler.MessageAssembler.TakeSnapshot | crates/cadmus-core/src/assembler.rs:111-143 | the live view of the present fold |
| Assembler.MessageAssembler.Quarantine | crates/cadmus-core/src/assembler.rs:145-151 | one warning for each call left open |
| Assembler.MessageAssembler.BuildContent | crates/cadmus-core/src/assembler.rs:153-172 | reasoning, then text, then the calls by index rather than by completion |
| Assembler.MessageAssembler.Finish | crates/cadmus-core/src/assembler.rs:145-210 | the finished turn, with its outcome |
| AssemblerLaws.FoldConcat | crates/cadmus-core/src/assembler.rs:51-104 | folding two chunk lists one after the other is folding their concatenation |
| AssemblerLaws.LaneFollows | crates/cadmus-core/src/assembler.rs:51-104 | what the assembler holds for a tool index depends only on the chunks addressed to that index, run through the start/arguments/end automaton |
| AssemblerLaws.FieldsFollow | crates/cadmus-core/src/assembler.rs:51-104 | text, reasoning, opaque value, usage and finish are functions of their own projections |
| AssemblerLaws.InterleavingIndependent | crates/cadmus-core/src/assembler.rs:145-210 | two streams with equal projections assemble to the same message, usage, finish and outcome, quarantine the same calls and look the same live, whatever the interleaving |
| AssemblerLaws.SnapshotSplits | crates/cadmus-core/src/assembler.rs:111-143 | a snapshot's calls are the sealed ones in wire order and the open ones, merged by index |
| AssemblerLaws.LiveViewMatches | crates/cadmus-core/src/assembler.rs:106-210 | at every prefix of a stream the sealed calls of the snapshot are, in order, the calls completion would emit, and the open ones are those it would quarantine, with equal text, reasoning and usage |
| Arguments.SpaceAside | crates/cadmus-core/src/assembler.rs:212-217 | whatever white space stands around it, the core of the argument text is what is parsed |
| Arguments.ArgumentsMean | crates/cadmus-core/src/assembler.rs:212-217 | arguments that are all white space are the empty object, any others the parse of what stands between the white space |
| Arguments.SealedOrQuarantined | crates/cadmus-core/src/assembler.rs:205-234 | a call is sealed with those arguments under its own id and name, and quarantined exactly when they do not parse |
| AssemblerNotes.WarningsAre | crates/cadmus-core/src/assembler.rs:51-104 | a stream is warned of exactly its reused, made-up, stray and unparsable calls, in stream order |
| AssemblerNotes.OutcomeIs | crates/cadmus-core/src/assembler.rs:174-210 | a turn with neither text nor call is empty unless it reasoned within its length; any other is truncated while a call is open or the terminal chunk is missing |
| AssemblerNotes.OpaqueMerges | crates/cadmus-core/src/assembler.rs:236-246 | opaque objects merge with the newest entry of a key on top; a value that is no object starts over |
| AssemblerNotes.MadeUpIds | crates/cadmus-core/src/assembler.rs:60-90 | a fragment without a start makes a call named by its index in decimal, no two indices alike |
| StreamMap.StreamMapper.constructor | crates/cadmus-llm-openai/src/stream_map.rs:26-32 | a fresh mapper knows no call |
| StreamMap.StreamMapper.Map | crates/cadmus-llm-openai/src/stream_map.rs:35-48 | each provider event becomes its chunks |
| StreamMap.StreamMapper.MapToolCall | crates/cadmus-llm-openai/src/stream_map.rs:50-82 | an accumulated call becomes a start, the suffix not yet sent, or nothing; a shrunk snapshot sends nothing |
| StreamMap.StreamMapper.FinishAll | crates/cadmus-llm-openai/src/stream_map.rs:84-102 | the end closes every call in index order, reports usage and finishes |
| RoundTrip.LongestIs | crates/cadmus-llm-openai/src/stream_map.rs:105-125 | the longest accumulated text of a call is one of its snapshots, and no snapshot of it is longer |
| RoundTrip.LongestCovers | crates/cadmus-llm-openai/src/stream_map.rs:105-125 | when the snapshots of a call form a prefix chain, every one of them is a prefix of the longest |
| RoundTrip.OrderIs | crates/cadmus-llm-openai/src/stream_map.rs:27-32 | the call order lists each id once, in order of first appearance |
| RoundTrip.StepKnown | crates/cadmus-llm-openai/src/stream_map.rs:35-82 | after every event, mapper and assembler agree: each call in first-appearance order holds its first name and its longest text |
| RoundTrip.EndsSeal | crates/cadmus-llm-openai/src/stream_map.rs:84-102 | the closing chunks seal every open call, in index order |
| RoundTrip.MapThenAssemble | crates/cadmus-llm-openai/src/stream_map.rs:35-125 | for any stream of prefix-chain snapshots ended once, mapping then assembling yields the text, the reasoning, the calls in first-appearance order with first-seen name and the parse of their longest arguments, the usage, the finish, the outcome and one warning for each call that does not parse |
| RoundTrip.ChunksDisciplined | crates/cadmus-llm-openai/src/stream_map.rs:50-102 | the mapped chunks obey the index discipline: starts take the next index, arguments address started calls, ends come in order, `Done` is last and only then |
| Trajectory.ReplayTrace | crates/cadmus-core/src/trajectory.rs:50-162 | the loop over the log is the fold, for every log |
| Trajectory.FoldEvent | crates/cadmus-core/src/trajectory.rs:72-158 | one event's effect on the run state and the open calls |
| Trajectory.LatestResponseAnchor | crates/cadmus-core/src/trajectory.rs:176-205 | the second walk over the log is the anchor specification |
| TrajectoryLaws.AnchorAgrees | crates/cadmus-core/src/trajectory.rs:164-205 | when the anchor is (t, i), message i of the fold is the message of the last non-duplicate response and t its turn; it is absent exactly when there is none with a turn |
| TrajectoryLaws.MessagesGrow | crates/cadmus-core/src/trajectory.rs:65-157 | once the first start is in the log, later events only extend the messages |
| TrajectoryLaws.AnchorStays | crates/cadmus-core/src/trajectory.rs:164-205 | so a stored message index stays valid for good |
| TrajectoryLaws.DedupIds | crates/cadmus-transport/src/lib.rs:216-221 | keeping the first event of each id keeps the set of ids |
| TrajectoryLaws.DedupFolds | crates/cadmus-transport/src/lib.rs:216-261 | the deduplicated log folds to the same state and anchor as everything published |
| TrajectoryLaws.DuplicateInvisible | crates/cadmus-core/src/trajectory.rs:65-72 | a duplicate anywhere after its first occurrence changes neither the fold nor the anchor |
| TrajectoryLaws.ProjectionsHold | crates/cadmus-core/src/trajectory.rs:131-148 | tool-result projections have strictly increasing indices and point at tool messages |
| TrajectoryLaws.DanglingCount | crates/cadmus-core/src/trajectory.rs:120-124 | per id, the dangling calls are the calls minus the results, clipped at zero |
| TrajectoryLaws.DanglingOrder | crates/cadmus-core/src/trajectory.rs:120-124 | dangling calls are a subsequence of the calls in log order |
| TrajectoryContent.CountsMeans | crates/cadmus-core/src/trajectory.rs:65-94 | an event counts unless its id was seen or it starts a run already started |
| TrajectoryContent.SinceWithin | crates/cadmus-core/src/trajectory.rs:72-88 | the history begins right after the start that took effect, with its base, and empty when none did |
| TrajectoryContent.MessagesAre | crates/cadmus-core/src/trajectory.rs:72-158 | the messages are the base of the start that took effect, then one message for each later counting event that bears one, at its own place and with its own content, and no others |
| TrajectoryContent.ProjectionsAre | crates/cadmus-core/src/trajectory.rs:131-148 | each approved call's projection carries its own event's request and position and points at its own message |
| TrajectoryContent.FieldsAre | crates/cadmus-core/src/trajectory.rs:50-162 | turns, warnings, scores, finish, provider, model and trace against counts, concatenations and last-of over the counting events |
| Broadcasting.Channel.constructor | crates/cadmus-transport/src/lib.rs:134-145 | a fresh bounded queue, connected or not |
| Broadcasting.Channel.TrySend | crates/cadmus-transport/src/lib.rs:393-408 | a send queues, or ends the subscription: quietly when the reader is gone, with the lag flag when the queue is full |
| Broadcasting.Tail.constructor | crates/cadmus-transport/src/lib.rs:146-153 | a tail over its queue, lag not reported |
| Broadcasting.Tail.Next | crates/cadmus-transport/src/lib.rs:440-453 | queued items first, then the lag marker once if the subscription was dropped for lagging, then the end |
| Broadcasting.OfferAll | crates/cadmus-transport/src/lib.rs:393-409 | the publish loop offers the item to every subscriber once and keeps exactly those still connected, in order |
| Broadcasting.Disconnect | crates/cadmus-transport/src/lib.rs:105-111 | closing ends every tail and loses nothing that was queued |
| Broadcasting.Broadcaster.constructor | crates/cadmus-transport/src/lib.rs:84-95 | a new hub is empty and open |
| Broadcasting.Broadcaster.RememberSettlement | crates/cadmus-transport/src/lib.rs:372-377 | the settled list is the newest settlements within the window |
| Broadcasting.Broadcaster.ResolveApprovalCall | crates/cadmus-transport/src/lib.rs:263-305 | fills one open slot of the addressed batch and settles it when it was the last |
| Broadcasting.Broadcaster.ResolveApprovalBatch | crates/cadmus-transport/src/lib.rs:307-346 | settles the addressed batch with recorded slots kept and missing answers denied |
| Broadcasting.Broadcaster.RetirePendingApprovals | crates/cadmus-transport/src/lib.rs:348-370 | retires every pending batch, keeping only decided slots |
| Broadcasting.Broadcaster.ApplyTransition | crates/cadmus-transport/src/lib.rs:222-259 | the transition of each recorded event on the replica |
| Broadcasting.Broadcaster.TrackRecordedEvent | crates/cadmus-transport/src/lib.rs:216-261 | a repeated event changes nothing; a new one joins the log after its transition |
| Broadcasting.Broadcaster.Grow | crates/cadmus-transport/src/lib.rs:170-178 | a delta of the open turn extends the replica, one of another turn starts it over |
| Broadcasting.Broadcaster.Complete | crates/cadmus-transport/src/lib.rs:180-194 | a provisional outcome replaces the one of its span and drops other turns' |
| Broadcasting.Broadcaster.Present | crates/cadmus-transport/src/lib.rs:195-212 | a presented batch joins the pending list with one open slot per call and the anchor of its own turn's response |
| Broadcasting.Broadcaster.TrackItem | crates/cadmus-transport/src/lib.rs:157-214 | one published item's effect on the attach-time replica |
| Broadcasting.Broadcaster.Publish | crates/cadmus-transport/src/lib.rs:387-410 | tracks and offers the item; a no-op after close |
| Broadcasting.Broadcaster.Attach | crates/cadmus-transport/src/lib.rs:119-154 | hands out the baseline of the present state and an empty tail connected from exactly this point |
| Broadcasting.Broadcaster.Close | crates/cadmus-transport/src/lib.rs:105-111 | retires what is pending and ends every tail |
| Tails.TailsExact | crates/cadmus-transport/src/lib.rs:428-453 | for every interleaving of publishes, reads, attaches, departures and close: what a subscriber read and has queued is a gap-free prefix of what was published after its attach, the whole of it unless its queue overflowed or it left, and `Lagged` comes once, last, and only after an overflow |
| Tails.TailsCurrent | crates/cadmus-contract/src/live.rs:12-17 | everything published since an attach lies above its `as_of` position, in order, and folds its baseline into the hub's present state |
| Tails.CaughtUp | crates/cadmus-transport/src/lib.rs:119-154 | a subscriber that kept up holds everything the hub holds |
| Tails.LagIsReported | crates/cadmus-transport/src/lib.rs:440-453 | a drained lagging tail yields the marker once and then only the end |
| ApprovalLaws.EntryAdvances | crates/cadmus-transport/src/lib.rs:263-346 | one counting event on one open request does what first answers say: it leaves the request exactly when it closes it, and each slot shows the first answer |
| ApprovalLaws.TransitionAdvances | crates/cadmus-transport/src/lib.rs:216-378 | the hub's transition is the per-request one, request by request |
| ApprovalLaws.HubLog | crates/cadmus-transport/src/lib.rs:216-221 | the kept log is the first event of each id, in publication order |
| ApprovalLaws.PendingShowsFirstAnswers | crates/cadmus-transport/src/lib.rs:195-378 | after every stream the pending list is exactly the open requests in order, each slot showing the first recorded answer after its request |
| ApprovalLaws.SettledIsWindow | crates/cadmus-transport/src/lib.rs:372-377 | the settled list is the newest part of all settlements of the stream |
| ApprovalLaws.SettlesWithFirstAnswers | crates/cadmus-transport/src/lib.rs:263-346 | a reply that closes an open, non-empty request settles it with the first answer of every slot, in original call order |
| ApprovalLaws.RunEndKeepsDecided | crates/cadmus-transport/src/lib.rs:348-370 | the run's end keeps exactly the decided subset of an open request, in original order, and invents nothing |
| ApprovalLaws.ClosedForGood | crates/cadmus-transport/src/lib.rs:263-275 | a closed request stays closed whatever follows |
| ApprovalLaws.LateAnswersIgnored | crates/cadmus-transport/src/lib.rs:263-285 | answers to unknown requests, out of range or to decided slots change nothing |
| ApprovalLaws.SettledOnce | crates/cadmus-transport/src/lib.rs:263-378 | with ids of their own, a request id is settled at most once, and only by closing |
| ApprovalLaws.SettledOncePerRequest | crates/cadmus-transport/src/lib.rs:263-378 | for every stream, ids repeated or not: the settlements in order belong to distinct requests, each closed, each by its own first answers |
| ApprovalLaws.SettlementsExact | crates/cadmus-transport/src/lib.rs:263-378 | every settlement of a stream is that of some request at the item that closed it: its answered calls in original order, each with the first answer after the request |
| ApprovalLaws.ClosingSettles | crates/cadmus-transport/src/lib.rs:263-370 | and every request closed by a reply, or by the run's end with some call answered, has exactly such a settlement |
| ApprovalLaws.HubSettlesFirstAnswers | crates/cadmus-transport/src/lib.rs:128-133 | whatever a handshake lists as settled is some request's calls, each with the first recorded answer after that request |
| ApprovalLaws.CloseKeepsDecided | crates/cadmus-transport/src/lib.rs:105-111 | closing leaves nothing pending and settles, of each request still open, exactly what was answered, behind the earlier settlements in the same window |
| ApprovalLaws.LogIsDedup | crates/cadmus-transport/src/lib.rs:216-221 | the kept log is the deduplication of everything published |
| ApprovalLaws.HistoryIsFold | crates/cadmus-transport/src/lib.rs:119-133 | the history of a handshake is the fold of everything published, duplicates included |
| ApprovalLaws.AnchorsSurvive | crates/cadmus-transport/src/lib.rs:195-212 | a pending batch's message index names the response it was asked for in every later history |
| ApprovalLaws.OpenTurnIsFold | crates/cadmus-transport/src/lib.rs:170-178 | the open turn is the assembler's fold of exactly the deltas since it was opened |
| HandshakeLaws.OpenTurnHandedOut | crates/cadmus-transport/src/lib.rs:119-133 | an attach hands out no open turn exactly when no delta is open, else that turn with the text, reasoning, usage and, index by index, the sealed and open calls of its deltas |
| HandshakeLaws.ApprovalsHandedOut | crates/cadmus-transport/src/lib.rs:119-133 | and the open requests with their first answers and the newest part of all settlements |
| HandshakeLaws.PositionHandedOut | crates/cadmus-transport/src/lib.rs:119-133 | and is current as of the highest position published |
| HandshakeLaws.AnchorPresent | crates/cadmus-transport/src/lib.rs:195-212 | a batch names a message exactly when the newest response of the run is its turn's, and then that one |
| HandshakeLaws.OutcomesHandedOut | crates/cadmus-transport/src/lib.rs:180-194 | the provisional outcomes handed out are, for each span of the current turn, its newest, neither recorded nor cleared since, in the order the spans joined |
| HandshakeLaws.FinalBaseline | crates/cadmus-transport/src/lib.rs:105-111 | what an attach is handed once the run is closed: nothing pending, nothing provisional, everything answered settled |
| Dialogs.Dialog.constructor | crates/cadmus-tui/src/approval.rs:52-64 | a dialog opens on the first undecided slot, unarmed |
| Dialogs.Dialog.MoveFocus | crates/cadmus-tui/src/approval.rs:79-96 | the first press arms the focused slot, the next goes round the ring to an answerable one |
| Dialogs.Dialog.Submit | crates/cadmus-tui/src/approval.rs:98-107 | an armed slot is submitted once and focus moves on, unarmed |
| Dialogs.Dialog.Settle | crates/cadmus-tui/src/approval.rs:109-121 | the first recorded decision of a slot stands; a focused slot gives focus up |
| Dialogs.Dialog.Resync | crates/cadmus-tui/src/approval.rs:66-73 | a fresh baseline replaces the request and keeps what was submitted |
| Dialogs.Dialog.FindFromFront | crates/cadmus-tui/src/approval.rs:66-77 | focus goes to the first answerable slot, if any |
| Dialogs.SearchComplete | crates/cadmus-tui/src/approval.rs:84-95 | the ring search finds an answerable slot whenever there is one, from any start, in either direction |
| Dialogs.DialogCareful | crates/cadmus-tui/src/approval.rs:51-125 | over any run on one request: focus is on an answerable slot exactly when one exists, no slot is submitted twice, and a focus move comes before every submit |
| Dialogs.DecidedNeverSent | crates/cadmus-tui/src/approval.rs:98-121 | a slot decided at some point of a run is never submitted afterwards, when every re-sync keeps the decisions shown |
| AnswerLaws.TabMoves | crates/cadmus-tui/src/approval.rs:79-96 | the first press arms the focused slot where it is; the next moves to the nearest answerable slot in its direction and keeps it armed |
| AnswerLaws.DecisionMoves | crates/cadmus-tui/src/approval.rs:109-121 | a first decision stands on its slot alone; only a focused slot gives focus up, unarmed, to the nearest answerable one |
| AnswerLaws.OpensOnFirst | crates/cadmus-tui/src/approval.rs:52-64 | a dialog opens unarmed on the first undecided call |
| AnswerLaws.ResyncsOnFirst | crates/cadmus-tui/src/approval.rs:66-73 | a re-sync takes the request over, keeps what was sent and focuses, unarmed, the first call neither decided nor sent |
| DialogFeeds.HubKeepsDecisions | crates/cadmus-tui/src/approval.rs:66-73 | the hub's own baselines do keep them: over any run of a dialog fed by the hub, every re-sync while the request is open presents the same calls and every decision shown so far; its id may be used again later |
| DialogFeeds.ShownIsOpen | crates/cadmus-transport/src/lib.rs:195-212 | with request ids of their own, a request whose id the hub lists as pending is open |
| DialogFeeds.RecordedNeverSent | crates/cadmus-tui/src/approval.rs:98-121 | so a slot of a dialog fed by the hub, once decided by whichever client, is never submitted afterwards |
| Clients.ClientApprovals.constructor | crates/cadmus-tui/src/transcript.rs:213-216 | a client knows no request |
| Clients.ClientApprovals.PushCallResolution | crates/cadmus-tui/src/transcript.rs:1009-1024 | one call's answer takes its name out of the slot map, the last one the entry |
| Clients.ClientApprovals.QueueApproval | crates/cadmus-tui/src/app.rs:872-880 | a request with something to answer opens a dialog at the back |
| Clients.ClientApprovals.SettleCall | crates/cadmus-tui/src/app.rs:932-947 | one call's decision reaches the first dialog of its request; finished dialogs leave the queue |
| Clients.ClientApprovals.OnEvent | crates/cadmus-tui/src/transcript.rs:902-922 | a recorded event's effect on slots and dialogs |
| Clients.ClientApprovals.OnItem | crates/cadmus-tui/src/app.rs:968-1013 | the one client rule: items the baseline covers change nothing, newer ones apply once |
| Clients.ClientApprovals.SyncOne | crates/cadmus-tui/src/app.rs:908-922 | a known request keeps its dialog, a new one opens its own |
| Clients.ClientApprovals.SyncApprovals | crates/cadmus-tui/src/app.rs:906-924 | a baseline replaces the dialog queue in its own order |
| Clients.ClientApprovals.OnSync | crates/cadmus-tui/src/transcript.rs:444-464 | position, slots and dialogs are taken from the baseline |
| Clients.ClientApprovals.MoveFocus | crates/cadmus-tui/src/app.rs:669-680 | Tab acts on the front dialog only |
| Clients.ClientApprovals.Answer | crates/cadmus-tui/src/app.rs:884-904 | an answer is addressed by request and original position; submission is not settlement |
| Convergence.SlotsFollow | crates/cadmus-tui/src/transcript.rs:982-1024 | the slot map follows the hub's pending list through an event, counted or repeated, if and only if the event takes names of no batch but those the hub acts on |
| Convergence.QueueFollows | crates/cadmus-tui/src/app.rs:926-952 | the dialog queue follows the pending batches with calls if and only if the event changes no dialog but those of batches the hub acts on |
| Convergence.SyncAgrees | crates/cadmus-tui/src/app.rs:1014-1026 | a baseline brings any client, whatever it held, into agreement |
| Convergence.ItemExact | crates/cadmus-tui/src/app.rs:968-1013 | one new item of any kind, whatever its ids: hub and client agree after it if and only if the client acts on no batch but those the hub acts on; a request never parts them |
| Convergence.RepeatAgrees | crates/cadmus-transport/src/lib.rs:216-221 | a repeat of an event already counted keeps agreement if and only if it finds nothing left to do: no batch pending at a run's end, none of its id for a batch reply, no open slot for one call's answer |
| Convergence.TwinsPart | crates/cadmus-transport/src/lib.rs:307-316 | two requests pending under one id agree until a batch reply: then the hub drops the older and keeps the other, the client drops both |
| Feeds.KeysAgree | crates/cadmus-tui/src/app.rs:884-904 | a client's own keys change no decision |
| Feeds.HarmlessRepeats | crates/cadmus-transport/src/lib.rs:216-221 | when no request takes the id of one still open, a stream is harmless if and only if every repeated event finds nothing left to do among the requests then open |
| Feeds.DistinctIsHarmless | crates/cadmus-transport/src/lib.rs:216-221 | distinct event ids are enough, and a request id may be used again once its request closed |
| Feeds.AgreesThroughout | crates/cadmus-contract/src/live.rs:12-17 | from whatever attach point of any stream, after any earlier state, with stale repeats and keys mixed in: slot map and dialog queue equal the hub's pending list after every message (same requests, same decided slots, same order) if and only if every item since the attach is harmless where it occurs |
| Feeds.Converges | crates/cadmus-contract/src/live.rs:12-17 | so a feed of harmless items ends in agreement |
| Attaching.AttachAnywhere | crates/cadmus-contract/src/live.rs:12-17 | a client that attached at any moment of any run of the hub and read its tail holds the hub's open approvals throughout if and only if every item since the attach is harmless |
| Attaching.RepeatDiverges | crates/cadmus-tui/src/transcript.rs:919-922 | a harmful repeat: a terminal record published again leaves a request open in the hub and closed in the client |
| AnswerLaws.SlotsName | crates/cadmus-tui/src/transcript.rs:982-1024 | under agreement a client holds a request's slots exactly while it is pending: the name of each undecided call of its newest batch |
| AnswerLaws.AnswerAddresses | crates/cadmus-tui/src/app.rs:884-904 | an answer is sent exactly when the front dialog is armed, for its request and its focused slot, answerable before and marked as sent after; no other dialog changes |
| AnswerLaws.AnswerReachesCall | crates/cadmus-tui/src/app.rs:884-904 | under agreement with pending ids distinct, the answer once recorded decides exactly the call the user was looking at, and no other call of any request |
| Terminals.RowWritten | crates/cadmus-tui/src/history.rs:169-190 | a row written from column zero shows exactly its spans, each in its own style over a plain pen, then blanks |
| StyleLaws.RowShows | crates/cadmus-tui/src/history.rs:169-190 | each glyph of a rendered row stands after everything before it, in its span's colours or else the row's, with the span's modifiers and those of the row the span does not take off; the rest is blank and plain |
| HistoryInsert.Writer.constructor | crates/cadmus-tui/src/history.rs:58-64 | an output stream with nothing written |
| HistoryInsert.Writer.Put | crates/cadmus-tui/src/history.rs:78-79 | a write appends its control or fails and appends nothing |
| HistoryInsert.PutAll | crates/cadmus-tui/src/history.rs:86-98 | queued controls go out in order up to the first failure |
| HistoryInsert.ClearBelow | crates/cadmus-tui/src/history.rs:158-167 | clears row by row at the origin and in one erase elsewhere |
| HistoryInsert.WriteRow | crates/cadmus-tui/src/history.rs:169-190 | one row's program |
| HistoryInsert.WriteLines | crates/cadmus-tui/src/history.rs:82-88 | rows under each other, a line break between but not before |
| HistoryInsert.ScrollLines | crates/cadmus-tui/src/history.rs:102-108 | rows at the bottom margin, a line break before each |
| HistoryInsert.MakeBand | crates/cadmus-tui/src/history.rs:88-90 | as many cleared rows as the band is high |
| HistoryInsert.RewrapRows | crates/cadmus-tui/src/wrap.rs:104-139 | rows that fit stay, a row too wide gives way in place to its re-wrapped rows |
| HistoryInsert.Insert | crates/cadmus-tui/src/history.rs:58-117 | re-wraps, emits the insert program and returns the band's new place; after a failure the margins are still reset |
| HistoryInsert.ScrollHistory | crates/cadmus-tui/src/history.rs:122-147 | emits the scroll program, with the same cleanup |
| HistoryLaws.ClearedBelow | crates/cadmus-tui/src/history.rs:155-167 | clearing blanks the band and all below and touches no history, also on a terminal that copies the screen when erased from the origin |
| HistoryLaws.OriginErase | crates/cadmus-tui/src/history.rs:155-157 | one erase from the origin keeps scrollback exactly on the terminals that do not copy |
| HistoryLaws.FullScreenBody | crates/cadmus-tui/src/history.rs:80-92 | full-screen scrolling appends any number of rows on any terminal, with the band blank below |
| HistoryLaws.RowsScrolledIn | crates/cadmus-tui/src/history.rs:102-110 | on a terminal that keeps departing rows, rows scrolled into a region become history |
| HistoryLaws.RowsLost | crates/cadmus-tui/src/history.rs:25-27 | on one that does not, nothing reaches scrollback |
| HistoryLaws.InsertAppends | crates/cadmus-tui/src/history.rs:58-117 | for any terminal, rows of any width, band and screen: history is the old one and the new rows, re-wrapped where too wide, if and only if scrolling is full-screen, the region would be a single row, the rows fit below, or the terminal keeps what leaves a region; then the band lies blank directly below |
| HistoryLaws.ChoiceIsSafe | crates/cadmus-tui/src/history.rs:34-43 | the strategy chosen for a terminal appends every insert if and only if the terminal keeps what leaves a region, or is the one named as losing it, or is too low for a region |
| HistoryLaws.StrategiesAgree | crates/cadmus-tui/src/history.rs:25-32 | both strategies leave the same history wherever the standard one is safe |
| HistoryLaws.FailureLeaksNothing | crates/cadmus-tui/src/history.rs:112-116 | whatever prefix of a payload went out, after the reset the whole screen scrolls and the pen is plain |
| Shells.InlineShell.constructor | crates/cadmus-tui/src/shell.rs:59-93 | a shell over a band that fits the screen |
| Shells.InlineShell.ClearBand | crates/cadmus-tui/src/shell.rs:313-325 | blanks from the band's top down |
| Shells.InlineShell.InstallArea | crates/cadmus-tui/src/shell.rs:301-309 | publishes the rectangle and parks the cursor on it |
| Shells.InlineShell.Flush | crates/cadmus-tui/src/shell.rs:144-160 | no rows, no write; otherwise the insert program and the band's new place |
| Shells.InlineShell.SetHeight | crates/cadmus-tui/src/shell.rs:165-208 | no program when the clamped height is the same; otherwise the height program and a band of the height wanted, at its old top when it fits there and else ending on the last row |
| Shells.InlineShell.OnResize | crates/cadmus-tui/src/shell.rs:217-297 | replays exactly after a narrowing or a growth, and clears both markers |
| Shells.InlineShell.Replay | crates/cadmus-tui/src/shell.rs:232-262 | save, clear, reinstall, insert the tail |
| ShellLaws.ScrollConserves | crates/cadmus-tui/src/history.rs:122-147 | scrolling history out keeps every row of it if and only if the region is the whole screen, a single row, kept by the terminal, or full-screen scrolling is used |
| ShellLaws.FlushAppends | crates/cadmus-tui/src/shell.rs:144-160 | a flush appends its rows, of any width, re-wrapped where too wide, exactly when the insert is safe |
| ShellLaws.HeightConserves | crates/cadmus-tui/src/shell.rs:165-208 | any grow or shrink leaves history unchanged exactly when the overflow scrolls out safely, and keeps the band on screen |
| ShellLaws.HeightPlaces | crates/cadmus-tui/src/shell.rs:162-208 | a height on the screen is the height the band gets; while it fits from where it is the top stays and no row leaves the screen, else it ends on the last row and exactly the overflow scrolls out |
| ShellLaws.InsertPlaces | crates/cadmus-tui/src/history.rs:58-117 | inserted rows take the blank rows under the band first, then exactly the overflow scrolls out; the height stays |
| ShellLaws.ReplayAppends | crates/cadmus-tui/src/shell.rs:217-297 | a settled resize yields the old history and then the replayed tail, the band directly below, exactly when the save was safe |
| ShellLaws.ReplayPlaces | crates/cadmus-tui/src/shell.rs:217-297 | a settled resize puts the band at its own height directly under the tail, and everything that was on screen above it is in scrollback |
| Scrollback.HistoryIsConfirmed | crates/cadmus-tui/src/app.rs:513-585 | over any run of transcript steps, pumps through the shell, height changes and repaints, at any widths: the terminal's history is the old one and exactly the confirmed rows, in order |
| Scrollback.TranscriptReachesHistory | crates/cadmus-tui/src/transcript.rs:26-35 | at the terminal's width, that is the wrapped transcript up to the confirmed cursor, each row once and in order, and the rows already out of the emission in progress |
| ShellLaws.RunAppends | crates/cadmus-tui/src/shell.rs:1-12 | over any run of inserts, height changes, settled resizes and repaints, history only grows, by exactly the inserted and replayed rows in order |
| EditorText.PosInverts | crates/cadmus-tui/src/composer.rs:654-666 | every offset has a position and the position has that offset |
| EditorText.OffsetInverts | crates/cadmus-tui/src/composer.rs:645-666 | and every position is the position of its offset |
| EditorText.OffsetOrder | crates/cadmus-tui/src/composer.rs:539-546 | positions are ordered as their offsets |
| EditorText.CutSplices | crates/cadmus-tui/src/composer.rs:597-609 | deleting a range of positions is cutting the flat text between their offsets |
| EditorText.InsertSplices | crates/cadmus-tui/src/composer.rs:613-626 | inserting at a position is splicing the flat text, with the cursor after what was inserted |
| EditorText.FilterVerbatim | crates/cadmus-tui/src/composer.rs:832-855 | line endings and ordinary text go in verbatim |
| EditorMeaning.FilterReads | crates/cadmus-tui/src/composer.rs:832-855 | each character of the input puts in its own piece: a break for a line ending of any kind, four spaces for a tab, nothing for another control, itself otherwise |
| Composers.Composer.constructor | crates/cadmus-tui/src/composer.rs:134-146 | one empty line, cursor at the origin |
| Composers.Composer.PushUndo | crates/cadmus-tui/src/composer.rs:551-565 | the stack is the flat editor's, and the kept byte count its true total |
| Composers.Composer.SelectionRange | crates/cadmus-tui/src/composer.rs:539-546 | the ordered selection, none when degenerate |
| Composers.Composer.DeleteRange | crates/cadmus-tui/src/composer.rs:597-609 | joins what is left of the two ends |
| Composers.Composer.InsertText | crates/cadmus-tui/src/composer.rs:613-626 | splits the line at the breaks and keeps its tail |
| Composers.Composer.RemoveSelection | crates/cadmus-tui/src/composer.rs:584-593 | deletes the selection without a unit of its own |
| Composers.Composer.DeleteSelectionAsUnit | crates/cadmus-tui/src/composer.rs:570-580 | a destructive key with a selection deletes just that, in one unit |
| Composers.Composer.DeleteSelection | crates/cadmus-tui/src/composer.rs:417-426 | the same as an operation |
| Composers.Composer.InsertStr | crates/cadmus-tui/src/composer.rs:203-216 | insert refines the flat splice, selection replaced, typing runs in one unit |
| Composers.Composer.InsertNewline | crates/cadmus-tui/src/composer.rs:220-226 | a newline is the splice of one break |
| Composers.Composer.Backspace | crates/cadmus-tui/src/composer.rs:231-254 | removes the flat unit before the cursor, across line starts |
| Composers.Composer.DeleteForward | crates/cadmus-tui/src/composer.rs:259-277 | removes the flat unit after the cursor, across line ends |
| Composers.Composer.DeleteWordBack | crates/cadmus-tui/src/composer.rs:281-295 | cuts back to the word start |
| Composers.Composer.DeleteWordForward | crates/cadmus-tui/src/composer.rs:299-313 | cuts forward to the word end |
| Composers.Composer.MoveLeft | crates/cadmus-tui/src/composer.rs:317-328 | one flat unit back |
| Composers.Composer.MoveRight | crates/cadmus-tui/src/composer.rs:331-342 | one flat unit on |
| Composers.Composer.MoveUp | crates/cadmus-tui/src/composer.rs:346-361 | the flat editor's line above |
| Composers.Composer.MoveDown | crates/cadmus-tui/src/composer.rs:365-380 | the flat editor's line below |
| Composers.Composer.MoveHome | crates/cadmus-tui/src/composer.rs:400-404 | the start of the line, found on the flat text |
| Composers.Composer.MoveEnd | crates/cadmus-tui/src/composer.rs:407-412 | the end of the line |
| Composers.Composer.MoveWordLeft | crates/cadmus-tui/src/composer.rs:386-390 | the flat word start |
| Composers.Composer.MoveWordRight | crates/cadmus-tui/src/composer.rs:393-397 | the flat word end |
| Composers.Composer.MoveTo | crates/cadmus-tui/src/composer.rs:631-641 | a move extends or drops the selection and ends a run |
| Composers.Composer.FlatOffset | crates/cadmus-tui/src/composer.rs:645-651 | the joined text and the cursor's offset in it |
| Composers.Composer.PosOfOffset | crates/cadmus-tui/src/composer.rs:654-666 | the position of an offset |
| Composers.Composer.WordLeftPos | crates/cadmus-tui/src/composer.rs:669-682 | the position of the flat word start |
| Composers.Composer.WordRightPos | crates/cadmus-tui/src/composer.rs:685-698 | the position of the flat word end |
| Composers.Composer.ColumnAtWidth | crates/cadmus-tui/src/composer.rs:819-830 | the last column whose display end stays within the preferred one |
| Composers.Composer.Clear | crates/cadmus-tui/src/composer.rs:186-196 | empties the text, undoably, unless it is empty already |
| Composers.Composer.UndoNewest | crates/cadmus-tui/src/composer.rs:430-443 | restores the exact lines and cursor of the newest unit |
| Composers.LineBounds | crates/cadmus-tui/src/composer.rs:346-412 | a line's ends are found on the flat text from any place in it |
| EditorLaws.EvictKeeps | crates/cadmus-tui/src/composer.rs:548-565 | eviction takes oldest units only, as few as the bounds ask for, and never drops the newest; it does nothing exactly when the bounds hold |
| EditorLaws.KeyOnStack | crates/cadmus-tui/src/composer.rs:15-22 | every key pushes the state before it, pops, or leaves the stack; text changes only then or inside a typing run |
| EditorLaws.UndoRestores | crates/cadmus-tui/src/composer.rs:428-443 | undo takes any unit-starting edit back to the exact text and cursor before it |
| EditorLaws.UndoInverts | crates/cadmus-tui/src/composer.rs:428-443 | and leaves the rest of the stack as it was exactly when the push fit the bounds |
| EditorLaws.TypingIsOneUnit | crates/cadmus-tui/src/composer.rs:199-216 | a run of single-unit inserts of any length pushes once and inserts in order |
| EditorLaws.TypingUndone | crates/cadmus-tui/src/composer.rs:199-216 | so one undo takes a typing run back |
| EditorLaws.BackspacingIsOneUnit | crates/cadmus-tui/src/composer.rs:228-254 | a run of backspaces of any length pushes once and removes the units before the cursor |
| EditorLaws.BackspacingUndone | crates/cadmus-tui/src/composer.rs:228-254 | so one undo takes it back |
| EditorLaws.BackspaceUntypes | crates/cadmus-tui/src/composer.rs:231-254 | backspacing what was typed gives text and cursor back |
| EditorLaws.UndosWalkBack | crates/cadmus-tui/src/composer.rs:428-443 | as many undos as edits walk them all back while nothing was evicted |
| EditorLaws.RunsSound | crates/cadmus-tui/src/composer.rs:122-129 | over every run of keys the cursor and anchor stay in the text, the stack holds one unit or keeps both bounds, and a live run has its unit on the stack |
| EditorLaws.UpLands | crates/cadmus-tui/src/composer.rs:346-361 | up lands on the line above, as far along as the preferred column |
| EditorLaws.DownLands | crates/cadmus-tui/src/composer.rs:365-380 | down is its mirror image |
| EditorLaws.WordMoves | crates/cadmus-tui/src/composer.rs:382-397 | word moves skip separators first and then exactly one word |
| EditorMeaning.InsertsMean | crates/cadmus-tui/src/composer.rs:199-226 | an insert replaces the selection with the filtered text and a newline with a break; what is before and after stands, the cursor follows what went in |
| EditorMeaning.BackspaceMeans | crates/cadmus-tui/src/composer.rs:228-254 | backspace removes the selection, else the unit before the cursor, else nothing |
| EditorMeaning.DeletesMean | crates/cadmus-tui/src/composer.rs:186-313 | so for the unit after the cursor, back to a word start, on to a word end, the selection alone and everything, each ending a run |
| EditorMeaning.StepsMean | crates/cadmus-tui/src/composer.rs:315-342 | left and right keep the text and the stack, end the run, keep or drop the anchor and go one unit |
| EditorMeaning.LineMovesMean | crates/cadmus-tui/src/composer.rs:400-412 | home and end go to where the line starts and ends, found by the breaks |
| EditorMeaning.WordMovesMean | crates/cadmus-tui/src/composer.rs:382-397 | word moves are moves, to the places word moves land on |
| EditorMeaning.VerticalMeans | crates/cadmus-tui/src/composer.rs:346-380 | up and down are moves; the column they aim for is set by the first of a series and kept by the others |
| Layouts.ComputeLayout | crates/cadmus-tui/src/composer.rs:703-752 | the nested loop is the layout of every line, with the cursor placed once |
| Layouts.WrapLine | crates/cadmus-tui/src/composer.rs:710-744 | one line's rows and the cursor's place among them |
| Layouts.WrapExact | crates/cadmus-tui/src/composer.rs:700-752 | a line's rows cover it exactly and in order, each breaks only where the next unit does not fit, and none is too wide when every unit fits |
| Layouts.LayoutShows | crates/cadmus-tui/src/composer.rs:700-752 | the rows go over the whole text once, in order, each line from its start to its end |
| Layouts.CursorPlaced | crates/cadmus-tui/src/composer.rs:700-785 | the cursor is in the row that holds it at the width of what precedes it, or at column zero of the row below an exactly filled line, and always within the rows asked for |
| Layouts.CursorVisible | crates/cadmus-tui/src/composer.rs:474-481 | after the scroll step the window holds the cursor's row, shows no blank rows while there are rows above, and moved no further than that takes |
| Layouts.DesiredShowsAll | crates/cadmus-tui/src/composer.rs:445-454 | a band of the rows asked for shows the whole buffer unscrolled up to the 65535 cap, and the cursor's row always |
| Layouts.ScrollTo | crates/cadmus-tui/src/composer.rs:474-481 | the scroll step changes nothing but the scroll |

## Left out

- The markdown pipeline, its highlighter and the word wrapper: parameters, with a
  line count that does not depend on the width and a wrapper that works line by line.
- Reference-link definitions that arrive after a line became stable: the program
  re-renders the lines not yet flushed and leaves the flushed ones as they are
  (`crates/cadmus-ui/src/markdown.rs:26-31`); here a stable line never changes.
- Transcripts.Transcript.ApplyResponse: requires that the response extends the deltas of
  its turn, as the pipeline does of its caller (`crates/cadmus-ui/src/markdown.rs:107-111`);
  a response that contradicts them is no step of a run.
- EmissionLaws.ResponseKeeps: under the same requirement of the pipeline.
- EmissionReplay.ReplayIsScrollback: for rows queued at one width and without a
  re-sync; at other widths replay re-wraps, which EmissionReplay.ReplayIsConfirmed states.
- The line transfer of a re-sync across a lag hole, an accepted loss in the program
  (`crates/cadmus-tui/src/transcript.rs:341-352`), and the rendering of folded history.
- A failed terminal insert: it ends the program, so no run continues after one.
- Broadcasting.Channel.TrySend: a queue of capacity zero is always full here; the real
  rendezvous channel can hand an item to a reader already waiting.
- Broadcasting.Tail.Next: a read that would block is no step; waking a blocked reader
  is the channel's own business.
- Locks: the hub's operations are atomic steps, as its one mutex makes them.
- The wait budget of an approval request, and call positions of provisional outcomes:
  carried along by the program, never read by the modelled rules.
- Wire encoding and JSON text: values are abstract, parsing is a partial function.
- The wording of warnings: the outcome rule reads "some call was still open at the end".
- `fit_screen` and the terminal's own reflow on a resize: they depend on behaviour
  outside the program.
- Shells.InlineShell.OnResize: starts when the band fits the new size.
- Shells.InlineShell.Flush: the size is sampled once and stays, so that the size checks
  around the insert find nothing to fit.
- Shells.InlineShell.SetHeight: likewise, the size checks around it find nothing to fit.
- Shells.InlineShell.constructor: the band is reserved at the cursor, and cleared, before.
- Painting the band: any change confined to the band's rectangle (`Paint`), as the
  fixed drawing surface guarantees; synchronized-update markers and counters.
- Terminal scrollback is unbounded here; a real one may drop its oldest rows.
- Terminals.RowWritten: text is a sequence of printed units with widths.
- HistoryInsert.RewrapRows: rows hold no control characters, which the program strips
  span by span in the same pass.
- Grapheme cluster merging: text is a sequence of indivisible units, so a combining
  mark typed next to another unit does not merge with it. Columns count units; sizes in
  bytes are kept for the undo bound.
- Rendering colours, placeholders and gutters of the composer, and paste detection.
- Tool completions, steering counters, run clock, frame gate and band layout: easy
  members beside these.
- Models, providers, dialects, the agent loop, configuration and file access.
