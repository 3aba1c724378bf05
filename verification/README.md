# Verification of voxedge's engine

A Dafny model of the parts of voxedge in which several activities, passes or representations
have to agree, with proofs of what they promise. `dafny verify dfyconfig.toml` checks all of it.

| files | what they model |
|---|---|
| `StreamCancel.dfy` | the native ASR stream: arming, requesting and confirming a cancel while chunks are in flight and segments rotate, as lock-atomic steps of any number of threads with arbitrary worker replies |
| `WorkerOwnership.dfy` | which worker process the backend owns, and when it may launch another |
| `SessionManager.dfy`, `AsrLoop.dfy` | the per-utterance session manager (generations, abort epoch, rebuild ladder, cancels that time out) and the endpoint part of the ASR loop on top of it |
| `Clustering.dfy`, `SpeakerNames.dfy` | average-linkage clustering with in-place Lance-Williams updates, and the naming of its clusters |
| `Splitter.dfy` | cutting long audio at silence |
| `Periods.dfy`, `Collapse.dfy`, `Runs.dfy`, `SegmentRepeats.dfy` | the guard against decoder loops in transcripts |
| `Numerals.dfy` | two printers of Chinese numerals and one reader |
| `Cif.dfy` | continuous integrate-and-fire |
| `RateShifter.dfy` | WSOLA time stretching, one shot and streaming |
| `TurnDriver.dfy` | the LLM/tool pump |
| `TtsBuffer.dfy` | the chunk buffer in front of the TTS |
| `Common.dfy`, `Text.dfy` | small datatypes; the parts of Python's `str` that are relied on |

Code that changes its object or its arrays step by step is a class or a method with loops, proved
against a function of the old state; the laws are lemmas about those functions. Protocols are
state machines over their atomic steps: everything outside a lock or between two awaits (replies,
exits, timeouts, exceptions, other calls) may come in any order and with any content.

Where the code does not do what its documentation or a first reading suggests, the model follows
the code and the exact condition is proved:

- The splitter's documented bound `max_seg + min_tail` does not hold for all sizes;
  `Splitter.BoundIffBounded` says for which it does, with no size left out. The other promises
  about lengths are proved for `Roomy` sizes (`Splitter.SegmentLengths`).
- An end line can follow a confirmed cancel, exactly when a close or finalize had decided before
  the cancel was armed and not written yet (`StreamCancel.LateEndExactlyWhenPending`).
- A `mark_error` served in IDLE allows a generation to be accepted twice, exactly when the
  generation already had its final (`SessionManager.BreaksExactlyWhenRemarks`).
- A launch that raises after its process was made, at the ready line or in making the WorkerIO,
  pairs the new process with the pipes of an exited one, exactly when that one's WorkerIO was
  still there (`WorkerOwnership.RequestsUseTheirOwnPipes`).
- The message list is well formed exactly when no tool call raises (`TurnDriver.Turn.RunTurn`).
  The registry turns exceptions of a tool into answers, but a call raises all the same when
  `json.loads` fails with anything but a `JSONDecodeError`, when a local tool is given JSON that
  is no object (`[1]`: `.items()` stands outside the `try`), or when the result is not
  serialisable. The model can ask for such a call, so it alone can leave a call without its
  result (`TurnDriver.RaisingCallStaysOpen`).
- The preamble at dispatch never speaks: every call's name came with a delta and was announced
  then (`TurnDriver.CalledIsFired`).
- The streaming shifter matches the one-shot length only under the condition on the total
  length and the hop in `RateShifter.PushAndFlush`.
- The sequencer's printer is documented for 0..99999999 and round-trips below 10^16
  (`Numerals.IntRoundTrip`); `cardinal` fails beyond twelve digits (`Numerals.ReadCardinal`).

## Model

The laws come first, component by component. The methods, loops and sections between two
awaits or under one lock, which tie the code to the functions that the laws are about, follow
from `StreamCancel.StreamingAsrStream.constructor` on.

| member | source | states |
|---|---|---|
| StreamCancel.AtMostOneSessionEverArmed | voxedge/backends/jetson/trt_edge_llm_asr.py:2374-2395 | in every interleaving of consumers, controls and replies, whenever a session id is found armed it is the same one, and it is the stream's id for good |
| StreamCancel.ArmedSessionIsFrozen | voxedge/backends/jetson/trt_edge_llm_asr.py:2534-2648 | from an armed state on, no step or late reply changes the session id, the partial, final and committed text, the language, or what is armed |
| StreamCancel.CommittedTextIsKept | voxedge/backends/jetson/trt_edge_llm_asr.py:2603-2648 | over every run no committed text is lost: up to spaces the committed text is that of all segments rotated so far, in order, and for stripped segments it is exactly these with single spaces between the non-empty ones |
| StreamCancel.ReplyBecomesText | voxedge/backends/jetson/trt_edge_llm_asr.py:2568-2592 | a partial or final reply for the current session, no cancel armed, becomes the partial or final text, with its language if it names one |
| StreamCancel.SegmentHasItsText | voxedge/backends/jetson/trt_edge_llm_asr.py:2609-2625 | a finalized segment rotates with the final text, any other with what became of its partial text |
| StreamCancel.CarryKeepsText | voxedge/backends/jetson/trt_edge_llm_asr.py:2575-2580 | a rotation by the worker keeps the carried-over audio and all text |
| StreamCancel.JoinIs | voxedge/backends/jetson/trt_edge_llm_asr.py:2635-2639 | two non-empty stripped texts are joined by one space, and an empty one changes nothing |
| StreamCancel.EveryRunOk | voxedge/backends/jetson/trt_edge_llm_asr.py:2335-2532 | every reachable state keeps the invariant: one armed id which the intent and any receipt name, the ownership flag up exactly while one control is between entry and release, no cancel line before its begin line, an in-flight table that counts the threads inside a request |
| StreamCancel.RunKeepsInv | voxedge/backends/jetson/trt_edge_llm_asr.py:2289-2303 | that invariant survives any sequence of steps |
| StreamCancel.ConfirmedCancelIsNotRewritten | voxedge/backends/jetson/trt_edge_llm_asr.py:2397-2506 | after a receipt is confirmed it never changes, and at most the one control that had already entered can still write a cancel line |
| StreamCancel.ConfirmedEntryWritesNothing | voxedge/backends/jetson/trt_edge_llm_asr.py:2397-2440 | a `request_cancel` that finds the receipt on entry returns it and leaves no trace in the stream, the threads or the lines written |
| StreamCancel.LateEndExactlyWhenPending | voxedge/backends/jetson/trt_edge_llm_asr.py:2772-2829 | a further end line can be written for a confirmed session exactly when some close or finalize is between its decision to end and its write |
| StreamCancel.NoEndAfterConfirm | voxedge/backends/jetson/trt_edge_llm_asr.py:2772-2829 | with none there, the number of end lines of a confirmed session never changes again |
| StreamCancel.PendingEndIsSent | voxedge/backends/jetson/trt_edge_llm_asr.py:2772-2829 | with one there, some continuation writes one more end line |
| StreamCancel.LateEndExists | voxedge/backends/jetson/trt_edge_llm_asr.py:2772-2829 | the exception is reachable: a run in which the only end line follows the confirmed cancel |
| StreamCancel.StepKeepsInv | voxedge/backends/jetson/trt_edge_llm_asr.py:2507-2592 | each atomic step of any thread keeps the invariant |
| StreamCancel.InflightKept | voxedge/backends/jetson/trt_edge_llm_asr.py:2289-2333 | each step changes the in-flight count of a session exactly as the thread that moved enters or leaves an ordinary request |
| WorkerOwnership.AtMostOneWorkerAlive | voxedge/backends/jetson/trt_edge_llm_asr.py:895-1025 | over every run of launches, exits, failures and restarts at most one worker process is alive, and it is the owned one |
| WorkerOwnership.LaunchOnlyAfterAllExited | voxedge/backends/jetson/trt_edge_llm_asr.py:971-1005 | a step that launches a process happens only when every earlier process has exited |
| WorkerOwnership.OldFailureTouchesNothing | voxedge/backends/jetson/trt_edge_llm_asr.py:1124-1153 | a request that fails with a captured pair that is no longer owned changes neither the owned pair nor its failure mark |
| WorkerOwnership.CurrentFailureIsHandled | voxedge/backends/jetson/trt_edge_llm_asr.py:1124-1153 | a failure on the owned pair forgets an exited worker, and keeps a live one, marked |
| WorkerOwnership.FailedWorkerIsNotReused | voxedge/backends/jetson/trt_edge_llm_asr.py:905-925 | while a failed worker lives it stays owned and marked, nothing is launched and no request obtains it |
| WorkerOwnership.NeverOwnedAgain | voxedge/backends/jetson/trt_edge_llm_asr.py:895-1025 | a process that is no longer owned never becomes owned again |
| WorkerOwnership.DeadStaysDead | voxedge/backends/jetson/trt_edge_llm_asr.py:971-1005 | an exited process number is never alive again |
| WorkerOwnership.RequestsUseTheirOwnPipes | voxedge/backends/jetson/trt_edge_llm_asr.py:895-1025 | through a whole run every owned or captured pair is one process with its own pipes, exactly when no launch raises after its process was made while an exited worker's WorkerIO is still there |
| WorkerOwnership.StepMatchesUnlessMixed | voxedge/backends/jetson/trt_edge_llm_asr.py:971-1025 | the same for one step from any state in which pairs match |
| WorkerOwnership.RaisingLaunchMixesPair | voxedge/backends/jetson/trt_edge_llm_asr.py:971-1025 | such a launch, whether the ready line or the WorkerIO raises, lets the next request capture the new live process with the old one's pipes |
| SessionManager.EveryStreamHasOneFate | voxedge/engine/asr_session_manager.py:439-490 | whenever the lock is free each stream ever created is exactly one of current, closed exactly once, or abandoned, and there is no current stream exactly in IDLE |
| SessionManager.RunKeepsStreams | voxedge/engine/asr_session_manager.py:529-592 | with the lock held, too: a stream in the hands of a running cancel is none of the three |
| SessionManager.LateCancelIsHarmless | voxedge/engine/asr_session_manager.py:202-219 | a cancel whose wait timed out never touches the current stream when it gets the worker mutex, and does nothing at all when the backend can be restarted |
| SessionManager.AcceptedMeansNotPreempted | voxedge/engine/asr_session_manager.py:326-379 | a finished finalize was accepted if and only if no cancel and no speech start began between its epoch snapshot and its commit |
| SessionManager.OutcomesAreTrue | voxedge/engine/asr_session_manager.py:263-490 | over every run, when a call gets its outcome the manager is as it says: opened means active with a stream of that generation, unavailable idle without one, an accepted final idle, a rejected one has no text; after a cancel it is idle |
| SessionManager.FinalizeTells | voxedge/engine/asr_session_manager.py:350-379 | a finalize whose worker returned tells its own text and language if epoch, state and generation are those of the snapshot, and a rejection otherwise |
| SessionManager.LadderInOrder | voxedge/engine/asr_session_manager.py:544-570 | over every run the rebuild ladder is climbed rung by rung by one caller: three creates, each after the one before failed, then the restart if the backend has one, and only then the last create |
| SessionManager.LadderExhausted | voxedge/engine/asr_session_manager.py:544-592 | where everything fails it ends in IDLE without a stream, and a caller that wanted an utterance is told |
| SessionManager.RunKeepsCommits | voxedge/engine/asr_session_manager.py:326-379 | the same as an invariant of the history under any steps |
| SessionManager.OneAcceptedFinalPerGeneration | voxedge/engine/asr_session_manager.py:263-290 | over every run in which no `mark_error` is served in IDLE for a generation that had its final, generations handed out strictly increase and each has at most one accepted finalize |
| SessionManager.BreaksExactlyWhenRemarks | voxedge/engine/asr_session_manager.py:503-527 | in any state such a run reaches, a step opens the way to a second acceptance of a generation exactly when it is such a `mark_error` |
| SessionManager.RunKeepsGens | voxedge/engine/asr_session_manager.py:263-379 | the bounds behind it survive any such run |
| SessionManager.RemarkBreaksIt | voxedge/engine/asr_session_manager.py:503-527 | after such a `mark_error` the generation can be accepted again, with no further one |
| SessionManager.MarkErrorAcceptsTwice | voxedge/engine/asr_session_manager.py:503-527 | a concrete run in which generation 1 is accepted twice |
| AsrLoop.BridgeHearsEachGenerationOnce | voxedge/engine/asr_loop.py:163-247 | over every run of loop and manager (no `mark_error` served in IDLE for a generation that had its final) the LLM bridge gets non-blank text at most once per generation, in order, each the text of an accepted finalize; and the client is only shown accepted text |
| AsrLoop.EveryFinalIsTold | voxedge/engine/asr_loop.py:176-247 | over every run: each endpoint served, but for the one in hand, sent exactly one final, with the text of its accepted finalize or, for a close-out without one, that of the final before; and the LLM bridge got exactly their non-blank texts, in order, each once |
| AsrLoop.NonBlankHolds | voxedge/engine/asr_loop.py:235-236 | the bridge holds exactly what was heard and is not blank |
| AsrLoop.RunKeepsLoop | voxedge/engine/asr_loop.py:163-247 | the invariant of the composition survives any such run |
| AsrLoop.EmitKeepsBridge | voxedge/engine/asr_loop.py:202-238 | what one emit hands to the bridge is the outcome just taken, so the bridge stays in generation order with accepted text only |
| AsrLoop.EmitKeepsFinals | voxedge/engine/asr_loop.py:206-246 | what one emit shows the client, close-out duplicates included, is accepted text |
| AsrLoop.NewFinalIsLater | voxedge/engine/asr_loop.py:182-202 | a final accepted now is of a later generation than all that was bridged |
| Clustering.LanceWilliams | voxedge/capabilities/diarization.py:254-262 | the update formula gives exactly the mean of all original pairwise distances between the merged cluster and a third |
| Clustering.ClusteringLaw | voxedge/capabilities/diarization.py:208-275 | the result partitions all indices; merge distances never decrease; with a count k there are exactly max(1, min(k, n)) clusters; without, either one cluster is left or at most max_speakers with every pair farther apart than 1 - min_sim, and any merge beyond that happened with more than max_speakers clusters |
| Clustering.HeightsNeverDecrease | voxedge/capabilities/diarization.py:233-262 | successive merge distances never decrease, for any symmetric matrix |
| Clustering.StopsWhereItShould | voxedge/capabilities/diarization.py:226-252 | where merging stops and what held at each merge, for any matrix and limit |
| Clustering.AgglomeratePartitions | voxedge/capabilities/diarization.py:218-269 | merging keeps a partition of the indices |
| Clustering.MergedIsNoCloser | voxedge/capabilities/diarization.py:254-262 | a merged cluster is no closer to a third than the nearer of its parts was |
| Clustering.FirstClosestUnique | voxedge/capabilities/diarization.py:233-243 | the scan with a strict comparison picks one pair, the first of least distance |
| Clustering.Ahc | voxedge/capabilities/diarization.py:208-275 | labels of the specified clustering of any embeddings |
| SpeakerNames.NamesFollowClusters | voxedge/capabilities/diarization.py:285-300 | two items share a name exactly when they share a cluster, and a lower name belongs to a speaker heard no later |
| SpeakerNames.EveryNameIsUsed | voxedge/capabilities/diarization.py:298-300 | the names are exactly 0 up to the number of clusters |
| SpeakerNames.FinalizedInOrder | voxedge/capabilities/diarization.py:302-314 | the transcript is in (start, end) order, holds exactly the named items, and leaves items with the same span in their order |
| SpeakerNames.SortedKeepsOrder | voxedge/capabilities/diarization.py:314 | the sort is stable for any total preorder |
| Splitter.SegmentLengths | voxedge/audio/segment.py:36-74 | for any candidates, sizes that leave room for a fragment beside a short tail (`Roomy`) and audio longer than max_seg: no segment exceeds max_seg + min_tail, all but the first have at least min_frag, the last at least min_tail |
| Splitter.MiddleIsCentral | voxedge/audio/segment.py:108-119 | a candidate is the first sample of a silent frame, in the middle of its silence give or take a frame |
| Splitter.BoundIffBounded | voxedge/audio/segment.py:53-56 | for all sizes whatsoever, the documented bound max_seg + min_tail holds for all audio and candidates exactly when min_tail >= 0, min_frag <= min_tail + 1, min_frag <= max_seg, and either min_frag <= min_seg, or min_frag <= 2, or both 2 min_frag and min_frag + min_tail are at most max_seg + 2 |
| Splitter.BoundedSuffices | voxedge/audio/segment.py:53-74 | under that condition no segment of any audio exceeds the bound |
| Splitter.TailStaysWithin | voxedge/audio/segment.py:72-73 | any number of tail merges stays within the bound when no segment before the tail exceeds max_seg + 1 |
| Splitter.TooLong | voxedge/audio/segment.py:36-74 | for any other sizes (min_tail >= 0) there is audio that ends up as one segment beyond the bound |
| Splitter.TwoCutsApart | voxedge/audio/segment.py:58-65 | key lemma of the greedy choice: two consecutive raw segments total more than max_seg |
| Splitter.GreedyChoice | voxedge/audio/segment.py:58-65 | raw segments are within max_seg and any two in a row exceed it |
| Splitter.FragmentsMerged | voxedge/audio/segment.py:66-71 | after the fragment pass each long segment has absorbed at most one fragment |
| Splitter.TailMergedOnce | voxedge/audio/segment.py:72-73 | the tail merge fires at most once and leaves what is promised |
| Splitter.SegmentsConcatenate | voxedge/audio/segment.py:74 | segments between cuts from 0 to n concatenate to the input |
| Splitter.FinalCutsOk | voxedge/audio/segment.py:58-74 | the cuts run from 0 to the end and strictly increase, whatever the sizes (no audio is one empty segment) |
| Periods.OnlyRepeatsAreLost | voxedge/text/degenerate.py:101-226 | whenever something is cut the units were A + u^k + P + B with k >= 2, P a proper prefix of u and P or B empty, and they become A + u + B |
| Periods.DecideCutsRepeats | voxedge/text/degenerate.py:229-324 | the same shape for each of the three anchors, all positions in range |
| Periods.HeadUnitIs | voxedge/text/degenerate.py:101-140 | a unit that explains the whole is found whenever there is one, and none shorter would do |
| Periods.TailUnitIs | voxedge/text/degenerate.py:143-193 | a repeated tail is found whenever some unit and phase qualify, none shorter does, and no other phase of it covers more |
| Periods.InteriorRunIs | voxedge/text/degenerate.py:196-226 | a run in the middle is found exactly when there is one, and covers no less than any run the scan stops at |
| Periods.ScanCoversMost | voxedge/text/degenerate.py:212-226 | no run that the scan of one unit length stops at covers more than its result |
| Periods.HeadCutsRepeats | voxedge/text/degenerate.py:267-295 | what the front anchor cuts is copies of one unit and at most a truncated one |
| Periods.TailCutsRepeats | voxedge/text/degenerate.py:297-306 | the same for the tail anchor, its phase included |
| Periods.InteriorCutsRepeats | voxedge/text/degenerate.py:308-323 | the same for the interior anchor |
| Collapse.CollapseRepetition | voxedge/text/degenerate.py:229-324 | it fires exactly when something is to be cut; then the result's units are the kept ones and its text is taken over from the input as it was, trimmed only where a cut was made; otherwise the text comes back unchanged |
| Collapse.EnoughCopies | voxedge/text/degenerate.py:89-98 | whatever is cut was seen often enough: eight copies of one character, three of anything else; among words six, or three of six words or more (a long unit may be cut short once) |
| Collapse.OneUnitText | voxedge/text/degenerate.py:229-324 | a text of one unit over and over is collapsed exactly from eight characters or six words on |
| Collapse.HeadTextIs | voxedge/text/degenerate.py:267-295 | the text kept from the front has exactly the units of one copy and of the rest |
| Collapse.CutAt | voxedge/text/degenerate.py:246-265 | cutting a text where a unit begins cuts its list of units there, on both sides |
| Collapse.SliceUnits | voxedge/text/degenerate.py:299-305 | the text between two unit offsets has exactly the units between them |
| Collapse.UnitsConcat | voxedge/text/degenerate.py:250-265 | units of a concatenation are the units of the parts when no word runs across |
| Collapse.RStripSepKeepsUnits | voxedge/text/degenerate.py:285-305 | stripping trailing separators loses no unit |
| SegmentRepeats.PassLaw | voxedge/text/degenerate.py:327-370 | a second pass changes nothing, a pass changes something exactly when some run is long enough, and every run leaves its first segment |
| SegmentRepeats.CollapseSegmentRepeats | voxedge/text/degenerate.py:327-370 | kept segments are the specified ones, and kept plus dropped is the input count |
| Runs.CollapsedTwice | voxedge/text/degenerate.py:354-370 | keeping one of each long run is idempotent |
| Runs.UnchangedExactlyWhen | voxedge/text/degenerate.py:349-370 | nothing is dropped exactly when no maximal run is long enough |
| Runs.HeadsStay | voxedge/text/degenerate.py:354-370 | the first element of every run survives, in order |
| Numerals.ReadCardinal | voxedge/text/zh_numbers.py:39-76 | `cardinal` succeeds exactly for |n| < 10^12, and reading its text back gives n |
| Numerals.ZeroLaw | voxedge/text/zh_numbers.py:42-48 | for n != 0 the number of 零 is the number of zero runs followed by another digit; none is adjacent to another, first or last |
| Numerals.UnitLaw | voxedge/text/zh_numbers.py:44-48 | in the text of `cardinal` every unit follows a digit, except that a leading 一十 is 十 |
| Numerals.SequencerZeroLaw | voxedge/engine/tts_sequencer.py:138-184 | for every 0 < |n| < 10^16 the sequencer prints one 零 for each run of zero digits between two others of a group, one before each later group that has fewer than four digits, and no more; none is first, last or adjacent to another |
| Numerals.UnderZeroLaw | voxedge/engine/tts_sequencer.py:138-154 | the same for one group: its 零 are the zero runs between two other digits |
| Numerals.SequencerUnitLaw | voxedge/engine/tts_sequencer.py:157-184 | every unit follows a digit, except that exactly the numbers from 10 to 19 begin with 十 |
| Numerals.CardinalInjective | voxedge/text/zh_numbers.py:39-76 | no two numbers have the same text |
| Numerals.DigitsRoundTrip | voxedge/text/zh_numbers.py:52-53 | the decimal digits denote the number and do not begin with 0 |
| Numerals.IntRoundTrip | voxedge/engine/tts_sequencer.py:157-184 | reading the sequencer's text back gives n exactly when |n| < 10^16 |
| Numerals.ReadIntToChinese | voxedge/engine/tts_sequencer.py:157-184 | for every n the text reads as n modulo 10^16, with its sign |
| Numerals.IntToChineseInjective | voxedge/engine/tts_sequencer.py:157-184 | no two numbers below 10^16 have the same text |
| Numerals.ReadUnder | voxedge/engine/tts_sequencer.py:138-154 | the digits of one group read as their value, on top of any finished groups |
| Numerals.TeensReadTheSame | voxedge/engine/tts_sequencer.py:181-184 | dropping the 一 of 一十八 does not change what is read |
| Numerals.PrintersAgree | voxedge/text/zh_numbers.py:39-76 | the two printers denote the same number exactly when they are given the same number |
| Numerals.PrintersDiffer | voxedge/engine/tts_sequencer.py:157-184 | yet they print 100000 as 十万 and 一十万 |
| Cif.TokenCount | voxedge/backends/jetson/paraformer_trt.py:227-240 | the number of tokens is floor((carry + sum of the positive alphas) / threshold) |
| Cif.EmbeddingIsKept | voxedge/backends/jetson/paraformer_trt.py:227-240 | per coordinate, threshold times the sum of the tokens plus what is carried on equals what was carried in plus the sum of alpha * frame |
| Cif.TokensAreAverages | voxedge/backends/jetson/paraformer_trt.py:237-240 | each token is a combination of frames, and of the carried embedding as far as weight was carried, with no negative weight and total weight one |
| Cif.StreamingIsOneShot | voxedge/backends/jetson/paraformer_trt.py:211-243 | cutting the frames anywhere and carrying the state over gives the same tokens and the same carry |
| Cif.WeightIsKept | voxedge/backends/jetson/paraformer_trt.py:227-243 | the carried weight stays in [0, threshold) and no weight is lost |
| Cif.RunInPieces | voxedge/backends/jetson/paraformer_trt.py:211-243 | a run from the middle continues the run before it, whatever has been fired |
| RateShifter.PushAndFlush | voxedge/backends/base.py:592-609 | pushing any chunks and flushing: what comes out is as long as the one-shot stretch of the joined chunks exactly for identity speed, for no samples, or for at least a window of samples when the hop is no wider than the window or nothing beyond what is held back plus a window arrives |
| RateShifter.StreamMatchesOneShot | voxedge/audio/rate.py:289-388 | the same equivalence for the lengths, in terms of the total number of samples and the window |
| RateShifter.RendersExactlyWhen | voxedge/audio/rate.py:309-326 | something is rendered before the flush exactly when the total exceeds what is held back plus a window, however it is chopped up |
| RateShifter.StreamLengthIs | voxedge/audio/rate.py:289-388 | for at least a window of input the stream emits the one-shot length less what each rendering loses to hops wider than the window |
| RateShifter.HopsFit | voxedge/audio/rate.py:314-326 | the block cut for the available hops lies in the buffer, has exactly that many analysis frames, and leaves at least a window |
| RateShifter.FlushCompletes | voxedge/audio/rate.py:304-307 | hops already emitted and the flushed rest add up to the one-shot length |
| RateShifter.WsolaTiming | voxedge/audio/rate.py:86-134 | one start per analysis hop; each lies in [0, n - W] and within delta of its nominal place, and is the first of the best-scoring starts there |
| RateShifter.AgreeingFrames | voxedge/audio/rate.py:137-163 | wherever the windows do not vanish, the output is the sample (clipped) on which all frames that cover the position agree, each taken from where it starts |
| RateShifter.BlendedBetween | voxedge/audio/rate.py:137-163 | with windows nowhere negative it lies between the least and the greatest of these samples |
| RateShifter.FramesInStep | voxedge/audio/rate.py:137-163 | frames taken from where they are put reproduce the signal |
| RateShifter.OneFrame | voxedge/audio/rate.py:147-152 | one frame moves the signal by where it starts |
| RateShifter.RenderedInStep | voxedge/audio/rate.py:86-163 | without search and with equal hops a rendering reproduces its block |
| RateShifter.SteadySignal | voxedge/audio/rate.py:137-163 | a steady signal comes out as it went in (clipped) wherever the windows do not vanish |
| RateShifter.WindowParams | voxedge/audio/rate.py:50-58 | the window is even, within 512..2048, its hop a quarter of it; a rounded size in range is taken as it is, or made even by one more |
| TurnDriver.Turn.RunTurn | voxedge/engine/turn_driver.py:173-449 | for every stream of events, round cap and abort behaviour: the messages added are the exchanges of the rounds that called tools and an ending; they are well formed exactly when no call of any round raises, given the registry, its arguments and the answers of the tools run; the turn ends as its rounds say, with the template path at the first round whose tools all are succeeding templates; the log of what was said is the text and announcements of the events taken, the completion text to its channel, and one flush unless a poll aborted or an error is re-raised; and how often it polled |
| TurnDriver.SafeTurn | voxedge/engine/turn_driver.py:173-449 | with tools for which no call can raise, every turn adds a well-formed history |
| TurnDriver.RaisingCallStaysOpen | voxedge/engine/turn_driver.py:343-363 | for any tools and any call (with an id and arguments) that raises when no tool was run yet: a model that asks for it leaves the call message without a result and ends the turn with an error |
| TurnDriver.TurnWellFormed | voxedge/engine/turn_driver.py:321-414 | however a turn ends, its messages are well formed exactly when no call raised, and a raising call is exactly what ends it with a dispatch error |
| TurnDriver.ExchangesWellFormed | voxedge/engine/turn_driver.py:321-382 | exchanges one after the other are well formed exactly when every call was answered |
| TurnDriver.ExchangeWellFormed | voxedge/engine/turn_driver.py:336-372 | one call message with the results it got is well formed exactly when none of its calls raises |
| TurnDriver.WellFormedAppend | voxedge/engine/turn_driver.py:336-382 | appending to a well-formed list keeps it so exactly when what is appended is well formed |
| TurnDriver.AnswersAre | voxedge/engine/turn_driver.py:338-372 | the answers of a round are those of its calls one by one, with the tools run counted on, up to the first that raises |
| TurnDriver.FullExactlyWhen | voxedge/engine/turn_driver.py:338-372 | every call is answered exactly when none raises |
| TurnDriver.FiresExactlyWhen | voxedge/engine/turn_driver.py:452-463 | the template path fires exactly when the registry has a template with a completion for every call of the round and every answer succeeded |
| TurnDriver.DeltaAccumulates | voxedge/engine/turn_driver.py:278-296 | however indices interleave, a delta extends its own slot and no other: arguments concatenated, last id and name |
| TurnDriver.CallsUnique | voxedge/engine/turn_driver.py:323-336 | the events of a round determine its calls |
| TurnDriver.AscendingUnique | voxedge/engine/turn_driver.py:324 | the ascending order of the indices is unique |
| TurnDriver.TurnSays | voxedge/engine/turn_driver.py:270-440 | what a turn says: all text of the events taken, in order, and then the completion text unless the callback gets it; the callback gets it once and nothing else; for each round exactly the names with a preamble that its deltas called are announced, each once; the flush adds nothing |
| TurnDriver.StreamSays | voxedge/engine/turn_driver.py:270-298 | the same for the events of one round |
| TurnDriver.CalledIsFired | voxedge/engine/turn_driver.py:278-294 | the name of every call came with a delta, so the preamble at dispatch is never due |
| TurnDriver.OnceOn | voxedge/engine/turn_driver.py:178-182 | the next round does not repeat the announcements of the rounds before it |
| TurnDriver.OnOrOver | voxedge/engine/turn_driver.py:310-414 | after a round the pump asks again, with all calls answered and no template path, or the turn has ended in one of its ways |
| TurnDriver.SomethingSpoken | voxedge/engine/turn_driver.py:466-469 | the fast path never speaks the empty text |
| TtsBuffer.FeedKeepsText | voxedge/engine/tts_buffer.py:80-97 | for any sequence of adds: the characters emitted and then those still buffered are, up to spaces, those fed in, in order; no chunk is empty; the rest is shorter than max_chars (CJK) or target_chars |
| TtsBuffer.ChoppingIsInaudible | voxedge/engine/tts_buffer.py:80-97 | after the flush the same has been said wherever the stream was chopped up |
| TtsBuffer.DrainKeepsText | voxedge/engine/tts_buffer.py:92-97 | emission terminates and keeps the text, for any rule that cuts off something non-empty |
| TtsBuffer.NextKeepsText | voxedge/engine/tts_buffer.py:99-139 | one chunk says something and loses nothing; when there is none the buffer is short |
| TtsBuffer.HardCutIs | voxedge/engine/tts_buffer.py:115-119 | a hard cut ends at the first hard break and has at least two characters |
| TtsBuffer.HardBreakEnds | voxedge/engine/tts_buffer.py:111-119 | the first hard break ends the chunk, before any other rule, exactly when two characters come out |
| TtsBuffer.SoftBreakEnds | voxedge/engine/tts_buffer.py:121-127 | without a hard cut the last soft break ends a chunk of min_chars, and target_chars with a soft break go out whole |
| TtsBuffer.LengthCutIs | voxedge/engine/tts_buffer.py:152-164 | a length cut is after the last soft break (CJK) or space that leaves min_chars at least and max_chars at most; without one it takes max_chars, or target_chars |
| TtsBuffer.SoftCutIs | voxedge/engine/tts_buffer.py:121-125 | a soft cut ends at the last soft break with at least min_chars, or takes the whole buffer of at least target_chars that has one |
| TtsBuffer.FirstBreakIs | voxedge/engine/tts_buffer.py:141-144 | the minimum over the finds is the first position of any of the characters |
| TtsBuffer.LastBreakIs | voxedge/engine/tts_buffer.py:146-150 | the maximum over the rfinds is the last position of any of the characters |
| TtsBuffer.Clamped | voxedge/engine/tts_buffer.py:65-78 | 2 <= min <= target <= max, and sizes given in that order are taken as they are |
| TtsBuffer.LengthCut | voxedge/engine/tts_buffer.py:152-164 | a length cut takes at least one character and at most max_chars |
| StreamCancel.StreamingAsrStream.constructor | voxedge/backends/jetson/trt_edge_llm_asr.py:2207-2265 | a new stream is the initial abstract stream |
| StreamCancel.StreamingAsrStream.Arm | voxedge/backends/jetson/trt_edge_llm_asr.py:2374-2395 | the locked section of `arm_cancel`: the new state is the abstract transition, the armed id is returned |
| StreamCancel.StreamingAsrStream.EnterRequest | voxedge/backends/jetson/trt_edge_llm_asr.py:2397-2440 | entry of `request_cancel`: receipt found, duplicate, or ownership taken |
| StreamCancel.StreamingAsrStream.Release | voxedge/backends/jetson/trt_edge_llm_asr.py:2460-2506 | release of the ownership, noting a worker exit |
| StreamCancel.StreamingAsrStream.Record | voxedge/backends/jetson/trt_edge_llm_asr.py:2335-2372 | a receipt is recorded only if it matches the armed id; otherwise nothing changes |
| StreamCancel.StreamingAsrStream.Commit | voxedge/backends/jetson/trt_edge_llm_asr.py:2534-2592 | a chunk reply is committed only for the current id and only while no cancel is armed for it |
| StreamCancel.StreamingAsrStream.Rotate | voxedge/backends/jetson/trt_edge_llm_asr.py:2603-2648 | a rotation appends the segment, resets the texts and takes a fresh id, unless the id changed or is armed |
| StreamCancel.StreamingAsrStream.Close | voxedge/backends/jetson/trt_edge_llm_asr.py:2772-2829 | marking closed concerns the given id only |
| StreamCancel.StreamingAsrStream.BeginInflight | voxedge/backends/jetson/trt_edge_llm_asr.py:2289-2292 | the count of the session goes up by one |
| StreamCancel.StreamingAsrStream.EndInflight | voxedge/backends/jetson/trt_edge_llm_asr.py:2293-2300 | the count goes down by one and its entry disappears at zero |
| WorkerOwnership.TRTEdgeLLMASRBackend.Ensure | voxedge/backends/jetson/trt_edge_llm_asr.py:895-1025 | what `_ensure_worker` leaves owned, for every way a launch can go |
| WorkerOwnership.TRTEdgeLLMASRBackend.ClearIfCurrent | voxedge/backends/jetson/trt_edge_llm_asr.py:1124-1153 | compare-and-handle under the lock: cleared only if the captured worker is current and exited, marked if it lives |
| WorkerOwnership.TRTEdgeLLMASRBackend.Restart | voxedge/backends/jetson/trt_edge_llm_asr.py:1355-1487 | a restart forgets the worker only when the teardown observed its exit |
| SessionManager.ASRSessionManager.constructor | voxedge/engine/asr_session_manager.py:132-183 | a new manager is idle at generation 0 and epoch 0 |
| SessionManager.ASRSessionManager.Preempt | voxedge/engine/asr_session_manager.py:263-271 | the lock-free epoch bump before the lock |
| SessionManager.ASRSessionManager.SafeCloseStream | voxedge/engine/asr_session_manager.py:86-98 | closing counts once for the stream it is given |
| SessionManager.ASRSessionManager.CreateStream | voxedge/engine/asr_session_manager.py:252-262 | a fresh stream becomes current |
| SessionManager.ASRSessionManager.BeginError | voxedge/engine/asr_session_manager.py:529-543 | errors enter the rebuild ladder |
| SessionManager.ASRSessionManager.ContinueRebuild | voxedge/engine/asr_session_manager.py:544-570 | one rung of the ladder, up to its next await |
| SessionManager.ASRSessionManager.EndRebuild | voxedge/engine/asr_session_manager.py:544-570 | the ladder ends with a stream or in IDLE |
| SessionManager.ASRSessionManager.BeginCancel | voxedge/engine/asr_session_manager.py:439-460 | the current stream is taken away before the cancel is awaited |
| SessionManager.ASRSessionManager.CancelDone | voxedge/engine/asr_session_manager.py:461-490 | a finished cancel closes the stream, an unfinished one abandons it |
| SessionManager.ASRSessionManager.LeaveCancel | voxedge/engine/asr_session_manager.py:480-490 | back to IDLE, or on to the speech start that preempted |
| SessionManager.ASRSessionManager.ContinueCancel | voxedge/engine/asr_session_manager.py:439-490 | resumption after the awaited cancel or restart |
| SessionManager.ASRSessionManager.BeginFinalize | voxedge/engine/asr_session_manager.py:326-350 | snapshot of epoch and generation, or rejection when not ACTIVE |
| SessionManager.ASRSessionManager.ContinueFinalize | voxedge/engine/asr_session_manager.py:350-379 | commit or discard by comparing epochs |
| SessionManager.ASRSessionManager.BeginSpeech | voxedge/engine/asr_session_manager.py:269-278 | speech start with the lock held |
| SessionManager.ASRSessionManager.ContinueSpeech | voxedge/engine/asr_session_manager.py:278-290 | the new generation and its stream, or the error path |
| SessionManager.ASRSessionManager.PublishLock | voxedge/engine/asr_session_manager.py:571-592 | a successful restart publishes a new worker epoch |
| Clustering.FindClosest | voxedge/capabilities/diarization.py:233-243 | the double loop over active clusters finds that pair |
| Clustering.UpdateDistances | voxedge/capabilities/diarization.py:254-262 | after the loop each entry of the merged cluster, row and column, is its exact mean distance; all others are as before |
| Clustering.MergePair | voxedge/capabilities/diarization.py:253-269 | matrix, sizes, members and active list describe the merged clusters again |
| Clustering.MergeUntilDone | voxedge/capabilities/diarization.py:232-269 | the loop computes the specified agglomeration |
| Clustering.AssignLabels | voxedge/capabilities/diarization.py:271-275 | each index gets the number of the cluster it is in |
| Clustering.InitialDistances | voxedge/capabilities/diarization.py:218-220 | 1 - cosine off the diagonal, infinity on it |
| SpeakerNames.Remap | voxedge/capabilities/diarization.py:299-300 | every label is mapped to its place in the order |
| SpeakerNames.Finalize | voxedge/capabilities/diarization.py:277-314 | the naming loop and the final sort compute the specified transcript |
| Splitter.GreedyCuts | voxedge/audio/segment.py:58-65 | the greedy loop terminates with the specified cuts |
| Splitter.DropFragments | voxedge/audio/segment.py:66-71 | the fragment loop computes the specified merge |
| Splitter.DropTail | voxedge/audio/segment.py:72-73 | the tail loop computes the specified merge |
| Splitter.PickCuts | voxedge/audio/segment.py:36-74 | the segments between the final cuts |
| Splitter.FindCandidates | voxedge/audio/segment.py:108-119 | candidates are exactly the middles of the maximal silences of at least the minimal length, one at the end included |
| Splitter.SplitAtSilence | voxedge/audio/segment.py:77-128 | audio in, segments out: they concatenate to the audio and keep the bound when the sizes are `Bounded` |
| Periods.CountFrom | voxedge/text/degenerate.py:120-123 | the forward counting loop counts all adjacent copies |
| Periods.CountUpTo | voxedge/text/degenerate.py:175-181 | the backward counting loop counts all adjacent copies |
| Periods.FindPeriod | voxedge/text/degenerate.py:101-140 | the shortest unit that explains the whole, with what its copies cover |
| Periods.FindTailPeriod | voxedge/text/degenerate.py:143-193 | the shortest unit with a qualifying phase, at the phase that covers most |
| Periods.FindInteriorRun | voxedge/text/degenerate.py:196-226 | the scan over unit lengths and positions computes the specified run |
| Collapse.KeepHead | voxedge/text/degenerate.py:267-295 | the rebuilt text, verbatim: one copy and the unexplained rest, and their units |
| Collapse.KeepTail | voxedge/text/degenerate.py:297-306 | the text up to the end of the first copy of the tail, verbatim, and its units |
| Collapse.KeepAround | voxedge/text/degenerate.py:311-323 | the text without the copies after the first, verbatim, and its units |
| Collapse.WordUnits | voxedge/text/degenerate.py:250-258 | the word branch lists the bare words and where they begin |
| Collapse.CharacterUnits | voxedge/text/degenerate.py:259-265 | the character branch lists the characters that are no separators and where they are |
| Runs.CollapseRuns | voxedge/text/degenerate.py:342-370 | the in-place pass over kept segments equals one of each long enough run and all of the others |
| Numerals.PrintCardinal | voxedge/text/zh_numbers.py:39-76 | the digit loop with its pending zero computes the specified text, or fails beyond 12 digits |
| Numerals.PrintDigit | voxedge/text/zh_numbers.py:55-75 | one round of that loop |
| Numerals.SpeakDigit | voxedge/text/zh_numbers.py:64-75 | what one digit other than zero appends |
| Numerals.PrintUnderTenThousand | voxedge/engine/tts_sequencer.py:138-154 | the position loop computes the specified text |
| Numerals.PrintPositive | voxedge/engine/tts_sequencer.py:169-184 | the group loop computes the specified text |
| Numerals.PrintInt | voxedge/engine/tts_sequencer.py:157-184 | sign, zero and groups |
| Cif.Cif | voxedge/backends/jetson/paraformer_trt.py:211-243 | the nested loops terminate and compute the specified tokens and carry |
| RateShifter.Search | voxedge/audio/rate.py:119-131 | the candidate loop finds the first of the best scores |
| RateShifter.ScatterAdd | voxedge/audio/rate.py:155-159 | scattering frames over the output, never beyond its end, gives the sum of the frames that cover each position |
| RateShifter.OverlapAdd | voxedge/audio/rate.py:137-163 | the normalised and clipped sum at every position, of the right length |
| RateShifter.Render | voxedge/audio/rate.py:314-349 | the samples of a rendering are those of at most the given number of frames, taken at good starts, and so is its length |
| RateShifter.TimeStretch | voxedge/audio/rate.py:182-213 | the output is the rendering of the whole signal; and the input itself for identity speed or less than a window |
| RateShifter.TTSRateShifter.constructor | voxedge/audio/rate.py:257-275 | an empty, open buffer |
| RateShifter.TTSRateShifter.ProcessAvailable | voxedge/audio/rate.py:289-326 | what is consumed and what is emitted, streaming (the block at the front of the buffer, rendered) and final (all of the rest) |
| RateShifter.TTSRateShifter.RenderHops | voxedge/audio/rate.py:328-349 | the first hops of a rendering: length and samples |
| RateShifter.TTSRateShifter.Push | voxedge/audio/rate.py:373-381 | buffer, output length and samples after a chunk; identity passes it through |
| RateShifter.TTSRateShifter.Flush | voxedge/audio/rate.py:383-388 | the rest rendered, once; the shifter is closed |
| TurnDriver.Sorted | voxedge/engine/turn_driver.py:324 | the indices in ascending order, each once |
| TurnDriver.CommitCalls | voxedge/engine/turn_driver.py:321-336 | one call per index in ascending order with its concatenated arguments, `{}` for none, and `call_{idx}` for a missing id |
| TurnDriver.Turn.ShouldAbort | voxedge/engine/turn_driver.py:199-200 | a poll that says stop is the last poll, and the first to say so |
| TurnDriver.Turn.TakeEvent | voxedge/engine/turn_driver.py:270-298 | one event: text to the sink, a delta to its slot, a preamble when its name is first known |
| TurnDriver.Turn.StreamRound | voxedge/engine/turn_driver.py:196-298 | the stream loop: text spoken is the text of the events taken, slots are those of the events, finish reason the last one, one poll for each event taken and one more when it aborts |
| TurnDriver.Turn.Announce | voxedge/engine/turn_driver.py:284-294 | a name that is due is announced and marked, any other leaves both as they are |
| TurnDriver.Turn.Dispatch | voxedge/engine/tool_registry.py:304-341 | an unknown tool is an answer; a local tool whose arguments are no object raises before it is run; any other is run |
| TurnDriver.Turn.CallTool | voxedge/engine/turn_driver.py:343-382 | one call gives one result with its id: a failure when the arguments do not parse, else what the registry answers; none when either raises |
| TurnDriver.Turn.DispatchAll | voxedge/engine/turn_driver.py:338-382 | results in call order with ids and answers, up to a call that raises, which is the only reason to stop |
| TurnDriver.Turn.CallRound | voxedge/engine/turn_driver.py:321-382 | the call message and its results |
| TurnDriver.Turn.Reply | voxedge/engine/turn_driver.py:309-319 | a round without calls: its text, unless a poll stops it |
| TurnDriver.Turn.SpeakTemplate | voxedge/engine/turn_driver.py:395-412 | the joined completion texts go to the callback or the text sink, and to the history when asked for |
| TurnDriver.Turn.Conclude | voxedge/engine/turn_driver.py:384-414 | after the calls: stop, close with the templates, or go on |
| TurnDriver.Turn.PlayRound | voxedge/engine/turn_driver.py:178-414 | how one round may end, and what it leaves in the message list |
| TtsBuffer.LowLatencyTTSBuffer.constructor | voxedge/engine/tts_buffer.py:59-78 | an empty buffer with clamped sizes |
| TtsBuffer.LowLatencyTTSBuffer.ChooseLengthCut | voxedge/engine/tts_buffer.py:152-164 | the downward loop finds the last space from min_chars on |
| TtsBuffer.LowLatencyTTSBuffer.Take | voxedge/engine/tts_buffer.py:136-139 | what is taken and what is left |
| TtsBuffer.LowLatencyTTSBuffer.CutPoint | voxedge/engine/tts_buffer.py:111-134 | the cascade of tests computes the specified cut |
| TtsBuffer.LowLatencyTTSBuffer.NextChunk | voxedge/engine/tts_buffer.py:99-139 | the next chunk and the rest, or neither |
| TtsBuffer.LowLatencyTTSBuffer.EmitReady | voxedge/engine/tts_buffer.py:92-97 | all chunks that are ready |
| TtsBuffer.LowLatencyTTSBuffer.Add | voxedge/engine/tts_buffer.py:80-84 | text is conserved, chunks are non-empty, the rest is short |
| TtsBuffer.LowLatencyTTSBuffer.Flush | voxedge/engine/tts_buffer.py:86-87 | the rest as one chunk, or nothing; the buffer is empty |

## Left out

- Transport, artifact download, configuration, translators, mocks, the capability resolver and the other backends: plumbing.
- TensorRT, CUDA, ONNX, sherpa, webrtcvad, subprocess calls and the time budgets of a teardown: replies, exits and timeouts are arbitrary; of a teardown only whether it observed the exit.
- Native stream: audio is a number of samples; text post-processing and the collapse of promoted text are arbitrary texts that come with a reply; a fresh uuid is a number not used before; the set of armed ids that is kept beside the requested ones always equals it and is not kept twice; lock timeouts leave the state as it is.
- Worker ownership: readiness flags, diagnostics and telemetry.
- Session manager: cancellation of its asyncio tasks from outside, event-loop fairness and clocks; `prepare_finalize_for_generation` and `get_partial_for_generation`, which only read.
- ASR loop: endpoint detection and its generation gate, partial events; when an endpoint fires is arbitrary.
- Clustering: distances are reals, so rounding and NaN (and with them the branch for no pair at all) do not occur; embeddings are taken as normalised; the wrapper that turns exceptions into one speaker.
- SpeakerNames.Finalize: centroids, confidences and embeddings are not carried along.
- Splitter: how loud a frame is, or what the VAD says of it, is a parameter; the rounding of milliseconds to samples.
- Collapse.WordUnits: the matches of `\S+` are a function of the text, not a loop; the coverage thresholds 0.8 and 0.5 are exact fractions.
- Periods.InteriorRunIs: a longer run that begins inside a run already counted is not seen by the scan, so the result is longest only among the runs at which the scan stops.
- Numerals: `digit_by_digit`, `normalize`, decimals and the regular expressions around them.
- Cif.Cif: floats are reals; shapes are checked as lengths.
- RateShifter: one channel of samples as reals, correlation scores as a parameter, no pitch stage, no int16 conversion; the samples of the stream are not compared with those of the one shot, which chooses other starts.
- Turn driver: latency logging, hooks without effect on the messages, and the watchdog beyond the exception it raises; the text of a failed answer stands for its JSON; what a tool answers depends on how many tools were run before, not on what they did.
- TtsBuffer.LowLatencyTTSBuffer.EmitReady: a generator is run to its end; whether the language is CJK is a parameter.
