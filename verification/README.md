# AutoReiv kernel: models and proofs

A Dafny model of the stateful and text-transforming parts of AutoReiv, with the properties
that its chat kernel relies on.  `dafny verify dfyconfig.toml` checks all of it.

| Part of the system | Modules |
|---|---|
| reasoning demuxer: a streaming parser with a carry buffer | `Demuxer`, `DemuxStreams`, `DemuxPassing` |
| generation semaphore: cancellable first-come-first-served slots under a changing cap | `GenerationSlots`, `SlotFairness`, `SlotThreads`, `SemaphoreObject` |
| summary verifier: tokeniser, fact extraction, summary printer and check | `KeyTokens`, `SummaryFacts`, `FactShapes`, `SummaryCheck`, `SummaryHeadings`, `SummarySections` |
| history compaction and its per-session backoff | `Backoff`, `Compactor`, `CompactionReplaces`, `CompactionFront`, `CompactionTries`, `CompactionRetry`, `CompactionPairing`, `CompactionFacts`, `CompactionLoss`, `CompactionBackoff`, `CompactionClears` |
| phase turns, runs and resumes of a job | `Phases`, `PhaseTurn`, `PhaseEvents`, `PhaseRuns`, `PhaseTransitions`, `PhaseGuards`, `PhaseOrder`, `PhaseSteps`, `PhaseRefinement`, `PlanChoice` |
| cycle detector | `Copies`, `JsonTexts`, `Signatures`, `CycleDetector`, `CycleTexts` |
| quiz ledger without near-duplicates | `NearDuplicates`, `NearThresholds`, `Ledger`, `LedgerSteps`, `LedgerLimit` |
| quiz note printer and parser | `QuizNote`, `QuizRoundTrip`, `QuizTaken` |
| excerpts of past chats | `Excerpt` |
| shared | `Texts`, `Chat` |

Objects that the program updates in place are classes (`ReasoningDemuxer`,
`GenerationSemaphore`, `SessionBackoff`, `Orchestrator`, `Detector`, `MasteryLedger`); loops
are methods with invariants, each proved against a function of its inputs or of the old
state.  The lemmas are about those functions.

## What the proofs found

Each of these is a lemma; where a promise fails, there is an input and the exact condition.

- A closing tag at the very end of a text is held back and delivered as reasoning by the
  flush (`DemuxUndoesRender`).  A provider stream whose last chunk is finished but has content
  never delivers a held end (`StreamDelivers`, `NothingMissingIff`, `LastCharacterIsKept`).
- A plan that asks the operator to choose is never parked: the phase was completed just
  before, and a finished phase cannot be parked.  The run raises, and in a new job nothing
  waits for approval (`PlanChoiceIsNeverParked`, `PlanChoiceLeavesNothingWaiting`;
  src/application/chat/job_runner.py:484-490, whose message says the job is waiting).
- A resume that lists what remains while another run is on the next phase goes on with the
  phase after it, so two phases are active (`TwoRunsStartTwo`, `ResumeCanStartTwo`).  This
  listing is the only step of any run that can break the order (`StepKeepsIff`,
  `GoingOnKeepsIff`), and with one run at a time it does not happen (`OneRunKeepsOrder`).  The
  chat route refuses a second turn of a chat (src/web/routers/chat.py:336-343), but stopping
  one takes it off the list before it has ended (src/web/routers/chat.py:630).
- A cap raised by another thread can be missed by the first acquire that ever has to queue,
  which then waits beside a free slot until the next release or cap change
  (`FirstCapChangeCanBeMissed`); once the loop is known it cannot (`KnownLoopNeverMisses`).
- A compaction without a session id that succeeds clears the wait of every session
  (`SessionlessCallClears`, `AnotherWaitIsCleared`).
- A custom summarizer that leaves out the marker passes the check (`FactsOnlyPasses`), and the
  next round may lose every path and number that only its summaries had, both summaries being
  accepted (`TwoRoundsLose`, `APathIsLost`); a fact of a summary is safe if and only if the
  summary is marked (`SafeIffMarked`).
- Near-duplicates are kept out only among the listed thousand rows: a ledger with one row more
  can get one (`UnlistedRowIsRepeated`), and `WriteKeepsIff` has the exact condition.
- A call that truncates tool outputs and then finds nothing left to summarise reports that
  nothing was applied (`MetricsAre`).
- A truncated tool output is always longer than the limit it was cut to, so the next call
  truncates it again (`TruncationRepeats`).
- With a threshold of one, the character test of the text detector still needs two copies,
  while the word test needs one; a threshold of zero raises, and a phrase length of zero or
  less lets a short enough text raise the alarm (`RecordAndCheckText`).  With a threshold of
  one every text of three words raises it, if it is long enough (`ThreeWordsAreCaught`).
- The path test excludes tokens that start with http: or https:, but the tokeniser has cut a
  web address at its colon before: its remainder, which starts with two slashes, is a path
  (`AddressIsPath`).  A file under a directory that starts with a date is not extracted as a
  path (`DatedFileIsNot`).
- A cancelled job can become a failed one, when a run was in its turn (`CancelledFailsIff`,
  `CancelledBecomesFailed`).
- The item id of a course step is cut to 48 characters, so the steps of a topic have rows of
  their own only up to a slug of 38 characters (`OwnRowsIff`).
- The signatures of two different batches are different unless a tool name holds a colon
  (`BatchSignature`, `ColonsCanCollide`).

## Modelling notes

- Text is a sequence of characters.  Signatures, item ids and run tokens stand for the values
  that are hashed.  The arguments of a tool call are the text that json.dumps gives for them.
  Ratios of floats are compared by cross-multiplication.
- The model call, the database, the clock and the event stream are inputs.  A summarizer is a
  function of the run, the line limit and the number of calls made before, so two attempts at
  one run may differ.  The stream of each attempt is a list of events with a way of ending.
- Between two awaits the semaphore's code runs without interruption on its loop, so each such
  stretch is one step.  A task's stage says what its future and its cancellation are.  Cap
  changes from other threads are taken step by step in `SlotThreads`.
- What other runs of a job do while a turn is waiting is a function applied to the job: any
  function that removes no phase in `PhaseTurn`, any orderly one in `PhaseOrder`.  In
  `PhaseSteps` all runs are in the state, each at its place, and every transition of the
  orchestrator is one step; `PhaseRefinement` shows that each run of `PhaseRuns` is such steps.
- A turn can also end without a transition: by a cancellation at one of the two awaits after
  the stream, or when the checker raises.  The question test catches its own errors
  (src/application/orchestration/plain_question.py:55-68).  In `PhaseSteps` any run may stop
  anywhere.
- What the inline and bullet expressions find in a quiz note is a parameter of which only
  their common opening is used.
- The two hint expressions of the summary, the plain-question test, the verify checker and
  case folding are function parameters; the theorems hold for all of them.

## Model

| member | source | states |
|---|---|---|
| `Demuxer.ChunkingIsInvisible` | `src/application/gateway/demuxer.py:23-98` | for every text, every way of cutting it and every carry the demuxer can hold, consecutive calls give the same user text, reasoning, mode and carry as one call on the whole text |
| `Demuxer.ScanOfCut` | `src/application/gateway/demuxer.py:33-88` | one cut at any place: scanning the second part with the carry of the first gives the scan of the whole |
| `Demuxer.ScanLosesNothing` | `src/application/gateway/demuxer.py:33-88` | conservation: emitted characters, removed tags and the carry are, in order, exactly the input; the carry is a prefix of the awaited tag; tags alternate with the mode |
| `Demuxer.ScanInduction` | `src/application/gateway/demuxer.py:33-88` | what holds of a held-back end and is kept by a tag and by a character holds of every text |
| `Demuxer.ScanSplitsAtFirstTag` | `src/application/gateway/demuxer.py:33-88` | the text before the first complete awaited tag (with something after it) is emitted in the current mode and the rest is read in the other mode |
| `Demuxer.ScanWithoutTag` | `src/application/gateway/demuxer.py:33-88` | without such a tag the mode stays, and exactly the longest end that is a prefix of the awaited tag is held back |
| `Demuxer.DemuxUndoesRender` | `src/application/gateway/demuxer.py:23-98` | under any chunking plus flush, rendered plain and reasoning segments come back exactly if and only if the text does not stop at a closing tag; in that case the tag itself arrives as reasoning |
| `Demuxer.ReasoningDemuxer.constructor` | `src/application/gateway/demuxer.py:19-21` | a new demuxer is outside reasoning with nothing carried |
| `Demuxer.ReasoningDemuxer.ProcessText` | `src/application/gateway/demuxer.py:23-88` | the loop over tags returns the scan of carry + text and leaves its mode and carry |
| `Demuxer.Round` | `src/application/gateway/demuxer.py:40-86` | one loop round makes progress or holds back an end, and what is still to come completes the scan |
| `Demuxer.ReasoningDemuxer.Flush` | `src/application/gateway/demuxer.py:90-98` | the carry goes out in the current mode and is empty afterwards |
| `Demuxer.ReasoningDemuxer.Step` | `src/application/gateway/demuxer.py:100-127` | what is yielded for one provider chunk: split content with the tool calls, finish reason and end mark of the chunk, or a held end before a closing chunk, or the chunk itself |
| `Demuxer.ReasoningDemuxer.DemuxStream` | `src/application/gateway/demuxer.py:100-127` | the chunks yielded for a whole stream and the state left behind |
| `DemuxStreams.StreamDelivers` | `src/application/gateway/demuxer.py:100-127` | for every provider stream, with reasoning of its own and any number of closing chunks: the user text is what the texts between closing chunks scan to; the reasoning is theirs interleaved with the passed reasoning of chunks without content, each in its order; mode and held end are those of the last text |
| `DemuxStreams.ReducedIsTheSame` | `src/application/gateway/demuxer.py:105-113` | exactly the reasoning, usage and notice of chunks that have content are dropped: without them the stream gives the same chunks |
| `DemuxStreams.ScanHoldsLongest` | `src/application/gateway/demuxer.py:33-88` | after every text the carry is the longest end of it that begins the tag awaited then |
| `DemuxStreams.NothingMissingIff` | `src/application/gateway/demuxer.py:90-127` | one more closing chunk at the end of a stream adds nothing but itself if and only if no end of the last text begins the awaited tag |
| `DemuxStreams.CloseDelivers` | `src/application/gateway/demuxer.py:90-127` | one more closing chunk at the end of any stream delivers exactly the held end, in its mode, and its own reasoning |
| `DemuxStreams.LastCharacterIsKept` | `src/application/gateway/demuxer.py:105-127` | a stream of one finished chunk whose text ends in the first character of a tag: that character is kept back, and a closing chunk would deliver it |
| `DemuxPassing.StreamCorresponds` | `src/application/gateway/demuxer.py:100-127` | for every stream in every state: apart from inserted held ends the yielded chunks correspond one to one to the incoming ones, with the same tool calls, finish reason and end mark; a chunk without content is yielded unchanged, usage and notice included |
| `DemuxPassing.CallsGoThrough` | `src/application/gateway/demuxer.py:100-127` | the tool calls of what is yielded are, in order, those of the stream |
| `DemuxPassing.CallBesideText` | `src/application/gateway/demuxer.py:105-113` | a finished chunk with text and a call: the call and the finish reason are yielded |
| `GenerationSlots.StepIsSound` | `src/application/gateway/generation_semaphore.py:98-158` | every step keeps the accounting and the queue even where a wake-up was lost |
| `GenerationSlots.StepKeepsInv` | `src/application/gateway/generation_semaphore.py:98-158` | every step of the loop (acquire, both cancellations, resume, leave, cap change, deferred wake) keeps: slots in use = holders + grants not yet taken up, each waiter queued once, and no lost wake-up |
| `GenerationSlots.ReachableInv` | `src/application/gateway/generation_semaphore.py:98-158` | the same in every state reached by any interleaving |
| `GenerationSlots.InitialInv` | `src/application/gateway/generation_semaphore.py:84-89` | a new semaphore satisfies the invariant |
| `GenerationSlots.WakeGrantsFront` | `src/application/gateway/generation_semaphore.py:120-126` | a wake-up grants exactly the first min(free slots, live waiters) of the live queue, in order, and nobody else |
| `GenerationSlots.WakeServes` | `src/application/gateway/generation_semaphore.py:120-126` | after a wake-up nobody waits beside a free slot, and it never passes the cap |
| `GenerationSlots.ClampNeverFires` | `src/application/gateway/generation_semaphore.py:128-130` | in every reachable state whoever gives a slot back is counted, so the clamp at zero never changes anything |
| `GenerationSlots.NoOvershoot` | `src/application/gateway/generation_semaphore.py:106-158` | a step that raises the slots in use leaves them at or below the current cap, also after the cap was lowered below the number running |
| `GenerationSlots.GoneOccupier` | `src/application/gateway/generation_semaphore.py:128-130` | removing a holder or a cancelled grant frees exactly one counted slot and leaves the queue alone |
| `GenerationSlots.AcquireKeepsQueue` | `src/application/gateway/generation_semaphore.py:135-146` | an acquire either takes a slot with an empty live queue or joins at its end |
| `GenerationSlots.CancelKeepsQueue` | `src/application/gateway/generation_semaphore.py:147-154` | a cancellation takes the task out of the live queue and keeps the accounting |
| `GenerationSlots.CancelledLeavesQueue` | `src/application/gateway/generation_semaphore.py:147-154` | delivering a cancellation before the grant leaves the live queue as it is |
| `SlotThreads.StepKeepsIff` | `src/application/gateway/generation_semaphore.py:106-154` | with a cap change from another thread taken step by step (write the cap, read the loop, schedule) between any steps of the loop, each step keeps the accounting and a free slot or wake-up for whoever waits, if and only if it is not the one reading of an unknown loop while the first acquire that has to queue is about to join |
| `SlotThreads.KnownLoopNeverMisses` | `src/application/gateway/generation_semaphore.py:106-154` | once the object has seen its loop, no interleaving with such threads loses a wake-up |
| `SlotThreads.RunKeeps` | `src/application/gateway/generation_semaphore.py:106-154` | nor does any run without that reading |
| `SlotThreads.StepNeverOvershoots` | `src/application/gateway/generation_semaphore.py:106-154` | with threads in between too, a step that raises the slots in use leaves them at or below the cap in force |
| `SlotThreads.MissedWakeIsLost` | `src/application/gateway/generation_semaphore.py:106-118` | after that reading the acquire waits beside a free slot with nothing on its way |
| `SlotThreads.NextWakeRepairs` | `src/application/gateway/generation_semaphore.py:120-126` | until the next wake-up, which grants it |
| `SlotThreads.FirstCapChangeCanBeMissed` | `src/application/gateway/generation_semaphore.py:106-143` | such a run: one holder, a second acquire, a cap raised to two |
| `SlotThreads.AcquireIsTwoSteps` | `src/application/gateway/generation_semaphore.py:135-143` | without a thread in between, the test and the joining are one acquire |
| `SlotThreads.SetCapIsThreeSteps` | `src/application/gateway/generation_semaphore.py:106-118` | without an acquire in between, the three steps are one cap change |
| `SlotFairness.NoOvertaking` | `src/application/gateway/generation_semaphore.py:98-154` | over any run, while a task waits, every slot newly taken goes to a task that was ahead of it; neither a later waiter nor the fast path gets one |
| `SlotFairness.BoundedWait` | `src/application/gateway/generation_semaphore.py:98-154` | with a fixed cap a waiter with k live waiters ahead is granted after at most k + 1 + max(0, in use - cap) releases |
| `SlotFairness.WaitEnds` | `src/application/gateway/generation_semaphore.py:135-154` | a waiting task stops waiting only by its own cancellation or by a grant |
| `SlotFairness.OnlyGranted` | `src/application/gateway/generation_semaphore.py:120-154` | no event but its own cancellation does anything to a waiting task except granting it |
| `SlotFairness.StepKeeps` | `src/application/gateway/generation_semaphore.py:98-158` | one step beside a waiting task: nobody joins ahead of it and each release brings it at least one nearer |
| `SemaphoreObject.GenerationSemaphore.constructor` | `src/application/gateway/generation_semaphore.py:84-89` | a new object is the initial state and satisfies the invariant |
| `SemaphoreObject.GenerationSemaphore.AnyLive` | `src/application/gateway/generation_semaphore.py:98-104` | the scan of the waiters finds a live one if and only if the live queue is not empty |
| `SemaphoreObject.GenerationSemaphore.WouldWait` | `src/application/gateway/generation_semaphore.py:102-104` | true exactly when an acquire by any new task would join the queue |
| `SemaphoreObject.GenerationSemaphore.WakeWaiters` | `src/application/gateway/generation_semaphore.py:120-126` | the loop over the deque is the wake-up of the state machine |
| `SemaphoreObject.GenerationSemaphore.ReleaseSlot` | `src/application/gateway/generation_semaphore.py:128-130` | giving a slot back, then waking |
| `SemaphoreObject.GenerationSemaphore.Look` | `src/application/gateway/generation_semaphore.py:135-138` | the test at the beginning: the fast path is taken exactly when a slot is free and nobody waits; else nothing changes |
| `SemaphoreObject.GenerationSemaphore.Join` | `src/application/gateway/generation_semaphore.py:139-142` | the slow path up to the await: the loop is remembered and the task goes to the end of the queue |
| `SemaphoreObject.GenerationSemaphore.WriteCap` | `src/application/gateway/generation_semaphore.py:106-107` | the first step of a cap change, which a thread may run alone: refused outside 1..3 |
| `SemaphoreObject.GenerationSemaphore.ScheduleWake` | `src/application/gateway/generation_semaphore.py:116-118` | its last step on a thread: the loop is asked for a wake-up |
| `SemaphoreObject.GenerationSemaphore.Enter` | `src/application/gateway/generation_semaphore.py:135-146` | entering up to the await is the acquire step and keeps the invariant; true exactly on the fast path |
| `SemaphoreObject.GenerationSemaphore.ResumeEnter` | `src/application/gateway/generation_semaphore.py:147-154` | entering after the await is the resume step: a grant is taken up, or a cancellation is undone whether it came before or after the grant |
| `SemaphoreObject.GenerationSemaphore.Exit` | `src/application/gateway/generation_semaphore.py:156-158` | leaving is the release step and keeps the invariant |
| `SemaphoreObject.GenerationSemaphore.SetMaxConcurrent` | `src/application/gateway/generation_semaphore.py:106-118` | a cap outside 1..3 is refused and changes nothing; else the cap becomes the given one and waiters are woken now or by a deferred call |
| `SemaphoreObject.GenerationSemaphore.RunScheduledWake` | `src/application/gateway/generation_semaphore.py:106-126` | a wake-up scheduled from another thread, when the loop runs it |
| `KeyTokens.TokensSplitAt` | `src/application/kernel/compaction_verifier.py:38-82` | no token crosses a separating character: tokenising a + c + b gives the tokens of a, then those of b |
| `KeyTokens.TokensReadBack` | `src/application/kernel/compaction_verifier.py:38-82` | every token the tokeniser gives, tokenised again, is itself |
| `KeyTokens.NormalizeTwice` | `src/application/kernel/compaction_verifier.py:26-36` | folding dashes and dropping format characters twice changes nothing more |
| `KeyTokens.NormalizeOfConcat` | `src/application/kernel/compaction_verifier.py:70-73` | normalising a joined text is joining the normalised parts |
| `SummaryFacts.FirstOccurrencesComplete` | `src/application/kernel/compaction_verifier.py:108-130` | extraction keeps exactly the tokens of a kind, each once |
| `SummaryFacts.ExtractKeyTokens` | `src/application/kernel/compaction_verifier.py:108-130` | the loop with its three lists sorts every token into paths, numbers or names, each once, in order of first occurrence; which tokens those are is said by the rows of FactShapes |
| `SummaryFacts.RequiredFactText` | `src/application/kernel/compaction_verifier.py:151-182` | the loop joins the normalised non-empty texts of user messages and earlier summaries |
| `SummaryFacts.RequiredUnits` | `src/application/kernel/compaction_verifier.py:151-182` | a token is required if and only if some user message or earlier summary has it |
| `SummaryFacts.UnitsOfJoin` | `src/application/kernel/compaction_verifier.py:151-182` | joining texts by line feeds neither makes nor breaks a token |
| `FactShapes.StandsAlone` | `src/application/kernel/compaction_verifier.py:70-82` | a word that is one token is one of the tokens of every text in which it stands between separating characters |
| `FactShapes.PathIff` | `src/application/kernel/compaction_verifier.py:85-91` | directory, slash, last component and any slashes after it: a path if and only if the last component has a full stop or the word begins with /, ./ or ../ |
| `FactShapes.NoSlashNoPath` | `src/application/kernel/compaction_verifier.py:85-91` | nothing without a slash is a path |
| `FactShapes.FileIsExtracted` | `src/application/kernel/compaction_verifier.py:108-130` | dir/stem.ext of word characters is among the extracted paths of every text it stands in, unless its directory starts with a date |
| `FactShapes.DatedFileIsNot` | `src/application/kernel/compaction_verifier.py:38-82` | a file under a directory that starts with a date is no extracted path: the date is cut off as a token of its own |
| `FactShapes.AddressIsPath` | `src/application/kernel/compaction_verifier.py:85-91` | a web address is cut at its colon; what follows the colon is a path, and the scheme is in no list |
| `FactShapes.NumberIsExtracted` | `src/application/kernel/compaction_verifier.py:94-97` | the decimal text of every number from ten on is among the extracted numbers of every text it stands in |
| `FactShapes.DigitsKind` | `src/application/kernel/compaction_verifier.py:94-97` | a run of digits is a number if and only if there are at least two |
| `FactShapes.FractionIsNumber` | `src/application/kernel/compaction_verifier.py:94-97` | digits, a full stop and digits are a number, even one digit on each side |
| `FactShapes.DateIsNumber` | `src/application/kernel/compaction_verifier.py:38-97` | a date with hyphens or slashes is one token and a number, not a path |
| `FactShapes.TimeIsNumber` | `src/application/kernel/compaction_verifier.py:38-97` | times with one or two digits of hours, with or without seconds, are one token and a number |
| `FactShapes.DateTimeIsNumber` | `src/application/kernel/compaction_verifier.py:38-97` | so are a date and a time joined by a T or a space |
| `FactShapes.NameIsExtracted` | `src/application/kernel/compaction_verifier.py:100-105` | a letter-first snake_case word of four or more characters is among the extracted names of every text it stands in |
| `FactShapes.SnakeKind` | `src/application/kernel/compaction_verifier.py:100-105` | a letter-first word of letters, digits and underscores is a name if and only if it has an underscore and at least four characters, and nothing else |
| `FactShapes.FileNameKind` | `src/application/kernel/compaction_verifier.py:100-105` | a stem, a full stop and an extension are a name if and only if the extension has two to eight characters |
| `FactShapes.PlainWordKind` | `src/application/kernel/compaction_verifier.py:85-105` | a word of letters, digits and hyphens that starts with a letter is none of the three |
| `FactShapes.FileIsRequired` | `src/application/kernel/compaction_verifier.py:203-228` | a summary of a run in which the user named such a file is accepted only if it names the file |
| `FactShapes.LookAlikeDash` | `src/application/kernel/compaction_verifier.py:26-73` | each of the seven look-alike dashes, anywhere in a text, gives the same tokens as a hyphen |
| `FactShapes.InvisibleCharacter` | `src/application/kernel/compaction_verifier.py:70-73` | invisible characters, anywhere in a text, have no effect on its tokens |
| `SummaryCheck.AcceptedExactly` | `src/application/kernel/compaction_verifier.py:203-228` | the check accepts a summary if and only if it is short enough when it has to be, shows the three headings, has every path and number of every user message and earlier summary it replaces, and loses at most a fifth of more than four names (none of four or fewer) |
| `SummaryCheck.AcceptedKeepsFacts` | `src/application/kernel/compaction_verifier.py:203-228` | so an accepted summary has each path and number of each user message and earlier summary it replaces |
| `SummaryCheck.MissingNone` | `src/application/kernel/compaction_verifier.py:203-228` | nothing is reported missing if and only if every required token is present |
| `SummaryCheck.TokensOfList` | `src/application/kernel/compaction_verifier.py:231-286` | a comma-separated list of tokens tokenises back to exactly that list |
| `SummaryCheck.BuiltSummaryKeepsFacts` | `src/application/kernel/compaction_verifier.py:231-286` | every path, number and name of a user message or earlier summary re-tokenises unchanged out of the built summary |
| `SummaryCheck.LaidHasHeadings` | `src/application/kernel/compaction_verifier.py:185-190` | the laid out summary shows all three headings whatever its sections hold |
| `SummaryCheck.BuiltSummaryIsSummary` | `src/application/kernel/compaction_verifier.py:133-134` | the built summary starts with the marker, so the next round requires its tokens again |
| `SummaryCheck.BuiltSummaryPasses` | `src/application/kernel/compaction_verifier.py:203-286` | for every message list the built summary passes its own check, apart from the length requirement |
| `SummaryCheck.BuildVerifiedSummary` | `src/application/kernel/compaction_verifier.py:231-286` | the loops over messages, facts and previews lay out the sections, headings and fact lines of the summary |
| `SummaryHeadings.HeadingIff` | `src/application/kernel/compaction_verifier.py:185-190` | a summary shows a heading if and only if one of its lines is the heading with any of # * - before it, colons after it, and white space around these |
| `SummarySections.SummaryReads` | `src/application/kernel/compaction_verifier.py:231-286` | the whole built summary on the messages: the first three decision lines of the user, the first three task lines, the fact lines and the previews |
| `SummarySections.SectionsAre` | `src/application/kernel/compaction_verifier.py:231-286` | the three lists of the loop are the hinted lines of user messages, three at most, and a preview of every message that is not blank |
| `SummarySections.KeyLinesAre` | `src/application/kernel/compaction_verifier.py:231-286` | the key facts are one line for each kind of token there is, a count of the older messages left out, and the last previews up to the limit |
| `SummarySections.LineFeedIsSpace` | `src/application/kernel/compaction_verifier.py:231-286` | a message of two lines is shown as one, a space between them |
| `SummarySections.DecisionAndTask` | `src/application/kernel/compaction_verifier.py:231-286` | what the user decided stands under decisions and what is to do under open tasks, both as previews |
| `SummarySections.TranscriptReads` | `src/application/kernel/compaction_verifier.py:137-148` | how user messages and tool outputs are written for the length rule |
| `SummarySections.SummaryLineReads` | `src/application/kernel/compaction_verifier.py:137-148` | and how an earlier summary is |
| `Backoff.SessionBackoff.SetCompactionBackoff` | `src/application/kernel/compaction_verifier.py:289-292` | only a non-empty session id stores a wait, never a negative one |
| `Backoff.SessionBackoff.ConsumeCompactionBackoff` | `src/application/kernel/compaction_verifier.py:295-303` | returns the wait before counting it down |
| `Backoff.SessionBackoff.ResetCompactionBackoff` | `src/application/kernel/compaction_verifier.py:306-310` | clears one session, or all of them when no id is given |
| `Compactor.HeadCount` | `src/application/kernel/context_compactor.py:443-456` | how many messages stay in front; CompactionFront.HeadIs says which |
| `Compactor.Retreat` | `src/application/kernel/context_compactor.py:471-477` | the recent window starts at the last place, not after the wanted one, that is no tool return (or at the beginning) |
| `Compactor.PinnedIntermediate` | `src/application/kernel/context_compactor.py:286-314` | the two searches pin the latest user message and the latest skill_view call that is answered later, with that return; the calling message keeps that one call |
| `Compactor.PruneTools` | `src/application/kernel/context_compactor.py:388-428` | the loop replaces each oversized tool output by reference, head, marker and tail, and counts them |
| `Compactor.TruncationKeepsEnds` | `src/application/kernel/context_compactor.py:388-428` | a truncated output keeps role, call id and name, starts with the reference and the head of the original and ends with its tail, head and tail together as long as the limit, and the whole is always longer than the limit |
| `Compactor.TruncationRepeats` | `src/application/kernel/context_compactor.py:388-428` | a message is over the limit after pruning if and only if it was before: a truncated output is truncated again by the next call |
| `Compactor.TryTwice` | `src/application/kernel/context_compactor.py:523-531` | the first of two candidates that the check accepts, or none |
| `Compactor.FlushRun` | `src/application/kernel/context_compactor.py:515-539` | one run becomes one summary and clears the wait, or stays and stores it; after a failure runs stay |
| `Compactor.SummarizeRuns` | `src/application/kernel/context_compactor.py:508-547` | the loop that collects runs between pinned messages is folding over the cut middle |
| `Compactor.SplitTurns` | `src/application/kernel/context_compactor.py:471-475` | the loop that moves the cut back from tool returns gives the plan with the wanted recent window |
| `Compactor.SummarizeMiddle` | `src/application/kernel/context_compactor.py:508-595` | failed, not applied, or assembled result with its metrics |
| `Compactor.CompactPruned` | `src/application/kernel/context_compactor.py:430-595` | the exits before summarising: under budget, nothing to cut, nothing new, backoff |
| `Compactor.CompactWithStats` | `src/application/kernel/context_compactor.py:329-595` | a whole call: messages, metrics and the backoff table it leaves |
| `CompactionReplaces.CompactionIsRunReplacement` | `src/application/kernel/context_compactor.py:443-595` | every call gives the pruned history or exactly a run replacement of it: maximal unpinned runs become one accepted summary each, all else keeps order and text, at least the wanted recent count is kept, and length = pruned - turns compacted + summaries |
| `CompactionReplaces.SegmentsCover` | `src/application/kernel/context_compactor.py:541-547` | cutting the middle at pinned messages loses and reorders nothing |
| `CompactionReplaces.SegmentsMaximal` | `src/application/kernel/context_compactor.py:541-547` | the runs are not empty and no two are adjacent |
| `CompactionReplaces.PinsAreFaithful` | `src/application/kernel/context_compactor.py:286-314` | a pinned message is unchanged, except that an assistant message keeps one of its own calls |
| `CompactionReplaces.AcceptedTexts` | `src/application/kernel/context_compactor.py:515-539` | the texts that replace the runs were each written for their run and accepted |
| `CompactionReplaces.FoldReplaces` | `src/application/kernel/context_compactor.py:508-547` | folding fails if and only if some run is refused twice; otherwise it gives the replacement |
| `CompactionReplaces.PlanPieces` | `src/application/kernel/context_compactor.py:471-477` | head, middle and recent window are the history in order; the window has its size and opens on a tool return only if nothing was cut |
| `CompactionReplaces.LatestUserIsKept` | `src/application/kernel/context_compactor.py:286-314` | the latest user message of the middle comes through word for word |
| `CompactionFront.VisibleOfOne` | `src/application/kernel/context_compactor.py:356-358` | of one message: proposals and notes are left out and anything else stays (VisibleOfConcat: message by message) |
| `CompactionFront.CharsOfOne` | `src/application/kernel/context_compactor.py:316-327` | the size of one message is that of its text and of the name and arguments of its call (CharsOfConcat: messages add up) |
| `CompactionFront.WithinBudgetStays` | `src/application/kernel/context_compactor.py:430-441` | an automatic call with fewer than 4 * (budget + 1) characters changes nothing but long tool outputs |
| `CompactionFront.AlreadyCompactStays` | `src/application/kernel/context_compactor.py:483-496` | a call changes nothing else when all that could be summarised are summaries already |
| `CompactionTries.TriedExactly` | `src/application/kernel/context_compactor.py:430-506` | a call tries to summarise if and only if it is forced, or over its budget with no backoff to wait out, and something stands between what is kept at both ends that is not all marked summaries |
| `CompactionTries.MetricsAre` | `src/application/kernel/context_compactor.py:430-595` | the sizes and counts that a call reports; it reports a compaction if and only if it summarised messages or truncated outputs, except that truncation is not reported when nothing is left to summarise |
| `CompactionFront.HeadIs` | `src/application/kernel/context_compactor.py:443-456` | the head is a system message that comes first and, when the root intent is preserved, the user message right after it or first; nothing else |
| `CompactionFront.SystemStays` | `src/application/kernel/context_compactor.py:443-566` | in every call a system message that comes first stays first, unchanged |
| `CompactionFront.RootIntentStays` | `src/application/kernel/context_compactor.py:443-566` | when the root intent is preserved, so does the user message right after it, or first itself |
| `CompactionFront.RecentStay` | `src/application/kernel/context_compactor.py:458-566` | in every call the last two messages for each turn to keep, and at least two, stay at the end in order |
| `CompactionFront.RecentIsWanted` | `src/application/kernel/context_compactor.py:471-477` | the window is larger than that only if it would begin with a tool return |
| `CompactionFront.LatestViewIsKept` | `src/application/kernel/context_compactor.py:286-314` | on the turns: the latest skill_view call that is answered later is kept as the one call of its message, with its first return, whatever comes before |
| `CompactionFront.PinsComeThrough` | `src/application/kernel/context_compactor.py:541-566` | what is kept of the middle is in the result of every call |
| `CompactionRetry.SecondIsUsed` | `src/application/kernel/context_compactor.py:523-539` | a run whose first text is refused and whose second is accepted is replaced by the second |
| `CompactionRetry.RefusedTwiceStays` | `src/application/kernel/context_compactor.py:523-557` | a run refused twice leaves the history as it was, whatever a third text would be |
| `CompactionPairing.CompactionKeepsPairs` | `src/application/kernel/context_compactor.py:286-314` | from a history where tool returns follow their call and ids are unique: in the result every return has its call earlier, every answered call kept has its return later, and the window opens on a return only if nothing was cut |
| `CompactionPairing.TightFollows` | `src/application/kernel/context_compactor.py:471-481` | tight histories have every return after its call |
| `CompactionPairing.TightAnswers` | `src/application/kernel/context_compactor.py:471-481` | with unique ids a call is answered after itself or not at all |
| `CompactionPairing.MiddlePaired` | `src/application/kernel/context_compactor.py:286-314` | the kept part of the middle is itself paired, with or without summaries between call and return |
| `CompactionFacts.RoundKeepsFact` | `src/application/kernel/context_compactor.py:508-566` | one round keeps each required token in a user message or an assistant message, and in a summary the next round requires when summaries are marked |
| `CompactionFacts.FactsSurviveBuiltIn` | `src/application/kernel/context_compactor.py:508-566` | with the built-in summarizer every path, number and name of a user message is, after any number of rounds with growth at either end and dropped system messages, in a user message or in a summary the next round requires |
| `CompactionFacts.FactsSurviveMarked` | `src/application/kernel/context_compactor.py:508-566` | the same for paths and numbers with any checked summarizer that starts its summaries with the marker |
| `CompactionFacts.UnmarkedIsNotRequired` | `src/application/kernel/compaction_verifier.py:151-182` | nothing of an assistant message is required next time if and only if it lacks the marker or is empty: why the marker is needed above |
| `CompactionLoss.ProtectedExactly` | `src/application/kernel/compaction_verifier.py:151-228` | with or without the length requirement, a path or number that a user message or a marked summary of a run has is in every accepted summary of it; no other path or number is, provided the required tokens alone fit into the length |
| `CompactionLoss.SafeIffMarked` | `src/application/kernel/compaction_verifier.py:133-228` | a path or number of an earlier summary is in every summary of it that the compactor accepts, its length rule included, if and only if that summary is marked |
| `CompactionLoss.FactsOnlyPasses` | `src/application/kernel/compaction_verifier.py:203-228` | the summary that lists exactly the required tokens under another title passes the check for every run, unless it has to be shorter than the run and is not |
| `CompactionLoss.TwoRoundsLose` | `src/application/kernel/context_compactor.py:508-566` | with a checked summarizer of that kind, every path or number of a short user message outside the pinned and recent ones is there after one round and gone after two |
| `CompactionLoss.APathIsLost` | `src/application/kernel/context_compactor.py:508-566` | a history of four messages that loses its only path |
| `CompactionBackoff.AllOrNothing` | `src/application/kernel/context_compactor.py:498-557` | when any run is refused twice the result is the pruned history, no other summary is kept, and the session waits two turns |
| `CompactionBackoff.ExactlyTwoSkipped` | `src/application/kernel/compaction_verifier.py:289-310` | after a failure, over any later automatic calls of that session and any calls of others, exactly the next two that reach the check are skipped |
| `CompactionBackoff.WaitCountsDown` | `src/application/kernel/compaction_verifier.py:289-310` | the remaining wait is two minus the calls of that session that reached the check |
| `CompactionBackoff.OtherSessionUntouched` | `src/application/kernel/compaction_verifier.py:289-310` | a call for one session leaves another session's wait alone |
| `CompactionBackoff.SessionlessCallClears` | `src/application/kernel/compaction_verifier.py:306-310` | a call without a session that has a run accepted clears the wait of every session; any other leaves the table alone |
| `CompactionClears.AnotherWaitIsCleared` | `src/application/kernel/context_compactor.py:523-534` | such a call: a history whose only run is accepted by the check, and a table in which another session had two turns to wait |
| `CompactionBackoff.TableOutcome` | `src/application/kernel/context_compactor.py:515-539` | the table after a compaction: two turns on failure, no entry on success, other sessions untouched |
| `CompactionBackoff.CompactsExactlyWhen` | `src/application/kernel/context_compactor.py:430-595` | messages are really replaced if and only if the call was tried, all runs were accepted, there was a run, and a forced call without truncation got smaller |
| `Phases.NextQueued` | `src/application/orchestration/job_phase_orchestrator.py:743-747` | the first queued phase from an index on |
| `Phases.Orchestrator.constructor` | `src/application/orchestration/job_phase_orchestrator.py:155-221` | a new job has all phases queued |
| `Phases.Orchestrator.StartPhase` | `src/application/orchestration/job_phase_orchestrator.py:223-273` | starts a queued or waiting phase of a job that is not cancelled; else refuses and changes nothing |
| `Phases.Orchestrator.CompletePhase` | `src/application/orchestration/job_phase_orchestrator.py:275-330` | only a running phase becomes done, which is logged, and the next queued one becomes current; a done one stays and logs nothing; others are refused |
| `Phases.Orchestrator.FailPhase` | `src/application/orchestration/job_phase_orchestrator.py:332-349` | phase and job become failed, whatever they were |
| `Phases.Orchestrator.ParkPhase` | `src/application/orchestration/job_phase_orchestrator.py:351-370` | a phase that is not finished waits for approval; a finished one is refused |
| `Phases.Orchestrator.WaitPhase` | `src/application/orchestration/job_phase_orchestrator.py:372-383` | a phase that is not finished goes back to queued and the job stays open |
| `Phases.Orchestrator.ReplanJob` | `src/application/orchestration/job_phase_orchestrator.py:399-470` | unfinished phases are cancelled and two new ones are appended; a finished job is refused |
| `Phases.Orchestrator.CheckpointKill` | `src/application/orchestration/job_recovery.py:211-294` | a running phase of the current run goes back to queued; nothing else changes |
| `PhaseTurn.ConsumeStream` | `src/application/chat/turn_streamer.py:439-480` | what was heard is the last state after all events; a clarification counts only while nothing else was decided |
| `PhaseTurn.Decisive` | `src/application/chat/turn_streamer.py:482-544` | the attempt that decides is the first that is not retried, and at most the last allowed one |
| `PhaseTurn.CompletePhaseOrFail` | `src/application/chat/turn_streamer.py:330-359` | a refused completion becomes an honest failure; exactly one of the two transitions happens |
| `PhaseTurn.SettlePhase` | `src/application/chat/turn_streamer.py:623-764` | from what was heard to one transition: question, park, failure, verify gate or completion; a cancellation in the question test makes none |
| `PhaseTurn.PassGate` | `src/application/chat/turn_streamer.py:672-740` | the verify gate: on to completion, replan while attempts remain, else park; a cancellation in it or a checker that raises makes no transition |
| `PhaseTurn.StopPhase` | `src/application/chat/turn_streamer.py:489-604` | an attempt that did not finish and is not retried: checkpoint on a kill, failure otherwise |
| `PhaseTurn.StreamAttempts` | `src/application/chat/turn_streamer.py:482-621` | the retry loop with its reset per attempt stops at the decisive attempt; falling out of it is unreachable |
| `PhaseTurn.StreamTurnBound` | `src/application/chat/turn_streamer.py:379-764` | a whole turn: at most 1 + retries attempts, then exactly the one transition that the returned word names, none when it raises or says done of a phase that another run had finished |
| `PhaseTurn.TurnSettlesOnce` | `src/application/chat/turn_streamer.py:430-764` | the same of the specification of a turn, under any interference |
| `PhaseTurn.WordMatchesStatus` | `src/application/chat/turn_streamer.py:623-764` | whatever other runs did meanwhile, phase and job have the status the returned word names |
| `PhaseTurn.AbandonedAttemptsDoNotMatter` | `src/application/chat/turn_streamer.py:482-544` | two event streams that differ only in what abandoned attempts said lead to the same result |
| `PhaseTurn.KillNeverFails` | `src/application/chat/turn_streamer.py:482-740` | a turn cancelled in the stream puts the running phase back to queued or does nothing; cancelled in the question test or the gate, or ended by an error of the checker, it does nothing to the job |
| `PhaseEvents.LastDecidingDecides` | `src/application/chat/turn_streamer.py:439-480` | the last event that says failure (ReAct failed, stream error) or park (ReAct parked, approval required) decides, whatever else was said |
| `PhaseEvents.EventsDecide` | `src/application/chat/turn_streamer.py:439-764` | a finished turn with such an event fails the phase or parks it accordingly, and a finished phase is not parked |
| `PhaseEvents.ClarificationAsks` | `src/application/chat/turn_streamer.py:623-640` | with none of them, a clarification queues the phase again and asks |
| `PhaseEvents.QuestionMeans` | `src/application/chat/turn_streamer.py:623-640` | a question comes only from a clarification or from a plain question in the reply, and with no failure or park |
| `PhaseEvents.DoneMeans` | `src/application/chat/turn_streamer.py:623-764` | a phase gets done only in an attempt that finished, with no failure, park or clarification among its events, whose reply is no question that waits for an answer and passes the checker |
| `PhaseEvents.DoneWhen` | `src/application/chat/turn_streamer.py:623-764` | and that is enough to complete a running phase |
| `PhaseEvents.FailedCheckReplans` | `src/application/chat/turn_streamer.py:672-740` | a reply that the checker does not pass is planned anew three times, then parked |
| `PhaseEvents.UnfinishedFails` | `src/application/chat/turn_streamer.py:489-604` | a stream that broke, or stalled or timed out in its last attempt, fails the phase |
| `PhaseEvents.DecidingIs` | `src/application/chat/turn_streamer.py:482-544` | the deciding attempt is the first that neither timed out nor stalled, or the last allowed one |
| `PhaseTransitions.LateTroubleIs` | `src/application/chat/turn_streamer.py:623-740` | a cancellation or an error in one of the awaits after the stream leaves the job as it is |
| `PhaseTransitions.KilledIs` | `src/application/orchestration/job_recovery.py:211-294` | a killed turn queues its phase again exactly if it still runs and no newer run owns it, and makes it current unless the job is over |
| `PhaseTransitions.ReplannedIs` | `src/application/orchestration/job_phase_orchestrator.py:399-470` | a turn that plans anew cancels what is not finished, keeps the rest, appends two queued phases, makes the first of them current, and leaves the job running if and only if a phase was done |
| `PhaseTransitions.DoneMovesOn` | `src/application/orchestration/job_phase_orchestrator.py:275-330` | completing goes on to the first queued phase after the completed one, even if an earlier one is queued |
| `PhaseTransitions.DoneEnds` | `src/application/orchestration/job_phase_orchestrator.py:275-330` | and ends the job when none is queued after it |
| `PhaseTransitions.InterruptedIsRequeued` | `src/application/orchestration/job_recovery.py:326-459` | recovery queues the first running phase again |
| `PhaseTransitions.OthersAreFound` | `src/application/orchestration/job_recovery.py:326-459` | without one it changes no phase: the first parked phase becomes current; the first queued one only after an operator kill |
| `PhaseTransitions.RunStops` | `src/application/chat/job_runner.py:270-523` | at its first unfinished phase a run raises when the phase is not let start or its turn ends without a word, and returns after a turn that did not get it done; no later phase is touched |
| `PhaseTransitions.RemainingStops` | `src/application/chat/job_resume.py:214-357` | so does the loop over what remains, at the first queued phase |
| `PhaseTransitions.ResumeStops` | `src/web/routers/chat.py:395-444` | and a resume at the phase it found, which is started if it is queued or parked and goes on as it is otherwise |
| `PhaseTransitions.CancelledRunsNothing` | `src/application/orchestration/job_phase_orchestrator.py:223-273` | a run over a cancelled job without a running phase leaves it as it is, and raises if and only if a phase is not finished |
| `PhaseGuards.StaysOver` | `src/application/orchestration/job_phase_orchestrator.py:223-470` | no steps of any runs start, park, reopen or add a phase of a job that is over, or cancel one that is done or failed; they can at most mark phases failed |
| `PhaseGuards.CancelledFailsIff` | `src/application/orchestration/job_phase_orchestrator.py:332-349` | a cancelled job becomes a failed one exactly when a run that was in its turn fails, or completes a phase that is not done |
| `PhaseGuards.CancelledBecomesFailed` | `src/application/orchestration/job_phase_orchestrator.py:332-349` | such a job: one phase, cancelled before its turn ends well |
| `PhaseGuards.NotReadyNeverStarts` | `src/application/orchestration/job_phase_orchestrator.py:223-273` | while the intake check of the first phase does not pass, no number of runs and resumes ever starts any phase |
| `PhaseRuns.ExecuteGoalJobPhases` | `src/application/chat/job_runner.py:270-523` | the loop with its early exits over phases: stops at the first phase not done |
| `PhaseRuns.ExecutePhase` | `src/application/chat/job_runner.py:270-512` | the body of that loop: a finished phase is skipped, a prepared one completed, any other streamed |
| `PhaseRuns.StreamPhase` | `src/application/chat/job_runner.py:375-512` | one streamed phase: on to the next only after done |
| `PhaseRuns.ContinueRemaining` | `src/application/chat/job_resume.py:197-361` | the loop over the queued phases listed before it started |
| `PhaseOrder.TurnKeeps` | `src/application/chat/turn_streamer.py:430-764` | a turn on a finished or the first unfinished phase keeps the order and reopens nothing, whatever orderly runs do meanwhile, and says done only of a finished phase |
| `PhaseOrder.RunKeeps` | `src/application/chat/job_runner.py:270-523` | so does a run |
| `PhaseOrder.ResumeKeeps` | `src/web/routers/chat.py:395-444` | so does a resume after a crash, kill or park, if no other run is on the first unfinished phase when it lists what remains |
| `PhaseOrder.RecoveredKeeps` | `src/application/orchestration/job_recovery.py:326-459` | recovery finds the first unfinished phase, which can be started, and makes it current; without a checkpoint it leaves the job to be planned anew |
| `PhaseOrder.QueuedTail` | `src/application/chat/job_resume.py:214-222` | the listed phases are consecutive, from the first unfinished one on, or from the one after it when another run is on that |
| `PhaseOrder.GoingOnKeepsIff` | `src/application/chat/job_resume.py:214-260` | starting the first listed phase keeps the order if and only if no other run is on the first unfinished one |
| `PhaseOrder.ResumeCanStartTwo` | `src/application/chat/job_resume.py:214-260` | a resume of a killed job beside an orderly run, after which two phases are active |
| `PhaseOrder.PhasesStayInOrder` | `src/application/chat/job_runner.py:270-523` | from all-queued phases, every sequence of runs, resumes, kills and cancellations, with other runs in between, keeps: finished phases, then at most one active or waiting, then only queued; an open job points at its first unfinished phase |
| `PhaseOrder.QuietIsCalm` | `src/application/chat/job_runner.py:270-523` | without other runs every run is of that kind |
| `PhaseOrder.QuietListsClean` | `src/application/chat/job_resume.py:214-260` | without other runs every resume lists what remains cleanly |
| `PhaseSteps.StepKeepsIff` | `src/application/chat/job_runner.py:270-523` | any number of runs and resumes at any places: each transition or move of any of them, a new run, a recovery, an error, a kill or a cancellation keeps the order of the phases and reopens none; and it keeps every run at or before the first unfinished phase, its list in order, if and only if it is not a resume listing what remains while another run is on that phase and more phases follow |
| `PhaseSteps.InterleavingsKeep` | `src/application/chat/job_runner.py:270-523` | so does every interleaving without such a listing |
| `PhaseSteps.AnyRunsKeepOrder` | `src/application/chat/job_runner.py:270-523` | from a new job, any number of runs and resumes together, interleaved in any way without such a listing, keep: finished phases, then at most one active or waiting, then only queued; an open job points at its first unfinished phase |
| `PhaseSteps.OneRunKeepsOrder` | `src/web/routers/chat.py:336-343` | with one run at a time, which the chat route asks for, there is never such a listing, so the order is kept whatever kills, cancellations and errors there are |
| `PhaseSteps.PastListingStartsTwo` | `src/application/chat/job_resume.py:214-260` | after every such listing the very next step of that resume starts a second phase beside the active one |
| `PhaseSteps.TwoRunsStartTwo` | `src/application/chat/job_resume.py:214-260` | an interleaving of a killed run and a resume that gets there from a new job |
| `PhaseSteps.OthersAreOrderly` | `src/application/chat/job_runner.py:270-523` | what the theorems on one run assume of the other runs is what any interleaving of other runs does |
| `PhaseRefinement.TurnIsSteps` | `src/application/chat/turn_streamer.py:430-764` | a turn is steps of other runs and at most one transition of its own, after which the run is where its word says |
| `PhaseRefinement.RunIsSteps` | `src/application/chat/job_runner.py:270-523` | a whole run, with what other runs do in between, is such an interleaving |
| `PhaseRefinement.ResumeIsSteps` | `src/web/routers/chat.py:395-444` | so is a whole resume, from recovery to the last listed phase |
| `PlanChoice.PlanChoiceIsNeverParked` | `src/application/chat/job_runner.py:484-490` | a plan that asks the operator to choose is completed before it is parked, so the park is refused and the run raises, leaving the job as the completed turn did |
| `PlanChoice.PlanChoiceLeavesNothingWaiting` | `src/application/chat/job_runner.py:484-490` | in a run of a new job without other runs nothing waits for approval then: the first phase is done, the others queued, the job running |
| `PlanChoice.TwoPhasePlanIsNotParked` | `src/application/chat/job_runner.py:484-490` | such a run of two phases, with the job it leaves |
| `PlanChoice.LonePlanGoesThrough` | `src/application/chat/job_runner.py:484-490` | a plan that is the only phase is completed and the run goes through, whatever it asks |
| `Copies.CopiedIsEnding` | `src/application/kernel/cycle_detector.py:61-74` | walking back block by block from the last one finds n copies if and only if the sequence ends in n copies of some block of that length |
| `Copies.MatchBack` | `src/application/kernel/cycle_detector.py:96-129` | the loop counts matching blocks and stops exactly when enough copies are there or one differs |
| `CycleDetector.Detector.RecordAndCheck` | `src/application/kernel/cycle_detector.py:39-78` | an empty batch changes nothing; any other is recorded, and the alarm is raised if and only if the recorded batches then end in max_repeats copies of a block of one, two or three, provided no tool name holds a colon; without that, the same of their signatures |
| `JsonTexts.ObjectsEnd` | `src/application/kernel/cycle_detector.py:30-37` | two texts that begin with the text of a JSON object and are equal begin with the same one |
| `JsonTexts.DumpsIsObject` | `src/application/kernel/cycle_detector.py:33-34` | what json.dumps gives for any dictionary, with its escapes, is such a text |
| `Signatures.OneCallSignature` | `src/application/kernel/cycle_detector.py:30-37` | two single calls whose names hold no colon have one signature if and only if name and arguments are the same |
| `Signatures.BatchSignature` | `src/application/kernel/cycle_detector.py:30-37` | two batches of such calls have one signature if and only if they are the same calls in the same order |
| `Signatures.ColonsCanCollide` | `src/application/kernel/cycle_detector.py:30-37` | with a colon in a name two batches can have one signature |
| `CycleDetector.BatchesCycle` | `src/application/kernel/cycle_detector.py:39-78` | the signatures end in repeats if and only if the batches do |
| `CycleDetector.CyclesAreCaught` | `src/application/kernel/cycle_detector.py:55-78` | a block of one, two or three batches repeated max_repeats times raises the alarm |
| `CycleDetector.NewBatchIsNormal` | `src/application/kernel/cycle_detector.py:76-78` | a batch that differs from the three before it raises no alarm |
| `CycleDetector.CheckHistory` | `src/application/kernel/cycle_detector.py:55-78` | the same for one history |
| `CycleDetector.CyclingByWalks` | `src/application/kernel/cycle_detector.py:55-74` | periodicity is one of three walks, or trivial when no repeats are asked for |
| `CycleDetector.PeriodRepeats` | `src/application/kernel/cycle_detector.py:62-74` | the oscillation test for one period decides n copies of the last block |
| `CycleDetector.TryLengths` | `src/application/kernel/cycle_detector.py:98-129` | trying block lengths finds one that repeats if and only if there is one in the range |
| `CycleDetector.TryPhrases` | `src/application/kernel/cycle_detector.py:93-131` | the word test and the character test with their rounded-down limits, which leave no length above zero to try for a negative threshold |
| `CycleDetector.TryEmptyPhrases` | `src/application/kernel/cycle_detector.py:113-120` | trying phrase lengths of zero and less finds one that repeats if and only if the first leaves nothing of the tail |
| `CycleDetector.RecordAndCheckText` | `src/application/kernel/cycle_detector.py:80-131` | for every threshold and phrase length: a threshold of zero raises on every text but the empty one; else the alarm is raised if and only if the text is long enough and the words end in threshold copies of 3 to 50 words, or the bounded tail ends in that many copies (at least two) of an admissible phrase, or the phrase length is zero or less and leaves nothing of the tail |
| `CycleTexts.RepeatedPhraseIsCaught` | `src/application/kernel/cycle_detector.py:80-131` | a text that ends in threshold copies of a phrase of at least min_phrase_length and at most four times as many characters raises the alarm |
| `CycleTexts.RepeatedWordsAreCaught` | `src/application/kernel/cycle_detector.py:80-131` | so does one whose words end in threshold copies of three to fifty words, if it is long enough |
| `CycleTexts.OnlyRepeatsAreCaught` | `src/application/kernel/cycle_detector.py:80-131` | conversely, with a positive threshold and phrase length, only threshold copies of three to fifty words, or as many and at least two of a phrase that is long enough, raise it |
| `CycleTexts.ThreeWordsAreCaught` | `src/application/kernel/cycle_detector.py:80-131` | with a threshold of one every text of three words and min_phrase_length characters raises it |
| `CycleTexts.TwoWordsNeedTwoCopies` | `src/application/kernel/cycle_detector.py:80-131` | and a shorter one only with two copies at its end |
| `NearDuplicates.StemsOfStrip` | `src/application/education/grounded.py:242-243` | storing a question stripped does not change its stems |
| `NearDuplicates.NearIsSymmetric` | `src/application/education/grounded.py:254-270` | being a near-duplicate does not depend on which item came first |
| `NearThresholds.NearIff` | `src/application/education/grounded.py:246-270` | on questions and answers given as words they share and words of their own: near if and only if twice the shared question words are three times the others or more; or four times the shared ones are the others or more, and the shorter answer has three words, four fifths of them in the other |
| `NearThresholds.ThreeOfFiveIsNear` | `src/application/education/grounded.py:246-270` | three shared words beside one other in each question are near; two are not unless the answers agree |
| `NearThresholds.StemsAre` | `src/application/education/grounded.py:66-71` | in a sentence of words the stop words do not count, and the others count by their first five characters |
| `NearThresholds.CapitalsDoNotCount` | `src/application/education/grounded.py:66-71` | capital letters make no difference |
| `NearThresholds.ShortWordsDoNotCount` | `src/application/education/grounded.py:66-71` | words of one or two characters do not count |
| `NearThresholds.NumbersDoNotCount` | `src/application/education/grounded.py:66-71` | nor does anything without a letter |
| `Ledger.FirstRepeat` | `src/application/education/grounded.py:282-294` | an item is found if and only if a listed one other than its own nearly repeats |
| `Ledger.FindDuplicateItem` | `src/application/education/grounded.py:282-294` | the search loop finds the first such item |
| `Ledger.DropDuplicateQuiz` | `src/application/education/grounded.py:297-313` | question and answer are blanked exactly when a repeated item is found; anything else passes unchanged |
| `LedgerSteps.RepeatIsDropped` | `src/application/education/grounded.py:297-313` | a usable content loses question and answer when its question nearly repeats a listed item, and names the first such item |
| `LedgerSteps.OthersAreKept` | `src/application/education/grounded.py:297-313` | any other content is left as it is |
| `LedgerSteps.StoredIs` | `src/application/education/course_step_artifacts.py:75-109` | which content each step stores: the composed one, for dual coding its own if there is one, for elaboration only beside an explanation; question and answer stripped |
| `LedgerSteps.BlankIsStored` | `src/application/education/course_step_artifacts.py:75-109` | a question of white space only is compared with nothing and stored as an empty one |
| `LedgerSteps.NothingIsStored` | `src/application/education/course_step_artifacts.py:75-109` | and when none is stored |
| `LedgerSteps.OwnRowsIff` | `src/application/education/course_step_artifacts.py:75-109` | the steps of a topic have rows of their own if and only if its slug has at most 38 characters |
| `LedgerSteps.VeryLongSlugShares` | `src/application/education/course_step_artifacts.py:75-109` | from 41 characters on all of them share one row |
| `Ledger.MasteryLedger.Upsert` | `src/infrastructure/memory/repositories/education_mastery_ops.py:35-123` | the row of an id is replaced by the stripped question and answer, all other rows stay |
| `Ledger.MasteryLedger.WriteStepArtifact` | `src/application/education/course_step_artifacts.py:75-109` | one step writes at most its own row, after dropping repeated questions from both contents |
| `Ledger.WrittenIsFresh` | `src/application/education/course_step_artifacts.py:84-108` | whatever is stored repeats no listed item but its own |
| `Ledger.WriteKeepsIff` | `src/application/education/course_step_artifacts.py:84-108` | one write keeps a ledger free of near-duplicates if and only if the new item repeats no row beyond the listed ones |
| `Ledger.ListingIsComplete` | `src/application/education/grounded.py:273-279` | within a thousand rows the listing shows every row |
| `Ledger.LedgerStaysDistinct` | `src/application/education/course_step_artifacts.py:84-108` | every sequence of step writes, re-runs included, keeps a ledger of at most a thousand rows free of near-duplicates |
| `LedgerLimit.UnlistedRowIsRepeated` | `src/application/education/grounded.py:273-294` | a ledger of a thousand and one rows without near-duplicates, a listing of it, and a step that compares with that listing and stores a near-duplicate |
| `LedgerLimit.AQuestionIsRepeated` | `src/application/education/grounded.py:273-294` | the same for one question |
| `QuizNote.RenderQuizNote` | `src/application/education/quiz_engine.py:146-166` | the loop writes the header lines and four lines per item, numbered from one |
| `QuizNote.ExtractQuizItems` | `src/application/education/quiz_engine.py:48-92` | the loops over the matches with their seen-set give each new, complete, non-placeholder item in order, those of the inline and bullet expressions first |
| `QuizNote.ReadTemplate` | `src/application/education/quiz_engine.py:68-92` | the matches of the template form, one after the other |
| `QuizNote.TakeFound` | `src/application/education/quiz_engine.py:68-92` | of the items found by the other two expressions, those that are new and complete, and the prompts seen then |
| `QuizRoundTrip.RenderedHasNoQuestion` | `src/application/education/quiz_engine.py:9-16` | no place in a rendered note opens as an inline or bullet item does, white space over line ends included |
| `QuizNote.SplitOfJoin` | `src/application/education/quiz_engine.py:146-166` | lines without line feeds come back from the joined text |
| `QuizNote.PromptReadsBack` | `src/application/education/quiz_engine.py:18-22` | a rendered prompt line parses to its prompt |
| `QuizNote.AnswerReadsBack` | `src/application/education/quiz_engine.py:18-22` | a rendered answer line parses to its answer |
| `QuizRoundTrip.ReadsAll` | `src/application/education/quiz_engine.py:48-92` | the item lines parse to the items in order |
| `QuizRoundTrip.ExtractUndoesRender` | `src/application/education/quiz_engine.py:48-92` | for every list of items with distinct, single-line, single-spaced, non-empty, non-placeholder prompts and such answers, and every single-line title and path, extracting from the rendered note gives the same items in the same order, whatever the inline and bullet expressions give on texts that open as they need |
| `QuizTaken.ExtractedAreProper` | `src/application/education/quiz_engine.py:68-92` | from any note: no item lacks prompt or answer, none is a placeholder in brackets, and no prompt comes twice, whichever forms the items have |
| `QuizTaken.FoundIsTaken` | `src/application/education/quiz_engine.py:68-92` | each proper item that the inline and bullet expressions find is taken |
| `QuizTaken.PlainItemIsTaken` | `src/application/education/quiz_engine.py:18-92` | a prompt line without bold marks and, after any blank lines, an answer line, which may be indented, give an item; runs of white space in both become one space |
| `QuizTaken.PlainPromptReads` | `src/application/education/quiz_engine.py:18-22` | prompt lines with either bullet, in small or capital letters |
| `QuizTaken.JoinedWordsAreNoAnswer` | `src/application/education/quiz_engine.py:18-22` | "BinaryAnswer" in one word is no answer |
| `QuizTaken.SectionIsRead` | `src/application/education/quiz_engine.py:60-66` | items are read under the heading Quiz up to the next heading of that level, or to the end |
| `QuizTaken.WholeNoteIsRead` | `src/application/education/quiz_engine.py:60-66` | without such a heading the whole note is read |
| `QuizTaken.LongerHeadingIsNone` | `src/application/education/quiz_engine.py:60-66` | a heading that goes on after Quiz is not that heading |
| `Excerpt.ClipExcerpt` | `src/application/chat/past_chat_search.py:231-251` | the shrinking loop and the final cut give the excerpt |
| `Excerpt.ShrinkEnd` | `src/application/chat/past_chat_search.py:244-249` | the loop that moves the end back finds the place that Shrink describes |
| `Excerpt.Shrink` | `src/application/chat/past_chat_search.py:244-249` | the end moves back no further than needed for piece and ellipses to fit |
| `Excerpt.ShortTextIsWhole` | `src/application/chat/past_chat_search.py:231-237` | a text whose words, single-spaced, are within the limit comes back as just that, however they were spread |
| `Excerpt.LeadIsForty` | `src/application/chat/past_chat_search.py:238-243` | the piece begins forty characters before the first match, or at the beginning if the match is closer or there is none |
| `Excerpt.TinyExcerpt` | `src/application/chat/past_chat_search.py:244-251` | below six characters a longer text is cut to its beginning and an ellipsis, or to dots |
| `Excerpt.ClipFits` | `src/application/chat/past_chat_search.py:231-251` | every excerpt has at most limit characters |
| `Excerpt.ClipIsOnePiece` | `src/application/chat/past_chat_search.py:231-251` | from a limit of 6 on the loop alone suffices: one contiguous piece with an ellipsis on each cut side, and one more character would not fit |
| `Excerpt.ClipShowsMatch` | `src/application/chat/past_chat_search.py:231-251` | if folding kept the length and limit >= needle + 46, the first match is shown whole |
| `Excerpt.CapHits` | `src/application/chat/past_chat_search.py:508-541` | the loop with its shrinking budget chooses the front of the ranking |
| `Excerpt.EachHitIsClipped` | `src/application/chat/past_chat_search.py:518-525` | each chosen hit is cut to 360 characters, or to what the hits before it have left |
| `Excerpt.HitsWithinBudget` | `src/application/chat/past_chat_search.py:508-541` | the excerpts total at most max_chars, the hits are a prefix of the ranking of at most max_results, and choosing stops before only when the budget is used up or the next message is blank |

## Left out

- KeyTokens.NormalizeTwice: is about folding dashes and dropping format characters; that NFKC changes nothing on a text so treated is an assumption, and not true of every text, because dropping a format character can bring a letter and a combining mark together that NFKC then composes.
- KeyTokens.NormalizeOfConcat: leaves out NFKC, which can compose across the place where two texts are joined.
- KeyTokens.TokensSplitAt: takes decimal digits beyond ASCII, which the clock patterns of the program accept, as separators.
- KeyTokens.TokensReadBack: has no clock tokens with decimal digits beyond ASCII.
- FactShapes.LookAlikeDash: leaves out NFKC.
- FactShapes.InvisibleCharacter: leaves out NFKC too, and names eight of the format characters; the model drops all of them.
- Stems: lower-casing beyond ASCII is left out.
- SetMaxConcurrent: writes the cap and reads the loop in one step; `SlotThreads` has the steps. A thread that changes the cap in the middle of one wake-up loop, or between the test and the increment of one acquire, is not modelled.
- ReachableInv: is about runs of these steps of the loop; `KnownLoopNeverMisses` and `RunKeeps` are about interleavings with threads.
- StepKeepsInv: likewise; `StepKeepsIff` is about the single steps of a thread.
- ExtractQuizItems: takes what the inline and bullet expressions find as given, and leaves out template matches whose white space runs over a line end; it reads the template form line by line.
- ReadTemplate: likewise finds only matches whose white space stays within a line, apart from blank lines between prompt and answer.
- The string form of the required-fact text and the separate marker argument of `is_summary_message`; only the message form and the default marker are modelled.
- The compression ratio in the metrics, and the guesses of a context window from a model name: budgets and character limits are inputs.
- The exact head share of a truncated tool output: the head may be any part of the limit, and writing the artifact file is a function that may fail.
- Event loops that close or change under a semaphore, and `GenerationPools`, which only keeps one semaphore per key.
- The check for thin wiki grounding that can end a call before its first phase (src/application/chat/job_runner.py:200-252), and the deliverable texts, durable notes and working sets of a run, which do not decide which phase is next.
- The replan count and the intake check, which are inputs of a turn and of a job, and what the latest checkpoint is, which is an input of a resume.
- Priming and analysis steps of the ledger, which have writers of their own; the stop-word list and the topic slug are parameters.
- Ranking and date formatting of past chats, spaced-repetition intervals, server events, prompts, attachments and tool mounting.
