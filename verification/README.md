# Verified models of the concurrent core of sl-exec

The library builds asynchronous control flow (channels, select, all, any, share) on a few
concurrent protocols. This project models those protocols in Dafny and proves what the rest of
the library relies on, for every number of threads, every interleaving and every run. The results
tie what is done to what was asked: the requests, operations and moves of the run itself. Safety comes
first; that calls and tasks also come to an end is proved for each machine too.

Two forms are used. Where threads interleave between atomic accesses (multi-word CAS, the
seqlock of descriptors, the serial executor, parallel connections, share) the model is a
transition system whose step makes at most one shared access, so that every interleaving is a
run; the loop counters, retries and recursive calls of the code are part of each thread's state.
Where the code works under a mutex or on one word (channel, write_mutable, cas_mutable) the model
is a class whose methods update fields in place, each proved against a specification function.

| file | what it models |
|---|---|
| KcasModel | kcas, kcas_help, kcas_read, dcss, dcss_help, dcss_read and create_new, one access a step |
| KcasInvariant, KcasProof | the inductive invariant, and how one thread's step leaves the others' part of it intact |
| KcasRefinement | logical memory and the refinement to a memory with an atomic k-word compare-and-swap |
| KcasSolo | what threads do that are left alone, piece by piece |
| KcasProgress, KcasCircles | a call left alone ends, exactly when no words are named in a circle |
| KcasLimits | exactly when an operation that is not one-shot leaves a stale descriptor pointer in memory |
| Seqlock | read_immutables racing with create_new, field by field |
| Packing | pointers and state words in 64 bits, flags, write_mutable and cas_mutable under interference |
| ChannelSpec, ChannelImpl | the channel's operations as functions, and the class that refines them |
| ChannelProof, ChannelMatch | the channel's invariant, and the complete outcome of the pop loop |
| ChannelSteps | a channel one access to a flag at a time, and how the accesses add up to ChannelSpec's operations |
| ChannelRuns, ChannelOrder, ChannelAnswers, ChannelRecords | the channel's promises over whole runs, and what it was asked in them |
| System, SystemProof, SystemRuns, SystemRecords | any number of channels and selects sharing their flags, one access at a time |
| Serial, SerialLimits, SerialProgress, IntrusiveList | lock_free_stack and serial_executor, how many tasks are too many, and how long a run can be; intrusive forward lists |
| Join, JoinRuns | parallel_connection with all, any and select on top, what its cases were told, and its end |
| Tree, TreeRuns | finite trees of all and any, likewise |
| Share, ShareRuns | share_storage with its signals and connections, and what was asked of them |
| Options, Counting | small shared notions |

Where the definitions come from: `KcasModel.FrameStep` is `src/thread/detail/multiword_kcas.cpp:32-121`
with dcss (`src/thread/detail/multiword_dcss.cpp:41-66`) inlined, `KcasModel.HelpStep` is
`src/thread/detail/multiword_dcss.cpp:93-106`, `KcasModel.CallStep` the callers around them;
`ChannelSpec.Emit`, `ChannelSpec.Cancel` and `ChannelSpec.Close` are
`include/sl/exec/algo/sync/channel.hpp:126-337`; `Serial.CallStep` and `Serial.TurnStepOf` are
`include/sl/exec/algo/sync/serial.hpp:23-55`; `Join.Step` is
`include/sl/exec/algo/sync/detail/parallel.hpp:76-186` with the `set_*_impl` functions of
`all.hpp`, `any.hpp` and `select.hpp`; `Share.Step` is `include/sl/exec/algo/emit/share.hpp:73-229`.

Assumptions common to all machines: atomic accesses are sequentially consistent, a weak
compare-and-exchange does not fail spuriously, and sequence numbers do not wrap.

The layers meet at three places. A kcas on one or two `done_` flags is one atomic step for a
channel; `KcasRefinement.RunRefines` is why that is right, and `KcasRefinement.DoneFlagWonOnce` why a
flag is claimed once. `System` puts any number of channels and selects together, access by access,
with the flags between them; `SystemRuns.ChannelsFollow` shows that every channel there does what
ChannelRuns says, so that all that is proved of one channel holds of each. The tasks of a parallel
connection run one at a time and in order in `Join`; `Serial.OneTurnAtATime` and
`Serial.FirstInFirstOut` are why that is right.

Four properties turned out not to hold in general. Each is proved to hold exactly when a condition
holds that a caller could check:

- Descriptor reuse is safe, beside one-shot operations, exactly when an operation is one-shot itself:
  it expects the initial value of every word (`KcasLimits.SafeExactlyWhenOneShot`, for operations that
  expect the initial value of their first word). This is how the library uses kcas. Otherwise a late
  helper can store the pointer of an operation that has answered false and is gone.
- A call of kcas or kcas_read whose thread is left alone comes to an end, in every reachable state and
  whatever the other threads have left unfinished, if the operations do not name their words in a
  circle; for operations on one or two words, which is what the library uses, exactly then
  (`KcasCircles.EndExactlyWhenNoCircle`). The words are not sorted
  (`include/sl/exec/thread/detail/multiword_kcas.hpp:70-74`), so two operations that name two words in
  opposite order, and each hold their first one, make kcas_help call itself for ever. The channel
  names the sender's flag first, so two selects that offer to each other over two channels name their
  flags in a circle. Whether runs of the library come to that point is not part of this model.
- The serial executor keeps its promises exactly with fewer than 2^32 tasks under way, because its
  work counter has 32 bits (`SerialLimits.PromiseExactlyBelow`). With 2^32 tasks a batch ends without
  seeing that work is left, and pushed tasks are never run; with one more the inner task is handed out
  while it is running.
- A channel never leaves an emitted node neither waiting nor answered while its select is open,
  exactly when no select both sends to and receives from that channel next to a third party
  (`ChannelOrder.StrandedExactlyWhenCrossed`). The comments at
  `include/sl/exec/algo/sync/channel.hpp:173-176` assume that a node marked in the loop is about to
  be cancelled by its select. The same-select check looks only at the back of the queue, so a node
  can also be refused by its own select's earlier node at the front. With assertions enabled the
  code stops there (`include/sl/exec/algo/sync/channel.hpp:271`); the model is the release build.

`DESIGN.md:238` says that a receive after close fails at once. The code hands over what waiting
sends still offer, and fails only when none is left; `ChannelOrder.ReceiveFails` follows the code.

`include/sl/exec/thread/detail/multiword_dcss.hpp:71-73` promises `e2` for success and else the current
value of the second word. When the first word has changed the swap is undone and that value is `e2` as
well, so the result does not tell the two apart; the install loop of kcas_help goes on to the next
word in both cases, and so does the model.

## Model

| member | source | states |
|---|---|---|
| KcasRefinement.RunRefines | src/thread/detail/multiword_kcas.cpp:14-121 | Under every schedule of any number of threads, logical memory and the callers' calls and answers follow a run of a memory whose k-word compare-and-swap, and whose read, is one step; every call there has exactly the operands or the address that its thread was asked for at that point of the schedule |
| KcasRefinement.StepAsked | src/thread/detail/multiword_kcas.cpp:14-30 | An idle thread that is asked for a kcas or a read begins just that call, and the other idle threads stay idle |
| KcasRefinement.StepRefines | src/thread/detail/multiword_kcas.cpp:47-117 | Every access is one step of that atomic memory or invisible there; logical memory changes only at the access that moves an undecided descriptor to succeeded |
| KcasRefinement.WordUnchanged | src/thread/detail/multiword_kcas.cpp:65-84 | Install, help, retry and uninstall accesses leave every logical word as it is |
| KcasRefinement.DecisionWrites | src/thread/detail/multiword_kcas.cpp:87-91 | The deciding access changes all k words at once from expected to new values, or none of them |
| KcasRefinement.VerdictTruthful | src/thread/detail/multiword_kcas.cpp:79-91 | Whoever decides, success is decided exactly when at that moment every word logically holds its expected value |
| KcasRefinement.DecisionSettles | src/thread/detail/multiword_kcas.cpp:87-96 | A decision, also by a helper, settles the owner's call with that verdict and moves nobody else's call |
| KcasRefinement.OwnFrame | src/thread/detail/multiword_kcas.cpp:94-120 | kcas_help hands its owner the verdict that was decided, and nothing else |
| KcasRefinement.ReuseSafe | src/thread/detail/multiword_kcas.cpp:14-20 | A kcas pointer found in any word names a live descriptor whose owner is still inside that kcas, a dcss pointer one whose owner is still inside that dcss at that word, so none is left after a call returns |
| KcasRefinement.NeverBottom | src/thread/detail/multiword_kcas.cpp:17-19 | No call of kcas answers bottom |
| KcasRefinement.VerdictFixed | include/sl/exec/thread/detail/multiword.hpp:341-383 | Once decided, the verdict stays for as long as the slot keeps its sequence number |
| KcasRefinement.StaleHarmless | src/thread/detail/multiword_kcas.cpp:40-55 | A helper whose pointer is out of date changes no logical word and no KCAS descriptor |
| KcasRefinement.HelpersAgree | src/thread/detail/multiword_kcas.cpp:98-117 | Two helpers about to take the same pointer out of the same word write the same value |
| KcasRefinement.FlagWonOnce | include/sl/exec/algo/sync/select.hpp:132 | In the atomic memory at most one operation naming a one-way flag succeeds |
| KcasRefinement.DoneFlagWonOnce | include/sl/exec/algo/sync/channel.hpp:270-300 | The same for every schedule of the real protocol: a done_ flag is claimed by at most one kcas, whatever other flags it names |
| KcasProof.StepInv | src/thread/detail/multiword_kcas.cpp:32-121 | Every access of every thread keeps the invariant, and is one of the moves that all other threads tolerate |
| KcasProof.Installer | src/thread/detail/multiword_dcss.cpp:49-66 | A dcss pointer in a word names the live descriptor of a thread that is resolving it at this word |
| KcasProof.DecideWord | src/thread/detail/multiword_kcas.cpp:79-91 | No operation is decided while one of its own dcss pointers is in memory |
| KcasProof.HelpSwapWord | src/thread/detail/multiword_dcss.cpp:93-106 | A helper's delayed dcss swap never installs the pointer of an operation that was decided meanwhile |
| KcasProof.PendingRuns | src/thread/detail/multiword_kcas.cpp:14-17 | The owner of an undecided operation is still inside kcas_help for it |
| KcasProgress.TopEnds | src/thread/detail/multiword_kcas.cpp:32-121 | Without a circle, kcas_help of a thread that is left alone returns from wherever it is, with its operation over and none of its pointers left in memory |
| KcasProgress.LoneCallEnds | src/thread/detail/multiword_kcas.cpp:14-30 | Without a circle, from every reachable state every thread that is left alone finishes its kcas or kcas_read, for one-shot operations on any number of words |
| KcasProgress.OrderKept | src/thread/detail/multiword_kcas.cpp:50-84 | An undecided operation that has its pointer in a word has it in all words it names before |
| KcasProgress.NoReturn | src/thread/detail/multiword_kcas.cpp:74-78 | Without a circle, the nested helpers never come round to a word that they are already waiting for |
| KcasCircles.RingSpins | src/thread/detail/multiword_kcas.cpp:74-78 | For every circle of two-word operations, and at least as many threads, a run leads to a state from which a thread left alone never returns from kcas |
| KcasCircles.EndExactlyWhenNoCircle | src/thread/detail/multiword_kcas.cpp:14-121 | One-shot operations on one or two words and reads: for every number of threads and all runs, each call ends when its thread is left alone, exactly when no words are named in a circle |
| KcasLimits.SafeExactlyWhenOneShot | src/thread/detail/multiword_kcas.cpp:45-118 | For every operation over any number of words that expects the initial value of the first: no run of it beside reads and one-shot operations, by three or more threads, leaves a pointer behind that outlives its call, exactly when the operation is one-shot |
| KcasLimits.PointerOutlives | src/thread/detail/multiword_dcss.cpp:93-106 | For every such operation that is not one-shot, a run of three threads ends with its pointer in the first word it disagrees about, while it has answered false and its descriptor is being rewritten |
| KcasLimits.OneShotSafe | src/thread/detail/multiword_kcas.cpp:14-20 | One-shot operations leave no such pointer, in any reachable state |
| Seqlock.NeverMixed | include/sl/exec/thread/detail/multiword.hpp:240-271 | In every run a read that is not bottom gives exactly the fields that create_new was called with for the version that is read |
| Seqlock.ReadIsAtomic | include/sl/exec/thread/detail/multiword.hpp:257-270 | Such a read equals one atomic read at its last access |
| Seqlock.BottomIsStale | include/sl/exec/thread/detail/multiword.hpp:248-267 | Bottom is given only when the creation asked for is over |
| Seqlock.PublishedOnce | include/sl/exec/thread/detail/multiword.hpp:162-191 | No sequence number is published twice and nothing published is changed |
| Seqlock.RunCreated | include/sl/exec/thread/detail/multiword.hpp:162-191 | What has been published is what create_new was called with, call by call, up to the call under way |
| Seqlock.ReadEnds | include/sl/exec/thread/detail/multiword.hpp:240-271 | Each access of a read brings it nearer to its end and no other access moves it away, so a read always ends |
| Packing.SequenceParity | include/sl/exec/thread/detail/multiword.hpp:50 | The sequence goes up by one, and to zero from its largest value: odd and even again in create_new, also where it wraps, and the next even number is another one |
| Packing.StateRoundTrip | include/sl/exec/thread/detail/multiword.hpp:53-59 | Packing and unpacking a state word are inverse on the masked fields |
| Packing.PointerRoundTrip | include/sl/exec/thread/detail/multiword.hpp:81-93 | The same for flagged pointers |
| Packing.FlagRoundTrip | include/sl/exec/thread/detail/multiword.hpp:388-412 | Toggling a flag twice is the identity, flips what has_flag says, and keeps owner and sequence number |
| Packing.StoreRoundTrip | include/sl/exec/thread/detail/multiword_kcas.hpp:36 | Values, dcss pointers and kcas pointers in a word are told apart and read back as stored |
| Packing.StoreInjective | include/sl/exec/thread/detail/multiword_dcss.hpp:43 | Two different things are never stored as the same word |
| Packing.WithFieldOnly | include/sl/exec/thread/detail/multiword.hpp:311-312 | Replacing a field keeps the other fields and the sequence number |
| Packing.Slot.WriteMutable | include/sl/exec/thread/detail/multiword.hpp:288-321 | Whatever others store before each of its attempts, the call changes only the masked field of the very word it finds, with no other store between, or stores nothing because the sequence number is another one |
| Packing.Slot.CasMutable | include/sl/exec/thread/detail/multiword.hpp:341-383 | Over the history of all stores: bottom exactly when the last word has another sequence number; else the new value exactly when the word directly before its own store had the expected one, and the found value, with nothing stored, when it had not |
| ChannelImpl.Channel.TryFulfill | include/sl/exec/algo/sync/channel.hpp:268-316 | Succeeds exactly when both selects involved are open and different; then both are claimed, the value is handed over and the sender told, else nothing changes |
| ChannelImpl.Channel.Send | include/sl/exec/algo/sync/channel.hpp:126-182 | The in-place send, with its pop loop and flags set from outside before every access, computes the specified emission |
| ChannelImpl.Channel.Receive | include/sl/exec/algo/sync/channel.hpp:184-233 | The same for receive |
| ChannelImpl.Channel.Un | include/sl/exec/algo/sync/channel.hpp:318-337 | unsend and unreceive: leave the queue, answer null if queued or marked, else mark |
| ChannelImpl.Channel.CloseChannel | include/sl/exec/algo/sync/channel.hpp:235-258 | The channel is closed afterwards; the first close fails each waiting receiver once, a later one changes nothing and says so |
| ChannelProof.EmitInv | include/sl/exec/algo/sync/channel.hpp:126-233 | send and receive keep queues, answers, claims and pairings consistent |
| ChannelProof.PairInv | include/sl/exec/algo/sync/channel.hpp:268-316 | So does a pairing, which answers exactly its two nodes and claims exactly their selects |
| ChannelProof.CancelInv | include/sl/exec/algo/sync/channel.hpp:318-337 | So does a cancellation |
| ChannelProof.CloseInv | include/sl/exec/algo/sync/channel.hpp:235-258 | So does close |
| ChannelMatch.MatchOutcome | include/sl/exec/algo/sync/channel.hpp:152-181 | The complete outcome of the pop loop: which nodes are passed over, who is paired or yielded to, and that every other node is untouched |
| ChannelMatch.MatchGrows | include/sl/exec/algo/sync/channel.hpp:206-232 | The loop takes back no answer, claim, pairing or arrival |
| ChannelRuns.StepInv | include/sl/exec/algo/sync/channel.hpp:126-337 | Every operation keeps the invariant and takes nothing back |
| ChannelRuns.AnsweredOnce | include/sl/exec/algo/sync/channel.hpp:126-258 | In every run a node is answered at most once and for good, never before it is emitted, and exactly once when it has been emitted and cancelled |
| ChannelRuns.Conservation | include/sl/exec/algo/sync/channel.hpp:268-316 | Sends that succeeded and receives that got a value are in bijection, each receive with its partner's value |
| ChannelRuns.ClaimFixed | include/sl/exec/algo/sync/channel.hpp:270-309 | A claim on a select never changes, and a claim by a pairing means that its value was handed over |
| ChannelRuns.OneCaseTakesPart | include/sl/exec/algo/sync/select.hpp:132-146 | A case that took part in an exchange has claimed its select for it, and no other case of that select takes part in any |
| ChannelRuns.QueueTruth | include/sl/exec/algo/sync/channel.hpp:126-233 | A node is in its queue exactly when it says so, queued nodes are unanswered and not cancelled, queues are in arrival order, no free sender and free receiver both wait, and none receives after close |
| ChannelOrder.EarliestServed | include/sl/exec/algo/sync/channel.hpp:152-181 | An arriving node is only ever paired with the longest waiting node whose select was open |
| ChannelOrder.ReceiveFails | include/sl/exec/algo/sync/channel.hpp:187-223 | A receive fails exactly when the channel is closed, it was not cancelled before, and no live sender is left (or the last waiting one is its own select's) |
| ChannelOrder.ClosedForGood | include/sl/exec/algo/sync/channel.hpp:134-138 | After close the channel stays closed, no receiver waits and no send is queued again |
| ChannelOrder.StrandedExactlyWhenCrossed | include/sl/exec/algo/sync/channel.hpp:146-180 | Over all runs, a node can end up neither waiting nor answered with an open select exactly when some select sends and receives here next to a third party |
| ChannelOrder.RunStrands | include/sl/exec/algo/sync/channel.hpp:173-180 | Without such selects every marked node's select is done, as the comments there say |
| ChannelOrder.CrossedStrands | include/sl/exec/algo/sync/channel.hpp:146-180 | With one, a run of three arrivals strands a node while a possible partner is waiting |
| ChannelOrder.StrandedForGood | include/sl/exec/algo/sync/channel.hpp:318-337 | A stranded node never exchanges anything afterwards; it can only be told null by its own cancellation |
| ChannelAnswers.AnswersExplained | include/sl/exec/algo/sync/channel.hpp:126-337 | In every run a node is told of an error only if the channel is closed, and null only if it was cancelled |
| ChannelAnswers.SendFails | include/sl/exec/algo/sync/channel.hpp:134-144 | An arriving send fails exactly when the channel is closed, also if it was cancelled before |
| ChannelAnswers.CloseAnswers | include/sl/exec/algo/sync/channel.hpp:235-258 | The first close answers each waiting receiver with one error and nobody else |
| ChannelAnswers.CancelAnswers | include/sl/exec/algo/sync/channel.hpp:318-337 | try_cancel answers null exactly when the node was emitted and is still unanswered, and answers nobody else |
| ChannelRecords.AsAsked | include/sl/exec/algo/sync/channel.hpp:126-337 | In every run the channel is closed exactly when a close was among the operations, and each node has arrived, or been cancelled, exactly when an operation said so |
| ChannelRecords.SendAfterClose | include/sl/exec/algo/sync/channel.hpp:134-138 | In every run a send that arrives after a close has failed, with that one answer |
| ChannelRecords.EmittedAndCancelled | include/sl/exec/algo/sync/channel.hpp:318-337 | In every run a node that was emitted and cancelled by operations of the run, in any order, has exactly one answer |
| ChannelRecords.DecidedStays | include/sl/exec/algo/sync/channel.hpp:134-144 | A select decided elsewhere stays decided here |
| ChannelRecords.UnmetArrival | include/sl/exec/algo/sync/channel.hpp:136-150 | An arrival that is refused or finds no partner changes nothing but its own node and the queue, and where it ends up is said for each case |
| ChannelSteps.AccessedOk | include/sl/exec/algo/sync/channel.hpp:152-181 | Between any two accesses to flags inside send and receive the channel is consistent, whatever was found set |
| ChannelSteps.AccessedUnderway | include/sl/exec/algo/sync/channel.hpp:206-232 | What has been done so far and what the specification says is still to come add up to the specified operation |
| ChannelSteps.UnderwayEnds | include/sl/exec/algo/sync/channel.hpp:126-233 | When the call is over the channel is where the specified operation leads |
| ChannelSteps.AccessFalls | include/sl/exec/algo/sync/channel.hpp:152-181 | Every access brings the call nearer to its end, whatever flags it finds |
| SystemProof.StepOk | include/sl/exec/algo/sync/select.hpp:132-172 | Every access of every channel and select keeps channels, flags and cases consistent; a kcas that finds flags open can always claim the cases |
| SystemRuns.ChannelsFollow | include/sl/exec/algo/sync/channel.hpp:126-337 | In every run of channels and selects together, each channel goes through a run of ChannelRuns |
| SystemRuns.OneExchangePerSelect | include/sl/exec/algo/sync/channel.hpp:268-316 | Over all channels that share it, a select takes part in at most one exchange, with one of its cases |
| SystemRuns.SlotTellsExchange | include/sl/exec/algo/sync/select.hpp:132-172 | A select over channels is completed at most once, and with a value exactly when one of its cases took part in an exchange |
| SystemRuns.LosersAnswered | include/sl/exec/algo/sync/select.hpp:134-146 | After an exchange, when the cancellations have been passed on, every case has been answered exactly once, with a value for the winner alone |
| SystemRecords.ChannelsAsAsked | include/sl/exec/algo/sync/channel.hpp:126-337 | Each channel has carried out the emissions, cancellations and closes asked of it, in that order, but for the emission under way |
| SystemRecords.SelectsAsAsked | include/sl/exec/algo/sync/select.hpp:132-172 | Each act moves a select only by the move that this act stands for, and only the select whose case it is |
| SystemRecords.CaseTold | include/sl/exec/algo/sync/select.hpp:148-172 | A case of a select has the kind of outcome its node was answered with: a value, an error or null |
| Serial.StepInv | include/sl/exec/algo/sync/serial.hpp:23-55 | Every access of schedule and execute keeps list, counter and turns consistent, as long as fewer than 2^32 tasks are under way after it |
| Serial.FirstInFirstOut | include/sl/exec/algo/sync/serial.hpp:24-33 | With fewer than 2^32 tasks under way, the executed tasks are a prefix of the tasks in the order of their successful pushes, across batches |
| Serial.OneTurnAtATime | include/sl/exec/algo/sync/serial.hpp:35-55 | Likewise the inner task is due or running once while the work count is positive as an integer and else not at all, and extract never gives null |
| Serial.NoTaskLost | include/sl/exec/algo/sync/serial.hpp:49-55 | Likewise only tasks that schedule was called with have run, none more often than asked, and when all calls have returned and no turn is due all of them have |
| Serial.RunForgetsNone | include/sl/exec/thread/detail/lock_free_stack.hpp:17-23 | With any number of tasks, each task schedule was called with has been pushed, or its call is still trying to |
| SerialProgress.StepFalls | include/sl/exec/thread/detail/lock_free_stack.hpp:17-32 | Every access uses up one of the accesses left, although a successful CAS makes others retry |
| SerialProgress.ComesToRest | include/sl/exec/algo/sync/serial.hpp:23-55 | Once schedule is not called any more, no more accesses follow than were left then |
| SerialProgress.AllHasRun | include/sl/exec/algo/sync/serial.hpp:23-55 | With fewer than 2^32 tasks under way, when nothing can move any more exactly the tasks asked for have run |
| Serial.BalanceRange | include/sl/exec/algo/sync/serial.hpp:35-51 | With at most n tasks under way the count stays between 1 - n and n |
| SerialLimits.BalanceReached | include/sl/exec/algo/sync/serial.hpp:35-51 | Both ends are reached, so the count does pass below zero, and the 32-bit counter then wraps |
| SerialLimits.PromiseExactlyBelow | include/sl/exec/algo/sync/serial.hpp:23-55 | All runs with at most n tasks under way keep all promises (order, one turn, everything asked for has run at rest, no empty extract) exactly when n is below 2^32 |
| SerialLimits.TasksLost | include/sl/exec/algo/sync/serial.hpp:35-38 | A run with 2^32 tasks under way ends with all calls returned, no turn due, and all tasks but one never run |
| SerialLimits.TwoTurns | include/sl/exec/algo/sync/serial.hpp:50-54 | A run with one task more has the inner task running and handed out again |
| SerialLimits.Fill | include/sl/exec/algo/sync/serial.hpp:49-55 | For every k below 2^32 some run has k + 1 tasks counted and a turn in progress |
| IntrusiveList.LinkedPush | include/sl/exec/thread/detail/lock_free_stack.hpp:17-23 | A pushed node heads the list and the rest of the list is as before |
| Join.StepInv | include/sl/exec/algo/sync/detail/parallel.hpp:76-186 | Every access of completions, emission and serialized tasks keeps the invariant of the connection |
| Join.SlotTellsFormula | include/sl/exec/algo/tf/par/any.hpp:74-110 | The slot is completed at most once, with the outcome of the case that set done_, and with a value exactly when the AND (all) or OR (any, select) of the cases' outcomes is true, whatever the open cases still do |
| Join.SlotCompletedOnce | include/sl/exec/algo/sync/select.hpp:134-172 | When every case is through, the slot has been completed exactly once |
| Join.AllResultsPresent | include/sl/exec/algo/tf/par/all.hpp:87-108 | When all gives its value every element is present |
| Join.WinnerFixed | include/sl/exec/algo/sync/select.hpp:132-139 | done_ is set once and who set it never changes |
| Join.CancelledBesideWinner | include/sl/exec/algo/sync/detail/parallel.hpp:134-172 | Each cancel handle is used at most once and the winner's never; in the end, after an early decision, all the others have been used |
| Join.DeletedLast | include/sl/exec/algo/sync/detail/parallel.hpp:174-182 | Deletion happens at most once, after all completions and the emit task, and nothing can touch the object afterwards |
| Join.DeletedInTheEnd | include/sl/exec/algo/sync/detail/parallel.hpp:147-182 | When all cases are through and no task is waiting, the object has been deleted |
| Join.RunPromise | include/sl/exec/algo/sync/detail/parallel.hpp:76-186 | Slot and deletion promises together, for any kind, number of cases and interleaving |
| JoinRuns.AsTold | include/sl/exec/algo/sync/detail/parallel.hpp:76-186 | In every run each case has the outcome its signal or channel told it, has begun exactly when a move began it, and the emission is over exactly when a move ended it |
| JoinRuns.RunEnds | include/sl/exec/algo/sync/detail/parallel.hpp:113-186 | A run has at most as many accesses as are left at first, whatever the order |
| JoinRuns.EndPromise | include/sl/exec/algo/tf/par/all.hpp:86-132 | When nothing can move any more: the slot was completed once, as the formula over what the cases were told says and with what the winner was told; the object is deleted once; after an early decision the cancel handles used are exactly those beside the winner |
| Tree.PerformInv | include/sl/exec/algo/tf/par/all.hpp:86-132 | A completion anywhere in a tree of all and any keeps the tree consistent and never changes a completed root |
| Tree.RootTellsFormula | include/sl/exec/algo/tf/par/any.hpp:74-110 | A completed root tells the AND/OR formula over the leaves, whatever the open leaves still do |
| Tree.QuietCompletes | include/sl/exec/algo/tf/par/all.hpp:86-132 | When all leaves have completed and all completions are worked through, the root has been completed |
| Tree.RootOutcome | include/sl/exec/algo/tf/par/all.hpp:86-132 | Over all interleavings the root's slot is completed at most once, for good, and at least once when all is quiet, and it succeeds exactly when the formula over the actual outcomes is true |
| TreeRuns.AsTold | include/sl/exec/algo/tf/par/any.hpp:74-110 | In every run each leaf has the outcome it was told |
| TreeRuns.RunEnds | include/sl/exec/algo/tf/par/all.hpp:86-132 | A run has at most as many accesses as are left at first |
| TreeRuns.EndOutcome | include/sl/exec/algo/tf/par/all.hpp:86-132 | When nothing can move any more the root has been completed, with a value exactly when the formula over what the leaves were told is true |
| Share.StepInv | include/sl/exec/algo/emit/share.hpp:73-151 | Every access of subscribers and of set_result keeps the word, the list and the count consistent |
| Share.InnerEmittedOnce | include/sl/exec/algo/emit/share.hpp:93-103 | The inner connection is emitted at most once, and once as soon as some callback is in |
| Share.AnsweredOnce | include/sl/exec/algo/emit/share.hpp:105-148 | Each emitted callback gets the one result, exactly once |
| Share.ResultFixed | include/sl/exec/algo/emit/share.hpp:125-128 | The result never changes once stored |
| Share.FreedOnceAndLast | include/sl/exec/algo/emit/share.hpp:73-90 | The count is the box plus live signals, unemitted connections and pending callbacks; the storage is freed once, exactly when nothing is left, and not used after |
| Share.SharePromise | include/sl/exec/algo/emit/share.hpp:73-229 | All of this at every moment of every run |
| ShareRuns.CountsAsAsked | include/sl/exec/algo/emit/share.hpp:125-128 | In every run there are as many handles as signals were made, and the result is the one that the inner signal gave |
| ShareRuns.AsAsked | include/sl/exec/algo/emit/share.hpp:93-122 | In every run a handle is gone exactly when it was dropped unused, and on its way to its answer, or there, exactly when it was emitted |
| ShareRuns.EmittedIsAnswered | include/sl/exec/algo/emit/share.hpp:105-148 | Each emitted callback that can move no more once set_result is over has had the result of the run, once |
| ShareRuns.StepFalls | include/sl/exec/algo/emit/share.hpp:105-148 | Every access of emit and set_result uses up one of the accesses left, retries included |
| ShareRuns.ComesToRest | include/sl/exec/algo/emit/share.hpp:93-150 | So no more accesses follow than were left, until something new is asked |
| ShareRuns.AllAnswered | include/sl/exec/algo/emit/share.hpp:105-148 | When nothing can move any more and the inner signal has completed, every emitted callback has had its result, once |

## Left out

- Memory orders, spurious failure of weak compare-and-exchange, wrap-around of sequence numbers and running out of thread ids: outside the machines.
- KcasProgress.LoneCallEnds: a thread that is not left alone may have to retry as often as others interfere; the code promises no more.
- KcasCircles.EndExactlyWhenNoCircle: with three words and more a circle need not come about, because operations can exclude each other at an earlier word; that there is none stays sufficient.
- KcasLimits.SafeExactlyWhenOneShot: says nothing about an operation that expects another value than the initial one of its first word; nobody else learns of it before that word matches, and whether it is safe then depends on what it writes.
- One KCAS naming a word twice: the array wrapper in multiword_kcas.hpp does not check for it, and no caller does it.
- The words' own reuse: a select's done_ flag lives as long as the run.
- KcasModel reads all fields of a descriptor in one access: Seqlock shows that the field-by-field copy is equivalent.
- dcss as an operation of its own: the model has its use inside kcas_help, which is its only caller in the library.
- The typed wrappers in multiword_kcas.hpp and multiword_dcss.hpp, which fill arrays and cast pointers: easy members.
- Serial.StepInv: the step that makes 2^32 tasks be under way is left out, because there the promises end; see SerialLimits.
- serial_executor::stop and the cancel hooks of its tasks: marked unfinished in the code.
- Share: the reference count is an unbounded integer, not 32 bits wide.
- Join and Tree: values and errors are reduced to their kind, and a connection has at least one case.
- The order in which emit_ordered emits its connections: the machine allows every order.
- Tree.RootOutcome: leaves are channel-free signals, so a nested select is not part of a tree.
- SystemProof.StepOk: the selects' tasks run in the order of their scheduling, as in Join; the serial executor is not interleaved with the channels.
- In ChannelRuns, other channels and other cases of a select appear as flags set at any moment before any access; in System they are there themselves.
- Callbacks that run after the mutex is released are recorded when they are committed.
- The two list ends and unlinking inside the channel's intrusive lists: queues are sequences; Serial and Share do model the links.
- ChannelImpl.Channel.CloseChannel: the close callback is a return value.
- Iterator safety while callbacks free the nodes they belong to: it depends on sl::meta lists, which are not part of this model.
- Avoiding deadlock by ordering, as DESIGN.md describes: select does not sort when all its cases are ordered.
- Coroutines, the simulator, context switches, thread pools, events, wait groups, and the two-party combinators: easy or plumbing.
