# Verification of the stateful core of a Telegram desktop client

This project models the small stateful components on which the client rests and proves
what they keep, for every input and every run:

- `UpdateSequence`: the gate, the buffer and the draining of sequence-numbered updates.
- `DifferenceTimers`: deadlines per account and per channel behind two single-shot timers.
- `Sha1`: the hand-written hash of the packer against FIPS 180-4.
- `ObserverList`, `ObserverQueue`: the intrusive subscription list with its cursor, and the
  event queues with their registries.
- `BinaryGuard`, `ConcurrentTimer`: the two-owner liveness flag under all interleavings, and
  the timer across two threads that rests on it.
- `TimerGuards`: every run of that timer as a run of those guards.
- `RuntimeComposer`: the layout of optional components and their migration.
- `StripComments`: the comment stripper of the JSON reader.
- `MessageData`, `FileReferences`, `ReadRequests`: three ways of coalescing requests.
- `FlatMap`, `FlatSet`, `FeedMessages`: maps and sets as sorted deques, and the ordering of
  messages built on them.
- `PeerUpdates`: the two-tier buffer of peer updates.
- `LastUsedCache`: the least-recently-used list and its index.
- `SettingsStream`, `Settings`: the stream of the session settings, and the settings written
  to it, read from it and changed in between.

`Options` and `Sets` hold an option type and one fact about sets.

Each module has a specification on values (a `State` and what every operation makes of it),
a class whose methods change fields as the source does and are proved to do what the
specification says, and lemmas about all runs of the specification. Network answers are
steps that come in any order, handlers are scripts that may call back at any point, time is
an integer, and logs record what was applied, called or sent.

## What the proofs brought to light

Some expectations turn out not to hold of the code. Each is stated as it is, with the exact
condition:

- A message-data callback that asks for its own message again is never called for the second
  ask, because the entry is erased after its callbacks ran. No callback runs twice, and once
  everything is answered all have run exactly when none asked so
  (`MessageData.EveryCallbackOnce`, with a run in `MessageData.AskingAgainIsLost`).
- A channel whose difference request failed stays marked as requesting, so the retry its
  deadline leads to is skipped and it is never asked again (`DifferenceTimers.RetryIff`,
  `DifferenceTimers.FailedChannelNeverAskedAgain`, with a run in
  `DifferenceTimers.FailedRetryExample`).
- A packet that came too early and waits while a difference is asked for is left without a
  timer or a request if the timer goes off meanwhile and the difference brings no new number
  (`UpdateSequence.AttendedIff`, with a run in `UpdateSequence.UnattendedRun`).
- `ConcurrentTimer::cancel` never reaches the clock thread, in any state
  (`ConcurrentTimer.CancelPostsNothing`, with a run in `ConcurrentTimer.CancelLeavesArmed`).
- A timer started with `callEach` goes on after its callback exactly when it was adjusted
  since (`ConcurrentTimer.IntervalGoesOnIff`, with a run in
  `ConcurrentTimer.IntervalFiresOnce`).
- A handler that unsubscribes itself as the first of two and then the other one releases the
  subscription list while the event still goes round (`ObserverList.ReleaseIff`, with a run in
  `ObserverList.ReleasedUnderCursor`).
- The length field of the SHA-1 padding has 32 bits, so the padding is that of FIPS 180-4
  exactly below 2^29 bytes (`Sha1.SamePaddingIff`).

The types of some settings allow more values than are read back: the send-by settings Both
and None, corners other than the four, and both third sections at once
(`Settings.RoundTripIff`). The client never sets them: the settings page
(Telegram/SourceFiles/settings/settings_chat.cpp:517-528) offers two send-by settings, those
of an older format are checked
(Telegram/SourceFiles/storage/localstorage.cpp:1589-1594), a dragged player ends in one of
the four corners (Telegram/SourceFiles/media/player/media_player_float.cpp:578-581), and the
setters of the sections exclude each other. So every state the client can reach comes back
(`Settings.ReachableRoundTrip`).

## Model

| member | source | states |
|---|---|---|
| UpdateSequence.ReachableBeyondGap | Telegram/SourceFiles/mainwidget.cpp:2859-2879 | In every state reachable from the start, whatever packets, sessions, states and differences arrive, every buffered key is greater than updSeq + 1 |
| UpdateSequence.NextKeepsInv | Telegram/SourceFiles/mainwidget.cpp:3698-3711 | Each single event, a new session, a received state or difference among them, keeps that buffer invariant |
| UpdateSequence.SetStateKeepsInv | Telegram/SourceFiles/mainwidget.cpp:2849-2880 | A new sequence number, through the whole drain it starts, keeps the buffer invariant |
| UpdateSequence.FeedKeepsInv | Telegram/SourceFiles/mainwidget.cpp:3729-3769 | Feeding one packet, through the whole drain it starts, keeps the buffer invariant, and the packet that comes next never enlarges the buffer |
| UpdateSequence.DrainedIsApplied | Telegram/SourceFiles/mainwidget.cpp:2864-2871 | A packet drained because it is the next one is applied at once and never buffered again; the buffer shrinks, which is why the mutual recursion ends |
| UpdateSequence.AppliedAtOnceIff | Telegram/SourceFiles/mainwidget.cpp:3729-3769 | A packet is applied at once exactly when it carries the next number, or none, or is a short one that was accepted; otherwise nothing is applied |
| UpdateSequence.RequestingAfter | Telegram/SourceFiles/mainwidget.cpp:2971-3019 | When a difference is being asked for after each event: never after a received state, an empty and a final difference, always after a slice, a new session and a timer, and after a packet exactly when it was before, or the packet or one applied with it asks for it; a new request empties the buffer |
| UpdateSequence.FeedRequests | Telegram/SourceFiles/mainwidget.cpp:3729-3769 | The same for one packet with all it drains, and the timer for unknown channels is armed exactly when one of the packets applied waits for a channel |
| UpdateSequence.QtsIsLargest | Telegram/SourceFiles/mainwidget.cpp:2856-2858 | In every run the qts is the largest one that any state or difference brought |
| UpdateSequence.SetStateMarks | Telegram/SourceFiles/mainwidget.cpp:2853-2858 | The date never falls, stands still while the channel timer runs, is otherwise at least the date received, and is always one that was received |
| UpdateSequence.AppliedWithoutGaps | Telegram/SourceFiles/mainwidget.cpp:3729-3769 | For any packets in any order, overlapping, repeated or missing, the numbered packets applied cover a contiguous range up to updSeq with no number applied twice |
| UpdateSequence.FeedKeepsCovers | Telegram/SourceFiles/mainwidget.cpp:3732-3748 | One packet with everything it drains extends the applied range without gap or overlap |
| UpdateSequence.OrderIndependence | Telegram/SourceFiles/mainwidget.cpp:3729-3769 | Packets tiling a range of numbers, delivered in any order with any repetitions, are applied in increasing order, each exactly once, and leave an empty buffer and the last number |
| UpdateSequence.TilesAfterState | Telegram/SourceFiles/mainwidget.cpp:2971-2981 | From the start, and after every run that left nothing waiting: a received state numbered n and then tiles from n on in any order and with any repetitions lead to all tiles being applied in increasing order, each once, to the last number, and to nothing waiting or asked for |
| UpdateSequence.TimerMeansWaiting | Telegram/SourceFiles/mainwidget.cpp:2859-2878 | In every run the timer of the buffer runs only while something waits |
| UpdateSequence.AttendedIff | Telegram/SourceFiles/mainwidget.cpp:2859-2878 | An event leaves waiting packets with neither the timer nor a request to look after them if and only if it is an answer that brings no new number while packets wait and the timer does not run |
| UpdateSequence.UnattendedRun | Telegram/SourceFiles/mainwidget.cpp:2983-2996 | A run of five events from the start that shows it |
| UpdateSequence.OnlyTheSetMatters | Telegram/SourceFiles/mainwidget.cpp:3729-3769 | Two deliveries of the same set of tiles, complete or not, end in the same state |
| UpdateSequence.DeliverOne | Telegram/SourceFiles/mainwidget.cpp:3732-3742 | One tile, old, next or ahead of the gap, moves the widget to the state its set of delivered tiles calls for |
| UpdateSequence.DrainChain | Telegram/SourceFiles/mainwidget.cpp:2864-2878 | Feeding the tile at the gap applies it and then every tile waiting directly behind it, and stops at the next gap |
| UpdateSequence.MainWidget.DrainBuffer | Telegram/SourceFiles/mainwidget.cpp:2861-2878 | The loop over the ordered buffer drops everything up to seq, hands out the packet numbered seq + 1 if there is one, and arms the timer otherwise when something is left |
| UpdateSequence.MainWidget.UpdSetState | Telegram/SourceFiles/mainwidget.cpp:2849-2880 | The method does what the specification of a new state says, the recursive feeding included |
| UpdateSequence.MainWidget.FeedUpdates | Telegram/SourceFiles/mainwidget.cpp:3729-3856 | The gate, the buffering, the requests for a difference and the application agree with the specification |
| UpdateSequence.MainWidget.UpdateReceived | Telegram/SourceFiles/mainwidget.cpp:3712-3722 | While a difference is requested only packets that force a logout are fed |
| UpdateSequence.MainWidget.NewSessionCreated | Telegram/SourceFiles/mainwidget.cpp:3703-3711 | A new session resets the number to zero and asks for a difference unless one is asked for already |
| UpdateSequence.MainWidget.GotState | Telegram/SourceFiles/mainwidget.cpp:2971-2981 | A received state sets the number, drains, and ends the request |
| UpdateSequence.MainWidget.GotDifference | Telegram/SourceFiles/mainwidget.cpp:2983-3019 | The four kinds of difference answers |
| UpdateSequence.MainWidget.GetDifference | Telegram/SourceFiles/mainwidget.cpp:3169-3193 | Asking for a difference empties the buffer and stops its timer, unless one is asked for already |
| UpdateSequence.MainWidget.SeqTimerEvent | Telegram/SourceFiles/mainwidget.cpp:382 | The timer of the buffer asks for a difference |
| UpdateSequence.MainWidget.MinChannelTimerEvent | Telegram/SourceFiles/mainwidget.cpp:383 | The timer behind updates of unknown channels asks for a difference |
| UpdateSequence.MainWidget.FeedUpdateOther | Telegram/SourceFiles/mainwidget.cpp:3910-3912 | An update of a channel that is not loaded arms that timer unless it is running; one that cannot be applied asks for a difference |
| DifferenceTimers.ReachableArmed | Telegram/SourceFiles/mainwidget.cpp:3117-3167 | In every reachable state, while any deadline of a kind is pending, the timer of that kind runs and is due no later than the earliest one |
| DifferenceTimers.NextKeepsArmed | Telegram/SourceFiles/mainwidget.cpp:3062-3082 | Every event keeps both timers armed for their deadlines |
| DifferenceTimers.SweepLeavesTheFuture | Telegram/SourceFiles/mainwidget.cpp:3117-3140 | After a sweep all by-pts deadlines left are in the future, and the timer is idle exactly when none is left |
| DifferenceTimers.SweepAsksForAccount | Telegram/SourceFiles/mainwidget.cpp:3119-3125 | A due account deadline goes and is answered with one request for a difference unless one is on its way; without a due one nothing is asked |
| DifferenceTimers.SweepAsksForChannels | Telegram/SourceFiles/mainwidget.cpp:3126-3134 | Exactly the due channels lose their deadline, and exactly those of them that are known and not being asked get one request each; with it goes their deadline after a failure |
| DifferenceTimers.RetrySweepLeavesTheFuture | Telegram/SourceFiles/mainwidget.cpp:3142-3167 | The same for the deadlines after failures |
| DifferenceTimers.RetrySweepAsksForAccount | Telegram/SourceFiles/mainwidget.cpp:3144-3152 | A due retry of the account always leads to a new request, whatever was marked, and takes the by-pts deadline with it |
| DifferenceTimers.RetrySweepAsksForChannels | Telegram/SourceFiles/mainwidget.cpp:3153-3161 | Exactly the due channels lose both deadlines, and exactly those of them that are known and not marked get one request each |
| DifferenceTimers.SweptMapUntouched | Telegram/SourceFiles/mainwidget.cpp:3195-3206 | The request made while sweeping a map does not change that map, by virtue of its origin argument |
| DifferenceTimers.ReachableBackoff | Telegram/SourceFiles/mainwidget.cpp:3068-3082 | The retry delays are always one of 1, 2, 4, .., 64 seconds |
| DifferenceTimers.RetryIff | Telegram/SourceFiles/mainwidget.cpp:3153-3160 | A due channel is asked again after a failure if and only if it is known and not marked as requesting |
| DifferenceTimers.FailureSticks | Telegram/SourceFiles/mainwidget.cpp:2963-2969 | The failure handler of a channel leaves the channel marked as requesting |
| DifferenceTimers.FailedChannelNeverAskedAgain | Telegram/SourceFiles/mainwidget.cpp:2963-2969 | Consequence, for every run: once the request of a channel failed, that channel is never asked again, whatever deadlines are set |
| DifferenceTimers.FailedRetryExample | Telegram/SourceFiles/mainwidget.cpp:3153-3161 | The smallest run that shows it |
| DifferenceTimers.LoopTakes | Telegram/SourceFiles/mainwidget.cpp:3126-3134 | Whatever the order in which the channels are swept, the loop ends in the one state that takes all due channels at once |
| DifferenceTimers.Scheduler.SweepChannelsByPts | Telegram/SourceFiles/mainwidget.cpp:3126-3134 | The loop takes out exactly the due channels, asks those that can be asked, and computes the wait to the earliest deadline left |
| DifferenceTimers.Scheduler.SweepChannelsAfterFail | Telegram/SourceFiles/mainwidget.cpp:3153-3161 | The same loop for the deadlines after failures |
| DifferenceTimers.Scheduler.GetDifferenceByPts | Telegram/SourceFiles/mainwidget.cpp:3117-3140 | The sweep sets the timer exactly to the earliest deadline left |
| DifferenceTimers.Scheduler.GetDifferenceAfterFail | Telegram/SourceFiles/mainwidget.cpp:3142-3167 | The retry sweep sets its timer exactly to the earliest deadline left |
| DifferenceTimers.Scheduler.GetChannelDifference | Telegram/SourceFiles/mainwidget.cpp:3195-3226 | The request of a channel and the deadlines it clears, by origin |
| DifferenceTimers.Scheduler.GetDifferenceTimeChanged | Telegram/SourceFiles/mainwidget.cpp:3021-3060 | The method sets, moves forward or removes the deadline of the account or of one channel as the specification of a changed deadline says, and leaves all deadlines alone when it answers that nothing changed |
| DifferenceTimers.TimeChangedMeans | Telegram/SourceFiles/mainwidget.cpp:3021-3060 | The deadline the change is about becomes the earlier of the one there was and the new one, or goes; the others stay; and the answer is that something changed exactly when a deadline did |
| DifferenceTimers.StartMeans | Telegram/SourceFiles/mainwidget.cpp:3062-3066 | After a start, with the sweep it leads to, that deadline is the earlier of the one there was and the new one |
| DifferenceTimers.FailureMeans | Telegram/SourceFiles/mainwidget.cpp:3068-3082 | After a failure its deadline is the earlier of the one there was and the delay from now, its delay is doubled up to 64 seconds from one second on, and no other delay changes |
| DifferenceTimers.AnswersMean | Telegram/SourceFiles/mainwidget.cpp:2971-3019 | Answers for the account end the request, reset the delay, and are followed by one request exactly after a slice; channels are not concerned |
| DifferenceTimers.ChannelAnswerMeans | Telegram/SourceFiles/mainwidget.cpp:2882-2949 | The answer for a channel ends its request and resets its delay; the next request goes out exactly when the answer is not final and the channel is known |
| DifferenceTimers.AskChannelMeans | Telegram/SourceFiles/mainwidget.cpp:3195-3226 | A request goes out exactly for a known channel that is not being asked, and by its origin takes the deadlines |
| DifferenceTimers.DoubledLater | Telegram/SourceFiles/mainwidget.cpp:3068-3082 | Doubling the delay after the sweep, as the code does, ends in the state of the specification, since a sweep neither reads nor writes the delays |
| DifferenceTimers.Scheduler.PtsWaiterStartTimerFor | Telegram/SourceFiles/mainwidget.cpp:3021-3066 | A changed by-pts deadline leads to a sweep, an unchanged one to nothing |
| DifferenceTimers.Scheduler.FailDifferenceStartTimerFor | Telegram/SourceFiles/mainwidget.cpp:3068-3082 | A failure sets a deadline by the current delay and doubles the delay below 64 seconds |
| Sha1.CodeIsFips | Telegram/SourceFiles/_other/packer.cpp:90-126 | For every input below 2^29 bytes the digest is that of FIPS 180-4 |
| Sha1.SamePaddingIff | Telegram/SourceFiles/_other/packer.cpp:105-116 | The padding of the code is that of section 5.1.1 of FIPS 180-4 if and only if the input is below 2^29 bytes: the length field has 32 bits |
| Sha1.ShiftIsTimesEight | Telegram/SourceFiles/_other/packer.cpp:116 | The 32-bit shift of the length by three is the number of bits without the digits beyond 32, for every length |
| Sha1.ChoiceForms | Telegram/SourceFiles/_other/packer.cpp:72-73 | The choice function written with OR equals the one of section 4.1.1, which uses exclusive or |
| Sha1.MajorityForms | Telegram/SourceFiles/_other/packer.cpp:75 | The majority function written with OR equals the one of section 4.1.1 |
| Sha1.PartHash | Telegram/SourceFiles/_other/packer.cpp:54-86 | One block, with the schedule computed in place in the buffer, is one round of the compression of section 6.1.2 |
| Sha1.ShiftShiftSwap | Telegram/SourceFiles/_other/packer.cpp:67-70 | One of rounds 16 to 79 extends the schedule and steps the registers |
| Sha1.ReadBlock | Telegram/SourceFiles/_other/packer.cpp:96-101 | Sixteen words are read big-endian from a full block |
| Sha1.ReadTail | Telegram/SourceFiles/_other/packer.cpp:106-111 | The rest of the input, OR-ed byte by byte into cleared words with the bit 0x80 behind it, is the padded tail |
| Sha1.OrIntoWords | Telegram/SourceFiles/_other/packer.cpp:108-110 | OR-ing a byte into its place of the word buffer appends it to the bytes the buffer stands for |
| Sha1.LastBlocks | Telegram/SourceFiles/_other/packer.cpp:105-117 | The last one or two blocks, split at 56 bytes, with the shifted length in the last word, hash the padded tail |
| Sha1.PaddedShort | Telegram/SourceFiles/_other/packer.cpp:112-117 | Up to 55 bytes left, the padded input is the full blocks and one more |
| Sha1.PaddedLong | Telegram/SourceFiles/_other/packer.cpp:112-117 | From 56 bytes left on it is the full blocks and two more |
| Sha1.HashSha1 | Telegram/SourceFiles/_other/packer.cpp:90-126 | The twenty output bytes are those of the hash state of the padded input, big-endian |
| Sha1.PickIsDigest | Telegram/SourceFiles/_other/packer.cpp:121-123 | The shift that selects an output byte selects the big-endian byte of its word |
| ObserverList.CursorSafety | Telegram/SourceFiles/base/observer.h:212-225 | While an event goes round and handlers subscribe, unsubscribe themselves or others: calls go up in subscription order, nobody is called twice or after being removed, and unless the list was released everybody subscribed at the end was called |
| ObserverList.EnumerateKeepsInv | Telegram/SourceFiles/base/observer.h:212-225 | The list is at all times the nodes visited followed by those not visited, with the cursor between them |
| ObserverList.ActMeans | Telegram/SourceFiles/base/observer.h:158-203 | Subscribing puts one new node at the end; giving a subscription up takes exactly its node, and the others keep their order |
| ObserverList.ReleaseIff | Telegram/SourceFiles/base/observer.h:198-202 | A removal releases the list while an event goes round if and only if it takes the last subscription and the cursor stands before it |
| ObserverList.ReleasedUnderCursor | Telegram/SourceFiles/base/observer.h:198-202 | A handler that removes itself and then the only other subscription reaches that case |
| ObserverList.LinkBack | Telegram/SourceFiles/base/observer.h:158-168 | A node appended keeps prev and next of the whole list consistent |
| ObserverList.Unlink | Telegram/SourceFiles/base/observer.h:185-197 | A node taken out keeps prev and next of the whole list consistent, with begin and end at its ends |
| ObserverList.ObservableData.RemoveNode | Telegram/SourceFiles/base/observer.h:185-203 | Removing a node moves the cursor to the node before it when it stood there, as the specification of the cursor says |
| ObserverList.ObservableData.Append | Telegram/SourceFiles/base/observer.h:158-168 | Appending puts the new node at the end of the unvisited ones |
| ObserverList.ObservableData.NotifyEnumerate | Telegram/SourceFiles/base/observer.h:212-225 | The loop over the linked nodes makes the calls of the specification in their order and leaves its list |
| ObserverList.ObservableData.MoveOn | Telegram/SourceFiles/base/observer.h:217-223 | The cursor goes to the first node not visited, or to none |
| ObserverQueue.Observables.CallHandlers | Telegram/SourceFiles/base/observer.h:275-288 | Everything posted to the observable before the call is handled when it returns, once and in posting order, whatever the handlers post, subscribe or unsubscribe; the observable lives on as long as it had subscribers, by what the handlers did, and the actions taken are exactly those of the handlers called |
| ObserverQueue.Observables.Notify | Telegram/SourceFiles/base/observer.h:250-268 | An event posted while handling or without sync is queued and registered; a sync one is handled at once after all posted before it |
| ObserverQueue.Observables.HandleObservables | Telegram/SourceFiles/base/observer.cpp:61-72 | When the delayed call returns, everything posted before it is handled and the active registry is empty; whoever had subscribers throughout is still there, with everything posted before handled |
| ObserverQueue.ProgressTransitive | Telegram/SourceFiles/base/observer.h:250-288 | Handlers nested to any depth only move the histories forward and leave a handling further up the stack alone |
| ObserverQueue.QueueStep | Telegram/SourceFiles/base/observer.h:255 | An event added for sync handling keeps every history and registration but the one of its observable |
| ObserverQueue.PostStep | Telegram/SourceFiles/base/observer.h:258-266 | Queued events are always reachable from the pending or active registry |
| ObserverQueue.AdvanceUnder | Telegram/SourceFiles/base/observer.h:277-281 | Each event taken from the batch goes to the end of what was handled; posted is handled, batch and queue in this order |
| ObserverQueue.NestedUnder | Telegram/SourceFiles/base/observer.h:278-281 | What runs inside a handler leaves the batch of the handling observable as it is |
| ObserverQueue.FinishUnder | Telegram/SourceFiles/base/observer.h:286-287 | The end of a handling leaves nothing of the batch |
| ObserverQueue.DestroyUnder | Telegram/SourceFiles/base/observer.h:227-233 | An observable without subscribers goes, with its registrations |
| ObserverQueue.EverythingHandled | Telegram/SourceFiles/base/observer.cpp:61-72 | When no registered observable is left, all that was posted before the delayed call has been handled |
| ObserverQueue.AliveIff | Telegram/SourceFiles/base/observer.h:198-202 | At rest an observable is there exactly when more subscribed to it than left, by the history of what handlers did |
| ObserverQueue.LeaveKept | Telegram/SourceFiles/base/observer.h:185-203 | Leaving keeps the count of subscribers that of the history, and takes an observable only with its last subscriber |
| ObserverQueue.DestroyKept | Telegram/SourceFiles/base/observer.h:227-233 | Releasing the data after an event ends no life that still has a subscriber |
| ObserverQueue.AdvanceKept | Telegram/SourceFiles/base/observer.h:277-286 | What counts as handled is what was handed out |
| ObserverQueue.ExecutedHanded | Telegram/SourceFiles/base/observer.h:277-286 | Handing out an event runs all its handlers do, once |
| BinaryGuard.ReachableInv | Telegram/SourceFiles/base/binary_guard.h:37-81 | For every interleaving of any guards: a cell is held by two while its flag is up and by one while it is down, and freed cells are held by nobody |
| BinaryGuard.NoUseAfterFree | Telegram/SourceFiles/base/binary_guard.h:62-73 | No step of any interleaving reads, writes or frees a cell that is not on the heap |
| BinaryGuard.TouchesTheCell | Telegram/SourceFiles/base/binary_guard.h:62-73 | The cells meant there are those of the load, the exchange and the delete, and no step changes or frees another one |
| BinaryGuard.FreedByLastHolder | Telegram/SourceFiles/base/binary_guard.h:66-73 | The delete is reached only by the last holder of the cell |
| BinaryGuard.NothingLeaks | Telegram/SourceFiles/base/binary_guard.h:66-81 | When all guards are gone every cell ever made was freed, exactly once |
| BinaryGuard.DownStaysDown | Telegram/SourceFiles/base/binary_guard.h:66-73 | A flag once down is never up again |
| BinaryGuard.AliveNeverReturns | Telegram/SourceFiles/base/binary_guard.h:62-64 | A guard that answered that it is not alive never answers otherwise for the same cell |
| BinaryGuard.PairDies | Telegram/SourceFiles/base/binary_guard.h:66-73 | When one guard of a living pair lets go, the other turns dead and the cell stays |
| BinaryGuard.Guards.IsAlive | Telegram/SourceFiles/base/binary_guard.h:62-64 | A guard is alive exactly when it has a cell whose flag is up |
| BinaryGuard.Guards.DestroyGuard | Telegram/SourceFiles/base/binary_guard.h:66-73 | destroy() as take, exchange and possibly delete |
| BinaryGuard.Guards.MakeGuard | Telegram/SourceFiles/base/binary_guard.h:75-81 | make_guard() lets go of the old cell and makes a living pair on a new one |
| BinaryGuard.Guards.MoveAssign | Telegram/SourceFiles/base/binary_guard.h:41-47 | Move assignment lets go of the old cell and takes over the other guard; self-assignment does nothing |
| ConcurrentTimer.NoStaleShot | Telegram/SourceFiles/base/concurrent_timer.cpp:282-352 | For every run of both threads: a shot scheduled before a start, an adjustment or a cancel never reaches timerEvent after it |
| ConcurrentTimer.AtMostOneLive | Telegram/SourceFiles/base/concurrent_timer.cpp:295-312 | At most one shot has a living guard, and it is the one scheduled last |
| ConcurrentTimer.DeliveredInOrder | Telegram/SourceFiles/base/concurrent_timer.cpp:314-328 | Shots reach timerEvent in the order they were scheduled, each at most once |
| ConcurrentTimer.ReachableInv | Telegram/SourceFiles/base/concurrent_timer.cpp:130-154 | Every shot is in one place on its way from being posted to being delivered, in scheduling order |
| ConcurrentTimer.CutsOff | Telegram/SourceFiles/base/concurrent_timer.cpp:282-336 | start, adjust and cancel cut off all shots scheduled before |
| ConcurrentTimer.ScheduledIff | Telegram/SourceFiles/base/concurrent_timer.cpp:282-352 | The clock is told of a new shot exactly by a start, by an adjustment of an active timer and by the delivery to an adjusted repeating one, with the start time, the remaining time and the time of the last start |
| ConcurrentTimer.RemembersIff | Telegram/SourceFiles/base/concurrent_timer.cpp:282-352 | Time and kind are those of the last start; a timer counts as adjusted exactly if it was active when adjusted and was not scheduled by a start or a repetition since |
| ConcurrentTimer.LivingShotArrives | Telegram/SourceFiles/base/concurrent_timer.cpp:130-154 | A living shot is never lost on its way: it is armed or handed on, handed on when its time comes, and delivered to timerEvent |
| ConcurrentTimer.CancelPostsNothing | Telegram/SourceFiles/base/concurrent_timer.cpp:330-336 | cancel() never tells the clock thread: its test comes after the guard is gone, so the cancelled shot stays armed there |
| ConcurrentTimer.CancelLeavesArmed | Telegram/SourceFiles/base/concurrent_timer.cpp:330-336 | The smallest run from the start that shows it: started, taken by the clock thread, cancelled, and the shot is still armed |
| ConcurrentTimer.IntervalGoesOnIff | Telegram/SourceFiles/base/concurrent_timer.cpp:314-328 | A repeating timer goes on after its callback if and only if it was adjusted since it was started: then the next shot is posted; otherwise nothing is and no guard is alive |
| ConcurrentTimer.IntervalFiresOnce | Telegram/SourceFiles/base/concurrent_timer.cpp:314-328 | The smallest run from the start that shows it: a repeating timer called back once, is inactive, and nothing is posted, armed or queued |
| ConcurrentTimer.Timer.CancelAndScheduleShot | Telegram/SourceFiles/base/concurrent_timer.cpp:295-312 | A new pair of guards, and an event for the clock thread |
| ConcurrentTimer.Timer.ProcessEvent | Telegram/SourceFiles/base/concurrent_timer.cpp:130-148 | A call for the clock thread replaces the armed shot; without a delay the closure runs at once |
| ConcurrentTimer.Timer.CallNow | Telegram/SourceFiles/base/concurrent_timer.cpp:150-154 | The armed shot goes off |
| ConcurrentTimer.Timer.DeliverShot | Telegram/SourceFiles/base/concurrent_timer.cpp:304-328 | The owner runs timerEvent only if the guard is still alive |
| ConcurrentTimer.Timer.CancelShots | Telegram/SourceFiles/base/concurrent_timer.cpp:330-336 | cancel() lets go of the guard |
| ConcurrentTimer.Timer.AdjustTime | Telegram/SourceFiles/base/concurrent_timer.cpp:346-352 | An active timer is scheduled again for the time that remains |
| TimerGuards.TimerIsGuardRun | Telegram/SourceFiles/base/concurrent_timer.cpp:295-352 | Every run of the timer on both threads is a run of the guards of binary_guard.h that ends with the same cells, holders and flags |
| TimerGuards.NextLinks | Telegram/SourceFiles/base/concurrent_timer.cpp:295-352 | Each step of the timer is matched by making a pair, letting go of guards, or nothing |
| TimerGuards.FlagsAreShared | Telegram/SourceFiles/base/concurrent_timer.cpp:295-312 | In every run a flag is up exactly while the timer holds its shot and the shot is still on its way |
| TimerGuards.CellsAreFreed | Telegram/SourceFiles/base/binary_guard.h:66-81 | In every run the cells freed are exactly those of the shots neither held by the timer nor on their way, each freed once |
| TimerGuards.PairIsMade | Telegram/SourceFiles/base/binary_guard.h:75-81 | Scheduling a shot on an idle timer is make_guard(): a new cell with its flag up, held by the timer and the shot |
| RuntimeComposer.BuildMetadata | Telegram/SourceFiles/base/runtime_composer.h:98-117 | For every mask and all positive sizes and alignments the loop builds a good layout: aligned offsets with least padding, size at the end of the last component, last bounding all bits tightly |
| RuntimeComposer.ComponentInside | Telegram/SourceFiles/base/runtime_composer.h:98-117 | A component has an offset exactly when it is there, aligned, behind the pointer and inside the buffer |
| RuntimeComposer.ComponentsDisjoint | Telegram/SourceFiles/base/runtime_composer.h:104-109 | Two components never overlap |
| RuntimeComposer.OffsetsAgree | Telegram/SourceFiles/base/runtime_composer.h:98-117 | Mask and component types determine every offset |
| RuntimeComposer.BelowBit | Telegram/SourceFiles/base/runtime_composer.h:112 | The comparison of the mask, as a number, with a bit says exactly that no bit from there on is set: this decides the test of the layout loop |
| RuntimeComposer.PatchHolds | Telegram/SourceFiles/base/runtime_composer.h:205-210 | Writing one component changes that component and no other |
| RuntimeComposer.Construct | Telegram/SourceFiles/base/runtime_composer.h:144-176 | A new buffer holds the initial value of every component in the mask |
| RuntimeComposer.MoveShared | Telegram/SourceFiles/base/runtime_composer.h:202-211 | After the loop every component in both layouts has its old value and the others their initial one |
| RuntimeComposer.Composer.UpdateComponents | Telegram/SourceFiles/base/runtime_composer.h:193-214 | A changed mask keeps the value of each component in both masks and default-constructs exactly the new ones; an unchanged one changes nothing |
| RuntimeComposer.Composer.AddComponents | Telegram/SourceFiles/base/runtime_composer.h:215-217 | The union of masks, with the same effect; changed exactly when something is new |
| RuntimeComposer.Composer.RemoveComponents | Telegram/SourceFiles/base/runtime_composer.h:218-220 | The difference of masks, with the same effect; changed exactly when something goes |
| RuntimeComposer.Composer.Has | Telegram/SourceFiles/base/runtime_composer.h:258-260 | The offset test answers whether the component is there |
| RuntimeComposer.OnlyStayersKeepValues | Telegram/SourceFiles/base/runtime_composer.h:193-220 | After any sequence of changes of the mask a component is there exactly when it is in the last mask, with its old value if it was there from the start through every change, and its initial value otherwise |
| StripComments.StripText | Telegram/SourceFiles/base/parse_helper.cpp:14-98 | The lazily copying loop computes what a plain character-by-character machine does |
| StripComments.Advance | Telegram/SourceFiles/base/parse_helper.cpp:39-85 | One round of the loop is one step of the machine |
| StripComments.FeedContent | Telegram/SourceFiles/base/parse_helper.cpp:25-31 | Content not yet copied is copied as it is |
| StripComments.FeedComment | Telegram/SourceFiles/base/parse_helper.cpp:32-38 | A stretch of comment becomes one space |
| StripComments.StripKeepsLines | Telegram/SourceFiles/base/parse_helper.cpp:54-81 | Every text keeps its number of line ends |
| StripComments.StripIsClean | Telegram/SourceFiles/base/parse_helper.cpp:14-98 | No comment starts outside strings in any output |
| StripComments.FixedIffClean | Telegram/SourceFiles/base/parse_helper.cpp:90-96 | A text is returned unchanged if and only if no comment starts in it outside strings |
| StripComments.StripTwice | Telegram/SourceFiles/base/parse_helper.cpp:14-98 | Stripping is idempotent |
| StripComments.LineCommentLeaves | Telegram/SourceFiles/base/parse_helper.cpp:54-65 | Behind any text without comments, open strings or a slash at its end: a // comment with its line end leaves one space and the line end, and what follows is stripped as a text of its own |
| StripComments.LastLineCommentLeaves | Telegram/SourceFiles/base/parse_helper.cpp:54-96 | A // comment at the end of the text leaves nothing |
| StripComments.BlockCommentLeaves | Telegram/SourceFiles/base/parse_helper.cpp:66-73 | A block comment within a line leaves one space, and what follows is stripped as a text of its own |
| StripComments.LongCommentLeaves | Telegram/SourceFiles/base/parse_helper.cpp:66-81 | A block comment of several lines leaves its line ends, and a space for each line that was not empty and for the last one |
| StripComments.OpenCommentLeaves | Telegram/SourceFiles/base/parse_helper.cpp:66-96 | A block comment that is not closed leaves nothing |
| StripComments.LongOpenCommentLeaves | Telegram/SourceFiles/base/parse_helper.cpp:66-96 | A block comment of several lines that is not closed leaves its line ends and a space for each line that was not empty |
| StripComments.FirstComment | Telegram/SourceFiles/base/parse_helper.cpp:54-69 | Every text that is not comment-free has a first comment behind such a text, so the cases above cover all texts |
| StripComments.QuotesToggle | Telegram/SourceFiles/base/parse_helper.cpp:43-49 | A quote opens or closes a string unless a backslash is before it that has none before it |
| MessageData.EveryCallbackOnce | Telegram/SourceFiles/apiwrap.cpp:493-616 | In every run no callback runs twice; once nothing is in flight or queued no callback waits, and then every callback has run if and only if none that ran asked for its own message |
| MessageData.EveryAskIsGiven | Telegram/SourceFiles/apiwrap.cpp:493-499 | In every run the callbacks given, message by message, are exactly those that the steps and the callbacks that ran asked with |
| MessageData.RequestMeans | Telegram/SourceFiles/apiwrap.cpp:493-499 | Every ask leaves an entry for its message, queued unless a request was sent for it, with the callback in it |
| MessageData.SendIff | Telegram/SourceFiles/apiwrap.cpp:529-571 | A request goes out for a channel exactly when a message of it waits without one, and it is for all of these |
| MessageData.ReachableFair | Telegram/SourceFiles/apiwrap.cpp:597-616 | A callback is lost in a run if and only if some callback that ran had asked, with a callback, for the message it was called for |
| MessageData.AskingAgainIsLost | Telegram/SourceFiles/apiwrap.cpp:597-616 | The smallest run in which one is lost |
| MessageData.RequestKeepsInv | Telegram/SourceFiles/apiwrap.cpp:493-499 | An ask keeps the books: every waiting callback is in the one entry it was given for, and an entry without a request has a resolve queued |
| MessageData.SendKeepsInv | Telegram/SourceFiles/apiwrap.cpp:538-562 | The ids sent for a channel are exactly the entries then tagged with that request |
| MessageData.ResolveKeepsInv | Telegram/SourceFiles/apiwrap.cpp:525-566 | A resolve leaves no entry without a request |
| MessageData.RunOneKeepsRunning | Telegram/SourceFiles/apiwrap.cpp:604-606 | A callback that asks for more while it runs disturbs no other waiting callback |
| MessageData.EraseKeepsInv | Telegram/SourceFiles/apiwrap.cpp:607 | Erasing the entry loses exactly the callbacks added to it since its callbacks began to run |
| MessageData.FinishAtCursor | Telegram/SourceFiles/apiwrap.cpp:602-611 | Dealing with the entry at the cursor is a step of dealing with the whole answer |
| MessageData.ApiWrap.RequestMessageData | Telegram/SourceFiles/apiwrap.cpp:493-499 | The method does what the specification of an ask says |
| MessageData.ApiWrap.CollectMessageIds | Telegram/SourceFiles/apiwrap.cpp:501-509 | The ids without a request, and no others |
| MessageData.ApiWrap.SendChannel | Telegram/SourceFiles/apiwrap.cpp:545-563 | One request for the ids collected, and its id in their entries |
| MessageData.ApiWrap.ResolveMessageDatas | Telegram/SourceFiles/apiwrap.cpp:525-566 | All channels are gone through |
| MessageData.ApiWrap.FinalizeMessageDataRequest | Telegram/SourceFiles/apiwrap.cpp:597-616 | The loop over the ordered map, changed by the callbacks it runs, deals with exactly the entries of the request |
| FileReferences.EveryHandlerOnce | Telegram/SourceFiles/apiwrap.cpp:3018-3099 | In every run: one request in flight per origin with handlers, nothing runs twice, every request is answered for a batch with the additional action right after the first handler exactly when the origin has one, and with nothing in flight everything given has run |
| FileReferences.EveryAskRuns | Telegram/SourceFiles/apiwrap.cpp:3018-3099 | In every run what was asked for is what the steps and the handlers that ran asked for; each ask made one item with its handler and origin, in the order of the asks, and the other items are the savers; with no request on its way every ask has had its handler run, once |
| FileReferences.RunsAtOnceIff | Telegram/SourceFiles/apiwrap.cpp:3081-3106 | A handler runs at once exactly when what its origin names is unknown; otherwise it waits for the answer |
| FileReferences.AnswerRunsTheBatch | Telegram/SourceFiles/apiwrap.cpp:3052-3058 | An answer runs everything that waited for it, in the order it was pushed |
| FileReferences.RefreshKeepsInv | Telegram/SourceFiles/apiwrap.cpp:3081-3099 | A request, with handlers called at once for origins that cannot be asked for and all they ask in turn, keeps the invariant |
| FileReferences.CallAllKeepsInv | Telegram/SourceFiles/apiwrap.cpp:3056-3058 | Handlers asking again while a batch runs start a new batch; nothing of the running one is lost |
| FileReferences.TakeOutKeepsInv | Telegram/SourceFiles/apiwrap.cpp:3052-3055 | The batch leaves the map before it runs |
| FileReferences.SaverKeepsInv | Telegram/SourceFiles/apiwrap.cpp:3091-3099 | The additional action is added to a batch of one, once |
| FileReferences.StartKeepsInv | Telegram/SourceFiles/apiwrap.cpp:3022-3031 | A new origin gets its one request |
| FileReferences.ApiWrap.RequestFileReference | Telegram/SourceFiles/apiwrap.cpp:3018-3031 | The method does what the specification of a request says |
| FileReferences.ApiWrap.RefreshFileReference | Telegram/SourceFiles/apiwrap.cpp:3081-3099 | The same for a refresh, by kind of origin |
| FileReferences.ApiWrap.RequestDone | Telegram/SourceFiles/apiwrap.cpp:3031-3067 | The same for an answer, done or failed |
| ReadRequests.LargestMarkIsSent | Telegram/SourceFiles/apiwrap.cpp:6046-6073 | In every run, per peer: at most one request is open, marks wait only behind one, nothing is sent that was not asked for, and with none open the largest mark asked for was sent |
| ReadRequests.EveryReadArrives | Telegram/SourceFiles/apiwrap.cpp:6046-6073 | In every run nothing is sent that no history read calls for; with no request of a peer open, a mark as large as each one called for was sent |
| ReadRequests.AskedIffWanted | Telegram/SourceFiles/apiwrap.cpp:6046-6061 | Exactly the marks of the histories read are asked for, those of the chats they were migrated from included, but none for an empty history or a channel one is not in |
| ReadRequests.AskKeepsInv | Telegram/SourceFiles/apiwrap.cpp:6064-6072 | The largest mark asked for is the larger of the largest sent and the waiting one |
| ReadRequests.FinishedKeepsInv | Telegram/SourceFiles/apiwrap.cpp:6130-6135 | The end of a request sends the waiting mark and keeps that balance |
| ReadRequests.LargestMeans | Telegram/SourceFiles/apiwrap.cpp:6064-6072 | The largest of the marks of a peer, as an upper bound that is reached |
| ReadRequests.ApiWrap.ReadServerHistoryForce | Telegram/SourceFiles/apiwrap.cpp:6046-6073 | The method does what the specification says, the chat a channel was migrated from included |
| ReadRequests.ApiWrap.ReadRequestFinished | Telegram/SourceFiles/apiwrap.cpp:6130-6135 | The handler of an answer takes the waiting mark and sends it |
| FlatMap.GroupsDetermine | Telegram/SourceFiles/base/flat_map.h:392-465 | A sorted deque is determined by the sequence of values of each key, so the laws on those sequences are complete |
| FlatMap.FlatMultiMap.Insert | Telegram/SourceFiles/base/flat_map.h:392-402 | The value goes behind those its key has; nothing else changes |
| FlatMap.FlatMultiMap.RemoveOne | Telegram/SourceFiles/base/flat_map.h:419-431 | The first value of the key goes, if there is one; nothing else changes |
| FlatMap.FlatMultiMap.RemoveAll | Telegram/SourceFiles/base/flat_map.h:432-446 | All values of the key go; the count is returned |
| FlatMap.FlatMultiMap.FindFirst | Telegram/SourceFiles/base/flat_map.h:457-465 | The first value of the key is found exactly when there is one |
| FlatMap.InsertedGroup | Telegram/SourceFiles/base/flat_map.h:392-402 | Inserting after the equal keys puts the value at the end of its group and leaves the other groups |
| FlatMap.ErasedGroup | Telegram/SourceFiles/base/flat_map.h:419-446 | Erasing a stretch of one key shortens its group from the front and leaves the other groups |
| FlatMap.UniqueKeepsFirsts | Telegram/SourceFiles/base/flat_map.h:805-815 | finalize() keeps the first value of each key |
| FlatMap.UniqueStrict | Telegram/SourceFiles/base/flat_map.h:805-815 | finalize() leaves strictly sorted keys |
| FlatMap.FlatMap.FromSorted | Telegram/SourceFiles/base/flat_map.h:636-642 | A map made from a range has each key of it once |
| FlatMap.FlatMap.Insert | Telegram/SourceFiles/base/flat_map.h:661-674 | Refines insertion into a mathematical map: the first value of a key stays |
| FlatMap.FlatMap.InsertOrAssign | Telegram/SourceFiles/base/flat_map.h:689-705 | Refines the update of a mathematical map |
| FlatMap.FlatMap.At | Telegram/SourceFiles/base/flat_map.h:779-792 | operator[] adds a default value for a new key and gives the value of the key |
| FlatMap.FlatMap.Remove | Telegram/SourceFiles/base/flat_map.h:768-770 | Refines removal from a mathematical map |
| FlatMap.FlatMap.Find | Telegram/SourceFiles/base/flat_map.h:772-777 | Finds the pair of the key exactly when the map has it |
| FlatMap.FlatMap.Take | Telegram/SourceFiles/base/flat_map.h:794-802 | Gives the value of the key, if any, and removes it |
| FlatMap.InsertedContents | Telegram/SourceFiles/base/flat_map.h:661-674 | Where the key belongs, an insertion adds one pair to the map and keeps the keys strictly sorted |
| FlatMap.ErasedContents | Telegram/SourceFiles/base/flat_map.h:419-431 | An erasure takes one key out of the map and keeps the keys strictly sorted |
| FlatMap.LowerBoundDecides | Telegram/SourceFiles/base/flat_map.h:670-673 | The lower bound holds the key, or is where it belongs and the key is absent |
| FlatSet.MultisetDetermines | Telegram/SourceFiles/base/flat_set.h:250-313 | A sorted deque is determined by its multiset |
| FlatSet.SetDetermines | Telegram/SourceFiles/base/flat_set.h:605-661 | A strictly sorted deque is determined by its set |
| FlatSet.FlatMultiSet.Insert | Telegram/SourceFiles/base/flat_set.h:250-260 | Adds one to the multiset and stays sorted |
| FlatSet.FlatMultiSet.RemoveOne | Telegram/SourceFiles/base/flat_set.h:277-289 | Takes one from the multiset if it is there |
| FlatSet.FlatMultiSet.FindFirst | Telegram/SourceFiles/base/flat_set.h:315-323 | The first of the equal elements is found exactly when there is one |
| FlatSet.FlatMultiSet.Merge | Telegram/SourceFiles/base/flat_set.h:398-409 | Merging adds the multisets |
| FlatSet.FlatSet.Insert | Telegram/SourceFiles/base/flat_set.h:605-618 | Refines insertion into a set, and says whether it was new |
| FlatSet.FlatSet.Remove | Telegram/SourceFiles/base/flat_set.h:640-642 | Refines removal from a set, and says whether it was there |
| FlatSet.FlatSet.Find | Telegram/SourceFiles/base/flat_set.h:644-649 | Finds the element exactly when the set has it |
| FlatSet.FlatSet.Merge | Telegram/SourceFiles/base/flat_set.h:692-703 | Merging is the union of the sets |
| FlatSet.UniqueElements | Telegram/SourceFiles/base/flat_set.h:706-716 | finalize() keeps the set and makes the deque strictly sorted |
| FeedMessages.FeedMsgs | Telegram/SourceFiles/app.cpp:231-250 | Every message that survives the filter is added exactly once, in the order of a stable sort by unsigned 32-bit id |
| FeedMessages.StableSortIsUnique | Telegram/SourceFiles/app.cpp:231-250 | There is only one such order |
| FeedMessages.PositionOrders | Telegram/SourceFiles/app.cpp:245 | The packed key orders by id first and by index second |
| FeedMessages.IndexedMore | Telegram/SourceFiles/app.cpp:233-246 | Each survivor gets a key of its own in the map |
| PeerUpdates.FlushSendsAll | Telegram/SourceFiles/observer_peer.cpp:73-89 | A flush sends one update per peer posted for since the last one, merged from all of them, and what handlers post meanwhile waits for the next; an empty short list means that nothing waits |
| PeerUpdates.QueuedAfterIff | Telegram/SourceFiles/observer_peer.cpp:73-89 | After a flush a call is queued exactly when another one was, or a handler posted meanwhile |
| PeerUpdates.NoFlagIsLost | Telegram/SourceFiles/observer_peer.cpp:42-89 | In every run each peer waits in one place, what waits is queued to be sent, and every flag ever posted for a peer was sent or waits |
| PeerUpdates.MergedMeans | Telegram/SourceFiles/observer_peer.cpp:33-40 | The merged update has the union of the flags and the name letters of the first update that changed the name |
| PeerUpdates.PostKeepsInv | Telegram/SourceFiles/observer_peer.cpp:42-70 | A post keeps the short list and the map disjoint, the map in use only behind a full list of five, and every waiting update merged from its posts |
| PeerUpdates.PostWaits | Telegram/SourceFiles/observer_peer.cpp:48-69 | A post merges into what waits for its peer, or starts waiting, and touches no other peer |
| PeerUpdates.BatchIsMerged | Telegram/SourceFiles/observer_peer.cpp:76-83 | What is taken out to be sent is exactly the merged updates, one per peer |
| PeerUpdates.NothingWaits | Telegram/SourceFiles/observer_peer.cpp:74 | With an empty short list nothing was posted |
| PeerUpdates.Updates.PeerUpdatedDelayed | Telegram/SourceFiles/observer_peer.cpp:42-70 | The method does what the specification of a post says |
| PeerUpdates.Updates.PeerUpdatedSendDelayed | Telegram/SourceFiles/observer_peer.cpp:73-89 | The method does what the specification of a flush says, with the handlers posting in between |
| LastUsedCache.RunMatches | Telegram/SourceFiles/base/last_used_cache.h:30-67 | After any history of operations the cache holds what the history says, each entry once, in the order of last use |
| LastUsedCache.LowestIsOldest | Telegram/SourceFiles/base/last_used_cache.h:59-67 | The entry taken next was last used before every other entry held |
| LastUsedCache.Cache.Up | Telegram/SourceFiles/base/last_used_cache.h:30-41 | Using an entry moves its node to the end or adds one, with the index naming the one node of each entry |
| LastUsedCache.Cache.Remove | Telegram/SourceFiles/base/last_used_cache.h:44-50 | Removing takes the node and its index entry, if there is one |
| LastUsedCache.Cache.Clear | Telegram/SourceFiles/base/last_used_cache.h:53-56 | Clearing empties list and index |
| LastUsedCache.Cache.TakeLowest | Telegram/SourceFiles/base/last_used_cache.h:59-67 | The front entry is given and taken, the default entry for an empty cache |
| Settings.ReachableRoundTrip | Telegram/SourceFiles/auth_session.cpp:49-281 | Whatever one session set and whatever another session had set before it reads, the stream of the first gives all its settings back |
| Settings.ReachableProper | Telegram/SourceFiles/auth_session.cpp:307-329 | Every sequence of changes from the defaults, by setters called with values the client offers and by reading any streams, malformed ones included, ends in proper settings |
| Settings.ChangeKeepsProper | Telegram/SourceFiles/auth_session.cpp:307-329 | Each single change keeps settings proper; the two third sections exclude each other through the mutual calls |
| Settings.SettersSet | Telegram/SourceFiles/auth_session.cpp:307-329 | Each of the two setters sets its section, disables the other one only when enabling, and leaves everything else alone |
| Settings.RoundTripIff | Telegram/SourceFiles/auth_session.cpp:49-281 | For each reader with proper settings of its own: it ends with every setting written, the ratio to the nearest millionth, if and only if the settings written are proper: known enumeration values and not both third sections enabled |
| Settings.CutStreamParses | Telegram/SourceFiles/auth_session.cpp:134-211 | A stream that ends after any group is read without error, and gives the settings in it and the defaults or former values of the others |
| Settings.BrokenStreamIsIgnored | Telegram/SourceFiles/auth_session.cpp:134-216 | A stream that ends within a group changes no setting |
| Settings.RatioIsNearest | Telegram/SourceFiles/auth_session.cpp:79-82 | A ratio comes back within half a millionth |
| Settings.RewriteIsSame | Telegram/SourceFiles/auth_session.cpp:49-99 | Writing again what was read gives the same stream |
| Settings.ParseKeepsProper | Telegram/SourceFiles/auth_session.cpp:212-281 | Whatever the stream, even a malformed one, proper settings stay proper |
| SettingsStream.ReadBack | Telegram/SourceFiles/auth_session.cpp:134-211 | Reading up to any group consumes exactly what was written for the groups before |
| SettingsStream.PairsBack | Telegram/SourceFiles/auth_session.cpp:139-149 | The sound overrides come back whatever the order they were written in |
| SettingsStream.Reader.All | Telegram/SourceFiles/auth_session.cpp:134-211 | The reading calls in their order do what the specification of the reader says, the stop at the end and at the first error included |
| Settings.AuthSessionSettings.Serialize | Telegram/SourceFiles/auth_session.cpp:49-99 | The statements that write one value after another produce the stream that the round trip is about |
| Settings.AuthSessionSettings.ConstructFromSerialized | Telegram/SourceFiles/auth_session.cpp:101-281 | The assignments, field by field behind their checks, leave the settings the specification of the reader says, and no change after an error |
| Settings.AuthSessionSettings.SetTabbedSelectorSectionEnabled | Telegram/SourceFiles/auth_session.cpp:307-313 | Enabling the tabbed section disables the info section, through the mutual call |
| Settings.AuthSessionSettings.SetThirdSectionInfoEnabled | Telegram/SourceFiles/auth_session.cpp:320-329 | Enabling the info section disables the tabbed section, and the replacement mark is cleared exactly on a change |

## Left out

- Sha1.HashSha1: does not cover inputs from 2^32 - 64 bytes on, where the 32-bit loop condition wraps around and the loop runs past the data.
- Sha1.CodeIsFips: the converse is stated on the padded input (`Sha1.SamePaddingIff`), not on the digest, since different inputs may share a digest.
- ObserverList.ObservableData.NotifyEnumerate: states nothing about the list after it was released while the event went round; what follows there is outside the language the source is written in.
- ObserverQueue.Observables.HandleObservables: is never entered from inside a handler.
- UpdateSequence.OrderIndependence: is stated for tiles whose application asks for no difference and while none is requested, since a request empties the buffer.
- BinaryGuard.ReachableInv: one guard object is used by one thread at a time; the two guards of a pair may be on different threads.
- FlatMap.FlatMap.FromSorted: the library's sort does not keep the order of equal keys, so the sorted sequence is an argument.
- MessageData.ApiWrap.FinalizeMessageDataRequest: callbacks added to an entry while its callbacks run lie behind the end of the running loop; a list that moves in memory under that loop is not modelled.
- Settings.CutStreamParses: streams are sequences of typed values, so a number read where text was written is an error here and a reinterpretation of bytes in the source.
- The waiter for points (`PtsWaiter`): an outcome per short packet and a flag for the request.
- Liveness: that timers go off and answers come is not stated, only what follows when they do; and one handler reads the clock once.
- ObserverQueue.AliveIff: subscriptions are counted; that the data may go while an event goes round, in the case of `ObserverList.ReleaseIff`, is not part of this module.
- `MainWidget` is the active one throughout, and users, chats, short-sent-message bookkeeping and the other kinds of updates have no effect on what is modelled.
- Wrap-around of sequence numbers, times, ids of requests and counters: they are unbounded here, except in `Sha1` and in the packing of message ids.
- Default-handled errors, which leave a request without an effect on the state.
- Cached layouts, exceptions thrown by component constructors, and the reservation of capacity.
- The characters before the first one of the text: there is no preceding backslash.
- `flat_set::modify` and `flat_multi_set::modify`, which do not keep the order in general; `removeAll` and `count` of the sets; comparators other than `<`; iterators other than positions.
- The pointers inside `std::list`: nodes keep their identity, and the list is the sequence of its nodes.
- The observable through which peer updates are sent, when it is itself handling an event: each notification is then queued there, after it left this component.
- Downloads settings are opaque bytes that are accepted or not.
- User interface, painting, windows, logging, files, updaters, compression, signatures: input and output around these components.
