# JingClaw core: a Dafny model

JingClaw keeps conversations with a language model as append-only event logs and serves them to
terminals, browsers and chat channels. This project models the parts of its core whose behaviour
spans several steps or several processes, and proves what they keep.

`dafny verify dfyconfig.toml` checks everything.

## What is modelled

**Conversations** (`Domain`, `Placement`, `Grouping`, `Folds`, `Conversation`). The messages shown to a
model are rebuilt from the log by a builder with two flush buffers and a queue of held questions.
`Placement` says where each event lands, `Grouping` how placed items become messages, and the class in
`Conversation` is proved to compute exactly that for every log. Four lemmas settle the fate of a
question: placed when its run starts, dropped when its run ends without starting, last for its own run,
hidden from any other.

**Compaction and retention** (`Estimate`, `Compaction`, `Calls`, `Tiling`, `Meanwhile`, `Retention`, `History`,
`Shown`, `Counterexamples`, `Overlaps`). Compaction picks a cut in the derived messages and records a position in the log.
The main theorem says exactly when rebuilding after the fold gives the old conversation with one slice
replaced by its summary. `Meanwhile` carries it over what other runs append while the summary is
written, on a run's first turn (it compacts before it records that it is running) as on any other.
`History` runs any sequence of events, compactions, prunes and workers, with anything at all between the
measuring and the recording of a compaction; `Shown` says what is then shown and what is lost. Five things
the code promises do not always hold, and the project says exactly when:

- A run that is resumed after an approval rejoins its conversation without taking its turn
  (`core/internal/runtime/runtime.go:263-267`, `core/internal/runtime/approval.go:175-236`), so it may compact beside
  the next run, and the later record may have been planned for folds that no longer stand. The folds go on covering
  the log if and only if each of them, as it is recorded, goes on from those that then stand (`FoldsTileIff`,
  `ContinuesIff`), they never fall back if and only if each reaches as far as those (`NeverFallsBackIff`), and while they
  cover the log nothing discarded is lost if and only if none ends before something discarded (`NeverLostIff`). `AFoldFallsBack` and
  `AGapIsLost` are histories in which events are in the end neither in the log nor in a fold.
- That nothing is outstanding when a run compacts (`core/internal/runtime/compaction.go:62-69`) is true of that run's
  own calls alone: `core/internal/runtime/conversation.go:651-656` looks at no other's. A fold past a call another run has open leaves that
  run a result without its call (`FoldNeverPartsIff`, `AResultStandsAlone`).
- A question that waited behind another run keeps its early number but is placed late. A fold whose
  last message is later in the log than such a question loses it (`FoldCommutesIff`). In `AQuestionIsLost`
  the run that loses it is the one that was asked, just before its first turn.
- A question that is still waiting when another run's fold is recorded is shown to its run if and only if
  it was asked after the point the fold reaches (`WaitingSurvivesIff`); otherwise it is shown to nobody
  for as long as the folds reach it (`NeverShownAgain`, `SwallowedForGood`, and `AWaitingQuestionIsSwallowed` for a log).
- `safeCut` looks at the last fold of the whole log. When that is a worker's, events of the
  conversation that were never folded are discarded (`SafeForOthersIff`,
  `AWorkersFoldDiscardsTheConversation`), against the comment that discarding never touches what a
  rebuild still reads.

**Sign-in** (`Credentials`, `Rotation`, `RotationSafety`, `Issued`). Processes share one record file and one lock
file, and the service replaces the refresh token when it likes (section 6 of RFC 6749). The class
`Auth` has the critical sections; the step system interleaves them with the service's answers.

**Following a log** (`Hub`, `EventStore`, `Following`, `CatchingUp`, `StartingOver`). A publisher appends, then takes a snapshot, then
signals through channels of capacity one; a subscriber drains, then sleeps. The check that tells a
client of one session to start over compares its cursor with the oldest entry kept, but folds are kept
however old they are; `GapUnnoticedIff` says when a gap goes unmentioned and `AGapGoesUnnoticed` shows one.
The check for the whole log uses a watermark and has no such gap, but as the watermark rises past folds that are kept
a client can be told to start over with nothing gone (`ToldForNothingIff`, `AFoldIsEnough`).

**Config edits** (`TomlString`, `ConfigText`, `ConfigEdit`, `ConfigReading`, `ConfigTidy`,
`ConfigLists`, `ConfigListReading`, `ConfigItems`, `ConfigComments`, `ConfigPatch`). Edits of settings and of lists of tables,
by offset on the operator's text, in any mixture: `Patch` changes what the text says of the names edited and
of nothing else, and keeps the operator's comments. The text is any text made of headings, one-line settings, comments and blanks; one `char`
is one Unicode scalar value.

**Retry** (`Retry`). Attempts and the waiting budget carried from opening a stream into reading it. The
provider, the clock and the dice are scripts, so every behaviour of theirs is covered. An error that would
be tried again is given up on with attempts left exactly when the call that was to replace a failed stream
was refused with it (`Recv`, and `AReadEndsEarly` for a provider): the comment on covering both moments,
`core/internal/provider/retry.go:82-93`, does not mention that.

**Dashboard sign-in** (`Throttle`, `Browsers`, `SigningIn`). The guess throttle with its time bound, and pairing
codes, sessions and setup sessions with their expiry. `GuessRate` bounds every way of timing
wrong guesses, bursts and pauses included.

**Gateway and processes** (`Ingress`, `Admission`, `Streaming`, `RunSummary`, `Accounting`, `RingBuffer`). Racing and
redelivered messages over a write-once link table and an atomic claim, with the daemon restarting between
any two steps; answers streamed as growing versions; what a run's summary counts; the output ring buffer.
Two things do not survive a restart, and the project says exactly when:

- The comment at `core/internal/gateway/ingress.go:215-217` says that no session runs a turn under the wrong
  profile. Links are on disk and profiles in memory, and a session found through a link is not bound again, so
  a turn runs unbound exactly when its conversation was linked before the last restart (`UnboundIff`,
  `AProfileIsForgotten`).
- A message whose claim is taken and whose turn does not start is answered as a duplicate ever after
  (`ClaimedWithoutARunIff`, `AMessageIsLost`).

`Wrappers` has what several modules share.

## Model

| member | source | states |
|---|---|---|
| Conversation.ConversationBuilder.FlushAssistant | core/internal/runtime/conversation.go:504-525 | closes an open assistant turn as one message and changes nothing else; at most one of the two buffers is filled before and after |
| Conversation.ConversationBuilder.FlushResults | core/internal/runtime/conversation.go:527-540 | closes gathered tool results as one message and changes nothing else |
| Conversation.ConversationBuilder.Discard | core/internal/runtime/conversation.go:589-597 | exactly the questions of one run are forgotten, the others keep their order |
| Conversation.ConversationBuilder.Release | core/internal/runtime/conversation.go:601-614 | exactly the questions of one run are placed, in the order they came, each closing whatever is open |
| Conversation.ConversationBuilder.Apply | core/internal/runtime/conversation.go:220-284 | after any event the fields hold what placing and grouping the whole history gives, with at most one buffer filled |
| Conversation.ConversationBuilder.Finished | core/internal/runtime/conversation.go:542-556 | the conversation is the folds, then the grouped items of everything placed for the run that asks |
| Conversation.EventsVisibleTo | core/internal/runtime/conversation.go:792-833 | a worker sees its own events and nobody else sees a worker's |
| Conversation.BuildBoundedConversation | core/internal/runtime/conversation.go:79-124 | the fast, stateful rebuild equals the definition of a conversation over what the run may read, and reports how far the folds reach |
| Folds.FoldsIn | core/internal/runtime/conversation.go:136-152 | the standing folds, computed in place |
| Folds.StandsIff | core/internal/runtime/conversation.go:136-152 | a fold stands if and only if no later fold begins at or before its own start |
| Folds.StandingStartsIncrease | core/internal/runtime/conversation.go:136-152 | standing folds have strictly increasing starts, for every log |
| Folds.OpensWithItsSummaries | core/internal/runtime/conversation.go:105-120 | a rebuilt conversation opens with one message from the user for each standing fold, which says that it is a summary, gives it, and has the range of the fold |
| Placement.WaitingIffUnsettled | core/internal/runtime/conversation.go:220-245 | a question waits if and only if its run has done nothing since it was asked |
| Placement.KeepsItsPlace | core/internal/runtime/conversation.go:601-614 | until its run does something a question keeps its rank among that run's questions, whatever other runs do |
| Placement.TracedAtMostOnce | core/internal/runtime/conversation.go:220-284 | no event is both placed and waiting, or placed twice |
| Placement.PlacedWhenItsRunStarts | core/internal/runtime/conversation.go:220-245 | when the run's first other event is not its end, its question is one message, directly after everything placed before that event and the run's earlier questions, and appears nowhere else |
| Placement.DroppedWhenItsRunEnds | core/internal/runtime/conversation.go:578-597 | when the run's first other event is its end, the question appears nowhere, for every asking run |
| Placement.TakenBack | core/internal/runtime/conversation.go:576-597 | a question whose run is completed, cancelled or failed before it did anything else is shown to no run and stays out for good, the three endings named one by one |
| Placement.LetInByItsRun | core/internal/runtime/conversation.go:220-245 | a question whose run is recorded as running, waiting or being cancelled, says or calls something, gets a result or finishes a turn is from then on one message with its content and trust, at that place |
| Placement.SaidAtOnce | core/internal/runtime/conversation.go:236-245 | what is said outside any run waits for none: one message with its content and trust, directly after everything placed before it, and nowhere else |
| Placement.PlacedLastForTheRunAsking | core/internal/runtime/conversation.go:542-556 | a question still waiting is placed last for its own run, behind everything placed, once |
| Placement.NotShownToAnotherRun | core/internal/runtime/conversation.go:542-556 | a question still waiting appears nowhere in another run's conversation |
| Placement.ReplayAfter | core/internal/runtime/conversation.go:105-123 | replaying only the events after a point places and leaves waiting exactly what is after that point |
| Placement.PlacedAfter | core/internal/runtime/conversation.go:105-123 | the items of a replay that begins later are the items of the whole replay after that point |
| Placement.PlacedOrdered | core/internal/runtime/conversation.go:220-284 | everything but a question comes after whatever is placed before it in log order |
| Placement.ReplayConserves | core/internal/runtime/conversation.go:246-283 | for every log, the rebuilt text, tool requests and tool results are those of the log, in order, each once |
| Grouping.GroupConserves | core/internal/runtime/conversation.go:504-556 | grouping items into messages neither loses, repeats nor reorders anything of a kind |
| Grouping.TurnsAreTextThenCalls | core/internal/runtime/conversation.go:504-525 | every assistant turn is words, if there are any, and then the calls, and none is empty |
| Grouping.GroupAroundSaid | core/internal/runtime/conversation.go:617-621 | a question splits the conversation: what is before and after it groups on its own |
| Grouping.CutCommutesIff | core/internal/runtime/compaction.go:184-212 | cutting the messages and cutting the items by log position agree if and only if the position separates the items before the cut from the messages after it |
| Grouping.IncreasingSeparates | core/internal/runtime/compaction.go:184-212 | messages that end later and later are separated by any cut |
| Estimate.EstimateMessages | core/internal/runtime/compaction.go:397-428 | the loop computes the sum of the estimates, which `SizeLaw` ties to the bytes |
| Estimate.SizeLaw | core/internal/runtime/compaction.go:381-428 | four times the estimate of any messages is at least the bytes of all their texts, call names, call arguments, tool names and results and sixteen a message, and at most three more for each such text |
| Estimate.ChooseCut | core/internal/runtime/compaction.go:230-256 | the walk back, the step forward off tool results and the fallback compute the cut, on every list (-1 on the empty one) |
| Estimate.CutIsATurn | core/internal/runtime/compaction.go:230-256 | on a non-empty list the cut is inside it and, above 0, never at a tool message |
| Estimate.CutFitsAndIsMaximal | core/internal/runtime/compaction.go:230-256 | when some turn with what follows it fits, the kept tail fits, and every longer tail that begins with a turn does not |
| Estimate.OtherwiseTheLastTurn | core/internal/runtime/compaction.go:247-255 | when none fits, what is kept is the last turn and the results after it |
| Compaction.FoldHead | core/internal/runtime/compaction.go:215-221 | counts the folds in front |
| Compaction.HeadIsTheFolds | core/internal/runtime/compaction.go:215-221 | in a rebuilt conversation that count is the number of standing folds |
| Compaction.PlanInside | core/internal/runtime/compaction.go:184-212 | a plan folds a non-empty slice that ends before the last message and advances past everything folded |
| Compaction.CompactIfNeeded | core/internal/runtime/compaction.go:74-125 | what is recorded, if anything, as a function of what the run may read, the budget and the summary; `OverlongIsCompacted` and `WhatFitsIsLeftAlone` say when, in bytes |
| Compaction.UsualShares | core/internal/runtime/compaction.go:43-60 | shares that are not named are seven and three tenths of the window, and without a window nothing is recorded |
| Compaction.OverlongIsCompacted | core/internal/runtime/compaction.go:74-90 | a conversation whose bytes, arguments of calls included, are more than its share of the window is compacted if anything can be folded |
| Compaction.WhatFitsIsLeftAlone | core/internal/runtime/compaction.go:74-90 | a conversation whose bytes fit the share, with room for the rounding of each text, is left alone |
| Compaction.StandingAfterPlan | core/internal/runtime/compaction.go:184-212 | the new fold replaces exactly the folds it condenses |
| Compaction.RebuiltAfterFold | core/internal/runtime/compaction.go:92-123 | what a rebuild after the record gives, for every log whose standing folds each cover something, as they do in every history |
| Compaction.FoldCommutesIff | core/internal/runtime/compaction.go:92-123 | rebuilding after the fold gives the kept folds, the summary and the untouched tail if and only if the cut is a position in the log |
| Compaction.FoldCommutes | core/internal/runtime/compaction.go:92-123 | it does whenever the messages end later and later |
| Compaction.CompactedViewIff | core/internal/runtime/compaction.go:74-125 | the slice is replaced, and the recorded sizes are those of the conversation before and after, if and only if the cut is a position in the log |
| Compaction.CompactedConversation | core/internal/runtime/compaction.go:74-125 | the square over the whole log and for the run that compacts; the recorded sizes are those of the conversation before and after |
| Calls.FoldPairsIff | core/internal/runtime/compaction.go:223-229 | with the messages before a turn replaced by a summary, every call is answered by the next message and every result is under its call if and only if that was so from that turn on |
| Calls.FoldKeepsPairs | core/internal/runtime/compaction.go:223-229 | so replacing the messages before a turn of a conversation in which that is so leaves it so |
| Calls.CompactionPairsIff | core/internal/runtime/compaction.go:62-69 | where the cut is a position in the log, calls and results are paired after rebuilding if and only if they were from the cut on, whatever calls are open before it |
| Calls.CompactionKeepsPairs | core/internal/runtime/compaction.go:62-69 | calls and results that are all paired before a compaction are paired after rebuilding |
| Calls.PartedIff | core/internal/runtime/compaction.go:62-69 | in any log, a result is shown without its call if and only if the folds reach the call and not the result |
| Calls.FoldNeverPartsIff | core/internal/runtime/compaction.go:62-69 | a recorded fold never comes between a call and its result, however the log goes on without another fold, if and only if each call up to its end, whichever run made it, has its result there |
| Overlaps.AResultStandsAlone | core/internal/runtime/conversation.go:634-678 | a log and a budget on which it does: a run folds past the call another run has open while it waits for approval, and when the call is done that run is shown its result alone |
| History.FoldsAfter | core/internal/runtime/compaction.go:92-123 | in every history, whatever was recorded since it was planned, a recorded fold unseats exactly the folds of its conversation that do not begin before it, and they then reach as far as it does; no event, no prune and no other conversation's fold moves any |
| History.FoldsTileIff | core/internal/runtime/compaction.go:169-212 | the folds of a conversation cover its log end to end from 1 after every step of a history, at most six of them, if and only if each of them, as it is recorded, begins where the folds it leaves standing end and finds room |
| Tiling.ContinuesIff | core/internal/runtime/compaction.go:184-212 | among folds that cover the log a fold does that if and only if it begins the log, or where one of them begins, or where they end with fewer than six standing |
| History.FoldsTile | core/internal/runtime/compaction.go:203-212 | so the folds cover the log and only move forward in every history in which nobody else compacts a conversation between the measuring and the recording of a compaction of it |
| History.NeverFallsBackIff | core/internal/runtime/compaction.go:203-212 | in every history, the folds of a conversation never reach less far than before if and only if each of them, as it is recorded, reaches at least as far as those that then stand |
| History.StaysReachedIff | core/internal/runtime/compaction.go:203-212 | what the folds have reached stays reached if and only if no fold recorded from then on ends before it |
| Overlaps.AFoldFallsBack | core/internal/runtime/approval.go:175-236 | a history, with a budget, of a run resumed after an approval beside the next run: it records a fold of 1 alone after the other recorded 1 to 7 and those were discarded; the folds reach to 1 again, and 2 to 7 are neither in the log nor in a fold |
| Shown.ShownIff | core/internal/runtime/conversation.go:105-123 | after any history, whatever the log ever placed for a run is shown to it in full if and only if it is past what the folds now reach and past everything that was discarded |
| Shown.SwallowedForGood | core/internal/runtime/conversation.go:105-123 | whatever the folds of a conversation have reached is shown in full to none of its runs again, as long as no fold recorded from then on ends before it |
| Shown.NothingLostIff | core/internal/runtime/retention.go:55-91 | while the folds cover the log, everything discarded lies in a standing fold if and only if nothing past their end was discarded |
| Shown.NeverLostIff | core/internal/runtime/retention.go:55-91 | over every history in which no worker compacts and each fold goes on from those that stand, everything discarded always lies in a standing fold if and only if no fold is ever recorded that ends before something already discarded |
| Overlaps.AGapIsLost | core/internal/runtime/approval.go:175-236 | a history that shows both conditions are needed: no fold ends before anything discarded, yet the standing folds leave a gap, and what was in it is discarded and lost |
| Tiling.InExactlyOneFold | core/internal/runtime/conversation.go:126-152 | every position the folds reach lies in exactly one of them |
| Shown.RecordLeaves | core/internal/runtime/compaction.go:92-123 | in every history, whoever else was at work and whatever was folded or discarded since the fold was planned, any run of the conversation is shown the folds that begin before it, the fold, and what the log places past its end |
| Shown.AnyCompactionCommutesIff | core/internal/runtime/compaction.go:92-123 | for a fold that reaches at least as far as those that stand and ends at one of the messages shown, that is the conversation with one slice replaced if and only if its end is between that message and the next; for any run of the conversation, whoever else was at work |
| Shown.CompactionBesideOthers | core/internal/runtime/runtime.go:259-267 | a run that has had a turn compacts beside others at work in its conversation: the planned slice is replaced and what they appended stays |
| Shown.CompactionCommutesIff | core/internal/runtime/compaction.go:74-150 | in every history, when other runs of the conversation only queued up or were taken back while the summary was written, the slice is replaced and the sizes recorded are those before and after if and only if the cut is a position in the log |
| Shown.CompactionCommutes | core/internal/runtime/compaction.go:74-150 | so it is whenever the messages of the run that compacts end later and later |
| History.NextNumberStays | core/internal/runtime/retention.go:62-91 | a prune never takes the last event, so the next event gets the number it would have had |
| Shown.PruneInvisibleIff | core/internal/runtime/compaction.go:136-150 | after any history, a prune changes what a run is shown if and only if something it is still shown in full is discarded |
| Shown.PrunesAreInvisible | core/internal/runtime/retention.go:16-21 | as long as no worker compacts, no prune after any history is visible in the conversation everybody shares |
| Meanwhile.FoldCommutesAmongBystandersIff | core/internal/runtime/runtime.go:710-725 | when other runs queue up or are taken back between planning and recording, the square holds if and only if the cut is a position in the log; on the first turn, with the run's own question still waiting, as on any other |
| Meanwhile.FoldCommutesAmongBystanders | core/internal/runtime/runtime.go:710-725 | so it holds whenever the messages of the run at work end later and later |
| Meanwhile.FoldCommutesMeanwhile | core/internal/runtime/compaction.go:92-123 | for a run that has had a turn, the plan still fits whatever events arrive between planning and recording: the same slice is replaced, the newer events stay |
| Meanwhile.WaitingSurvivesIff | core/internal/runtime/conversation.go:220-245 | as long as its run does nothing, whatever events and folds come, a waiting question is shown to its run if and only if it was asked after the point the folds then reach |
| Meanwhile.NeverShownAgain | core/internal/runtime/conversation.go:105-123 | nothing the folds of a view have reached is shown in full to anybody, not even once its run starts |
| Meanwhile.OrderlyItemsEndInOrder | core/internal/runtime/conversation.go:220-245 | when no question is placed behind something later, the condition of the square holds |
| Counterexamples.AQuestionIsLost | core/internal/runtime/runtime.go:710-725 | a log and a budget on which the square fails: the fold a queued run records before its first turn reaches past its own question, which is gone on the rebuild it is to answer |
| Counterexamples.AWaitingQuestionIsSwallowed | core/internal/runtime/compaction.go:184-212 | a log and a budget on which a run at work folds past a question that waits: shown to its run before, it is shown to nobody in any continuation |
| Retention.SafeCut | core/internal/runtime/retention.go:62-91 | the cut as a function of the log |
| Retention.PruneSession | core/internal/runtime/retention.go:23-53 | what is left of the log; `GoesIff` says which events those are |
| Retention.GoesIff | core/internal/runtime/retention.go:62-91 | an event goes if and only if it is no record of a fold, lies within the reach of the last fold recorded, and comes before that record by more than the margin |
| Retention.PruningInvisibleIff | core/internal/runtime/retention.go:16-21 | discarding through any point changes no rebuild if and only if nothing that still says anything is discarded |
| Retention.SafeForItsReaders | core/internal/runtime/retention.go:55-91 | the chosen cut changes nothing for any run that may read the last fold |
| Retention.SafeForOthersIff | core/internal/runtime/retention.go:55-91 | for any other run, exactly when it can see the difference |
| Counterexamples.AWorkersFoldDiscardsTheConversation | core/internal/runtime/retention.go:62-91 | a log on which it can: a worker's fold makes the conversation lose a question that was never folded |
| Credentials.Auth.ApplyTokens | core/internal/chatgptauth/auth.go:346-361 | takes a grant into the record, keeping the refresh token when none comes |
| Credentials.Auth.BeginRefresh | core/internal/chatgptauth/auth.go:288-303 | re-reads the file and decides on what it says, never on what was remembered: the stored refresh token is presented if and only if the record is signed in, has one, and has no access token, the refused one, or one within five minutes of expiring |
| Credentials.Auth.FinishRefresh | core/internal/chatgptauth/auth.go:305-343 | stores a grant with its expiry, an hour from now if none is named; clears on one of the six terminal refusals unless another token is on disk; keeps the tokens otherwise |
| Credentials.Auth.RecordError | core/internal/chatgptauth/auth.go:155-178 | changes only the error in the current file, its message cut to 300 |
| Credentials.Auth.ForgetTokens | core/internal/chatgptauth/auth.go:486-494 | clears the tokens and the error |
| RotationSafety.StepOk | core/internal/chatgptauth/auth.go:184-343 | every step of any thread of any process keeps the invariant of the sign-in |
| RotationSafety.FileHoldsTheLatest | core/internal/chatgptauth/auth.go:268-303 | in every run, whenever the lock file is free the stored refresh token is the service's latest or there is none |
| RotationSafety.NeverPresentsARotatedToken | core/internal/chatgptauth/auth.go:288-316 | in every run, no refresh token is presented after it was replaced |
| RotationSafety.OneAtATime | core/internal/chatgptauth/auth.go:281-288 | in every run, at most one thread of all processes is between reading the file and leaving |
| RotationSafety.NobodyElseWrote | core/internal/chatgptauth/auth.go:329-335 | without a sign-in the file still holds the refused token, so the guard against another writer never fires |
| RotationSafety.ReplacedOnce | core/internal/chatgptauth/auth.go:229-231 | in every run, an access token is replaced by at most one exchange |
| RotationSafety.RefusedTokenIsReplacedOnce | core/internal/chatgptauth/auth.go:229-251 | a caller that reported a refused token and got another got a newer one, and exactly one exchange replaced the refused one |
| RotationSafety.HandedAtOnceIff | core/internal/chatgptauth/auth.go:184-201 | asked for a token, a process hands out the one it remembers if and only if the plan is granted and the token is good for five minutes more, and goes on to refresh if it is not |
| RotationSafety.HandedAfterwardsIff | core/internal/chatgptauth/auth.go:202-217 | after a refresh that failed without ending the sign-in the old token is handed out if and only if it has not expired; after one that did not fail, the one now remembered |
| RotationSafety.NothingExpiredIsHandedOut | core/internal/chatgptauth/auth.go:180-217 | in every run, a token handed out at once, or after a refresh that failed, has not expired at that moment |
| RotationSafety.GoesToTheServiceIff | core/internal/chatgptauth/auth.go:288-303 | a caller who has the lock presents the stored refresh token if and only if it is there and the token on disk is missing, about to expire, or the one that was refused |
| Issued.RotatedIff | core/internal/chatgptauth/auth.go:288-343 | a refresh token counts as replaced if and only if the service granted another against it in an earlier step |
| Issued.AliveIff | core/internal/chatgptauth/auth.go:496-520 | the sign-in is good at the service until a step withdraws it or revokes its latest token |
| Issued.NothingGrantedAfterwards | core/internal/chatgptauth/auth.go:496-520 | once the sign-in has ended at the service nothing is granted in any later step |
| Issued.LatestIsGrantedLast | core/internal/chatgptauth/auth.go:305-343 | in every run, the latest refresh token is the one granted last |
| Issued.HandedIff | core/internal/chatgptauth/auth.go:184-217 | in every run, the tokens handed out are those some caller was answered with |
| Issued.OthersAreLeftAlone | core/internal/chatgptauth/auth.go:288-303 | no step of one process changes what another has in memory, or where another thread is |
| Issued.GoesOnIff | core/internal/chatgptauth/auth.go:229-240 | a caller whose token was refused goes on to refresh if and only if its process remembers a token; recording an error and signing out always go on |
| Issued.RefreshedAlone | core/internal/chatgptauth/auth.go:184-217 | with nobody in the way, a caller whose token is about to expire is handed the one granted against the token on disk, and the disk and the process hold what was granted |
| Issued.RenewedByAnother | core/internal/chatgptauth/auth.go:288-303 | if another process renewed the sign-in meanwhile, the caller is handed that token and the service is not asked |
| Hub.Hub.Subscribe | core/internal/event/hub.go:63-85 | adds an armed subscription to one session's listeners and to no other's |
| Hub.Hub.SubscribeAll | core/internal/event/hub.go:92-104 | adds an armed subscription to every session's listeners |
| Hub.Hub.Unsubscribe | core/internal/event/hub.go:106-123 | removes one listener everywhere, nobody else, and forgets a session without listeners |
| Hub.Hub.Publish | core/internal/event/hub.go:127-141 | arms every listener of the session and touches no other |
| EventStore.Drain | core/internal/control/server.go:432-459 | draining in batches sends exactly what is kept after the cursor, in order, and leaves nothing |
| EventStore.BatchThenRest | core/internal/control/server.go:432-459 | what is left after a batch is what comes after its last entry |
| EventStore.PruneOk | core/internal/storage/sqlite/events.go:141-195 | pruning keeps folds and raises the watermark to cover everything gone |
| Following.StepOk | core/internal/control/server.go:396-478 | every step of any subscriber, publisher or prune keeps the invariant |
| Following.NoLostWakeUp | core/internal/event/hub.go:127-148 | in every run, a sleeping subscriber with something to read is armed, or a publisher that appended to what it watches has yet to snapshot, or has it in its snapshot |
| Following.QuietMeansDelivered | core/internal/control/server.go:429-478 | in every run, once publishers are done, a subscriber that sleeps unarmed was sent every kept entry after its start; no heartbeat is needed |
| CatchingUp.CatchesUp | core/internal/control/server.go:429-478 | from every reachable state, steps of the subscriber and the publishers alone bring a subscriber past the check to sleep with everything kept after its start sent: nothing is stuck, and no heartbeat or new entry is needed |
| CatchingUp.PublisherFinishes | core/internal/event/hub.go:127-148 | a publisher that has appended can signal everybody in its snapshot and be done |
| Following.SentIsTheLog | core/internal/control/server.go:429-459 | with nothing discarded ahead of the cursor, what was sent is exactly the log after the start, in order, once each |
| Following.OnlyTheDiscardedIsMissing | core/internal/control/server.go:429-459 | whatever is pruned, nothing is sent twice, out of order or outside the range, and only what was discarded is missing |
| Following.NotToldMeansWhole | core/internal/control/server.go:519-540 | a client of the whole log that is not told to start over is missing nothing |
| StartingOver.MarkIsReach | core/internal/storage/sqlite/events.go:141-195 | in every run, the watermark is past a point if and only if some prune reached an entry of its session past it |
| StartingOver.DiscardedIff | core/internal/storage/sqlite/events.go:141-195 | in every run, an entry is gone if and only if some prune reached it and it is no fold |
| StartingOver.ToldToStartOverIff | core/internal/control/server.go:519-540 | in every run, a client of the whole log is told to start over if and only if it resumes and some prune reached an entry after its cursor; otherwise it is sent on from there |
| StartingOver.NeverWithoutAPrune | core/internal/control/server.go:519-540 | nobody is told to start over before anything was pruned |
| StartingOver.ToldForNothingIff | core/internal/control/server.go:519-540 | in every run, a client is told to start over with nothing discarded if and only if the prunes reached past its cursor and met folds only |
| StartingOver.AFoldIsEnough | core/internal/storage/sqlite/events.go:145-190 | a run in which that happens |
| StartingOver.ToldAboutASessionIff | core/internal/control/server.go:411-427 | in every run, a client of one session is told to start over if and only if it resumes, something of the session after its cursor is gone, something is left, and no fold stands at or before where it would go on |
| Following.GapUnnoticedIff | core/internal/control/server.go:411-427 | a client of one session that is missing something is not told if and only if a fold stands at or before where it resumes, or nothing is kept |
| Following.AGapGoesUnnoticed | core/internal/storage/sqlite/events.go:123-134 | a store in which that happens: the oldest kept entry is a fold, so two discarded messages are never mentioned |
| TomlString.WriteQuoted | core/internal/config/edit.go:668-697 | the loop writes the quoted text |
| TomlString.QuotedRoundTrip | core/internal/config/edit.go:668-697 | reading what was written by the rules for basic strings gives back every text |
| TomlString.QuotedIsOneLine | core/internal/config/edit.go:668-697 | what was written holds no control character |
| ConfigText.LinesJoin | core/internal/config/edit.go:188-224 | every text is lines, and they join to it |
| ConfigEdit.WithoutTrailer | core/internal/config/edit.go:251-270 | the walk over offsets stops where the trailing blanks and comments begin |
| ConfigEdit.Scan | core/internal/config/edit.go:188-224 | the nodes are the headings and settings, with the sections and offsets of their lines |
| ConfigEdit.SectionOf | core/internal/config/edit.go:376-393 | the first section of that name, where its text stops and where its last setting ends |
| ConfigEdit.OneEdit | core/internal/config/edit.go:289-356 | which edit is made is settled by the text and the key |
| ConfigEdit.EditValue | core/internal/config/edit.go:289-356 | the edit by offsets is the edit by lines: replace, take back, switch on the placeholder, insert after the last setting, or append a section; `TakesAway` and `EditKeepsComments` say which line goes |
| ConfigReading.EditReads | core/internal/config/edit.go:289-356 | every such edit reads back as the old settings with just that key updated or gone |
| ConfigReading.TextReadsBack | core/internal/config/edit.go:668-697 | any text given to a setting is what reading the setting gives back |
| ConfigTidy.EditIsLocal | core/internal/config/edit.go:395-420 | every character outside the edited line or added section stays, apart from a newline that finishes the last line |
| ConfigComments.PlaceholderIff | core/internal/config/edit.go:340-351 | a line holds a setting's place if and only if it is blanks, `#`, blanks, the name, blanks and `=`, character by character |
| ConfigComments.CommentIff | core/internal/config/edit.go:251-270 | a line is a comment if and only if `#` is the first thing on it, character by character |
| ConfigComments.TakesAway | core/internal/config/edit.go:310-356 | the one line an edit takes away set the key, or is the first line of its section that is the setting commented out; if there is such a line and the key is not set, it is the one |
| ConfigComments.EditKeepsComments | core/internal/config/edit.go:120-134 | after any edit every comment but that line is still there, in order; taking a setting back puts the comment that holds it where the setting was |
| ConfigComments.RemarksAreOutside | core/internal/config/edit.go:120-134 | a comment that is none of the settings commented out counts as one to keep if it is in no list of tables, or stands in front of the next heading or the end |
| ConfigComments.RemarksAreComments | core/internal/config/edit.go:120-134 | in a text without elements of lists those are all its comments, in order |
| ConfigComments.EditKeepsRemarks | core/internal/config/edit.go:120-134 | however one setting is edited, every comment outside the elements of lists that is not that setting commented out is still there, in order |
| ConfigTidy.EditTidy | core/internal/config/edit.go:289-356 | the edited text is again readable line by line, with no setting given twice |
| ConfigLists.BlocksApart | core/internal/config/edit.go:452-468 | the blocks of a list are ordered and disjoint, whatever the text |
| ConfigLists.ReplaceBlocks | core/internal/config/edit.go:484-492 | taking blocks out back to front and inserting at the first is replacing them all at once |
| ConfigLists.FindBlocks | core/internal/config/edit.go:452-468 | the blocks are the sections of the list and of what hangs off it, without their trailing blanks and comments |
| ConfigLists.EditList | core/internal/config/edit.go:430-493 | a list edit replaces the first block by the new one and every other by nothing, or goes after its section, or to the end |
| ConfigListReading.RenderItems | core/internal/config/edit.go:495-534 | the loops write the elements: a heading each, the fields under it, a blank line between two |
| ConfigListReading.RenderedIsListText | core/internal/config/edit.go:495-534 | what is written for a list is its own headings and settings and nothing else |
| ConfigListReading.RemainingIsKept | core/internal/config/edit.go:452-468 | taking the blocks out by offset leaves exactly the lines that are in none of them |
| ConfigListReading.ListEditReads | core/internal/config/edit.go:430-493 | however a list is edited, every setting outside it reads as it did |
| ConfigItems.ItemsRead | core/internal/config/edit.go:495-534 | the text written for some elements reads back as exactly those elements |
| ConfigItems.HangsOff | core/internal/config/edit.go:440-470 | a setting in a section that hangs off a list is a field of the latest element, under the rest of its name |
| ConfigItems.NowElements | core/internal/config/edit.go:430-493 | after a list edit the list has the elements of the new text and no other, wherever the old ones were |
| ConfigItems.NowOthers | core/internal/config/edit.go:430-493 | the elements of every other list, and of the sections hanging off them, read as before |
| ConfigComments.NowRemarks | core/internal/config/edit.go:120-134 | however a list is edited, every comment outside the elements of lists is still there, in order |
| ConfigItems.EditKeepsItems | core/internal/config/edit.go:289-356 | editing one setting leaves the elements of every list as they were |
| ConfigPatch.ValueEdited | core/internal/config/edit.go:289-356 | editing one setting changes what the text says of that setting and of nothing else, lists included, and leaves it tidy |
| ConfigPatch.ListWritten | core/internal/config/edit.go:430-493 | writing a list changes what the text says of that list and of nothing else: it reads back as the elements written, and an empty one is gone |
| ConfigPatch.NothingElseChanged | core/internal/config/edit.go:701-758 | the check accepts if and only if the names have exactly the values the edits ask for, the last edit of a name deciding |
| ConfigPatch.Patch | core/internal/config/edit.go:135-169 | on a tidy text a patch of known settings and lists, in any mixture, always succeeds and says what the text said with all its edits, however the check reads values to compare them; every comment is still there, in order, but those inside elements of lists and the edited settings commented out; an unknown name refuses it |
| Retry.NeverBeforeTheServerSays | core/internal/provider/retry.go:54-64 | a wait the server named is never cut short |
| Retry.OwnWaitIsBounded | core/internal/provider/retry.go:66-78 | a wait it did not name is between nothing and the longest delay with full jitter |
| Retry.FirstOwnWait | core/internal/provider/retry.go:64-68 | the first wait without jitter is the base delay, or the longest if that is shorter |
| Retry.OwnWaitIsNear | core/internal/provider/retry.go:66-78 | jitter moves a wait by at most its share either way: not below it and not above, all the way down at one end of the dice and not at all in the middle |
| Retry.NamedWaitIsNear | core/internal/provider/retry.go:53-62 | jitter lengthens a wait the server named by its share of the dice, to within a unit |
| Retry.OwnWaitDoubles | core/internal/provider/retry.go:66-69 | without jitter each own wait is twice the one before, up to the longest |
| Retry.WaitAgain | core/internal/provider/retry.go:187-195 | a wait keeps the total within the budget and is no shorter than the server asked; a refusal says why |
| Retry.Generate | core/internal/provider/retry.go:147-199 | calls are attempts, at most max(1, MaxAttempts); a failure leaves no stream open and comes with its reason |
| Retry.RetryingStream.Recv | core/internal/provider/retry.go:218-262 | for any behaviour of the provider: calls equal attempts and stay bounded, waits stay in the budget, every stream but the one in hand is closed and said nothing, and nothing is resent once anything was delivered; an error that would be tried again is given up on with attempts left if and only if the call for a replacing stream was refused with it |
| Retry.AReadEndsEarly | core/internal/provider/retry.go:253-259 | a provider with which that happens: four attempts allowed, two calls made, and the second refusal, retryable itself, ends the read |
| Retry.OneOpenStream | core/internal/provider/retry.go:248-252 | at most one stream is open |
| Retry.OneAttemptDelivers | core/internal/provider/retry.go:204-216 | everything delivered is everything one stream produced |
| Throttle.Meter.WaitFor | core/internal/control/dashboardauth.go:135-140 | how long a guess has to wait |
| Throttle.Meter.Fail | core/internal/control/dashboardauth.go:142-159 | counts a failure as the definition says |
| Throttle.CountsAfreshIff | core/internal/control/dashboardauth.go:142-150 | a failure starts the count afresh if and only if it is the first, or comes more than ten minutes after the one before, or with fewer than five counted and more than a minute after the first of them; otherwise the count is one more |
| Throttle.WaitIs | core/internal/control/dashboardauth.go:135-159 | the next guess waits not at all after fewer than five failures, and after that from the last one a second, doubling, up to a minute, and no longer |
| Throttle.DelayIs | core/internal/control/dashboardauth.go:151-158 | the delay after the k-th failure is min(2^(k-5), 60) seconds |
| Throttle.HeldOff | core/internal/control/dashboardauth.go:135-159 | a guess after k >= 5 failures of a spell comes at least that delay later |
| Throttle.SpellTakes | core/internal/control/dashboardauth.go:142-159 | n failures after the fifth, without a pause, take at least the sum of the delays |
| Throttle.LongSpellTakes | core/internal/control/dashboardauth.go:142-159 | from the sixth on that is 63 seconds and a minute for each further one |
| Throttle.GuessRate | core/internal/control/dashboardauth.go:142-159 | however guesses are timed, bursts and pauses included, n wrong ones take at least 15(n-8) seconds |
| Browsers.DropOldest | core/internal/control/browsers.go:316-325 | gives up an entry with the earliest expiry and nothing else |
| Browsers.Browsers.Pair | core/internal/control/browsers.go:206-223 | a new code unless sixteen are waiting |
| Browsers.Browsers.IssueSession | core/internal/control/browsers.go:243-264 | a new session; the earliest to expire gives way only when there are sixteen |
| Browsers.Browsers.IssueSetup | core/internal/control/browsers.go:268-279 | a setup session, only while no password is set |
| Browsers.Browsers.Redeem | core/internal/control/browsers.go:227-240 | a live code becomes one session and is spent |
| Browsers.Browsers.Lookup | core/internal/control/browsers.go:282-294 | a credential answers if and only if it is held and before its expiry, as what it was issued as |
| Browsers.Browsers.CheckPassword | core/internal/control/dashboardauth.go:171-198 | throttled, wrong and counted, or right and forgiven |
| Browsers.Browsers.Login | core/internal/control/dashboardauth.go:231-245 | the initial password gives a setup session, any other a session; a refusal changes nothing held |
| Browsers.Browsers.SetPassword | core/internal/control/dashboardauth.go:251-292 | when it succeeds the presenting session, or its one replacement, is the only one left; when the sessions then cannot be written the password has changed all the same, and nobody but the presenting session is left |
| Browsers.Browsers.ClearPassword | core/internal/control/dashboardauth.go:310-329 | back to the initial password with nobody signed in, also when it then reports that the sessions could not be written; otherwise nothing changes |
| Browsers.Browsers.RevokeExcept | core/internal/control/browsers.go:190-203 | at most the presented session is kept |
| Browsers.Browsers.constructor | core/internal/control/browsers.go:120-164 | restoring saved sessions keeps only live ones, at most sixteen |
| Browsers.SessionOk | core/internal/control/browsers.go:243-264 | issuing a session keeps the bounds, the expiries and that a code is traded at most once |
| Browsers.OneSessionPerCode | core/internal/control/browsers.go:227-240 | a code never answers for two sessions and is not held once it has answered for one |
| SigningIn.WithACode | core/internal/control/browsers.go:206-294 | a code traded within a minute opens the dashboard for twelve hours, and nobody gets a second session for it |
| SigningIn.WithThePassword | core/internal/control/dashboardauth.go:231-245 | the password that was set opens the dashboard for twelve hours, the initial one the page for setting another for a quarter of an hour |
| Ingress.StepOk | core/internal/gateway/ingress.go:97-256 | every step of any thread, and every restart, keeps the invariant of the links, claims and runs |
| Ingress.OneSessionPerConversation | core/internal/gateway/ingress.go:200-256 | in every run, restarts included, answers about one conversation name the same session, and no other conversation shares it |
| Ingress.LinksAreForGood | core/internal/gateway/ingress.go:237-253 | a link is never changed, a restart included |
| Ingress.OneRunPerMessage | core/internal/gateway/ingress.go:150-194 | in every run, restarts included, an idempotency key starts at most one run, in its conversation's session |
| Ingress.UnboundIff | core/internal/gateway/ingress.go:200-228 | with a binder, a turn reaches a session whose profile is not bound if and only if its conversation was linked before the daemon last restarted |
| Ingress.AProfileIsForgotten | core/internal/gateway/ingress.go:203-209 | a run in which that happens: a message, a restart, and the next message of the conversation |
| Ingress.AnsweredWasClaimed | core/internal/gateway/ingress.go:153-162 | whatever is answered was claimed |
| Ingress.ClaimedWithoutARunIff | core/internal/gateway/ingress.go:150-194 | a message claimed for a turn has neither a run nor one under way if and only if its turn could not be sent or the daemon restarted between the claim and the turn |
| Ingress.AMessageIsLost | core/internal/gateway/ingress.go:150-162 | a run in which that happens: claimed, restarted, delivered again, answered as a duplicate, never run |
| Admission.OnlyWhatWasLetIn | core/internal/gateway/ingress.go:97-128 | in every run, whatever was started, answered, claimed or linked was for a message that came and was asked for explicitly, with a key, in a bound channel, from a sender it permits; and no run is for a command |
| Admission.HandledAlone | core/internal/gateway/ingress.go:96-194 | with nobody in the way a message with these four is answered about the session linked before or a new one, and starts one run unless its key was claimed or it is a command; any other message changes nothing |
| Admission.LoserJoins | core/internal/gateway/ingress.go:237-253 | a message that loses the race for its conversation is answered about the session that won, and the one it made is used by nobody |
| Admission.AnErrorEndsIt | core/internal/gateway/ingress.go:96-194 | an error from the store, the runtime or the binder ends what is done for a message, with nothing linked, claimed, started or answered by that step |
| Streaming.Stream.ShouldStream | core/internal/gateway/projector.go:914-935 | a version goes out only an interval after the last one or the first words |
| Streaming.Stream.Delta | core/internal/gateway/projector.go:330-346 | the version sent is all the words so far |
| Streaming.Stream.Completed | core/internal/gateway/projector.go:366-385 | the final text; every version sent is a prefix of the next and of it, an interval apart, the first an interval after the first words |
| RunSummary.RunRecord.Requests | core/internal/gateway/summary.go:159-163 | the record goes on saying what the log says |
| RunSummary.RunRecord.Completes | core/internal/gateway/summary.go:169-197 | calls, failures, total and slowest time of every tool, the calls waiting and the sources stay those of the log; a source only on success |
| RunSummary.RunRecord.Compacts | core/internal/gateway/projector.go:433-437 | the record keeps how far the last recorded fold reaches, and nothing else changes |
| RunSummary.RunRecord.Summarise | core/internal/gateway/summary.go:200-242 | every tool once, in order; sources in order of first use, at most twelve, the rest counted; a source is marked retained if and only if its first reading is past what the last fold recorded reaches |
| RunSummary.OrderMeans | core/internal/gateway/summary.go:216-226 | the tools come in the order of the time they took, then of how often they were used, then of their names |
| RunSummary.MarkAgreesIff | core/internal/gateway/summary.go:80-91 | a source marked retained is in front of the model; the mark agrees with the conversation if and only if the source was not read once more after a fold reached its first reading |
| RunSummary.AReadingIsMissed | core/internal/gateway/summary.go:189-196 | a log in which it was: the page is in front of the model and is not marked |
| RunSummary.CountsDistinctSources | core/internal/gateway/summary.go:190-196 | listed and omitted sources together are the distinct ones drawn on |
| RunSummary.SourceComes | core/internal/gateway/summary.go:169-197 | a new source is listed with the position it was first drawn on |
| Accounting.Projector.Observe | core/internal/gateway/projector.go:292-305 | a call counts towards its run and its parent, once each, and towards nobody else |
| Accounting.EachCountsOnce | core/internal/gateway/projector.go:671-690 | a run is told of each call it made and each call its workers made once, and of the folds it recorded if it is no worker and delivered somewhere |
| Accounting.Projector.Close | core/internal/gateway/projector.go:705-719 | the account given is that of the calls that count towards the run since it was last closed |
| RingBuffer.Buffer.constructor | core/internal/process/buffer.go:28-33 | the limit, or the default when none is given |
| RingBuffer.Buffer.Write | core/internal/process/buffer.go:35-45 | what is held is always the last bytes of everything written |
| RingBuffer.Buffer.Read | core/internal/process/buffer.go:54-77 | the rest of the stream from the offset and what was skipped; a negative offset skips nothing, one past the end gets nothing |
| RingBuffer.Buffer.Dropped | core/internal/process/buffer.go:79-84 | as many bytes as the stream is longer than what is held |
| RingBuffer.Reader.Wrote | core/internal/process/buffer.go:35-45 | what is written between two polls leaves the reader what it had, with its cursor still in the stream |
| RingBuffer.Reader.Poll | core/internal/process/buffer.go:47-77 | returned and skipped bytes add up to the cursor's advance, and nothing is skipped within the limit |
| RingBuffer.WithinMore | core/internal/process/buffer.go:47-77 | what a reader received is what was written with pieces taken out, in order |

## Left out

- Files, SQLite, HTTP, protobuf, terminals and platform SDKs: stores are values, files are atomic registers.
- The summary's words, attachments, images, date stamps and prompt wording: a question's content is already rendered into blocks.
- Assistant reasoning, usage and plan events add nothing to a conversation and are not told apart.
- Wrap-around of 64-bit token, sequence and time counters, and rounding of floating-point budgets and delays: integers are unbounded and fractions are reals.
- Errors from the event store while measuring or recording a compaction: the compaction then does not happen.
- Shown.CompactionCommutesIff: speaks of other runs that queue up or are taken back between measuring and recording; with others at work, `Shown.CompactionBesideOthers`, `Shown.AnyCompactionCommutesIff` and `Shown.RecordLeaves` say what is shown, and the sizes recorded are those of what was measured.
- Shown.NeverLostIff: with a worker's folds a prune may cut past what the conversation's folds reach, as `AWorkersFoldDiscardsTheConversation` shows.
- Calls.FoldNeverPartsIff: a call has one result, and a later fold is judged by itself.
- Compaction.FoldCommutes: the condition on the order of the messages is enough and not needed; `FoldCommutesIff` says exactly what is.
- RotationSafety.FileHoldsTheLatest: saves succeed, the lock is always obtained, answers of the service are not lost and nobody signs in meanwhile (the sign-in saves without the lock file).
- The in-process refresh lock: the lock file alone already serialises refreshes, and leaving it out only adds interleavings.
- The first load of the record failing, and closing a sign-in flow on sign-out.
- Hellos and heartbeats of the log subscriptions: a heartbeat only sends a subscriber round its loop again.
- ConfigEdit.EditValue: dotted and quoted keys, inline tables and values over several lines, which the real scan leaves to a TOML parser; a key is a section and a name in it.
- ConfigPatch.Patch: values and fields come as they are written, and unknown or empty fields of an element are sorted out before; how a written value reads is a parameter, used by the check. The lists are named apart, none inside another, as the settings' own lists are.
- Rendering numbers, durations, lists and tables of a setting, and the diff shown for a patch: only text is written here.
- Retry: cancelling the context from outside, other than as an error of the provider or of the wait.
- Browsers.Browsers.Login: the password's hash (a password stands for its record) and the time between its critical sections, which the attempt lock keeps other checks out of; whether the session file could be written when a session is issued.
- Ingress: attachments (failing to store one is a turn that cannot be sent), console commands beyond being claimed and answered, and console notices.
- Streaming and Accounting: which dispatches go to which channel, status lines, approvals, and what a tool call's arguments name.
- RunSummary.RunRecord.Summarise: the mark goes by the first reading of a source, where `core/internal/gateway/summary.go:87-94` speaks of the content (`MarkAgreesIff`); and the flags for partial and silent runs and the token counts, which are copied.
- Wire conversion, permission profiles, console rendering, memory, media, sandbox, skills, MCP and home discovery: case tables and plumbing.
