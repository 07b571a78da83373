# CodeConnect, modelled and proved

CodeConnect puts the coding agents running on a Mac on a phone. A daemon on the Mac tails
each agent's transcript into an append-only log, serves it, and types what the phone sends
into the agent's terminal; the phone keeps a replica of the log and shows it. These modules
model the parts where that can go wrong between two steps, and prove what each promises.

What the source does by changing an object in place is a `class` here with the same fields
and loops, each method proved against a function on values; runs, invariants and refinements
are then lemmas about those functions.

| files | what they model |
|---|---|
| `CatchUp`, `CatchUpRuns`, `CatchUpWork`, `CatchUpReleases`, `CatchUpWatch`, `CatchUpLanding`, `CatchUpPatience` | the phone's catch-up: the screen held while the truth is replayed, lists matched to requests by position, the release, the stall watch |
| `CatchUpProgress`, `CatchUpWaiting`, `CatchUpSubscriptions`, `CatchUpReturns`, `CatchUpCards`, `CatchUpLive` | its other half: exactly when it releases, that it comes to that once it is answered, that no subscription is forgotten, what a return resets, which cards stay, and that between catch-ups the screen is the truth |
| `Replica`, `ReplicaRuns` | one session's copy of the log: coalesced merging, the 500-event window, pages, the gap notice, the newest model fact |
| `Tailer`, `TailerRuns`, `TailerLines` | the daemon's cursor over a growing transcript: bounded reads, crashes, rescans, turn ends, and every line on record once |
| `Mutations` | the daemon's durable claims, with crashes, lost answers and deleted sessions |
| `CodexSends` | the phone's open request ids and the ledger of what it may not say again |
| `Waiters` | replies on a link matched to requests by place |
| `TerminalStream`, `TerminalLeases`, `TerminalAttach` | the live terminal: credit both ways, one client a session, frames parked behind an attach |
| `Interlock` | the supervisor typing into a pane a person may be using |
| `Refusals`, `HistoryOrder`, `Preimage`, `AgeTick`, `RunningTurn` | the template matcher, read-back placement, the hash preimage, the next redraw, the turn Stop names |

`dafny verify dfyconfig.toml` checks everything.

## Where the code and its promises differ

Each of these names the lemmas that say what the code does instead and when; what holds of
everything else is proved beside them.

- A return that finds the link down voids no list. A release can then be older than the
  return, exactly when no link came since, and only by a removal whose answer arrived
  before the drop and goes on after the return (`CatchUpLanding.EveryReleaseIsSound`,
  `CatchUpLanding.StaleReturnReleases`); ios/README.md has the return re-aim the catch-up.
- A `sessions_unavailable` reply to a request of its own counts as progress for the
  catch-up: a Mac that refuses every list is never redialled
  (`CatchUpPatience.RefusedListsNeverRedial`), where ios/README.md has a catch-up without
  a list redial.
- After a window drops what was held, the model shown can go back to an older one
  (`ReplicaRuns.DroppedWindowShowsAnOlderFact`).
- An event that comes first into an empty window, above the window's first seq, leaves the
  hole beneath it untold; `ReplicaRuns.FirstArrivalTells` says exactly when.
- The 33rd unreadable line of one scan is on no record (`TailerRuns.CapLosesALine`), and a
  turn whose only Stop-hook summaries carry a `hookLabel` files no end
  (`TailerRuns.OneEndPerTurn`).
- A text claim is granted even when its session was deleted and no row was written.
  Nothing is typed for it: a session goes only when no supervisor is attached
  (`Mutations.LateClaimTypesNothing`).
- The same words can leave under two ids: when two sends cross
  (`CodexSends.CrossedAnswerLosesTheOther`), when an unreadable answer is followed by an
  edit (`CodexSends.UnreadableThenEditedIsLost`) and when the app is killed with a frame in
  flight (`CodexSends.KilledInFlightIsLost`). `CodexSends.SecondIdExactly` says of every
  state whether the next tap does it, and `CodexSends.CarefulRunsNeverSayTwice` which acts
  never lead there.
- The refusal matcher takes the leftmost tail, so a value that quotes the tail hides its own
  sentence (`Refusals.QuotedTailIsMissed`).
- A reaper that gives up on a client it killed returns the session's lease all the same, so
  two clients can be alive together (`TerminalLeases.GivingUpOrphans`,
  `TerminalLeases.OverlapIsReached`); mac/README.md says two must never overlap.

## Assumptions

- The Mac answers the requests of one link in order, and a link that goes takes with it the
  frame still being written.
- The log served to a replica is one log: a seq names one event. `HistoryOrder` takes the
  events as the store files them, seqs ascending and ids unique.
- Within one transcript a uuid names one entry, where a lemma says so
  (`TailerRuns.ReusedUuidSplits` shows why), and no two different lines share a hash, where
  one says so (`TailerLines.ShasTellTexts`). A transcript only grows, or is read again from
  the top.
- A page's good end names a seq below the window, and a list, the pins it left and a card
  asked for put one request at one seq, where a lemma counts what is left to ask for
  (`CatchUpWaiting.EndsRequest`, `CatchUpCards.Coherent`).
- A database transaction happens whole or not at all.
- A session is deleted only with no supervisor attached, and none attaches after
  (mac/ccd/src/state.rs:10049-10060, 8213-8223).
- A ledger entry is filed under a run's uid, which holds no vertical bar, and its material
  is a digest.
- What a person does after the supervisor's last look and before its keystroke is outside
  what any look can promise: `Interlock` speaks of what each look saw.
- Rows built from events, and whether they show anything, are parameters of the catch-up;
  so are a line's decoding in the tailer, and what a pane shows in the interlock.

## Model

| member | source | states |
|---|---|---|
| `CatchUpLanding.EveryReleaseIsSound` | `CodeConnectKit/Sources/CodeConnectKit/AppModel.swift:2552-2590` | over every run since launch: a release happens only in the foreground, on a list asked for no earlier than the last aim or leaving, and no earlier than the last return if and only if that return found the link up or a link came since (where it is earlier, only a removal's answer can have released it); every listed session is level, settled on this link, paged, pinned and quiet, and the Mac's own list is on screen |
| `CatchUpProgress.ReleasesExactly` | `CodeConnectKit/Sources/CodeConnectKit/AppModel.swift:2552-2580` | in every standing state a look releases if and only if the app is in front, the catch-up has its list, each listed session is known, holds at least its listed seq and was subscribed to on the catch-up's link, and, once built and filled, each shows something or may ask for nothing earlier, with no page or card on its way, and each listed card at hand; otherwise nothing on screen moves |
| `CatchUpProgress.LookReleasesOrAsks` | `CodeConnectKit/Sources/CodeConnectKit/AppModel.swift:2681-2712` | a look at sessions that are all here releases, or leaves one of them with a page or a card on its way |
| `CatchUpProgress.WholeLogsRelease` | `CodeConnectKit/Sources/CodeConnectKit/AppModel.swift:2552-2580` | with whole logs and nothing on its way the look releases at once, on that list, the link up or not |
| `CatchUpProgress.RemovedIsNotWaitedFor` | `CodeConnectKit/Sources/CodeConnectKit/AppModel.swift:2595-2606` | with the screen held, a removal takes the run off the list waited for and the list drawn, with its session, its face and its mark, and nothing else, and the rest is looked at then and there |
| `CatchUpWaiting.AnswersRelease` | `CodeConnectKit/Sources/CodeConnectKit/AppModel.swift:2552-2580` | a catch-up whose sessions are here releases once it is answered: of answers that each end a request on its way, in any order, good or failed, no more can come before the release than there was left to ask for, and until then there is always one to answer |
| `CatchUpWaiting.EveryAnswerIsProgress` | `CodeConnectKit/Sources/CodeConnectKit/AppModel.swift:2681-2712` | each such answer releases the screen, or leaves all still waiting, something on its way and strictly less to ask for |
| `CatchUpSubscriptions.ListedAreUnderway` | `CodeConnectKit/Sources/CodeConnectKit/AppModel.swift:2266-2290` | over every run: once a list has come on a live link, each session it names is settled on that link or has a task begun on it |
| `CatchUpSubscriptions.SubscriptionSettles` | `CodeConnectKit/Sources/CodeConnectKit/AppModel.swift:2300-2395` | over every run: a task of the live link that has read its cache settles its session on that link and touches no other; of a Mac that pages, everything above both what the phone then holds and what its window leaves out is asked for |
| `CatchUpReturns.DueWindowsAreReset` | `CodeConnectKit/Sources/CodeConnectKit/AppModel.swift:2077-2100` | the list that answers sets the window of each session due a reset to the newest 500 of what it says the session has, whatever else it names, and leaves none due |
| `CatchUpReturns.ReturnOwesResets` | `CodeConnectKit/Sources/CodeConnectKit/AppModel.swift:1582-1589` | the first sign of a return, and only that, owes every session known a reset |
| `CatchUpSubscriptions.OldMacIsAskedFrom` | `CodeConnectKit/Sources/CodeConnectKit/AppModel.swift:2315-2350` | a Mac that does not page is asked from the newest event held or cached; with neither, or with one past the end of its log, for its newest 400 |
| `CatchUpSubscriptions.NewLinkAsksAfresh` | `CodeConnectKit/Sources/CodeConnectKit/AppModel.swift:2236-2253` | over every run: a new link waits for nothing asked on the old one, keeps what each session holds, and waits for its own list |
| `CatchUpSubscriptions.RunForgetsNone` | `CodeConnectKit/Sources/CodeConnectKit/AppModel.swift:2266-2395` | over every run no subscription of a live link is lost on the way |
| `CatchUpLive.ScreenIsTheTruth` | `CodeConnectKit/Sources/CodeConnectKit/SessionState.swift:464-500` | over every run: with no catch-up open, each session known is drawn and shows what it is, in rows of every event it holds where no rebuild is due |
| `CatchUpLive.RunMirrors` | `CodeConnectKit/Sources/CodeConnectKit/SessionState.swift:464-500` | the invariant behind it, over every run |
| `CatchUpCards.CardEnds` | `CodeConnectKit/Sources/CodeConnectKit/SessionState.swift:759-784` | a card asked for is pinned if and only if its event came before a good end, the last of its seq and a card's; otherwise it is known to be missing |
| `CatchUpCards.EndsAreProgress` | `CodeConnectKit/Sources/CodeConnectKit/SessionState.swift:717-784` | each page or card that ends leaves strictly less to ask for |
| `CatchUpCards.PageEnds` | `CodeConnectKit/Sources/CodeConnectKit/SessionState.swift:717-742` | a good page takes the pins its window now reaches, draws the rest with it and leaves every listed card at hand that was; a failed one only stops the fill |
| `CatchUpCards.PinsStayExactly` | `CodeConnectKit/Sources/CodeConnectKit/SessionState.swift:789-804` | a pin stays if and only if the list names its card where it stands, it was answered, or an event held answers it |
| `CatchUpCards.WindowKeepsCards` | `CodeConnectKit/Sources/CodeConnectKit/SessionState.swift:646-678` | of what a window leaves below it, exactly the open cards the list names are pinned |
| `CatchUpCards.PinsRememberAnswers` | `CodeConnectKit/Sources/CodeConnectKit/SessionState.swift:646-678` | each where the last event that names it stands, answered if and only if something below the window answers it after that |
| `CatchUpCards.WindowSetsPins` | `CodeConnectKit/Sources/CodeConnectKit/SessionState.swift:646-678` | the pins of a window set afresh are those of the events it drops, merges included |
| `CatchUpCards.CacheFillsAnEmptyCopy` | `CodeConnectKit/Sources/CodeConnectKit/SessionState.swift:505-543` | an empty copy takes the cache, rows and newest fact with it; any other keeps what it has |
| `CatchUpWatch.ReturnAimedIs` | `CodeConnectKit/Sources/CodeConnectKit/AppModel.swift:1582-1589` | over every run: in the foreground the last aim is no older than the last return if and only if that return found the link up or a link came since |
| `CatchUpWatch.SubscriptionWorks` | `CodeConnectKit/Sources/CodeConnectKit/AppModel.swift:2266-2360` | a subscription that read the cache moves one session and nothing of the catch-up's own |
| `CatchUpLanding.StaleReturnReleases` | `CodeConnectKit/Sources/CodeConnectKit/AppModel.swift:1350-1374` | such a release, step by step from launch: a removal answered before the link dropped goes on after a return that was not aimed |
| `CatchUpRuns.ScreenIsFrozen` | `CodeConnectKit/Sources/CodeConnectKit/AppModel.swift:2489-2528` | over every interleaving with no release: the same catch-up stays open and the whole screen is the one held, edited only by the reader's own removals, dismissals and reviews |
| `CatchUpRuns.AdvanceIsStillOrReleases` | `CodeConnectKit/Sources/CodeConnectKit/AppModel.swift:2552-2563` | one look at an open catch-up either changes nothing on screen or releases all of it |
| `CatchUpRuns.StepMoves` | `CodeConnectKit/Sources/CodeConnectKit/AppModel.swift:2021-2188` | each single step of a held catch-up, before its look, leaves every face of the screen as it was but for the act the reader made |
| `CatchUpRuns.CancelledAreStill` | `CodeConnectKit/Sources/CodeConnectKit/SessionState.swift:746-822` | what a lost link does to page and card requests changes nothing drawn |
| `CatchUpRuns.RemovalMoves` | `CodeConnectKit/Sources/CodeConnectKit/AppModel.swift:2595-2606` | a run the reader removed leaves the held screen alone, with its mark |
| `CatchUpRuns.DismissMoves` | `CodeConnectKit/Sources/CodeConnectKit/AppModel.swift:1862-1864` | dismissing a gap under a held screen changes that one session's notice and nothing else |
| `CatchUpRuns.ReviewMoves` | `CodeConnectKit/Sources/CodeConnectKit/AppModel.swift:1857-1859` | marking a run reviewed under a held screen changes that one mark and nothing else |
| `CatchUpReleases.ReplyIsOwn` | `CodeConnectKit/Sources/CodeConnectKit/AppModel.swift:1627-1650` | with replies in request order, the next reply answers the catch-up if and only if its request was written at or after the catch-up was last aimed |
| `CatchUpReleases.RunStands` | `CodeConnectKit/Sources/CodeConnectKit/AppModel.swift:2021-2188` | every state reached from launch keeps the book-keeping of positions, the mirror of truth and screen outside a catch-up, and the hold inside one |
| `CatchUpReleases.AdvanceStands` | `CodeConnectKit/Sources/CodeConnectKit/AppModel.swift:2552-2590` | looking, building, filling and releasing keep that invariant |
| `CatchUpReleases.ListFiledStands` | `CodeConnectKit/Sources/CodeConnectKit/AppModel.swift:2047-2111` | filing a list — departures, subscriptions, window resets, pins — keeps it |
| `CatchUpReleases.SubscriptionStands` | `CodeConnectKit/Sources/CodeConnectKit/AppModel.swift:2266-2395` | a subscription that finishes loading, through a rewound log or a newer window, keeps it |
| `CatchUpReleases.ConnectStands` | `CodeConnectKit/Sources/CodeConnectKit/AppModel.swift:2236-2253` | a new link keeps it, whatever was in flight on the old one |
| `CatchUpWork.ReadiedFills` | `CodeConnectKit/Sources/CodeConnectKit/AppModel.swift:2552-2563` | what the second check reads is built: every session's rows are those of its events |
| `CatchUpLanding.ScreenIsHeldAtOnce` | `CodeConnectKit/Sources/CodeConnectKit/AppModel.swift:2509-2528` | leaving with a screen to hold, or a new link, holds every session at once and draws nothing |
| `CatchUpLanding.ReleasePublishesOnce` | `CodeConnectKit/Sources/CodeConnectKit/SessionState.swift:464-479` | at a release a session publishes exactly once if what it shows changed, and not at all if it did not |
| `CatchUpLanding.OlderListResetsNothing` | `CodeConnectKit/Sources/CodeConnectKit/AppModel.swift:2077-2090` | a list asked for before the aim resets no window, spends no reset and changes nothing the catch-up waits for |
| `CatchUpPatience.CheckOnlyRedials` | `CodeConnectKit/Sources/CodeConnectKit/AppModel.swift:2624-2632` | a stall check never releases or draws; it redials if and only if the link is up, the app in front and no progress was made since the last check |
| `CatchUpPatience.RefusedListPutsOffTheRedial` | `CodeConnectKit/Sources/CodeConnectKit/AppModel.swift:2180-2183` | a refused list stops the next check from redialling if and only if its request was written at or after the last aim, though no list came |
| `CatchUpPatience.RefusedListsNeverRedial` | `CodeConnectKit/Sources/CodeConnectKit/AppModel.swift:2180-2183` | over any number of rounds: a Mac that answers every request and never with a list is never redialled |
| `CatchUpPatience.EventIsProgressExactly` | `CodeConnectKit/Sources/CodeConnectKit/AppModel.swift:2112-2131` | an event counts as progress if and only if it lowers what the catch-up's list is still owed |
| `CatchUpPatience.ChecksAreBounded` | `CodeConnectKit/Sources/CodeConnectKit/AppModel.swift:2612-2632` | over every run on a live link in the foreground whose lists repeat the targets — events, refreshes, repeated and refused lists, merges, page ends, subscriptions, the reader's acts: checks that do not redial are never more than the events owed, the progress on hand, one for each page end and refused list, and a list's worth for each subscription |
| `CatchUpPatience.OwnListWaits` | `CodeConnectKit/Sources/CodeConnectKit/AppModel.swift:2047-2090` | the wait begins with the catch-up's own list: filed, it leaves no window of its sessions to reset |
| `CatchUpPatience.RepeatSpends` | `CodeConnectKit/Sources/CodeConnectKit/AppModel.swift:2047-2090` | a list that repeats the targets is no progress, resets nothing and costs no session anything |
| `CatchUp.CatchUpControl.constructor` | `CodeConnectKit/Sources/CodeConnectKit/AppModel.swift:274-300` | a model starts with no catch-up, no link and nothing written or answered |
| `CatchUp.CatchUpControl.SyncSessionsCount` | `CodeConnectKit/Sources/CodeConnectKit/AppModel.swift:1652-1657` | the counts of lists written and answered start again with each link |
| `CatchUp.CatchUpControl.RequestSessions` | `CodeConnectKit/Sources/CodeConnectKit/AppModel.swift:1627-1636` | a list request is counted if it left, and the first on the catch-up's link is its own |
| `CatchUp.CatchUpControl.TakeSessionsReply` | `CodeConnectKit/Sources/CodeConnectKit/AppModel.swift:1641-1650` | a reply takes the next position, and says whether it is the catch-up's |
| `CatchUp.CatchUpControl.HoldScreen` | `CodeConnectKit/Sources/CodeConnectKit/AppModel.swift:2521-2528` | an open catch-up is kept; otherwise a new epoch opens |
| `CatchUp.CatchUpControl.OpenCatchUp` | `CodeConnectKit/Sources/CodeConnectKit/AppModel.swift:2489-2497` | aiming voids the list and the position |
| `CatchUp.CatchUpControl.Leave` | `CodeConnectKit/Sources/CodeConnectKit/AppModel.swift:2509-2516` | leaving voids the list and the position, and holds what is on screen |
| `CatchUp.CatchUpControl.ComeBack` | `CodeConnectKit/Sources/CodeConnectKit/AppModel.swift:1582-1589` | a return asks for its list only on a link that is up |
| `CatchUp.CatchUpControl.CheckCatchUp` | `CodeConnectKit/Sources/CodeConnectKit/AppModel.swift:2624-2632` | progress is spent by one check; without it the link is dropped |
| `ReplicaRuns.RunKeepsWell` | `CodeConnectKit/Sources/CodeConnectKit/SessionState.swift:556-742` | over every run of arrivals, windows, pages and dismissals: held events are ordered and unique, waiting ones new, a page fits under the window, and the notice counts what is missing |
| `ReplicaRuns.CoalescingIsInvisible` | `CodeConnectKit/Sources/CodeConnectKit/SessionState.swift:1025-1095` | merging late arrivals in one pass, whenever the 16 ms window closes, leaves exactly what inserting each as it came would have |
| `ReplicaRuns.ArrivalOrderIsInvisible` | `CodeConnectKit/Sources/CodeConnectKit/SessionState.swift:556-622` | two runs that take the same seqs of one log hold the same events, in any order, merged anywhere |
| `ReplicaRuns.NoticeIsExact` | `CodeConnectKit/Sources/CodeConnectKit/SessionState.swift:956-993` | from a window on, through arrivals, merges, whole pages, windows and dismissals, the notice counts exactly the missing seqs but for those dismissed and those beneath a late first arrival, and is there if and only if some are, unless the Mac's own resync notice stands in its place; a page cut short and a rewound log end the claim until the next window |
| `ReplicaRuns.RunTells` | `CodeConnectKit/Sources/CodeConnectKit/SessionState.swift:556-742` | the noted ranges stay the window's holes but for those waived, over every such run |
| `ReplicaRuns.DismissTells` | `CodeConnectKit/Sources/CodeConnectKit/SessionState.swift:894-902` | a dismissed notice leaves the holes of that moment untold, and only those |
| `ReplicaRuns.FirstArrivalTells` | `CodeConnectKit/Sources/CodeConnectKit/SessionState.swift:556-622` | into an empty window, the notice tells every hole if and only if the first event is the window's first, and otherwise all but those beneath it |
| `ReplicaRuns.WindowIsWhole` | `CodeConnectKit/Sources/CodeConnectKit/SessionState.swift:646-678` | a window set afresh starts at max(1, last-499) and holds every seq from there to its tail, or nothing, with no notice left |
| `ReplicaRuns.ResumeFillsWindow` | `CodeConnectKit/Sources/CodeConnectKit/SessionState.swift:646-678` | the log delivered from where the window says to resume fills it: exactly the newest 500, or more where more was held |
| `ReplicaRuns.FactIsNewest` | `CodeConnectKit/Sources/CodeConnectKit/SessionState.swift:1025-1067` | between windows the confirmed model shown is that of the newest event held, in any order of arrival |
| `ReplicaRuns.FactOrderIsInvisible` | `CodeConnectKit/Sources/CodeConnectKit/SessionState.swift:1025-1067` | and does not depend on the order the log arrived in |
| `ReplicaRuns.FactGoesBackExactly` | `CodeConnectKit/Sources/CodeConnectKit/SessionState.swift:556-622` | the fact goes back in time if and only if an arrival above the tail carries a fact below the one held |
| `ReplicaRuns.DroppedWindowShowsAnOlderFact` | `CodeConnectKit/Sources/CodeConnectKit/SessionState.swift:646-678` | it does: a window that drops what was held lets a replay's older fact displace the newer one |
| `ReplicaRuns.TotalIsCount` | `CodeConnectKit/Sources/CodeConnectKit/SessionState.swift:969-993` | summing over noted ranges counts each missing seq once |
| `ReplicaRuns.WholePageTells` | `CodeConnectKit/Sources/CodeConnectKit/SessionState.swift:717-742` | a page that reaches down to its first seq leaves exactly the holes that were |
| `ReplicaRuns.PageIsKept` | `CodeConnectKit/Sources/CodeConnectKit/SessionState.swift:556-577` | a page asked for is kept: after its end a copy of a log holds exactly what it held or had waiting and each event that came meanwhile, in any order among merges and the reader's acts, that is the window's or within a page below it; the window starts where the page said |
| `ReplicaRuns.WholePageIsKept` | `CodeConnectKit/Sources/CodeConnectKit/SessionState.swift:705-742` | so a whole page, delivered in any order, fills the window down to its first seq |
| `ReplicaRuns.ReconnectKeepsPages` | `CodeConnectKit/Sources/CodeConnectKit/SessionState.swift:646-678` | a reconnect keeps the window and every page above it and adds what was missed, unless that was more than 500: then the newest 500 stand alone |
| `Replica.LackingIsADistance` | `CodeConnectKit/Sources/CodeConnectKit/SessionState.swift:989-993` | the count of missing seqs is the range less the distance between two partition points |
| `Replica.AscendingIsDetermined` | `CodeConnectKit/Sources/CodeConnectKit/SessionState.swift:1072-1095` | an ordered run is determined by what it holds: the partner of every merge result |
| `Replica.SessionLog.constructor` | `CodeConnectKit/Sources/CodeConnectKit/SessionState.swift:505-543` | an empty copy |
| `Replica.SessionLog.PartitionPoint` | `CodeConnectKit/Sources/CodeConnectKit/SessionState.swift:1133-1145` | binary search finds exactly how many events lie below a seq |
| `Replica.SessionLog.Holds` | `CodeConnectKit/Sources/CodeConnectKit/SessionState.swift:982-985` | a seq is held exactly when its event is |
| `Replica.SessionLog.MissingCount` | `CodeConnectKit/Sources/CodeConnectKit/SessionState.swift:989-993` | the number of a range's seqs not held |
| `Replica.SessionLog.Merged` | `CodeConnectKit/Sources/CodeConnectKit/SessionState.swift:1072-1095` | the two-finger merge is inserting each incoming event in turn |
| `Replica.SessionLog.Sorted` | `CodeConnectKit/Sources/CodeConnectKit/SessionState.swift:1025-1067` | sorting what waits is inserting it one at a time, the first of a seq kept |
| `Replica.SessionLog.DropFilled` | `CodeConnectKit/Sources/CodeConnectKit/SessionState.swift:969-980` | the ranges that still lack something, in order |
| `Replica.SessionLog.TotalMissing` | `CodeConnectKit/Sources/CodeConnectKit/SessionState.swift:969-993` | how many seqs the ranges lack |
| `Replica.SessionLog.QueuePage` | `CodeConnectKit/Sources/CodeConnectKit/SessionState.swift:717-742` | a page's events wait behind what was waiting, each seq once |
| `Replica.SessionLog.Ingest` | `CodeConnectKit/Sources/CodeConnectKit/SessionState.swift:556-622` | an arrival is appended with its hole noted, waits to be merged, or changes nothing |
| `Replica.SessionLog.NoteMissing` | `CodeConnectKit/Sources/CodeConnectKit/SessionState.swift:956-960` | a hole joins the noted ranges |
| `Replica.SessionLog.ReconcileGap` | `CodeConnectKit/Sources/CodeConnectKit/SessionState.swift:969-980` | filled ranges go, and the notice is restated or removed |
| `Replica.SessionLog.TakeFacts` | `CodeConnectKit/Sources/CodeConnectKit/SessionState.swift:1025-1067` | the newest fact of a merge wins, by seq |
| `Replica.SessionLog.MergePending` | `CodeConnectKit/Sources/CodeConnectKit/SessionState.swift:1025-1067` | one merge settles all that waits |
| `Replica.SessionLog.HoldTo` | `CodeConnectKit/Sources/CodeConnectKit/SessionState.swift:646-678` | what does not cover the window to its own tail is dropped |
| `Replica.SessionLog.ApplyWindow` | `CodeConnectKit/Sources/CodeConnectKit/SessionState.swift:646-678` | the window's state and where to resume |
| `Replica.SessionLog.BeginPage` | `CodeConnectKit/Sources/CodeConnectKit/SessionState.swift:705-711` | one page at a time, right below the window |
| `Replica.SessionLog.EndHistory` | `CodeConnectKit/Sources/CodeConnectKit/SessionState.swift:717-742` | a page's events are merged if it is still the one asked for |
| `Replica.SessionLog.DismissGap` | `CodeConnectKit/Sources/CodeConnectKit/SessionState.swift:894-902` | a dismissed notice takes its ranges with it |
| `TailerRuns.ScheduleDoesNotMatter` | `mac/ccd/src/tailer.rs:408-585` | two runs that end caught up over one file hold the same facts with the same seqs, whatever the growth, poll, crash and rescan schedule |
| `TailerRuns.CaughtUpLogIsTheFiles` | `mac/ccd/src/tailer.rs:439-585` | a caught-up log is exactly that of a reader taking the file's spans one by one |
| `TailerLines.EveryLineIsOnRecord` | `mac/ccd/src/tailer.rs:508-552` | read back onto the file's bytes: a caught-up lossless run holds one fact for each identity in the file — a uuid, else the bytes; damaged bytes; an overlong window — in the order of the spans that first had it, each saying what its span says, and no span without the fact of its own |
| `TailerLines.EveryEntryIsOnRecord` | `mac/ccd/src/tailer.rs:764-815` | of the lines a read can hold, told on the bytes alone, no decoded entry is missing from the log |
| `TailerLines.IdentitiesAreApart` | `mac/ccd/src/tailer.rs:786-794` | spans of different identity are filed under different ids |
| `TailerRuns.PollsCatchUp` | `mac/ccd/src/tailer.rs:408-431` | polls of a file that stands still come to its end, each that finds the cursor's last line in place going on from it |
| `TailerRuns.RunKeepsSound` | `mac/ccd/src/tailer.rs:408-431` | over every run the cursor stands on a span boundary the log has reached |
| `TailerRuns.PollIsCanonical` | `mac/ccd/src/tailer.rs:439-585` | a poll from any boundary commits the canonical log if and only if, of the lines of its window that do not decode, each past the first 32 is among those or on the log |
| `TailerRuns.DropsAreTheWindows` | `mac/ccd/src/tailer.rs:530-552` | what the cap drops is read off the file: the damaged lines past the first 32 of the window, and no others |
| `TailerRuns.LinesFileFirst` | `mac/ccd/src/tailer.rs:530-552` | over a scan the first 32 damaged lines are filed, in order, and the rest dropped, in order |
| `TailerRuns.FewAreSpared` | `mac/ccd/src/tailer.rs:530-552` | supporting: with at most 32 in the window nothing is lost |
| `TailerRuns.CapLosesALine` | `mac/ccd/src/tailer.rs:530-552` | 33 unreadable lines in one scan: the last is on no record |
| `TailerRuns.ReusedUuidSplits` | `mac/ccd/src/tailer.rs:699-732` | why uuids must name one entry: under one uuid, two entries read in one batch prove no end and read in two prove one |
| `TailerRuns.OverlongLineIsPassed` | `mac/ccd/src/tailer.rs:553-646` | a line of any length is passed in exactly ceil(length / window) polls |
| `TailerRuns.TurnEndIsProved` | `mac/ccd/src/tailer.rs:699-732` | a `turn_duration` ends its turn if and only if, within 64 entries and through no summary, the nearest assistant entry is the main conversation's |
| `TailerRuns.OneEndPerTurn` | `mac/ccd/src/tailer.rs:699-732` | a finished turn files exactly one end if and only if its Stop hooks wrote no summary, or one without a `hookLabel` |
| `TailerRuns.WalkMeetsSummaries` | `mac/ccd/src/tailer.rs:699-732` | the walk over a turn's tail proves an end exactly when it meets no summary |
| `TailerRuns.LookupIsCommitted` | `mac/ccd/src/tailer.rs:699-732` | reading ancestors from an uncommitted batch and the log is reading them from the committed log |
| `TailerRuns.SpanOfGrown` | `mac/ccd/src/tailer.rs:439-585` | a complete span is the same span however the file grows |
| `TailerRuns.DroppedAreOwed` | `mac/ccd/src/tailer.rs:530-552` | everything a scan drops past the cap is in the canonical log, so the drop is a loss |
| `Tailer.NextSpan` | `mac/ccd/src/tailer.rs:508-585` | a span is a line that ends within a read, a full window of one that does not, or nothing yet |
| `Tailer.EndsItsTurn` | `mac/ccd/src/tailer.rs:699-732` | the loop decides what the bounded walk specification says, and always stops |
| `Tailer.Tail.constructor` | `mac/ccd/src/tailer.rs:408-431` | nothing read, nothing filed |
| `Tailer.Tail.ReadLine` | `mac/ccd/src/tailer.rs:508-552` | a line is filed, dropped past the cap, or no fact at all |
| `Tailer.Tail.ReadLines` | `mac/ccd/src/tailer.rs:508-552` | every complete line of a window, in order |
| `Tailer.Tail.ScanFile` | `mac/ccd/src/tailer.rs:439-585` | the facts of one window and the cursor that claims them |
| `Tailer.Tail.Poll` | `mac/ccd/src/tailer.rs:408-431` | facts and cursor are committed together or not at all |
| `Mutations.AtMostOnce` | `mac/ccd/src/store.rs:3723-3833` | over every run of either claim, whatever crashes, races, losses and deletions: no id is typed twice; an id settled as done was typed exactly once; with the session there, what was typed is on record with its material, and what is not on record, or was refused, was not typed |
| `Mutations.RefusalGivesBack` | `mac/ccd/src/store.rs:4572-4586` | over every run, the session there: after a recorded refusal the id is off the record, and the next delivery to claim it, with any material, is granted |
| `Mutations.SuccessIsRemembered` | `mac/ccd/src/store.rs:4543-4565` | over every run, the session there: after a recorded success every later delivery of the id is told it, or with other material that the id is another's |
| `Mutations.UnheardIsNotRetried` | `mac/ccd/src/store.rs:4446-4532` | over every run, the session there: an id whose answer was lost, or whose record failed, stays claimed, and a repeat is told it is not known |
| `Mutations.DeliveryLands` | `mac/ccd/src/store.rs:3723-3833` | from every state a run reaches, a delivery nothing disturbs is handed over once, typed or turned down, and told and recorded as it fared |
| `Mutations.LateClaimTypesNothing` | `mac/ccd/src/store.rs:3723-3791` | a text claim granted on a deleted session writes no row, and from the deletion on nothing is handed to a supervisor |
| `Mutations.SpentIsFinal` | `mac/ccd/src/store.rs:4543-4565` | once settled or left unknown, no later delivery of any material changes the record or types anything |
| `Mutations.CrashLeavesNothingApplying` | `mac/ccd/src/store.rs:3825-3833` | supporting: after a crash no claim can be taken for in progress |
| `Mutations.RepeatIsAnswered` | `mac/ccd/src/store.rs:3723-3791` | supporting: same id with other material is refused; with the same, answered from the record |
| `Mutations.RunKeeps` | `mac/ccd/src/store.rs:3723-3833` | the invariant between the record and what was typed, over every run |
| `Mutations.MutationLedger.constructor` | `mac/ccd/src/store.rs:3723-3791` | an empty table |
| `Mutations.MutationLedger.Insert` | `mac/ccd/src/store.rs:3723-3791` | a row is written if the id is new and its session is there |
| `Mutations.MutationLedger.ClaimMutation` | `mac/ccd/src/store.rs:4446-4532` | a claim without a session is refused |
| `Mutations.MutationLedger.ClaimTextMutation` | `mac/ccd/src/store.rs:3723-3791` | a claim is granted whether or not the insert wrote a row |
| `Mutations.MutationLedger.SettleTextMutation` | `mac/ccd/src/store.rs:3793-3807` | an outcome is written over whatever row there is |
| `Mutations.MutationLedger.SettleMutation` | `mac/ccd/src/store.rs:4543-4565` | the first terminal state wins |
| `Mutations.MutationLedger.ReleaseMutation` | `mac/ccd/src/store.rs:4572-4586` | an applying row, and no other, is let go |
| `Mutations.MutationLedger.Recover` | `mac/ccd/src/store.rs:3825-3833` | each applying row becomes unknown, and no other changes |
| `Mutations.MutationLedger.DeleteSession` | `mac/ccd/src/store.rs:2555-2600` | a session goes with its rows |
| `CodexSends.MarkedIsNeverSaid` | `CodeConnectKit/Sources/CodeConnectKit/CodexControls.swift:121-316` | over every run of taps, answers, lost answers, other sessions' marks and leavings and relaunches, while the ledger holds the mark (fewer than 48 newer, its session there): marked material leaves no further frame and every tap of it changes nothing |
| `CodexSends.SecondIdExactly` | `CodeConnectKit/Sources/CodeConnectKit/CodexControls.swift:121-167` | in every state any run reaches, the next tap of words unaccounted for leaves under another id if and only if they are not marked, not what is open under that id, and no send of the id they would leave under is awaited |
| `CodexSends.CarefulRunsNeverSayTwice` | `CodeConnectKit/Sources/CodeConnectKit/CodexControls.swift:121-316` | over every run in which, with an ask unaccounted for, no other words are tapped and the app is not killed, with at most 48 marks and the session there, words unaccounted for never leave under a second id |
| `CodexSends.CarefulRunCovers` | `CodeConnectKit/Sources/CodeConnectKit/CodexControls.swift:121-316` | the invariant behind it: on such a run material unaccounted for is open under its id or in the ledger |
| `CodexSends.RunRecords` | `CodeConnectKit/Sources/CodeConnectKit/CodexControls.swift:148-167` | over every run ids are minted once and carry the words they were opened for |
| `CodexSends.SpentIsRefused` | `CodeConnectKit/Sources/CodeConnectKit/CodexControls.swift:244-254` | a send whose answer is lost is marked, and a tap of it mints no id and changes nothing |
| `CodexSends.RetryReusesItsId` | `CodeConnectKit/Sources/CodeConnectKit/CodexControls.swift:148-167` | supporting: an unedited retry keeps its id if and only if the answer left the outcome open |
| `CodexSends.CrossedAnswerLosesTheOther` | `CodeConnectKit/Sources/CodeConnectKit/CodexControls.swift:256-279` | two sends crossing: the first's answer clears the id the second is open under, and the second's words leave under two ids |
| `CodexSends.UnreadableThenEditedIsLost` | `CodeConnectKit/Sources/CodeConnectKit/CodexControls.swift:256-279` | an answer this build cannot read, then an edit: the first words leave again under a new id |
| `CodexSends.KilledInFlightIsLost` | `CodeConnectKit/Sources/CodeConnectKit/CodexSpentLedger.swift:59-65` | a frame in flight when the app is killed was never marked, and its words leave again under a new id |
| `CodexSends.GreyIsBounded` | `CodeConnectKit/Sources/CodeConnectKit/CodexControls.swift:323-333` | over every run of answers, messages and ticks, Stop is greyed if and only if a link-state refusal is younger than the cooldown with no message sent since |
| `CodexSends.GreyIsTheControls` | `CodeConnectKit/Sources/CodeConnectKit/CodexControls.swift:199-240` | supporting: that grey is the one the controls keep |
| `CodexSends.ObservedOnce` | `CodeConnectKit/Sources/CodeConnectKit/CodexControls.swift:281-285` | a turn learned to have begun is listed once, and last, the others kept; one watched end is not listed anew |
| `CodexSends.TurnsAreAsTold` | `CodeConnectKit/Sources/CodeConnectKit/CodexControls.swift:199-293` | over every run of answers, events and windows: a turn is retired if and only if a stop of it landed, and observed if and only if it was heard of while none had and no window has skipped past it since |
| `CodexSends.CodexControls.ForgetObservedTurns` | `CodeConnectKit/Sources/CodeConnectKit/CodexControls.swift:287-293` | the turns a window skipped past go, the rest keep their order |
| `CodexSends.MarkIsHeld` | `CodeConnectKit/Sources/CodeConnectKit/CodexSpentLedger.swift:59-75` | a mark is refused through any 47 later marks, over relaunches and other sessions' leaving |
| `CodexSends.OldestIsDropped` | `CodeConnectKit/Sources/CodeConnectKit/CodexSpentLedger.swift:59-65` | and no longer: a full ledger's next mark drops its oldest, and only that |
| `CodexSends.StoredIsOne` | `CodeConnectKit/Sources/CodeConnectKit/CodexSpentLedger.swift:51-53` | with no vertical bar in a key or digest, one stored string is one entry |
| `CodexSends.ForgettingIsExact` | `CodeConnectKit/Sources/CodeConnectKit/CodexSpentLedger.swift:69-75` | forgetting by substring drops exactly the session's own entries, whatever run leaves |
| `CodexSends.WithoutIsExact` | `CodeConnectKit/Sources/CodeConnectKit/CodexSpentLedger.swift:69-75` | forgetting a session drops or keeps each entry by its session alone |
| `CodexSends.WithoutJoins` | `CodeConnectKit/Sources/CodeConnectKit/CodexSpentLedger.swift:69-75` | and part by part as in the whole, so what stays keeps its order |
| `CodexSends.SpentLedger.constructor` | `CodeConnectKit/Sources/CodeConnectKit/CodexSpentLedger.swift:43-49` | a launch keeps the newest 48 of what was stored |
| `CodexSends.SpentLedger.MarkSpent` | `CodeConnectKit/Sources/CodeConnectKit/CodexSpentLedger.swift:59-65` | a mark already held is not moved; a new one is last |
| `CodexSends.SpentLedger.Forget` | `CodeConnectKit/Sources/CodeConnectKit/CodexSpentLedger.swift:69-75` | a session's entries go, the rest keep their order |
| `CodexSends.CodexControls.constructor` | `CodeConnectKit/Sources/CodeConnectKit/CodexControls.swift:56-60` | nothing open, nothing greyed |
| `CodexSends.CodexControls.ComposeIsSpent` | `CodeConnectKit/Sources/CodeConnectKit/CodexControls.swift:121-124` | material is spent for this session or not |
| `CodexSends.CodexControls.ComposeRequestID` | `CodeConnectKit/Sources/CodeConnectKit/CodexControls.swift:160-167` | the open id for the same material, else the fresh one |
| `CodexSends.CodexControls.BeginStop` | `CodeConnectKit/Sources/CodeConnectKit/CodexControls.swift:178-181` | a Stop in flight |
| `CodexSends.CodexControls.BeginCompose` | `CodeConnectKit/Sources/CodeConnectKit/CodexControls.swift:183-187` | a message in flight |
| `CodexSends.CodexControls.SettleStop` | `CodeConnectKit/Sources/CodeConnectKit/CodexControls.swift:199-240` | what each answer does to the open id, the ledger and the grey |
| `CodexSends.CodexControls.SettleCompose` | `CodeConnectKit/Sources/CodeConnectKit/CodexControls.swift:256-279` | what each answer does to the open id, the ledger and the observed turn |
| `CodexSends.CodexControls.ComposeSentNoAnswer` | `CodeConnectKit/Sources/CodeConnectKit/CodexControls.swift:250-254` | sent and unanswered is marked |
| `CodexSends.CodexControls.ObserveTurn` | `CodeConnectKit/Sources/CodeConnectKit/CodexControls.swift:281-285` | a live turn moved last |
| `CodexSends.CodexControls.ComposeNotSent` | `CodeConnectKit/Sources/CodeConnectKit/CodexControls.swift:309-316` | what never left may be said again |
| `CodexSends.CodexControls.ExpireStopGrey` | `CodeConnectKit/Sources/CodeConnectKit/CodexControls.swift:331-333` | grey ends with its deadline |
| `Waiters.RepliesAreNotCrossed` | `CodeConnectKit/Sources/CodeConnectKit/DaemonConnection.swift:1093-1160` | over every run of requests, failed sends, timeouts, late replies and lost links: the next reply goes to the caller of the request it answers, or to nobody |
| `Waiters.TombstoneIsNeeded` | `CodeConnectKit/Sources/CodeConnectKit/DaemonConnection.swift:1146-1160` | supporting: without its tombstone a timed-out request's late reply is the next caller's |
| `Waiters.TimedOutLetsTheNextIn` | `CodeConnectKit/Sources/CodeConnectKit/DaemonConnection.swift:1093-1160` | in every run a timed-out request keeps its place, waits no longer, and the next request is taken behind it, where before it was refused |
| `Waiters.RunAligns` | `CodeConnectKit/Sources/CodeConnectKit/DaemonConnection.swift:1093-1209` | the queue is the unanswered requests in order, and behind them the one still leaving |
| `Waiters.WaiterQueue.constructor` | `CodeConnectKit/Sources/CodeConnectKit/DaemonConnection.swift:269-286` | nobody waits |
| `Waiters.WaiterQueue.Request` | `CodeConnectKit/Sources/CodeConnectKit/DaemonConnection.swift:1093-1132` | a second live request is refused; otherwise a new place, last |
| `Waiters.WaiterQueue.Deliver` | `CodeConnectKit/Sources/CodeConnectKit/DaemonConnection.swift:1137-1142` | the oldest place is taken, a tombstone's reply dropped |
| `Waiters.WaiterQueue.Abandon` | `CodeConnectKit/Sources/CodeConnectKit/DaemonConnection.swift:1146-1160` | a place becomes a tombstone or goes, and only a live one |
| `TerminalStream.OutputIsWithinCredit` | `mac/ccd/src/terminal.rs:3122-3212` | over every interleaving of reader, connection, pane and phone: nothing is sent before the attach is verified, the wire is a prefix of the pane's output in frames of at most 16 KiB, never longer than the credit granted, and what is outstanding never passes 256 KiB |
| `TerminalStream.InputIsWithinItsWindow` | `mac/ccd/src/terminal.rs:3244-3363` | the pane is typed a prefix of the accepted input, at most 32 KiB of it waits, and the window is exact |
| `TerminalStream.LedgerIsExact` | `mac/ccd/src/ws_server.rs:2439-2461` | the ledger's saturating subtraction and addition never saturate |
| `TerminalStream.GrantIsRefusedExactly` | `mac/ccd/src/ws_server.rs:2376-2397` | a grant closes the terminal if and only if granted less sent would pass the ceiling, so a phone giving back no more than it was sent is never closed |
| `TerminalStream.InputIsRefusedExactly` | `mac/ccd/src/ws_server.rs:2313-2355` | input closes the terminal if and only if it is oversized or past the window less what was given back |
| `TerminalStream.NothingIsStuck` | `mac/ccd/src/terminal.rs:3122-3212` | when the daemon can do no more, the wire has all the output the credit reaches, every keystroke is typed and its credit returned |
| `TerminalStream.EverythingArrives` | `mac/ccd/src/terminal.rs:3122-3363` | on a terminal still open with nothing left to do, the pane has every keystroke sent since the attach and the wire every byte printed, as far as the attach's credit and all grants since reach |
| `TerminalStream.AllHeardIsTaken` | `mac/ccd/src/ws_server.rs:2313-2397` | over every run of a terminal still open: all that was typed since the attach is accepted and all that was granted is counted |
| `TerminalStream.DaemonStepsRunOut` | `mac/ccd/src/terminal.rs:3122-3212` | and it always comes to that: each of its steps uses up a finite measure |
| `TerminalStream.RunStands` | `mac/ccd/src/terminal.rs:3122-3363` | every byte out and in is in one place, in order, and every unit of credit accounted for |
| `TerminalStream.Forward` | `mac/ccd/src/terminal.rs:3122-3212` | one chunk under credit: a prefix as long as the credit allows, in whole frames, in the fewest frames when it all is covered |
| `TerminalStream.TerminalConn.constructor` | `mac/ccd/src/ws_server.rs:1928-1934` | the ledger at attach |
| `TerminalStream.TerminalConn.Grant` | `mac/ccd/src/ws_server.rs:2376-2397` | taken if and only if the ceiling holds |
| `TerminalStream.TerminalConn.Settle` | `mac/ccd/src/ws_server.rs:2439-2461` | settled before it is written |
| `TerminalStream.TerminalConn.Spend` | `mac/ccd/src/ws_server.rs:2337-2350` | taken if and only if the window covers it |
| `TerminalStream.TerminalConn.Replenish` | `mac/ccd/src/ws_server.rs:845-861` | delivered input is given back |
| `TerminalLeases.ClientsOverlapOnlyAroundAnOrphan` | `mac/ccd/src/terminal.rs:3371-3397` | in every run, two live clients of one session imply a reaper gave up on one of them |
| `TerminalLeases.OneClientASession` | `mac/ccd/src/terminal.rs:1085-1125` | while every client dies within its reaper's grace, a session never has two |
| `TerminalLeases.GivingUpOrphans` | `mac/ccd/src/terminal.rs:3387-3397` | a reaper whose two waits run out hands back the lease of a live client |
| `TerminalLeases.OrphanIsOverlapped` | `mac/ccd/src/terminal.rs:1154-1191` | and the next attach then opens a second client beside it |
| `TerminalLeases.OverlapIsReached` | `mac/ccd/src/terminal.rs:3371-3397` | both, from nothing: seven steps to an orphan and three more to two live clients of one session |
| `TerminalLeases.SlotsAreConserved` | `mac/ccd/src/terminal.rs:1100-1125` | holders, table entries and taken slots are equal in number in every run, at most eight |
| `TerminalLeases.LimitMeansOtherSessions` | `mac/ccd/src/terminal.rs:1100-1125` | an attach is refused for the cap if and only if eight other sessions hold terminals |
| `TerminalLeases.TakeoverSucceeds` | `mac/ccd/src/terminal.rs:1154-1191` | on a Mac however full, an attach closes its session's incumbent and, once that is reaped, has its leases |
| `TerminalLeases.WaitersHoldNothing` | `mac/ccd/src/terminal.rs:1154-1191` | a waiting takeover holds nothing its incumbent's release needs |
| `TerminalLeases.RunStands` | `mac/ccd/src/terminal.rs:1100-1268` | the table is the holders, one a session, in every run |
| `TerminalLeases.LeaseTable.constructor` | `mac/ccd/src/terminal.rs:1077-1083` | eight free slots |
| `TerminalLeases.LeaseTable.Acquire` | `mac/ccd/src/terminal.rs:1100-1125` | busy before full, and both leases in one section |
| `TerminalLeases.LeaseTable.Release` | `mac/ccd/src/terminal.rs:1242-1267` | both leases back in one section |
| `TerminalAttach.WaitingIsInvisible` | `mac/ccd/src/ws_server.rs:871-903` | frames parked behind an opening leave terminal and record exactly as if the terminal had been there when they came |
| `TerminalAttach.ParkedExactly` | `mac/ccd/src/ws_server.rs:1737-1774` | an attach survives what arrives behind it if and only if that is at most 128 frames, 64 KiB, one input window and decodable frames |
| `TerminalAttach.OutputOnlyWhileAttached` | `mac/ccd/src/ws_server.rs:1860-1948` | in every run output is sent only for an id announced attached and not asked for or closed since |
| `TerminalAttach.EveryAttachIsAnswered` | `mac/ccd/src/ws_server.rs:2046-2310` | in every run the one id asked for and unanswered is the one opening, and the one attached the live terminal; never both |
| `TerminalAttach.RefusedAttachCostsNothing` | `mac/ccd/src/ws_server.rs:2046-2232` | a refused attach costs only what its own id named; a good one replaces whatever was live and leaves no other id open |
| `TerminalAttach.AttachOpensExactly` | `mac/ccd/src/ws_server.rs:2046-2232` | in every run an attach opens, as it asked, if and only if the device is paired, the transport private, the run Claude's, the id 1 to 64 bytes, the size within 2-512 by 2-256 and the credit within 1 to 256 KiB; any other is closed with its reason |
| `TerminalAttach.LiveFramesAreApplied` | `mac/ccd/src/ws_server.rs:2313-2412` | in every run: what a live terminal does with input, credit, a resize, a detach, and a frame for another id |
| `TerminalAttach.RunStands` | `mac/ccd/src/ws_server.rs:1981-2412` | the record and the connection's state agree in every run |
| `TerminalAttach.Connection.constructor` | `mac/ccd/src/ws_server.rs:490-505` | no terminal and nothing said |
| `TerminalAttach.Connection.Defer` | `mac/ccd/src/ws_server.rs:1737-1774` | parked, or refused for a bound |
| `TerminalAttach.Connection.Close` | `mac/ccd/src/ws_server.rs:1958-1977` | one close is said |
| `TerminalAttach.Connection.TakeAttach` | `mac/ccd/src/ws_server.rs:2046-2310` | collision, refusals, displacement, opening, in that order |
| `TerminalAttach.Connection.TakeInput` | `mac/ccd/src/ws_server.rs:2313-2355` | a keystroke frame handed on, or the terminal closed |
| `TerminalAttach.Connection.Handle` | `mac/ccd/src/ws_server.rs:1981-2412` | one terminal message |
| `TerminalAttach.Connection.FinishOpen` | `mac/ccd/src/ws_server.rs:871-903` | a finished open, and all that was parked, in order |
| `Interlock.InterlockHolds` | `mac/codeconnect/src/supervisor.rs:847-1057` | whatever a person does between any two looks: text is typed at most once, straight after a look that authorises it; a mode is left at most once, and only a bare scroll position; at most one recovery key; and the answer is true |
| `Interlock.TypesExactly` | `mac/codeconnect/src/supervisor.rs:1579-1666` | on raw looks: a send types if and only if the clock reads and leaves room and the look that decides shows the target drawn, as expected and, for the composer, the program at the keys; and leaves a mode if and only if the first look shows the drawn composer behind a bare scroll position and there is room |
| `Interlock.RecoveryIsExact` | `mac/codeconnect/src/supervisor.rs:1215-1487` | on raw looks: when a recovery presses its key, and what each of its answers means of the last look |
| `Interlock.SubmitsExactly` | `mac/codeconnect/src/supervisor.rs:847-1057` | text that landed is submitted if and only if it is to be, with one Enter right after it |
| `Interlock.RecoveryActs` | `mac/codeconnect/src/supervisor.rs:1215-1487` | recovery types nothing, leaves no mode, and sends at most one key, after its three looks |
| `Interlock.TypingActs` | `mac/codeconnect/src/supervisor.rs:847-1057` | the text comes first and once; what follows only looks or recovers |
| `Interlock.RunShape` | `mac/codeconnect/src/supervisor.rs:1579-1666` | every run is refused before typing, or looks that end in one that authorises |
| `Interlock.Desk.constructor` | `mac/codeconnect/src/supervisor.rs:847-1057` | nothing done yet |
| `Interlock.Desk.LookAtPane` | `mac/codeconnect/src/supervisor.rs:1579-1592` | a look is remembered and changes nothing |
| `Interlock.Desk.Affords` | `mac/codeconnect/src/supervisor.rs:1579-1592` | the clock is asked once a time |
| `Interlock.Desk.LeaveCopyMode` | `mac/codeconnect/src/supervisor.rs:1579-1592` | one mode left, remembered |
| `Interlock.Desk.TypeText` | `mac/codeconnect/src/supervisor.rs:847-1057` | the text, once, as it fared |
| `Interlock.Desk.PressEnter` | `mac/codeconnect/src/supervisor.rs:847-1057` | one Enter, as it fared |
| `Interlock.Desk.SendKey` | `mac/codeconnect/src/supervisor.rs:1215-1487` | one key, as it fared |
| `Interlock.Desk.LookTheGatesRunOn` | `mac/codeconnect/src/supervisor.rs:1579-1592` | the first look, or one more after copy mode was left |
| `Interlock.Desk.SendText` | `mac/codeconnect/src/supervisor.rs:847-1057` | the trace and the answer of a whole send |
| `Interlock.Desk.RecoverComposer` | `mac/codeconnect/src/supervisor.rs:1215-1487` | the trace and the answer of a recovery |
| `Interlock.Desk.SendOneKey` | `mac/codeconnect/src/supervisor.rs:1215-1487` | the one key a recovery may send |
| `Interlock.Desk.Verify` | `mac/codeconnect/src/supervisor.rs:1215-1487` | looks until the composer is back or the window has passed |
| `Refusals.MatchIsExact` | `CodeConnectKit/Sources/CodeConnectKit/CodexRefusals.swift:115-141` | the matcher claims a sentence if and only if some filling of the row makes it and, for a row ending in a literal, that literal does not also stand earlier in what is left |
| `Refusals.QuotedTailIsMissed` | `CodeConnectKit/Sources/CodeConnectKit/CodexRefusals.swift:115-141` | the case that condition shuts out: a value that quotes the tail |
| `Refusals.SearchIsExact` | `CodeConnectKit/Sources/CodeConnectKit/CodexRefusals.swift:115-141` | the same of the segment search, over every text and position |
| `Refusals.SearchIsSound` | `CodeConnectKit/Sources/CodeConnectKit/CodexRefusals.swift:115-141` | what the search accepts, some filling makes |
| `Refusals.FilledFits` | `CodeConnectKit/Sources/CodeConnectKit/CodexRefusals.swift:115-141` | every filling of a row is a text that fits it |
| `Refusals.FittingIsFilled` | `CodeConnectKit/Sources/CodeConnectKit/CodexRefusals.swift:115-141` | and every text that fits is a filling |
| `Refusals.AnchorsHold` | `CodeConnectKit/Sources/CodeConnectKit/CodexRefusals.swift:115-141` | prose before a literal head or after a literal tail is another sentence |
| `Refusals.FirstAt` | `CodeConnectKit/Sources/CodeConnectKit/CodexRefusals.swift:115-141` | the first occurrence at or after a place |
| `Refusals.Find` | `CodeConnectKit/Sources/CodeConnectKit/CodexRefusals.swift:115-141` | the scan finds that occurrence |
| `Refusals.Matches` | `CodeConnectKit/Sources/CodeConnectKit/CodexRefusals.swift:115-141` | the loop decides the search specification |
| `Refusals.WeightOf` | `CodeConnectKit/Sources/CodeConnectKit/CodexRefusals.swift:110-112` | how much of a row is literal |
| `Refusals.WeightIsLiteral` | `CodeConnectKit/Sources/CodeConnectKit/CodexRefusals.swift:110-112` | a row's weight is the length of the shortest sentence it makes, the one whose values are all empty |
| `Refusals.Match` | `CodeConnectKit/Sources/CodeConnectKit/CodexRefusals.swift:102-108` | of the rows that match, the first of the heaviest |
| `HistoryOrder.DrawnOnceOrWithheld` | `CodeConnectKit/Sources/CodeConnectKit/Timeline.swift:171-205` | every event is drawn exactly once, or withheld, and withheld if and only if its chain of anchors leads to one that is not among the events |
| `HistoryOrder.AnchorsExactly` | `CodeConnectKit/Sources/CodeConnectKit/Timeline.swift:171-205` | by the ids alone: an event belongs before the earlier event it names, in place if it names none or a later one, and nowhere if nothing bears the name |
| `HistoryOrder.DrawnImmediatelyBefore` | `CodeConnectKit/Sources/CodeConnectKit/Timeline.swift:171-205` | what belongs before a fact stands in one piece immediately before it, wherever that fact is |
| `HistoryOrder.OrderIsKept` | `CodeConnectKit/Sources/CodeConnectKit/Timeline.swift:171-205` | events filed in place keep the log's order, and so do those read back before one fact |
| `HistoryOrder.TreeHolds` | `CodeConnectKit/Sources/CodeConnectKit/Timeline.swift:171-205` | an event's tree holds exactly what leads to it, once each |
| `HistoryOrder.NothingMoves` | `CodeConnectKit/Sources/CodeConnectKit/Timeline.swift:171-205` | with nothing read back, the order is the log's |
| `HistoryOrder.InHistoryOrder` | `CodeConnectKit/Sources/CodeConnectKit/Timeline.swift:171-205` | the loops and the recursion draw exactly the specified order |
| `HistoryOrder.PlaceEach` | `CodeConnectKit/Sources/CodeConnectKit/Timeline.swift:171-205` | before each event, all that was read back to just before it |
| `HistoryOrder.WhereItGoes` | `CodeConnectKit/Sources/CodeConnectKit/Timeline.swift:171-205` | put aside, filed in place or left out, as the anchor says |
| `Preimage.OnePreimageOneMutation` | `mac/protocol/src/hash.rs:257-342` | one preimage is one mutation, across verbs, sessions, flags and every split of the same bytes into fields |
| `Preimage.MaterialReadsBack` | `CodeConnectKit/Sources/CodeConnectKit/CodexWire.swift:50-58` | a decoder recovers tag and fields, for fields of any bytes |
| `Preimage.FieldsReadBack` | `CodeConnectKit/Sources/CodeConnectKit/CodexWire.swift:50-58` | length-prefixed fields read back whole |
| `Preimage.DecimalIsItsValue` | `CodeConnectKit/Sources/CodeConnectKit/CodexWire.swift:50-58` | the decimal length reads back as the length |
| `Preimage.TagWithALineIsAmbiguous` | `mac/protocol/src/hash.rs:257-342` | why no tag may hold a newline |
| `Preimage.BuildMaterial` | `CodeConnectKit/Sources/CodeConnectKit/CodexWire.swift:50-58` | the loop both ends run builds that material |
| `AgeTick.NextChangeIsExact` | `CodeConnectKit/Sources/CodeConnectKit/AgeTick.swift:98-110` | until the next change what is drawn and spoken stays the same, and at it, it does not; counted from the timestamp it is a multiple of the step, and at most one step away |
| `AgeTick.RenderTimeIsMonotone` | `CodeConnectKit/Sources/CodeConnectKit/AgeTick.swift:129-131` | supporting: a view's clock never goes back while its ticks do not |
| `AgeTick.AgeCell` | `CodeConnectKit/Sources/CodeConnectKit/Fleet.swift:638-676` | printed and spoken ages change together, exactly with the whole steps |
| `AgeTick.ClockCell` | `ios/CodeConnect/Views/DesignSystem/CCStatStrip.swift:194-206` | the waiting clock changes exactly with its whole steps |
| `AgeTick.StepForAge` | `CodeConnectKit/Sources/CodeConnectKit/AgeTick.swift:50-53` | the first band the age is below |
| `RunningTurn.RunningTurnIsLive` | `CodeConnectKit/Sources/CodeConnectKit/CodexWire.swift:314-364` | the turn Stop names has no terminal anywhere in the events, is not retired and not known to have ended; one still running in the events is it, and else the newest live observation |
| `RunningTurn.CandidateIs` | `CodeConnectKit/Sources/CodeConnectKit/CodexWire.swift:314-364` | the scan's candidate is the running turn |
| `RunningTurn.EndedIs` | `CodeConnectKit/Sources/CodeConnectKit/CodexWire.swift:314-364` | the turns it holds ended are those known ended and those with a terminal |
| `RunningTurn.OnlyItsOwnTerminal` | `CodeConnectKit/Sources/CodeConnectKit/CodexWire.swift:314-364` | supporting: another turn's terminal clears nothing |
| `RunningTurn.LastLiveIs` | `CodeConnectKit/Sources/CodeConnectKit/CodexWire.swift:314-364` | of the observations, the newest that nothing has ended |
| `RunningTurn.FindRunningTurn` | `CodeConnectKit/Sources/CodeConnectKit/CodexWire.swift:314-364` | the two scans compute that answer |

## Left out

- Drawing: SwiftUI views, timeline rows and their folding, wording, accessibility; rows are a parameter.
- Sockets, TLS, JSON, base64, launchd, tmux itself and SQLite beyond its atomic commits.
- SHA-256: claims are about the preimage only.
- Wall-clock time: ages are reals, cooldowns and grace periods are numbers or steps; timers fire as steps of a run.
- Pairing, revocation, push relay, session start, worktrees and the risk and slash-command tables: lookups and policy.
- The launch loader's own settling and the cache-age banner: the catch-up starts from a launch that has settled or not.
- Review-mark pruning and the reading of stored marks.
- The Deck's waiting flag and navigation: they follow the catch-up's releases and hold no state of their own.
- The ledger's link and approval-answer kinds: the same code under another name.
- Reading a refusal row's tokens out of its text, and case folding: a row is its literal segments.
- Painting a pane's screen on attach, following a pane's focus, and the four-minute allowance for a peer that does not read its socket: in `TerminalStream` the pane's output is any bytes and a stall is a `Closes` step.
- Whether a Claude run may have a terminal: `TerminalAttach` takes the answer with the attach.
- Page and pin request ids are counters, where the source uses fresh UUIDs.
- The subscription's cache read is one suspension, and a rewound log's discard completes within the step that finds it.
- Other keys' queues: `Waiters` is one key's; keys share nothing but the ticket counter.
- Where rows stand: `HistoryOrder` is the order of the events rows are built from. A fact that folds into its call's row, and what is read back before it, are not followed into rows.
- A session that leaves with an ask in flight: `CodexSends` lets the ask go with it, and does not follow its answer.
- `CatchUpPatience.ChecksAreBounded`: a removal ends the run it speaks of, since the list waited for is then another; the next run starts from that one.
