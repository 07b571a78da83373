/**
 The catch-up's promises, over every run from launch: the screen is held at once,
 a release is sound and lands on the Mac's own list, and older lists reset nothing.

 A release is what one look at the catch-up comes to, so its soundness is what that
 look checked (`LookLands`), carried to the end of the step that looked by the
 standing invariant of `CatchUpReleases`; when it is older than the last return is
 settled by the times `CatchUpWatch` follows. The last part goes through nine steps
 from launch to a release that is older, by the only kind of step that can release one:
 a removal whose answer was suspended with the app and is resumed after the return.
 */
module CatchUpLanding {
  import opened Wrappers
  import opened Replica
  import opened CatchUp
  import opened CatchUpRuns
  import opened CatchUpWork
  import opened CatchUpReleases
  import opened CatchUpWatch

  // --------------------------------------------------------- held at once

  /** Leaving with a screen to hold, or a new link, holds every session at once and changes nothing drawn. */
  lemma {:induction false} ScreenIsHeldAtOnce(p: Params, a: App, step: Step)
    requires Standing(p, a) && Sane(p)
    requires step.Handshake? || (step.Background? && (a.ctl.launchSettled || a.ctl.open.Some?))
    ensures Holding(Stepped(p, a, step)) && ScreenOf(Stepped(p, a, step)) == ScreenOf(a)
  {
    hide Standing, Holding, LeftForBackground, Connected, ScreenOf, Advanced;
    TickStands(p, a);
    OnlyHoldsShows(a, Ticked(a));
    if step.Handshake? {
      ConnectStands(p, Ticked(a), step.pages, step.sent);
    } else {
      LeaveStands(p, Ticked(a));
    }
    StandingParts(p, Stepped(p, a, step));
  }

  // --------------------------------------------------- what a release lands on

  /** The session is on screen as the Mac listed it: level, built, filled, with every open card. */
  ghost predicate Landed(p: Params, b: App, s: Summary) {
    && HasState(b, s.key) && s.key in b.shownStates && b.shownStates[s.key] == b.states[s.key]
    && s.key in b.subscribedAfter && b.subscribedAfter[s.key].generation == b.ctl.generation
    && var c := ChatOf(b, s.key);
       && !c.holds && LastSeq(c.log.events) >= s.lastSeq
       && c.shown == View(p.draw(c.log.events, c.pins), LastSeq(c.log.events), c.log.gap, c.log.windowStart, false,
                          c.log.fact, if s.key in b.marks then b.marks[s.key] else 0)
       && c.log.page.None? && c.pin.None?
       && (c.log.windowStart.None? || c.log.windowStart.value <= 1 || c.log.fillStopped || p.substantive(c.shown.rows))
       && (b.pagesHistory ==> forall i | 0 <= i < |s.pending| ::
             || c.log.windowStart.None? || c.log.windowStart.value <= s.pending[i].at
             || s.pending[i].requestID in c.pins || s.pending[i] in c.unpinnable)
  }

  lemma CommittedChat(a: App, list: Fleet, key: Key)
    requires Filed(a, a.states) && key in a.states
    ensures HasState(Released(a, list), key)
    ensures ChatOf(Released(a, list), key) == Committed(ChatOf(a, key).(holds := false), MarkOf(a, key), Release)
    ensures MarkOf(Released(a, list), key) == MarkOf(a, key)
    ensures Released(a, list).states == a.states && Released(a, list).shownStates == a.states
  {
    hide Committed;
    assert a.states[key] in a.states.Values;
  }

  lemma CaughtUpLands(p: Params, a: App, list: Fleet, s: Summary)
    requires Shaped(p, a) && IsCaughtUp(p, a, s, a.ctl.generation) && IsBuilt(ChatOf(a, s.key))
    ensures Landed(p, Released(a, list), s)
  {
    hide Released, WellKept;
    CommittedChat(a, list, s.key);
    ReleasedBooks(a, list);
    var c := ChatOf(a, s.key);
    assert ChatSound(p, c);
    CommittedKeeps(c.(holds := false), MarkOf(a, s.key), Release);
  }

  lemma ReleasedBooks(a: App, list: Fleet)
    ensures var b := Released(a, list);
      && b.pagesHistory == a.pagesHistory && b.subscribedAfter == a.subscribedAfter
      && b.ctl == a.ctl.(open := None, launchSettled := true)
      && b.past == a.past.(landed := list, landedAt := a.past.listAt)
      && b.summaries == a.summaries && b.shownSummaries == a.summaries
  {
  }

  /** A release by a look at the catch-up: what it lands on, and when its list was asked for. */
  lemma LookLands(p: Params, a: App)
    requires Standing(p, a) && Sane(p) && a.ctl.open.Some? && Advanced(p, a).releases != a.releases
    ensures var b := Advanced(p, a);
      && a.ctl.open.value.list == Some(b.past.landed) && !a.ctl.wentToBackground
      && b.past.landedAt == a.past.listAt >= a.past.aimedAt
      && b.past == a.past.(landed := b.past.landed, landedAt := b.past.landedAt)
      && b.ctl == a.ctl.(open := None, launchSettled := true)
      && b.shownSummaries == b.summaries && b.shownStates == b.states
      && forall i | 0 <= i < |b.past.landed| :: Landed(p, b, b.past.landed[i])
  {
    hide Holding, Still, Works, Shaped, Released, IsBuilt, Landed, Readied, IsCaughtUp, HasArrived, AllRebuilt, AllFilled;
    AdvanceIsStillOrReleases(p, a);
    StillCountsIf(a, Advanced(p, a));
    var list := a.ctl.open.value.list.value;
    var ready := Readied(p, a, list);
    ReadiedFills(p, a, list);
    FillsKeepsBooks(p, a, ready);
    ReleasedBooks(ready, list);
    ReleasedIsSound(p, ready, list);
    forall i | 0 <= i < |list| ensures Landed(p, Released(ready, list), list[i]) {
      CaughtUpIsKnown(p, ready, list[i], a.ctl.open.value.generation);
      CaughtUpLands(p, ready, list, list[i]);
    }
  }

  lemma StillCountsIf(a: App, b: App)
    ensures Still(a, b) ==> b.releases == a.releases
  {
  }

  lemma CaughtUpIsKnown(p: Params, a: App, s: Summary, generation: nat)
    requires IsCaughtUp(p, a, s, generation)
    ensures HasState(a, s.key)
  {
  }

  lemma FillsKeepsBooks(p: Params, a: App, b: App)
    requires Fills(p, a, b)
    ensures Shaped(p, b) && b.ctl == a.ctl && b.past == a.past && b.states == a.states && |b.chats| == |a.chats|
  {
  }

  lemma OnlyLooksRelease(p: Params, a: App, step: Step)
    requires Standing(p, a) && a.ctl.open.Some?
    ensures Worked(p, Ticked(a), step).0.releases == a.releases && Worked(p, Ticked(a), step).0.ctl.open.Some?
  {
    hide Shaped, Worked, Matched, ScreenOf, Edited, Still;
    StepMoves(p, a, step);
  }

  /**
   **Release soundness.** Whatever happened since launch, in whatever order: a
   catch-up that lets the screen change does so in the foreground, on a list asked
   for no earlier than the catch-up was last aimed or left, and no earlier than the
   last return exactly when that return found the link up or a link came since (where
   it is earlier, a removal's answer released it);
   every session that list names is on screen level with it, settled on this link,
   needing no page, with no fetch under way and each open card at hand; and the list
   drawn is the Mac's.
   */
  lemma {:induction false} EveryReleaseIsSound(p: Params, steps: seq<Step>, step: Step)
    requires Sane(p) && CacheIsOrdered(step) && forall i | 0 <= i < |steps| :: CacheIsOrdered(steps[i])
    requires var a := Run(p, Launched, steps); a.ctl.open.Some? && Stepped(p, a, step).releases != a.releases
    ensures var b := Stepped(p, Run(p, Launched, steps), step);
      && b.ctl.open.None? && !b.ctl.wentToBackground
      && b.past.landedAt >= b.past.aimedAt
      && (b.past.landedAt >= b.past.returnedAt <==> ReturnAimed(p, steps + [step]))
      && (b.ctl.connected ==> b.past.landedAt >= b.past.returnedAt)
      && (b.past.landedAt < b.past.returnedAt ==> step.RemovalConfirmed?)
      && b.shownSummaries == b.summaries && b.shownStates == b.states
      && forall i | 0 <= i < |b.past.landed| :: Landed(p, b, b.past.landed[i])
  {
    hide Run, Worked, Landed, Standing, Advanced;
    LaunchStands(p);
    RunStands(p, Launched, steps);
    var a := Run(p, Launched, steps);
    StepStands(p, a, step);
    OnlyLooksRelease(p, a, step);
    var mid := Worked(p, Ticked(a), step).0;
    LookLands(p, mid);
    StandingParts(p, mid);
    LandedSinceReturn(mid.ctl, mid.past);
    RunsOn(p, Launched, steps, step);
    ReturnAimedIs(p, steps + [step]);
    LooksOnALink(p, Ticked(a), step);
    if !step.RemovalConfirmed? {
      StandingParts(p, a);
      TickStands(p, a);
      StandingParts(p, Ticked(a));
      WorkKeepsLink(p, Ticked(a), step);
      LookKeepsLink(p, mid);
    }
  }

  /** Off a link nothing looks at a catch-up but a removal's answer, resumed late. */
  lemma LooksOnALink(p: Params, a: App, step: Step)
    ensures Worked(p, a, step).1 && !step.RemovalConfirmed? ==> a.ctl.connected && KeepsLink(a, step)
  {
    hide ListFiled, EventFiled, HistoryFiled, RebuiltNow, PageRequested, Removed, ListPublished, Connected, AimedHere,
      SubscriptionLoaded, WindowSet, SubscribedTo;
  }

  /** A list that governs is no older than the last return exactly when the last aim is not. */
  lemma LandedSinceReturn(c: Control, h: Past)
    requires Matched(c, h) && c.open.Some? && c.open.value.list.Some?
    ensures h.listAt >= h.returnedAt <==> h.aimedAt >= h.returnedAt
    ensures c.connected ==> h.listAt >= h.returnedAt
  {
  }

  /** A face published this release if it shows something new, and not at all if it does not. */
  predicate PublishedOnce(before: Face, after: Face) {
    after.publications == if after.shown == before.shown then before.publications else before.publications + [Release]
  }

  /** At the release each drawn session publishes once if what it shows changed, and not at all otherwise. */
  lemma {:induction false} ReleasePublishesOnce(p: Params, a: App, step: Step, key: Key)
    requires Standing(p, a) && Sane(p) && CacheIsOrdered(step)
    requires a.ctl.open.Some? && Stepped(p, a, step).releases != a.releases
    requires key in Edited(ScreenOf(a), step).faces
    requires var mid := Worked(p, Ticked(a), step).0; key in mid.states && key in mid.shownStates && mid.states[key] == mid.shownStates[key]
    ensures key in ScreenOf(Stepped(p, a, step)).faces
    ensures PublishedOnce(Edited(ScreenOf(a), step).faces[key], ScreenOf(Stepped(p, a, step)).faces[key])
  {
    hide Worked, Advanced, Edited, ScreenOf, Standing, Holding, PublishedOnce, Still;
    StandingParts(p, a);
    StepMoves(p, a, step);
    StepStands(p, a, step);
    OnlyLooksRelease(p, a, step);
    LookPublishesOnce(p, Worked(p, Ticked(a), step).0, key);
  }

  lemma LookPublishesOnce(p: Params, a: App, key: Key)
    requires Standing(p, a) && Sane(p) && a.ctl.open.Some? && Advanced(p, a).releases != a.releases
    requires key in ScreenOf(a).faces && key in a.states && a.states[key] == a.shownStates[key]
    ensures key in ScreenOf(Advanced(p, a)).faces
    ensures PublishedOnce(ScreenOf(a).faces[key], ScreenOf(Advanced(p, a)).faces[key])
  {
    hide Shaped, Released, Works, Readied, IsCaughtUp, Advanced;
    AdvanceIsStillOrReleases(p, a);
    StillCountsIf(a, Advanced(p, a));
    var list := a.ctl.open.value.list.value;
    var ready := Readied(p, a, list);
    ReadiedFills(p, a, list);
    FillsKeepsBooks(p, a, ready);
    CommittedChat(ready, list, key);
    assert SameFace(a.chats[a.states[key]], ready.chats[a.states[key]]);
    CommittedKeeps(ChatOf(ready, key).(holds := false), MarkOf(ready, key), Release);
  }

  // ------------------------------------------- lists the catch-up did not ask for

  /** No window was set, and none became due or was spent. */
  predicate NothingReset(a: App, b: App) {
    && b.resetDue == a.resetDue && b.ctl.open == a.ctl.open && |a.chats| <= |b.chats|
    && forall i | 0 <= i < |a.chats| :: b.chats[i].windowEpoch == a.chats[i].windowEpoch
  }

  lemma PutResetsNothing(a: App, id: nat, c: Chat)
    requires id < |a.chats| && c.windowEpoch == a.chats[id].windowEpoch
    ensures NothingReset(a, Put(a, id, c))
  {
    hide Committed;
    CommittedKeeps(c, MarkOf(a, c.key), Live);
  }

  lemma ResetsChain(a: App, b: App, c: App)
    requires NothingReset(a, b) && NothingReset(b, c)
    ensures NothingReset(a, c)
  {
  }

  lemma StatedResetsNothing(a: App, s: Summary)
    ensures NothingReset(a, SubscribeBegun(Stated(a, s.key), s, false))
    ensures HasState(SubscribeBegun(Stated(a, s.key), s, false), s.key)
  {
    hide Fresh;
  }

  lemma ListedResetsNothing(p: Params, a: App, s: Summary)
    requires a.ctl.open.Some?
    ensures NothingReset(a, Listed(p, a, s, false))
  {
    hide Put, PinsKept, Stated, SubscribeBegun, NothingReset;
    StatedResetsNothing(a, s);
    var asked := SubscribeBegun(Stated(a, s.key), s, false);
    var c := ChatOf(asked, s.key);
    EpochStays(p, c, s.pending);
    PutResetsNothing(asked, asked.states[s.key], PinsKept(p, c, s.pending));
    ResetsChain(a, asked, Put(asked, asked.states[s.key], PinsKept(p, c, s.pending)));
  }

  lemma EpochStays(p: Params, c: Chat, pending: seq<CardRef>)
    ensures PinsKept(p, c, pending).windowEpoch == c.windowEpoch
  {
  }

  lemma {:induction false} AllListedResetNothing(p: Params, a: App, list: Fleet)
    requires a.ctl.open.Some?
    ensures NothingReset(a, AllListed(p, a, list, false))
    decreases |list|
  {
    hide Listed;
    if list != [] {
      AllListedResetNothing(p, a, list[..|list| - 1]);
      ListedResetsNothing(p, AllListed(p, a, list[..|list| - 1], false), list[|list| - 1]);
    }
  }

  /**
   A list whose request was written before the catch-up was aimed resets no window,
   spends no reset, and does not change what the catch-up waits for.
   */
  lemma {:induction false} OlderListResetsNothing(p: Params, a: App, list: Fleet)
    requires Matched(a.ctl, a.past) && a.ctl.open.Some?
    requires Synced(a.ctl).answered < |a.past.writes| && a.past.writes[Synced(a.ctl).answered] < a.past.aimedAt
    ensures NothingReset(a, ListFiled(p, a, list))
  {
    hide AllListed, Matched, TakeReply;
    ReplyIsOwn(a);
    ReplyMatches(a);
    var taken := TakeReply(a).0;
    var current := taken.(summaries := list, listedOn := Some(a.ctl.generation));
    AllListedResetNothing(p, Forgotten(current, current.states.Keys - Keys(list)), list);
  }

  // ------------------------------------------ a return on a link that is down

  lemma {:induction false} NothingToBuild(p: Params, a: App, keys: seq<Key>)
    requires a.states == map[]
    ensures AllRebuilt(p, a, keys) == a
    decreases |keys|
  {
    if keys != [] { NothingToBuild(p, a, keys[..|keys| - 1]); }
  }

  lemma EmptyListReleases(p: Params, a: App)
    requires a.states == map[] && a.ctl.open.Some? && a.ctl.open.value.list == Some([]) && !a.ctl.wentToBackground
    ensures Advanced(p, a) == Released(a, [])
  {
    hide Released;
    NothingToBuild(p, a, p.listing(a.states.Keys));
  }

  /** A phone that knows no session, and nothing but its bookkeeping. */
  function Bare(ctl: Control, past: Past, listedOn: Option<nat>, releases: nat): App {
    Launched.(ctl := ctl, past := past, listedOn := listedOn, releases := releases)
  }

  lemma EmptyListFiled(p: Params, ctl: Control, past: Past, listedOn: Option<nat>, releases: nat)
    requires ctl.open.Some? && ReplyTaken(ctl).1 && Synced(ctl).answered < |past.writes|
    ensures ListPublished(ListFiled(p, Bare(ctl, past, listedOn, releases), []))
         == Bare(ListHeld(ReplyTaken(ctl).0, []), past.(listAt := past.writes[Synced(ctl).answered]),
                 Some(ctl.generation), releases)
  {
    var a := Bare(ctl, past, listedOn, releases);
    assert a.states.Keys - Keys([]) == {};
    assert Forgotten(a, {}) == a;
  }

  lemma BareReleased(a: App)
    requires a.chats == [] && a.states == map[] && a.marks == map[] && a.departedMarks == {} && a.summaries == []
    requires a.shownSummaries == [] && a.shownStates == map[]
    ensures Released(a, []) == a.(ctl := a.ctl.(open := None, launchSettled := true), releases := a.releases + 1,
                                  past := a.past.(landed := [], landedAt := a.past.listAt))
  {
  }

  /**
   **A return that is not aimed voids nothing.** The reader asks for a removal and
   leaves; away, the phone takes a list, and the Mac's answer; the link drops and the
   reader is back before the removal goes on from its answer, which was suspended with
   the app. Its release then lands on that list, older than the return (steps 5 and 8
   here). The answer arrived on the link; only what follows it comes after.
   */
  lemma {:induction false} StaleReturnReleases(p: Params)
    requires Sane(p)
    ensures var b := Run(p, Launched, [
              LaunchSettles, Handshake(false, true), Sessions([]), Background, Refresh(true), Sessions([]),
              LinkDown, Inactive(true), RemovalConfirmed("gone")]);
      && b.releases == 2 && b.ctl.open.None? && !b.ctl.connected
      && b.past.landedAt == 5 && b.past.returnedAt == 8
  {
    hide Stepped;
    var before := ReturnOnDownLink(p);
    RemovalReleases(p, before);
    var steps := [LaunchSettles, Handshake(false, true), Sessions([]), Background, Refresh(true), Sessions([]),
                  LinkDown, Inactive(true)];
    var step := RemovalConfirmed("gone");
    assert (steps + [step])[..8] == steps;
    assert steps + [step] == [
              LaunchSettles, Handshake(false, true), Sessions([]), Background, Refresh(true), Sessions([]),
              LinkDown, Inactive(true), RemovalConfirmed("gone")];
  }

  lemma RemovalReleases(p: Params, before: App)
    requires before == Bare(Control(1, false, false, true, Some(Open(2, 1, Some(1), Some([]), true)), 2, 2, 2, Some(1), 0),
                            Past(8, [2, 5], 4, 8, 5, [], 2), Some(1), 1)
    ensures var b := Stepped(p, before, RemovalConfirmed("gone"));
      && b.releases == 2 && b.ctl.open.None? && !b.ctl.connected
      && b.past.landedAt == 5 && b.past.returnedAt == 8
  {
    hide Released;
    var gone := RowGone(Ticked(before), "gone");
    EmptyListReleases(p, gone);
    ReleasedBooks(gone, []);
    ReleasedCloses(gone, []);
  }

  lemma ReturnOnDownLink(p: Params) returns (b: App)
    ensures b == Run(p, Launched, [
              LaunchSettles, Handshake(false, true), Sessions([]), Background, Refresh(true), Sessions([]),
              LinkDown, Inactive(true)])
    ensures b == Bare(Control(1, false, false, true, Some(Open(2, 1, Some(1), Some([]), true)), 2, 2, 2, Some(1), 0),
                      Past(8, [2, 5], 4, 8, 5, [], 2), Some(1), 1)
  {
    hide Stepped;
    var linked := FirstRelease(p);
    var one := [LaunchSettles, Handshake(false, true), Sessions([])];
    var asked := AskedWhileAway(p, linked);
    b := BackOnDownLink(p, asked);
    RunsOn(p, Launched, one, Background);
    RunsOn(p, Launched, one + [Background], Refresh(true));
    RunsOn(p, Launched, one + [Background] + [Refresh(true)], Sessions([]));
    RunsOn(p, Launched, one + [Background] + [Refresh(true)] + [Sessions([])], LinkDown);
    RunsOn(p, Launched, one + [Background] + [Refresh(true)] + [Sessions([])] + [LinkDown], Inactive(true));
    assert one + [Background] + [Refresh(true)] + [Sessions([])] + [LinkDown] + [Inactive(true)] == [
              LaunchSettles, Handshake(false, true), Sessions([]), Background, Refresh(true), Sessions([]),
              LinkDown, Inactive(true)];
  }

  lemma AskedWhileAway(p: Params, linked: App) returns (asked: App)
    requires linked == Bare(Control(1, true, false, true, None, 1, 1, 1, Some(1), 0), Past(3, [2], 2, 0, 2, [], 2), Some(1), 1)
    ensures asked == Stepped(p, Stepped(p, linked, Background), Refresh(true))
    ensures asked == Bare(Control(1, true, true, true, Some(Open(2, 1, Some(1), None, false)), 2, 2, 1, Some(1), 0),
                          Past(5, [2, 5], 4, 0, 2, [], 2), Some(1), 1)
  {
    var away := Stepped(p, linked, Background);
    assert away == Bare(Control(1, true, true, true, Some(Open(2, 1, None, None, false)), 2, 1, 1, Some(1), 0),
                        Past(4, [2], 4, 0, 2, [], 2), Some(1), 1);
    asked := Stepped(p, away, Refresh(true));
  }

  lemma BackOnDownLink(p: Params, asked: App) returns (b: App)
    requires asked == Bare(Control(1, true, true, true, Some(Open(2, 1, Some(1), None, false)), 2, 2, 1, Some(1), 0),
                           Past(5, [2, 5], 4, 0, 2, [], 2), Some(1), 1)
    ensures b == Stepped(p, Stepped(p, Stepped(p, asked, Sessions([])), LinkDown), Inactive(true))
    ensures b == Bare(Control(1, false, false, true, Some(Open(2, 1, Some(1), Some([]), true)), 2, 2, 2, Some(1), 0),
                      Past(8, [2, 5], 4, 8, 5, [], 2), Some(1), 1)
  {
    EmptyListFiled(p, asked.ctl, Ticked(asked).past, Some(1), 1);
    var told := Stepped(p, asked, Sessions([]));
    assert told == Bare(Control(1, true, true, true, Some(Open(2, 1, Some(1), Some([]), true)), 2, 2, 2, Some(1), 0),
                        Past(6, [2, 5], 4, 0, 5, [], 2), Some(1), 1);
    var down := Stepped(p, told, LinkDown);
    b := Stepped(p, down, Inactive(true));
  }

  lemma RunsOn(p: Params, a: App, steps: seq<Step>, step: Step)
    ensures Run(p, a, steps + [step]) == Stepped(p, Run(p, a, steps), step)
  {
    hide Stepped;
    assert (steps + [step])[..|steps|] == steps;
  }

  lemma FirstRelease(p: Params) returns (b: App)
    ensures b == Run(p, Launched, [LaunchSettles, Handshake(false, true), Sessions([])])
    ensures b == Bare(Control(1, true, false, true, None, 1, 1, 1, Some(1), 0), Past(3, [2], 2, 0, 2, [], 2), Some(1), 1)
  {
    hide Stepped;
    b := FirstReleaseSteps(p);
    RunsOn(p, Launched, [], LaunchSettles);
    RunsOn(p, Launched, [] + [LaunchSettles], Handshake(false, true));
    RunsOn(p, Launched, [] + [LaunchSettles] + [Handshake(false, true)], Sessions([]));
    assert [] + [LaunchSettles] + [Handshake(false, true)] + [Sessions([])]
        == [LaunchSettles, Handshake(false, true), Sessions([])];
  }

  lemma FirstReleaseSteps(p: Params) returns (b: App)
    ensures b == Stepped(p, Stepped(p, Stepped(p, Launched, LaunchSettles), Handshake(false, true)), Sessions([]))
    ensures b == Bare(Control(1, true, false, true, None, 1, 1, 1, Some(1), 0), Past(3, [2], 2, 0, 2, [], 2), Some(1), 1)
  {
    hide ListFiled, ListPublished, Released, AllRebuilt, AllFilled, Connected, Ask, AimedHere;
    var linked := FirstLink(p);
    EmptyListFiled(p, linked.ctl, Ticked(linked).past, None, 0);
    var told := Worked(p, Ticked(linked), Sessions([])).0;
    EmptyListReleases(p, told);
    BareReleased(told);
    b := Stepped(p, linked, Sessions([]));
  }

  lemma FirstLink(p: Params) returns (linked: App)
    ensures linked == Stepped(p, Stepped(p, Launched, LaunchSettles), Handshake(false, true))
    ensures linked == Bare(Control(1, true, false, true, Some(Open(1, 1, Some(0), None, false)), 1, 1, 0, Some(1), 0),
                           Past(2, [2], 2, 0, 0, [], 0), None, 0)
  {
    var settled := Stepped(p, Launched, LaunchSettles);
    assert settled == Bare(Control(0, false, false, true, None, 0, 0, 0, None, 0), Past(1, [], 0, 0, 0, [], 0), None, 0);
    linked := Stepped(p, settled, Handshake(false, true));
  }
}
