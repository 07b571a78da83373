/**
 Between catch-ups the screen is the truth: `publish` outside a held presentation, in
 CodeConnectKit/Sources/CodeConnectKit/SessionState.swift and AppModel.swift.

 Where `CatchUpRuns` shows that a held screen does not move, this is the other half: with
 no catch-up open, whatever happens to a session is on screen when it is over, and the
 list drawn is the newest one. `Mirrors` is that state; an operation keeps it because its
 last act on a session is to publish it (`PutMirrors`), and a release restores it.
 */
module CatchUpLive {
  import opened Wrappers
  import opened Replica
  import opened CatchUp
  import opened CatchUpRuns
  import opened CatchUpWork
  import opened CatchUpReleases
  import opened CatchUpWatch
  import opened CatchUpLanding
  import opened CatchUpProgress

  /** One session is let go, and shown as it stands; how far it is reviewed is the reader's. */
  predicate ShownAsItIs(c: Chat) {
    !c.holds && c.shown == Current(c, c.shown.reviewed)
  }

  ghost predicate Mirrors(a: App) {
    a.ctl.open.None? ==>
      forall key | key in a.states :: a.states[key] < |a.chats| && ShownAsItIs(a.chats[a.states[key]])
  }

  /** No catch-up is opened or closed, and what mirrored the truth still does. */
  ghost predicate Keeps(a: App, b: App) {
    b.ctl.open.Some? == a.ctl.open.Some? && (Mirrors(a) ==> Mirrors(b))
  }

  lemma KeepsChains(a: App, b: App, c: App)
    requires Keeps(a, b) && Keeps(b, c)
    ensures Keeps(a, c)
  {
  }

  lemma SameKeeps(a: App, b: App)
    requires b.chats == a.chats && b.states == a.states && b.ctl.open.Some? == a.ctl.open.Some?
    ensures Keeps(a, b)
  {
    hide ShownAsItIs;
  }

  lemma FewerKeeps(a: App, b: App)
    requires b.chats == a.chats && b.states.Keys <= a.states.Keys && (forall key | key in b.states :: b.states[key] == a.states[key])
    requires b.ctl.open.Some? == a.ctl.open.Some?
    ensures Keeps(a, b)
  {
    hide ShownAsItIs;
  }

  lemma PutKeeps(a: App, id: nat, c: Chat)
    requires id < |a.chats| && c.holds == a.chats[id].holds
    ensures Keeps(a, Put(a, id, c))
  {
    hide Current, Committed;
    CommittedKeeps(c, MarkOf(a, c.key), Live);
    CommittedShows(c, MarkOf(a, c.key), Live);
  }

  lemma CommittedShows(c: Chat, mark: nat, why: Publication)
    ensures var d := Committed(c, mark, why); d.shown == Current(d, d.shown.reviewed) && d.holds == c.holds
  {
  }

  lemma StatedKeeps(a: App, key: Key)
    ensures Keeps(a, Stated(a, key)) && HasState(Stated(a, key), key)
  {
    var b := Stated(a, key);
    if !HasState(a, key) && Mirrors(a) && b.ctl.open.None? {
      FreshIsShown(key);
      forall k | k in b.states ensures b.states[k] < |b.chats| && ShownAsItIs(b.chats[b.states[k]]) {
        if k != key { assert k in a.states; }
      }
    }
  }

  lemma FreshIsShown(key: Key)
    ensures ShownAsItIs(Fresh(key, false))
  {
  }

  // ------------------------------------------------------- the inner work

  lemma CardsPinnedKeeps(p: Params, a: App, key: Key)
    ensures Keeps(a, CardsPinned(p, a, key)) && |CardsPinned(p, a, key).chats| == |a.chats|
    ensures CardsPinned(p, a, key).states == a.states
  {
    hide Put, PinsKept, PinBegun, SummaryFor, FirstToPin, Keeps;
    SameKeeps(a, a);
    if a.ctl.connected && a.pagesHistory && a.listedOn == Some(a.ctl.generation) && HasState(a, key)
       && SummaryFor(a.summaries, key).Some? {
      var s := SummaryFor(a.summaries, key).value;
      var id, c := a.states[key], ChatOf(a, key);
      var kept := if Held(c) >= s.lastSeq then Put(a, id, PinsKept(p, c, s.pending)) else a;
      PinsKeptFace(p, c, s.pending);
      PutKeeps(a, id, PinsKept(p, c, s.pending));
      PutLeaves(a, id, PinsKept(p, c, s.pending));
      var d := kept.chats[id];
      var first := FirstToPin(d, s.pending);
      if first.Some? {
        PinBegunFace(d, first.value, kept.nextRequest);
        PutKeeps(kept, id, PinBegun(d, first.value, kept.nextRequest));
        PutLeaves(kept, id, PinBegun(d, first.value, kept.nextRequest));
        var begun := Put(kept, id, PinBegun(d, first.value, kept.nextRequest));
        KeepsChains(a, kept, begun);
        SameKeeps(begun, begun.(nextRequest := kept.nextRequest + 1));
        KeepsChains(a, begun, begun.(nextRequest := kept.nextRequest + 1));
      }
    }
  }

  lemma PageRequestedKeeps(a: App, key: Key)
    ensures Keeps(a, PageRequested(a, key)) && |PageRequested(a, key).chats| == |a.chats|
    ensures PageRequested(a, key).states == a.states
  {
    hide Put, PageAsked, Keeps;
    SameKeeps(a, a);
    if a.ctl.connected && HasState(a, key) && CanPage(ChatOf(a, key)) {
      var c := ChatOf(a, key);
      PageAskedFace(c, a.nextRequest);
      PutKeeps(a, a.states[key], PageAsked(c, a.nextRequest));
      PutLeaves(a, a.states[key], PageAsked(c, a.nextRequest));
      var asked := Put(a, a.states[key], PageAsked(c, a.nextRequest));
      SameKeeps(asked, asked.(nextRequest := a.nextRequest + 1));
      KeepsChains(a, asked, asked.(nextRequest := a.nextRequest + 1));
    }
  }

  lemma WindowFilledKeeps(p: Params, a: App, key: Key)
    ensures Keeps(a, WindowFilled(p, a, key)) && |WindowFilled(p, a, key).chats| == |a.chats|
    ensures WindowFilled(p, a, key).states == a.states
  {
    hide CardsPinned, PageRequested, SummaryFor, Keeps;
    CardsPinnedKeeps(p, a, key);
    PageRequestedKeeps(CardsPinned(p, a, key), key);
    KeepsChains(a, CardsPinned(p, a, key), PageRequested(CardsPinned(p, a, key), key));
  }

  lemma RebuiltNowKeeps(p: Params, a: App, id: nat)
    requires id < |a.chats|
    ensures Keeps(a, RebuiltNow(p, a, id))
  {
    hide Put, Rebuilt, WindowFilled, Keeps;
    var c := a.chats[id];
    SameKeeps(a, a);
    RebuiltFace(p, c);
    PutKeeps(a, id, Rebuilt(p, c));
    WindowFilledKeeps(p, Put(a, id, Rebuilt(p, c)), c.key);
    KeepsChains(a, Put(a, id, Rebuilt(p, c)), WindowFilled(p, Put(a, id, Rebuilt(p, c)), c.key));
  }

  lemma WindowSetKeeps(p: Params, a: App, key: Key, daemonLast: nat, keepEarlier: bool)
    requires HasState(a, key)
    ensures var b := WindowSet(p, a, key, daemonLast, keepEarlier);
      Keeps(a, b) && b.states == a.states && |b.chats| == |a.chats|
  {
    hide Put, WindowApplied, WindowFilled, SummaryFor, Keeps;
    var pending := match SummaryFor(a.summaries, key) case Some(s) => s.pending case None => [];
    var c := WindowApplied(p, ChatOf(a, key), daemonLast, keepEarlier, pending);
    WindowAppliedFace(p, ChatOf(a, key), daemonLast, keepEarlier, pending);
    PutKeeps(a, a.states[key], c);
    PutLeaves(a, a.states[key], c);
    WindowFilledKeeps(p, Put(a, a.states[key], c), key);
    KeepsChains(a, Put(a, a.states[key], c), WindowSet(p, a, key, daemonLast, keepEarlier));
  }

  lemma SubscribedToKeeps(a: App, b: App, key: Key, after: nat)
    requires Keeps(a, b)
    ensures Keeps(a, SubscribedTo(b, key, after)) && Keeps(a, b.(subscribed := b.subscribed - {key}))
    ensures SubscribedTo(b, key, after).states == b.states && SubscribedTo(b, key, after).chats == b.chats
  {
    hide Keeps;
    SameKeeps(b, SubscribedTo(b, key, after));
    KeepsChains(a, b, SubscribedTo(b, key, after));
    SameKeeps(b, b.(subscribed := b.subscribed - {key}));
    KeepsChains(a, b, b.(subscribed := b.subscribed - {key}));
  }

  lemma ListedKeeps(p: Params, a: App, s: Summary, answers: bool)
    ensures Keeps(a, Listed(p, a, s, answers))
  {
    hide Stated, WindowSet, Put, PinsKept, SubscribedTo, SubscribeBegun, Keeps, ResumeAfter;
    var known := Stated(a, s.key);
    StatedKeeps(a, s.key);
    var spends := a.ctl.open.None? || answers;
    var resetDue := spends && s.key in known.resetDue;
    var spent := if spends then known.(resetDue := known.resetDue - {s.key}) else known;
    SameKeeps(known, spent);
    KeepsChains(a, known, spent);
    var restarted := if resetDue && spent.pagesHistory && s.key in spent.subscribed then Restarted(p, spent, s) else spent;
    if resetDue && spent.pagesHistory && s.key in spent.subscribed {
      WindowSetKeeps(p, spent, s.key, s.lastSeq, false);
      SubscribedToKeeps(spent, WindowSet(p, spent, s.key, s.lastSeq, false), s.key,
                        ResumeAfter(ChatOf(spent, s.key).log, s.lastSeq, false));
      KeepsChains(a, spent, restarted);
    }
    assert HasState(restarted, s.key);
    var asked := SubscribeBegun(restarted, s, resetDue);
    BegunIsSame(restarted, s, resetDue);
    SameKeeps(restarted, asked);
    KeepsChains(a, restarted, asked);
    var c := ChatOf(asked, s.key);
    PinsKeptFace(p, c, s.pending);
    PutKeeps(asked, asked.states[s.key], PinsKept(p, c, s.pending));
    KeepsChains(a, asked, Put(asked, asked.states[s.key], PinsKept(p, c, s.pending)));
  }

  lemma BegunIsSame(a: App, s: Summary, resetWindow: bool)
    requires HasState(a, s.key)
    ensures var b := SubscribeBegun(a, s, resetWindow); b.chats == a.chats && b.states == a.states && b.ctl == a.ctl
  {
  }

  lemma {:induction false} AllListedKeeps(p: Params, a: App, list: Fleet, answers: bool)
    ensures Keeps(a, AllListed(p, a, list, answers))
    decreases |list|
  {
    hide Listed, Keeps;
    SameKeeps(a, a);
    if list != [] {
      var before := AllListed(p, a, list[..|list| - 1], answers);
      AllListedKeeps(p, a, list[..|list| - 1], answers);
      ListedKeeps(p, before, list[|list| - 1], answers);
      KeepsChains(a, before, Listed(p, before, list[|list| - 1], answers));
    }
  }

  lemma ListFiledKeeps(p: Params, a: App, list: Fleet)
    ensures Keeps(a, ListPublished(ListFiled(p, a, list)))
  {
    hide AllListed, Keys, Keeps;
    var (taken, answers, writtenAt) := TakeReply(a);
    var aimed := if answers then taken.(ctl := ListHeld(taken.ctl, list), past := taken.past.(listAt := writtenAt))
                 else taken;
    var current := aimed.(summaries := list, listedOn := Some(a.ctl.generation));
    TakingKeepsOpen(a);
    SameKeeps(a, current);
    var known := Forgotten(current, current.states.Keys - Keys(list));
    FewerKeeps(current, known);
    KeepsChains(a, current, known);
    AllListedKeeps(p, known, list, answers);
    var filed := AllListed(p, known, list, answers);
    KeepsChains(a, known, filed);
    SameKeeps(filed, ListPublished(filed));
    KeepsChains(a, filed, ListPublished(filed));
  }

  lemma TakingKeepsOpen(a: App)
    ensures TakeReply(a).0.ctl.open == a.ctl.open && TakeReply(a).0 == a.(ctl := TakeReply(a).0.ctl)
  {
  }

  lemma EventFiledKeeps(p: Params, a: App, key: Key, e: Event, newCard: bool, sent: bool)
    ensures Keeps(a, EventFiled(p, a, key, e, newCard, sent))
  {
    hide Stated, Put, Ingest, OwedSeq, Ask, Keeps, Progressed;
    var known := Stated(a, key);
    StatedKeeps(a, key);
    var c := ChatOf(known, key);
    IngestFace(c, e);
    PutKeeps(known, known.states[key], Ingest(c, e));
    var held := Put(known, known.states[key], Ingest(c, e));
    PutLeaves(known, known.states[key], Ingest(c, e));
    KeepsChains(a, known, held);
    var asked := if newCard then Ask(held, sent) else held;
    AskKeeps(held, sent);
    SameKeeps(held, held);
    KeepsChains(a, held, asked);
    ProgressKeeps(asked);
    KeepsChains(a, asked, asked.(ctl := Progressed(asked.ctl)));
  }

  lemma AskKeeps(a: App, sent: bool)
    ensures Keeps(a, Ask(a, sent)) && Ask(a, sent).states == a.states && |Ask(a, sent).chats| == |a.chats|
  {
    SameKeeps(a, Ask(a, sent));
  }

  lemma ProgressKeeps(a: App)
    ensures Keeps(a, a.(ctl := Progressed(a.ctl)))
  {
    SameKeeps(a, a.(ctl := Progressed(a.ctl)));
  }

  lemma HistoryFiledKeeps(p: Params, a: App, key: Key, id: nat, firstSeq: nat, failed: bool)
    ensures Keeps(a, HistoryFiled(p, a, key, id, firstSeq, failed))
  {
    hide Put, RequestEnded, WindowFilled, Keeps, Progressed;
    SameKeeps(a, a);
    if HasState(a, key) {
      var c := ChatOf(a, key);
      var ours := (c.log.page.Some? && c.log.page.value.id == id) || (c.pin.Some? && c.pin.value.id == id);
      var counted := if ours then a.(ctl := Progressed(a.ctl)) else a;
      ProgressKeeps(a);
      RequestEndedFace(p, c, id, firstSeq, failed);
      PutKeeps(counted, counted.states[key], RequestEnded(p, c, id, firstSeq, failed));
      var put := Put(counted, counted.states[key], RequestEnded(p, c, id, firstSeq, failed));
      KeepsChains(a, counted, put);
      WindowFilledKeeps(p, put, key);
      KeepsChains(a, put, WindowFilled(p, put, key));
    }
  }

  lemma SubscriptionLoadedKeeps(p: Params, a: App, t: Subscribing, cached: seq<Event>)
    ensures Keeps(a, SubscriptionLoaded(p, a, t, cached)) && HasState(SubscriptionLoaded(p, a, t, cached), t.key)
  {
    hide Stated, Put, CacheLoaded, Keeps;
    var known := Stated(a, t.key);
    StatedKeeps(a, t.key);
    var c := CacheLoaded(p, ChatOf(known, t.key), cached);
    CacheLoadedFace(p, ChatOf(known, t.key), cached);
    PutKeeps(known, known.states[t.key], c);
    PutLeaves(known, known.states[t.key], c);
    KeepsChains(a, known, Put(known, known.states[t.key], c));
  }

  lemma SubscriptionFiledKeeps(p: Params, a: App, t: Subscribing, cached: seq<Event>)
    ensures Keeps(a, SubscriptionFiled(p, a, t, cached).0)
  {
    hide SubscriptionLoaded, Put, LogRewoundFor, WindowSet, SubscribedTo, Keeps, ResumeAfter;
    SameKeeps(a, a);
    SubscribedToKeeps(a, a, t.key, 0);
    if a.ctl.generation == t.generation {
      var loaded := SubscriptionLoaded(p, a, t, cached);
      SubscriptionLoadedKeeps(p, a, t, cached);
      var c := ChatOf(loaded, t.key);
      if c.windowEpoch != t.windowEpoch {
        SubscribedToKeeps(a, loaded, t.key,
             Max(Held(c), if c.log.windowStart.Some? && c.log.windowStart.value > 0 then c.log.windowStart.value - 1 else 0));
      } else {
        var rewinds := Max(Held(c), LastSeq(cached)) > t.lastSeq;
        var ready := if rewinds then Put(loaded, loaded.states[t.key], LogRewoundFor(c)) else loaded;
        RewoundFace(c);
        PutKeeps(loaded, loaded.states[t.key], LogRewoundFor(c));
        PutLeaves(loaded, loaded.states[t.key], LogRewoundFor(c));
        SameKeeps(loaded, loaded);
        KeepsChains(a, loaded, ready);
        var log := ChatOf(ready, t.key).log;
        var keep := !rewinds && log.windowStart.Some? && !t.resetWindow;
        WindowSetKeeps(p, ready, t.key, t.lastSeq, keep);
        var set_ := if ready.pagesHistory then WindowSet(p, ready, t.key, t.lastSeq, keep) else ready;
        SameKeeps(ready, ready);
        KeepsChains(a, ready, set_);
        SubscribedToKeeps(a, set_, t.key,
             if ready.pagesHistory then ResumeAfter(log, t.lastSeq, keep)
             else if rewinds || Max(Held(c), LastSeq(cached)) == 0 then BackfillStart(t.lastSeq)
             else Max(Held(c), LastSeq(cached)));
      }
    }
  }

  // ------------------------------------------------------------ over a run

  lemma ReaderKeeps(a: App, key: Key)
    requires Filed(a, a.states) && (a.ctl.open.None? ==> a.shownStates == a.states)
    ensures Keeps(a, GapDismissedFor(a, key)) && Keeps(a, ReviewedBy(a, key))
  {
    hide GapDismissed;
    if Mirrors(a) && a.ctl.open.None? && key in a.shownStates && a.shownStates[key] < |a.chats| {
      var c := a.chats[a.shownStates[key]];
      DismissingShows(c);
      ReviewingShows(c, Max(MarkOf(a, c.key), c.shown.drawnThrough));
    }
  }

  lemma DismissingShows(c: Chat)
    requires ShownAsItIs(c)
    ensures ShownAsItIs(NoticeDismissed(c))
  {
  }

  lemma ReviewingShows(c: Chat, mark: nat)
    requires ShownAsItIs(c)
    ensures ShownAsItIs(ReviewMarked(c, mark))
  {
  }

  /** Holding the screen leaves nothing to mirror; otherwise the bookkeeping alone moved. */
  lemma AimingMirrors(a: App, onNewLink: bool, sent: bool)
    ensures AimedHere(a, onNewLink, sent).ctl.open.Some?
  {
    hide ScreenFrozen;
    FrozenOnlyHolds(a, Aimed(a.ctl, onNewLink));
  }

  lemma ReturningMirrors(a: App, sent: bool)
    requires Mirrors(a)
    ensures Mirrors(CameBack(a, sent).0) && Mirrors(BecameActive(a, sent))
  {
    hide AimedHere, Ask;
    AimingMirrors(a.(ctl := a.ctl.(wentToBackground := false), resetDue := a.states.Keys,
                     past := a.past.(returnedAt := a.past.clock)), false, sent);
    var back := a.(ctl := a.ctl.(wentToBackground := false), resetDue := a.states.Keys,
                   past := a.past.(returnedAt := a.past.clock));
    SameKeeps(a, back);
    AskKeeps(CameBack(a, sent).0, sent);
  }

  lemma LeavingMirrors(a: App)
    requires Mirrors(a)
    ensures Mirrors(LeftForBackground(a))
  {
    hide ScreenFrozen;
    FrozenOnlyHolds(a, Left(a.ctl));
    if !HoldsOnLeaving(a.ctl) { SameKeeps(a, LeftForBackground(a)); }
  }

  lemma ConnectingMirrors(a: App, pages: bool, sent: bool)
    ensures Mirrors(Connected(a, pages, sent))
  {
    hide AimedHere, Cancelled, Committed;
    AimingMirrors(a.(ctl := a.ctl.(generation := a.ctl.generation + 1, connected := true),
                     pagesHistory := pages, past := a.past.(writes := [])), true, sent);
  }

  lemma RemovingMirrors(a: App, key: Key)
    requires Mirrors(a)
    ensures Mirrors(Removed(a, key))
  {
    hide Without;
    if a.ctl.open.None? { FewerKeeps(a, Removed(a, key)); }
  }

  /** A release puts every session it knows on screen as it stands. */
  lemma ReleasingMirrors(a: App, list: Fleet)
    requires Filed(a, a.states)
    ensures Mirrors(Released(a, list))
  {
    hide Committed, Current;
    forall key | key in a.states
      ensures HasState(Released(a, list), key) && ShownAsItIs(ChatOf(Released(a, list), key))
    {
      CommittedChat(a, list, key);
      CommittedShows(ChatOf(a, key).(holds := false), MarkOf(a, key), Release);
    }
  }

  lemma WorkMirrors(p: Params, a: App, step: Step)
    requires Standing(p, a) && Mirrors(a)
    ensures Mirrors(Worked(p, a, step).0)
  {
    hide Standing, Shaped, Mirrors, LeftForBackground, CameBack, BecameActive, Connected, Ask, ListFiled, ListPublished,
      ListUnavailable, EventFiled, RebuiltNow, HistoryFiled, SubscriptionFiled, Removed, GapDismissedFor, ReviewedBy,
      PageRequested;
    var b := Worked(p, a, step).0;
    SameKeeps(a, a);
    match step
    case Background => LeavingMirrors(a);
    case Inactive(sent) => ReturningMirrors(a, sent);
    case Active(sent) => ReturningMirrors(a, sent);
    case LinkDown => SameKeeps(a, b);
    case Handshake(pages, sent) => ConnectingMirrors(a, pages, sent);
    case Refresh(sent) => AskKeeps(a, sent);
    case Sessions(list) => ListFiledKeeps(p, a, list);
    case SessionsUnavailable => UnavailableKeeps(a);
    case EventFor(key, e, newCard, sent) => EventFiledKeeps(p, a, key, e, newCard, sent);
    case Coalesced(chat) => if chat < |a.chats| { RebuiltNowKeeps(p, a, chat); }
    case HistoryEnd(key, id, firstSeq, failed) => HistoryFiledKeeps(p, a, key, id, firstSeq, failed);
    case SubscriptionReads(task, cached) =>
      if task < |a.tasks| {
        var taken := a.(tasks := a.tasks[..task] + a.tasks[task + 1..]);
        SameKeeps(a, taken);
        SubscriptionFiledKeeps(p, taken, a.tasks[task], cached);
      }
    case RemovalConfirmed(key) => RemovingMirrors(a, key);
    case StallCheck => SameKeeps(a, b);
    case LaunchSettles => SameKeeps(a, b);
    case DismissGap(key) => StandingShows(p, a); ReaderKeeps(a, key);
    case MarkReviewed(key) => StandingShows(p, a); ReaderKeeps(a, key);
    case ReachedTop(key) => PageRequestedKeeps(a, key);
  }

  lemma StandingShows(p: Params, a: App)
    requires Standing(p, a)
    ensures Filed(a, a.states) && (a.ctl.open.None? ==> a.shownStates == a.states)
  {
    hide Matched, ChatSound, Holding;
  }

  lemma UnavailableKeeps(a: App)
    ensures Keeps(a, ListUnavailable(a))
  {
    SameKeeps(a, ListUnavailable(a));
  }

  lemma LookMirrors(p: Params, a: App)
    requires Standing(p, a) && Sane(p) && Mirrors(a)
    ensures Mirrors(Advanced(p, a))
  {
    hide Standing, Shaped, Released, Works, Fills, Still, HasArrived, IsCaughtUp, AllRebuilt, AllFilled;
    if a.ctl.open.Some? && a.ctl.open.value.list.Some? {
      var list := a.ctl.open.value.list.value;
      StandingParts(p, a);
      ReadiedFills(p, a, list);
      FillsKeepsBooks(p, a, Readied(p, a, list));
      ShapedIsFiled(p, Readied(p, a, list));
      ReleasingMirrors(Readied(p, a, list), list);
    }
  }

  lemma StepMirrors(p: Params, a: App, step: Step)
    requires Standing(p, a) && Sane(p) && CacheIsOrdered(step) && Mirrors(a)
    ensures Mirrors(Stepped(p, a, step))
  {
    hide Standing, Mirrors, Worked, Advanced;
    TickStands(p, a);
    SameKeeps(a, Ticked(a));
    WorkMirrors(p, Ticked(a), step);
    StepStands(p, a, step);
    LookMirrors(p, Worked(p, Ticked(a), step).0);
  }

  lemma {:induction false} RunMirrors(p: Params, steps: seq<Step>)
    requires Sane(p) && forall i | 0 <= i < |steps| :: CacheIsOrdered(steps[i])
    ensures Standing(p, Run(p, Launched, steps)) && Mirrors(Run(p, Launched, steps))
    decreases |steps|
  {
    hide Standing, Mirrors, Stepped;
    LaunchStands(p);
    if steps == [] {
      NothingToMirror();
    } else {
      var front, last := steps[..|steps| - 1], steps[|steps| - 1];
      RunMirrors(p, front);
      StepMirrors(p, Run(p, Launched, front), last);
      StepStands(p, Run(p, Launched, front), last);
    }
  }

  lemma NothingToMirror()
    ensures Mirrors(Launched)
  {
  }

  /**
   **Between catch-ups the screen is the truth.** Whatever happened since launch, with no
   catch-up open each session known is drawn, let go, and shows what it is: its rows, how
   far they are drawn, its notice, its window, the page it waits for and its model; and
   where no rebuild is due those rows are of every event it holds.
   */
  lemma {:induction false} ScreenIsTheTruth(p: Params, steps: seq<Step>, key: Key)
    requires Sane(p) && forall i | 0 <= i < |steps| :: CacheIsOrdered(steps[i])
    requires var a := Run(p, Launched, steps); a.ctl.open == None && key in a.states
    ensures var a := Run(p, Launched, steps);
      && key in a.shownStates && a.shownStates[key] == a.states[key] < |a.chats|
      && var c := a.chats[a.states[key]];
         && !c.holds
         && c.shown == View(c.rows, c.drawnThrough, c.log.gap, c.log.windowStart, c.log.page != None, c.log.fact, c.shown.reviewed)
         && (!c.rebuildDue ==>
               c.log.pending == [] && c.shown.rows == p.draw(c.log.events, c.pins) && c.shown.drawnThrough == LastSeq(c.log.events))
  {
    hide Run, Standing, Shaped, Matched, Holding, WellKept;
    var a := Run(p, Launched, steps);
    RunMirrors(p, steps);
    StandingParts(p, a);
    StandingShows(p, a);
    SoundAt(p, a, a.states[key]);
  }
}
