/**
 Over every run of the machine's model: replies are matched to their requests, a
 release shows the Mac as the catch-up's own list named it, and nothing the list's
 request came too early for releases or resets anything.

 Two invariants stand side by side. `Matched` ties the phone's counters to the history
 of what was written and when, so that a reply's position says when it was asked for;
 `Standing` adds the model's shape, and that the screen is held exactly while a
 catch-up is open. Each operation keeps them by one of three routes: it changes the
 bookkeeping alone (`BooksStand`), it is inner work (`WorkStands`), or it holds or lets
 go of the screen (`FreezingHolds`, `ReleasedIsSound`).
 */
module CatchUpReleases {
  import opened Wrappers
  import opened Replica
  import opened CatchUp
  import opened CatchUpRuns
  import opened CatchUpWork

  // --------------------------------------------------- matching the replies

  /** A `sessions` request on this link is the catch-up's own exactly from its position on. */
  predicate Own(o: Open, h: Past) {
    match o.position
    case None => forall i | 0 <= i < |h.writes| :: h.writes[i] < h.aimedAt
    case Some(own) =>
      && own <= |h.writes|
      && (forall i | 0 <= i < own :: h.writes[i] < h.aimedAt)
      && (forall i | own <= i < |h.writes| :: h.writes[i] >= h.aimedAt)
  }

  /**
   The counts agree with what the link carried; the open catch-up's position parts
   the requests written before its last aim or leave from those written after; its
   list answers one of the latter; on a live link no return is later than the aim; and
   a return later than the aim is later than every list taken.
   */
  predicate Matched(c: Control, h: Past) {
    && (if c.countedOn == Some(c.generation) then c.written == |h.writes| else h.writes == [])
    && (c.countedOn.Some? ==> c.countedOn.value <= c.generation)
    && (forall i | 0 <= i < |h.writes| :: h.writes[i] <= h.clock)
    && h.aimedAt <= h.clock && h.returnedAt <= h.clock && h.listAt <= h.clock
    && (c.connected ==> h.returnedAt <= h.aimedAt)
    && (h.returnedAt > h.aimedAt ==> h.listAt < h.returnedAt)
    && (c.open.Some? ==>
          && c.open.value.generation == c.generation && Own(c.open.value, h)
          && (c.open.value.list.Some? ==> h.listAt >= h.aimedAt))
  }

  /** What is recorded, when a step begins, is from before it. */
  predicate AllBefore(h: Past) { h.listAt < h.clock && forall i | 0 <= i < |h.writes| :: h.writes[i] < h.clock }

  lemma TickMatches(c: Control, h: Past)
    requires Matched(c, h)
    ensures Matched(c, h.(clock := h.clock + 1))
    ensures AllBefore(h.(clock := h.clock + 1))
  {
  }

  /** A request: the first after an aim is the catch-up's own. */
  lemma AskMatches(a: App, sent: bool)
    requires Matched(a.ctl, a.past)
    ensures Matched(Ask(a, sent).ctl, Ask(a, sent).past)
  {
    var b := Ask(a, sent);
    if a.ctl.connected && sent {
      assert b.past.writes[|a.past.writes|] == a.past.clock;
      assert forall i | 0 <= i < |a.past.writes| :: b.past.writes[i] == a.past.writes[i];
    }
  }

  lemma AimMatches(a: App, onNewLink: bool, sent: bool)
    requires Matched(a.ctl.(connected := false), a.past) && a.past.returnedAt <= a.past.clock
    requires AllBefore(a.past)
    requires onNewLink ==> a.past.writes == []
    ensures Matched(AimedHere(a, onNewLink, sent).ctl, AimedHere(a, onNewLink, sent).past)
  {
    hide ScreenFrozen, Ask;
    var ctl := Aimed(a.ctl, onNewLink);
    var held := ScreenFrozen(a, ctl);
    AskMatches(held.(past := held.past.(aimedAt := held.past.clock)), sent);
  }

  lemma LeaveMatches(a: App)
    requires Matched(a.ctl, a.past) && AllBefore(a.past)
    ensures Matched(LeftForBackground(a).ctl, LeftForBackground(a).past)
  {
    hide ScreenFrozen;
  }

  lemma CameBackMatches(a: App, sent: bool)
    requires Matched(a.ctl, a.past) && AllBefore(a.past)
    ensures Matched(CameBack(a, sent).0.ctl, CameBack(a, sent).0.past)
  {
    hide AimedHere;
    if a.ctl.wentToBackground && a.ctl.connected {
      var back := a.(ctl := a.ctl.(wentToBackground := false), resetDue := a.states.Keys,
                     past := a.past.(returnedAt := a.past.clock));
      AimMatches(back, false, sent);
    }
  }

  lemma ConnectMatches(a: App, pagesHistory: bool, sent: bool)
    requires Matched(a.ctl, a.past)
    ensures Matched(Connected(a, pagesHistory, sent).ctl, Connected(a, pagesHistory, sent).past)
  {
    hide AimedHere, Committed, Cancelled;
    var linked := a.(ctl := a.ctl.(generation := a.ctl.generation + 1, connected := true),
                     pagesHistory := pagesHistory, past := a.past.(writes := []));
    AimAnyMatches(linked, sent);
  }

  lemma AimAnyMatches(a: App, sent: bool)
    requires a.past.writes == [] && a.past.returnedAt <= a.past.clock && a.past.listAt <= a.past.clock
    requires a.ctl.countedOn.Some? ==> a.ctl.countedOn.value < a.ctl.generation
    ensures Matched(AimedHere(a, true, sent).ctl, AimedHere(a, true, sent).past)
  {
    hide ScreenFrozen, Ask;
    var ctl := Aimed(a.ctl, true);
    var held := ScreenFrozen(a, ctl);
    AskMatches(held.(past := held.past.(aimedAt := held.past.clock)), sent);
  }

  lemma ReplyMatches(a: App)
    requires Matched(a.ctl, a.past)
    ensures var (taken, answers, writtenAt) := TakeReply(a);
      && Matched(taken.ctl, taken.past) && taken == a.(ctl := taken.ctl) && taken.ctl.open == a.ctl.open
      && taken.ctl.generation == a.ctl.generation && taken.ctl.connected == a.ctl.connected
      && (answers ==> a.ctl.open.Some? && a.past.aimedAt <= writtenAt <= a.past.clock)
  {
  }

  lemma ListHeldMatches(c: Control, h: Past, list: Fleet, at: nat)
    requires Matched(c, h) && c.connected && h.aimedAt <= at <= h.clock
    ensures Matched(ListHeld(c, list), h.(listAt := at))
  {
  }

  /**
   **A reply is the catch-up's own exactly when its request was.** With the Mac
   answering in the order it was asked, the next reply answers the open catch-up if
   and only if its request was written at or after the catch-up was last aimed.
   */
  lemma {:induction false} ReplyIsOwn(a: App)
    requires Matched(a.ctl, a.past) && Synced(a.ctl).answered < |a.past.writes|
    ensures TakeReply(a).1 <==> a.ctl.open.Some? && a.past.writes[Synced(a.ctl).answered] >= a.past.aimedAt
  {
  }

  // ---------------------------------------------------- the standing invariant

  ghost predicate Standing(p: Params, a: App) {
    && Shaped(p, a) && Matched(a.ctl, a.past)
    && (if a.ctl.open.Some? then Holding(a) else a.shownStates == a.states)
  }

  /** Sessions held or let go, and otherwise what they were. */
  predicate OnlyHolds(a: App, b: App) {
    && |b.chats| == |a.chats| && b.states == a.states && b.shownStates == a.shownStates
    && b.shownSummaries == a.shownSummaries && b.marks == a.marks
    && forall i | 0 <= i < |a.chats| :: b.chats[i] == a.chats[i].(holds := b.chats[i].holds)
  }

  lemma FrozenOnlyHolds(a: App, ctl: Control)
    ensures OnlyHolds(a, ScreenFrozen(a, ctl)) && ScreenFrozen(a, ctl).ctl == ctl
  {
    hide AllHeld;
  }

  lemma OnlyHoldsKeeps(p: Params, a: App, b: App)
    requires OnlyHolds(a, b) && Shaped(p, a)
    ensures Shaped(p, b)
  {
    hide ChatSound;
    forall i | 0 <= i < |b.chats| ensures ChatSound(p, b.chats[i]) {
      HoldIsSound(p, a.chats[i]);
      assert ChatSound(p, a.chats[i]);
    }
  }

  lemma OnlyHoldsShows(a: App, b: App)
    requires OnlyHolds(a, b)
    ensures ScreenOf(b) == ScreenOf(a)
  {
    assert ScreenOf(b).faces == ScreenOf(a).faces;
  }

  lemma FreezingHolds(p: Params, a: App, ctl: Control)
    requires Shaped(p, a) && ctl.open.Some? && (if a.ctl.open.Some? then Holding(a) else a.shownStates == a.states)
    ensures Holding(ScreenFrozen(a, ctl)) && Shaped(p, ScreenFrozen(a, ctl))
    ensures ScreenOf(ScreenFrozen(a, ctl)) == ScreenOf(a)
  {
    hide ScreenOf, ChatSound;
    var b := ScreenFrozen(a, ctl);
    assert forall k | k in a.states :: a.states[k] in a.states.Values;
    FrozenOnlyHolds(a, ctl);
    OnlyHoldsKeeps(p, a, b);
    OnlyHoldsShows(a, b);
  }

  lemma HoldIsSound(p: Params, c: Chat)
    ensures ChatSound(p, c.(holds := true)) == ChatSound(p, c)
    ensures ChatSound(p, c.(holds := false)) == ChatSound(p, c)
  {
    hide WellKept;
  }

  /** A change of bookkeeping alone. */
  lemma BooksStand(p: Params, a: App, b: App)
    requires Standing(p, a) && Matched(b.ctl, b.past)
    requires b == a.(ctl := b.ctl, past := b.past, resetDue := b.resetDue, subscribed := b.subscribed, tasks := b.tasks)
    requires b.ctl.open.Some? == a.ctl.open.Some?
    ensures Standing(p, b)
  {
    hide ChatSound, Matched;
  }

  /** Inner work: held, it stays held; live, it stays drawn. */
  lemma WorkStands(p: Params, a: App, b: App)
    requires Standing(p, a) && Works(p, a, b) && (a.ctl.open.Some? ==> Still(a, b))
    ensures Standing(p, b)
  {
    hide ChatSound, Matched, Filed;
  }

  lemma ReleasedIsSound(p: Params, a: App, list: Fleet)
    requires Shaped(p, a)
    ensures Shaped(p, Released(a, list)) && Released(a, list).shownStates == Released(a, list).states == a.states
  {
    hide Committed, ChatSound;
    var b := Released(a, list);
    forall i | 0 <= i < |b.chats| ensures ChatSound(p, b.chats[i]) && b.chats[i].key == a.chats[i].key {
      CommittedIsSound(p, a.chats[i], MarkOf(a, a.chats[i].key), Release);
    }
  }

  lemma CommittedIsSound(p: Params, c: Chat, mark: nat, why: Publication)
    ensures ChatSound(p, Committed(c.(holds := false), mark, why)) == ChatSound(p, c)
    ensures Committed(c.(holds := false), mark, why).key == c.key
    ensures ChatSound(p, Committed(c, mark, why)) == ChatSound(p, c) && Committed(c, mark, why).key == c.key
  {
    hide WellKept;
  }

  lemma ReleasedMatches(a: App, list: Fleet)
    requires Matched(a.ctl, a.past)
    ensures Matched(Released(a, list).ctl, Released(a, list).past)
  {
  }

  lemma {:induction false} AdvanceStands(p: Params, a: App)
    requires Standing(p, a) && Sane(p)
    ensures Standing(p, Advanced(p, a))
  {
    hide Shaped, Matched, Holding, Works, Fills, Still, Released, HasArrived, IsCaughtUp, AllRebuilt, AllFilled;
    if a.ctl.open.Some? && a.ctl.open.value.list.Some? {
      var list := a.ctl.open.value.list.value;
      var ready := Readied(p, a, list);
      ReadiedIsStill(p, a, list);
      ReadiedFills(p, a, list);
      FillsIsShaped(p, a, ready);
      WorkStands(p, a, ready);
      ReleasedIsSound(p, ready, list);
      ReleasedMatches(ready, list);
      ReleasedCloses(ready, list);
    }
  }

  // ---------------------------------------------------------- every step

  lemma ForgottenShapes(p: Params, a: App, gone: set<Key>)
    requires Shaped(p, a)
    ensures Shaped(p, Forgotten(a, gone))
  {
    hide ChatSound;
  }

  lemma {:induction false} ListFiledStands(p: Params, a: App, list: Fleet)
    requires Standing(p, a) && Sane(p) && a.ctl.connected
    ensures Standing(p, ListPublished(ListFiled(p, a, list)))
  {
    hide Shaped, Matched, Holding, Works, Still, AllListed, Forgotten, Keys, TakeReply, ListCommitted;
    var (taken, answers, writtenAt) := TakeReply(a);
    ReplyMatches(a);
    var aimed := if answers then taken.(ctl := ListHeld(taken.ctl, list), past := taken.past.(listAt := writtenAt))
                 else taken;
    if answers { ListHeldMatches(taken.ctl, taken.past, list, writtenAt); }
    var current := aimed.(summaries := list, listedOn := Some(a.ctl.generation));
    ShapeIsChats(p, a, current);
    var gone := current.states.Keys - Keys(list);
    ForgottenShapes(p, current, gone);
    var known := Forgotten(current, gone);
    ForgottenBooks(current, gone);
    AllListedWorks(p, known, list, answers);
    var filed := AllListed(p, known, list, answers);
    WorksIsShaped(p, known, filed);
    if a.ctl.open.Some? {
      ListFiledIsStill(p, a, list);
      StillHolds(a, filed);
      HoldingIsOpen(filed);
    } else {
      CommittedListShapes(p, filed);
    }
  }

  lemma ForgottenBooks(a: App, gone: set<Key>)
    ensures Forgotten(a, gone).ctl == a.ctl && Forgotten(a, gone).past == a.past
  {
  }

  lemma ShapeIsChats(p: Params, a: App, b: App)
    requires Shaped(p, a) && b.chats == a.chats && b.states == a.states
    ensures Shaped(p, b)
  {
    hide ChatSound;
  }

  lemma CommittedListShapes(p: Params, a: App)
    requires Shaped(p, a)
    ensures Shaped(p, ListCommitted(a)) && ListCommitted(a).ctl == a.ctl && ListCommitted(a).past == a.past
    ensures ListCommitted(a).shownStates == ListCommitted(a).states
  {
    ShapeIsChats(p, a, ListCommitted(a));
  }

  lemma ProgressMatches(c: Control, h: Past)
    requires Matched(c, h)
    ensures Matched(Progressed(c), h)
    ensures Progressed(c).open.Some? == c.open.Some? && Progressed(c) == c.(open := Progressed(c).open)
  {
  }

  lemma EventFiledStands(p: Params, a: App, key: Key, e: Event, newCard: bool, sent: bool)
    requires Standing(p, a) && Sane(p)
    ensures Standing(p, EventFiled(p, a, key, e, newCard, sent))
  {
    hide Shaped, Matched, Holding, Works, Still, Stated, Put, Ingest, Advanced, OwedSeq, Ask, Progressed;
    var known := Stated(a, key);
    StatedWorks(p, a, key);
    WorksIsShaped(p, a, known);
    if a.ctl.open.Some? { StatedIsStill(a, key); }
    WorkStands(p, a, known);
    var c := ChatOf(known, key);
    SoundAt(p, known, known.states[key]);
    IngestFace(c, e);
    IngestIsSound(p, c, e);
    PutWorks(p, known, known.states[key], Ingest(c, e));
    if a.ctl.open.Some? { PutIsStill(known, known.states[key], Ingest(c, e)); }
    var held := Put(known, known.states[key], Ingest(c, e));
    WorkStands(p, known, held);
    WorksIsShaped(p, known, held);
    AskMatches(held, sent);
    AskBooks(held, sent);
    BooksStand(p, held, Ask(held, sent));
    var asked := if newCard then Ask(held, sent) else held;
    ProgressMatches(asked.ctl, asked.past);
    BooksStand(p, asked, asked.(ctl := Progressed(asked.ctl)));
  }

  lemma AskBooks(a: App, sent: bool)
    ensures Ask(a, sent) == a.(ctl := Ask(a, sent).ctl, past := Ask(a, sent).past)
    ensures Ask(a, sent).ctl.open.Some? == a.ctl.open.Some?
  {
  }

  lemma PutStands(p: Params, a: App, id: nat, c: Chat)
    requires Standing(p, a) && id < |a.chats| && ChatSound(p, c) && SameFace(a.chats[id], c)
    ensures Standing(p, Put(a, id, c)) && Put(a, id, c).states == a.states && |Put(a, id, c).chats| == |a.chats|
    ensures Put(a, id, c).ctl == a.ctl && Put(a, id, c).past == a.past && Put(a, id, c).tasks == a.tasks
    ensures Put(a, id, c).pagesHistory == a.pagesHistory
  {
    hide Shaped, Matched, Holding, Works, Still, Committed;
    PutWorks(p, a, id, c);
    if a.ctl.open.Some? { PutIsStill(a, id, c); }
    WorkStands(p, a, Put(a, id, c));
  }

  lemma FilledStands(p: Params, a: App, key: Key)
    requires Standing(p, a)
    ensures Standing(p, WindowFilled(p, a, key))
  {
    hide Shaped, Matched, Holding, Works, Still, WindowFilled, Fills;
    WindowFilledFills(p, a, key);
    FillsIsShaped(p, a, WindowFilled(p, a, key));
    if a.ctl.open.Some? { WindowFilledIsStill(p, a, key); }
    WorkStands(p, a, WindowFilled(p, a, key));
  }

  lemma StandingParts(p: Params, a: App)
    requires Standing(p, a)
    ensures Shaped(p, a) && Matched(a.ctl, a.past) && (a.ctl.open.Some? ==> Holding(a))
  {
  }

  lemma RequestEndStands(p: Params, a: App, key: Key, c: Chat, id: nat, firstSeq: nat, failed: bool)
    requires Standing(p, a) && HasState(a, key) && c == ChatOf(a, key)
    ensures Standing(p, WindowFilled(p, Put(a, a.states[key], RequestEnded(p, c, id, firstSeq, failed)), key))
  {
    hide Standing, Put, RequestEnded, WindowFilled, ChatSound, SameFace;
    StandingParts(p, a);
    SoundAt(p, a, a.states[key]);
    var d := RequestEnded(p, c, id, firstSeq, failed);
    RequestEndIsSound(p, c, id, firstSeq, failed);
    RequestEndedFace(p, c, id, firstSeq, failed);
    PutStands(p, a, a.states[key], d);
    FilledStands(p, Put(a, a.states[key], d), key);
  }

  lemma CountedStands(p: Params, a: App)
    requires Standing(p, a)
    ensures Standing(p, a.(ctl := Progressed(a.ctl)))
  {
    hide Standing, Progressed, Shaped;
    StandingParts(p, a);
    ProgressMatches(a.ctl, a.past);
    BooksStand(p, a, a.(ctl := Progressed(a.ctl)));
  }

  lemma HistoryFiledStands(p: Params, a: App, key: Key, id: nat, firstSeq: nat, failed: bool)
    requires Standing(p, a)
    ensures Standing(p, HistoryFiled(p, a, key, id, firstSeq, failed))
  {
    hide Standing, Put, Progressed, RequestEnded, WindowFilled;
    if HasState(a, key) {
      var c := ChatOf(a, key);
      CountedStands(p, a);
      RequestEndStands(p, a, key, c, id, firstSeq, failed);
      RequestEndStands(p, a.(ctl := Progressed(a.ctl)), key, c, id, firstSeq, failed);
    }
  }

  lemma SubscribedStands(p: Params, a: App, key: Key, after: nat)
    requires Standing(p, a)
    ensures Standing(p, SubscribedTo(a, key, after))
  {
    hide Shaped, Matched, Holding, Works, Still;
    SameWorks(p, a, SubscribedTo(a, key, after));
    if a.ctl.open.Some? { SubscribedToIsStill(a, key, after); }
    WorkStands(p, a, SubscribedTo(a, key, after));
  }

  lemma WindowSetStands(p: Params, a: App, key: Key, daemonLast: nat, keepEarlier: bool)
    requires Standing(p, a) && HasState(a, key)
    ensures Standing(p, WindowSet(p, a, key, daemonLast, keepEarlier))
    ensures WindowSet(p, a, key, daemonLast, keepEarlier).ctl == a.ctl
  {
    hide Shaped, Matched, Holding, Works, Still, WindowSet;
    WindowSetWorks(p, a, key, daemonLast, keepEarlier);
    WorksIsShaped(p, a, WindowSet(p, a, key, daemonLast, keepEarlier));
    if a.ctl.open.Some? { WindowSetIsStill(p, a, key, daemonLast, keepEarlier); }
    WorkStands(p, a, WindowSet(p, a, key, daemonLast, keepEarlier));
  }

  lemma StatedStands(p: Params, a: App, key: Key)
    requires Standing(p, a) && Sane(p)
    ensures Standing(p, Stated(a, key)) && Stated(a, key).ctl == a.ctl && Stated(a, key).pagesHistory == a.pagesHistory
  {
    hide Shaped, Matched, Holding, Works, Still;
    StatedWorks(p, a, key);
    if a.ctl.open.Some? { StatedIsStill(a, key); }
    WorkStands(p, a, Stated(a, key));
  }

  lemma SubscriptionLoadedStands(p: Params, a: App, t: Subscribing, cached: seq<Event>)
    requires Standing(p, a) && Sane(p) && Ascending(cached)
    ensures Standing(p, SubscriptionLoaded(p, a, t, cached)) && HasState(SubscriptionLoaded(p, a, t, cached), t.key)
    ensures SubscriptionLoaded(p, a, t, cached).ctl == a.ctl
    ensures SubscriptionLoaded(p, a, t, cached).states == Stated(a, t.key).states
  {
    hide Standing, Put, CacheLoaded, Stated, ChatSound, SameFace;
    StatedStands(p, a, t.key);
    var known := Stated(a, t.key);
    StandingParts(p, known);
    var id := known.states[t.key];
    SoundAt(p, known, id);
    CacheIsSound(p, known.chats[id], cached);
    CacheLoadedFace(p, known.chats[id], cached);
    PutStands(p, known, id, CacheLoaded(p, known.chats[id], cached));
  }

  lemma RewindStands(p: Params, a: App, key: Key)
    requires Standing(p, a) && Sane(p) && HasState(a, key)
    ensures var b := Put(a, a.states[key], LogRewoundFor(ChatOf(a, key)));
      Standing(p, b) && HasState(b, key) && b.ctl == a.ctl && b.pagesHistory == a.pagesHistory
  {
    hide Standing, Put, LogRewoundFor, ChatSound, SameFace;
    StandingParts(p, a);
    SoundAt(p, a, a.states[key]);
    RewoundIsSound(p, ChatOf(a, key));
    RewoundFace(ChatOf(a, key));
    PutStands(p, a, a.states[key], LogRewoundFor(ChatOf(a, key)));
  }

  lemma {:induction false} SubscriptionStands(p: Params, a: App, t: Subscribing, cached: seq<Event>)
    requires Standing(p, a) && Sane(p) && Ascending(cached)
    ensures Standing(p, SubscriptionFiled(p, a, t, cached).0)
  {
    hide Standing, Put, CacheLoaded, WindowSet, Stated, SubscribedTo, LogRewoundFor, ResumeAfter;
    StandingParts(p, a);
    if a.ctl.generation != t.generation {
      BooksStand(p, a, a.(subscribed := a.subscribed - {t.key}));
      return;
    }
    var loaded := SubscriptionLoaded(p, a, t, cached);
    SubscriptionLoadedStands(p, a, t, cached);
    StandingParts(p, loaded);
    var c := ChatOf(loaded, t.key);
    if c.windowEpoch != t.windowEpoch {
      if a.ctl.connected {
        var after := Max(Held(c), if c.log.windowStart.Some? && c.log.windowStart.value > 0 then c.log.windowStart.value - 1 else 0);
        SubscribedStands(p, loaded, t.key, after);
      }
      return;
    }
    var rewinds := Max(Held(c), LastSeq(cached)) > t.lastSeq;
    RewindStands(p, loaded, t.key);
    var ready := if rewinds then Put(loaded, loaded.states[t.key], LogRewoundFor(c)) else loaded;
    var log := ChatOf(ready, t.key).log;
    var keep := !rewinds && log.windowStart.Some? && !t.resetWindow;
    WindowSetStands(p, ready, t.key, t.lastSeq, keep);
    var set_ := if ready.pagesHistory then WindowSet(p, ready, t.key, t.lastSeq, keep) else ready;
    StandingParts(p, set_);
    if !a.ctl.connected {
      BooksStand(p, set_, set_.(subscribed := set_.subscribed - {t.key}));
    } else {
      var after := if ready.pagesHistory then ResumeAfter(log, t.lastSeq, keep)
                   else if rewinds || Max(Held(c), LastSeq(cached)) == 0 then BackfillStart(t.lastSeq)
                   else Max(Held(c), LastSeq(cached));
      SubscribedStands(p, set_, t.key, after);
    }
  }

  lemma RowGoneStands(p: Params, a: App, key: Key)
    requires Standing(p, a) && a.ctl.open.Some?
    ensures Standing(p, RowGone(a, key))
  {
    hide Without, ChatSound, ScreenOf, Edited;
    RemovalMoves(a, key);
    ForgottenShapes(p, a, {key});
    ShapeIsChats(p, Forgotten(a, {key}), RowGone(a, key));
  }

  lemma RemovalStands(p: Params, a: App, key: Key)
    requires Standing(p, a)
    ensures Standing(p, Removed(a, key))
  {
    hide Without, Shaped, Matched, Holding, ListCommitted;
    if a.ctl.open.Some? {
      RowGoneStands(p, a, key);
    } else {
      ForgottenShapes(p, a, {key});
      ForgottenBooks(a, {key});
      var gone := Forgotten(a, {key}).(summaries := Without(a.summaries, key));
      ShapeIsChats(p, Forgotten(a, {key}), gone);
      CommittedListShapes(p, gone);
    }
  }

  lemma OneChatShapes(p: Params, a: App, b: App, id: nat, d: Chat)
    requires Shaped(p, a) && id < |a.chats| && ChatSound(p, d) && d.key == a.chats[id].key
    requires b.chats == a.chats[id := d] && b.states == a.states
    ensures Shaped(p, b)
  {
    hide ChatSound;
  }

  lemma ReviewIsSound(p: Params, c: Chat, mark: nat)
    ensures ChatSound(p, ReviewMarked(c, mark)) == ChatSound(p, c) && ReviewMarked(c, mark).key == c.key
    ensures NoticeDismissed(c).key == c.key
  {
    hide WellKept;
  }

  lemma ReaderStands(p: Params, a: App, step: Step)
    requires Standing(p, a) && (step.DismissGap? || step.MarkReviewed?)
    ensures Standing(p, Worked(p, a, step).0)
  {
    hide ChatSound, Holding, Matched, NoticeDismissed, ReviewMarked, ScreenOf, Edited;
    var b := Worked(p, a, step).0;
    if step.key in a.shownStates && a.shownStates[step.key] < |a.chats| {
      var id := a.shownStates[step.key];
      var c := a.chats[id];
      assert ChatSound(p, c);
      DismissIsSound(p, c);
      var mark := Max(MarkOf(a, c.key), c.shown.drawnThrough);
      ReviewIsSound(p, c, mark);
      OneChatShapes(p, a, b, id, if step.DismissGap? then NoticeDismissed(c) else ReviewMarked(c, mark));
    }
    if a.ctl.open.Some? {
      if step.DismissGap? { DismissMoves(a, step.key); } else { ReviewMoves(a, step.key); }
    }
  }

  lemma RebuiltStands(p: Params, a: App, id: nat)
    requires Standing(p, a) && id < |a.chats|
    ensures Standing(p, RebuiltNow(p, a, id))
  {
    hide Shaped, Matched, Holding, Works, Still, RebuiltNow, Fills, IsBuilt;
    RebuiltNowFills(p, a, id);
    FillsIsShaped(p, a, RebuiltNow(p, a, id));
    if a.ctl.open.Some? { RebuiltNowIsStill(p, a, id); }
    WorkStands(p, a, RebuiltNow(p, a, id));
  }

  lemma PageRequestStands(p: Params, a: App, key: Key)
    requires Standing(p, a)
    ensures Standing(p, PageRequested(a, key))
  {
    hide Shaped, Matched, Holding, Works, Still, PageRequested, Fills;
    PageRequestedFills(p, a, key);
    FillsIsShaped(p, a, PageRequested(a, key));
    if a.ctl.open.Some? { PageRequestedIsStill(p, a, key); }
    WorkStands(p, a, PageRequested(a, key));
  }

  // ----------------------------------------------------- holding the screen

  lemma AimHolds(p: Params, a: App, onNewLink: bool, sent: bool)
    requires Shaped(p, a) && (if a.ctl.open.Some? then Holding(a) else a.shownStates == a.states)
    ensures var b := AimedHere(a, onNewLink, sent);
      Holding(b) && Shaped(p, b) && ScreenOf(b) == ScreenOf(a)
      && b.states == a.states && b.shownStates == a.shownStates && |b.chats| == |a.chats|
      && b.pagesHistory == a.pagesHistory && b.ctl.open.Some?
  {
    hide Shaped, ScreenOf, Requested;
    var ctl := Aimed(a.ctl, onNewLink);
    FreezingHolds(p, a, ctl);
    var held := ScreenFrozen(a, ctl);
    FrozenOnlyHolds(a, ctl);
    var aimed := held.(past := held.past.(aimedAt := held.past.clock));
    ShapeIsChats(p, held, aimed);
    AskBooks(aimed, sent);
    ShapeIsChats(p, aimed, Ask(aimed, sent));
    SameObjectsAreStill(held, aimed);
    StillShows(held, aimed);
    AskIsSame(aimed, sent);
    SameObjectsAreStill(aimed, Ask(aimed, sent));
    StillShows(aimed, Ask(aimed, sent));
  }

  lemma LeaveStands(p: Params, a: App)
    requires Standing(p, a) && AllBefore(a.past)
    ensures Standing(p, LeftForBackground(a)) && ScreenOf(LeftForBackground(a)) == ScreenOf(a)
    ensures a.ctl.launchSettled || a.ctl.open.Some? ==> LeftForBackground(a).ctl.open.Some?
  {
    hide Shaped, ScreenOf, Matched, ChatSound;
    LeaveMatches(a);
    var ctl := Left(a.ctl);
    if HoldsOnLeaving(a.ctl) {
      FreezingHolds(p, a, ctl);
      var held := ScreenFrozen(a, ctl);
      ShapeIsChats(p, held, LeftForBackground(a));
      SameObjectsAreStill(held, LeftForBackground(a));
      StillShows(held, LeftForBackground(a));
    } else {
      ShapeIsChats(p, a, LeftForBackground(a));
      OnlyHoldsShows(a, LeftForBackground(a));
    }
  }

  lemma CameBackStands(p: Params, a: App, sent: bool)
    requires Standing(p, a) && AllBefore(a.past)
    ensures Standing(p, CameBack(a, sent).0) && ScreenOf(CameBack(a, sent).0) == ScreenOf(a)
  {
    hide Shaped, ScreenOf, Matched, AimedHere;
    CameBackMatches(a, sent);
    if a.ctl.wentToBackground {
      var back := a.(ctl := a.ctl.(wentToBackground := false), resetDue := a.states.Keys,
                     past := a.past.(returnedAt := a.past.clock));
      ShapeIsChats(p, a, back);
      OnlyHoldsShows(a, back);
      if a.ctl.connected { AimHolds(p, back, false, sent); }
    }
  }

  lemma {:induction false} ConnectStands(p: Params, a: App, pagesHistory: bool, sent: bool)
    requires Standing(p, a)
    ensures Standing(p, Connected(a, pagesHistory, sent)) && ScreenOf(Connected(a, pagesHistory, sent)) == ScreenOf(a)
    ensures Connected(a, pagesHistory, sent).ctl.open.Some?
  {
    hide Shaped, ScreenOf, Matched, AimedHere;
    ConnectMatches(a, pagesHistory, sent);
    var linked := a.(ctl := a.ctl.(generation := a.ctl.generation + 1, connected := true),
                     pagesHistory := pagesHistory, past := a.past.(writes := []));
    ShapeIsChats(p, a, linked);
    OnlyHoldsShows(a, linked);
    AimHolds(p, linked, true, sent);
    CancelStands(p, AimedHere(linked, true, sent), Connected(a, pagesHistory, sent));
  }

  lemma CancelStands(p: Params, a: App, b: App)
    requires Shaped(p, a) && Holding(a)
    requires b.states == a.states && b.shownStates == a.shownStates && b.ctl == a.ctl
    requires b.shownSummaries == a.shownSummaries && b.marks == a.marks && |b.chats| == |a.chats|
    requires forall i | 0 <= i < |a.chats| :: b.chats[i] == a.chats[i]
                || b.chats[i] == (var c := Cancelled(a.chats[i]); if c.holds then c else Committed(c, MarkOf(a, c.key), Live))
    ensures Shaped(p, b) && Holding(b) && ScreenOf(b) == ScreenOf(a)
  {
    hide ChatSound, Cancelled, Committed;
    forall i | 0 <= i < |b.chats|
      ensures ChatSound(p, b.chats[i]) && b.chats[i].key == a.chats[i].key
      ensures a.chats[i].holds ==> SameFace(a.chats[i], b.chats[i])
    {
      assert ChatSound(p, a.chats[i]);
      CancelIsSound(p, a.chats[i]);
      CancelledFace(a.chats[i]);
      CommittedIsSound(p, Cancelled(a.chats[i]), MarkOf(a, a.chats[i].key), Live);
    }
    assert ScreenOf(b).faces == ScreenOf(a).faces;
  }

  // ------------------------------------------------------------ every run

  /** What the phone reads from its own cache is an ascending run: it wrote one. */
  predicate CacheIsOrdered(step: Step) {
    step.SubscriptionReads? ==> Ascending(step.cached)
  }

  lemma AskStands(p: Params, a: App, sent: bool)
    requires Standing(p, a)
    ensures Standing(p, Ask(a, sent))
  {
    hide Standing, ScreenOf, Requested, Synced, Ask;
    StandingParts(p, a);
    AskMatches(a, sent);
    AskBooks(a, sent);
    BooksStand(p, a, Ask(a, sent));
  }

  lemma BookStands(p: Params, a: App, step: Step)
    requires Standing(p, a) && Bookkeeping(step)
    requires AllBefore(a.past)
    ensures Standing(p, Worked(p, a, step).0)
  {
    hide Standing, LeftForBackground, CameBack, Ask, ListUnavailable, Holding, Shaped, Matched;
    StandingParts(p, a);
    match step
    case Background => LeaveStands(p, a);
    case Inactive(sent) => CameBackStands(p, a, sent);
    case Active(sent) =>
      CameBackStands(p, a, sent);
      AskStands(p, CameBack(a, sent).0, sent);
    case Refresh(sent) => AskStands(p, a, sent);
    case SessionsUnavailable => UnavailableStands(p, a);
    case _ => ControlStands(p, a, step);
  }

  /** A link that goes down, a check and the end of the launch change the bookkeeping alone. */
  lemma ControlStands(p: Params, a: App, step: Step)
    requires Standing(p, a) && (step.LinkDown? || step.StallCheck? || step.LaunchSettles?)
    ensures Standing(p, Worked(p, a, step).0)
  {
    hide Standing, Shaped, Holding, ScreenOf, Synced, LeftForBackground, CameBack, BecameActive, Connected, Ask, ListFiled,
      ListPublished, ListUnavailable, EventFiled, RebuiltNow, HistoryFiled, SubscriptionFiled, Removed, GapDismissedFor,
      ReviewedBy, PageRequested;
    StandingParts(p, a);
    BooksStand(p, a, Worked(p, a, step).0);
  }

  lemma UnavailableStands(p: Params, a: App)
    requires Standing(p, a)
    ensures Standing(p, ListUnavailable(a))
  {
    hide Shaped, Holding, Matched, TakeReply, Progressed;
    ReplyMatches(a);
    var taken := TakeReply(a).0;
    ProgressMatches(taken.ctl, taken.past);
    BooksStand(p, a, ListUnavailable(a));
  }

  lemma TickStands(p: Params, a: App)
    requires Standing(p, a)
    ensures Standing(p, Ticked(a)) && AllBefore(Ticked(a).past)
  {
    hide Shaped, Holding;
    TickMatches(a.ctl, a.past);
    BooksStand(p, a, Ticked(a));
  }

  lemma WorkedStands(p: Params, a: App, step: Step)
    requires Standing(p, a) && Sane(p) && CacheIsOrdered(step)
    requires AllBefore(a.past)
    ensures Standing(p, Worked(p, a, step).0)
  {
    hide Standing, Removed, RebuiltNow, GapDismissedFor, ReviewedBy, Connected, PageRequested, ListUnavailable,
      ListFiled, EventFiled, HistoryFiled, ListPublished, SubscriptionFiled;
    match step {
      case Handshake(pages, sent) => ConnectStands(p, a, pages, sent);
      case Sessions(list) => if a.ctl.connected { ListFiledStands(p, a, list); }
      case EventFor(key, e, newCard, sent) => EventFiledStands(p, a, key, e, newCard, sent);
      case Coalesced(chat) => if chat < |a.chats| { RebuiltStands(p, a, chat); }
      case HistoryEnd(key, id, firstSeq, failed) => HistoryFiledStands(p, a, key, id, firstSeq, failed);
      case SubscriptionReads(task, cached) =>
        if task < |a.tasks| {
          var u := a.(tasks := a.tasks[..task] + a.tasks[task + 1..]);
          StandingParts(p, a);
          BooksStand(p, a, u);
          SubscriptionStands(p, u, a.tasks[task], cached);
        }
      case RemovalConfirmed(key) => RemovalStands(p, a, key);
      case DismissGap(_) => ReaderStands(p, a, step);
      case MarkReviewed(_) => ReaderStands(p, a, step);
      case ReachedTop(key) => PageRequestStands(p, a, key);
      case _ => BookStands(p, a, step);
    }
  }

  lemma StepStands(p: Params, a: App, step: Step)
    requires Standing(p, a) && Sane(p) && CacheIsOrdered(step)
    ensures Standing(p, Worked(p, Ticked(a), step).0) && Standing(p, Stepped(p, a, step))
  {
    hide Standing, Worked, Advanced;
    TickStands(p, a);
    WorkedStands(p, Ticked(a), step);
    AdvanceStands(p, Worked(p, Ticked(a), step).0);
  }

  /** Every state the model reaches from launch, whatever happens in whatever order, stands. */
  lemma {:induction false} RunStands(p: Params, a: App, steps: seq<Step>)
    requires Standing(p, a) && Sane(p) && forall i | 0 <= i < |steps| :: CacheIsOrdered(steps[i])
    ensures Standing(p, Run(p, a, steps))
    decreases |steps|
  {
    hide Standing, Stepped;
    if steps != [] {
      RunStands(p, a, steps[..|steps| - 1]);
      StepStands(p, Run(p, a, steps[..|steps| - 1]), steps[|steps| - 1]);
    }
  }

  lemma LaunchStands(p: Params)
    ensures Standing(p, Launched)
  {
  }
}
