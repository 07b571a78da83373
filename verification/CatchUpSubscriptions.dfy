/**
 What becomes of a session the Mac lists: it is subscribed to on the link the list came
 on, and the subscription settles, asking for all that the phone does not hold
 (`ensureSubscribed` and its task in
 CodeConnectKit/Sources/CodeConnectKit/AppModel.swift).

 A catch-up waits for the subscriptions of the sessions it lists; that none of them can
 be forgotten on the way is what is shown here, over every run. `Underway(a, key)` says
 that a subscription is settled on the link that is up or has a task on it that will
 settle it; every operation that neither begins nor files one leaves all of that alone
 (`SameSubscriptions`).
 */
module CatchUpSubscriptions {
  import opened Wrappers
  import opened Replica
  import opened CatchUp
  import opened CatchUpRuns
  import opened CatchUpWork
  import opened CatchUpReleases
  import opened CatchUpWatch
  import opened CatchUpProgress

  /** Settled on this link, or on its way on it. */
  ghost predicate Underway(a: App, key: Key) {
    || (key in a.subscribedAfter && a.subscribedAfter[key].generation == a.ctl.generation)
    || exists i | 0 <= i < |a.tasks| :: a.tasks[i].key == key && a.tasks[i].generation == a.ctl.generation
  }

  /** On a link that is up, whatever was subscribed to is settled or on its way. */
  ghost predicate NoneForgotten(a: App) {
    a.ctl.connected ==> forall key | key in a.subscribed :: Underway(a, key)
  }

  predicate SameSubscriptions(a: App, b: App) {
    && b.subscribed == a.subscribed && b.subscribedAfter == a.subscribedAfter && b.tasks == a.tasks
    && b.ctl.generation == a.ctl.generation && b.ctl.connected == a.ctl.connected
  }

  lemma SameStays(a: App, b: App)
    requires SameSubscriptions(a, b)
    ensures NoneForgotten(a) ==> NoneForgotten(b)
    ensures forall key | Underway(a, key) :: Underway(b, key)
  {
  }

  lemma FillsIsSame(p: Params, a: App, b: App)
    requires Fills(p, a, b)
    ensures SameSubscriptions(a, b)
  {
    hide Shaped;
  }

  // ------------------------------------------------- what leaves them alone

  lemma AskIsSame(a: App, sent: bool)
    ensures SameSubscriptions(a, Ask(a, sent))
  {
  }

  lemma FreezingIsSame(a: App, ctl: Control)
    requires ctl.generation == a.ctl.generation && ctl.connected == a.ctl.connected
    ensures SameSubscriptions(a, ScreenFrozen(a, ctl))
  {
    hide AllHeld;
  }

  lemma AimingIsSame(a: App, onNewLink: bool, sent: bool)
    ensures SameSubscriptions(a, AimedHere(a, onNewLink, sent))
  {
    hide ScreenFrozen, Ask;
    FreezingIsSame(a, Aimed(a.ctl, onNewLink));
    var held := ScreenFrozen(a, Aimed(a.ctl, onNewLink));
    AskIsSame(held.(past := held.past.(aimedAt := held.past.clock)), sent);
  }

  lemma LeavingIsSame(a: App)
    ensures SameSubscriptions(a, LeftForBackground(a))
  {
    hide ScreenFrozen;
    FreezingIsSame(a, Left(a.ctl));
  }

  lemma ComingBackIsSame(a: App, sent: bool)
    ensures SameSubscriptions(a, CameBack(a, sent).0) && SameSubscriptions(a, BecameActive(a, sent))
  {
    hide AimedHere, Ask;
    AimingIsSame(a.(ctl := a.ctl.(wentToBackground := false), resetDue := a.states.Keys,
                    past := a.past.(returnedAt := a.past.clock)), false, sent);
    AskIsSame(CameBack(a, sent).0, sent);
  }

  lemma EventIsSame(p: Params, a: App, key: Key, e: Event, newCard: bool, sent: bool)
    ensures SameSubscriptions(a, EventFiled(p, a, key, e, newCard, sent))
  {
    hide Ingest, Committed, OwedSeq, Ask;
    var known := Stated(a, key);
    AskIsSame(Put(known, known.states[key], Ingest(ChatOf(known, key), e)), sent);
  }

  lemma HistoryIsSame(p: Params, a: App, key: Key, id: nat, firstSeq: nat, failed: bool)
    requires Standing(p, a)
    ensures SameSubscriptions(a, HistoryFiled(p, a, key, id, firstSeq, failed))
  {
    hide Standing, Shaped, Fills, Works, Put, RequestEnded, WindowFilled, SameSubscriptions, SameFace, Progressed, ChatSound,
      Matched, Holding;
    SelfIsSame(a);
    if HasState(a, key) {
      var c := ChatOf(a, key);
      var ours := (c.log.page.Some? && c.log.page.value.id == id) || (c.pin.Some? && c.pin.value.id == id);
      var counted := if ours then a.(ctl := Progressed(a.ctl)) else a;
      var put := Put(counted, counted.states[key], RequestEnded(p, c, id, firstSeq, failed));
      StandingParts(p, a);
      SoundAt(p, a, a.states[key]);
      RequestEndIsSound(p, c, id, firstSeq, failed);
      RequestEndedFace(p, c, id, firstSeq, failed);
      ShapeIsChats(p, a, counted);
      ProgressIsSame(a);
      FaceKeepsKey(c, RequestEnded(p, c, id, firstSeq, failed));
      PutIsSame(counted, counted.states[key], RequestEnded(p, c, id, firstSeq, failed));
      SameChains(a, counted, put);
      PutWorks(p, counted, counted.states[key], RequestEnded(p, c, id, firstSeq, failed));
      WorksIsShaped(p, counted, put);
      WindowFilledFills(p, put, key);
      FillsIsSame(p, put, WindowFilled(p, put, key));
      SameChains(a, put, WindowFilled(p, put, key));
    }
  }

  lemma ProgressIsSame(a: App)
    ensures SameSubscriptions(a, a.(ctl := Progressed(a.ctl)))
  {
  }

  lemma PutIsSame(a: App, id: nat, c: Chat)
    requires id < |a.chats|
    ensures SameSubscriptions(a, Put(a, id, c))
  {
    hide Committed;
  }

  lemma LookIsSame(p: Params, a: App)
    requires Standing(p, a) && Sane(p)
    ensures SameSubscriptions(a, Advanced(p, a))
  {
    hide Standing, Shaped, Fills, HasArrived, IsCaughtUp, AllRebuilt, AllFilled, Released;
    if a.ctl.open.Some? && a.ctl.open.value.list.Some? {
      var list := a.ctl.open.value.list.value;
      StandingParts(p, a);
      ReadiedFills(p, a, list);
      FillsIsSame(p, a, Readied(p, a, list));
      ReleasingIsSame(Readied(p, a, list), list);
    }
  }

  lemma ReleasingIsSame(a: App, list: Fleet)
    ensures SameSubscriptions(a, Released(a, list))
  {
    hide Committed;
  }

  // ----------------------------------------------------- what a list begins

  /** Subscriptions may have begun or settled, and none was lost. */
  ghost predicate Begins(a: App, b: App) {
    && b.ctl.generation == a.ctl.generation && b.ctl.connected == a.ctl.connected && a.subscribed <= b.subscribed
    && (forall key | Underway(a, key) :: Underway(b, key))
    && (forall key | key in b.subscribed && key !in a.subscribed :: Underway(b, key))
  }

  lemma BeginsChains(a: App, b: App, c: App)
    requires Begins(a, b) && Begins(b, c)
    ensures Begins(a, c)
  {
    hide Underway;
  }

  lemma SameBegins(a: App, b: App)
    requires SameSubscriptions(a, b)
    ensures Begins(a, b)
  {
  }

  lemma BeginsForgetsNone(a: App, b: App)
    requires Begins(a, b) && NoneForgotten(a)
    ensures NoneForgotten(b)
  {
    hide Underway;
  }

  lemma SettlingBegins(a: App, key: Key, after: nat)
    ensures Begins(a, SubscribedTo(a, key, after)) && Underway(SubscribedTo(a, key, after), key)
  {
  }

  lemma BeginningBegins(a: App, s: Summary, resetWindow: bool)
    requires HasState(a, s.key)
    ensures Begins(a, SubscribeBegun(a, s, resetWindow)) && s.key in SubscribeBegun(a, s, resetWindow).subscribed
  {
    var b := SubscribeBegun(a, s, resetWindow);
    if s.key !in a.subscribed {
      assert b.tasks[|a.tasks|].key == s.key;
      assert forall i | 0 <= i < |a.tasks| :: b.tasks[i] == a.tasks[i];
    }
  }

  lemma WindowSetIsSame(p: Params, a: App, key: Key, daemonLast: nat, keepEarlier: bool)
    requires Shaped(p, a) && HasState(a, key)
    ensures SameSubscriptions(a, WindowSet(p, a, key, daemonLast, keepEarlier))
  {
    hide Fills, WindowApplied, WindowFilled, Shaped, Put, SummaryFor, Works;
    var pending := match SummaryFor(a.summaries, key) case Some(s) => s.pending case None => [];
    var c := WindowApplied(p, ChatOf(a, key), daemonLast, keepEarlier, pending);
    SoundAt(p, a, a.states[key]);
    WindowAppliedFace(p, ChatOf(a, key), daemonLast, keepEarlier, pending);
    WindowIsSound(p, ChatOf(a, key), daemonLast, keepEarlier, pending);
    PutWorks(p, a, a.states[key], c);
    var put := Put(a, a.states[key], c);
    WorksIsShaped(p, a, put);
    PutIsSame(a, a.states[key], c);
    WindowFilledFills(p, put, key);
    FillsIsSame(p, put, WindowFilled(p, put, key));
  }

  lemma ListedBegins(p: Params, a: App, s: Summary, answers: bool)
    requires Shaped(p, a) && Sane(p)
    ensures Begins(a, Listed(p, a, s, answers)) && s.key in Listed(p, a, s, answers).subscribed
  {
    hide Works, Shaped, Restarted, Put, PinsKept, SubscribeBegun, SameSubscriptions, Begins, Stated;
    var known := Stated(a, s.key);
    StatedIsSame(a, s.key);
    StatedWorks(p, a, s.key);
    WorksIsShaped(p, a, known);
    var spends := a.ctl.open.None? || answers;
    var resetDue := spends && s.key in known.resetDue;
    var spent := if spends then known.(resetDue := known.resetDue - {s.key}) else known;
    ShapeIsChats(p, known, spent);
    SpendingIsSame(a, known, spent);
    SameBegins(a, spent);
    var restarts := resetDue && spent.pagesHistory && s.key in spent.subscribed;
    var restarted := if restarts then Restarted(p, spent, s) else spent;
    if restarts {
      RestartedBegins(p, spent, s);
      RestartedWorks(p, spent, s);
      WorksIsShaped(p, spent, restarted);
      BeginsChains(a, spent, restarted);
    }
    RestartedHasState(p, spent, s, restarts);
    BeginningBegins(restarted, s, resetDue);
    var asked := SubscribeBegun(restarted, s, resetDue);
    BeginsChains(a, restarted, asked);
    BegunHasState(restarted, s, resetDue);
    var c := ChatOf(asked, s.key);
    PutIsSame(asked, asked.states[s.key], PinsKept(p, c, s.pending));
    var put := Put(asked, asked.states[s.key], PinsKept(p, c, s.pending));
    SameBegins(asked, put);
    BeginsChains(a, asked, put);
    SameHasKey(asked, put, s.key);
  }

  lemma StatedIsSame(a: App, key: Key)
    ensures SameSubscriptions(a, Stated(a, key))
  {
  }

  lemma SpendingIsSame(a: App, b: App, c: App)
    requires SameSubscriptions(a, b) && c == b.(resetDue := c.resetDue)
    ensures SameSubscriptions(a, c)
  {
  }

  lemma SameHasKey(a: App, b: App, key: Key)
    requires SameSubscriptions(a, b)
    ensures key in a.subscribed <==> key in b.subscribed
  {
  }

  lemma BegunHasState(a: App, s: Summary, resetWindow: bool)
    requires HasState(a, s.key)
    ensures HasState(SubscribeBegun(a, s, resetWindow), s.key)
  {
  }

  lemma RestartedBegins(p: Params, a: App, s: Summary)
    requires Shaped(p, a) && HasState(a, s.key)
    ensures Begins(a, Restarted(p, a, s))
  {
    hide WindowSet, Shaped, SubscribedTo, ResumeAfter, Begins, SameSubscriptions;
    WindowSetIsSame(p, a, s.key, s.lastSeq, false);
    var set_ := WindowSet(p, a, s.key, s.lastSeq, false);
    SameBegins(a, set_);
    SettlingBegins(set_, s.key, ResumeAfter(ChatOf(a, s.key).log, s.lastSeq, false));
    BeginsChains(a, set_, Restarted(p, a, s));
  }

  lemma RestartedHasState(p: Params, a: App, s: Summary, restarts: bool)
    requires Shaped(p, a) && HasState(a, s.key)
    ensures HasState(if restarts then Restarted(p, a, s) else a, s.key)
  {
    hide WindowSet, SubscribedTo, Works, ChatSound, ResumeAfter;
    if restarts {
      WindowSetHasState(p, a, s.key, s.lastSeq, false);
      SubscribedToHasState(WindowSet(p, a, s.key, s.lastSeq, false), s.key, ResumeAfter(ChatOf(a, s.key).log, s.lastSeq, false));
    }
  }

  lemma SubscribedToHasState(a: App, key: Key, after: nat)
    ensures HasState(SubscribedTo(a, key, after), key) == HasState(a, key)
    ensures SubscribedTo(a, key, after).chats == a.chats && SubscribedTo(a, key, after).states == a.states
  {
  }

  lemma WindowSetHasState(p: Params, a: App, key: Key, daemonLast: nat, keepEarlier: bool)
    requires Shaped(p, a) && HasState(a, key)
    ensures HasState(WindowSet(p, a, key, daemonLast, keepEarlier), key)
    ensures WindowSet(p, a, key, daemonLast, keepEarlier).states == a.states
    ensures |WindowSet(p, a, key, daemonLast, keepEarlier).chats| == |a.chats|
  {
    hide Fills, WindowApplied, WindowFilled, Shaped, Put, SummaryFor, Works;
    var pending := match SummaryFor(a.summaries, key) case Some(s) => s.pending case None => [];
    var c := WindowApplied(p, ChatOf(a, key), daemonLast, keepEarlier, pending);
    SoundAt(p, a, a.states[key]);
    WindowAppliedFace(p, ChatOf(a, key), daemonLast, keepEarlier, pending);
    WindowIsSound(p, ChatOf(a, key), daemonLast, keepEarlier, pending);
    PutWorks(p, a, a.states[key], c);
    WorksIsShaped(p, a, Put(a, a.states[key], c));
    WindowFilledFills(p, Put(a, a.states[key], c), key);
    FillsIsShaped(p, Put(a, a.states[key], c), WindowSet(p, a, key, daemonLast, keepEarlier));
  }

  lemma {:induction false} AllListedBegin(p: Params, a: App, list: Fleet, answers: bool)
    requires Shaped(p, a) && Sane(p)
    ensures Begins(a, AllListed(p, a, list, answers))
    ensures forall i | 0 <= i < |list| :: list[i].key in AllListed(p, a, list, answers).subscribed
    decreases |list|
  {
    hide Shaped, Listed, Begins, Works;
    if list == [] {
      assert SameSubscriptions(a, a);
      SameBegins(a, a);
    } else {
      var before, s := AllListed(p, a, list[..|list| - 1], answers), list[|list| - 1];
      AllListedBegin(p, a, list[..|list| - 1], answers);
      AllListedWorks(p, a, list[..|list| - 1], answers);
      WorksIsShaped(p, a, before);
      ListedBegins(p, before, s, answers);
      BeginsChains(a, before, Listed(p, before, s, answers));
      BeginsKeepsSubscribed(before, Listed(p, before, s, answers));
      forall i | 0 <= i < |list| ensures list[i].key in Listed(p, before, s, answers).subscribed {
        if i < |list| - 1 { assert list[i] == list[..|list| - 1][i]; }
      }
    }
  }

  lemma BeginsKeepsSubscribed(a: App, b: App)
    requires Begins(a, b)
    ensures a.subscribed <= b.subscribed && b.ctl.connected == a.ctl.connected && b.ctl.generation == a.ctl.generation
  {
  }

  lemma ForgettingForgetsNone(a: App, gone: set<Key>)
    requires NoneForgotten(a)
    ensures NoneForgotten(Forgotten(a, gone))
  {
  }

  /** The list as it is taken, before anything is made of it. */
  function Received(a: App, list: Fleet): App {
    var (taken, answers, writtenAt) := TakeReply(a);
    (if answers then taken.(ctl := ListHeld(taken.ctl, list), past := taken.past.(listAt := writtenAt)) else taken)
    .(summaries := list, listedOn := Some(a.ctl.generation))
  }

  lemma ReceivingIsSame(a: App, list: Fleet)
    ensures SameSubscriptions(a, Received(a, list)) && Received(a, list).chats == a.chats && Received(a, list).states == a.states
  {
  }

  lemma FiledIs(p: Params, a: App, list: Fleet)
    ensures var current := Received(a, list);
      ListFiled(p, a, list)
      == AllListed(p, Forgotten(current, current.states.Keys - Keys(list)), list, TakeReply(a).1)
  {
    hide AllListed, TakeReply;
  }

  lemma PublishingIsSame(a: App)
    ensures SameSubscriptions(a, ListPublished(a))
  {
  }

  lemma ListFiledBegins(p: Params, a: App, list: Fleet)
    requires Shaped(p, a) && Sane(p) && NoneForgotten(a)
    ensures var b := ListPublished(ListFiled(p, a, list));
      && NoneForgotten(b) && b.ctl.connected == a.ctl.connected && b.ctl.generation == a.ctl.generation
      && forall i | 0 <= i < |list| :: list[i].key in b.subscribed
  {
    hide Shaped, AllListed, Forgotten, Keys, NoneForgotten, Begins, Received, ListFiled, ListPublished;
    var current := Received(a, list);
    ReceivingIsSame(a, list);
    ShapeIsChats(p, a, current);
    SameStays(a, current);
    var gone := current.states.Keys - Keys(list);
    ForgottenShapes(p, current, gone);
    ForgottenBooks(current, gone);
    ForgettingForgetsNone(current, gone);
    var known := Forgotten(current, gone);
    AllListedBegin(p, known, list, TakeReply(a).1);
    FiledIs(p, a, list);
    var filed := ListFiled(p, a, list);
    BeginsKeepsSubscribed(known, filed);
    BeginsForgetsNone(known, filed);
    PublishingIsSame(filed);
    SameStays(filed, ListPublished(filed));
  }

  // ------------------------------------------------- a subscription settles

  /** Nothing is changed of any other session's subscription. */
  ghost predicate MovesOnly(a: App, b: App, key: Key) {
    && b.tasks == a.tasks && b.ctl.generation == a.ctl.generation && b.ctl.connected == a.ctl.connected
    && forall k | k != key ::
         && (k in b.subscribed <==> k in a.subscribed) && (k in b.subscribedAfter <==> k in a.subscribedAfter)
         && (k in a.subscribedAfter ==> b.subscribedAfter[k] == a.subscribedAfter[k])
  }

  predicate IsSettled(a: App, key: Key) {
    key in a.subscribedAfter && a.subscribedAfter[key].generation == a.ctl.generation
  }

  lemma SettlingMoves(a: App, b: App, key: Key, after: nat)
    requires SameSubscriptions(a, b)
    ensures MovesOnly(a, SubscribedTo(b, key, after), key) && IsSettled(SubscribedTo(b, key, after), key)
    ensures MovesOnly(a, b, key) && MovesOnly(a, b.(subscribed := b.subscribed - {key}), key)
  {
  }

  lemma LoadingIsSame(p: Params, a: App, t: Subscribing, cached: seq<Event>)
    ensures SameSubscriptions(a, SubscriptionLoaded(p, a, t, cached))
  {
    hide CacheLoaded, Put, Stated;
    StatedIsSame(a, t.key);
    var known := Stated(a, t.key);
    PutIsSame(known, known.states[t.key], CacheLoaded(p, ChatOf(known, t.key), cached));
  }

  lemma RewindingIsSame(p: Params, a: App, key: Key)
    requires Shaped(p, a) && Sane(p) && HasState(a, key)
    ensures var b := Put(a, a.states[key], LogRewoundFor(ChatOf(a, key)));
      Shaped(p, b) && SameSubscriptions(a, b) && HasState(b, key)
  {
    hide Shaped, Put, LogRewoundFor, Works;
    var c := ChatOf(a, key);
    PutIsSame(a, a.states[key], LogRewoundFor(c));
    SoundAt(p, a, a.states[key]);
    RewoundIsSound(p, c);
    RewoundKeepsKey(c);
    PutWorks(p, a, a.states[key], LogRewoundFor(c));
    WorksIsShaped(p, a, Put(a, a.states[key], LogRewoundFor(c)));
  }

  lemma RewoundKeepsKey(c: Chat)
    ensures LogRewoundFor(c).key == c.key
  {
  }

  /** A subscription of this link that has read the cache settles, if the link is still up. */
  lemma FilingSettles(p: Params, a: App, t: Subscribing, cached: seq<Event>)
    requires Shaped(p, a) && Sane(p) && Ascending(cached)
    ensures var b := SubscriptionFiled(p, a, t, cached).0;
      && MovesOnly(a, b, t.key)
      && (t.generation == a.ctl.generation && a.ctl.connected ==> IsSettled(b, t.key))
      && (t.generation != a.ctl.generation ==> t.key !in b.subscribed)
  {
    hide Shaped, Works, WindowSet, SubscriptionLoaded, ResumeAfter, Put, SubscribedTo, MovesOnly, IsSettled, SameSubscriptions, LogRewoundFor;
    if t.generation != a.ctl.generation {
      assert SameSubscriptions(a, a) by { SelfIsSame(a); }
      SettlingMoves(a, a, t.key, 0);
    } else {
      var loaded := SubscriptionLoaded(p, a, t, cached);
      SubscriptionLoadedWorks(p, a, t, cached);
      WorksIsShaped(p, a, loaded);
      LoadingIsSame(p, a, t, cached);
      var c := ChatOf(loaded, t.key);
      if c.windowEpoch != t.windowEpoch {
        SettlingMoves(a, loaded, t.key,
             Max(Held(c), if c.log.windowStart.Some? && c.log.windowStart.value > 0 then c.log.windowStart.value - 1 else 0));
      } else {
        var rewinds := Max(Held(c), LastSeq(cached)) > t.lastSeq;
        var ready := if rewinds then Put(loaded, loaded.states[t.key], LogRewoundFor(c)) else loaded;
        RewindingIsSame(p, loaded, t.key);
        var log := ChatOf(ready, t.key).log;
        var keep := !rewinds && log.windowStart.Some? && !t.resetWindow;
        WindowSetIsSame(p, ready, t.key, t.lastSeq, keep);
        var set_ := if ready.pagesHistory then WindowSet(p, ready, t.key, t.lastSeq, keep) else ready;
        SelfIsSame(loaded);
        SelfIsSame(ready);
        SameChains(a, loaded, ready);
        SameChains(a, ready, set_);
        SettlingMoves(a, set_, t.key,
             if ready.pagesHistory then ResumeAfter(log, t.lastSeq, keep)
             else if rewinds || Max(Held(c), LastSeq(cached)) == 0 then BackfillStart(t.lastSeq)
             else Max(Held(c), LastSeq(cached)));
      }
    }
  }

  lemma SelfIsSame(a: App)
    ensures SameSubscriptions(a, a)
  {
  }

  lemma SameChains(a: App, b: App, c: App)
    requires SameSubscriptions(a, b) && SameSubscriptions(b, c)
    ensures SameSubscriptions(a, c)
  {
  }

  // ------------------------------------------------- and asks for enough

  /** The seq below which a subscription need ask for nothing: what is held, or all below the window. */
  function Floor(c: Chat): nat {
    Max(LastSeq(c.log.events), if c.log.windowStart.Some? && c.log.windowStart.value > 0 then c.log.windowStart.value - 1 else 0)
  }

  lemma WindowSetFloor(p: Params, a: App, key: Key, daemonLast: nat, keepEarlier: bool)
    requires Shaped(p, a) && HasState(a, key)
    ensures HasState(WindowSet(p, a, key, daemonLast, keepEarlier), key)
    ensures ResumeAfter(ChatOf(a, key).log, daemonLast, keepEarlier)
         <= Floor(ChatOf(WindowSet(p, a, key, daemonLast, keepEarlier), key))
  {
    hide Fills, WindowApplied, WindowFilled, Shaped, Put, SummaryFor, Works;
    var pending := match SummaryFor(a.summaries, key) case Some(s) => s.pending case None => [];
    var c := WindowApplied(p, ChatOf(a, key), daemonLast, keepEarlier, pending);
    SoundAt(p, a, a.states[key]);
    WindowAppliedFace(p, ChatOf(a, key), daemonLast, keepEarlier, pending);
    WindowIsSound(p, ChatOf(a, key), daemonLast, keepEarlier, pending);
    PutWorks(p, a, a.states[key], c);
    var put := Put(a, a.states[key], c);
    WorksIsShaped(p, a, put);
    WindowFilledFills(p, put, key);
    FillsKeepsFloor(p, put, WindowFilled(p, put, key));
    WindowFloor(p, ChatOf(a, key), daemonLast, keepEarlier, pending);
    PutKeepsFloor(a, a.states[key], c);
  }

  lemma FillsKeepsFloor(p: Params, a: App, b: App)
    requires Fills(p, a, b)
    ensures b.states == a.states && |b.chats| == |a.chats|
    ensures forall i | 0 <= i < |a.chats| :: Floor(b.chats[i]) == Floor(a.chats[i])
  {
    hide Shaped;
  }

  lemma PutKeepsFloor(a: App, id: nat, c: Chat)
    requires id < |a.chats|
    ensures Floor(Put(a, id, c).chats[id]) == Floor(c) && Put(a, id, c).states == a.states && |Put(a, id, c).chats| == |a.chats|
  {
    hide Current;
  }

  lemma WindowFloor(p: Params, c: Chat, daemonLast: nat, keepEarlier: bool, pending: seq<CardRef>)
    ensures ResumeAfter(c.log, daemonLast, keepEarlier) <= Floor(WindowApplied(p, c, daemonLast, keepEarlier, pending))
  {
    hide Trimmed, Below, Covers, InsertAll, StillOpen, TotalLacking, NewerFact;
  }

  lemma AsksFrom(a: App, key: Key, after: nat)
    ensures key in SubscribedTo(a, key, after).subscribedAfter && SubscribedTo(a, key, after).subscribedAfter[key].after <= after
    ensures SubscribedTo(a, key, after).chats == a.chats && SubscribedTo(a, key, after).states == a.states
  {
  }

  /** On a Mac that pages, a settled subscription asks for all above what the phone then holds. */
  lemma FilingAsksEnough(p: Params, a: App, t: Subscribing, cached: seq<Event>)
    requires Shaped(p, a) && Sane(p) && Ascending(cached)
    requires t.generation == a.ctl.generation && a.ctl.connected && a.pagesHistory
    ensures var b := SubscriptionFiled(p, a, t, cached).0;
      HasState(b, t.key) && t.key in b.subscribedAfter && b.subscribedAfter[t.key].after <= Floor(ChatOf(b, t.key))
  {
    hide Shaped, Works, WindowSet, SubscriptionLoaded, ResumeAfter, Put, SubscribedTo, LogRewoundFor;
    var loaded := SubscriptionLoaded(p, a, t, cached);
    SubscriptionLoadedWorks(p, a, t, cached);
    WorksIsShaped(p, a, loaded);
    WorksKeepsPaging(p, a, loaded);
    var c := ChatOf(loaded, t.key);
    if c.windowEpoch != t.windowEpoch {
      AsksFrom(loaded, t.key, Floor(c));
    } else {
      var rewinds := Max(Held(c), LastSeq(cached)) > t.lastSeq;
      var ready := if rewinds then Put(loaded, loaded.states[t.key], LogRewoundFor(c)) else loaded;
      RewindingIsSame(p, loaded, t.key);
      PutKeepsPaging(loaded, loaded.states[t.key], LogRewoundFor(c));
      var log := ChatOf(ready, t.key).log;
      var keep := !rewinds && log.windowStart.Some? && !t.resetWindow;
      WindowSetFloor(p, ready, t.key, t.lastSeq, keep);
      AsksFrom(WindowSet(p, ready, t.key, t.lastSeq, keep), t.key, ResumeAfter(log, t.lastSeq, keep));
    }
  }

  lemma WorksKeepsPaging(p: Params, a: App, b: App)
    requires Works(p, a, b)
    ensures b.pagesHistory == a.pagesHistory
  {
    hide Shaped;
  }

  lemma PutKeepsPaging(a: App, id: nat, c: Chat)
    requires id < |a.chats|
    ensures Put(a, id, c).pagesHistory == a.pagesHistory
  {
    hide Committed;
  }

  /**
   A Mac that does not page is asked for what comes after the newest event the phone or its
   cache holds; with neither, or with one past the end of the Mac's log, for the newest 400.
   */
  lemma {:induction false} OldMacIsAskedFrom(p: Params, a: App, t: Subscribing, cached: seq<Event>)
    requires t.generation == a.ctl.generation && a.ctl.connected && !a.pagesHistory
    requires t.key in a.states && a.states[t.key] < |a.chats| && a.chats[a.states[t.key]].windowEpoch == t.windowEpoch
    requires t.key !in a.subscribedAfter
    ensures var b := SubscriptionFiled(p, a, t, cached).0;
      var known := Max(LastSeq(a.chats[a.states[t.key]].log.events), LastSeq(cached));
      && t.key in b.subscribedAfter
      && b.subscribedAfter[t.key].after
         == if known == 0 || known > t.lastSeq then (if t.lastSeq > 400 then t.lastSeq - 400 else 0) else known
  {
    hide Put, LogRewoundFor, Committed, WindowSet;
    var id := a.states[t.key];
    var c := CacheLoaded(p, a.chats[id], cached);
    CacheCounts(p, a.chats[id], cached);
    PutLeaves(a, id, c);
    PutKeepsEpoch(a, id, c);
    PutIsSame(a, id, c);
    PutKeepsPaging(a, id, c);
    var loaded := Put(a, id, c);
    assert SubscriptionLoaded(p, a, t, cached) == loaded;
    PutIsSame(loaded, id, LogRewoundFor(loaded.chats[id]));
    PutKeepsPaging(loaded, id, LogRewoundFor(loaded.chats[id]));
  }

  lemma CacheCounts(p: Params, c: Chat, cached: seq<Event>)
    ensures var d := CacheLoaded(p, c, cached);
      d.windowEpoch == c.windowEpoch && Max(LastSeq(d.log.events), LastSeq(cached)) == Max(LastSeq(c.log.events), LastSeq(cached))
  {
    hide NewerFact;
  }

  lemma PutKeepsEpoch(a: App, id: nat, c: Chat)
    requires id < |a.chats|
    ensures Put(a, id, c).chats[id].windowEpoch == c.windowEpoch && Put(a, id, c).states == a.states
  {
    hide Current;
  }

  // ------------------------------------------------------------ over a run

  /** The task that reads is done with; what it was for is settled, given up or another's. */
  lemma ReadingForgetsNone(p: Params, a: App, task: nat, cached: seq<Event>)
    requires Shaped(p, a) && Sane(p) && Ascending(cached) && NoneForgotten(a) && task < |a.tasks|
    ensures NoneForgotten(Worked(p, a, SubscriptionReads(task, cached)).0)
  {
    hide Shaped, Works, SubscriptionFiled;
    var t := a.tasks[task];
    var taken := a.(tasks := a.tasks[..task] + a.tasks[task + 1..]);
    TaskTakenWorks(p, a, taken.tasks);
    FilingSettles(p, taken, t, cached);
    var b := SubscriptionFiled(p, taken, t, cached).0;
    if b.ctl.connected {
      forall key | key in b.subscribed ensures Underway(b, key) {
        if key != t.key {
          assert Underway(a, key);
          if i :| 0 <= i < |a.tasks| && a.tasks[i].key == key && a.tasks[i].generation == a.ctl.generation {
            assert i != task;
            assert b.tasks[if i < task then i else i - 1] == a.tasks[i];
          }
        }
      }
    }
  }

  lemma ConnectingForgetsNone(a: App, pages: bool, sent: bool)
    ensures NoneForgotten(Connected(a, pages, sent))
  {
    hide AimedHere, Cancelled, Committed;
  }

  lemma RemovingForgetsNone(a: App, key: Key)
    requires NoneForgotten(a)
    ensures NoneForgotten(Removed(a, key))
  {
    hide NoneForgotten;
    ForgettingForgetsNone(a, {key});
    RemovedIsForgotten(a, key);
    SameStays(Forgotten(a, {key}), Removed(a, key));
  }

  lemma RemovedIsForgotten(a: App, key: Key)
    ensures SameSubscriptions(Forgotten(a, {key}), Removed(a, key))
  {
  }

  lemma CheckingForgetsNone(a: App, b: App)
    requires b == a.(ctl := b.ctl) && b.ctl.generation == a.ctl.generation && (b.ctl.connected ==> a.ctl.connected)
    ensures NoneForgotten(a) ==> NoneForgotten(b)
  {
  }

  lemma ReaderIsSame(a: App, key: Key)
    ensures SameSubscriptions(a, GapDismissedFor(a, key)) && SameSubscriptions(a, ReviewedBy(a, key))
  {
    hide NoticeDismissed, ReviewMarked;
  }

  lemma UnavailableForgetsNone(a: App)
    ensures SameSubscriptions(a, ListUnavailable(a))
  {
  }

  lemma WorkForgetsNone(p: Params, a: App, step: Step)
    requires Standing(p, a) && Sane(p) && CacheIsOrdered(step) && NoneForgotten(a)
    ensures NoneForgotten(Worked(p, a, step).0)
  {
    hide Standing, Shaped, Matched, Holding, Fills, NoneForgotten, SameSubscriptions, LeftForBackground, CameBack, BecameActive,
      Connected, Ask, ListFiled, ListPublished, ListUnavailable, EventFiled, RebuiltNow, HistoryFiled, SubscriptionFiled,
      Removed, GapDismissedFor, ReviewedBy, PageRequested;
    StandingParts(p, a);
    var b := Worked(p, a, step).0;
    match step
    case Background => LeavingIsSame(a); SameStays(a, b);
    case Inactive(sent) => ComingBackIsSame(a, sent); SameStays(a, b);
    case Active(sent) => ComingBackIsSame(a, sent); SameStays(a, b);
    case LinkDown => CheckingForgetsNone(a, b);
    case Handshake(pages, sent) => ConnectingForgetsNone(a, pages, sent);
    case Refresh(sent) => AskIsSame(a, sent); SameStays(a, b);
    case Sessions(list) => ListFiledBegins(p, a, list);
    case SessionsUnavailable => UnavailableForgetsNone(a); SelfIsSame(a); SameStays(a, b);
    case EventFor(key, e, newCard, sent) => EventIsSame(p, a, key, e, newCard, sent); SelfIsSame(a); SameStays(a, b);
    case Coalesced(chat) =>
      SelfIsSame(a);
      if chat < |a.chats| { RebuiltNowFills(p, a, chat); FillsIsSame(p, a, b); }
      SameStays(a, b);
    case HistoryEnd(key, id, firstSeq, failed) => HistoryIsSame(p, a, key, id, firstSeq, failed); SelfIsSame(a); SameStays(a, b);
    case SubscriptionReads(task, cached) => if task < |a.tasks| { ReadingForgetsNone(p, a, task, cached); }
    case RemovalConfirmed(key) => RemovingForgetsNone(a, key);
    case StallCheck => CheckingForgetsNone(a, b);
    case LaunchSettles => CheckingForgetsNone(a, b);
    case DismissGap(key) => ReaderIsSame(a, key); SameStays(a, b);
    case MarkReviewed(key) => ReaderIsSame(a, key); SameStays(a, b);
    case ReachedTop(key) => SelfIsSame(a); PageRequestedFills(p, a, key); FillsIsSame(p, a, PageRequested(a, key)); SameStays(a, b);
  }

  lemma StepForgetsNone(p: Params, a: App, step: Step)
    requires Standing(p, a) && Sane(p) && CacheIsOrdered(step) && NoneForgotten(a)
    ensures NoneForgotten(Stepped(p, a, step))
  {
    hide Standing, Worked, Advanced, NoneForgotten, SameSubscriptions;
    TickStands(p, a);
    TickIsSame(a);
    SameStays(a, Ticked(a));
    WorkForgetsNone(p, Ticked(a), step);
    StepStands(p, a, step);
    var mid := Worked(p, Ticked(a), step).0;
    LookIsSame(p, mid);
    SameStays(mid, Advanced(p, mid));
  }

  lemma TickIsSame(a: App)
    ensures SameSubscriptions(a, Ticked(a))
  {
  }

  lemma {:induction false} RunForgetsNone(p: Params, steps: seq<Step>)
    requires Sane(p) && forall i | 0 <= i < |steps| :: CacheIsOrdered(steps[i])
    ensures NoneForgotten(Run(p, Launched, steps)) && Standing(p, Run(p, Launched, steps))
    decreases |steps|
  {
    hide NoneForgotten, Standing, Stepped;
    LaunchStands(p);
    if steps == [] {
      NothingToForget();
    } else {
      var front, last := steps[..|steps| - 1], steps[|steps| - 1];
      RunForgetsNone(p, front);
      StepForgetsNone(p, Run(p, Launched, front), last);
      StepStands(p, Run(p, Launched, front), last);
    }
  }

  lemma NothingToForget()
    ensures NoneForgotten(Launched)
  {
  }

  /**
   **A new link asks for everything afresh.** Nothing asked for on the old one is waited
   for, found missing or counted as subscribed to any more; what each session holds and
   what its window keeps is what it was; and the catch-up waits for this link's list.
   */
  lemma {:induction false} NewLinkAsksAfresh(p: Params, steps: seq<Step>, pages: bool, sent: bool, key: Key)
    requires Sane(p) && forall i | 0 <= i < |steps| :: CacheIsOrdered(steps[i])
    requires key in Run(p, Launched, steps).states
    ensures var a := Run(p, Launched, steps);
      var b := Stepped(p, a, Handshake(pages, sent));
      && b.subscribed == {} && b.subscribedAfter == map[] && b.states == a.states
      && b.ctl.open.Some? && b.ctl.open.value.generation == b.ctl.generation == a.ctl.generation + 1
      && b.ctl.open.value.list == None && b.ctl.connected
      && a.states[key] < |a.chats| == |b.chats|
      && var c, d := a.chats[a.states[key]], b.chats[b.states[key]];
         && d.log.page == None && d.log.pageBuffer == [] && d.pin == None && d.unpinnable == {} && d.holds
         && d.log.events == c.log.events && d.log.pending == c.log.pending && d.log.windowStart == c.log.windowStart
         && d.pins == c.pins && d.rows == c.rows && d.shown == c.shown
  {
    hide Standing, Shaped, Matched, Holding, Run, Connected, Cancelled, NoneForgotten;
    var a := Run(p, Launched, steps);
    RunForgetsNone(p, steps);
    StandingParts(p, a);
    KnownIsFiled(p, a, key);
    CancelledIs(a.chats[a.states[key]].(holds := true));
    if a.ctl.open.Some? { HeldIsHeld(a, key); }
    HandshakeIs(a, pages, sent, key);
  }

  lemma HeldIsHeld(a: App, key: Key)
    requires Holding(a) && key in a.states
    ensures a.states[key] < |a.chats| && a.chats[a.states[key]].holds
  {
  }

  lemma KnownIsFiled(p: Params, a: App, key: Key)
    requires Shaped(p, a) && key in a.states
    ensures a.states[key] < |a.chats|
  {
    hide ChatSound;
  }

  lemma HandshakeIs(a: App, pages: bool, sent: bool, key: Key)
    requires key in a.states && a.states[key] < |a.chats| && (a.ctl.open.Some? ==> a.chats[a.states[key]].holds)
    ensures var b := Connected(Ticked(a), pages, sent);
      && b.subscribed == {} && b.subscribedAfter == map[] && b.states == a.states && |b.chats| == |a.chats|
      && b.ctl.open.Some? && b.ctl.open.value.generation == b.ctl.generation == a.ctl.generation + 1
      && b.ctl.open.value.list == None && b.ctl.connected
      && b.chats[a.states[key]] == Cancelled(a.chats[a.states[key]].(holds := true))
  {
    hide Committed, Cancelled, AimedHere;
    assert a.states[key] in a.states.Values;
    CancelledIs(a.chats[a.states[key]].(holds := true));
    AimingHolds(Ticked(a).(ctl := a.ctl.(generation := a.ctl.generation + 1, connected := true),
                           pagesHistory := pages, past := Ticked(a).past.(writes := [])), sent, key);
  }

  lemma CancelledIs(c: Chat)
    ensures var d := Cancelled(c);
      && d.log.page == None && d.log.pageBuffer == [] && d.pin == None && d.unpinnable == {} && d.holds == c.holds
      && d.log.events == c.log.events && d.log.pending == c.log.pending && d.log.windowStart == c.log.windowStart
      && d.pins == c.pins && d.rows == c.rows && d.shown == c.shown
  {
  }

  lemma AimingHolds(a: App, sent: bool, key: Key)
    requires key in a.states && a.states[key] < |a.chats| && (a.ctl.open.Some? ==> a.chats[a.states[key]].holds)
    ensures var b := AimedHere(a, true, sent);
      && b.states == a.states && |b.chats| == |a.chats| && b.chats[a.states[key]] == a.chats[a.states[key]].(holds := true)
      && b.ctl.generation == a.ctl.generation && b.ctl.connected == a.ctl.connected
      && b.ctl.open.Some? && b.ctl.open.value.generation == a.ctl.generation && b.ctl.open.value.list == None
  {
    assert a.states[key] in a.states.Values;
    hide AllHeld, Synced;
    AllHeldHolds(a, key);
    SyncingIs(Aimed(a.ctl, true));
  }

  lemma AllHeldHolds(a: App, key: Key)
    requires key in a.states && a.states[key] < |a.chats|
    ensures AllHeld(a.chats, a.states)[a.states[key]] == a.chats[a.states[key]].(holds := true)
  {
    assert a.states[key] in a.states.Values;
  }

  lemma SyncingIs(c: Control)
    ensures Synced(c) == c.(countedOn := Synced(c).countedOn, written := Synced(c).written, answered := Synced(c).answered)
  {
  }

  /**
   **Every session listed is subscribed to.** Whatever happened since launch: once a list
   has come on a link that is up, each session it names is settled on that link, or a
   task begun on that link is still to read its cache.
   */
  lemma {:induction false} ListedAreUnderway(p: Params, steps: seq<Step>, list: Fleet, i: nat)
    requires Sane(p) && forall i | 0 <= i < |steps| :: CacheIsOrdered(steps[i])
    requires Run(p, Launched, steps).ctl.connected && i < |list|
    ensures var b := Stepped(p, Run(p, Launched, steps), Sessions(list));
      || (list[i].key in b.subscribedAfter && b.subscribedAfter[list[i].key].generation == b.ctl.generation)
      || exists k | 0 <= k < |b.tasks| :: b.tasks[k].key == list[i].key && b.tasks[k].generation == b.ctl.generation
  {
    hide Standing, NoneForgotten, ListFiled, ListPublished, Advanced, SameSubscriptions, Run, Shaped;
    var a := Run(p, Launched, steps);
    RunForgetsNone(p, steps);
    TickStands(p, a);
    TickIsSame(a);
    SameStays(a, Ticked(a));
    StandingParts(p, Ticked(a));
    ListFiledBegins(p, Ticked(a), list);
    StepStands(p, a, Sessions(list));
    var mid := ListPublished(ListFiled(p, Ticked(a), list));
    LookIsSame(p, mid);
    SameStays(mid, Advanced(p, mid));
    SubscribedIsUnderway(mid, Advanced(p, mid), list[i].key);
  }

  lemma SubscribedIsUnderway(a: App, b: App, key: Key)
    requires NoneForgotten(b) && SameSubscriptions(a, b) && a.ctl.connected && key in a.subscribed
    ensures Underway(b, key)
  {
  }

  /**
   **A subscription settles.** When a task of the link that is up has read its cache, its
   session is settled on that link, no other session's subscription is touched, and, of a
   Mac that pages, it has asked for every event above both what the phone then holds and
   the seqs its window leaves out.
   */
  lemma {:induction false} SubscriptionSettles(p: Params, steps: seq<Step>, task: nat, cached: seq<Event>)
    requires Sane(p) && (forall i | 0 <= i < |steps| :: CacheIsOrdered(steps[i])) && Ascending(cached)
    requires var a := Run(p, Launched, steps);
      task < |a.tasks| && a.tasks[task].generation == a.ctl.generation && a.ctl.connected
    ensures var a := Run(p, Launched, steps);
      var key, b := a.tasks[task].key, Worked(p, Ticked(a), SubscriptionReads(task, cached)).0;
      && key in b.subscribedAfter && b.subscribedAfter[key].generation == b.ctl.generation == a.ctl.generation
      && (forall other | other != key && other in a.subscribedAfter ::
            other in b.subscribedAfter && b.subscribedAfter[other] == a.subscribedAfter[other])
      && b.tasks == a.tasks[..task] + a.tasks[task + 1..]
      && Stepped(p, a, SubscriptionReads(task, cached)).subscribedAfter == b.subscribedAfter
      && (a.pagesHistory ==>
            && key in b.states && b.states[key] < |b.chats|
            && var log := b.chats[b.states[key]].log;
               || b.subscribedAfter[key].after <= LastSeq(log.events)
               || (log.windowStart.Some? && b.subscribedAfter[key].after < log.windowStart.value))
  {
    hide Standing, Shaped, SubscriptionFiled, Run, Works, Advanced;
    RunForgetsNone(p, steps);
    var a := Ticked(Run(p, Launched, steps));
    TickStands(p, Run(p, Launched, steps));
    StandingParts(p, a);
    var taken := a.(tasks := a.tasks[..task] + a.tasks[task + 1..]);
    TaskTakenWorks(p, a, taken.tasks);
    FilingSettles(p, taken, a.tasks[task], cached);
    if a.pagesHistory { FilingAsksEnough(p, taken, a.tasks[task], cached); }
    StepStands(p, Run(p, Launched, steps), SubscriptionReads(task, cached));
    var mid := Worked(p, a, SubscriptionReads(task, cached)).0;
    assert mid == SubscriptionFiled(p, taken, a.tasks[task], cached).0;
    LookIsSame(p, mid);
  }
}
