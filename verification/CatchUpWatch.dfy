/**
 What each step leaves of the catch-up's own bookkeeping: whether the link is up and the
 app in front, when the catch-up was last aimed and the reader last came back, the list
 it waits for, and the progress the stall watch has yet to look at.

 Most steps are inner work, which by `Works` touches none of it (`SubscriptionWorks`,
 `HistoryFiledWatch`, `ReaderWatch`); a list and an event are taken apart one by one. Two
 results rest on this and nothing else: a return is followed by an aim exactly when it
 found the link up or a link came since (`ReturnAimedIs`), and the stall watch of
 `CatchUpPatience` can count what each step could have cost it. Neither looks at what is
 on screen, and so neither needs the screen to be held.
 */
module CatchUpWatch {
  import opened Wrappers
  import opened Replica
  import opened CatchUp
  import opened CatchUpRuns
  import opened CatchUpWork
  import opened CatchUpReleases

  /** The link, the foreground, the redials and the last aim and return are what they were. */
  predicate SameLink(a: App, b: App) {
    && b.ctl.connected == a.ctl.connected && b.ctl.wentToBackground == a.ctl.wentToBackground
    && b.ctl.redials == a.ctl.redials
    && b.past.aimedAt == a.past.aimedAt && b.past.returnedAt == a.past.returnedAt
  }

  /** And so are the list waited for and its progress; no reset has come due. */
  predicate SameWatch(a: App, b: App) {
    && SameLink(a, b) && b.releases == a.releases && b.resetDue <= a.resetDue
    && b.ctl.open.Some? == a.ctl.open.Some?
    && (a.ctl.open.Some? ==>
          && b.ctl.open.value.list == a.ctl.open.value.list
          && b.ctl.open.value.progressed == a.ctl.open.value.progressed)
  }

  lemma WorksWatch(p: Params, a: App, b: App)
    requires Works(p, a, b)
    ensures SameWatch(a, b)
  {
    hide Shaped;
  }

  // ------------------------------------------------------------- inner work

  lemma SubscriptionLoadedWorks(p: Params, a: App, t: Subscribing, cached: seq<Event>)
    requires Shaped(p, a) && Sane(p) && Ascending(cached)
    ensures Works(p, a, SubscriptionLoaded(p, a, t, cached)) && HasState(SubscriptionLoaded(p, a, t, cached), t.key)
  {
    hide Works, Put, CacheLoaded, Stated, ChatSound, SameFace, Shaped;
    StatedWorks(p, a, t.key);
    var known := Stated(a, t.key);
    WorksIsShaped(p, a, known);
    var id := known.states[t.key];
    SoundAt(p, known, id);
    CacheIsSound(p, known.chats[id], cached);
    CacheLoadedFace(p, known.chats[id], cached);
    FaceKeepsKey(known.chats[id], CacheLoaded(p, known.chats[id], cached));
    PutWorks(p, known, id, CacheLoaded(p, known.chats[id], cached));
    WorksChains(p, a, known, SubscriptionLoaded(p, a, t, cached));
  }

  lemma FaceKeepsKey(c: Chat, d: Chat)
    requires SameFace(c, d)
    ensures d.key == c.key
  {
  }

  lemma RewindWorks(p: Params, a: App, key: Key)
    requires Shaped(p, a) && Sane(p) && HasState(a, key)
    ensures var b := Put(a, a.states[key], LogRewoundFor(ChatOf(a, key)));
      Works(p, a, b) && HasState(b, key)
  {
    hide Works, Put, LogRewoundFor, ChatSound, SameFace, Shaped;
    SoundAt(p, a, a.states[key]);
    RewoundIsSound(p, ChatOf(a, key));
    RewoundFace(ChatOf(a, key));
    FaceKeepsKey(ChatOf(a, key), LogRewoundFor(ChatOf(a, key)));
    PutWorks(p, a, a.states[key], LogRewoundFor(ChatOf(a, key)));
  }

  lemma AskedWorks(p: Params, a: App, key: Key, after: nat)
    requires Shaped(p, a)
    ensures Works(p, a, SubscribedTo(a, key, after))
    ensures Works(p, a, a.(subscribed := a.subscribed - {key}))
  {
    hide Shaped;
    SameWorks(p, a, SubscribedTo(a, key, after));
    SameWorks(p, a, a.(subscribed := a.subscribed - {key}));
  }

  /** A subscription that read the cache moves one session and nothing of the catch-up's own. */
  lemma SubscriptionWorks(p: Params, a: App, t: Subscribing, cached: seq<Event>)
    requires Shaped(p, a) && Sane(p) && Ascending(cached)
    ensures Works(p, a, SubscriptionFiled(p, a, t, cached).0)
  {
    hide Works, Shaped, Put, CacheLoaded, WindowSet, Stated, SubscribedTo, LogRewoundFor, ResumeAfter, SubscriptionLoaded;
    var b := SubscriptionFiled(p, a, t, cached).0;
    AskedWorks(p, a, t.key, 0);
    if a.ctl.generation != t.generation { return; }
    var loaded := SubscriptionLoaded(p, a, t, cached);
    SubscriptionLoadedWorks(p, a, t, cached);
    WorksIsShaped(p, a, loaded);
    var c := ChatOf(loaded, t.key);
    if c.windowEpoch != t.windowEpoch {
      if a.ctl.connected {
        var after := Max(Held(c), if c.log.windowStart.Some? && c.log.windowStart.value > 0 then c.log.windowStart.value - 1 else 0);
        AskedWorks(p, loaded, t.key, after);
        WorksChains(p, a, loaded, b);
      }
      return;
    }
    var rewinds := Max(Held(c), LastSeq(cached)) > t.lastSeq;
    RewindWorks(p, loaded, t.key);
    var ready := if rewinds then Put(loaded, loaded.states[t.key], LogRewoundFor(c)) else loaded;
    if rewinds { WorksChains(p, a, loaded, ready); }
    WorksIsShaped(p, a, ready);
    var log := ChatOf(ready, t.key).log;
    var keep := !rewinds && log.windowStart.Some? && !t.resetWindow;
    WindowSetWorks(p, ready, t.key, t.lastSeq, keep);
    var set_ := if ready.pagesHistory then WindowSet(p, ready, t.key, t.lastSeq, keep) else ready;
    if ready.pagesHistory { WorksChains(p, a, ready, set_); }
    WorksIsShaped(p, a, set_);
    var after := if ready.pagesHistory then ResumeAfter(log, t.lastSeq, keep)
                 else if rewinds || Max(Held(c), LastSeq(cached)) == 0 then BackfillStart(t.lastSeq)
                 else Max(Held(c), LastSeq(cached));
    AskedWorks(p, set_, t.key, after);
    WorksChains(p, a, set_, b);
  }

  lemma TaskTakenWorks(p: Params, a: App, tasks: seq<Subscribing>)
    requires Shaped(p, a)
    ensures Works(p, a, a.(tasks := tasks)) && Shaped(p, a.(tasks := tasks))
  {
    hide ChatSound;
    SameWorks(p, a, a.(tasks := tasks));
  }

  lemma FillsWatch(p: Params, a: App, b: App)
    requires Fills(p, a, b)
    ensures SameWatch(a, b) && Shaped(p, b)
  {
    hide Works;
    FillsIsShaped(p, a, b);
    WorksWatch(p, a, b);
  }

  /** The end of a page or card: progress if it was asked for, and nothing else of the watch. */
  lemma HistoryFiledWatch(p: Params, a: App, key: Key, id: nat, firstSeq: nat, failed: bool)
    requires Shaped(p, a)
    ensures var b := HistoryFiled(p, a, key, id, firstSeq, failed);
      SameWatch(a, b) || SameWatch(a.(ctl := Progressed(a.ctl)), b)
  {
    hide Works, Fills, Shaped, Put, Progressed, RequestEnded, WindowFilled, ChatSound, SameFace, SameWatch;
    SelfWatch(a);
    if HasState(a, key) {
      var c := ChatOf(a, key);
      var ours := (c.log.page.Some? && c.log.page.value.id == id) || (c.pin.Some? && c.pin.value.id == id);
      var counted := if ours then a.(ctl := Progressed(a.ctl)) else a;
      ShapeIsChats(p, a, counted);
      SoundAt(p, a, a.states[key]);
      var d := RequestEnded(p, c, id, firstSeq, failed);
      RequestEndIsSound(p, c, id, firstSeq, failed);
      RequestEndedFace(p, c, id, firstSeq, failed);
      FaceKeepsKey(c, d);
      PutWorks(p, counted, a.states[key], d);
      var put := Put(counted, a.states[key], d);
      WorksIsShaped(p, counted, put);
      WorksWatch(p, counted, put);
      WindowFilledFills(p, put, key);
      FillsWatch(p, put, WindowFilled(p, put, key));
      WatchChains(counted, put, WindowFilled(p, put, key));
    }
  }

  lemma SelfWatch(a: App)
    ensures SameWatch(a, a)
  {
  }

  /** The reader's acts on the held screen leave the watch alone. */
  lemma ReaderWatch(a: App, key: Key)
    ensures SameWatch(a, GapDismissedFor(a, key)) && SameWatch(a, ReviewedBy(a, key))
  {
    hide NoticeDismissed, ReviewMarked;
  }

  lemma PublishedWatch(a: App)
    ensures SameWatch(a, ListPublished(a)) && ListPublished(a).chats == a.chats && ListPublished(a).states == a.states
  {
  }

  lemma RemovedLink(a: App, key: Key)
    ensures SameLink(a, Removed(a, key))
  {
    hide Without;
  }

  // ----------------------------------------------------- lists, events, requests

  lemma ForgottenWatch(a: App, gone: set<Key>)
    ensures SameWatch(a, Forgotten(a, gone)) && Forgotten(a, gone).ctl == a.ctl
    ensures Forgotten(a, gone).resetDue == a.resetDue
  {
  }

  lemma TakenWatch(a: App)
    ensures SameWatch(a, TakeReply(a).0) && TakeReply(a).0.chats == a.chats && TakeReply(a).0.states == a.states
    ensures TakeReply(a).0.ctl.open == a.ctl.open && TakeReply(a).0.resetDue == a.resetDue
  {
  }

  /** The list taken, if it answers, before any session hears of it. */
  function ListTaken(a: App, list: Fleet): App {
    var (taken, answers, writtenAt) := TakeReply(a);
    if answers then taken.(ctl := ListHeld(taken.ctl, list), past := taken.past.(listAt := writtenAt)) else taken
  }

  lemma ListFiledWatch(p: Params, a: App, list: Fleet)
    requires Shaped(p, a) && Sane(p)
    ensures SameWatch(ListTaken(a, list), ListFiled(p, a, list)) && SameLink(a, ListFiled(p, a, list))
    ensures ListFiled(p, a, list).releases == a.releases
  {
    hide Works, Shaped, AllListed, Forgotten, TakeReply, Keys;
    TakenWatch(a);
    var aimed := ListTaken(a, list);
    var current := aimed.(summaries := list, listedOn := Some(a.ctl.generation));
    ShapeIsChats(p, a, current);
    var gone := current.states.Keys - Keys(list);
    ForgottenShapes(p, current, gone);
    ForgottenWatch(current, gone);
    var known := Forgotten(current, gone);
    AllListedWorks(p, known, list, TakeReply(a).1);
    WorksWatch(p, known, AllListed(p, known, list, TakeReply(a).1));
  }

  lemma AskWatch(a: App, sent: bool)
    ensures SameWatch(a, Ask(a, sent)) && Ask(a, sent).chats == a.chats && Ask(a, sent).states == a.states
    ensures Ask(a, sent).resetDue == a.resetDue
  {
  }

  lemma UnavailableWatch(a: App)
    ensures SameWatch(a, ListUnavailable(a)) || SameWatch(a.(ctl := Progressed(a.ctl)), ListUnavailable(a))
    ensures ListUnavailable(a).chats == a.chats && ListUnavailable(a).states == a.states
  {
  }

  lemma StatedWatch(a: App, key: Key)
    ensures SameWatch(a, Stated(a, key)) && Stated(a, key).ctl == a.ctl && Stated(a, key).resetDue == a.resetDue
  {
  }

  lemma PutWatch(a: App, id: nat, c: Chat)
    requires id < |a.chats|
    ensures SameWatch(a, Put(a, id, c)) && Put(a, id, c).ctl == a.ctl && Put(a, id, c).resetDue == a.resetDue
  {
    hide Committed;
  }

  lemma EventWatch(p: Params, a: App, key: Key, e: Event, newCard: bool, sent: bool)
    ensures var b := EventFiled(p, a, key, e, newCard, sent);
      SameWatch(a, b) || SameWatch(a.(ctl := Progressed(a.ctl)), b)
  {
    hide Stated, Put, Ask, Ingest, OwedSeq, SameWatch;
    StatedWatch(a, key);
    var known := Stated(a, key);
    var held := Put(known, known.states[key], Ingest(ChatOf(known, key), e));
    PutWatch(known, known.states[key], Ingest(ChatOf(known, key), e));
    AskWatch(held, sent);
    var asked := if newCard then Ask(held, sent) else held;
    WatchChains(a, known, held);
    if newCard { WatchChains(a, held, asked); }
    ProgressedWatch(a, asked);
  }

  lemma WatchChains(a: App, b: App, c: App)
    requires SameWatch(a, b) && SameWatch(b, c)
    ensures SameWatch(a, c)
  {
  }

  lemma ProgressedWatch(a: App, b: App)
    requires SameWatch(a, b)
    ensures SameWatch(a.(ctl := Progressed(a.ctl)), b.(ctl := Progressed(b.ctl)))
  {
  }

  // ---------------------------------------------------------------- every step

  /** The steps that do not touch the link, the foreground or the aim. */
  predicate KeepsLink(a: App, step: Step) {
    && !step.Background? && !step.LinkDown? && !step.Handshake? && !step.StallCheck?
    && (step.Inactive? || step.Active? ==> !a.ctl.wentToBackground)
  }

  lemma WorkKeepsLink(p: Params, a: App, step: Step)
    requires Shaped(p, a) && Sane(p) && CacheIsOrdered(step) && KeepsLink(a, step)
    ensures SameLink(a, Worked(p, a, step).0)
  {
    hide Shaped, Works, Fills, ListFiled, ListPublished, EventFiled, HistoryFiled, SubscriptionFiled, RebuiltNow, PageRequested,
      Removed, GapDismissedFor, ReviewedBy, Ask, ListUnavailable;
    match step {
      case Inactive(_) =>
      case Active(sent) => AskWatch(a, sent);
      case Refresh(sent) => AskWatch(a, sent);
      case Sessions(list) => ListFiledWatch(p, a, list); PublishedWatch(ListFiled(p, a, list));
      case SessionsUnavailable => UnavailableWatch(a); ProgressedLink(a);
      case EventFor(key, e, newCard, sent) => EventWatch(p, a, key, e, newCard, sent); ProgressedLink(a);
      case Coalesced(chat) => if chat < |a.chats| { RebuiltNowFills(p, a, chat); FillsWatch(p, a, RebuiltNow(p, a, chat)); }
      case HistoryEnd(key, id, firstSeq, failed) => HistoryFiledWatch(p, a, key, id, firstSeq, failed); ProgressedLink(a);
      case SubscriptionReads(task, cached) => if task < |a.tasks| { TaskWorks(p, a, task, cached); }
      case RemovalConfirmed(key) => RemovedLink(a, key);
      case DismissGap(key) => ReaderWatch(a, key);
      case MarkReviewed(key) => ReaderWatch(a, key);
      case ReachedTop(key) => PageRequestedFills(p, a, key); FillsWatch(p, a, PageRequested(a, key));
      case LaunchSettles =>
    }
  }

  lemma ProgressedLink(a: App)
    ensures SameLink(a, a.(ctl := Progressed(a.ctl)))
  {
  }

  lemma TaskWorks(p: Params, a: App, task: nat, cached: seq<Event>)
    requires Shaped(p, a) && Sane(p) && Ascending(cached) && task < |a.tasks|
    ensures SameWatch(a, Worked(p, a, SubscriptionReads(task, cached)).0)
  {
    hide Works, Shaped, SubscriptionFiled;
    var u := a.(tasks := a.tasks[..task] + a.tasks[task + 1..]);
    TaskTakenWorks(p, a, u.tasks);
    SubscriptionWorks(p, u, a.tasks[task], cached);
    WorksWatch(p, u, SubscriptionFiled(p, u, a.tasks[task], cached).0);
  }

  lemma LookKeepsLink(p: Params, a: App)
    requires Shaped(p, a) && Sane(p)
    ensures SameLink(a, Advanced(p, a))
  {
    hide Shaped, Fills, HasArrived, IsCaughtUp, AllRebuilt, AllFilled, Committed;
    if a.ctl.open.Some? && a.ctl.open.value.list.Some? {
      var list := a.ctl.open.value.list.value;
      ReadiedFills(p, a, list);
      FillsWatch(p, a, Readied(p, a, list));
      ReleasedLink(Readied(p, a, list), list);
    }
  }

  lemma ReleasedLink(a: App, list: Fleet)
    ensures SameLink(a, Released(a, list))
  {
    hide Committed;
  }

  // ------------------------------------------------------ the last return's aim

  /**
   The last return was aimed: it found the link up, or a link came since. What returns is
   the first `inactive` or `active` that finds the app marked as away.
   */
  predicate ReturnAimed(p: Params, steps: seq<Step>)
    decreases |steps|
  {
    steps == [] ||
    var front, last := steps[..|steps| - 1], steps[|steps| - 1];
    if last.Handshake? then true
    else if (last.Inactive? || last.Active?) && Run(p, Launched, front).ctl.wentToBackground
    then Run(p, Launched, front).ctl.connected
    else ReturnAimed(p, front)
  }

  lemma AimIsNow(a: App, onNewLink: bool, sent: bool)
    ensures var b := AimedHere(a, onNewLink, sent);
      && b.past.aimedAt == a.past.clock && b.past.returnedAt == a.past.returnedAt
      && b.ctl.wentToBackground == a.ctl.wentToBackground
  {
    hide ScreenFrozen;
    AskWatch(ScreenFrozen(a, Aimed(a.ctl, onNewLink)).(past := a.past.(aimedAt := a.past.clock)), sent);
  }

  lemma LinkStepAims(p: Params, a: App, step: Step)
    requires Matched(a.ctl, a.past) && !KeepsLink(a, step)
    requires Ticked(a).past.clock > a.past.returnedAt && Ticked(a).past.clock > a.past.aimedAt
    ensures var b := Worked(p, Ticked(a), step).0;
      if step.Handshake? then b.past.aimedAt >= b.past.returnedAt
      else if step.Inactive? || step.Active?
      then (b.past.aimedAt >= b.past.returnedAt <==> a.ctl.connected) && !b.ctl.wentToBackground
      else if step.Background? then b.ctl.wentToBackground
      else b.past.aimedAt == a.past.aimedAt && b.past.returnedAt == a.past.returnedAt
           && b.ctl.wentToBackground == a.ctl.wentToBackground
  {
    hide AimedHere, ScreenFrozen, Ask, CameBack, Connected, Matched, ListFiled, ListPublished, ListUnavailable, EventFiled,
      RebuiltNow, HistoryFiled, SubscriptionFiled, Removed, GapDismissedFor, ReviewedBy, PageRequested;
    var t := Ticked(a);
    match step {
      case Handshake(pages, sent) => LinkAims(t, pages, sent);
      case Inactive(sent) => ReturnAims(t, sent);
      case Active(sent) => ReturnAims(t, sent); AskWatch(CameBack(t, sent).0, sent);
      case _ =>
    }
  }

  lemma LinkAims(a: App, pages: bool, sent: bool)
    requires a.past.clock >= a.past.returnedAt
    ensures Connected(a, pages, sent).past.aimedAt >= Connected(a, pages, sent).past.returnedAt
  {
    hide AimedHere, Cancelled, Committed;
    AimIsNow(a.(ctl := a.ctl.(generation := a.ctl.generation + 1, connected := true),
                pagesHistory := pages, past := a.past.(writes := [])), true, sent);
  }

  lemma ReturnAims(a: App, sent: bool)
    requires a.ctl.wentToBackground && a.past.clock > a.past.aimedAt
    ensures var b := CameBack(a, sent).0;
      (b.past.aimedAt >= b.past.returnedAt <==> a.ctl.connected) && !b.ctl.wentToBackground
  {
    hide AimedHere;
    AimIsNow(a.(ctl := a.ctl.(wentToBackground := false), resetDue := a.states.Keys,
                past := a.past.(returnedAt := a.past.clock)), false, sent);
  }

  /**
   In the foreground the last aim is no older than the last return exactly when that
   return was aimed.
   */
  lemma {:induction false} ReturnAimedIs(p: Params, steps: seq<Step>)
    requires Sane(p) && forall i | 0 <= i < |steps| :: CacheIsOrdered(steps[i])
    ensures var a := Run(p, Launched, steps);
      !a.ctl.wentToBackground ==> (a.past.aimedAt >= a.past.returnedAt <==> ReturnAimed(p, steps))
    decreases |steps|
  {
    if steps != [] {
      hide Standing, Stepped, SameLink;
      var front, last := steps[..|steps| - 1], steps[|steps| - 1];
      ReturnAimedIs(p, front);
      LaunchStands(p);
      RunStands(p, Launched, front);
      StepAims(p, Run(p, Launched, front), last);
    }
  }

  /** What one step does to which of the last aim and the last return is the later. */
  lemma StepAims(p: Params, a: App, step: Step)
    requires Standing(p, a) && Sane(p) && CacheIsOrdered(step)
    ensures var b := Stepped(p, a, step);
      !b.ctl.wentToBackground ==>
        && (a.ctl.wentToBackground ==> step.Inactive? || step.Active? || step.Handshake?)
        && (b.past.aimedAt >= b.past.returnedAt <==>
              if step.Handshake? then true
              else if (step.Inactive? || step.Active?) && a.ctl.wentToBackground then a.ctl.connected
              else a.past.aimedAt >= a.past.returnedAt)
  {
    hide Worked, Standing, Shaped, Matched, Advanced;
    StandingParts(p, a);
    TickStands(p, a);
    StandingParts(p, Ticked(a));
    StepStands(p, a, step);
    StandingParts(p, Worked(p, Ticked(a), step).0);
    LookKeepsLink(p, Worked(p, Ticked(a), step).0);
    TimesAreBefore(a.ctl, a.past);
    if KeepsLink(a, step) {
      WorkKeepsLink(p, Ticked(a), step);
    } else {
      LinkStepAims(p, a, step);
    }
  }

  lemma TimesAreBefore(c: Control, h: Past)
    requires Matched(c, h)
    ensures h.aimedAt <= h.clock && h.returnedAt <= h.clock
  {
  }
}
