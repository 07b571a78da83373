/**
 The stall watch: what a check does, what counts as progress, and how many checks a
 catch-up can pass against one list.

 The measure is what the list is still owed, with the progress no check has looked at
 (`Patience`). It falls with an event that is progress and with a check that passes; a
 list that only repeats the targets, a refresh, a merge, a page asked for or the reader's
 own act leaves it where it was or lower; what else can raise it is charged for, step by
 step (`Charge`), and comes to a bound that depends on the run's page ends, refused
 lists and subscriptions alone (`ChecksAreBounded`). With every list refused the charge is
 one a round, and the watch never redials (`RefusedListsNeverRedial`).
 */
module CatchUpPatience {
  import opened Wrappers
  import opened Replica
  import opened CatchUp
  import opened CatchUpRuns
  import opened CatchUpWork
  import opened CatchUpReleases
  import opened CatchUpWatch
  import opened CatchUpLanding

  // -------------------------------------------------------------- the stall watch

  /** A check never releases and never draws: it takes the progress it finds, or redials when there is none. */
  lemma {:induction false} CheckOnlyRedials(p: Params, a: App)
    requires a.ctl.open.Some?
    ensures var b := Stepped(p, a, StallCheck);
      && b.releases == a.releases && b.ctl.open.Some? && ScreenOf(b) == ScreenOf(a)
      && (b.ctl.redials == a.ctl.redials + 1
          <==> a.ctl.connected && !a.ctl.wentToBackground && !a.ctl.open.value.progressed)
      && (b.ctl.redials == a.ctl.redials || b.ctl.redials == a.ctl.redials + 1)
      && (b.ctl.redials == a.ctl.redials && a.ctl.connected && !a.ctl.wentToBackground ==> !b.ctl.open.value.progressed)
  {
    OnlyHoldsShows(a, Stepped(p, a, StallCheck));
  }

  /** What a session is still short of what a list says it has. */
  function Deficit(a: App, s: Summary): nat {
    if !HasState(a, s.key) then s.lastSeq
    else if Held(ChatOf(a, s.key)) < s.lastSeq then s.lastSeq - Held(ChatOf(a, s.key)) else 0
  }

  function Owed(a: App, list: Fleet): nat {
    if list == [] then 0 else Deficit(a, list[0]) + Owed(a, list[1..])
  }

  /** Each session's deficit is what it was, but for one key's. */
  ghost predicate PaysOnly(a: App, b: App, key: Key) {
    forall s: Summary :: Deficit(b, s) <= Deficit(a, s) && (s.key != key ==> Deficit(b, s) == Deficit(a, s))
  }

  lemma {:induction false} PayingLowersOwed(a: App, b: App, key: Key, list: Fleet)
    requires PaysOnly(a, b, key)
    ensures Owed(b, list) <= Owed(a, list)
    ensures var s := SummaryFor(list, key); s.Some? && Deficit(b, s.value) < Deficit(a, s.value) ==> Owed(b, list) < Owed(a, list)
    decreases |list|
  {
    hide Deficit;
    if list != [] { PayingLowersOwed(a, b, key, list[1..]); }
  }

  /** A list names each session once. */
  predicate EachOnce(list: Fleet) {
    list == [] || (EachOnce(list[1..]) && SummaryFor(list[1..], list[0].key).None?)
  }

  lemma {:induction false} OnlyTheNamedPays(a: App, b: App, key: Key, list: Fleet)
    requires PaysOnly(a, b, key) && EachOnce(list)
    ensures Owed(b, list) < Owed(a, list)
       <==> SummaryFor(list, key).Some? && Deficit(b, SummaryFor(list, key).value) < Deficit(a, SummaryFor(list, key).value)
    ensures SummaryFor(list, key).None? ==> Owed(b, list) == Owed(a, list)
    decreases |list|
  {
    hide Deficit;
    if list != [] { OnlyTheNamedPays(a, b, key, list[1..]); }
  }

  lemma StatedOwes(p: Params, a: App, key: Key, s: Summary)
    requires Shaped(p, a)
    ensures Deficit(Stated(a, key), s) == Deficit(a, s)
  {
    hide ChatSound, Fresh;
    FreshIsKeyed(key, a.ctl.open.Some?);
  }

  lemma PutOwes(p: Params, a: App, key: Key, c: Chat, s: Summary)
    requires Shaped(p, a) && HasState(a, key) && c.key == key && Held(c) >= Held(ChatOf(a, key))
    ensures var b := Put(a, a.states[key], c);
      && HasState(b, key) && Held(ChatOf(b, key)) == Held(c)
      && Deficit(b, s) <= Deficit(a, s) && (s.key != key ==> Deficit(b, s) == Deficit(a, s))
  {
    hide ChatSound, Committed;
    CommittedKeeps(c, MarkOf(a, c.key), Live);
    if s.key != key && s.key in a.states { assert a.chats[a.states[s.key]].key == s.key; }
  }

  lemma EventTouchesOne(p: Params, a: App, key: Key, e: Event, newCard: bool, sent: bool)
    requires Shaped(p, a) && Sane(p)
    ensures PaysOnly(a, EventFiled(p, a, key, e, newCard, sent), key)
    ensures HasState(EventFiled(p, a, key, e, newCard, sent), key)
    ensures Held(ChatOf(EventFiled(p, a, key, e, newCard, sent), key)) >= Held(ChatOf(Stated(a, key), key))
    ensures Held(ChatOf(EventFiled(p, a, key, e, newCard, sent), key)) == Held(Ingest(ChatOf(Stated(a, key), key), e))
  {
    hide ChatSound, Requested, Progressed, OwedSeq, Ingest, Put, Stated, Works, Deficit, Shaped;
    StatedWorks(p, a, key);
    var known := Stated(a, key);
    WorksIsShaped(p, a, known);
    var c := ChatOf(known, key);
    SoundAt(p, known, known.states[key]);
    IngestIsSound(p, c, e);
    IngestFace(c, e);
    StatedIsKeyed(p, known, key);
    var held := Put(known, known.states[key], Ingest(c, e));
    var b := EventFiled(p, a, key, e, newCard, sent);
    forall s: Summary ensures Deficit(b, s) <= Deficit(a, s) && (s.key != key ==> Deficit(b, s) == Deficit(a, s)) {
      StatedOwes(p, a, key, s);
      PutOwes(p, known, key, Ingest(c, e), s);
      SameChatsOwe(held, b, s);
    }
    PutOwes(p, known, key, Ingest(c, e), Summary(key, 0, []));
  }

  lemma StatedIsKeyed(p: Params, a: App, key: Key)
    requires Shaped(p, a) && HasState(a, key)
    ensures ChatOf(a, key).key == key
  {
  }

  lemma SameChatsOwe(a: App, b: App, s: Summary)
    requires b.chats == a.chats && b.states == a.states
    ensures Deficit(b, s) == Deficit(a, s)
  {
  }

  /** What the stall watch can still let pass: what is owed, and progress not yet looked at. */
  function Patience(a: App, list: Fleet): nat
    requires a.ctl.open.Some?
  {
    Owed(a, list) + if a.ctl.open.value.progressed then 1 else 0
  }

  lemma EventBooks(p: Params, a: App, key: Key, e: Event, newCard: bool, sent: bool)
    requires a.ctl.open.Some?
    ensures var b := EventFiled(p, a, key, e, newCard, sent);
      && b.ctl.open.Some? && b.ctl.open.value.list == a.ctl.open.value.list
      && b.ctl.connected == a.ctl.connected && b.ctl.wentToBackground == a.ctl.wentToBackground
      && b.ctl.redials == a.ctl.redials && b.releases == a.releases
      && b.ctl.open.value.progressed
         == (a.ctl.open.value.progressed
             || (var target := OwedSeq(a.ctl.open.value, key);
                 && target.Some? && Held(ChatOf(Stated(a, key), key)) < target.value
                 && HasState(b, key) && Held(ChatOf(b, key)) > Held(ChatOf(Stated(a, key), key))))
  {
    hide Stated, Ingest, Put, OwedSeq, Ask;
    StatedBooks(a, key);
    var known := Stated(a, key);
    var held := Put(known, known.states[key], Ingest(ChatOf(known, key), e));
    PutFiles(known, known.states[key], Ingest(ChatOf(known, key), e));
    PutKeepsReleases(known, known.states[key], Ingest(ChatOf(known, key), e));
    AskKeepsList(held, sent);
    var asked := if newCard then Ask(held, sent) else held;
    SameListOwes(a.ctl.open.value, asked.ctl.open.value, key);
  }

  lemma PutKeepsReleases(a: App, id: nat, c: Chat)
    requires id < |a.chats|
    ensures Put(a, id, c).releases == a.releases
  {
  }

  lemma SameListOwes(o: Open, o': Open, key: Key)
    requires o'.list == o.list
    ensures OwedSeq(o', key) == OwedSeq(o, key)
  {
  }

  lemma StatedBooks(a: App, key: Key)
    ensures Stated(a, key).ctl == a.ctl && Stated(a, key).releases == a.releases
  {
  }

  lemma AskKeepsList(a: App, sent: bool)
    requires a.ctl.open.Some?
    ensures var b := Ask(a, sent);
      && b.ctl.open.Some? && b.ctl.open.value == a.ctl.open.value.(position := b.ctl.open.value.position)
      && b.ctl.connected == a.ctl.connected && b.ctl.wentToBackground == a.ctl.wentToBackground
      && b.ctl.redials == a.ctl.redials && b.releases == a.releases && b.chats == a.chats && b.states == a.states
  {
  }

  /** An event is progress exactly when it lowers what the catch-up's list is still owed. */
  lemma {:induction false} EventIsProgressExactly(p: Params, a: App, key: Key, e: Event, newCard: bool, sent: bool)
    requires Shaped(p, a) && Sane(p) && a.ctl.open.Some? && !a.ctl.open.value.progressed
    requires a.ctl.open.value.list.Some? && EachOnce(a.ctl.open.value.list.value)
    ensures var b, list := EventFiled(p, a, key, e, newCard, sent), a.ctl.open.value.list.value;
      b.ctl.open.Some? && (b.ctl.open.value.progressed <==> Owed(b, list) < Owed(a, list))
  {
    hide Shaped, EventFiled, Stated, Ingest, Owed;
    var b, list := EventFiled(p, a, key, e, newCard, sent), a.ctl.open.value.list.value;
    EventBooks(p, a, key, e, newCard, sent);
    EventTouchesOne(p, a, key, e, newCard, sent);
    OnlyTheNamedPays(a, b, key, list);
    var s := SummaryFor(list, key);
    if s.Some? {
      NamedFor(list, key);
      StatedOwes(p, a, key, s.value);
    }
  }

  lemma {:induction false} NamedFor(list: Fleet, key: Key)
    ensures SummaryFor(list, key).Some? ==> SummaryFor(list, key).value.key == key
    decreases |list|
  {
    if list != [] { NamedFor(list[1..], key); }
  }

  lemma EventSpendsPatience(p: Params, a: App, key: Key, e: Event, newCard: bool, sent: bool)
    requires Shaped(p, a) && Sane(p) && a.ctl.open.Some? && a.ctl.open.value.list.Some?
    ensures var b, list := EventFiled(p, a, key, e, newCard, sent), a.ctl.open.value.list.value;
      b.ctl.open.Some? && Patience(b, list) <= Patience(a, list)
  {
    hide Shaped, EventFiled, Stated, Ingest, Owed;
    var b, list := EventFiled(p, a, key, e, newCard, sent), a.ctl.open.value.list.value;
    EventBooks(p, a, key, e, newCard, sent);
    EventTouchesOne(p, a, key, e, newCard, sent);
    PayingLowersOwed(a, b, key, list);
    var s := SummaryFor(list, key);
    if s.Some? {
      NamedFor(list, key);
      StatedOwes(p, a, key, s.value);
    }
  }

  /** Nothing any session holds has been lost. */
  predicate HoldsAsMuch(a: App, b: App) {
    && b.states == a.states && |b.chats| == |a.chats|
    && forall i | 0 <= i < |a.chats| :: Held(b.chats[i]) >= Held(a.chats[i])
  }

  lemma {:induction false} HoldingOwes(a: App, b: App, list: Fleet)
    requires HoldsAsMuch(a, b)
    ensures Owed(b, list) <= Owed(a, list)
    decreases |list|
  {
    if list != [] { HoldingOwes(a, b, list[1..]); }
  }

  lemma FillsHolds(p: Params, a: App, b: App)
    requires Fills(p, a, b)
    ensures HoldsAsMuch(a, b) && b.resetDue == a.resetDue
  {
    hide Works;
  }

  lemma LookHolds(p: Params, a: App)
    requires Shaped(p, a) && Sane(p) && a.ctl.open.Some? && a.ctl.open.value.list.Some?
    requires Advanced(p, a).releases == a.releases
    ensures Advanced(p, a).ctl == a.ctl && Advanced(p, a).resetDue == a.resetDue
    ensures HoldsAsMuch(a, Advanced(p, a))
  {
    hide Shaped, Fills, Released, HasArrived, IsCaughtUp, AllRebuilt, AllFilled, Owed;
    var list := a.ctl.open.value.list.value;
    ReadiedFills(p, a, list);
    FillsKeepsBooks(p, a, Readied(p, a, list));
    FillsHolds(p, a, Readied(p, a, list));
    ReleasedCloses(Readied(p, a, list), list);
    FillsKeepsReleases(p, a, Readied(p, a, list));
  }

  lemma FillsKeepsReleases(p: Params, a: App, b: App)
    requires Fills(p, a, b)
    ensures b.releases == a.releases
  {
  }

  // ------------------------------------------------------------ one list's worth

  /** Two lists that ask the same of the same sessions; their open cards may differ. */
  predicate SameTargets(l: Fleet, list: Fleet) {
    |l| == |list| && forall i | 0 <= i < |l| :: l[i].key == list[i].key && l[i].lastSeq == list[i].lastSeq
  }

  lemma {:induction false} SameTargetsOwe(a: App, l: Fleet, list: Fleet)
    requires SameTargets(l, list)
    ensures Owed(a, l) == Owed(a, list)
    decreases |l|
  {
    if l != [] {
      assert forall i | 0 <= i < |l| - 1 :: l[1..][i] == l[i + 1] && list[1..][i] == list[i + 1];
      SameTargetsOwe(a, l[1..], list[1..]);
    }
  }

  lemma {:induction false} DeficitsOwe(a: App, b: App, list: Fleet)
    requires forall i | 0 <= i < |list| :: Deficit(b, list[i]) <= Deficit(a, list[i])
    ensures Owed(b, list) <= Owed(a, list)
    decreases |list|
  {
    hide Deficit;
    if list != [] {
      assert forall i | 0 <= i < |list| - 1 :: list[1..][i] == list[i + 1];
      DeficitsOwe(a, b, list[1..]);
    }
  }

  function Total(list: Fleet): nat {
    if list == [] then 0 else list[0].lastSeq + Total(list[1..])
  }

  lemma {:induction false} OwedAtMost(a: App, list: Fleet)
    ensures Owed(a, list) <= Total(list)
    decreases |list|
  {
    if list != [] { OwedAtMost(a, list[1..]); }
  }

  /**
   A catch-up waiting on a list's targets, on a live link, in the foreground, with no
   window of theirs left to reset.
   */
  predicate Waiting(a: App, list: Fleet) {
    && a.ctl.open.Some? && a.ctl.open.value.list.Some? && SameTargets(a.ctl.open.value.list.value, list)
    && a.ctl.connected && !a.ctl.wentToBackground
    && forall i | 0 <= i < |list| :: list[i].key !in a.resetDue
  }

  /** Everything that can happen while the link stays up, the app stays in front and the Mac's list keeps its targets. */
  predicate Passing(list: Fleet, step: Step) {
    && !step.Background? && !step.LinkDown? && !step.Handshake? && !step.RemovalConfirmed?
    && (step.Sessions? ==> SameTargets(step.list, list))
  }

  /** The patience a step may give back: progress that is not an event's, or a session set afresh. */
  function Charge(list: Fleet, step: Step): nat {
    match step
    case HistoryEnd(_, _, _, _) => 1
    case SessionsUnavailable => 1
    case SubscriptionReads(_, _) => Total(list)
    case _ => 0
  }

  function Charges(list: Fleet, steps: seq<Step>): nat {
    if steps == [] then 0 else Charges(list, steps[..|steps| - 1]) + Charge(list, steps[|steps| - 1])
  }

  function Checks(steps: seq<Step>): nat {
    if steps == [] then 0
    else Checks(steps[..|steps| - 1]) + if steps[|steps| - 1].StallCheck? then 1 else 0
  }

  // -------------------------------------------------------- what each step spends

  lemma WatchWaits(a: App, b: App, list: Fleet)
    requires Waiting(a, list) && SameWatch(a, b) && Owed(b, list) <= Owed(a, list)
    ensures Waiting(b, list) && Patience(b, list) <= Patience(a, list) && b.ctl.redials == a.ctl.redials
  {
    hide Owed;
  }

  lemma ProgressWaits(a: App, list: Fleet)
    requires Waiting(a, list)
    ensures Waiting(a.(ctl := Progressed(a.ctl)), list)
    ensures Patience(a.(ctl := Progressed(a.ctl)), list) <= Patience(a, list) + 1
  {
    SameOwed(a, a.(ctl := Progressed(a.ctl)), list);
  }

  lemma {:induction false} SameOwed(a: App, b: App, list: Fleet)
    requires b.chats == a.chats && b.states == a.states
    ensures Owed(b, list) == Owed(a, list)
    decreases |list|
  {
    if list != [] { SameOwed(a, b, list[1..]); }
  }

  /** A step of bookkeeping and requests, with no session changed. */
  lemma BookStepSpends(p: Params, a: App, step: Step, list: Fleet)
    requires Waiting(a, list)
    requires step.Inactive? || step.Active? || step.Refresh? || step.SessionsUnavailable? || step.LaunchSettles?
    ensures var b := Worked(p, a, step).0;
      Waiting(b, list) && b.ctl.redials == a.ctl.redials && Patience(b, list) <= Patience(a, list) + Charge(list, step)
  {
    hide Waiting, Owed, Ask, ListUnavailable, Patience, SameWatch;
    match step
    case SessionsUnavailable =>
      var b := ListUnavailable(a);
      WaitingIsLive(a, list);
      UnavailableWatch(a);
      SameOwed(a, b, list);
      ProgressWaits(a, list);
      if SameWatch(a, b) {
        WatchWaits(a, b, list);
      } else {
        SameOwed(a.(ctl := Progressed(a.ctl)), b, list);
        WatchWaits(a.(ctl := Progressed(a.ctl)), b, list);
        ProgressRedials(a);
      }
    case LaunchSettles =>
      var b := a.(ctl := a.ctl.(launchSettled := true));
      SettledWatch(a);
      SameOwed(a, b, list);
      WatchWaits(a, b, list);
    case Refresh(sent) => AskSpends(a, sent, list);
    case Active(sent) => WaitingIsLive(a, list); AskSpends(a, sent, list);
    case Inactive(sent) => WaitingIsLive(a, list);
  }

  lemma AskSpends(a: App, sent: bool, list: Fleet)
    requires Waiting(a, list)
    ensures Waiting(Ask(a, sent), list) && Ask(a, sent).ctl.redials == a.ctl.redials
    ensures Patience(Ask(a, sent), list) <= Patience(a, list)
  {
    hide Waiting, Owed, Ask, Patience, SameWatch;
    AskWatch(a, sent);
    SameOwed(a, Ask(a, sent), list);
    WatchWaits(a, Ask(a, sent), list);
  }

  lemma WaitingIsLive(a: App, list: Fleet)
    requires Waiting(a, list)
    ensures a.ctl.connected && !a.ctl.wentToBackground && a.ctl.open.Some? && a.ctl.open.value.list.Some?
  {
  }

  lemma ProgressRedials(a: App)
    ensures Progressed(a.ctl).redials == a.ctl.redials
  {
  }

  lemma SettledWatch(a: App)
    ensures SameWatch(a, a.(ctl := a.ctl.(launchSettled := true)))
  {
  }

  /** A merge, a page the reader asked for, and the reader's own acts. */
  lemma QuietStepSpends(p: Params, a: App, step: Step, list: Fleet)
    requires Shaped(p, a) && Waiting(a, list)
    requires step.Coalesced? || step.ReachedTop? || step.DismissGap? || step.MarkReviewed?
    ensures var b := Worked(p, a, step).0;
      Waiting(b, list) && b.ctl.redials == a.ctl.redials && Patience(b, list) <= Patience(a, list)
  {
    hide Waiting, Owed, Patience, SameWatch, Shaped, Fills, RebuiltNow, PageRequested, GapDismissedFor, ReviewedBy, HoldsAsMuch;
    var b := Worked(p, a, step).0;
    SelfWatch(a);
    SelfHolds(a);
    match step {
      case Coalesced(chat) =>
        if chat < |a.chats| {
          RebuiltNowFills(p, a, chat);
          FillsWatch(p, a, b);
          FillsHolds(p, a, b);
        }
      case ReachedTop(key) =>
        PageRequestedFills(p, a, key);
        FillsWatch(p, a, PageRequested(a, key));
        FillsHolds(p, a, PageRequested(a, key));
      case DismissGap(key) => ReaderWatch(a, key); ReaderHolds(a, key);
      case MarkReviewed(key) => ReaderWatch(a, key); ReaderHolds(a, key);
    }
    HoldingOwes(a, b, list);
    WatchWaits(a, b, list);
  }

  lemma SelfHolds(a: App)
    ensures HoldsAsMuch(a, a)
  {
  }

  lemma ReaderHolds(a: App, key: Key)
    ensures HoldsAsMuch(a, GapDismissedFor(a, key)) && HoldsAsMuch(a, ReviewedBy(a, key))
  {
    hide NoticeDismissed, ReviewMarked;
    if key in a.shownStates && a.shownStates[key] < |a.chats| {
      ReadersChatHolds(a.chats[a.shownStates[key]], Max(MarkOf(a, a.chats[a.shownStates[key]].key), a.chats[a.shownStates[key]].shown.drawnThrough));
    }
  }

  lemma ReadersChatHolds(c: Chat, mark: nat)
    ensures Held(NoticeDismissed(c)) == Held(c) && Held(ReviewMarked(c, mark)) == Held(c)
  {
  }

  lemma EventStepSpends(p: Params, a: App, step: Step, list: Fleet)
    requires Shaped(p, a) && Sane(p) && Waiting(a, list) && step.EventFor?
    ensures var b := Worked(p, a, step).0;
      Waiting(b, list) && b.ctl.redials == a.ctl.redials && Patience(b, list) <= Patience(a, list)
  {
    hide Shaped, EventFiled, Patience, SameTargets;
    EventPasses(p, a, step.key, step.e, step.newCard, step.sent, list);
  }

  lemma EventPasses(p: Params, a: App, key: Key, e: Event, newCard: bool, sent: bool, list: Fleet)
    requires Shaped(p, a) && Sane(p) && Waiting(a, list)
    ensures var b := EventFiled(p, a, key, e, newCard, sent);
      Waiting(b, list) && b.ctl.redials == a.ctl.redials && Patience(b, list) <= Patience(a, list)
  {
    hide Shaped, EventFiled, Owed, OwedSeq, Stated, Deficit, EachOnce;
    var b := EventFiled(p, a, key, e, newCard, sent);
    EventBooks(p, a, key, e, newCard, sent);
    EventSpendsPatience(p, a, key, e, newCard, sent);
    EventResets(p, a, key, e, newCard, sent);
    SameTargetsOwe(a, a.ctl.open.value.list.value, list);
    SameTargetsOwe(b, a.ctl.open.value.list.value, list);
  }

  lemma EventResets(p: Params, a: App, key: Key, e: Event, newCard: bool, sent: bool)
    ensures EventFiled(p, a, key, e, newCard, sent).resetDue <= a.resetDue
  {
    EventWatch(p, a, key, e, newCard, sent);
  }

  lemma RequestEndHolds(p: Params, c: Chat, id: nat, firstSeq: nat, failed: bool)
    requires ChatSound(p, c)
    ensures Held(RequestEnded(p, c, id, firstSeq, failed)) >= Held(c)
  {
    if c.log.page.Some? && c.log.page.value.id == id && !(c.pin.Some? && c.pin.value.id == id) {
      PageEndHolds(c.log, id, firstSeq, failed);
    }
  }

  lemma PageEndHolds(r: Replica, id: nat, firstSeq: nat, failed: bool)
    requires WellKept(r) && r.page.Some? && r.page.value.id == id
    ensures LastSeq(PageEnded(r, id, firstSeq, failed).events) >= LastSeq(r.events)
  {
    hide WithPage, Content, Apart, AllOpen, StillOpen, TotalLacking, NewerFact, Distinct, Seqs, Insert;
    var waits := WithPage(r.pending, r.pageBuffer);
    WellKeptParts(r);
    InsertAllAdds(r.events, InsertAll([], waits));
  }

  lemma HistoryStepSpends(p: Params, a: App, step: Step, list: Fleet)
    requires Shaped(p, a) && Waiting(a, list) && step.HistoryEnd?
    ensures var b := Worked(p, a, step).0;
      Waiting(b, list) && b.ctl.redials == a.ctl.redials && Patience(b, list) <= Patience(a, list) + 1
  {
    hide Waiting, Owed, Patience, SameWatch, Shaped, Fills, HistoryFiled, HoldsAsMuch;
    var b := HistoryFiled(p, a, step.key, step.id, step.firstSeq, step.failed);
    WaitingIsLive(a, list);
    HistoryFiledWatch(p, a, step.key, step.id, step.firstSeq, step.failed);
    HistoryFiledHolds(p, a, step.key, step.id, step.firstSeq, step.failed);
    HoldingOwes(a, b, list);
    ProgressWaits(a, list);
    ProgressRedials(a);
    if SameWatch(a, b) {
      WatchWaits(a, b, list);
    } else {
      SameOwed(a, a.(ctl := Progressed(a.ctl)), list);
      WatchWaits(a.(ctl := Progressed(a.ctl)), b, list);
    }
  }

  lemma HistoryFiledHolds(p: Params, a: App, key: Key, id: nat, firstSeq: nat, failed: bool)
    requires Shaped(p, a)
    ensures HoldsAsMuch(a, HistoryFiled(p, a, key, id, firstSeq, failed))
  {
    hide Works, Fills, Shaped, Put, Progressed, RequestEnded, WindowFilled, ChatSound, SameFace, HoldsAsMuch;
    SelfHolds(a);
    if HasState(a, key) {
      var c := ChatOf(a, key);
      var ours := (c.log.page.Some? && c.log.page.value.id == id) || (c.pin.Some? && c.pin.value.id == id);
      var counted := if ours then a.(ctl := Progressed(a.ctl)) else a;
      ShapeIsChats(p, a, counted);
      SoundAt(p, a, a.states[key]);
      var d := RequestEnded(p, c, id, firstSeq, failed);
      RequestEndIsSound(p, c, id, firstSeq, failed);
      RequestEndHolds(p, c, id, firstSeq, failed);
      RequestEndedFace(p, c, id, firstSeq, failed);
      FaceKeepsKey(c, d);
      PutWorks(p, counted, a.states[key], d);
      var put := Put(counted, a.states[key], d);
      WorksIsShaped(p, counted, put);
      PutHolds(a, counted, a.states[key], d);
      WindowFilledFills(p, put, key);
      FillsHolds(p, put, WindowFilled(p, put, key));
      HoldsChains(a, put, WindowFilled(p, put, key));
    }
  }

  lemma PutHolds(a: App, counted: App, id: nat, c: Chat)
    requires id < |a.chats| && Held(c) >= Held(a.chats[id])
    requires counted.chats == a.chats && counted.states == a.states
    ensures HoldsAsMuch(a, Put(counted, id, c))
  {
    hide Committed;
    CommittedKeeps(c, MarkOf(counted, c.key), Live);
  }

  lemma HoldsChains(a: App, b: App, c: App)
    requires HoldsAsMuch(a, b) && HoldsAsMuch(b, c)
    ensures HoldsAsMuch(a, c)
  {
  }

  // ------------------------------------------------------------ a list repeated

  /** With no reset due, a summary of a list takes nothing from any session. */
  lemma ListedOwes(p: Params, a: App, s: Summary, answers: bool, r: Summary)
    requires Shaped(p, a) && Sane(p) && s.key !in a.resetDue
    ensures Deficit(Listed(p, a, s, answers), r) <= Deficit(a, r)
  {
    hide Works, Shaped, Stated, Restarted, Put, PinsKept, ChatSound, Deficit;
    StatedWorks(p, a, s.key);
    var known := Stated(a, s.key);
    WorksIsShaped(p, a, known);
    StatedOwes(p, a, s.key, r);
    var spent := if a.ctl.open.None? || answers then known.(resetDue := known.resetDue - {s.key}) else known;
    var asked := SubscribeBegun(spent, s, false);
    SameWorks(p, known, asked);
    WorksIsShaped(p, known, asked);
    SameChatsOwe(known, asked, r);
    if asked.pagesHistory && Held(ChatOf(asked, s.key)) >= s.lastSeq {
      SoundAt(p, asked, asked.states[s.key]);
      PinsKeptFace(p, ChatOf(asked, s.key), s.pending);
      PinsKeptIsSound(p, ChatOf(asked, s.key), s.pending);
      StatedIsKeyed(p, asked, s.key);
      FaceKeepsKey(ChatOf(asked, s.key), PinsKept(p, ChatOf(asked, s.key), s.pending));
      PutOwes(p, asked, s.key, PinsKept(p, ChatOf(asked, s.key), s.pending), r);
    }
  }

  lemma {:induction false} AllListedOwes(p: Params, a: App, l: Fleet, answers: bool, r: Summary)
    requires Shaped(p, a) && Sane(p) && forall i | 0 <= i < |l| :: l[i].key !in a.resetDue
    ensures Deficit(AllListed(p, a, l, answers), r) <= Deficit(a, r)
    decreases |l|
  {
    hide Works, Shaped, Listed, Deficit;
    if l != [] {
      var front := l[..|l| - 1];
      var before := AllListed(p, a, front, answers);
      AllListedOwes(p, a, front, answers, r);
      AllListedWorks(p, a, front, answers);
      WorksIsShaped(p, a, before);
      WorksResets(p, a, before);
      ListedOwes(p, before, l[|l| - 1], answers, r);
    }
  }

  lemma WorksResets(p: Params, a: App, b: App)
    requires Works(p, a, b)
    ensures b.resetDue <= a.resetDue
  {
  }

  lemma KeptOwes(a: App, gone: set<Key>, r: Summary)
    requires r.key !in gone
    ensures Deficit(Forgotten(a, gone), r) == Deficit(a, r)
  {
  }

  /** A list that repeats the targets pays nothing, resets nothing and costs nothing. */
  lemma RepeatSpends(p: Params, a: App, step: Step, list: Fleet)
    requires Shaped(p, a) && Sane(p) && Waiting(a, list) && step.Sessions? && SameTargets(step.list, list)
    ensures var b := Worked(p, a, step).0;
      Waiting(b, list) && b.ctl.redials == a.ctl.redials && Patience(b, list) <= Patience(a, list)
  {
    hide Works, Shaped, AllListed, ListFiled, Owed, Deficit, TakeReply, Forgotten;
    var l := step.list;
    var b := ListFiled(p, a, l);
    TakenWatch(a);
    ListFiledWatch(p, a, l);
    PublishedWatch(b);
    forall i | 0 <= i < |list| ensures Deficit(b, list[i]) <= Deficit(a, list[i]) {
      RepeatOwes(p, a, l, list[i], i);
    }
    DeficitsOwe(a, b, list);
    SameOwed(b, ListPublished(b), list);
  }

  lemma RepeatOwes(p: Params, a: App, l: Fleet, r: Summary, i: nat)
    requires Shaped(p, a) && Sane(p) && i < |l| && l[i].key == r.key
    requires forall k | 0 <= k < |l| :: l[k].key !in a.resetDue
    ensures Deficit(ListFiled(p, a, l), r) <= Deficit(a, r)
  {
    hide Works, Shaped, AllListed, Forgotten, TakeReply, Deficit;
    TakenWatch(a);
    var answers := TakeReply(a).1;
    var current := ListTaken(a, l).(summaries := l, listedOn := Some(a.ctl.generation));
    ShapeIsChats(p, a, current);
    SameChatsOwe(a, current, r);
    var gone := current.states.Keys - Keys(l);
    ForgottenShapes(p, current, gone);
    KeptOwes(current, gone, r);
    ForgottenWatch(current, gone);
    AllListedOwes(p, Forgotten(current, gone), l, answers, r);
  }

  // --------------------------------------------------------------- over a run

  /** Whatever passes but a check: the wait goes on, and costs no more than it is charged. */
  lemma WorkSpends(p: Params, a: App, step: Step, list: Fleet)
    requires Shaped(p, a) && Sane(p) && CacheIsOrdered(step) && Waiting(a, list) && Passing(list, step) && !step.StallCheck?
    ensures var b := Worked(p, a, step).0;
      Waiting(b, list) && b.ctl.redials == a.ctl.redials && Patience(b, list) <= Patience(a, list) + Charge(list, step)
  {
    hide Shaped, Worked, Waiting, Owed, Patience;
    match step {
      case Sessions(_) => RepeatSpends(p, a, step, list);
      case EventFor(_, _, _, _) => EventStepSpends(p, a, step, list);
      case HistoryEnd(_, _, _, _) => HistoryStepSpends(p, a, step, list);
      case SubscriptionReads(task, cached) => SubscriptionSpends(p, a, step, list);
      case Coalesced(_) => QuietStepSpends(p, a, step, list);
      case ReachedTop(_) => QuietStepSpends(p, a, step, list);
      case DismissGap(_) => QuietStepSpends(p, a, step, list);
      case MarkReviewed(_) => QuietStepSpends(p, a, step, list);
      case _ => BookStepSpends(p, a, step, list);
    }
  }

  lemma SubscriptionSpends(p: Params, a: App, step: Step, list: Fleet)
    requires Shaped(p, a) && Sane(p) && CacheIsOrdered(step) && Waiting(a, list) && step.SubscriptionReads?
    ensures var b := Worked(p, a, step).0;
      Waiting(b, list) && b.ctl.redials == a.ctl.redials && Patience(b, list) <= Patience(a, list) + Total(list)
  {
    hide Shaped, SubscriptionFiled, Owed, Total;
    var b := Worked(p, a, step).0;
    if step.task < |a.tasks| { TaskWorks(p, a, step.task, step.cached); }
    OwedAtMost(b, list);
  }

  lemma PassingStepSpends(p: Params, a: App, step: Step, list: Fleet)
    requires Standing(p, a) && Sane(p) && CacheIsOrdered(step) && Waiting(a, list) && Passing(list, step)
    requires Stepped(p, a, step).releases == a.releases
    ensures var b := Stepped(p, a, step);
      || b.ctl.redials > a.ctl.redials
      || (&& b.ctl.redials == a.ctl.redials && Waiting(b, list)
          && Patience(b, list) + (if step.StallCheck? then 1 else 0) <= Patience(a, list) + Charge(list, step))
  {
    hide Standing, Shaped, Worked, Advanced, Owed;
    var t := Ticked(a);
    OnlyLooksRelease(p, a, step);
    TickStands(p, a);
    StandingParts(p, t);
    SameOwed(a, t, list);
    TickWaits(a, list);
    if step.StallCheck? {
      CheckSpends(p, a, list);
    } else {
      WorkSpends(p, t, step, list);
      WorkedStands(p, t, step);
      var mid, looks := Worked(p, t, step).0, Worked(p, t, step).1;
      StandingParts(p, mid);
      if looks {
        LookKeepsWaiting(p, a, t, mid, step, list);
      }
    }
  }

  lemma TickWaits(a: App, list: Fleet)
    requires Waiting(a, list)
    ensures Waiting(Ticked(a), list) && Patience(Ticked(a), list) == Patience(a, list)
  {
    SameOwed(a, Ticked(a), list);
  }

  lemma LookKeepsWaiting(p: Params, a: App, t: App, mid: App, step: Step, list: Fleet)
    requires Shaped(p, mid) && Sane(p) && Waiting(mid, list)
    requires t == Ticked(a) && (mid, true) == Worked(p, t, step) && Stepped(p, a, step).releases == a.releases
    requires mid.releases == a.releases
    ensures Waiting(Advanced(p, mid), list) && Patience(Advanced(p, mid), list) <= Patience(mid, list)
    ensures Advanced(p, mid).ctl.redials == mid.ctl.redials
  {
    hide Shaped, Worked, Advanced, Owed, HoldsAsMuch;
    LookHolds(p, mid);
    HoldingOwes(mid, Advanced(p, mid), list);
  }

  lemma CheckSpends(p: Params, a: App, list: Fleet)
    requires Waiting(a, list)
    ensures var b := Stepped(p, a, StallCheck);
      || b.ctl.redials > a.ctl.redials
      || (b.ctl.redials == a.ctl.redials && Waiting(b, list) && Patience(b, list) + 1 <= Patience(a, list))
  {
    hide Owed;
    SameOwed(a, Stepped(p, a, StallCheck), list);
  }

  /** Whatever passes, the app stays in front and no redial is taken back. */
  lemma RedialsOnlyGrow(p: Params, a: App, step: Step, list: Fleet)
    requires Standing(p, a) && Sane(p) && CacheIsOrdered(step) && Passing(list, step) && !a.ctl.wentToBackground
    ensures Stepped(p, a, step).ctl.redials >= a.ctl.redials && !Stepped(p, a, step).ctl.wentToBackground
  {
    hide Standing, Shaped, Worked, Advanced;
    TickStands(p, a);
    StandingParts(p, Ticked(a));
    if step.StallCheck? {
      CheckedRedials(p, a);
    } else {
      WorkKeepsLink(p, Ticked(a), step);
      WorkedStands(p, Ticked(a), step);
      StandingParts(p, Worked(p, Ticked(a), step).0);
      LookKeepsLink(p, Worked(p, Ticked(a), step).0);
    }
  }

  lemma CheckedRedials(p: Params, a: App)
    ensures var b := Stepped(p, a, StallCheck);
      b.ctl.redials >= a.ctl.redials && b.ctl.wentToBackground == a.ctl.wentToBackground
  {
  }

  /**
   **Against one list's targets only so many checks can pass**, whatever else happens on
   a link that stays up with the app in front: events of any session, refreshes, lists
   that repeat the targets, refused lists, merges, pages, subscriptions and the reader's
   acts. A stall watch that has not redialled, with nothing released, has passed no more
   checks than what the list was owed, one for progress already made, one for each page
   end and refused list, and a list's worth for each subscription that read its cache.
   */
  lemma {:induction false} ChecksAreBounded(p: Params, a: App, steps: seq<Step>, list: Fleet)
    requires Standing(p, a) && Sane(p) && Waiting(a, list) && Unreleased(p, a, steps)
    requires forall i | 0 <= i < |steps| :: Passing(list, steps[i]) && CacheIsOrdered(steps[i])
    ensures var b := Run(p, a, steps);
      && !b.ctl.wentToBackground
      && (|| b.ctl.redials > a.ctl.redials
          || (&& b.ctl.redials == a.ctl.redials && Waiting(b, list)
              && Patience(b, list) + Checks(steps) <= Patience(a, list) + Charges(list, steps)))
    decreases |steps|
  {
    hide Standing, Patience, Stepped, Passing;
    if steps != [] {
      var front, last := steps[..|steps| - 1], steps[|steps| - 1];
      var before := Run(p, a, front);
      ChecksAreBounded(p, a, front, list);
      RunStands(p, a, front);
      assert Passing(list, last) && CacheIsOrdered(last);
      RedialsOnlyGrow(p, before, last, list);
      if before.ctl.redials == a.ctl.redials {
        PassingStepSpends(p, before, last, list);
      }
    }
  }

  // --------------------------------------------------- where the wait begins

  /** A list that answers spends the reset of every session it names. */
  lemma ListedSpends(p: Params, a: App, s: Summary)
    requires Shaped(p, a) && Sane(p)
    ensures s.key !in Listed(p, a, s, true).resetDue
  {
    hide Works, Shaped, Stated, Restarted, Put, PinsKept;
    StatedWorks(p, a, s.key);
    var known := Stated(a, s.key);
    WorksIsShaped(p, a, known);
    var spent := known.(resetDue := known.resetDue - {s.key});
    SameWorks(p, known, spent);
    WorksIsShaped(p, known, spent);
    RestartedWorks(p, spent, s);
    WorksResets(p, spent, Restarted(p, spent, s));
    ListedResets(p, a, s);
  }

  lemma ListedResets(p: Params, a: App, s: Summary)
    ensures var spent := Stated(a, s.key).(resetDue := Stated(a, s.key).resetDue - {s.key});
      Listed(p, a, s, true).resetDue <= spent.resetDue + Restarted(p, spent, s).resetDue
  {
    hide Stated, Restarted, PinsKept, Committed;
  }

  lemma {:induction false} AllListedSpend(p: Params, a: App, list: Fleet)
    requires Shaped(p, a) && Sane(p)
    ensures forall i | 0 <= i < |list| :: list[i].key !in AllListed(p, a, list, true).resetDue
    decreases |list|
  {
    hide Works, Shaped, Listed;
    if list != [] {
      var front, s := list[..|list| - 1], list[|list| - 1];
      var before := AllListed(p, a, front, true);
      AllListedSpend(p, a, front);
      AllListedWorks(p, a, front, true);
      WorksIsShaped(p, a, before);
      ListedWorks(p, before, s, true);
      WorksResets(p, before, Listed(p, before, s, true));
      ListedSpends(p, before, s);
      assert forall i | 0 <= i < |front| :: front[i] == list[i];
    }
  }

  /** The wait begins with the catch-up's own list: once filed, it is what the watch waits on. */
  lemma OwnListWaits(p: Params, a: App, list: Fleet)
    requires Standing(p, a) && Sane(p) && a.ctl.open.Some? && a.ctl.connected && !a.ctl.wentToBackground
    requires Synced(a.ctl).answered < |a.past.writes| && a.past.writes[Synced(a.ctl).answered] >= a.past.aimedAt
    ensures Waiting(ListPublished(ListFiled(p, a, list)), list)
  {
    hide Works, Shaped, AllListed, Forgotten, Matched, Holding;
    ReplyIsOwn(a);
    TakenWatch(a);
    ListFiledWatch(p, a, list);
    PublishedWatch(ListFiled(p, a, list));
    var current := ListTaken(a, list).(summaries := list, listedOn := Some(a.ctl.generation));
    ShapeIsChats(p, a, current);
    var gone := current.states.Keys - Keys(list);
    ForgottenShapes(p, current, gone);
    AllListedSpend(p, Forgotten(current, gone), list);
  }

  // ----------------------------------------------------- a list that never comes

  /**
   A list the Mac refuses puts off the next redial exactly when its request was written
   at or after the catch-up was last aimed, though no list came.
   */
  lemma {:induction false} RefusedListPutsOffTheRedial(p: Params, a: App)
    requires a.ctl.open.Some? && !a.ctl.open.value.progressed && a.ctl.connected && !a.ctl.wentToBackground
    requires Matched(a.ctl, a.past) && Synced(a.ctl).answered < |a.past.writes|
    ensures var b := Stepped(p, Stepped(p, a, SessionsUnavailable), StallCheck);
      && (b.ctl.redials == a.ctl.redials <==> a.past.writes[Synced(a.ctl).answered] >= a.past.aimedAt)
      && b.ctl.open.Some? && b.ctl.open.value.list == a.ctl.open.value.list && b.releases == a.releases
  {
    hide Matched, Stepped, ListUnavailable, Checked;
    ReplyIsOwn(a);
    RoundIs(p, a, true);
    RoundIs(p, Stepped(p, a, SessionsUnavailable), true);
    RefusedIs(Ticked(a));
    CheckedIs(Ticked(Stepped(p, a, SessionsUnavailable)));
  }

  /** The three steps of a round, each a change of bookkeeping. */
  lemma RoundIs(p: Params, a: App, sent: bool)
    ensures Stepped(p, a, Refresh(sent)) == Ask(Ticked(a), sent)
    ensures a.ctl.connected ==> Stepped(p, a, SessionsUnavailable) == ListUnavailable(Ticked(a))
    ensures Stepped(p, a, StallCheck) == Ticked(a).(ctl := Checked(a.ctl))
  {
    hide Ask, ListUnavailable, Checked;
  }

  lemma RefusedIs(a: App)
    requires a.ctl.open.Some?
    ensures var (b, own) := (ListUnavailable(a), TakeReply(a).1);
      && b.past == a.past && b.releases == a.releases && b.ctl.connected == a.ctl.connected
      && b.ctl.wentToBackground == a.ctl.wentToBackground && b.ctl.redials == a.ctl.redials
      && b.ctl.open == Some(a.ctl.open.value.(progressed := a.ctl.open.value.progressed || own))
      && b.ctl.written == Synced(a.ctl).written && Synced(b.ctl) == b.ctl && b.ctl.answered == Synced(a.ctl).answered + 1
  {
  }

  lemma CheckedIs(a: App)
    requires a.ctl.open.Some? && a.ctl.connected && !a.ctl.wentToBackground
    ensures var c := Checked(a.ctl);
      && (c.redials == a.ctl.redials <==> a.ctl.open.value.progressed)
      && (a.ctl.open.value.progressed ==> c == a.ctl.(open := Some(a.ctl.open.value.(progressed := false))))
      && (!a.ctl.open.value.progressed ==> c.open == a.ctl.open)
  {
  }

  lemma AskedIs(a: App)
    requires a.ctl.connected && a.ctl.open.Some?
    ensures var b := Ask(a, true);
      && b.past == a.past.(writes := a.past.writes + [a.past.clock]) && b.releases == a.releases
      && b.ctl.connected && b.ctl.wentToBackground == a.ctl.wentToBackground && b.ctl.redials == a.ctl.redials
      && b.ctl.open.Some? && b.ctl.open.value.list == a.ctl.open.value.list
      && b.ctl.open.value.progressed == a.ctl.open.value.progressed
      && Synced(b.ctl) == b.ctl && b.ctl.answered == Synced(a.ctl).answered
  {
  }

  /** So many rounds of asking for a list, being refused it, and checking. */
  function RefusedRounds(n: nat): seq<Step> {
    if n == 0 then [] else RefusedRounds(n - 1) + [Refresh(true)] + [SessionsUnavailable] + [StallCheck]
  }

  /** A catch-up on a live link whose every request so far has been answered. */
  ghost predicate AllAnswered(p: Params, a: App) {
    && Standing(p, a) && a.ctl.open.Some? && a.ctl.connected && !a.ctl.wentToBackground
    && Synced(a.ctl).answered == |a.past.writes|
  }

  lemma OneRefusal(p: Params, a: App)
    requires AllAnswered(p, a) && Sane(p)
    ensures var b := Stepped(p, Stepped(p, Stepped(p, a, Refresh(true)), SessionsUnavailable), StallCheck);
      && AllAnswered(p, b) && b.ctl.redials == a.ctl.redials && b.releases == a.releases
      && b.ctl.open.value.list == a.ctl.open.value.list
  {
    hide Standing, Matched, Stepped, Ask, ListUnavailable, Checked, Worked;
    var asked := Stepped(p, a, Refresh(true));
    StepStands(p, a, Refresh(true));
    RoundIs(p, a, true);
    AskedIs(Ticked(a));
    var told := Stepped(p, asked, SessionsUnavailable);
    StepStands(p, asked, SessionsUnavailable);
    RoundIs(p, asked, true);
    RefusedIs(Ticked(asked));
    StepStands(p, told, StallCheck);
    RoundIs(p, told, true);
    CheckedIs(Ticked(told));
    StandingParts(p, asked);
    ReplyIsOwn(asked);
    StandingParts(p, a);
    TimesAreBefore(a.ctl, a.past);
  }

  /** A Mac that answers every request and never with a list is never redialled, however often the watch looks. */
  lemma {:induction false} RefusedListsNeverRedial(p: Params, a: App, n: nat)
    requires AllAnswered(p, a) && Sane(p)
    ensures var b := Run(p, a, RefusedRounds(n));
      && AllAnswered(p, b) && b.ctl.redials == a.ctl.redials && b.releases == a.releases
      && b.ctl.open.value.list == a.ctl.open.value.list
    decreases n
  {
    hide AllAnswered, Stepped;
    if n > 0 {
      RefusedListsNeverRedial(p, a, n - 1);
      var before := RefusedRounds(n - 1);
      OneRefusal(p, Run(p, a, before));
      RunsOn(p, a, before, Refresh(true));
      RunsOn(p, a, before + [Refresh(true)], SessionsUnavailable);
      RunsOn(p, a, before + [Refresh(true)] + [SessionsUnavailable], StallCheck);
    }
  }
}
