/**
 What the phone may say again: `CodexControls`' request ids and spent material and
 the `CodexSpentLedger` that outlives the process
 (CodeConnectKit/Sources/CodeConnectKit/CodexControls.swift, CodexSpentLedger.swift).
 */
module CodexSends {
  import opened Wrappers

  const CAPACITY: nat := 48
  const COOLDOWN: nat := 10

  // ---------------------------------------------------------------- the ledger

  datatype Kind = Stop | Compose

  datatype Entry = Entry(kind: Kind, session: string, material: string)

  function Newest(entries: seq<Entry>): seq<Entry> {
    if |entries| > CAPACITY then entries[|entries| - CAPACITY..] else entries
  }

  function Marked(entries: seq<Entry>, e: Entry): seq<Entry> {
    if e in entries then entries else Newest(entries + [e])
  }

  function Without(entries: seq<Entry>, session: string): seq<Entry> {
    if entries == [] then []
    else
      Without(entries[..|entries| - 1], session)
      + if entries[|entries| - 1].session == session then [] else [entries[|entries| - 1]]
  }

  /** The ledger and the defaults it is read back from at the next launch. */
  class SpentLedger {
    var entries: seq<Entry>
    var stored: seq<Entry>

    predicate Valid()
      reads this
    {
      entries == stored && |entries| <= CAPACITY
    }

    /** A launch: what was stored, at most the newest `CAPACITY` of it. */
    constructor (stored: seq<Entry>)
      ensures entries == Newest(stored) && this.stored == stored
      ensures |stored| <= CAPACITY ==> Valid()
    {
      this.stored := stored;
      entries := stored;
      new;
      if |entries| > CAPACITY { entries := entries[|entries| - CAPACITY..]; }
    }

    method MarkSpent(e: Entry)
      requires Valid()
      modifies this
      ensures Valid() && entries == Marked(old(entries), e)
    {
      if e in entries { return; }
      entries := entries + [e];
      if |entries| > CAPACITY { entries := entries[|entries| - CAPACITY..]; }
      stored := entries;
    }

    method Forget(session: string)
      requires Valid()
      modifies this
      ensures Valid() && entries == Without(old(entries), session)
    {
      var kept: seq<Entry> := [];
      for i := 0 to |entries|
        invariant entries == old(entries) && stored == old(stored)
        invariant kept == Without(entries[..i], session) && |kept| <= i
      {
        assert entries[..i + 1][..i] == entries[..i];
        if entries[i].session != session { kept := kept + [entries[i]]; }
      }
      assert entries[..|entries|] == entries;
      KeptIsShorter(entries, session);
      if |kept| == |entries| { return; }
      entries, stored := kept, kept;
    }
  }

  /** Dropping nothing leaves the list as it was. */
  lemma {:induction false} KeptIsShorter(entries: seq<Entry>, session: string)
    ensures |Without(entries, session)| <= |entries|
    ensures |Without(entries, session)| == |entries| ==> Without(entries, session) == entries
    decreases |entries|
  {
    if entries != [] {
      var front, last := entries[..|entries| - 1], entries[|entries| - 1];
      assert entries == front + [last];
      KeptIsShorter(front, session);
    }
  }

  /** Forgetting a session part by part is forgetting it in the whole: what stays keeps its order. */
  lemma {:induction false} WithoutJoins(front: seq<Entry>, back: seq<Entry>, session: string)
    ensures Without(front + back, session) == Without(front, session) + Without(back, session)
    decreases |back|
  {
    if back == [] {
      assert front + back == front;
    } else {
      var init := back[..|back| - 1];
      assert (front + back)[..|front + back| - 1] == front + init;
      WithoutJoins(front, init, session);
    }
  }

  /** One entry goes or stays by its session alone. */
  lemma {:induction false} WithoutIsExact(entries: seq<Entry>, e: Entry, session: string)
    ensures e in Without(entries, session) <==> e in entries && e.session != session
    ensures Without([e], session) == if e.session == session then [] else [e]
    decreases |entries|
  {
    assert [e][..0] == [];
    if entries != [] {
      var front, last := entries[..|entries| - 1], entries[|entries| - 1];
      WithoutIsExact(front, e, session);
      assert e in entries <==> e in front || e == last by { assert entries == front + [last]; }
    }
  }

  // --------------------------------------------------- how long a mark is held

  datatype LedgerStep = Mark(e: Entry) | Forget(session: string) | Relaunch

  function Kept(entries: seq<Entry>, step: LedgerStep): seq<Entry> {
    match step
    case Mark(e) => Marked(entries, e)
    case Forget(session) => Without(entries, session)
    case Relaunch => Newest(entries)
  }

  function KeptAll(entries: seq<Entry>, steps: seq<LedgerStep>): seq<Entry>
    decreases |steps|
  {
    if steps == [] then entries else Kept(KeptAll(entries, steps[..|steps| - 1]), steps[|steps| - 1])
  }

  function Marks(steps: seq<LedgerStep>): nat {
    if steps == [] then 0 else Marks(steps[..|steps| - 1]) + if steps[|steps| - 1].Mark? then 1 else 0
  }

  predicate Distinct(entries: seq<Entry>) {
    entries == [] || (Distinct(entries[..|entries| - 1]) && entries[|entries| - 1] !in entries[..|entries| - 1])
  }

  /** How many entries are newer than `e`. */
  function Younger(entries: seq<Entry>, e: Entry): nat
    requires e in entries
  {
    if entries[|entries| - 1] == e then 0 else 1 + Younger(entries[..|entries| - 1], e)
  }

  lemma {:induction false} YoungerFits(entries: seq<Entry>, e: Entry)
    requires e in entries
    ensures Younger(entries, e) < |entries|
    ensures entries[|entries| - 1 - Younger(entries, e)] == e
    decreases |entries|
  {
    if entries[|entries| - 1] != e { YoungerFits(entries[..|entries| - 1], e); }
  }

  lemma {:induction false} DropKeeps(entries: seq<Entry>, e: Entry, n: nat)
    requires e in entries && n <= |entries| && Younger(entries, e) < |entries| - n
    ensures e in entries[n..] && Younger(entries[n..], e) == Younger(entries, e)
    decreases |entries|
  {
    var last := entries[|entries| - 1];
    assert entries[n..][|entries[n..]| - 1] == last;
    if last != e {
      var front := entries[..|entries| - 1];
      DropKeeps(front, e, n);
      assert entries[n..][..|entries[n..]| - 1] == front[n..];
    }
  }

  lemma {:induction false} ForgettingKeeps(entries: seq<Entry>, e: Entry, session: string)
    requires e in entries && e.session != session
    ensures e in Without(entries, session) && Younger(Without(entries, session), e) <= Younger(entries, e)
    decreases |entries|
  {
    var front, last := entries[..|entries| - 1], entries[|entries| - 1];
    var kept := Without(front, session);
    if last == e {
      assert Without(entries, session) == kept + [e];
    } else {
      ForgettingKeeps(front, e, session);
      if last.session != session {
        assert Without(entries, session) == kept + [last];
        assert (kept + [last])[..|kept|] == kept;
      } else {
        assert Without(entries, session) == kept;
      }
    }
  }

  lemma OneStepKeeps(entries: seq<Entry>, e: Entry, step: LedgerStep)
    requires e in entries && |entries| <= CAPACITY
    requires step.Mark? ==> Younger(entries, e) + 1 < CAPACITY
    requires step.Forget? ==> e.session != step.session
    ensures e in Kept(entries, step) && |Kept(entries, step)| <= CAPACITY
    ensures Younger(Kept(entries, step), e) <= Younger(entries, e) + if step.Mark? then 1 else 0
  {
    match step
    case Mark(f) =>
      if f !in entries {
        var longer := entries + [f];
        assert longer[..|entries|] == entries;
        assert Younger(longer, e) == Younger(entries, e) + 1;
        YoungerFits(entries, e);
        if |longer| > CAPACITY { DropKeeps(longer, e, |longer| - CAPACITY); }
      }
    case Forget(session) =>
      ForgettingKeeps(entries, e, session);
      KeptIsShorter(entries, session);
    case Relaunch =>
  }

  /**
   **A mark is held through any `CAPACITY - 1` later ones**, across relaunches and
   whatever other sessions are forgotten meanwhile: material marked last is refused
   until that many more have been marked, or its own session leaves.
   */
  lemma {:induction false} MarkIsHeld(entries: seq<Entry>, e: Entry, steps: seq<LedgerStep>)
    requires e in entries && |entries| <= CAPACITY && Younger(entries, e) + Marks(steps) < CAPACITY
    requires forall i | 0 <= i < |steps| && steps[i].Forget? :: steps[i].session != e.session
    ensures e in KeptAll(entries, steps) && |KeptAll(entries, steps)| <= CAPACITY
    ensures Younger(KeptAll(entries, steps), e) <= Younger(entries, e) + Marks(steps)
    decreases |steps|
  {
    if steps != [] {
      MarkIsHeld(entries, e, steps[..|steps| - 1]);
      OneStepKeeps(KeptAll(entries, steps[..|steps| - 1]), e, steps[|steps| - 1]);
    }
  }

  /** And no longer: a full ledger's next new mark drops its oldest, and only that. */
  lemma {:induction false} OldestIsDropped(entries: seq<Entry>, e: Entry)
    requires |entries| == CAPACITY && e !in entries && Distinct(entries)
    ensures Marked(entries, e) == entries[1..] + [e]
    ensures entries[0] !in Marked(entries, e)
  {
    assert (entries + [e])[1..] == entries[1..] + [e];
    FirstIsAlone(entries);
  }

  lemma {:induction false} FirstIsAlone(entries: seq<Entry>)
    requires entries != [] && Distinct(entries)
    ensures entries[0] !in entries[1..]
    decreases |entries|
  {
    if |entries| > 1 {
      var front := entries[..|entries| - 1];
      FirstIsAlone(front);
      assert entries[1..] == front[1..] + [entries[|entries| - 1]];
    }
  }

  // ------------------------------------------------------ the entry as a string

  function KindName(kind: Kind): string { if kind == Stop then "stop" else "compose" }

  /** `"kind|session|material"`, as it is stored. */
  function Stored(e: Entry): string { KindName(e.kind) + "|" + e.session + "|" + e.material }

  ghost predicate Contains(s: string, part: string) {
    exists i: nat :: Occurs(s, part, i)
  }

  predicate Occurs(s: string, part: string, i: nat) { i + |part| <= |s| && s[i..i + |part|] == part }

  /** What is filed has no bar in it: the key is a run's uid, with no fallback to its tmux name, and the material a digest. */
  predicate Plain(s: string) { '|' !in s }

  /** A string with no bar in it ends at its first bar, so the parts can be told apart. */
  lemma BarSplits(a: string, rest: string, b: string, rest': string)
    requires Plain(a) && Plain(b) && a + "|" + rest == b + "|" + rest'
    ensures a == b && rest == rest'
  {
    var s := a + "|" + rest;
    assert s == b + "|" + rest' && s[|a|] == '|' && s[|b|] == '|';
    assert forall k | 0 <= k < |a| :: s[k] == a[k];
    assert forall k | 0 <= k < |b| :: s[k] == b[k];
    assert s[..|a|] == a && s[..|b|] == b;
    assert s[|a| + 1..] == rest && s[|b| + 1..] == rest';
  }

  /** With no bar in a key or a digest, one stored string is one entry. */
  lemma {:induction false} StoredIsOne(e: Entry, f: Entry)
    requires Plain(e.session) && Plain(f.session) && Stored(e) == Stored(f)
    ensures e == f
  {
    assert Stored(e) == KindName(e.kind) + "|" + (e.session + "|" + e.material);
    assert Stored(f) == KindName(f.kind) + "|" + (f.session + "|" + f.material);
    BarSplits(KindName(e.kind), e.session + "|" + e.material, KindName(f.kind), f.session + "|" + f.material);
    BarSplits(e.session, e.material, f.session, f.material);
    assert "stop" != "compose";
  }

  /** And forgetting by `contains("|session|")` forgets exactly the session's own, whatever run it is that leaves. */
  lemma {:induction false} ForgettingIsExact(e: Entry, session: string)
    requires Plain(e.session) && Plain(e.material)
    ensures Contains(Stored(e), "|" + session + "|") <==> e.session == session
  {
    var s, part := Stored(e), "|" + session + "|";
    var first := |KindName(e.kind)|;
    var second := first + 1 + |e.session|;
    assert s[first] == '|' && s[second] == '|';
    OnlyTwoBars(e);
    assert s[first + 1..second] == e.session;
    if e.session == session {
      assert Occurs(s, part, first);
    }
    if Contains(s, part) {
      var i: nat :| Occurs(s, part, i);
      BetweenBars(s, session, i);
      assert i == first && i + 1 + |session| == second;
    }
  }

  lemma BetweenBars(s: string, inner: string, i: nat)
    requires Occurs(s, "|" + inner + "|", i)
    ensures i + 1 + |inner| < |s| && s[i] == '|' && s[i + 1 + |inner|] == '|' && s[i + 1..i + 1 + |inner|] == inner
  {
    var part := "|" + inner + "|";
    assert s[i..i + |part|][0] == part[0] && s[i..i + |part|][|part| - 1] == part[|part| - 1];
    forall k | 0 <= k < |inner| ensures s[i + 1 + k] == inner[k] {
      assert s[i..i + |part|][k + 1] == part[k + 1];
    }
  }

  lemma OnlyTwoBars(e: Entry)
    requires Plain(e.session) && Plain(e.material)
    ensures var s, first := Stored(e), |KindName(e.kind)|;
      forall i | 0 <= i < |s| && i != first && i != first + 1 + |e.session| :: s[i] != '|'
  {
    var s, first := Stored(e), |KindName(e.kind)|;
    forall i | 0 <= i < |s| && i != first && i != first + 1 + |e.session| ensures s[i] != '|' {
      if i < first {
        assert s[i] == KindName(e.kind)[i];
      } else if i < first + 1 + |e.session| {
        assert s[i] == e.session[i - first - 1];
      } else {
        assert s[i] == e.material[i - first - 2 - |e.session|];
      }
    }
  }

  // -------------------------------------------------------------- the controls

  datatype Open = Open(id: nat, material: string)

  /** What the daemon answered: it happened in a turn, nobody knows, it did not, or a word this build cannot read. */
  datatype Answer = Landed(turn: string) | Indeterminate | Rejected(linkState: bool) | Unreadable

  datatype Activity = Idle | InFlight | Answered(answer: Answer) | NotSent | SentNoAnswer

  /** One kind's open request id, and the material this process will not send again. */
  datatype Slot = Slot(open: Option<Open>, spent: set<string>)

  const NothingOpen: Slot := Slot(None, {})

  /** The id to send `material` under: the open one while the words are the same, else a new one. */
  function IdFor(slot: Slot, material: string, mint: nat): (Slot, nat) {
    if slot.open.Some? && slot.open.value.material == material then (slot, slot.open.value.id)
    else (slot.(open := Some(Open(mint, material))), mint)
  }

  function Spends(answer: Answer): bool { answer.Indeterminate? }

  function SlotAfter(slot: Slot, answer: Answer, material: string): Slot {
    match answer
    case Landed(_) => slot.(open := None)
    case Indeterminate => Slot(None, slot.spent + {material})
    case _ => slot
  }

  datatype Controls = Controls(
    stop: Activity, compose: Activity, greyedUntil: Option<nat>,
    stops: Slot, says: Slot, retired: set<string>, observed: seq<string>)

  function WithoutTurn(turns: seq<string>, turn: string): seq<string> {
    if turns == [] then []
    else
      WithoutTurn(turns[..|turns| - 1], turn) + if turns[|turns| - 1] == turn then [] else [turns[|turns| - 1]]
  }

  function Observed(c: Controls, turn: string): seq<string> {
    if turn == "" || turn in c.retired then c.observed else WithoutTurn(c.observed, turn) + [turn]
  }

  /** A window that skipped events takes with it the turns heard of before it. */
  function TurnsForgotten(observed: seq<string>, turns: set<string>): seq<string> {
    if observed == [] then []
    else
      TurnsForgotten(observed[..|observed| - 1], turns)
      + if observed[|observed| - 1] in turns then [] else [observed[|observed| - 1]]
  }

  function StopBegun(c: Controls): Controls { c.(stop := InFlight, compose := Idle) }

  function ComposeBegun(c: Controls): Controls { c.(compose := InFlight, stop := Idle, greyedUntil := None) }

  function StopSettled(c: Controls, answer: Answer, material: string, turn: string, now: nat): Controls {
    c.(stop := Answered(answer),
       greyedUntil := if answer.Rejected? && answer.linkState then Some(now + COOLDOWN) else c.greyedUntil,
       stops := SlotAfter(c.stops, answer, material),
       retired := if answer.Landed? then c.retired + {turn} else c.retired)
  }

  function ComposeSettled(c: Controls, answer: Answer, material: string): Controls {
    c.(compose := Answered(answer),
       says := SlotAfter(c.says, answer, material),
       observed := if answer.Landed? then Observed(c, answer.turn) else c.observed)
  }

  /** The controls of one session, over the ledger every session shares. */
  class CodexControls {
    const sessionKey: string
    const ledger: SpentLedger
    var stop: Activity
    var compose: Activity
    var stopGreyedUntil: Option<nat>
    var openStop: Option<Open>
    var openCompose: Option<Open>
    var spentStopMaterial: set<string>
    var spentComposeMaterial: set<string>
    var retiredTurns: set<string>
    var observedTurns: seq<string>

    function Value(): Controls
      reads this
    {
      Controls(stop, compose, stopGreyedUntil, Slot(openStop, spentStopMaterial), Slot(openCompose, spentComposeMaterial),
               retiredTurns, observedTurns)
    }

    constructor (sessionKey: string, ledger: SpentLedger)
      ensures this.sessionKey == sessionKey && this.ledger == ledger
      ensures Value() == Controls(Idle, Idle, None, NothingOpen, NothingOpen, {}, [])
    {
      this.sessionKey, this.ledger := sessionKey, ledger;
      stop, compose, stopGreyedUntil := Idle, Idle, None;
      openStop, openCompose, spentStopMaterial, spentComposeMaterial := None, None, {}, {};
      retiredTurns, observedTurns := {}, [];
    }

    method ComposeIsSpent(material: string) returns (spent: bool)
      requires ledger.Valid()
      ensures spent == (material in spentComposeMaterial || Entry(Compose, sessionKey, material) in ledger.entries)
    {
      spent := material in spentComposeMaterial || Entry(Compose, sessionKey, material) in ledger.entries;
    }

    method ComposeRequestID(material: string, mint: nat) returns (id: nat)
      modifies `openCompose
      ensures (Value().says, id) == IdFor(old(Value()).says, material, mint)
    {
      if openCompose.Some? && openCompose.value.material == material { return openCompose.value.id; }
      openCompose := Some(Open(mint, material));
      id := mint;
    }

    method BeginStop()
      modifies `stop, `compose
      ensures Value() == StopBegun(old(Value()))
    {
      stop, compose := InFlight, Idle;
    }

    method BeginCompose()
      modifies `stop, `compose, `stopGreyedUntil
      ensures Value() == ComposeBegun(old(Value()))
    {
      compose, stop, stopGreyedUntil := InFlight, Idle, None;
    }

    method SettleStop(answer: Answer, material: string, turn: string, now: nat)
      requires ledger.Valid()
      modifies this, ledger
      ensures ledger.Valid() && Value() == StopSettled(old(Value()), answer, material, turn, now)
      ensures ledger.entries == if Spends(answer) then Marked(old(ledger.entries), Entry(Stop, sessionKey, material))
                                else old(ledger.entries)
    {
      stop := Answered(answer);
      if answer.Rejected? && answer.linkState { stopGreyedUntil := Some(now + COOLDOWN); }
      match answer {
        case Landed(_) =>
          retiredTurns := retiredTurns + {turn};
          openStop := None;
        case Indeterminate =>
          spentStopMaterial := spentStopMaterial + {material};
          ledger.MarkSpent(Entry(Stop, sessionKey, material));
          openStop := None;
        case Rejected(_) =>
        case Unreadable =>
      }
    }

    method SettleCompose(answer: Answer, material: string)
      requires ledger.Valid()
      modifies this, ledger
      ensures ledger.Valid() && Value() == ComposeSettled(old(Value()), answer, material)
      ensures ledger.entries == if Spends(answer) then Marked(old(ledger.entries), Entry(Compose, sessionKey, material))
                                else old(ledger.entries)
    {
      compose := Answered(answer);
      match answer {
        case Landed(turn) =>
          ObserveTurn(turn);
          openCompose := None;
        case Indeterminate =>
          spentComposeMaterial := spentComposeMaterial + {material};
          ledger.MarkSpent(Entry(Compose, sessionKey, material));
          openCompose := None;
        case Rejected(_) =>
        case Unreadable =>
      }
    }

    method ComposeSentNoAnswer(material: string)
      requires ledger.Valid()
      modifies this, ledger
      ensures ledger.Valid()
      ensures Value() == ComposeSettled(old(Value()), Indeterminate, material).(compose := SentNoAnswer)
      ensures ledger.entries == Marked(old(ledger.entries), Entry(Compose, sessionKey, material))
    {
      compose := SentNoAnswer;
      spentComposeMaterial := spentComposeMaterial + {material};
      ledger.MarkSpent(Entry(Compose, sessionKey, material));
      openCompose := None;
    }

    method ObserveTurn(turn: string)
      modifies `observedTurns
      ensures observedTurns == Observed(old(Value()), turn)
    {
      if turn == "" || turn in retiredTurns { return; }
      var rest: seq<string> := [];
      for i := 0 to |observedTurns|
        invariant observedTurns == old(observedTurns) && rest == WithoutTurn(observedTurns[..i], turn)
      {
        assert observedTurns[..i + 1][..i] == observedTurns[..i];
        if observedTurns[i] != turn { rest := rest + [observedTurns[i]]; }
      }
      assert observedTurns[..|observedTurns|] == observedTurns;
      observedTurns := rest + [turn];
    }

    method ForgetObservedTurns(turns: set<string>)
      modifies `observedTurns
      ensures observedTurns == TurnsForgotten(old(observedTurns), turns)
    {
      var rest: seq<string> := [];
      for i := 0 to |observedTurns|
        invariant observedTurns == old(observedTurns) && rest == TurnsForgotten(observedTurns[..i], turns)
      {
        assert observedTurns[..i + 1][..i] == observedTurns[..i];
        if observedTurns[i] !in turns { rest := rest + [observedTurns[i]]; }
      }
      assert observedTurns[..|observedTurns|] == observedTurns;
      observedTurns := rest;
    }

    method ComposeNotSent()
      modifies `stop, `compose
      ensures Value() == old(Value()).(compose := NotSent, stop := Idle)
    {
      compose, stop := NotSent, Idle;
    }

    method ExpireStopGrey(now: nat)
      modifies `stopGreyedUntil
      ensures stopGreyedUntil == if old(stopGreyedUntil).Some? && now >= old(stopGreyedUntil).value then None
                                 else old(stopGreyedUntil)
    {
      if stopGreyedUntil.Some? && now >= stopGreyedUntil.value { stopGreyedUntil := None; }
    }
  }

  // -------------------------------------------- what may leave twice, and when

  datatype Frame = Frame(id: nat, material: string)

  /**
   One session's asks of one kind on this install: what each id carried and the frames that
   left in order, the ids whose outcome is known, and those a send still awaits.
   */
  datatype Sends = Sends(
    slot: Slot, ledger: seq<Entry>, asked: map<nat, string>, frames: seq<Frame>,
    known: set<nat>, awaiting: set<nat>, next: nat)

  const NothingSent: Sends := Sends(NothingOpen, [], map[], [], {}, {}, 0)

  datatype Act =
    | Tap(material: string, leaves: bool)
    | Answers(id: nat, answer: Answer)
    | NoAnswer(id: nat)
    | OthersMark(e: Entry)
    | OthersLeave(other: string)
    | Relaunches
    | SessionLeaves

  predicate Uncertain(w: Sends, id: nat) { id in w.asked && id !in w.known }

  predicate Spent(kind: Kind, session: string, w: Sends, material: string) {
    material in w.slot.spent || Entry(kind, session, material) in w.ledger
  }

  /** A send settles once: what it awaited is awaited no more, and marked if nobody can say what became of it. */
  function Settled(kind: Kind, session: string, w: Sends, id: nat, answer: Answer): Sends
    requires id in w.asked
  {
    w.(slot := SlotAfter(w.slot, answer, w.asked[id]),
       ledger := if Spends(answer) then Marked(w.ledger, Entry(kind, session, w.asked[id])) else w.ledger,
       known := if answer.Landed? || answer.Rejected? then w.known + {id} else w.known,
       awaiting := w.awaiting - {id})
  }

  /**
   One act of the reader, the daemon or the phone. A tap `leaves` if the link takes its
   frame; a second send under an id still awaited is refused by the connection.
   */
  function Acted(kind: Kind, session: string, w: Sends, act: Act): Sends {
    match act
    case Tap(material, leaves) =>
      if Spent(kind, session, w, material) then w
      else
        var (slot, id) := IdFor(w.slot, material, w.next);
        var minted := w.(slot := slot, next := w.next + 1);
        if !leaves || id in w.awaiting then minted
        else
          minted.(asked := w.asked[id := material], frames := w.frames + [Frame(id, material)],
                  known := w.known - {id}, awaiting := w.awaiting + {id})
    case Answers(id, answer) =>
      if id in w.awaiting && id in w.asked then Settled(kind, session, w, id, answer) else w
    case NoAnswer(id) =>
      if id in w.awaiting && id in w.asked then Settled(kind, session, w, id, Indeterminate) else w
    case OthersMark(e) =>
      if e.kind == kind && e.session == session then w else w.(ledger := Marked(w.ledger, e))
    case OthersLeave(other) =>
      if other == session then w else w.(ledger := Without(w.ledger, other))
    case Relaunches => w.(slot := NothingOpen, ledger := Newest(w.ledger), awaiting := {})
    case SessionLeaves => w.(slot := NothingOpen, ledger := Without(w.ledger, session), awaiting := {})
  }

  function ActedAll(kind: Kind, session: string, w: Sends, acts: seq<Act>): Sends
    decreases |acts|
  {
    if acts == [] then w else Acted(kind, session, ActedAll(kind, session, w, acts[..|acts| - 1]), acts[|acts| - 1])
  }

  /** The record is of one install: ids are minted once, and carry the words they were opened for. */
  predicate Recorded(w: Sends) {
    && (forall id | id in w.asked :: id < w.next)
    && (forall id | id in w.awaiting :: Uncertain(w, id))
    && |w.ledger| <= CAPACITY
    && (forall k | 0 <= k < |w.frames| :: w.frames[k].id in w.asked && w.asked[w.frames[k].id] == w.frames[k].material)
    && (w.slot.open.Some? ==>
          && w.slot.open.value.id < w.next
          && (w.slot.open.value.id in w.asked ==> w.asked[w.slot.open.value.id] == w.slot.open.value.material))
  }

  lemma MarkedIsHeld(entries: seq<Entry>, e: Entry)
    requires |entries| <= CAPACITY
    ensures e in Marked(entries, e) && |Marked(entries, e)| <= CAPACITY
    ensures |Marked(entries, e)| <= |entries| + 1
    ensures |entries| < CAPACITY ==> forall f | f in entries :: f in Marked(entries, e)
  {
    if e !in entries && |entries| + 1 > CAPACITY {
      var all := entries + [e];
      assert all[|all| - CAPACITY..][CAPACITY - 1] == e;
    }
  }

  lemma ActRecords(kind: Kind, session: string, w: Sends, act: Act)
    requires Recorded(w)
    ensures Recorded(Acted(kind, session, w, act))
  {
    match act {
      case Tap(material, leaves) =>
      case Answers(id, answer) => if id in w.asked { MarkedIsHeld(w.ledger, Entry(kind, session, w.asked[id])); }
      case NoAnswer(id) => if id in w.asked { MarkedIsHeld(w.ledger, Entry(kind, session, w.asked[id])); }
      case OthersMark(e) => MarkedIsHeld(w.ledger, e);
      case OthersLeave(other) => KeptIsShorter(w.ledger, other);
      case Relaunches =>
      case SessionLeaves => KeptIsShorter(w.ledger, session);
    }
  }

  lemma {:induction false} RunRecords(kind: Kind, session: string, w: Sends, acts: seq<Act>)
    requires Recorded(w)
    ensures Recorded(ActedAll(kind, session, w, acts))
    decreases |acts|
  {
    hide Recorded, Acted;
    if acts != [] {
      RunRecords(kind, session, w, acts[..|acts| - 1]);
      ActRecords(kind, session, ActedAll(kind, session, w, acts[..|acts| - 1]), acts[|acts| - 1]);
    }
  }

  // ------------------------------------------------------- marked words stay unsaid

  /** The acts that can put a mark in the ledger. */
  predicate MayMark(act: Act) {
    (act.Answers? && Spends(act.answer)) || act.NoAnswer? || act.OthersMark?
  }

  function MarksOf(acts: seq<Act>): nat {
    if acts == [] then 0 else MarksOf(acts[..|acts| - 1]) + if MayMark(acts[|acts| - 1]) then 1 else 0
  }

  /** The ledger moves by one of its own steps, or not at all. */
  lemma ActKeepsMark(kind: Kind, session: string, w: Sends, act: Act, e: Entry)
    requires Recorded(w) && e in w.ledger && !act.SessionLeaves? && e.kind == kind && e.session == session
    requires MayMark(act) ==> Younger(w.ledger, e) + 1 < CAPACITY
    ensures var b := Acted(kind, session, w, act);
      e in b.ledger && Younger(b.ledger, e) <= Younger(w.ledger, e) + if MayMark(act) then 1 else 0
  {
    hide Recorded;
    HeldLedger(w);
    match act {
      case Tap(_, _) =>
      case Answers(id, answer) =>
        if Spends(answer) && id in w.asked { OneStepKeeps(w.ledger, e, Mark(Entry(kind, session, w.asked[id]))); }
      case NoAnswer(id) => if id in w.asked { OneStepKeeps(w.ledger, e, Mark(Entry(kind, session, w.asked[id]))); }
      case OthersMark(f) => OneStepKeeps(w.ledger, e, Mark(f));
      case OthersLeave(other) => if other != session { OneStepKeeps(w.ledger, e, Forget(other)); }
      case Relaunches => OneStepKeeps(w.ledger, e, Relaunch);
    }
  }

  lemma HeldLedger(w: Sends)
    requires Recorded(w)
    ensures |w.ledger| <= CAPACITY
  {
  }

  /** No frame that leaves carries marked words. */
  lemma ActSaysNothing(kind: Kind, session: string, w: Sends, act: Act, material: string)
    requires Spent(kind, session, w, material)
    ensures var b := Acted(kind, session, w, act);
      && w.frames <= b.frames
      && forall k | |w.frames| <= k < |b.frames| :: b.frames[k].material != material
    ensures act.Tap? && act.material == material ==> Acted(kind, session, w, act) == w
  {
  }

  /**
   **Marked words leave no further frame**, over every run of taps, answers, lost answers,
   other sessions' marks and leavings, and relaunches, while the ledger still holds the
   mark: fewer than `CAPACITY` newer ones, and its own session there. At every point of
   the run the words are refused outright, and nothing changes.
   */
  lemma {:induction false} MarkedIsNeverSaid(
    kind: Kind, session: string, before: seq<Act>, acts: seq<Act>, material: string)
    requires var w, e := ActedAll(kind, session, NothingSent, before), Entry(kind, session, material);
      e in w.ledger && Younger(w.ledger, e) + MarksOf(acts) < CAPACITY
    requires forall i | 0 <= i < |acts| :: !acts[i].SessionLeaves?
    ensures var w := ActedAll(kind, session, NothingSent, before);
      var after, e := ActedAll(kind, session, w, acts), Entry(kind, session, material);
      && Recorded(after)
      && e in after.ledger && Younger(after.ledger, e) <= Younger(w.ledger, e) + MarksOf(acts)
      && Spent(kind, session, after, material)
      && (forall leaves :: Acted(kind, session, after, Tap(material, leaves)) == after)
      && w.frames <= after.frames
      && (forall k | |w.frames| <= k < |after.frames| :: after.frames[k].material != material)
    decreases |acts|
  {
    hide Recorded, Acted, Spent;
    var w, e := ActedAll(kind, session, NothingSent, before), Entry(kind, session, material);
    NothingIsRecorded();
    RunRecords(kind, session, NothingSent, before);
    RunRecords(kind, session, w, acts);
    if acts != [] {
      var front, last := acts[..|acts| - 1], acts[|acts| - 1];
      var mid := ActedAll(kind, session, w, front);
      assert forall i | 0 <= i < |front| :: front[i] == acts[i];
      MarkedIsNeverSaid(kind, session, before, front, material);
      RunRecords(kind, session, w, front);
      ActKeepsMark(kind, session, mid, last, e);
      ActSaysNothing(kind, session, mid, last, material);
    }
    var after := ActedAll(kind, session, w, acts);
    MarkIsSpent(kind, session, after, material);
    forall leaves ensures Acted(kind, session, after, Tap(material, leaves)) == after {
      ActSaysNothing(kind, session, after, Tap(material, leaves), material);
    }
  }

  lemma NothingIsRecorded()
    ensures Recorded(NothingSent)
  {
  }

  lemma MarkIsSpent(kind: Kind, session: string, w: Sends, material: string)
    requires Entry(kind, session, material) in w.ledger
    ensures Spent(kind, session, w, material)
  {
  }

  /** Material nobody can account for is marked, and refused outright: no frame, no new id, nothing changes. */
  lemma {:induction false} SpentIsRefused(kind: Kind, session: string, w: Sends, id: nat, leaves: bool)
    requires Recorded(w) && id in w.awaiting
    ensures id in w.asked
    ensures var spent := Acted(kind, session, w, NoAnswer(id));
      && Entry(kind, session, w.asked[id]) in spent.ledger
      && Acted(kind, session, spent, Tap(w.asked[id], leaves)) == spent
  {
    MarkedIsHeld(w.ledger, Entry(kind, session, w.asked[id]));
  }

  // ------------------------------------------------------- the same words, two ids

  /** The words leave again under another id than the one that carried them. */
  ghost predicate LeavesUnderAnother(kind: Kind, session: string, w: Sends, earlier: nat, material: string) {
    exists id: nat :: id != earlier
      && Acted(kind, session, w, Tap(material, true)).frames == w.frames + [Frame(id, material)]
  }

  /**
   **A second id, exactly**: in every state any run reaches, with an ask unaccounted for,
   the next tap of its words leaves under another id if and only if the words are not
   marked, they are no longer what is open under that ask's id, and no send of the id
   they would leave under is still awaited.
   */
  lemma {:induction false} SecondIdExactly(kind: Kind, session: string, acts: seq<Act>, earlier: nat, material: string)
    requires var w := ActedAll(kind, session, NothingSent, acts); Uncertain(w, earlier) && w.asked[earlier] == material
    ensures var w := ActedAll(kind, session, NothingSent, acts);
      LeavesUnderAnother(kind, session, w, earlier, material) <==>
        && !Spent(kind, session, w, material)
        && w.slot.open != Some(Open(earlier, material))
        && !(w.slot.open.Some? && w.slot.open.value.material == material && w.slot.open.value.id in w.awaiting)
  {
    var w := ActedAll(kind, session, NothingSent, acts);
    NothingIsRecorded();
    RunRecords(kind, session, NothingSent, acts);
    var b := Acted(kind, session, w, Tap(material, true));
    var id := IdFor(w.slot, material, w.next).1;
    if !Spent(kind, session, w, material) && id !in w.awaiting && id != earlier {
      assert b.frames == w.frames + [Frame(id, material)];
    }
    if LeavesUnderAnother(kind, session, w, earlier, material) {
      var other: nat :| other != earlier && b.frames == w.frames + [Frame(other, material)];
      assert b.frames[|w.frames|] == Frame(other, material);
    }
  }

  /**
   What keeps an ask accounted for, as it can be told before each act: with an ask open and
   unaccounted for, no other words are tapped and the app is not killed; the session does
   not leave.
   */
  predicate Careful(w: Sends, act: Act) {
    var unaccounted := w.slot.open.Some? && Uncertain(w, w.slot.open.value.id);
    match act
    case Tap(material, _) => unaccounted ==> material == w.slot.open.value.material
    case Relaunches => !unaccounted
    case SessionLeaves => false
    case _ => true
  }

  predicate AllCareful(kind: Kind, session: string, acts: seq<Act>)
    decreases |acts|
  {
    acts == []
    || (AllCareful(kind, session, acts[..|acts| - 1])
        && Careful(ActedAll(kind, session, NothingSent, acts[..|acts| - 1]), acts[|acts| - 1]))
  }

  /** Every ask unaccounted for is open under its own words, or its words are in the ledger; only the open one is awaited. */
  predicate Covered(kind: Kind, session: string, w: Sends, marks: nat) {
    && (forall id | id in w.asked && id !in w.known ::
          || Entry(kind, session, w.asked[id]) in w.ledger
          || w.slot.open == Some(Open(id, w.asked[id])))
    && (forall id | id in w.awaiting :: id in w.asked && w.slot.open == Some(Open(id, w.asked[id])))
    && |w.ledger| <= marks
  }

  lemma CarefulActCovers(kind: Kind, session: string, w: Sends, act: Act, marks: nat)
    requires Recorded(w) && Covered(kind, session, w, marks) && Careful(w, act)
    requires marks + (if MayMark(act) then 1 else 0) <= CAPACITY
    ensures Covered(kind, session, Acted(kind, session, w, act), marks + if MayMark(act) then 1 else 0)
  {
    match act {
      case Tap(material, leaves) =>
      case Answers(id, answer) => if id in w.asked { MarkedIsHeld(w.ledger, Entry(kind, session, w.asked[id])); }
      case NoAnswer(id) => if id in w.asked { MarkedIsHeld(w.ledger, Entry(kind, session, w.asked[id])); }
      case OthersMark(e) => MarkedIsHeld(w.ledger, e);
      case OthersLeave(other) => KeptIsShorter(w.ledger, other); OwnStay(kind, session, w.ledger, other);
      case Relaunches =>
    }
  }

  lemma {:induction false} OwnStay(kind: Kind, session: string, entries: seq<Entry>, other: string)
    ensures other != session ==>
              forall material | Entry(kind, session, material) in entries :: Entry(kind, session, material) in Without(entries, other)
    decreases |entries|
  {
    if entries != [] {
      var front, last := entries[..|entries| - 1], entries[|entries| - 1];
      assert entries == front + [last];
      OwnStay(kind, session, front, other);
    }
  }

  lemma {:induction false} CarefulRunCovers(kind: Kind, session: string, acts: seq<Act>)
    requires AllCareful(kind, session, acts) && MarksOf(acts) <= CAPACITY
    ensures Covered(kind, session, ActedAll(kind, session, NothingSent, acts), MarksOf(acts))
    decreases |acts|
  {
    if acts != [] {
      hide Covered, Recorded, Acted, Careful;
      var front, last := acts[..|acts| - 1], acts[|acts| - 1];
      CarefulRunCovers(kind, session, front);
      NothingIsRecorded();
      RunRecords(kind, session, NothingSent, front);
      CarefulActCovers(kind, session, ActedAll(kind, session, NothingSent, front), last, MarksOf(front));
    }
  }

  /**
   **A careful run never says the same words twice**: over every run in which, with an ask
   unaccounted for, no other words are tapped and the app is not killed, with at most
   `CAPACITY` marks of every session and kind and its own session there, and relaunches
   whenever nothing is unaccounted for, words whose outcome is not known never leave
   under a second id.
   */
  lemma {:induction false} CarefulRunsNeverSayTwice(kind: Kind, session: string, acts: seq<Act>, earlier: nat, material: string)
    requires AllCareful(kind, session, acts) && MarksOf(acts) <= CAPACITY
    requires var w := ActedAll(kind, session, NothingSent, acts); Uncertain(w, earlier) && w.asked[earlier] == material
    ensures !LeavesUnderAnother(kind, session, ActedAll(kind, session, NothingSent, acts), earlier, material)
  {
    CarefulRunCovers(kind, session, acts);
    SecondIdExactly(kind, session, acts, earlier, material);
  }

  /** An unedited retry keeps its id exactly while the daemon has not said what became of it; a definite outcome retires it. */
  lemma {:induction false} RetryReusesItsId(kind: Kind, session: string, w: Sends, id: nat, material: string, answer: Answer)
    requires Recorded(w) && w.slot.open == Some(Open(id, material)) && id in w.awaiting
    requires !Spent(kind, session, w, material) && !Spends(answer)
    ensures var after := Acted(kind, session, w, Answers(id, answer));
      && !Spent(kind, session, after, material)
      && (IdFor(after.slot, material, after.next).1 == id <==> answer.Rejected? || answer.Unreadable?)
      && (answer.Landed? ==> IdFor(after.slot, material, after.next).1 == after.next && id < after.next)
  {
  }

  // ------------------------------------------------ what a careless act can cost

  /** Words out under two ids, the first unaccounted for. */
  predicate SaidTwice(w: Sends, first: nat, second: nat, material: string) {
    first != second && Uncertain(w, first) && Frame(first, material) in w.frames && Frame(second, material) in w.frames
  }

  /** Two sends crossing: the first's answer clears the id the second is open under. */
  lemma {:induction false} CrossedAnswerLosesTheOther()
    ensures SaidTwice(
      ActedAll(Compose, "s", NothingSent, [Tap("one", true), Tap("two", true), Answers(0, Landed("t")), Tap("two", true)]),
      1, 2, "two")
  {
    var w1 := Acted(Compose, "s", NothingSent, Tap("one", true));
    var w2 := Acted(Compose, "s", w1, Tap("two", true));
    var w3 := Acted(Compose, "s", w2, Answers(0, Landed("t")));
    var w4 := Acted(Compose, "s", w3, Tap("two", true));
    FourActs(Tap("one", true), Tap("two", true), Answers(0, Landed("t")), Tap("two", true));
    assert w2.frames == [Frame(0, "one"), Frame(1, "two")] && w2.asked == map[0 := "one", 1 := "two"];
    assert w2.awaiting == {0, 1} && w2.known == {} && w2.slot.open == Some(Open(1, "two"));
    assert w3.slot.open == None && w3.awaiting == {1} && w3.known == {0};
    assert w4.frames == [Frame(0, "one"), Frame(1, "two"), Frame(2, "two")];
    assert w4.frames[1] == Frame(1, "two") && w4.frames[2] == Frame(2, "two");
  }

  /** A word this build cannot read, then other words: the first ask's id is gone, its outcome unknown. */
  lemma {:induction false} UnreadableThenEditedIsLost()
    ensures SaidTwice(
      ActedAll(Compose, "s", NothingSent, [Tap("one", true), Answers(0, Unreadable), Tap("two", true), Tap("one", true)]),
      0, 2, "one")
  {
    var w1 := Acted(Compose, "s", NothingSent, Tap("one", true));
    var w2 := Acted(Compose, "s", w1, Answers(0, Unreadable));
    var w3 := Acted(Compose, "s", w2, Tap("two", true));
    var w4 := Acted(Compose, "s", w3, Tap("one", true));
    FourActs(Tap("one", true), Answers(0, Unreadable), Tap("two", true), Tap("one", true));
    assert w2.asked == map[0 := "one"] && w2.slot.open == Some(Open(0, "one")) && w2.awaiting == {};
    assert w3.frames == [Frame(0, "one"), Frame(1, "two")] && w3.slot.open == Some(Open(1, "two"));
    assert w4.frames == [Frame(0, "one"), Frame(1, "two"), Frame(2, "one")];
    assert w4.frames[0] == Frame(0, "one") && w4.frames[2] == Frame(2, "one");
  }

  /** A frame in flight when the app is killed was never marked: the next launch sends it afresh. */
  lemma {:induction false} KilledInFlightIsLost()
    ensures SaidTwice(
      ActedAll(Compose, "s", NothingSent, [Tap("one", true), Relaunches, Tap("one", true), NoAnswer(1)]), 0, 1, "one")
  {
    var w1 := Acted(Compose, "s", NothingSent, Tap("one", true));
    assert w1.asked == map[0 := "one"] && w1.frames == [Frame(0, "one")];
    var w2 := Acted(Compose, "s", w1, Relaunches);
    var w3 := Acted(Compose, "s", w2, Tap("one", true));
    var w4 := Acted(Compose, "s", w3, NoAnswer(1));
    FourActs(Tap("one", true), Relaunches, Tap("one", true), NoAnswer(1));
    assert w4.frames == w3.frames == [Frame(0, "one"), Frame(1, "one")];
    assert w4.frames[0] == Frame(0, "one") && w4.frames[1] == Frame(1, "one");
  }

  lemma FourActs(a: Act, b: Act, c: Act, d: Act)
    ensures ActedAll(Compose, "s", NothingSent, [a, b, c, d])
         == Acted(Compose, "s", Acted(Compose, "s", Acted(Compose, "s", Acted(Compose, "s", NothingSent, a), b), c), d)
  {
    hide Acted;
    assert [a, b, c, d][..3] == [a, b, c] && [a, b, c][..2] == [a, b] && [a, b][..1] == [a] && [a][..0] == [];
    assert ActedAll(Compose, "s", NothingSent, [a]) == Acted(Compose, "s", NothingSent, a);
    assert ActedAll(Compose, "s", NothingSent, [a, b]) == Acted(Compose, "s", Acted(Compose, "s", NothingSent, a), b);
    assert ActedAll(Compose, "s", NothingSent, [a, b, c])
        == Acted(Compose, "s", Acted(Compose, "s", Acted(Compose, "s", NothingSent, a), b), c);
  }

  // ------------------------------------------------------------ the grey and the slot

  /** What bears on the grey: an answer to a stop, a message that left, and a tick of the clock. */
  datatype GreyAct = StopAnswered(answer: Answer, now: nat) | MessageLeaves | Ticks(now: nat)

  function Greyed(until: Option<nat>, act: GreyAct): Option<nat> {
    match act
    case StopAnswered(answer, now) =>
      if answer.Rejected? && answer.linkState then Some(now + COOLDOWN) else until
    case MessageLeaves => None
    case Ticks(now) => if until.Some? && now >= until.value then None else until
  }

  function GreyedAll(acts: seq<GreyAct>): Option<nat> {
    if acts == [] then None else Greyed(GreyedAll(acts[..|acts| - 1]), acts[|acts| - 1])
  }

  /** The controls' own grey is that one. */
  lemma GreyIsTheControls(c: Controls, answer: Answer, material: string, turn: string, now: nat)
    ensures StopSettled(c, answer, material, turn, now).greyedUntil == Greyed(c.greyedUntil, StopAnswered(answer, now))
    ensures ComposeBegun(c).greyedUntil == Greyed(c.greyedUntil, MessageLeaves)
  {
  }

  /** The clock does not go back. */
  predicate InTime(acts: seq<GreyAct>, now: nat)
    decreases |acts|
  {
    acts == []
    || match acts[|acts| - 1]
       case StopAnswered(_, at) => at <= now && InTime(acts[..|acts| - 1], at)
       case Ticks(at) => at <= now && InTime(acts[..|acts| - 1], at)
       case MessageLeaves => InTime(acts[..|acts| - 1], now)
  }

  /** A stop refused for the state of the link, with no message sent since, less than the cooldown ago. */
  predicate RefusedLately(acts: seq<GreyAct>, now: nat) {
    exists k | 0 <= k < |acts| :: Refuses(acts[k], now) && forall n | k < n < |acts| :: !acts[n].MessageLeaves?
  }

  predicate Refuses(act: GreyAct, now: nat) {
    act.StopAnswered? && act.answer == Rejected(true) && now < act.now + COOLDOWN
  }

  /** Stop is greyed exactly while such a refusal is less than the cooldown old, over every run of answers, messages and ticks. */
  lemma {:induction false} GreyIsBounded(acts: seq<GreyAct>, now: nat)
    requires InTime(acts, now)
    ensures (GreyedAll(acts).Some? && now < GreyedAll(acts).value) <==> RefusedLately(acts, now)
    ensures GreyedAll(acts).Some? ==> GreyedAll(acts).value <= now + COOLDOWN
    decreases |acts|
  {
    if acts != [] {
      var front, last := acts[..|acts| - 1], acts[|acts| - 1];
      assert acts == front + [last];
      InTimeLater(front, if last.MessageLeaves? then now else last.now, now);
      GreyIsBounded(front, now);
      GreyIsBounded(front, if last.MessageLeaves? then now else last.now);
      if RefusedLately(front, now) && !last.MessageLeaves? {
        var k :| 0 <= k < |front| && Refuses(front[k], now) && forall n | k < n < |front| :: !front[n].MessageLeaves?;
        assert Refuses(acts[k], now) && forall n | k < n < |acts| :: !acts[n].MessageLeaves?;
      }
      if Refuses(last, now) { assert Refuses(acts[|acts| - 1], now); }
      if RefusedLately(acts, now) && !Refuses(last, now) {
        var k :| 0 <= k < |acts| && Refuses(acts[k], now) && forall n | k < n < |acts| :: !acts[n].MessageLeaves?;
        assert front[k] == acts[k] && !acts[|acts| - 1].MessageLeaves?;
        assert forall n | k < n < |front| :: front[n] == acts[n];
      }
    }
  }

  lemma {:induction false} InTimeLater(acts: seq<GreyAct>, now: nat, later: nat)
    requires InTime(acts, now) && now <= later
    ensures InTime(acts, later)
    decreases |acts|
  {
    if acts != [] && acts[|acts| - 1].MessageLeaves? { InTimeLater(acts[..|acts| - 1], now, later); }
  }

  lemma {:induction false} WithoutIsWithout(turns: seq<string>, turn: string)
    ensures turn !in WithoutTurn(turns, turn)
    ensures forall t | t != turn :: t in WithoutTurn(turns, turn) <==> t in turns
    decreases |turns|
  {
    if turns != [] {
      WithoutIsWithout(turns[..|turns| - 1], turn);
      assert turns == turns[..|turns| - 1] + [turns[|turns| - 1]];
    }
  }

  /** A turn learned to have begun is listed once, and last; one this phone watched end is not listed anew. */
  lemma {:induction false} ObservedOnce(c: Controls, turn: string)
    ensures var o := Observed(c, turn);
      && (turn == "" || turn in c.retired ==> o == c.observed)
      && (turn != "" && turn !in c.retired ==> o != [] && o[|o| - 1] == turn && turn !in o[..|o| - 1])
      && (forall t | t != turn :: t in o <==> t in c.observed)
  {
    WithoutIsWithout(c.observed, turn);
    var rest := WithoutTurn(c.observed, turn);
    assert (rest + [turn])[..|rest|] == rest;
  }

  // ------------------------------------------------ the turns the phone knows of

  /** What tells the phone of a turn: a stop or a message answered, an event that names it, a window that skips past it. */
  datatype TurnAct =
    | StopTold(answer: Answer, material: string, turn: string, now: nat)
    | MessageTold(answer: Answer, material: string)
    | Sees(turn: string)
    | Skips(turns: set<string>)

  function Told(c: Controls, act: TurnAct): Controls {
    match act
    case StopTold(answer, material, turn, now) => StopSettled(c, answer, material, turn, now)
    case MessageTold(answer, material) => ComposeSettled(c, answer, material)
    case Sees(turn) => c.(observed := Observed(c, turn))
    case Skips(turns) => c.(observed := TurnsForgotten(c.observed, turns))
  }

  const Untold: Controls := Controls(Idle, Idle, None, NothingOpen, NothingOpen, {}, [])

  function ToldAll(acts: seq<TurnAct>): Controls {
    if acts == [] then Untold else Told(ToldAll(acts[..|acts| - 1]), acts[|acts| - 1])
  }

  /** The turn's own stop landed. */
  predicate Stops(act: TurnAct, turn: string) { act.StopTold? && act.answer.Landed? && act.turn == turn }

  /** A message landed in the turn, or an event named it. */
  predicate Begins(act: TurnAct, turn: string) {
    turn != "" && ((act.MessageTold? && act.answer == Landed(turn)) || act == Sees(turn))
  }

  /**
   **The phone knows a turn for what it was told of it**: it is retired exactly when a stop
   of it landed, and observed exactly when it was heard of at a time no stop of it had,
   and no window has skipped past it since.
   */
  lemma {:induction false} TurnsAreAsTold(acts: seq<TurnAct>, turn: string)
    ensures turn in ToldAll(acts).retired <==> exists i | 0 <= i < |acts| :: Stops(acts[i], turn)
    ensures turn in ToldAll(acts).observed
       <==> exists i | 0 <= i < |acts| ::
              && Begins(acts[i], turn) && (forall j | 0 <= j < i :: !Stops(acts[j], turn))
              && forall j | i < j < |acts| :: !(acts[j].Skips? && turn in acts[j].turns)
    decreases |acts|
  {
    if acts != [] {
      var front, last := acts[..|acts| - 1], acts[|acts| - 1];
      var c := ToldAll(front);
      TurnsAreAsTold(front, turn);
      assert acts == front + [last];
      ToldOnce(c, last, turn);
      hide Told, Stops, Begins;
      assert forall i | 0 <= i < |front| :: acts[i] == front[i];
      assert acts[|front|] == last;
    }
  }

  lemma ToldOnce(c: Controls, act: TurnAct, turn: string)
    ensures turn in Told(c, act).retired <==> turn in c.retired || Stops(act, turn)
    ensures turn in Told(c, act).observed
       <==> (turn in c.observed && !(act.Skips? && turn in act.turns)) || (Begins(act, turn) && turn !in c.retired)
  {
    if act.Skips? { ForgottenAre(c.observed, act.turns, turn); }
    hide Observed;
    ObservedIs(c, turn);
    if act.MessageTold? && act.answer.Landed? { ObservedIs(c, act.answer.turn); ObservedOnce(c, act.answer.turn); }
    if act.Sees? { ObservedIs(c, act.turn); ObservedOnce(c, act.turn); }
  }

  lemma {:induction false} ForgottenAre(observed: seq<string>, turns: set<string>, turn: string)
    ensures turn in TurnsForgotten(observed, turns) <==> turn in observed && turn !in turns
    decreases |observed|
  {
    if observed != [] {
      ForgottenAre(observed[..|observed| - 1], turns, turn);
      assert observed == observed[..|observed| - 1] + [observed[|observed| - 1]];
    }
  }

  lemma ObservedIs(c: Controls, turn: string)
    ensures turn in Observed(c, turn) <==> turn in c.observed || (turn != "" && turn !in c.retired)
  {
    ObservedOnce(c, turn);
  }
}
