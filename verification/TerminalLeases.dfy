/**
 Who may have a terminal: the global slots and the one lease a session has,
 `TerminalLeases`, `acquire_superseding`, `Lease::drop` and `reap_client`
 (mac/ccd/src/terminal.rs).

 A run is any interleaving of attaches, takeovers, client exits, closes and reaps. The
 reaper that gives up on a client it killed still returns the lease, which is the one way
 two clients of a session can be alive together.
 */
module TerminalLeases {
  import opened Wrappers

  const MaxAttachments: nat := 8

  type Session = string

  datatype Answer = Granted | SessionBusy | AttachmentLimit

  /** The slots that are free, and the attachment that has each session's terminal. */
  datatype Leases = Leases(active: map<Session, nat>, free: nat)

  /** A session's incumbent is looked for before a slot is. */
  function AnswerTo(l: Leases, session: Session): Answer {
    if session in l.active then SessionBusy
    else if l.free == 0 then AttachmentLimit
    else Granted
  }

  function Acquired(l: Leases, session: Session, holder: nat): Leases {
    if AnswerTo(l, session) == Granted then Leases(l.active[session := holder], l.free - 1) else l
  }

  function Released(l: Leases, session: Session): Leases {
    if session in l.active then Leases(l.active - {session}, l.free + 1) else l
  }

  /** The daemon's table, and the two critical sections that touch it. */
  class LeaseTable {
    var active: map<Session, nat>
    var free: nat

    ghost function Value(): Leases reads this { Leases(active, free) }

    constructor ()
      ensures Value() == Leases(map[], MaxAttachments)
    {
      active, free := map[], MaxAttachments;
    }

    method Acquire(session: Session, holder: nat) returns (answer: Answer)
      modifies this
      ensures answer == AnswerTo(old(Value()), session)
      ensures Value() == Acquired(old(Value()), session, holder)
      ensures answer == Granted ==> session in active && active[session] == holder
    {
      if session in active { return SessionBusy; }
      if free == 0 { return AttachmentLimit; }
      active, free := active[session := holder], free - 1;
      return Granted;
    }

    /** Both leases go back in one section. */
    method Release(session: Session)
      modifies this
      ensures Value() == Released(old(Value()), session)
      ensures session !in active
    {
      if session in active { active, free := active - {session}, free + 1; }
    }
  }

  // ------------------------------------------------------------- the carriers

  /** `graces`: how many of the reaper's bounded waits have run out on a client being torn down. */
  datatype Phase =
    | Arriving
    | Superseding
    | Waiting
    | Refused(why: Answer)
    | Leased
    | Running(alive: bool, graces: nat)
    | Orphaned(alive: bool)
    | Over

  datatype Carrier = Carrier(session: Session, phase: Phase, closed: bool)

  datatype Mac = Mac(leases: Leases, carriers: seq<Carrier>)

  const Quiet: Mac := Mac(Leases(map[], MaxAttachments), [])

  datatype Step =
    | Arrives(session: Session)
    | FirstLook(i: nat) | Supersedes(i: nat) | SecondLook(i: nat)
    | Fails(i: nat) | Spawns(i: nat)
    | Closes(i: nat) | Exits(i: nat) | GraceRunsOut(i: nat)
    | Reaps(i: nat) | GivesUp(i: nat)

  function Put(m: Mac, i: nat, phase: Phase): Mac
    requires i < |m.carriers|
  {
    m.(carriers := m.carriers[i := m.carriers[i].(phase := phase)])
  }

  function Closed(m: Mac, i: nat): Mac
    requires i < |m.carriers|
  {
    m.(carriers := m.carriers[i := m.carriers[i].(closed := true)])
  }

  function Let(m: Mac, i: nat, phase: Phase): Mac
    requires i < |m.carriers|
  {
    Put(m.(leases := Released(m.leases, m.carriers[i].session)), i, phase)
  }

  function Looked(m: Mac, i: nat, busy: Phase): Mac
    requires i < |m.carriers|
  {
    match AnswerTo(m.leases, m.carriers[i].session)
    case Granted => Put(m.(leases := Acquired(m.leases, m.carriers[i].session, i)), i, Leased)
    case SessionBusy => Put(m, i, busy)
    case AttachmentLimit => Put(m, i, Refused(AttachmentLimit))
  }

  function CarrierOf(step: Step): Option<nat> {
    if step.Arrives? then None else Some(step.i)
  }

  function Next(m: Mac, step: Step): Mac {
    if step.Arrives? then m.(carriers := m.carriers + [Carrier(step.session, Arriving, false)])
    else if step.i >= |m.carriers| then m
    else
      var i, c := step.i, m.carriers[step.i];
      match step
      case FirstLook(_) => if c.phase == Arriving then Looked(m, i, Superseding) else m
      case Supersedes(_) =>
        if c.phase != Superseding then m
        else
          var asked := Put(m, i, Waiting);
          if c.session in m.leases.active && m.leases.active[c.session] < |m.carriers|
          then Closed(asked, m.leases.active[c.session]) else asked
      case SecondLook(_) => if c.phase == Waiting then Looked(m, i, Refused(SessionBusy)) else m
      case Fails(_) => if c.phase == Leased then Let(m, i, Over) else m
      case Spawns(_) => if c.phase == Leased then Put(m, i, Running(true, 0)) else m
      case Closes(_) => Closed(m, i)
      case Exits(_) =>
        if c.phase.Running? then Put(m, i, Running(false, c.phase.graces))
        else if c.phase.Orphaned? then Put(m, i, Orphaned(false)) else m
      case GraceRunsOut(_) =>
        if c.phase.Running? && c.closed && c.phase.alive && c.phase.graces < 2
        then Put(m, i, Running(true, c.phase.graces + 1)) else m
      case Reaps(_) => if c.phase.Running? && !c.phase.alive then Let(m, i, Over) else m
      case GivesUp(_) => if c.phase.Running? && c.phase.alive && c.phase.graces == 2 then Let(m, i, Orphaned(true)) else m
      case Arrives(_) => m
  }

  function Run(m: Mac, steps: seq<Step>): Mac
    decreases |steps|
  {
    if steps == [] then m else Next(Run(m, steps[..|steps| - 1]), steps[|steps| - 1])
  }

  // --------------------------------------------------------------- invariants

  predicate Holds(c: Carrier) { c.phase.Leased? || c.phase.Running? }

  /** A client of the session is alive: the carrier's own, or one its reaper gave up on. */
  predicate LiveClient(c: Carrier) {
    (c.phase.Running? && c.phase.alive) || (c.phase.Orphaned? && c.phase.alive)
  }

  /** The table is the carriers that hold a lease, one for a session, and every slot is held or free. */
  ghost predicate Stands(m: Mac) {
    && m.leases.free + |m.leases.active| == MaxAttachments
    && (forall s | s in m.leases.active ::
          && m.leases.active[s] < |m.carriers|
          && m.carriers[m.leases.active[s]].session == s && Holds(m.carriers[m.leases.active[s]]))
    && (forall i | 0 <= i < |m.carriers| && Holds(m.carriers[i]) ::
          m.carriers[i].session in m.leases.active && m.leases.active[m.carriers[i].session] == i)
  }

  lemma ReleasedFreesOne(l: Leases, session: Session)
    requires session in l.active
    ensures |Released(l, session).active| == |l.active| - 1
  {
    assert (l.active - {session}).Keys == l.active.Keys - {session};
    assert |l.active - {session}| == |(l.active - {session}).Keys|;
    assert |l.active| == |l.active.Keys|;
  }

  lemma AcquiredTakesOne(l: Leases, session: Session, holder: nat)
    requires AnswerTo(l, session) == Granted
    ensures |Acquired(l, session, holder).active| == |l.active| + 1
  {
    var after := Acquired(l, session, holder).active;
    assert after.Keys == l.active.Keys + {session};
    assert |after| == |after.Keys| && |l.active| == |l.active.Keys|;
  }

  lemma LetStands(m: Mac, i: nat, phase: Phase)
    requires Stands(m) && i < |m.carriers| && Holds(m.carriers[i])
    requires !phase.Leased? && !phase.Running?
    ensures Stands(Let(m, i, phase))
  {
    ReleasedFreesOne(m.leases, m.carriers[i].session);
  }

  lemma LookedStands(m: Mac, i: nat, busy: Phase)
    requires Stands(m) && i < |m.carriers| && !Holds(m.carriers[i])
    requires !busy.Leased? && !busy.Running?
    ensures Stands(Looked(m, i, busy))
  {
    var session, b := m.carriers[i].session, Looked(m, i, busy);
    if AnswerTo(m.leases, session) == Granted {
      AcquiredTakesOne(m.leases, session, i);
      assert b.leases.active == m.leases.active[session := i];
      assert b.carriers == m.carriers[i := m.carriers[i].(phase := Leased)];
      assert forall j | 0 <= j < |m.carriers| && j != i && Holds(m.carriers[j]) :: m.carriers[j].session != session;
    } else {
      hide Stands;
      SameHoldersStand(m, b);
    }
  }

  /** What moves no lease, and lets none go, keeps the table. */
  lemma SameHoldersStand(m: Mac, b: Mac)
    requires Stands(m) && b.leases == m.leases && |m.carriers| <= |b.carriers|
    requires forall i | 0 <= i < |m.carriers| ::
      b.carriers[i].session == m.carriers[i].session && Holds(b.carriers[i]) == Holds(m.carriers[i])
    requires forall i | |m.carriers| <= i < |b.carriers| :: !Holds(b.carriers[i])
    ensures Stands(b)
  {
  }

  /** The steps that touch no lease. */
  predicate LeavesLeases(m: Mac, step: Step) {
    || step.Arrives? || step.i >= |m.carriers| || step.Supersedes? || step.Spawns?
    || step.Closes? || step.Exits? || step.GraceRunsOut?
  }

  lemma QuietStepStands(m: Mac, step: Step)
    requires Stands(m) && LeavesLeases(m, step)
    ensures Stands(Next(m, step))
  {
    var b := Next(m, step);
    assert b.leases == m.leases;
    forall i | 0 <= i < |m.carriers|
      ensures b.carriers[i].session == m.carriers[i].session && Holds(b.carriers[i]) == Holds(m.carriers[i])
    {
    }
    hide Next, Stands;
    SameHoldersStand(m, b);
  }

  lemma StepStands(m: Mac, step: Step)
    requires Stands(m)
    ensures Stands(Next(m, step))
  {
    if LeavesLeases(m, step) {
      QuietStepStands(m, step);
      return;
    }
    var c := m.carriers[step.i];
    hide Looked, Let, Stands;
    match step
    case FirstLook(i) => if c.phase == Arriving { LookedStands(m, i, Superseding); }
    case SecondLook(i) => if c.phase == Waiting { LookedStands(m, i, Refused(SessionBusy)); }
    case Fails(i) => if c.phase == Leased { LetStands(m, i, Over); }
    case Reaps(i) => if c.phase.Running? { LetStands(m, i, Over); }
    case GivesUp(i) => if c.phase.Running? { LetStands(m, i, Orphaned(true)); }
    case _ =>
  }

  lemma {:induction false} RunStands(steps: seq<Step>)
    ensures Stands(Run(Quiet, steps))
    decreases |steps|
  {
    if steps != [] {
      RunStands(steps[..|steps| - 1]);
      StepStands(Run(Quiet, steps[..|steps| - 1]), steps[|steps| - 1]);
    }
  }

  // -------------------------------------------------------------- main results

  /**
   **Clients overlap only around an orphan**: in every run, two live clients of one session
   are never both held by their reapers; where there are two, a reaper has given up on one.
   */
  lemma {:induction false} ClientsOverlapOnlyAroundAnOrphan(steps: seq<Step>, i: nat, j: nat)
    requires var m := Run(Quiet, steps);
      && i < j < |m.carriers| && m.carriers[i].session == m.carriers[j].session
      && LiveClient(m.carriers[i]) && LiveClient(m.carriers[j])
    ensures var m := Run(Quiet, steps);
      m.carriers[i].phase.Orphaned? || m.carriers[j].phase.Orphaned?
  {
    RunStands(steps);
  }

  predicate GaveUp(c: Carrier) { c.phase.Orphaned? }

  lemma {:induction false} OrphansCome(steps: seq<Step>)
    requires forall k | 0 <= k < |steps| :: !steps[k].GivesUp?
    ensures forall i | 0 <= i < |Run(Quiet, steps).carriers| :: !GaveUp(Run(Quiet, steps).carriers[i])
    decreases |steps|
  {
    if steps != [] {
      var before := steps[..|steps| - 1];
      assert forall k | 0 <= k < |before| :: before[k] == steps[k];
      OrphansCome(before);
      assert !steps[|steps| - 1].GivesUp?;
    }
  }

  /** While every client dies within its reaper's grace, a session never has two. */
  lemma {:induction false} OneClientASession(steps: seq<Step>, i: nat, j: nat)
    requires forall k | 0 <= k < |steps| :: !steps[k].GivesUp?
    requires i < j < |Run(Quiet, steps).carriers|
    ensures var m := Run(Quiet, steps);
      m.carriers[i].session == m.carriers[j].session ==>
        !(LiveClient(m.carriers[i]) && LiveClient(m.carriers[j]))
  {
    OrphansCome(steps);
    RunStands(steps);
    var m := Run(Quiet, steps);
    assert !GaveUp(m.carriers[i]) && !GaveUp(m.carriers[j]);
  }

  /**
   The lease does not outlast a client its reaper gave up on: whenever one is alive, its
   session's lease free and a slot too, the next attach opens a second client beside it.
   */
  lemma {:induction false} OrphanIsOverlapped(steps: seq<Step>, i: nat)
    requires var m := Run(Quiet, steps);
      && i < |m.carriers| && m.carriers[i].phase == Orphaned(true)
      && m.carriers[i].session !in m.leases.active && m.leases.free > 0
    ensures var m := Run(Quiet, steps);
      var n := |m.carriers|;
      var after := Next(Next(Next(m, Arrives(m.carriers[i].session)), FirstLook(n)), Spawns(n));
      && |after.carriers| == n + 1 && after.carriers[n].session == after.carriers[i].session == m.carriers[i].session
      && LiveClient(after.carriers[i]) && LiveClient(after.carriers[n])
  {
    var m := Run(Quiet, steps);
    var n := |m.carriers|;
    var arrived := Next(m, Arrives(m.carriers[i].session));
    assert arrived.carriers[n] == Carrier(m.carriers[i].session, Arriving, false);
    var leased := Next(arrived, FirstLook(n));
    assert leased.carriers[n].phase == Leased;
  }

  /** And a reaper that gives up hands back the lease of a client still alive. */
  lemma {:induction false} GivingUpOrphans(steps: seq<Step>, i: nat)
    requires var m := Run(Quiet, steps);
      i < |m.carriers| && m.carriers[i].phase == Running(true, 2)
    ensures var m := Run(Quiet, steps + [GivesUp(i)]);
      && m.carriers[i].phase == Orphaned(true) && LiveClient(m.carriers[i])
      && m.carriers[i].session !in m.leases.active && m.leases.free > 0
  {
    hide Run;
    RunStands(steps);
    OneMoreStep(steps, GivesUp(i));
    var m := Run(Quiet, steps);
    assert m.carriers[i].session in m.leases.active;
    assert Next(m, GivesUp(i)).leases == Released(m.leases, m.carriers[i].session);
  }

  lemma OneMoreStep(steps: seq<Step>, step: Step)
    ensures Run(Quiet, steps + [step]) == Next(Run(Quiet, steps), step)
  {
    assert (steps + [step])[..|steps|] == steps;
  }

  /** From nothing: an attach, its close, a client that outlives both waits, and the next attach beside it. */
  lemma {:induction false} OverlapIsReached(session: Session)
    ensures var m := Run(Quiet, [Arrives(session), FirstLook(0), Spawns(0), Closes(0), GraceRunsOut(0), GraceRunsOut(0)]
                                + [GivesUp(0)] + [Arrives(session)] + [FirstLook(1)] + [Spawns(1)]);
      && |m.carriers| == 2 && m.carriers[0].session == m.carriers[1].session == session
      && LiveClient(m.carriers[0]) && LiveClient(m.carriers[1])
  {
    hide Next;
    var steps := [Arrives(session), FirstLook(0), Spawns(0), Closes(0), GraceRunsOut(0), GraceRunsOut(0)];
    ClientOutlivesGrace(session);
    GivingUpOrphans(steps, 0);
    OneMoreStep(steps, GivesUp(0));
    OneCarrierStays(Run(Quiet, steps), GivesUp(0));
    var orphaned := steps + [GivesUp(0)];
    OrphanIsOverlapped(orphaned, 0);
    OneMoreStep(orphaned, Arrives(session));
    OneMoreStep(orphaned + [Arrives(session)], FirstLook(1));
    OneMoreStep(orphaned + [Arrives(session)] + [FirstLook(1)], Spawns(1));
  }

  lemma OneCarrierStays(m: Mac, step: Step)
    requires !step.Arrives?
    ensures |Next(m, step).carriers| == |m.carriers|
    ensures forall i | 0 <= i < |m.carriers| :: Next(m, step).carriers[i].session == m.carriers[i].session
  {
  }

  /** A Mac with one carrier, and its lease. */
  function One(session: Session, phase: Phase, closed: bool): Mac {
    Mac(Leases(map[session := 0], MaxAttachments - 1), [Carrier(session, phase, closed)])
  }

  lemma OneAttaches(session: Session)
    ensures Next(Quiet, Arrives(session)) == Mac(Quiet.leases, [Carrier(session, Arriving, false)])
    ensures Next(Mac(Quiet.leases, [Carrier(session, Arriving, false)]), FirstLook(0)) == One(session, Leased, false)
  {
  }

  lemma OneIsClosed(session: Session)
    ensures Next(One(session, Leased, false), Spawns(0)) == One(session, Running(true, 0), false)
    ensures Next(One(session, Running(true, 0), false), Closes(0)) == One(session, Running(true, 0), true)
  {
  }

  lemma OneOutlives(session: Session, graces: nat)
    requires graces < 2
    ensures Next(One(session, Running(true, graces), true), GraceRunsOut(0)) == One(session, Running(true, graces + 1), true)
  {
  }

  lemma ClientOutlivesGrace(session: Session)
    ensures Run(Quiet, [Arrives(session), FirstLook(0), Spawns(0), Closes(0), GraceRunsOut(0), GraceRunsOut(0)])
         == One(session, Running(true, 2), true)
  {
    hide Next, One;
    OneAttaches(session);
    OneIsClosed(session);
    OneOutlives(session, 0);
    OneOutlives(session, 1);
    var s1 := StepsTo([], Quiet, Arrives(session), Mac(Quiet.leases, [Carrier(session, Arriving, false)]));
    var s2 := StepsTo(s1, Mac(Quiet.leases, [Carrier(session, Arriving, false)]), FirstLook(0), One(session, Leased, false));
    var s3 := StepsTo(s2, One(session, Leased, false), Spawns(0), One(session, Running(true, 0), false));
    var s4 := StepsTo(s3, One(session, Running(true, 0), false), Closes(0), One(session, Running(true, 0), true));
    var s5 := StepsTo(s4, One(session, Running(true, 0), true), GraceRunsOut(0), One(session, Running(true, 1), true));
    var s6 := StepsTo(s5, One(session, Running(true, 1), true), GraceRunsOut(0), One(session, Running(true, 2), true));
    assert s6 == [Arrives(session), FirstLook(0), Spawns(0), Closes(0), GraceRunsOut(0), GraceRunsOut(0)];
  }

  lemma StepsTo(steps: seq<Step>, m: Mac, step: Step, after: Mac) returns (longer: seq<Step>)
    requires Run(Quiet, steps) == m && Next(m, step) == after
    ensures longer == steps + [step] && Run(Quiet, longer) == after
  {
    longer := steps + [step];
    OneMoreStep(steps, step);
  }

  /** The carriers holding a lease, counted. */
  function Holders(m: Mac): set<nat> { set i | 0 <= i < |m.carriers| && Holds(m.carriers[i]) }

  /** At most eight clients are under a reaper, and every slot is accounted for, in every run. */
  lemma {:induction false} SlotsAreConserved(steps: seq<Step>)
    ensures var m := Run(Quiet, steps);
      && |Holders(m)| == |m.leases.active| == MaxAttachments - m.leases.free
      && |Holders(m)| <= MaxAttachments
  {
    RunStands(steps);
    var m := Run(Quiet, steps);
    assert forall i | i in Holders(m) :: m.carriers[i].session in m.leases.active;
    assert forall s | s in m.leases.active :: m.leases.active[s] in Holders(m);
    OneKeyAHolder(m.leases.active, Holders(m));
  }

  lemma {:induction false} OneKeyAHolder(active: map<Session, nat>, holders: set<nat>)
    requires forall s | s in active :: active[s] in holders
    requires forall h | h in holders :: exists s :: s in active && active[s] == h
    requires forall s, t | s in active && t in active && active[s] == active[t] :: s == t
    ensures |holders| == |active|
    decreases |holders|
  {
    if holders == {} {
      assert active.Keys == {};
      assert |active| == |active.Keys|;
    } else {
      var h :| h in holders;
      var s :| s in active && active[s] == h;
      var rest := active - {s};
      assert rest.Keys == active.Keys - {s};
      assert |rest| == |rest.Keys| && |active| == |active.Keys|;
      forall g | g in holders - {h} ensures exists t :: t in rest && rest[t] == g {
        var t :| t in active && active[t] == g;
        assert t in rest;
      }
      OneKeyAHolder(rest, holders - {h});
    }
  }

  // ------------------------------------------------------------------ takeover

  /**
   **Every attach is told the truth**: it is refused for the Mac's cap exactly when eight
   sessions other than its own hold terminals, and never on account of its own incumbent.
   */
  lemma {:induction false} LimitMeansOtherSessions(steps: seq<Step>, session: Session)
    ensures var l := Run(Quiet, steps).leases;
      && (AnswerTo(l, session) == AttachmentLimit <==> session !in l.active && |l.active| == MaxAttachments)
      && (AnswerTo(l, session) == SessionBusy <==> session in l.active)
  {
    RunStands(steps);
  }

  /**
   **A full Mac still lets a session's terminal be taken over**: whatever the other slots
   hold, an attach to a session that has a terminal closes that terminal, and once it is
   reaped takes both its leases.
   */
  lemma {:induction false} TakeoverSucceeds(steps: seq<Step>, i: nat, h: nat)
    requires var m := Run(Quiet, steps);
      && i < |m.carriers| && m.carriers[i].phase == Arriving
      && h < |m.carriers| && m.carriers[h].phase.Running? && m.carriers[h].session == m.carriers[i].session
    ensures var m := Run(Quiet, steps);
      var told := Next(Next(m, FirstLook(i)), Supersedes(i));
      var reaped := Next(Next(told, Exits(h)), Reaps(h));
      && told.carriers[h].closed && told.carriers[i].phase == Waiting
      && Holds(told.carriers[h]) && told.leases == m.leases
      && Next(reaped, SecondLook(i)).carriers[i].phase == Leased
      && Next(reaped, SecondLook(i)).leases.free == m.leases.free
  {
    RunStands(steps);
    var m := Run(Quiet, steps);
    assert m.leases.active[m.carriers[i].session] == h;
    var looked := Next(m, FirstLook(i));
    assert looked.carriers[i].phase == Superseding && looked.carriers[h] == m.carriers[h];
    var told := Next(looked, Supersedes(i));
    assert told.carriers[h] == m.carriers[h].(closed := true) && told.carriers[i].phase == Waiting;
    var exited := Next(told, Exits(h));
    assert exited.carriers[h].phase == Running(false, m.carriers[h].phase.graces);
    var reaped := Next(exited, Reaps(h));
    assert reaped.leases == Released(m.leases, m.carriers[h].session);
    assert reaped.carriers[i] == told.carriers[i];
  }

  /** An attach waiting for its incumbent holds nothing that incumbent's release could need. */
  lemma {:induction false} WaitersHoldNothing(steps: seq<Step>, i: nat)
    requires i < |Run(Quiet, steps).carriers|
    requires var c := Run(Quiet, steps).carriers[i]; c.phase.Arriving? || c.phase.Superseding? || c.phase.Waiting?
    ensures forall s | s in Run(Quiet, steps).leases.active :: Run(Quiet, steps).leases.active[s] != i
  {
    RunStands(steps);
  }
}
