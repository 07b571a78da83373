/**
 The daemon's two-phase mutations (mac/ccd/src/store.rs, state.rs): a claim is
 recorded before anything is typed, and settled, released or left once it is known
 what happened.

 One session's ledger, the attempts the daemon has in hand, and the frames its
 supervisor holds, which outlive the daemon. Deliveries of one request id may race,
 answers may be lost, records may fail, the daemon may stop between any two steps
 and the session may be deleted under them all. A session is deleted only with no
 supervisor attached, and none attaches after: from then on nothing is handed over.
 */
module Mutations {
  import opened Wrappers

  datatype Status = Applying | Settled(matched: string) | Indeterminate

  datatype Row = Row(hash: string, status: Status)

  /** What a claim finds: the id is ours, or what has become of it. */
  datatype Claim = Claimed | Applied(matched: string) | Unknown | Conflict | NoSession

  datatype Ledger = Ledger(sessionExists: bool, rows: map<string, Row>)

  function Held(row: Row, hash: string): Claim {
    if row.hash != hash then Conflict
    else match row.status case Settled(matched) => Applied(matched) case _ => Unknown
  }

  /** `claim_mutation`: no row, no claim. */
  function Claiming(l: Ledger, id: string, hash: string): (Ledger, Claim) {
    if id in l.rows then (l, Held(l.rows[id], hash))
    else if l.sessionExists then (l.(rows := l.rows[id := Row(hash, Applying)]), Claimed)
    else (l, NoSession)
  }

  /** `claim_text_mutation`: the insert writes nothing for a deleted session, and the claim stands all the same. */
  function ClaimingText(l: Ledger, id: string, hash: string): (Ledger, Claim) {
    var (after, claim) := Claiming(l, id, hash);
    (after, if claim.NoSession? then Claimed else claim)
  }

  function Settling(l: Ledger, id: string, matched: string): Ledger {
    if id in l.rows then l.(rows := l.rows[id := l.rows[id].(status := Settled(matched))]) else l
  }

  /** Only a claim nothing has settled is given back. */
  function Releasing(l: Ledger, id: string): Ledger {
    if id in l.rows && l.rows[id].status == Applying then l.(rows := l.rows - {id}) else l
  }

  /** What a start does with every claim the last process did not settle. */
  function Recovering(l: Ledger): Ledger {
    l.(rows := map id | id in l.rows ::
         if l.rows[id].status == Applying then l.rows[id].(status := Indeterminate) else l.rows[id])
  }

  const Deleted: Ledger := Ledger(false, map[])

  /** The ledger as the table it is, one statement a method. */
  class MutationLedger {
    var sessionExists: bool
    var rows: map<string, Row>

    function Value(): Ledger
      reads this
    {
      Ledger(sessionExists, rows)
    }

    constructor ()
      ensures Value() == Ledger(true, map[])
    {
      sessionExists, rows := true, map[];
    }

    /** Inserts and says how many rows that wrote. */
    method Insert(id: string, hash: string) returns (inserted: nat)
      requires id !in rows
      modifies `rows
      ensures inserted == if sessionExists then 1 else 0
      ensures rows == if sessionExists then old(rows)[id := Row(hash, Applying)] else old(rows)
    {
      if !sessionExists { return 0; }
      rows := rows[id := Row(hash, Applying)];
      inserted := 1;
    }

    method ClaimMutation(id: string, hash: string) returns (claim: Claim)
      modifies `rows
      ensures (Value(), claim) == Claiming(old(Value()), id, hash)
    {
      if id in rows { return Held(rows[id], hash); }
      var inserted := Insert(id, hash);
      claim := if inserted == 1 then Claimed else NoSession;
    }

    method ClaimTextMutation(id: string, hash: string) returns (claim: Claim)
      modifies `rows
      ensures (Value(), claim) == ClaimingText(old(Value()), id, hash)
    {
      if id in rows { return Held(rows[id], hash); }
      var _ := Insert(id, hash);
      claim := Claimed;
    }

    method SettleTextMutation(id: string, matched: string)
      modifies `rows
      ensures Value() == Settling(old(Value()), id, matched)
    {
      if id in rows { rows := rows[id := rows[id].(status := Settled(matched))]; }
    }

    /** `settle_mutation`: the first terminal state wins. */
    method SettleMutation(id: string, outcome: string) returns (won: bool)
      modifies `rows
      ensures won == (id in old(rows) && old(rows)[id].status == Applying)
      ensures Value() == if won then Settling(old(Value()), id, outcome) else old(Value())
    {
      won := id in rows && rows[id].status == Applying;
      if won { rows := rows[id := rows[id].(status := Settled(outcome))]; }
    }

    method ReleaseMutation(id: string)
      modifies `rows
      ensures Value() == Releasing(old(Value()), id)
    {
      if id in rows && rows[id].status == Applying { rows := rows - {id}; }
    }

    /** `recover_text_mutations`, row by row. */
    method Recover()
      modifies `rows
      ensures Value() == Recovering(old(Value()))
    {
      var left := rows.Keys;
      while left != {}
        invariant left <= rows.Keys && rows.Keys == old(rows).Keys
        invariant forall id | id in rows ::
                    rows[id] == if id !in left && old(rows)[id].status == Applying
                                then old(rows)[id].(status := Indeterminate) else old(rows)[id]
        decreases left
      {
        var id :| id in left;
        if rows[id].status == Applying { rows := rows[id := rows[id].(status := Indeterminate)]; }
        left := left - {id};
      }
    }

    method DeleteSession()
      modifies this
      ensures Value() == Deleted
    {
      sessionExists, rows := false, map[];
    }
  }

  // ------------------------------------------------------------- the machine

  datatype Outcome = Sent(matched: string) | Refused | NeverKnown

  /** How far one delivery of a request has come. */
  datatype Stage =
    | Resolved
    | HasClaim
    | WithSupervisor(frame: nat)
    | Heard(outcome: Outcome)
    | Done(reply: Reply)

  datatype Reply = Told(outcome: Outcome) | Duplicate(matched: string) | NotAgain | Reused | Gone

  datatype Attempt = Attempt(id: string, hash: string, stage: Stage)

  datatype Fate = Waiting | Typed | TurnedDown

  /** An injection a supervisor was handed: it types it or refuses it, once, whoever is still listening. */
  datatype Frame = Frame(id: string, hash: string, fate: Fate)

  datatype World = World(ledger: Ledger, attempts: seq<Attempt>, frames: seq<Frame>)

  const Start: World := World(Ledger(true, map[]), [], [])

  datatype Step =
    | Deliver(id: string, hash: string)
    | Claims(attempt: nat)
    | HandsOver(attempt: nat, sent: bool)
    | Types(frame: nat)
    | TurnsDown(frame: nat)
    | Hears(attempt: nat, matched: string, lost: bool)
    | Records(attempt: nat, written: bool)
    | Crashes
    | SessionDeleted

  function To(w: World, i: nat, stage: Stage): World
    requires i < |w.attempts|
  {
    w.(attempts := w.attempts[i := w.attempts[i].(stage := stage)])
  }

  function ReplyTo(claim: Claim): Stage {
    match claim
    case Claimed => HasClaim
    case Applied(matched) => Done(Duplicate(matched))
    case Unknown => Done(NotAgain)
    case Conflict => Done(Reused)
    case NoSession => Done(Gone)
  }

  /** One step; `text` says which of the two claims the ledger makes. */
  function Next(text: bool, w: World, step: Step): World {
    match step
    case Deliver(id, hash) =>
      if w.ledger.sessionExists then w.(attempts := w.attempts + [Attempt(id, hash, Resolved)]) else w
    case Claims(i) =>
      if i >= |w.attempts| || w.attempts[i].stage != Resolved then w
      else
        var a := w.attempts[i];
        var (ledger, claim) := if text then ClaimingText(w.ledger, a.id, a.hash) else Claiming(w.ledger, a.id, a.hash);
        To(w, i, ReplyTo(claim)).(ledger := ledger)
    case HandsOver(i, sent) =>
      if i >= |w.attempts| || w.attempts[i].stage != HasClaim then w
      else if !sent || !w.ledger.sessionExists then To(w, i, Heard(Refused))
      else
        To(w, i, WithSupervisor(|w.frames|))
          .(frames := w.frames + [Frame(w.attempts[i].id, w.attempts[i].hash, Waiting)])
    case Types(f) =>
      if f < |w.frames| && w.frames[f].fate == Waiting then w.(frames := w.frames[f := w.frames[f].(fate := Typed)]) else w
    case TurnsDown(f) =>
      if f < |w.frames| && w.frames[f].fate == Waiting
      then w.(frames := w.frames[f := w.frames[f].(fate := TurnedDown)]) else w
    case Hears(i, matched, lost) =>
      if i >= |w.attempts| || !w.attempts[i].stage.WithSupervisor? then w
      else
        var f := w.attempts[i].stage.frame;
        if lost || f >= |w.frames| || w.frames[f].fate == Waiting then (if lost then To(w, i, Heard(NeverKnown)) else w)
        else To(w, i, Heard(if w.frames[f].fate == Typed then Sent(matched) else Refused))
    case Records(i, written) =>
      if i >= |w.attempts| || !w.attempts[i].stage.Heard? then w
      else
        var a, outcome := w.attempts[i], w.attempts[i].stage.outcome;
        To(w, i, Done(Told(outcome))).(
          ledger := if !written then w.ledger
                    else match outcome
                      case Sent(matched) => Settling(w.ledger, a.id, matched)
                      case Refused => Releasing(w.ledger, a.id)
                      case NeverKnown => w.ledger)
    case Crashes => w.(ledger := Recovering(w.ledger), attempts := [])
    case SessionDeleted => w.(ledger := Deleted)
  }

  function Run(text: bool, w: World, steps: seq<Step>): World
    decreases |steps|
  {
    if steps == [] then w else Next(text, Run(text, w, steps[..|steps| - 1]), steps[|steps| - 1])
  }

  // ---------------------------------------------------------- the invariant

  /** An attempt that holds its id's claim. */
  predicate Owns(a: Attempt) {
    a.stage.HasClaim? || a.stage.WithSupervisor? || a.stage.Heard?
  }

  /** A frame that has typed, or still may. */
  predicate Counts(f: Frame) { f.fate != TurnedDown }

  ghost predicate NoneCounts(w: World, id: string) {
    forall f | 0 <= f < |w.frames| && Counts(w.frames[f]) :: w.frames[f].id != id
  }

  ghost predicate WasTyped(w: World, id: string) {
    exists f :: 0 <= f < |w.frames| && w.frames[f].id == id && w.frames[f].fate == Typed
  }

  /** What an attempt that owns its claim knows of its own frame. */
  ghost predicate StageTrue(w: World, a: Attempt) {
    match a.stage
    case HasClaim => NoneCounts(w, a.id)
    case WithSupervisor(f) =>
      && f < |w.frames| && w.frames[f].id == a.id
      && (forall g | 0 <= g < |w.frames| && Counts(w.frames[g]) && w.frames[g].id == a.id :: g == f)
    case Heard(Refused) => NoneCounts(w, a.id)
    case Heard(Sent(_)) => WasTyped(w, a.id)
    case _ => true
  }

  /** The record agrees with what happened, while the session is there to have one. */
  ghost predicate RecordTrue(w: World) {
    && (forall i | 0 <= i < |w.attempts| && Owns(w.attempts[i]) ::
          w.attempts[i].id in w.ledger.rows && w.ledger.rows[w.attempts[i].id] == Row(w.attempts[i].hash, Applying))
    && (forall f | 0 <= f < |w.frames| && Counts(w.frames[f]) ::
          w.frames[f].id in w.ledger.rows && w.ledger.rows[w.frames[f].id].hash == w.frames[f].hash)
    && (forall id | id in w.ledger.rows && w.ledger.rows[id].status.Settled? :: WasTyped(w, id))
  }

  /** Frames that count are each id's only one. */
  ghost predicate FramesApart(w: World) {
    forall f, g | 0 <= f < g < |w.frames| && Counts(w.frames[f]) && Counts(w.frames[g]) :: w.frames[f].id != w.frames[g].id
  }

  /** Claims are each id's only one, and true; a text claim made of a deleted session is neither. */
  ghost predicate ClaimsTrue(w: World) {
    && (forall i, j | 0 <= i < j < |w.attempts| && Owns(w.attempts[i]) && Owns(w.attempts[j]) ::
          w.attempts[i].id != w.attempts[j].id)
    && (forall i | 0 <= i < |w.attempts| && Owns(w.attempts[i]) :: StageTrue(w, w.attempts[i]))
  }

  ghost predicate Sound(text: bool, w: World) {
    && FramesApart(w)
    && (w.ledger.sessionExists || !text ==> ClaimsTrue(w))
    && (if w.ledger.sessionExists then RecordTrue(w) else w.ledger.rows == map[])
  }

  // ------------------------------------------------------- every step keeps it

  lemma ClaimKeeps(text: bool, w: World, i: nat)
    requires Sound(text, w) && (w.ledger.sessionExists || !text) && i < |w.attempts| && w.attempts[i].stage == Resolved
    ensures Sound(text, Next(text, w, Claims(i)))
  {
    var a := w.attempts[i];
    var b := Next(text, w, Claims(i));
    assert b.frames == w.frames;
    if Owns(b.attempts[i]) {
      forall f | 0 <= f < |w.frames| && Counts(w.frames[f]) ensures w.frames[f].id != a.id {
        assert w.frames[f].id in w.ledger.rows;
      }
      assert NoneCounts(b, a.id);
    }
    FramesTellTheSame(w, b);
  }

  /** Facts about frames do not depend on anything else. */
  lemma FramesTellTheSame(w: World, b: World)
    requires b.frames == w.frames
    ensures forall a: Attempt :: StageTrue(b, a) == StageTrue(w, a)
    ensures forall id: string :: WasTyped(b, id) == WasTyped(w, id)
  {
  }

  lemma HandOverKeeps(text: bool, w: World, i: nat, sent: bool)
    requires Sound(text, w) && (w.ledger.sessionExists || !text) && i < |w.attempts| && w.attempts[i].stage == HasClaim
    ensures Sound(text, Next(text, w, HandsOver(i, sent)))
  {
    var a := w.attempts[i];
    var b := Next(text, w, HandsOver(i, sent));
    assert Owns(a) && NoneCounts(w, a.id);
    if !sent || !w.ledger.sessionExists {
      FramesTellTheSame(w, b);
    } else {
      forall j | 0 <= j < |b.attempts| && Owns(b.attempts[j]) ensures StageTrue(b, b.attempts[j]) {
        if j != i {
          assert w.attempts[j].id != a.id by { if i < j { } else { } }
          OneMoreFrame(w, b, w.attempts[j]);
        }
      }
      TypedStaysTyped(w, b);
    }
  }

  lemma OneMoreFrame(w: World, b: World, a: Attempt)
    requires |b.frames| == |w.frames| + 1 && b.frames[..|w.frames|] == w.frames && b.frames[|w.frames|].id != a.id
    requires StageTrue(w, a)
    ensures StageTrue(b, a)
  {
    assert forall f | 0 <= f < |w.frames| :: b.frames[f] == w.frames[f];
    if a.stage.Heard? && a.stage.outcome.Sent? {
      var f :| 0 <= f < |w.frames| && w.frames[f].id == a.id && w.frames[f].fate == Typed;
      assert b.frames[f].fate == Typed;
    }
  }

  /** What was typed stays typed. */
  lemma TypedStaysTyped(w: World, b: World)
    requires |w.frames| <= |b.frames|
    requires forall f | 0 <= f < |w.frames| :: b.frames[f].id == w.frames[f].id && (w.frames[f].fate == Typed ==> b.frames[f].fate == Typed)
    ensures forall id | WasTyped(w, id) :: WasTyped(b, id)
  {
    forall id | WasTyped(w, id) ensures WasTyped(b, id) {
      var f :| 0 <= f < |w.frames| && w.frames[f].id == id && w.frames[f].fate == Typed;
      assert b.frames[f].fate == Typed;
    }
  }

  lemma FateKeeps(text: bool, w: World, step: Step, f: nat)
    requires Sound(text, w) && (w.ledger.sessionExists || !text) && (step == Types(f) || step == TurnsDown(f)) && f < |w.frames| && w.frames[f].fate == Waiting
    ensures Sound(text, Next(text, w, step))
  {
    var b := Next(text, w, step);
    TypedStaysTyped(w, b);
    assert forall g | 0 <= g < |b.frames| && Counts(b.frames[g]) :: Counts(w.frames[g]);
    forall i | 0 <= i < |b.attempts| && Owns(b.attempts[i]) ensures StageTrue(b, b.attempts[i]) {
      assert StageTrue(w, w.attempts[i]);
    }
  }

  lemma HearKeeps(text: bool, w: World, i: nat, matched: string, lost: bool)
    requires Sound(text, w) && (w.ledger.sessionExists || !text) && i < |w.attempts| && w.attempts[i].stage.WithSupervisor?
    ensures Sound(text, Next(text, w, Hears(i, matched, lost)))
  {
    var b := Next(text, w, Hears(i, matched, lost));
    var a := w.attempts[i];
    assert Owns(a) && StageTrue(w, a);
    FramesTellTheSame(w, b);
    var f := a.stage.frame;
    if !lost && w.frames[f].fate == Typed { assert WasTyped(b, a.id); }
    if !lost && w.frames[f].fate == TurnedDown { assert NoneCounts(b, a.id); }
  }

  lemma RecordKeeps(text: bool, w: World, i: nat, written: bool)
    requires Sound(text, w) && (w.ledger.sessionExists || !text) && i < |w.attempts| && w.attempts[i].stage.Heard?
    ensures Sound(text, Next(text, w, Records(i, written)))
  {
    var b := Next(text, w, Records(i, written));
    var a := w.attempts[i];
    assert Owns(a) && StageTrue(w, a);
    FramesTellTheSame(w, b);
    forall j | 0 <= j < |b.attempts| && Owns(b.attempts[j]) ensures w.attempts[j].id != a.id {
      assert j != i;
    }
  }

  /** Once the session is gone no frame is added, and none counts again. */
  lemma LateStepKeeps(w: World, step: Step)
    requires Sound(true, w) && !w.ledger.sessionExists
    ensures Sound(true, Next(true, w, step))
  {
  }

  lemma StepKeeps(text: bool, w: World, step: Step)
    requires Sound(text, w)
    ensures Sound(text, Next(text, w, step))
  {
    if text && !w.ledger.sessionExists {
      LateStepKeeps(w, step);
      return;
    }
    hide Sound, Next;
    match step
    case Claims(i) => ClaimOrNot(text, w, i);
    case HandsOver(i, sent) => HandOverOrNot(text, w, i, sent);
    case Types(f) => FateOrNot(text, w, step, f);
    case TurnsDown(f) => FateOrNot(text, w, step, f);
    case Hears(i, matched, lost) => HearOrNot(text, w, i, matched, lost);
    case Records(i, written) => RecordOrNot(text, w, i, written);
    case Deliver(id, hash) => DeliverKeeps(text, w, id, hash);
    case Crashes => CrashKeeps(text, w);
    case SessionDeleted => DeleteKeeps(text, w);
  }

  lemma ClaimOrNot(text: bool, w: World, i: nat)
    requires Sound(text, w) && (w.ledger.sessionExists || !text)
    ensures Sound(text, Next(text, w, Claims(i)))
  {
    hide Sound;
    if i < |w.attempts| && w.attempts[i].stage == Resolved { ClaimKeeps(text, w, i); }
  }

  lemma HandOverOrNot(text: bool, w: World, i: nat, sent: bool)
    requires Sound(text, w) && (w.ledger.sessionExists || !text)
    ensures Sound(text, Next(text, w, HandsOver(i, sent)))
  {
    hide Sound;
    if i < |w.attempts| && w.attempts[i].stage == HasClaim { HandOverKeeps(text, w, i, sent); }
  }

  lemma FateOrNot(text: bool, w: World, step: Step, f: nat)
    requires Sound(text, w) && (w.ledger.sessionExists || !text) && (step == Types(f) || step == TurnsDown(f))
    ensures Sound(text, Next(text, w, step))
  {
    hide Sound;
    if f < |w.frames| && w.frames[f].fate == Waiting { FateKeeps(text, w, step, f); }
  }

  lemma HearOrNot(text: bool, w: World, i: nat, matched: string, lost: bool)
    requires Sound(text, w) && (w.ledger.sessionExists || !text)
    ensures Sound(text, Next(text, w, Hears(i, matched, lost)))
  {
    hide Sound;
    if i < |w.attempts| && w.attempts[i].stage.WithSupervisor? { HearKeeps(text, w, i, matched, lost); }
  }

  lemma RecordOrNot(text: bool, w: World, i: nat, written: bool)
    requires Sound(text, w) && (w.ledger.sessionExists || !text)
    ensures Sound(text, Next(text, w, Records(i, written)))
  {
    hide Sound;
    if i < |w.attempts| && w.attempts[i].stage.Heard? { RecordKeeps(text, w, i, written); }
  }

  lemma DeliverKeeps(text: bool, w: World, id: string, hash: string)
    requires Sound(text, w) && (w.ledger.sessionExists || !text)
    ensures Sound(text, Next(text, w, Deliver(id, hash)))
  {
    FramesTellTheSame(w, Next(text, w, Deliver(id, hash)));
  }

  lemma CrashKeeps(text: bool, w: World)
    requires Sound(text, w) && (w.ledger.sessionExists || !text)
    ensures Sound(text, Next(text, w, Crashes))
  {
    FramesTellTheSame(w, Next(text, w, Crashes));
  }

  lemma DeleteKeeps(text: bool, w: World)
    requires Sound(text, w)
    ensures Sound(text, Next(text, w, SessionDeleted))
  {
    FramesTellTheSame(w, Next(text, w, SessionDeleted));
  }

  lemma {:induction false} RunKeeps(text: bool, w: World, steps: seq<Step>)
    requires Sound(text, w)
    ensures Sound(text, Run(text, w, steps))
    decreases |steps|
  {
    hide Sound, Next;
    if steps != [] {
      RunKeeps(text, w, steps[..|steps| - 1]);
      StepKeeps(text, Run(text, w, steps[..|steps| - 1]), steps[|steps| - 1]);
    }
  }

  // ------------------------------------------------------------ the promises

  /** How many times an id has been typed. */
  function TimesTyped(frames: seq<Frame>, id: string): nat {
    if frames == [] then 0
    else
      var last := frames[|frames| - 1];
      TimesTyped(frames[..|frames| - 1], id) + if last.id == id && last.fate == Typed then 1 else 0
  }

  lemma {:induction false} TypedOnceAtMost(frames: seq<Frame>, id: string)
    requires forall f, g | 0 <= f < g < |frames| && Counts(frames[f]) && Counts(frames[g]) :: frames[f].id != frames[g].id
    ensures TimesTyped(frames, id) <= 1
    ensures TimesTyped(frames, id) == 1 <==> exists f :: 0 <= f < |frames| && frames[f].id == id && frames[f].fate == Typed
    decreases |frames|
  {
    if frames != [] {
      var front, last := frames[..|frames| - 1], frames[|frames| - 1];
      TypedOnceAtMost(front, id);
      if TimesTyped(front, id) == 1 {
        var f :| 0 <= f < |front| && front[f].id == id && front[f].fate == Typed;
        assert frames[f].id == id && frames[f].fate == Typed;
      }
      if f :| 0 <= f < |frames| && frames[f].id == id && frames[f].fate == Typed {
        if f < |front| { assert front[f].id == id && front[f].fate == Typed; }
      }
    }
  }

  /**
   **Typed at most once, and the record is true.** Over every run of either claim:
   whatever crashes, races, losses, failed writes and deletions, no id is typed twice;
   an id on record as settled has been typed exactly once; with the session there, what
   was typed is on record with the material that was claimed, an id that is not on record
   has not been typed, and a delivery told it was refused has typed nothing. Of the claim that refuses a deleted session the last holds after the
   deletion too.
   */
  lemma {:induction false} AtMostOnce(text: bool, steps: seq<Step>, id: string)
    ensures var w := Run(text, Start, steps);
      && TimesTyped(w.frames, id) <= 1
      && (id in w.ledger.rows && w.ledger.rows[id].status.Settled? ==> TimesTyped(w.frames, id) == 1)
      && (w.ledger.sessionExists && id !in w.ledger.rows ==> TimesTyped(w.frames, id) == 0)
      && (w.ledger.sessionExists ==>
            forall f | 0 <= f < |w.frames| && w.frames[f].id == id && w.frames[f].fate == Typed ::
              id in w.ledger.rows && w.ledger.rows[id].hash == w.frames[f].hash)
      && (w.ledger.sessionExists || !text ==>
            forall i | 0 <= i < |w.attempts| && w.attempts[i].id == id && w.attempts[i].stage == Heard(Refused) ::
              TimesTyped(w.frames, id) == 0)
  {
    hide Run;
    StartIsSound(text);
    RunKeeps(text, Start, steps);
    var w := Run(text, Start, steps);
    TypedOnceAtMost(w.frames, id);
  }

  lemma StartIsSound(text: bool)
    ensures Sound(text, Start)
  {
  }

  /** A claim granted on a deleted session writes no row, and from the deletion on nothing more is handed over. */
  lemma {:induction false} LateClaimTypesNothing(text: bool, w: World, steps: seq<Step>)
    requires !w.ledger.sessionExists && w.ledger.rows == map[]
    ensures var b := Run(text, w, steps);
      && !b.ledger.sessionExists && b.ledger.rows == map[]
      && |b.frames| == |w.frames| && forall f | 0 <= f < |w.frames| :: b.frames[f].id == w.frames[f].id
    ensures forall i | 0 <= i < |w.attempts| && w.attempts[i].stage == Resolved ::
              Next(text, w, Claims(i)).attempts[i].stage == if text then HasClaim else Done(Gone)
    decreases |steps|
  {
    if steps != [] {
      hide Run;
      var front := steps[..|steps| - 1];
      LateClaimTypesNothing(text, w, front);
      OneMoreStep(text, w, steps);
    }
  }

  lemma OneMoreStep(text: bool, w: World, steps: seq<Step>)
    requires steps != []
    ensures Run(text, w, steps) == Next(text, Run(text, w, steps[..|steps| - 1]), steps[|steps| - 1])
  {
  }

  // ------------------------------------------------------- never typed again

  /** An id whose claim is settled or was left unknown. */
  predicate IsSpent(w: World, id: string) {
    w.ledger.sessionExists && id in w.ledger.rows && w.ledger.rows[id].status != Applying
  }

  lemma SpentStaysSpent(text: bool, w: World, step: Step, id: string)
    requires Sound(text, w) && IsSpent(w, id) && !step.SessionDeleted?
    ensures var b := Next(text, w, step);
      && IsSpent(b, id) && b.ledger.rows[id] == w.ledger.rows[id]
      && |w.frames| <= |b.frames|
      && (forall f | |w.frames| <= f < |b.frames| :: b.frames[f].id != id)
      && (forall f | 0 <= f < |w.frames| :: b.frames[f].id == w.frames[f].id)
  {
  }

  /**
   **A claim with an outcome, or with none to be known, is final.** Once an id is
   settled or left unknown, no later delivery, with any material, changes its record
   or hands the supervisor anything for it.
   */
  lemma {:induction false} SpentIsFinal(text: bool, w: World, steps: seq<Step>, id: string)
    requires Sound(text, w) && IsSpent(w, id)
    requires forall i | 0 <= i < |steps| :: !steps[i].SessionDeleted?
    ensures var b := Run(text, w, steps);
      && IsSpent(b, id) && b.ledger.rows[id] == w.ledger.rows[id]
      && |w.frames| <= |b.frames| && (forall f | |w.frames| <= f < |b.frames| :: b.frames[f].id != id)
    decreases |steps|
  {
    hide Sound, Next, IsSpent;
    if steps != [] {
      var front := steps[..|steps| - 1];
      SpentIsFinal(text, w, front, id);
      RunKeeps(text, w, front);
      SpentStaysSpent(text, Run(text, w, front), steps[|steps| - 1], id);
    }
  }

  /** A start after a crash leaves no claim that could still be taken for in progress. */
  lemma {:induction false} CrashLeavesNothingApplying(text: bool, w: World, id: string)
    ensures var b := Next(text, w, Crashes);
      && (id in b.ledger.rows <==> id in w.ledger.rows)
      && (id in w.ledger.rows ==>
            b.ledger.rows[id] == if w.ledger.rows[id].status == Applying
                                 then Row(w.ledger.rows[id].hash, Indeterminate) else w.ledger.rows[id])
  {
  }

  /** Same id, other material: refused whatever the record says. Same material: what was recorded. */
  lemma {:induction false} RepeatIsAnswered(text: bool, w: World, i: nat)
    requires i < |w.attempts| && w.attempts[i].stage == Resolved && w.attempts[i].id in w.ledger.rows
    ensures var b, row := Next(text, w, Claims(i)), w.ledger.rows[w.attempts[i].id];
      && b.ledger == w.ledger && b.frames == w.frames
      && b.attempts[i].stage == Done(
           if row.hash != w.attempts[i].hash then Reused
           else match row.status case Settled(matched) => Duplicate(matched) case _ => NotAgain)
  {
  }

  // ------------------------------------------------- what an outcome leaves on record

  /** No step of the run claims the id. */
  predicate NoneClaims(text: bool, w: World, steps: seq<Step>, id: string)
    decreases |steps|
  {
    steps == []
    || (&& NoneClaims(text, w, steps[..|steps| - 1], id)
        && var before, last := Run(text, w, steps[..|steps| - 1]), steps[|steps| - 1];
           last.Claims? && last.attempt < |before.attempts| ==> before.attempts[last.attempt].id != id)
  }

  /** An id is off the record, and no attempt holds its claim. */
  ghost predicate Free(w: World, id: string) {
    && id !in w.ledger.rows
    && forall i | 0 <= i < |w.attempts| && w.attempts[i].id == id :: !Owns(w.attempts[i])
  }

  lemma FreeStays(text: bool, w: World, step: Step, id: string)
    requires Free(w, id)
    requires step.Claims? && step.attempt < |w.attempts| ==> w.attempts[step.attempt].id != id
    ensures Free(Next(text, w, step), id)
  {
  }

  lemma {:induction false} FreeUntilClaimed(text: bool, w: World, steps: seq<Step>, id: string)
    requires Free(w, id) && NoneClaims(text, w, steps, id)
    ensures Free(Run(text, w, steps), id)
    decreases |steps|
  {
    if steps != [] {
      hide Next, Free;
      FreeUntilClaimed(text, w, steps[..|steps| - 1], id);
      FreeStays(text, Run(text, w, steps[..|steps| - 1]), steps[|steps| - 1], id);
    }
  }

  /**
   **A refusal gives the claim back**: over every run, with the session there, once a
   refusal is recorded the id is off the record, stays off it until it is claimed again,
   and whichever delivery claims it first, with whatever material, is granted it.
   */
  lemma {:induction false} RefusalGivesBack(text: bool, steps: seq<Step>, i: nat, more: seq<Step>, j: nat)
    requires var w := Run(text, Start, steps);
      w.ledger.sessionExists && i < |w.attempts| && w.attempts[i].stage == Heard(Refused)
    requires var w := Run(text, Start, steps); NoneClaims(text, Next(text, w, Records(i, true)), more, w.attempts[i].id)
    ensures var w := Run(text, Start, steps);
      var id, after := w.attempts[i].id, Run(text, Next(text, w, Records(i, true)), more);
      && id !in Next(text, w, Records(i, true)).ledger.rows && id !in after.ledger.rows
      && (after.ledger.sessionExists && j < |after.attempts| && after.attempts[j].id == id && after.attempts[j].stage == Resolved ==>
            && Next(text, after, Claims(j)).attempts[j].stage == HasClaim
            && Next(text, after, Claims(j)).ledger.rows
               == after.ledger.rows[id := Row(after.attempts[j].hash, Applying)])
  {
    hide Run, NoneClaims;
    StartIsSound(text);
    RunKeeps(text, Start, steps);
    var w := Run(text, Start, steps);
    RefusalFrees(text, w, i);
    FreeUntilClaimed(text, Next(text, w, Records(i, true)), more, w.attempts[i].id);
  }

  lemma RefusalFrees(text: bool, w: World, i: nat)
    requires Sound(text, w) && w.ledger.sessionExists && i < |w.attempts| && w.attempts[i].stage == Heard(Refused)
    ensures Free(Next(text, w, Records(i, true)), w.attempts[i].id)
  {
    var a, b := w.attempts[i], Next(text, w, Records(i, true));
    assert Owns(a);
    forall k | 0 <= k < |b.attempts| && b.attempts[k].id == a.id ensures !Owns(b.attempts[k]) {
      if k != i { assert w.attempts[k].id == a.id; }
    }
  }

  /**
   **A success is remembered**: over every run, with the session there, once a success is
   recorded the row reads what was matched, and every later delivery of the id is told
   that with the same material, and with other material that the id is another's.
   */
  lemma {:induction false} SuccessIsRemembered(text: bool, steps: seq<Step>, i: nat, matched: string, more: seq<Step>, j: nat)
    requires var w := Run(text, Start, steps);
      w.ledger.sessionExists && i < |w.attempts| && w.attempts[i].stage == Heard(Sent(matched))
    requires forall k | 0 <= k < |more| :: !more[k].SessionDeleted?
    ensures var w := Run(text, Start, steps);
      var a, after := w.attempts[i], Run(text, Next(text, w, Records(i, true)), more);
      && a.id in after.ledger.rows && after.ledger.rows[a.id] == Row(a.hash, Settled(matched))
      && (j < |after.attempts| && after.attempts[j].id == a.id && after.attempts[j].stage == Resolved ==>
            Next(text, after, Claims(j)).attempts[j].stage
            == Done(if after.attempts[j].hash == a.hash then Duplicate(matched) else Reused))
  {
    hide Run;
    StartIsSound(text);
    RunKeeps(text, Start, steps);
    var w := Run(text, Start, steps);
    SuccessSettles(text, w, i, matched);
    StepKeeps(text, w, Records(i, true));
    SpentIsFinal(text, Next(text, w, Records(i, true)), more, w.attempts[i].id);
  }

  lemma SuccessSettles(text: bool, w: World, i: nat, matched: string)
    requires Sound(text, w) && w.ledger.sessionExists && i < |w.attempts| && w.attempts[i].stage == Heard(Sent(matched))
    ensures var b, a := Next(text, w, Records(i, true)), w.attempts[i];
      IsSpent(b, a.id) && b.ledger.rows[a.id] == Row(a.hash, Settled(matched))
  {
    assert Owns(w.attempts[i]);
  }

  /**
   **An outcome nobody heard is never tried again**: over every run, with the session
   there, an id whose answer was lost, or whose record failed, stays claimed, and every
   delivery of it is told so; only its own material is told it is not known, and other
   material that the id is another's.
   */
  lemma {:induction false} UnheardIsNotRetried(text: bool, steps: seq<Step>, i: nat, written: bool, j: nat)
    requires var w := Run(text, Start, steps);
      && w.ledger.sessionExists && i < |w.attempts| && w.attempts[i].stage.Heard?
      && (w.attempts[i].stage == Heard(NeverKnown) || !written)
    ensures var w := Run(text, Start, steps);
      var a, b := w.attempts[i], Next(text, w, Records(i, written));
      && a.id in b.ledger.rows && b.ledger.rows[a.id] == Row(a.hash, Applying)
      && (j < |b.attempts| && b.attempts[j].id == a.id && b.attempts[j].stage == Resolved ==>
            Next(text, b, Claims(j)).attempts[j].stage == Done(if b.attempts[j].hash == a.hash then NotAgain else Reused))
  {
    hide Run;
    StartIsSound(text);
    RunKeeps(text, Start, steps);
    var w := Run(text, Start, steps);
    assert Owns(w.attempts[i]);
  }

  /**
   **A delivery nothing disturbs does what it says**: from every state a run reaches, with
   the session there and the id off the record, it is handed over once, with its own
   material, and typed or turned down; it is told which, and the record says the same.
   */
  lemma {:induction false} DeliveryLands(text: bool, steps: seq<Step>, id: string, hash: string, matched: string, types: bool)
    requires var w := Run(text, Start, steps); w.ledger.sessionExists && id !in w.ledger.rows
    ensures var w := Run(text, Start, steps);
      var n, f := |w.attempts|, |w.frames|;
      var claimed := Next(text, Next(text, w, Deliver(id, hash)), Claims(n));
      var handed := Next(text, claimed, HandsOver(n, true));
      var told := Next(text, Next(text, handed, if types then Types(f) else TurnsDown(f)), Hears(n, matched, false));
      var done := Next(text, told, Records(n, true));
      && handed.frames == w.frames + [Frame(id, hash, Waiting)]
      && done.frames == w.frames + [Frame(id, hash, if types then Typed else TurnedDown)]
      && |done.attempts| == n + 1 && done.attempts[n].stage == Done(Told(if types then Sent(matched) else Refused))
      && done.ledger.rows == if types then w.ledger.rows[id := Row(hash, Settled(matched))] else w.ledger.rows
  {
    hide Run;
    var w := Run(text, Start, steps);
    var n, f := |w.attempts|, |w.frames|;
    var a := Attempt(id, hash, Resolved);
    var claimed := Next(text, Next(text, w, Deliver(id, hash)), Claims(n));
    assert claimed == World(w.ledger.(rows := w.ledger.rows[id := Row(hash, Applying)]), w.attempts + [a.(stage := HasClaim)], w.frames);
    var handed := Next(text, claimed, HandsOver(n, true));
    assert handed == World(claimed.ledger, w.attempts + [a.(stage := WithSupervisor(f))], w.frames + [Frame(id, hash, Waiting)]);
    var fated := Next(text, handed, if types then Types(f) else TurnsDown(f));
    var fate := if types then Typed else TurnedDown;
    assert fated == handed.(frames := w.frames + [Frame(id, hash, fate)]);
    var told := Next(text, fated, Hears(n, matched, false));
    assert told.attempts == w.attempts + [a.(stage := Heard(if types then Sent(matched) else Refused))];
    if !types { assert claimed.ledger.rows - {id} == w.ledger.rows; }
  }
}
