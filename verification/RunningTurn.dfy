/**
 Which turn Stop would name: `CodexTurnTracker.runningTurn`
 (CodeConnectKit/Sources/CodeConnectKit/CodexWire.swift).
 */
module RunningTurn {
  import opened Wrappers

  /** An event's turn, if it names one, and whether it is that turn's terminal. */
  datatype Event = Event(turn: Option<string>, terminal: bool)

  predicate Names(e: Event, turn: string) { e.turn == Some(turn) && turn != "" }

  datatype Scan = Scan(candidate: Option<string>, ended: set<string>)

  function Scanned(s: Scan, e: Event): Scan {
    if e.turn.None? || e.turn.value == "" then s
    else if e.terminal then
      Scan(if s.candidate == e.turn then None else s.candidate, s.ended + {e.turn.value})
    else if e.turn.value in s.ended then s
    else s.(candidate := e.turn)
  }

  function ScanAll(events: seq<Event>, known: set<string>): Scan {
    if events == [] then Scan(None, known) else Scanned(ScanAll(events[..|events| - 1], known), events[|events| - 1])
  }

  /** `observed.last(where:)`: the newest observation no terminal and no abort names. */
  function LastLive(observed: seq<string>, over: set<string>): Option<string> {
    if observed == [] then None
    else if observed[|observed| - 1] !in over then Some(observed[|observed| - 1])
    else LastLive(observed[..|observed| - 1], over)
  }

  function Running(events: seq<Event>, observed: seq<string>, retired: set<string>, known: set<string>): Option<string> {
    var scan := ScanAll(events, known);
    var candidate := if scan.candidate.Some? then scan.candidate else LastLive(observed, retired + scan.ended);
    if candidate.Some? && candidate.value in retired then None else candidate
  }

  method FindRunningTurn(events: seq<Event>, observed: seq<string>, retired: set<string>, knownEnded: set<string>)
    returns (turn: Option<string>)
    ensures turn == Running(events, observed, retired, knownEnded)
  {
    var candidate: Option<string> := None;
    var ended := knownEnded;
    for i := 0 to |events|
      invariant Scan(candidate, ended) == ScanAll(events[..i], knownEnded)
    {
      assert events[..i + 1][..i] == events[..i];
      var named := events[i].turn;
      if named.None? || named.value == "" { continue; }
      if events[i].terminal {
        ended := ended + {named.value};
        if candidate == named { candidate := None; }
        continue;
      }
      if named.value in ended { continue; }
      candidate := named;
    }
    assert events[..|events|] == events;
    if candidate.None? {
      var i: nat := |observed|;
      assert observed[..i] == observed;
      while i > 0
        invariant i <= |observed| && LastLive(observed, retired + ended) == LastLive(observed[..i], retired + ended)
        invariant candidate.None?
      {
        assert observed[..i][..i - 1] == observed[..i - 1];
        if observed[i - 1] !in retired && observed[i - 1] !in ended {
          candidate := Some(observed[i - 1]);
          break;
        }
        i := i - 1;
      }
    }
    if candidate.Some? && candidate.value in retired { return None; }
    turn := candidate;
  }

  // ---------------------------------------------------------- what the scan means

  /** A terminal for `turn` stands among the first `k` events. */
  ghost predicate EndedBy(events: seq<Event>, k: nat, turn: string) {
    exists j :: 0 <= j < k && j < |events| && Names(events[j], turn) && events[j].terminal
  }

  /** The event at `i` names a turn that had not ended by then. */
  ghost predicate Runs(events: seq<Event>, known: set<string>, i: nat, turn: string)
    requires i < |events|
  {
    Names(events[i], turn) && !events[i].terminal && turn !in known && !EndedBy(events, i, turn)
  }

  /** The newest event to name a turn that had not ended names this one, and nothing has ended it since. */
  ghost predicate IsRunning(events: seq<Event>, known: set<string>, i: nat, turn: string)
    requires i < |events|
  {
    && Runs(events, known, i, turn) && !EndedBy(events, |events|, turn)
    && forall k, other | i < k < |events| :: !Runs(events, known, k, other)
  }

  lemma EndedLater(events: seq<Event>, e: Event, k: nat, turn: string)
    requires k <= |events|
    ensures EndedBy(events + [e], k, turn) <==> EndedBy(events, k, turn)
    ensures EndedBy(events + [e], |events| + 1, turn)
       <==> EndedBy(events, |events|, turn) || (Names(e, turn) && e.terminal)
  {
    var longer := events + [e];
    if j :| 0 <= j < k && Names(events[j], turn) && events[j].terminal { assert longer[j] == events[j]; }
    if j :| 0 <= j < |events| && Names(events[j], turn) && events[j].terminal { assert longer[j] == events[j]; }
    if j :| 0 <= j < k && Names(longer[j], turn) && longer[j].terminal { assert longer[j] == events[j]; }
    if j :| 0 <= j < |longer| && Names(longer[j], turn) && longer[j].terminal {
      if j < |events| { assert longer[j] == events[j]; }
    }
    assert longer[|events|] == e;
  }

  lemma RunsLater(events: seq<Event>, e: Event, known: set<string>, i: nat, turn: string)
    requires i <= |events|
    ensures i < |events| ==> Runs(events + [e], known, i, turn) == Runs(events, known, i, turn)
    ensures i == |events| ==>
              Runs(events + [e], known, i, turn)
              == (Names(e, turn) && !e.terminal && turn !in known && !EndedBy(events, |events|, turn))
  {
    EndedLater(events, e, i, turn);
  }

  /** The turns the scan holds ended are those known ended and those with a terminal. */
  lemma {:induction false} EndedIs(events: seq<Event>, known: set<string>, turn: string)
    ensures turn in ScanAll(events, known).ended <==> turn in known || EndedBy(events, |events|, turn)
    decreases |events|
  {
    if events != [] {
      var front, e := events[..|events| - 1], events[|events| - 1];
      EndedIs(front, known, turn);
      EndedLater(front, e, |front|, turn);
      assert events == front + [e];
    }
  }

  /** The scan's candidate is the running turn, whichever there is. */
  lemma {:induction false} CandidateIs(events: seq<Event>, known: set<string>, turn: string)
    ensures ScanAll(events, known).candidate == Some(turn)
       <==> exists i: nat :: i < |events| && IsRunning(events, known, i, turn)
    decreases |events|
  {
    if events == [] { return; }
    var front, e := events[..|events| - 1], events[|events| - 1];
    assert events == front + [e];
    CandidateIs(front, known, turn);
    EndedIs(front, known, turn);
    if e.turn.Some? { EndedIs(front, known, e.turn.value); }
    EndedLater(front, e, |front|, turn);
    if ScanAll(events, known).candidate == Some(turn) {
      if e.turn == Some(turn) {
        RunsLater(front, e, known, |front|, turn);
        StraggleOrRun(front, e, known, turn);
      } else {
        StaysRunning(front, e, known, turn);
      }
    }
    if i: nat :| i < |events| && IsRunning(events, known, i, turn) {
      WasRunning(front, e, known, i, turn);
    }
  }

  /** Named last: it runs from there, or it ran already and this is its straggler. */
  lemma StraggleOrRun(front: seq<Event>, e: Event, known: set<string>, turn: string)
    requires e.turn == Some(turn) && turn != "" && !e.terminal
    requires turn !in known && !EndedBy(front, |front|, turn)
    ensures IsRunning(front + [e], known, |front|, turn)
  {
    RunsLater(front, e, known, |front|, turn);
    EndedLater(front, e, |front|, turn);
  }

  /** An event that names no other live turn, and does not end this one, leaves it running. */
  lemma StaysRunning(front: seq<Event>, e: Event, known: set<string>, turn: string)
    requires exists i: nat :: i < |front| && IsRunning(front, known, i, turn)
    requires e.turn != Some(turn)
    requires e.turn.Some? && e.turn.value != "" && !e.terminal ==>
               e.turn.value in known || EndedBy(front, |front|, e.turn.value)
    ensures exists i: nat :: i < |front + [e]| && IsRunning(front + [e], known, i, turn)
  {
    var i: nat :| i < |front| && IsRunning(front, known, i, turn);
    RunsLater(front, e, known, i, turn);
    EndedLater(front, e, |front|, turn);
    forall k, other | i < k < |front + [e]| ensures !Runs(front + [e], known, k, other) {
      RunsLater(front, e, known, k, other);
    }
    assert IsRunning(front + [e], known, i, turn);
  }

  lemma WasRunning(front: seq<Event>, e: Event, known: set<string>, i: nat, turn: string)
    requires i <= |front| && IsRunning(front + [e], known, i, turn)
    requires (exists k: nat :: k < |front| && IsRunning(front, known, k, turn)) ==> ScanAll(front, known).candidate == Some(turn)
    ensures ScanAll(front + [e], known).candidate == Some(turn)
  {
    var events := front + [e];
    assert events[..|events| - 1] == front;
    EndedIs(front, known, turn);
    EndedLater(front, e, |front|, turn);
    if e.turn.Some? { EndedIs(front, known, e.turn.value); }
    if i < |front| {
      RunsLater(front, e, known, i, turn);
      forall k, other | i < k < |front| ensures !Runs(front, known, k, other) {
        RunsLater(front, e, known, k, other);
        assert !Runs(events, known, k, other);
      }
      assert IsRunning(front, known, i, turn);
      if e.turn.Some? {
        RunsLater(front, e, known, |front|, e.turn.value);
        assert !Runs(events, known, |front|, e.turn.value);
      }
    } else {
      RunsLater(front, e, known, |front|, turn);
    }
  }

  lemma {:induction false} LastLiveIs(observed: seq<string>, over: set<string>)
    ensures LastLive(observed, over).None? <==> forall i | 0 <= i < |observed| :: observed[i] in over
    ensures LastLive(observed, over).Some? ==>
              && LastLive(observed, over).value !in over
              && exists i :: 0 <= i < |observed| && observed[i] == LastLive(observed, over).value
                             && forall k | i < k < |observed| :: observed[k] in over
    decreases |observed|
  {
    if observed != [] {
      var front := observed[..|observed| - 1];
      LastLiveIs(front, over);
      if observed[|observed| - 1] in over && LastLive(front, over).Some? {
        var i :| 0 <= i < |front| && front[i] == LastLive(front, over).value && forall k | i < k < |front| :: front[k] in over;
        assert observed[i] == front[i];
        assert forall k | i < k < |observed| :: k < |front| ==> observed[k] == front[k];
      }
    }
  }

  /**
   **The turn Stop names is never one that is over**: not one with a terminal anywhere
   in the events, however late an observation of it came, nor one known to have ended,
   nor one the Mac said it aborted. A turn still running in the events is it, whatever
   was observed; with none, it is the newest observation nothing has ended.
   */
  lemma {:induction false} RunningTurnIsLive(events: seq<Event>, observed: seq<string>, retired: set<string>, known: set<string>)
    ensures var turn := Running(events, observed, retired, known);
      && (turn.Some? ==>
            turn.value !in retired && turn.value !in known && !EndedBy(events, |events|, turn.value))
      && (forall i: nat, t | i < |events| && IsRunning(events, known, i, t) ::
            turn == if t in retired then None else Some(t))
      && ((forall i: nat, t | i < |events| :: !IsRunning(events, known, i, t)) ==>
            && (turn.None? <==> forall k | 0 <= k < |observed| ::
                  observed[k] in retired || observed[k] in known || EndedBy(events, |events|, observed[k]))
            && (turn.Some? ==>
                  (exists k :: 0 <= k < |observed| && observed[k] == turn.value
                    && (forall n | k < n < |observed| ::
                          observed[n] in retired || observed[n] in known || EndedBy(events, |events|, observed[n])))))
  {
    hide IsRunning, EndedBy;
    var scan := ScanAll(events, known);
    var turn := Running(events, observed, retired, known);
    forall t ensures t in scan.ended <==> t in known || EndedBy(events, |events|, t) { EndedIs(events, known, t); }
    forall t ensures scan.candidate == Some(t) <==> exists i: nat :: i < |events| && IsRunning(events, known, i, t) {
      CandidateIs(events, known, t);
    }
    LastLiveIs(observed, retired + scan.ended);
    forall i: nat, t | i < |events| && IsRunning(events, known, i, t) ensures scan.candidate == Some(t) { }
    assert forall t :: t in retired + scan.ended <==> t in retired || t in known || EndedBy(events, |events|, t);
    if scan.candidate.Some? {
      var i: nat :| i < |events| && IsRunning(events, known, i, scan.candidate.value);
      RunningIsLive(events, known, i, scan.candidate.value);
    }
  }

  lemma RunningIsLive(events: seq<Event>, known: set<string>, i: nat, turn: string)
    requires i < |events| && IsRunning(events, known, i, turn)
    ensures turn !in known && !EndedBy(events, |events|, turn)
  {
  }

  /** Another turn's terminal clears nothing. */
  lemma {:induction false} OnlyItsOwnTerminal(events: seq<Event>, e: Event, known: set<string>)
    requires e.terminal && ScanAll(events, known).candidate.Some?
    ensures ScanAll(events + [e], known).candidate
         == if e.turn == ScanAll(events, known).candidate && e.turn.value != "" then None else ScanAll(events, known).candidate
  {
    assert (events + [e])[..|events|] == events;
  }
}
