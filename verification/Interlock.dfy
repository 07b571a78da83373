/**
 The supervisor typing into a pane a person may be using: `send_text`,
 `look_the_gates_run_on`, `authorise` and `recover_composer_with`
 (mac/codeconnect/src/supervisor.rs).

 What the pane shows at each look, whether the clock allows each step and how each
 keystroke fares are a `Hand` that may do anything between any two of them; a run is
 the trace of what the supervisor looked at and did.
 */
module Interlock {
  import opened Wrappers

  /** Who receives keys: the program, a view it opened, a bare scroll position, or another of tmux's modes. */
  datatype Keyboard = Program | View | CopyMode | OtherMode

  datatype Look = Look(pane: string, keyboard: Keyboard)

  datatype Seen = Failed | Saw(look: Look)

  /** How a keystroke fared: it landed, provably nothing did, or nobody can tell. */
  datatype Press = Landed | NothingLanded | Unclear

  datatype Act = Looks(seen: Seen) | LeavesCopyMode | Types(fared: Press) | Enters(fared: Press) | Keys(name: string)

  datatype Result = Refused | Sent | ComposerRecovered | ComposerLost | ViewConfirmed | RecoveryUnconfirmed | Error

  /** The n-th look, the n-th time the clock is asked, and how each keystroke fares. */
  datatype Hand = Hand(
    see: nat -> Seen, affords: nat -> bool, types: Press, enters: Press, keyed: bool, polls: nat)

  /** What the text is typed at: when it is drawn, whether it is the composer, when the screen asks something, and the row a confirmation needs. */
  datatype Target = Target(
    drawn: string -> bool, isComposer: bool, asking: string -> bool,
    expected: string -> bool, confirms: Option<string -> bool>)

  datatype Plan = Plan(clockReads: bool, submit: bool, recovers: bool)

  /** Drawn, and with the keyboard. */
  predicate Ready(t: Target, look: Look) { t.drawn(look.pane) && look.keyboard == Program }

  predicate MayLeaveCopyMode(t: Target, look: Look) {
    t.isComposer && look.keyboard == CopyMode && t.drawn(look.pane)
  }

  predicate Authorises(t: Target, look: Look) {
    t.drawn(look.pane) && (t.isComposer ==> look.keyboard == Program) && t.expected(look.pane)
  }

  predicate Confirms(t: Target, first: string, second: string, third: Look) {
    && t.confirms.Some? && t.confirms.value(third.pane)
    && third.pane == second == first && third.keyboard == View
  }

  // --------------------------------------------------------------- a run, as a value

  function GatesLook(t: Target, hand: Hand, first: Look): (Seen, seq<Act>) {
    if hand.affords(1) && MayLeaveCopyMode(t, first) then (hand.see(1), [LeavesCopyMode, Looks(hand.see(1))])
    else (Saw(first), [])
  }

  function VerifyRun(t: Target, hand: Hand, looks: nat, left: nat, confirming: bool): (Result, seq<Act>)
    decreases left
  {
    var seen := hand.see(looks);
    if seen.Saw? && Ready(t, seen.look) then (if confirming then ViewConfirmed else ComposerRecovered, [Looks(seen)])
    else if left == 0 then (if seen.Failed? || confirming then RecoveryUnconfirmed else ComposerLost, [Looks(seen)])
    else
      var (result, acts) := VerifyRun(t, hand, looks + 1, left - 1, confirming);
      (result, [Looks(seen)] + acts)
  }

  /** The key, and what came of it, after three looks. */
  function KeyRun(t: Target, hand: Hand, looks: nat, checks: nat, first: string, second: string, third: Look): (Result, seq<Act>) {
    if t.asking(third.pane) || t.asking(second) then (RecoveryUnconfirmed, [])
    else
      var confirming := Confirms(t, first, second, third);
      if !hand.affords(checks) then (RecoveryUnconfirmed, [])
      else
        var key := Keys(if confirming then "Enter" else "Escape");
        if !hand.keyed then (RecoveryUnconfirmed, [key])
        else
          var (result, acts) := VerifyRun(t, hand, looks, hand.polls, confirming);
          (result, [key] + acts)
  }

  function RecoverRun(t: Target, hand: Hand, looks: nat, checks: nat): (Result, seq<Act>) {
    if !hand.affords(checks) then (RecoveryUnconfirmed, [])
    else
      var one := hand.see(looks);
      if one.Failed? then (RecoveryUnconfirmed, [Looks(one)])
      else if Ready(t, one.look) then (Sent, [Looks(one)])
      else if !hand.affords(checks + 1) then (RecoveryUnconfirmed, [Looks(one)])
      else
        var two := hand.see(looks + 1);
        if two.Failed? then (RecoveryUnconfirmed, [Looks(one), Looks(two)])
        else if Ready(t, two.look) then (Sent, [Looks(one), Looks(two)])
        else if !hand.affords(checks + 2) then (RecoveryUnconfirmed, [Looks(one), Looks(two)])
        else
          var three := hand.see(looks + 2);
          if three.Failed? then (RecoveryUnconfirmed, [Looks(one), Looks(two), Looks(three)])
          else
            var (result, acts) := KeyRun(t, hand, looks + 3, checks + 3, one.look.pane, two.look.pane, three.look);
            (result, [Looks(one), Looks(two), Looks(three)] + acts)
  }

  /** From the keystrokes on. */
  function TypeRun(t: Target, plan: Plan, hand: Hand, looks: nat): (Result, seq<Act>) {
    match hand.types
    case NothingLanded => (Refused, [Types(NothingLanded)])
    case Unclear => (Error, [Types(Unclear)])
    case Landed =>
      if !plan.submit then (Sent, [Types(Landed)])
      else if hand.enters != Landed then (Error, [Types(Landed), Enters(hand.enters)])
      else if !plan.recovers then (Sent, [Types(Landed), Enters(Landed)])
      else
        var (result, acts) := RecoverRun(t, hand, looks, 3);
        (result, [Types(Landed), Enters(Landed)] + acts)
  }

  function SendRun(t: Target, plan: Plan, hand: Hand): (Result, seq<Act>) {
    if !plan.clockReads || !hand.affords(0) then (Refused, [])
    else
      var first := hand.see(0);
      if first.Failed? then (Refused, [Looks(first)])
      else
        var (seen, acts) := GatesLook(t, hand, first.look);
        if seen.Failed? || !Authorises(t, seen.look) || !hand.affords(2) then (Refused, [Looks(first)] + acts)
        else
          var (result, more) := TypeRun(t, plan, hand, 1 + if acts == [] then 0 else 1);
          (result, [Looks(first)] + acts + more)
  }

  // --------------------------------------------------------------- the supervisor

  /** The pane as the supervisor reaches it: each call is answered by the hand, and remembered. */
  class Desk {
    const hand: Hand
    var looks: nat
    var checks: nat
    ghost var trace: seq<Act>

    constructor (hand: Hand)
      ensures this.hand == hand && looks == 0 && checks == 0 && trace == []
    {
      this.hand, looks, checks, trace := hand, 0, 0, [];
    }

    method LookAtPane() returns (seen: Seen)
      modifies `looks, `trace
      ensures seen == hand.see(old(looks)) && looks == old(looks) + 1 && trace == old(trace) + [Looks(seen)]
    {
      seen := hand.see(looks);
      looks := looks + 1;
      trace := trace + [Looks(seen)];
    }

    method Affords() returns (yes: bool)
      modifies `checks
      ensures yes == hand.affords(old(checks)) && checks == old(checks) + 1
    {
      yes := hand.affords(checks);
      checks := checks + 1;
    }

    method LeaveCopyMode()
      modifies `trace
      ensures trace == old(trace) + [LeavesCopyMode]
    {
      trace := trace + [LeavesCopyMode];
    }

    method TypeText() returns (fared: Press)
      modifies `trace
      ensures fared == hand.types && trace == old(trace) + [Types(fared)]
    {
      fared := hand.types;
      trace := trace + [Types(fared)];
    }

    method PressEnter() returns (fared: Press)
      modifies `trace
      ensures fared == hand.enters && trace == old(trace) + [Enters(fared)]
    {
      fared := hand.enters;
      trace := trace + [Enters(fared)];
    }

    method SendKey(name: string) returns (sent: bool)
      modifies `trace
      ensures sent == hand.keyed && trace == old(trace) + [Keys(name)]
    {
      sent := hand.keyed;
      trace := trace + [Keys(name)];
    }

    /** The look that decides: the first, or one taken anew after copy mode was left. */
    method LookTheGatesRunOn(t: Target, first: Look, affordable: bool) returns (seen: Seen)
      requires looks == 1 && affordable == hand.affords(1)
      modifies `looks, `trace
      ensures var (s, acts) := GatesLook(t, hand, first);
        seen == s && trace == old(trace) + acts && looks == 1 + if acts == [] then 0 else 1
    {
      if !affordable || !MayLeaveCopyMode(t, first) { return Saw(first); }
      LeaveCopyMode();
      seen := LookAtPane();
    }

    method SendText(t: Target, plan: Plan) returns (result: Result)
      requires looks == 0 && checks == 0
      modifies this
      ensures result == SendRun(t, plan, hand).0 && trace == old(trace) + SendRun(t, plan, hand).1
    {
      hide RecoverRun, GatesLook;
      if !plan.clockReads { return Refused; }
      var worthLooking := Affords();
      if !worthLooking { return Refused; }
      var first := LookAtPane();
      if first.Failed? { return Refused; }
      var affordable := Affords();
      var seen := LookTheGatesRunOn(t, first.look, affordable);
      if seen.Failed? || !Authorises(t, seen.look) { return Refused; }
      var timely := Affords();
      if !timely { return Refused; }
      var typed := TypeText();
      if typed == NothingLanded { return Refused; }
      if typed == Unclear { return Error; }
      if !plan.submit { return Sent; }
      var entered := PressEnter();
      if entered != Landed { return Error; }
      if !plan.recovers { return Sent; }
      result := RecoverComposer(t);
    }

    /** After a slash command: look whether the composer is still there, and press for it if not. */
    method RecoverComposer(t: Target) returns (result: Result)
      modifies this
      ensures var (r, acts) := RecoverRun(t, hand, old(looks), old(checks));
        result == r && trace == old(trace) + acts
    {
      var allowed := Affords();
      if !allowed { return RecoveryUnconfirmed; }
      var one := LookAtPane();
      if one.Failed? { return RecoveryUnconfirmed; }
      if Ready(t, one.look) { return Sent; }
      allowed := Affords();
      if !allowed { return RecoveryUnconfirmed; }
      var two := LookAtPane();
      if two.Failed? { return RecoveryUnconfirmed; }
      if Ready(t, two.look) { return Sent; }
      allowed := Affords();
      if !allowed { return RecoveryUnconfirmed; }
      var three := LookAtPane();
      if three.Failed? { return RecoveryUnconfirmed; }
      result := SendOneKey(t, one.look.pane, two.look.pane, three.look);
    }

    method SendOneKey(t: Target, first: string, second: string, third: Look) returns (result: Result)
      modifies this
      ensures var (r, acts) := KeyRun(t, hand, old(looks), old(checks), first, second, third);
        result == r && trace == old(trace) + acts
    {
      if t.asking(third.pane) || t.asking(second) { return RecoveryUnconfirmed; }
      var confirming := Confirms(t, first, second, third);
      var allowed := Affords();
      if !allowed { return RecoveryUnconfirmed; }
      var sent := SendKey(if confirming then "Enter" else "Escape");
      if !sent { return RecoveryUnconfirmed; }
      result := Verify(t, confirming);
    }

    /** Looks until the composer is back or the window has passed. */
    method Verify(t: Target, confirming: bool) returns (result: Result)
      modifies `looks, `trace
      ensures var (r, acts) := VerifyRun(t, hand, old(looks), hand.polls, confirming);
        result == r && trace == old(trace) + acts
    {
      var left: nat := hand.polls;
      ghost var start := trace;
      ghost var whole := VerifyRun(t, hand, looks, hand.polls, confirming);
      while true
        invariant left <= hand.polls && looks == old(looks) + (hand.polls - left)
        invariant whole.0 == VerifyRun(t, hand, looks, left, confirming).0
        invariant start + whole.1 == trace + VerifyRun(t, hand, looks, left, confirming).1
        decreases left
      {
        ghost var before := trace;
        var seen := LookAtPane();
        assert before + ([Looks(seen)] + VerifyRun(t, hand, looks, if left == 0 then 0 else left - 1, confirming).1)
            == trace + VerifyRun(t, hand, looks, if left == 0 then 0 else left - 1, confirming).1;
        if seen.Saw? && Ready(t, seen.look) { return if confirming then ViewConfirmed else ComposerRecovered; }
        if left == 0 { return if seen.Failed? || confirming then RecoveryUnconfirmed else ComposerLost; }
        left := left - 1;
      }
    }
  }

  // ----------------------------------------------------------------- the promises

  /** The act before each is a look at the target drawn and as expected, and at a composer the program has the keys of. */
  ghost predicate TypedOnlyWhenAuthorised(t: Target, trace: seq<Act>) {
    forall i | 0 <= i < |trace| && trace[i].Types? ::
      && i > 0 && trace[i - 1].Looks? && trace[i - 1].seen.Saw?
      && var look := trace[i - 1].seen.look;
         t.drawn(look.pane) && t.expected(look.pane) && (t.isComposer ==> look.keyboard == Program)
  }

  /** tmux's own mode is left at most once, first, from exactly a scroll position with the composer drawn, and looked at again. */
  ghost predicate LeftOnlyFromCopyMode(t: Target, trace: seq<Act>) {
    forall i | 0 <= i < |trace| && trace[i].LeavesCopyMode? ::
      && i == 1 && trace[0].Looks? && trace[0].seen.Saw? && |trace| > 2 && trace[2].Looks?
      && var look := trace[0].seen.look;
         t.isComposer && t.drawn(look.pane) && look.keyboard == CopyMode
  }

  /** The look before a key, `back` acts earlier. */
  ghost predicate SawBefore(trace: seq<Act>, i: nat, back: nat)
    requires i < |trace|
  {
    back <= i && trace[i - back].Looks? && trace[i - back].seen.Saw?
  }

  /**
   A recovery key follows three looks in a row after the text: two without a ready
   composer, and the last two with nothing asked; and a key that commits follows a
   screen that has stood the same through all three, with the view holding the keys
   and the confirming row selected.
   */
  ghost predicate KeyedWithCare(t: Target, trace: seq<Act>, i: nat)
    requires i < |trace| && trace[i].Keys?
  {
    && SawBefore(trace, i, 1) && SawBefore(trace, i, 2) && SawBefore(trace, i, 3)
    && var one, two, three := trace[i - 3].seen.look, trace[i - 2].seen.look, trace[i - 1].seen.look;
       && !(t.drawn(one.pane) && one.keyboard == Program) && !(t.drawn(two.pane) && two.keyboard == Program)
       && !t.asking(two.pane) && !t.asking(three.pane)
       && i >= 5 && trace[i - 5] == Types(Landed) && trace[i - 4] == Enters(Landed)
       && trace[i].name == if t.confirms.Some? && t.confirms.value(three.pane)
                              && one.pane == two.pane == three.pane && three.keyboard == View
                           then "Enter" else "Escape"
  }

  lemma {:induction false} VerifyOnlyLooks(t: Target, hand: Hand, looks: nat, left: nat, confirming: bool)
    ensures forall i | 0 <= i < |VerifyRun(t, hand, looks, left, confirming).1| ::
              VerifyRun(t, hand, looks, left, confirming).1[i].Looks?
    ensures VerifyRun(t, hand, looks, left, confirming).0 in
              {ComposerRecovered, ViewConfirmed, ComposerLost, RecoveryUnconfirmed}
    decreases left
  {
    if left > 0 { VerifyOnlyLooks(t, hand, looks + 1, left - 1, confirming); }
  }

  /** Recovery types nothing and leaves no mode; its one key, if any, is the fourth act, after its three looks. */
  lemma {:induction false} RecoveryActs(t: Target, hand: Hand, looks: nat, checks: nat)
    ensures var (result, acts) := RecoverRun(t, hand, looks, checks);
      && result != Refused && result != Error
      && forall i | 0 <= i < |acts| ::
           && (acts[i].Looks? || acts[i].Keys?)
           && (acts[i].Keys? ==>
                 && i == 3 && acts[0].Looks? && acts[1].Looks? && acts[2].Looks?
                 && acts[0].seen.Saw? && acts[1].seen.Saw? && acts[2].seen.Saw?
                 && var one, two, three := acts[0].seen.look, acts[1].seen.look, acts[2].seen.look;
                    && !Ready(t, one) && !Ready(t, two) && !t.asking(two.pane) && !t.asking(three.pane)
                    && acts[i].name == if Confirms(t, one.pane, two.pane, three) then "Enter" else "Escape")
  {
    VerifyOnlyLooks(t, hand, looks + 3, hand.polls, true);
    VerifyOnlyLooks(t, hand, looks + 3, hand.polls, false);
    hide VerifyRun;
  }

  /** From the keystrokes on: the text first and once, and a key only as recovery sends one. */
  lemma {:induction false} TypingActs(t: Target, plan: Plan, hand: Hand, looks: nat)
    ensures var (result, acts) := TypeRun(t, plan, hand, looks);
      && acts != [] && acts[0] == Types(hand.types)
      && (result == Refused <==> hand.types == NothingLanded)
      && (result == Error ==> hand.types == Unclear || hand.types == Landed)
      && (result != Refused && result != Error ==> hand.types == Landed)
      && forall i | 0 < i < |acts| ::
           && !acts[i].Types? && !acts[i].LeavesCopyMode?
           && (acts[i].Keys? ==>
                 && i == 5 && hand.types == Landed && acts[1] == Enters(Landed)
                 && acts[2].Looks? && acts[3].Looks? && acts[4].Looks?
                 && acts[2].seen.Saw? && acts[3].seen.Saw? && acts[4].seen.Saw?
                 && var one, two, three := acts[2].seen.look, acts[3].seen.look, acts[4].seen.look;
                    && !Ready(t, one) && !Ready(t, two) && !t.asking(two.pane) && !t.asking(three.pane)
                    && acts[i].name == if Confirms(t, one.pane, two.pane, three) then "Enter" else "Escape")
  {
    RecoveryActs(t, hand, looks, 3);
    hide RecoverRun, Confirms, Ready;
    var (result, acts) := TypeRun(t, plan, hand, looks);
    var more := RecoverRun(t, hand, looks, 3).1;
    forall i | 2 <= i < |acts| ensures |acts| == |more| + 2 && acts[i] == more[i - 2] { }
  }

  /** The shape of every run: refused before anything is typed, or looks that end in one that authorises, then the typing. */
  lemma {:induction false} RunShape(t: Target, plan: Plan, hand: Hand) returns (looks: seq<Act>, from: nat, types: bool)
    ensures var (result, trace) := SendRun(t, plan, hand);
      && trace == looks + (if types then TypeRun(t, plan, hand, from).1 else [])
      && result == (if types then TypeRun(t, plan, hand, from).0 else Refused)
    ensures types ==> looks != [] && looks[|looks| - 1].Looks? && looks[|looks| - 1].seen.Saw?
                      && var look := looks[|looks| - 1].seen.look;
                         t.drawn(look.pane) && t.expected(look.pane) && (t.isComposer ==> look.keyboard == Program)
    ensures forall i | 0 <= i < |looks| :: looks[i].Looks? || looks[i].LeavesCopyMode?
    ensures LeftOnlyFromCopyMode(t, looks)
  {
    hide TypeRun;
    looks, from, types := [], 0, false;
    if plan.clockReads && hand.affords(0) {
      var first := hand.see(0);
      looks := [Looks(first)];
      if first.Saw? {
        var (seen, acts) := GatesLook(t, hand, first.look);
        looks := looks + acts;
        types := seen.Saw? && Authorises(t, seen.look) && hand.affords(2);
        from := 1 + if acts == [] then 0 else 1;
      }
    }
  }

  /**
   **Whatever hand is on the pane**, between any two of its looks: text is typed at most
   once, straight after a look that authorises it; a tmux mode is left at most once, and
   only a bare scroll position; at most one recovery key is sent, with care; and the
   answer is true: a refusal has typed nothing, and a send has.
   */
  lemma {:induction false} InterlockHolds(t: Target, plan: Plan, hand: Hand)
    ensures var (result, trace) := SendRun(t, plan, hand);
      && TypedOnlyWhenAuthorised(t, trace) && LeftOnlyFromCopyMode(t, trace)
      && (forall i, j | 0 <= i < j < |trace| && trace[i].Types? :: !trace[j].Types?)
      && (forall i, j | 0 <= i < j < |trace| && trace[i].Keys? :: !trace[j].Keys?)
      && (forall i | 0 <= i < |trace| && trace[i].Keys? :: KeyedWithCare(t, trace, i))
      && (result == Refused ==> forall i | 0 <= i < |trace| && trace[i].Types? :: trace[i].fared == NothingLanded)
      && (result != Refused && result != Error ==> exists i :: 0 <= i < |trace| && trace[i] == Types(Landed))
  {
    var looks, from, types := RunShape(t, plan, hand);
    TypingActs(t, plan, hand, from);
    hide SendRun, TypeRun;
    var (result, trace) := SendRun(t, plan, hand);
    var acts := if types then TypeRun(t, plan, hand, from).1 else [];
    var n := |looks|;
    forall i | 0 <= i < |trace| ensures trace[i] == if i < n then looks[i] else acts[i - n] { }
    if types { assert trace[n] == Types(hand.types); }
  }

  /**
   **A send types exactly when it may**: the clock reads and leaves room for each step, and
   the look that decides shows the target drawn and as expected, and a composer with the
   program at the keys. That look is the first, or, where the first found the drawn
   composer behind a bare scroll position and there was room to leave it, the second.
   */
  lemma {:induction false} TypesExactly(t: Target, plan: Plan, hand: Hand)
    ensures (exists i :: 0 <= i < |SendRun(t, plan, hand).1| && SendRun(t, plan, hand).1[i].Types?) <==>
      && plan.clockReads && hand.affords(0) && hand.affords(2) && hand.see(0).Saw?
      && var first := hand.see(0).look;
         var leaves := hand.affords(1) && t.isComposer && first.keyboard == CopyMode && t.drawn(first.pane);
         && (leaves ==> hand.see(1).Saw?)
         && var look := if leaves then hand.see(1).look else first;
            t.drawn(look.pane) && t.expected(look.pane) && (t.isComposer ==> look.keyboard == Program)
    ensures (exists i :: 0 <= i < |SendRun(t, plan, hand).1| && SendRun(t, plan, hand).1[i].LeavesCopyMode?) <==>
      && plan.clockReads && hand.affords(0) && hand.affords(1) && hand.see(0).Saw?
      && t.isComposer && hand.see(0).look.keyboard == CopyMode && t.drawn(hand.see(0).look.pane)
  {
    var trace := SendRun(t, plan, hand).1;
    if plan.clockReads && hand.affords(0) && hand.see(0).Saw? {
      var (seen, acts) := GatesLook(t, hand, hand.see(0).look);
      var from := 1 + if acts == [] then 0 else 1;
      TypingActs(t, plan, hand, from);
      hide TypeRun;
      var more := TypeRun(t, plan, hand, from).1;
      if acts != [] { assert trace[1] == LeavesCopyMode; }
      if |trace| > 1 + |acts| {
        assert trace == [Looks(hand.see(0))] + acts + more;
        assert trace[1 + |acts|] == more[0];
        assert forall i | 1 + |acts| <= i < |trace| :: trace[i] == more[i - 1 - |acts|];
      }
    }
  }

  /**
   **Recovery presses exactly when it must, and answers what it saw**: from its `n`-th look,
   a key goes out when two looks found no ready composer, a third was had, the screen asks
   nothing and the clock leaves room throughout. `Sent` means one of the first two looks
   found the composer; recovered or confirmed, that the last one did; lost, that the last
   did not.
   */
  lemma {:induction false} RecoveryIsExact(t: Target, hand: Hand, n: nat, checks: nat)
    ensures var (result, acts) := RecoverRun(t, hand, n, checks);
      && ((exists i :: 0 <= i < |acts| && acts[i].Keys?) <==>
            && hand.affords(checks) && hand.affords(checks + 1) && hand.affords(checks + 2) && hand.affords(checks + 3)
            && hand.see(n).Saw? && hand.see(n + 1).Saw? && hand.see(n + 2).Saw?
            && !(t.drawn(hand.see(n).look.pane) && hand.see(n).look.keyboard == Program)
            && !(t.drawn(hand.see(n + 1).look.pane) && hand.see(n + 1).look.keyboard == Program)
            && !t.asking(hand.see(n + 1).look.pane) && !t.asking(hand.see(n + 2).look.pane))
      && (result == Sent ==> |acts| in {1, 2} && LastReady(t, acts))
      && (result in {ComposerRecovered, ViewConfirmed} ==> |acts| > 4 && LastReady(t, acts) && acts[3].Keys?)
      && (result == ViewConfirmed ==> acts[3] == Keys("Enter"))
      && (result in {ComposerRecovered, ComposerLost} ==> |acts| > 4 && acts[3] == Keys("Escape"))
      && (result == ComposerLost ==> acts[|acts| - 1].Looks? && acts[|acts| - 1].seen.Saw? && !LastReady(t, acts))
  {
    VerifyEnds(t, hand, n + 3, hand.polls, true);
    VerifyEnds(t, hand, n + 3, hand.polls, false);
    hide VerifyRun;
    var acts := RecoverRun(t, hand, n, checks).1;
    if |acts| > 3 { assert acts[3].Keys?; }
  }

  /** The last act is a look that found the composer drawn and the program at the keys. */
  predicate LastReady(t: Target, acts: seq<Act>) {
    && acts != [] && acts[|acts| - 1].Looks? && acts[|acts| - 1].seen.Saw?
    && t.drawn(acts[|acts| - 1].seen.look.pane) && acts[|acts| - 1].seen.look.keyboard == Program
  }

  lemma {:induction false} VerifyEnds(t: Target, hand: Hand, looks: nat, left: nat, confirming: bool)
    ensures var (result, acts) := VerifyRun(t, hand, looks, left, confirming);
      && acts != [] && (forall i | 0 <= i < |acts| :: acts[i].Looks?)
      && (result == ViewConfirmed <==> confirming && LastReady(t, acts))
      && (result == ComposerRecovered <==> !confirming && LastReady(t, acts))
      && (result == ComposerLost ==> !confirming && acts[|acts| - 1].seen.Saw?)
      && result in {ComposerRecovered, ViewConfirmed, ComposerLost, RecoveryUnconfirmed}
    decreases left
  {
    var seen := hand.see(looks);
    if left > 0 && !(seen.Saw? && Ready(t, seen.look)) { VerifyEnds(t, hand, looks + 1, left - 1, confirming); }
  }

  /** Text that landed is submitted exactly when it is to be, with one Enter, right after it. */
  lemma {:induction false} SubmitsExactly(t: Target, plan: Plan, hand: Hand, looks: nat)
    ensures var acts := TypeRun(t, plan, hand, looks).1;
      && (hand.types == Landed && plan.submit <==> |acts| > 1)
      && (|acts| > 1 ==> acts[1] == Enters(hand.enters))
      && (forall i | 0 <= i < |acts| && acts[i].Enters? :: i == 1)
  {
    RecoveryActs(t, hand, looks, 3);
    hide RecoverRun;
    var acts, more := TypeRun(t, plan, hand, looks).1, RecoverRun(t, hand, looks, 3).1;
    forall i | 2 <= i < |acts| ensures |acts| == |more| + 2 && acts[i] == more[i - 2] { }
  }
}
