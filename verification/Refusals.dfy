/**
 Which of the daemon's refusal sentences one is: `CodexRefusals.matches` and `match`
 (CodeConnectKit/Sources/CodeConnectKit/CodexRefusals.swift). A template is literal
 segments with tokens between them; the search takes each segment at its first
 occurrence after the one before.
 */
module Refusals {
  import opened Wrappers

  datatype Sentence = Sentence(id: string, greys: bool, segments: seq<string>, startsWithToken: bool, endsWithToken: bool)

  predicate OccursAt(text: string, part: string, at: nat) {
    at + |part| <= |text| && text[at..at + |part|] == part
  }

  /** The first occurrence of `part` at or after `from`. */
  function FirstAt(text: string, part: string, from: nat): (r: Option<nat>)
    ensures r.Some? ==> from <= r.value && OccursAt(text, part, r.value)
                        && forall at | from <= at < r.value :: !OccursAt(text, part, at)
    ensures r.None? ==> forall at | from <= at :: !OccursAt(text, part, at)
    decreases |text| - from
  {
    if from + |part| > |text| then None
    else if OccursAt(text, part, from) then Some(from)
    else FirstAt(text, part, from + 1)
  }

  // --------------------------------------------------- what a template means

  /**
   Some filling of the tokens makes the template the rest of the text: the segments
   stand in order, with nothing before the first where it is `pinned`, and nothing
   after the last unless the template's end is `open`.
   */
  ghost predicate Fits(text: string, segments: seq<string>, from: nat, pinned: bool, open: bool)
    decreases |segments|
  {
    if segments == [] then open || from == |text|
    else
      exists at: nat ::
        && from <= at && (pinned ==> at == from) && OccursAt(text, segments[0], at)
        && Fits(text, segments[1..], at + |segments[0]|, false, open)
  }

  /** A template with its tokens filled: the values go between the segments, and outside them where it starts or ends with a token. */
  function Filled(segments: seq<string>, values: seq<string>): string
    requires |values| == |segments| + 1
  {
    if segments == [] then values[0] else values[0] + segments[0] + Filled(segments[1..], values[1..])
  }

  predicate Fills(segments: seq<string>, values: seq<string>, pinned: bool, open: bool) {
    && |values| == |segments| + 1
    && (pinned ==> values[0] == "") && (!open ==> values[|values| - 1] == "")
  }

  // --------------------------------------------------------------- the search

  function Greedy(text: string, segments: seq<string>, from: nat, pinned: bool, open: bool): bool
    decreases |segments|
  {
    if segments == [] then true
    else
      match FirstAt(text, segments[0], from)
      case None => false
      case Some(at) =>
        if pinned && at != from then false
        else if |segments| == 1 && !open && at + |segments[0]| != |text| then false
        else Greedy(text, segments[1..], at + |segments[0]|, false, open)
  }

  function Matching(text: string, s: Sentence): bool {
    s.segments != [] && Greedy(text, s.segments, 0, !s.startsWithToken, s.endsWithToken)
  }

  method Find(text: string, part: string, from: nat) returns (found: Option<nat>)
    ensures found == FirstAt(text, part, from)
  {
    var at := from;
    while at + |part| <= |text|
      invariant from <= at && FirstAt(text, part, from) == FirstAt(text, part, at)
      decreases |text| - at
    {
      if text[at..at + |part|] == part { return Some(at); }
      at := at + 1;
    }
    return None;
  }

  lemma OneSegment(text: string, segments: seq<string>, from: nat, pinned: bool, open: bool)
    requires segments != []
    ensures Greedy(text, segments, from, pinned, open) ==
      match FirstAt(text, segments[0], from)
      case None => false
      case Some(at) =>
        && !(pinned && at != from)
        && !(|segments| == 1 && !open && at + |segments[0]| != |text|)
        && Greedy(text, segments[1..], at + |segments[0]|, false, open)
  {
  }

  lemma NoSegment(text: string, from: nat, open: bool)
    ensures Greedy(text, [], from, false, open)
  {
  }

  /** `matches`, as the loop it is. */
  method Matches(text: string, s: Sentence) returns (fits: bool)
    ensures fits == Matching(text, s)
  {
    if s.segments == [] { return false; }
    hide FirstAt, Greedy, OccursAt;
    var cursor: nat := 0;
    ghost var rest, pinned := s.segments, !s.startsWithToken;
    for index := 0 to |s.segments|
      invariant rest == s.segments[index..] && pinned == (index == 0 && !s.startsWithToken)
      invariant index == 0 ==> cursor == 0
      invariant Greedy(text, s.segments, 0, !s.startsWithToken, s.endsWithToken)
             == Greedy(text, rest, cursor, pinned, s.endsWithToken)
    {
      var segment := s.segments[index];
      OneSegment(text, rest, cursor, pinned, s.endsWithToken);
      var found := Find(text, segment, cursor);
      if found.None? { return false; }
      if index == 0 && !s.startsWithToken && found.value != 0 { return false; }
      if index == |s.segments| - 1 && !s.endsWithToken && found.value + |segment| != |text| { return false; }
      cursor, rest, pinned := found.value + |segment|, rest[1..], false;
    }
    assert rest == [];
    NoSegment(text, cursor, s.endsWithToken);
    return true;
  }

  function Weight(segments: seq<string>): nat {
    if segments == [] then 0 else Weight(segments[..|segments| - 1]) + |segments[|segments| - 1]|
  }

  method WeightOf(s: Sentence) returns (weight: nat)
    ensures weight == Weight(s.segments)
  {
    weight := 0;
    for i := 0 to |s.segments|
      invariant weight == Weight(s.segments[..i])
    {
      assert s.segments[..i + 1][..i] == s.segments[..i];
      weight := weight + |s.segments[i]|;
    }
    assert s.segments[..|s.segments|] == s.segments;
  }

  /** `match`: of the rows that match, one with the most literal text, and the first of those. */
  method Match(all: seq<Sentence>, text: string) returns (row: Option<nat>)
    ensures row.None? <==> forall i | 0 <= i < |all| :: !Matching(text, all[i])
    ensures row.Some? ==>
              && row.value < |all| && Matching(text, all[row.value])
              && (forall i | 0 <= i < |all| && Matching(text, all[i]) ::
                    Weight(all[i].segments) <= Weight(all[row.value].segments))
              && (forall i | 0 <= i < row.value && Matching(text, all[i]) ::
                    Weight(all[i].segments) < Weight(all[row.value].segments))
  {
    row := None;
    var heaviest: nat := 0;
    for i := 0 to |all|
      invariant row.None? <==> forall k | 0 <= k < i :: !Matching(text, all[k])
      invariant row.Some? ==>
                  && row.value < i && Matching(text, all[row.value]) && heaviest == Weight(all[row.value].segments)
                  && (forall k | 0 <= k < i && Matching(text, all[k]) :: Weight(all[k].segments) <= heaviest)
                  && (forall k | 0 <= k < row.value && Matching(text, all[k]) :: Weight(all[k].segments) < heaviest)
    {
      var fits := Matches(text, all[i]);
      if fits {
        var weight := WeightOf(all[i]);
        if row.None? || heaviest < weight { row, heaviest := Some(i), weight; }
      }
    }
  }

  // ------------------------------------------------- what it finds, exactly

  /** The search never claims a sentence no filling makes. */
  lemma {:induction false} SearchIsSound(text: string, segments: seq<string>, from: nat, pinned: bool, open: bool)
    requires Greedy(text, segments, from, pinned, open) && segments != []
    ensures Fits(text, segments, from, pinned, open)
    decreases |segments|
  {
    var at := FirstAt(text, segments[0], from).value;
    if |segments| > 1 {
      SearchIsSound(text, segments[1..], at + |segments[0]|, false, open);
    }
    assert Fits(text, segments[1..], at + |segments[0]|, false, open);
  }

  /** Where the search stands before the last segment: the earliest end the others leave. */
  function BeforeLast(text: string, segments: seq<string>, from: nat): Option<nat>
    requires segments != []
    decreases |segments|
  {
    if |segments| == 1 then Some(from)
    else
      match FirstAt(text, segments[0], from)
      case None => None
      case Some(at) => BeforeLast(text, segments[1..], at + |segments[0]|)
  }

  /**
   The last segment's text does not also stand earlier, past where the search left the
   others: the one thing a first occurrence can get wrong.
   */
  predicate TailStandsOnce(text: string, segments: seq<string>, from: nat)
    requires segments != []
  {
    var last, start := segments[|segments| - 1], BeforeLast(text, segments, from);
    start.Some? ==>
      FirstAt(text, last, start.value).Some? ==> FirstAt(text, last, start.value).value + |last| == |text|
  }

  /** A text that fits from later on fits from earlier, unless the start is pinned. */
  lemma {:induction false} FitsFromEarlier(text: string, segments: seq<string>, from: nat, later: nat, open: bool)
    requires from <= later && segments != [] && Fits(text, segments, later, false, open)
    ensures Fits(text, segments, from, false, open)
  {
    var at: nat :| later <= at && OccursAt(text, segments[0], at)
                   && Fits(text, segments[1..], at + |segments[0]|, false, open);
    assert from <= at;
  }

  /** What the search accepts has its tail standing once. */
  lemma {:induction false} SearchEndsAtTail(text: string, segments: seq<string>, from: nat, pinned: bool, open: bool)
    requires segments != [] && Greedy(text, segments, from, pinned, open) && !open
    ensures TailStandsOnce(text, segments, from)
    decreases |segments|
  {
    if |segments| > 1 {
      LastOfRest(text, segments, from);
      SearchEndsAtTail(text, segments[1..], FirstAt(text, segments[0], from).value + |segments[0]|, false, open);
    }
  }

  /** Taking each segment at its first occurrence loses no filling, but for the tail. */
  lemma {:induction false} SearchLosesNothing(text: string, segments: seq<string>, from: nat, pinned: bool, open: bool)
    requires segments != [] && Fits(text, segments, from, pinned, open)
    requires open || TailStandsOnce(text, segments, from)
    ensures Greedy(text, segments, from, pinned, open)
    decreases |segments|
  {
    hide TailStandsOnce, Fits;
    var at := FitsSplits(text, segments, from, pinned, open);
    var first := FirstAt(text, segments[0], from);
    if |segments| > 1 {
      FitsFromEarlier(text, segments[1..], first.value + |segments[0]|, at + |segments[0]|, open);
      LastOfRest(text, segments, from);
      SearchLosesNothing(text, segments[1..], first.value + |segments[0]|, false, open);
    } else {
      OnlyTail(text, segments, from, open);
    }
  }

  lemma FitsSplits(text: string, segments: seq<string>, from: nat, pinned: bool, open: bool) returns (at: nat)
    requires segments != [] && Fits(text, segments, from, pinned, open)
    ensures from <= at && (pinned ==> at == from) && OccursAt(text, segments[0], at)
    ensures Fits(text, segments[1..], at + |segments[0]|, false, open)
    ensures FirstAt(text, segments[0], from).Some? && FirstAt(text, segments[0], from).value <= at
  {
    at :| from <= at && (pinned ==> at == from) && OccursAt(text, segments[0], at)
          && Fits(text, segments[1..], at + |segments[0]|, false, open);
  }

  lemma OnlyTail(text: string, segments: seq<string>, from: nat, open: bool)
    requires |segments| == 1 && (open || TailStandsOnce(text, segments, from))
    ensures var first := FirstAt(text, segments[0], from);
      !open && first.Some? ==> first.value + |segments[0]| == |text|
  {
  }

  lemma {:induction false} SearchIsExact(text: string, segments: seq<string>, from: nat, pinned: bool, open: bool)
    requires segments != []
    ensures Greedy(text, segments, from, pinned, open)
       <==> Fits(text, segments, from, pinned, open) && (open || TailStandsOnce(text, segments, from))
  {
    hide TailStandsOnce, Greedy, Fits;
    if Greedy(text, segments, from, pinned, open) {
      SearchIsSound(text, segments, from, pinned, open);
      if !open { SearchEndsAtTail(text, segments, from, pinned, open); }
    }
    if Fits(text, segments, from, pinned, open) && (open || TailStandsOnce(text, segments, from)) {
      SearchLosesNothing(text, segments, from, pinned, open);
    }
  }

  lemma LastOfRest(text: string, segments: seq<string>, from: nat)
    requires |segments| > 1 ==> FirstAt(text, segments[0], from).Some?
    requires segments != []
    ensures |segments| > 1 ==>
              var next := FirstAt(text, segments[0], from).value + |segments[0]|;
              TailStandsOnce(text, segments, from) == TailStandsOnce(text, segments[1..], next)
  {
    if |segments| > 1 { assert segments[1..][|segments[1..]| - 1] == segments[|segments| - 1]; }
  }

  /** A filled template is a text that fits it, and every text that fits it is it filled. */
  lemma {:induction false} FilledFits(prefix: string, segments: seq<string>, values: seq<string>, pinned: bool, open: bool)
    requires Fills(segments, values, pinned, open)
    ensures Fits(prefix + Filled(segments, values), segments, |prefix|, pinned, open)
    decreases |segments|
  {
    var text := prefix + Filled(segments, values);
    if segments != [] {
      var longer := prefix + values[0] + segments[0];
      assert text == longer + Filled(segments[1..], values[1..]);
      FilledFits(longer, segments[1..], values[1..], false, open);
      var at := |prefix| + |values[0]|;
      assert OccursAt(text, segments[0], at) && at + |segments[0]| == |longer|;
    }
  }

  lemma FilledFirst(segments: seq<string>, values: seq<string>)
    requires |values| == |segments| + 1 && segments != []
    ensures Filled(segments, values) == values[0] + segments[0] + Filled(segments[1..], values[1..])
  {
  }

  lemma {:induction false} FittingIsFilled(text: string, segments: seq<string>, from: nat, pinned: bool, open: bool)
    returns (values: seq<string>)
    requires from <= |text| && Fits(text, segments, from, pinned, open) && (segments == [] ==> !pinned)
    ensures Fills(segments, values, pinned, open) && text[from..] == Filled(segments, values)
    decreases |segments|
  {
    if segments == [] { return [text[from..]]; }
    hide Fits, Filled;
    var at := FitsSplits(text, segments, from, pinned, open);
    var rest := FittingIsFilled(text, segments[1..], at + |segments[0]|, false, open);
    values := [text[from..at]] + rest;
    assert values[1..] == rest;
    FilledFirst(segments, values);
    assert text[from..] == text[from..at] + text[at..at + |segments[0]|] + text[at + |segments[0]|..];
  }

  /**
   **The matcher claims a sentence exactly when some filling of the row makes it** and,
   where the row ends in a literal, that literal's text does not also stand earlier in
   what the others left.
   */
  lemma {:induction false} MatchIsExact(text: string, s: Sentence)
    requires s.segments != []
    ensures Matching(text, s)
       <==> && (exists values: seq<string> ::
                  Fills(s.segments, values, !s.startsWithToken, s.endsWithToken) && text == Filled(s.segments, values))
            && (s.endsWithToken || TailStandsOnce(text, s.segments, 0))
  {
    SearchIsExact(text, s.segments, 0, !s.startsWithToken, s.endsWithToken);
    if Fits(text, s.segments, 0, !s.startsWithToken, s.endsWithToken) {
      var values := FittingIsFilled(text, s.segments, 0, !s.startsWithToken, s.endsWithToken);
      assert text[0..] == text;
    }
    if values: seq<string> :| Fills(s.segments, values, !s.startsWithToken, s.endsWithToken)
                              && text == Filled(s.segments, values) {
      FilledFits("", s.segments, values, !s.startsWithToken, s.endsWithToken);
      assert "" + Filled(s.segments, values) == text;
    }
  }

  /** A value that quotes the tail hides its own sentence: `{ref}foo`, filled with "foo x ". */
  lemma {:induction false} QuotedTailIsMissed()
    ensures var s := Sentence("row", true, ["foo"], true, false);
      && "foo x foo" == Filled(s.segments, ["foo x ", ""]) && Fills(s.segments, ["foo x ", ""], false, false)
      && !Matching("foo x foo", s)
  {
    var text := "foo x foo";
    assert Filled(["foo"][1..], ["foo x ", ""][1..]) == "";
    assert OccursAt(text, "foo", 0);
  }

  /** Prose after a literal tail, or before a literal head, is another sentence. */
  lemma {:induction false} AnchorsHold(text: string, s: Sentence)
    requires Matching(text, s)
    ensures !s.startsWithToken ==> OccursAt(text, s.segments[0], 0)
    ensures !s.endsWithToken ==>
              var last := s.segments[|s.segments| - 1]; |last| <= |text| && text[|text| - |last|..] == last
  {
    if !s.endsWithToken { TailIsLast(text, s.segments, 0, !s.startsWithToken, s.endsWithToken); }
  }

  lemma {:induction false} TailIsLast(text: string, segments: seq<string>, from: nat, pinned: bool, open: bool)
    requires Greedy(text, segments, from, pinned, open) && segments != [] && !open
    ensures var last := segments[|segments| - 1]; |last| <= |text| && text[|text| - |last|..] == last
    decreases |segments|
  {
    if |segments| > 1 {
      TailIsLast(text, segments[1..], FirstAt(text, segments[0], from).value + |segments[0]|, false, open);
    }
  }

  lemma {:induction false} WeightFront(segments: seq<string>)
    requires segments != []
    ensures Weight(segments) == |segments[0]| + Weight(segments[1..])
    decreases |segments|
  {
    if |segments| > 1 {
      WeightFront(segments[..|segments| - 1]);
      assert segments[..|segments| - 1][1..] == segments[1..][..|segments| - 2];
    }
  }

  /** A row's weight is the length of the shortest sentence it makes: the one whose tokens are all empty. */
  lemma {:induction false} WeightIsLiteral(segments: seq<string>, values: seq<string>)
    requires |values| == |segments| + 1
    ensures |Filled(segments, values)| >= Weight(segments)
    ensures |Filled(segments, values)| == Weight(segments) <==> forall i | 0 <= i < |values| :: values[i] == ""
    decreases |segments|
  {
    if segments != [] {
      WeightFront(segments);
      WeightIsLiteral(segments[1..], values[1..]);
      assert forall i | 1 <= i < |values| :: values[i] == values[1..][i - 1];
    }
  }
}
