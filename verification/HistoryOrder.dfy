/**
 The order a session's events are drawn in: `TimelineBuilder.inHistoryOrder`
 (CodeConnectKit/Sources/CodeConnectKit/Timeline.swift). Codex items that a
 later reading of the history turned up are filed at the end, each naming the fact it
 belongs before.
 */
module HistoryOrder {
  import opened Wrappers

  /** `id` is a Codex fact's own; `before` the id of the fact it belongs before, on Codex facts only. */
  datatype Event = Event(at: nat, id: Option<string>, before: Option<string>, body: string)

  /** A log as the daemon files it: seqs ascend, and one id is filed once. */
  predicate Filed(es: seq<Event>) {
    && (forall i, j | 0 <= i < j < |es| :: es[i].at < es[j].at)
    && (forall i, j | 0 <= i < j < |es| && es[i].id.Some? :: es[i].id != es[j].id)
  }

  // ------------------------------------------------------- the order, as a forest

  /** The event that bears an id. */
  function Bearer(es: seq<Event>, id: string): (r: Option<nat>)
    ensures r.Some? ==> r.value < |es| && es[r.value].id == Some(id)
    ensures r.None? ==> forall i | 0 <= i < |es| :: es[i].id != Some(id)
  {
    if es == [] then None
    else if es[|es| - 1].id == Some(id) then Some(|es| - 1)
    else Bearer(es[..|es| - 1], id)
  }

  /** The earlier event this one belongs immediately before. */
  function Anchor(es: seq<Event>, j: nat): (r: Option<nat>)
    requires j < |es|
    ensures r.Some? ==> r.value < j
  {
    if es[j].before.None? then None
    else match Bearer(es, es[j].before.value) case None => None case Some(i) => if i < j then Some(i) else None
  }

  predicate InPlace(es: seq<Event>, j: nat)
    requires j < |es|
  {
    es[j].before.None? || (Bearer(es, es[j].before.value).Some? && Bearer(es, es[j].before.value).value >= j)
  }

  /**
   Where an event belongs, by the ids alone: immediately before the earlier event it names,
   in place if it names none or one not yet filed, and nowhere if nothing bears the name.
   */
  lemma {:induction false} AnchorsExactly(es: seq<Event>, j: nat)
    requires Filed(es) && j < |es|
    ensures forall i: nat :: Anchor(es, j) == Some(i) <==> i < j && es[j].before.Some? && es[i].id == es[j].before
    ensures InPlace(es, j) <==> es[j].before == None || exists i | j <= i < |es| :: es[i].id == es[j].before
    ensures Anchor(es, j) == None && !InPlace(es, j)
       <==> es[j].before.Some? && forall i | 0 <= i < |es| :: es[i].id != es[j].before
  {
    if es[j].before.Some? {
      var bearer := Bearer(es, es[j].before.value);
      if bearer.Some? {
        assert forall i | 0 <= i < |es| && i != bearer.value :: es[i].id != es[bearer.value].id;
      }
    }
  }

  /** An event with everything that belongs before it, itself last. */
  function Tree(es: seq<Event>, i: nat): seq<nat>
    requires i < |es|
    decreases |es| - i, |es| + 1
  {
    Above(es, i, i + 1) + [i]
  }

  /** What belongs before `i`, of the events from `j` on. */
  function Above(es: seq<Event>, i: nat, j: nat): seq<nat>
    requires i < j <= |es|
    decreases |es| - i, |es| - j
  {
    if j == |es| then []
    else (if Anchor(es, j) == Some(i) then Tree(es, j) else []) + Above(es, i, j + 1)
  }

  /** The drawn order, of the events filed in place from `j` on. */
  function Rows(es: seq<Event>, j: nat): seq<nat>
    requires j <= |es|
    decreases |es| - j
  {
    if j == |es| then [] else (if InPlace(es, j) then Tree(es, j) else []) + Rows(es, j + 1)
  }

  /** The events at some places. */
  function At(es: seq<Event>, places: seq<nat>): seq<Event>
    requires forall k | 0 <= k < |places| :: places[k] < |es|
  {
    if places == [] then [] else At(es, places[..|places| - 1]) + [es[places[|places| - 1]]]
  }

  /** The chain of anchors from `x` leads to an event filed in place. */
  function Root(es: seq<Event>, x: nat): (r: Option<nat>)
    requires x < |es|
    ensures r.Some? ==> r.value <= x && InPlace(es, r.value)
  {
    if InPlace(es, x) then Some(x)
    else match Anchor(es, x) case None => None case Some(i) => Root(es, i)
  }

  /** `x` is `i`, or its chain of anchors passes through it. */
  predicate Under(es: seq<Event>, i: nat, x: nat)
    requires x < |es|
    decreases x
  {
    x == i || (Anchor(es, x).Some? && Under(es, i, Anchor(es, x).value))
  }

  /** The step of the chain just above `i`. */
  function StepAbove(es: seq<Event>, i: nat, x: nat): (j: nat)
    requires x < |es| && Under(es, i, x) && x != i
    ensures i < j <= x && Anchor(es, j) == Some(i) && Under(es, j, x)
    decreases x
  {
    if Anchor(es, x) == Some(i) then x else StepAbove(es, i, Anchor(es, x).value)
  }

  lemma {:induction false} UnderIsAbove(es: seq<Event>, i: nat, x: nat)
    requires x < |es| && Under(es, i, x)
    ensures i <= x
    decreases x
  {
    if x != i { UnderIsAbove(es, i, Anchor(es, x).value); }
  }

  /** Of two events a chain passes through, one is under the other. */
  lemma {:induction false} ChainIsALine(es: seq<Event>, i: nat, j: nat, x: nat)
    requires x < |es| && i <= j && Under(es, i, x) && Under(es, j, x)
    ensures j < |es| && Under(es, i, j)
    decreases x
  {
    UnderIsAbove(es, j, x);
    if x != j {
      UnderIsAbove(es, j, Anchor(es, x).value);
      ChainIsALine(es, i, j, Anchor(es, x).value);
    }
  }

  // -------------------------------------------------- each event once, or withheld

  function Times(places: seq<nat>, x: nat): nat {
    if places == [] then 0 else Times(places[..|places| - 1], x) + if places[|places| - 1] == x then 1 else 0
  }

  lemma TimesNone(x: nat)
    ensures Times([], x) == 0
  {
  }

  lemma {:induction false} TimesAdd(a: seq<nat>, b: seq<nat>, x: nat)
    ensures Times(a + b, x) == Times(a, x) + Times(b, x)
    decreases |b|
  {
    if b == [] {
      assert a + b == a;
    } else {
      TimesAdd(a, b[..|b| - 1], x);
      assert (a + b)[..|a + b| - 1] == a + b[..|b| - 1];
    }
  }

  /** A tree holds exactly what is under it, once each. */
  lemma {:induction false} TreeHolds(es: seq<Event>, i: nat, x: nat)
    requires i < |es| && x < |es|
    ensures Times(Tree(es, i), x) == if Under(es, i, x) then 1 else 0
    decreases |es| - i, |es| + 1
  {
    AboveHolds(es, i, i + 1, x);
    TimesAdd(Above(es, i, i + 1), [i], x);
    assert [i][..0] == [];
    if Under(es, i, x) && x != i { var _ := StepAbove(es, i, x); }
  }

  lemma {:induction false} AboveHolds(es: seq<Event>, i: nat, j: nat, x: nat)
    requires i < j <= |es| && x < |es|
    ensures Times(Above(es, i, j), x) == if Under(es, i, x) && x != i && StepAbove(es, i, x) >= j then 1 else 0
    decreases |es| - i, |es| - j
  {
    if j < |es| {
      hide Tree, Times;
      AboveHolds(es, i, j + 1, x);
      TimesNone(x);
      var first := if Anchor(es, j) == Some(i) then Tree(es, j) else [];
      TimesAdd(first, Above(es, i, j + 1), x);
      if Anchor(es, j) == Some(i) {
        TreeHolds(es, j, x);
        if Under(es, j, x) { UnderThrough(es, i, j, x); }
      }
      if Under(es, i, x) && x != i && StepAbove(es, i, x) == j { }
    }
  }

  /** A chain through `j`, which belongs before `i`, is a chain through `i`, by way of `j`. */
  lemma {:induction false} UnderThrough(es: seq<Event>, i: nat, j: nat, x: nat)
    requires x < |es| && j < |es| && Under(es, j, x) && Anchor(es, j) == Some(i)
    ensures Under(es, i, x) && x != i && StepAbove(es, i, x) == j
    decreases x
  {
    UnderIsAbove(es, j, x);
    if x != j {
      UnderThrough(es, i, j, Anchor(es, x).value);
      UnderIsAbove(es, j, Anchor(es, x).value);
    }
  }

  lemma {:induction false} RootIsUnder(es: seq<Event>, i: nat, x: nat)
    requires x < |es| && i < |es| && InPlace(es, i)
    ensures Under(es, i, x) <==> Root(es, x) == Some(i)
    decreases x
  {
    if InPlace(es, x) {
      PlacedHasNoAnchor(es, x);
    } else if Anchor(es, x).Some? {
      RootIsUnder(es, i, Anchor(es, x).value);
    }
  }

  lemma PlacedHasNoAnchor(es: seq<Event>, x: nat)
    requires x < |es| && InPlace(es, x)
    ensures Anchor(es, x) == None
  {
  }

  lemma {:induction false} RowsHold(es: seq<Event>, j: nat, x: nat)
    requires j <= |es| && x < |es|
    ensures Times(Rows(es, j), x) == if Root(es, x).Some? && Root(es, x).value >= j then 1 else 0
    decreases |es| - j
  {
    if j < |es| {
      hide Tree, Times, Rows, Root, Under;
      TimesNone(x);
      RowsAre(es, j);
      RowsHold(es, j + 1, x);
      var first := if InPlace(es, j) then Tree(es, j) else [];
      TimesAdd(first, Rows(es, j + 1), x);
      if InPlace(es, j) {
        TreeHolds(es, j, x);
        RootIsUnder(es, j, x);
      }
    }
  }

  /**
   **Every event is drawn once or withheld**, and withheld exactly when the facts it
   belongs before lead, one to the next, to one that is not among the events.
   */
  lemma {:induction false} DrawnOnceOrWithheld(es: seq<Event>, x: nat)
    requires x < |es|
    ensures Times(Rows(es, 0), x) == if Root(es, x).Some? then 1 else 0
  {
    RowsHold(es, 0, x);
  }

  lemma TreeIs(es: seq<Event>, i: nat)
    requires i < |es|
    ensures Tree(es, i) == Above(es, i, i + 1) + [i]
  {
  }

  lemma AboveIs(es: seq<Event>, i: nat, j: nat)
    requires i < j < |es|
    ensures Above(es, i, j) == (if Anchor(es, j) == Some(i) then Tree(es, j) else []) + Above(es, i, j + 1)
  {
  }

  lemma RowsAre(es: seq<Event>, j: nat)
    requires j < |es|
    ensures Rows(es, j) == (if InPlace(es, j) then Tree(es, j) else []) + Rows(es, j + 1)
  {
  }

  // ------------------------------------------------------------ where each stands

  /** `i`'s tree stands in one piece in the tree of anything it belongs before. */
  lemma {:induction false} TreeWithin(es: seq<Event>, r: nat, i: nat) returns (pre: seq<nat>, post: seq<nat>)
    requires i < |es| && r < |es| && Under(es, r, i)
    ensures Tree(es, r) == pre + Tree(es, i) + post
    decreases i - r
  {
    UnderIsAbove(es, r, i);
    if r == i { return [], []; }
    var j := StepAbove(es, r, i);
    var pre1, post1 := TreeWithin(es, j, i);
    var pre2 := AboveSplits(es, r, r + 1, j);
    pre := pre2 + pre1;
    post := post1 + Above(es, r, j + 1) + [r];
    assert Tree(es, r) == pre2 + Tree(es, j) + Above(es, r, j + 1) + [r];
  }

  lemma {:induction false} AboveSplits(es: seq<Event>, r: nat, from: nat, j: nat) returns (pre: seq<nat>)
    requires r < from <= j < |es| && Anchor(es, j) == Some(r)
    ensures Above(es, r, from) == pre + Tree(es, j) + Above(es, r, j + 1)
    decreases j - from
  {
    hide Tree, Above;
    AboveIs(es, r, from);
    var first := if Anchor(es, from) == Some(r) then Tree(es, from) else [];
    if from == j {
      assert [] + Tree(es, j) == Tree(es, j);
      return [];
    }
    var rest := AboveSplits(es, r, from + 1, j);
    pre := first + rest;
    assert first + (rest + Tree(es, j) + Above(es, r, j + 1)) == pre + Tree(es, j) + Above(es, r, j + 1);
  }

  lemma {:induction false} RowsSplit(es: seq<Event>, from: nat, j: nat) returns (pre: seq<nat>)
    requires from <= j < |es| && InPlace(es, j)
    ensures Rows(es, from) == pre + Tree(es, j) + Rows(es, j + 1)
    decreases j - from
  {
    hide Tree, Rows;
    RowsAre(es, from);
    var first := if InPlace(es, from) then Tree(es, from) else [];
    if from == j {
      assert [] + Tree(es, j) == Tree(es, j);
      return [];
    }
    var rest := RowsSplit(es, from + 1, j);
    pre := first + rest;
    assert first + (rest + Tree(es, j) + Rows(es, j + 1)) == pre + Tree(es, j) + Rows(es, j + 1);
  }

  /**
   **What belongs before a fact stands immediately before it**, all of it, in one
   piece, wherever that fact itself was read back to.
   */
  lemma {:induction false} DrawnImmediatelyBefore(es: seq<Event>, i: nat) returns (pre: seq<nat>, post: seq<nat>)
    requires i < |es| && Root(es, i).Some?
    ensures Rows(es, 0) == pre + Above(es, i, i + 1) + [i] + post
    ensures forall x | 0 <= x < |es| ::
              Times(Above(es, i, i + 1), x) == if Under(es, i, x) && x != i then 1 else 0
  {
    hide Tree, Above, Rows, Under, Bearer, Times, Root;
    var r := Root(es, i).value;
    RootIsUnder(es, r, i);
    TreeIs(es, i);
    var pre1, post1 := TreeWithin(es, r, i);
    var pre2 := RowsSplit(es, 0, r);
    pre, post := pre2 + pre1, post1 + Rows(es, r + 1);
    Regroup(pre2, pre1, Above(es, i, i + 1), [i], post1, Rows(es, r + 1));
    forall x | 0 <= x < |es|
      ensures Times(Above(es, i, i + 1), x) == if Under(es, i, x) && x != i then 1 else 0
    {
      AboveHolds(es, i, i + 1, x);
    }
  }

  lemma Regroup(a: seq<nat>, b: seq<nat>, c: seq<nat>, d: seq<nat>, e: seq<nat>, f: seq<nat>)
    ensures a + (b + (c + d) + e) + f == (a + b) + c + d + (e + f)
  {
  }

  /** Events filed in place keep the log's order, and so do those read back before one fact. */
  lemma {:induction false} OrderIsKept(es: seq<Event>, a: nat, b: nat) returns (pre: seq<nat>, between: seq<nat>, post: seq<nat>)
    requires a < b < |es| && Root(es, a).Some?
    requires (InPlace(es, a) && InPlace(es, b)) || (Anchor(es, a).Some? && Anchor(es, a) == Anchor(es, b))
    ensures Rows(es, 0) == pre + [a] + between + [b] + post
  {
    hide Tree, Above, Rows, Under, Bearer, Times, Root, InPlace, Anchor;
    TreeIs(es, a);
    TreeIs(es, b);
    if InPlace(es, a) && InPlace(es, b) {
      var pre1 := RowsSplit(es, 0, a);
      var mid := RowsSplit(es, a + 1, b);
      pre, between, post := pre1 + Above(es, a, a + 1), mid + Above(es, b, b + 1), Rows(es, b + 1);
      Interleave(pre1, Above(es, a, a + 1), [a], mid, Above(es, b, b + 1), [b], Rows(es, b + 1));
    } else {
      var i := Anchor(es, a).value;
      RootOfAnchor(es, a);
      var pre1, post1 := DrawnImmediatelyBefore(es, i);
      var pre2 := AboveSplits(es, i, i + 1, a);
      var mid := AboveSplits(es, i, a + 1, b);
      pre := pre1 + pre2 + Above(es, a, a + 1);
      between := mid + Above(es, b, b + 1);
      post := Above(es, i, b + 1) + [i] + post1;
      Interleave(pre2, Above(es, a, a + 1), [a], mid, Above(es, b, b + 1), [b], Above(es, i, b + 1));
      assert Above(es, i, i + 1) == pre2 + Above(es, a, a + 1) + [a] + between + [b] + Above(es, i, b + 1);
    }
  }

  lemma Interleave(pre: seq<nat>, a1: seq<nat>, a: seq<nat>, mid: seq<nat>, b1: seq<nat>, b: seq<nat>, post: seq<nat>)
    ensures pre + (a1 + a) + (mid + (b1 + b) + post) == (pre + a1) + a + (mid + b1) + b + post
  {
  }

  lemma RootOfAnchor(es: seq<Event>, x: nat)
    requires x < |es| && Anchor(es, x).Some?
    ensures Root(es, x) == Root(es, Anchor(es, x).value)
  {
    if InPlace(es, x) { PlacedHasNoAnchor(es, x); }
  }

  // ------------------------------------------------------------ the algorithm

  /** The events read back to just before `i`, of the first `k`. */
  function Kids(es: seq<Event>, i: nat, k: nat): (r: seq<nat>)
    requires k <= |es|
    ensures forall n | 0 <= n < |r| :: i < r[n] < k && Anchor(es, r[n]) == Some(i)
    ensures forall m, n | 0 <= m < n < |r| :: r[m] < r[n]
  {
    if k == 0 then [] else Kids(es, i, k - 1) + if Anchor(es, k - 1) == Some(i) then [k - 1] else []
  }

  function Placed(es: seq<Event>, k: nat): (r: seq<nat>)
    requires k <= |es|
    ensures forall n | 0 <= n < |r| :: r[n] < k && InPlace(es, r[n])
    ensures forall m, n | 0 <= m < n < |r| :: r[m] < r[n]
  {
    if k == 0 then [] else Placed(es, k - 1) + if InPlace(es, k - 1) then [k - 1] else []
  }

  function Trees(es: seq<Event>, places: seq<nat>): seq<nat>
    requires forall n | 0 <= n < |places| :: places[n] < |es|
  {
    if places == [] then [] else Tree(es, places[0]) + Trees(es, places[1..])
  }

  lemma {:induction false} TreesAdd(es: seq<Event>, a: seq<nat>, b: seq<nat>)
    requires forall n | 0 <= n < |a| :: a[n] < |es|
    requires forall n | 0 <= n < |b| :: b[n] < |es|
    ensures Trees(es, a + b) == Trees(es, a) + Trees(es, b)
    decreases |a|
  {
    if a == [] {
      assert a + b == b;
    } else {
      TreesAdd(es, a[1..], b);
      assert (a + b)[1..] == a[1..] + b;
    }
  }

  lemma TreesOfOne(es: seq<Event>, some: bool, j: nat)
    requires j < |es|
    ensures Trees(es, if some then [j] else []) == if some then Tree(es, j) else []
  {
    hide Tree;
    assert [j][1..] == [];
  }

  lemma KidsAre(es: seq<Event>, i: nat, k: nat)
    requires k < |es|
    ensures Kids(es, i, k + 1) == Kids(es, i, k) + if Anchor(es, k) == Some(i) then [k] else []
    ensures Placed(es, k + 1) == Placed(es, k) + if InPlace(es, k) then [k] else []
  {
  }

  lemma NoTrees(es: seq<Event>)
    ensures Trees(es, []) == []
  {
  }

  lemma {:induction false} AboveIsTrees(es: seq<Event>, i: nat, j: nat)
    requires i < j <= |es|
    ensures Above(es, i, i + 1) == Trees(es, Kids(es, i, j)) + Above(es, i, j)
    decreases j
  {
    hide Tree, Above, Bearer, Anchor, Trees, Kids;
    if j == i + 1 {
      NoKidsYet(es, i, j);
      NoTrees(es);
    } else {
      AboveIsTrees(es, i, j - 1);
      AboveIs(es, i, j - 1);
      KidsAre(es, i, j - 1);
      TreesAdd(es, Kids(es, i, j - 1), if Anchor(es, j - 1) == Some(i) then [j - 1] else []);
      TreesOfOne(es, Anchor(es, j - 1) == Some(i), j - 1);
    }
  }

  lemma {:induction false} NoKidsYet(es: seq<Event>, i: nat, k: nat)
    requires k <= |es| && k <= i + 1
    ensures Kids(es, i, k) == []
    decreases k
  {
    if k > 0 { NoKidsYet(es, i, k - 1); }
  }

  lemma {:induction false} RowsAreTrees(es: seq<Event>, j: nat)
    requires j <= |es|
    ensures Rows(es, 0) == Trees(es, Placed(es, j)) + Rows(es, j)
    decreases j
  {
    hide Tree, Rows, Bearer, Anchor, InPlace, Trees, Placed;
    if j == 0 {
      NonePlaced(es);
      NoTrees(es);
    } else {
      RowsAreTrees(es, j - 1);
      RowsAre(es, j - 1);
      KidsAre(es, 0, j - 1);
      TreesAdd(es, Placed(es, j - 1), if InPlace(es, j - 1) then [j - 1] else []);
      TreesOfOne(es, InPlace(es, j - 1), j - 1);
    }
  }

  lemma NonePlaced(es: seq<Event>)
    ensures Placed(es, 0) == []
  {
  }

  lemma {:induction false} AtAdds(es: seq<Event>, a: seq<nat>, b: seq<nat>)
    requires forall k | 0 <= k < |a| :: a[k] < |es|
    requires forall k | 0 <= k < |b| :: b[k] < |es|
    ensures At(es, a + b) == At(es, a) + At(es, b)
    decreases |b|
  {
    if b == [] {
      assert a + b == a;
    } else {
      AtAdds(es, a, b[..|b| - 1]);
      assert (a + b)[..|a + b| - 1] == a + b[..|b| - 1];
    }
  }

  lemma {:induction false} AtIs(es: seq<Event>, places: seq<nat>)
    requires forall k | 0 <= k < |places| :: places[k] < |es|
    ensures |At(es, places)| == |places|
    ensures forall k | 0 <= k < |places| :: At(es, places)[k] == es[places[k]]
    decreases |places|
  {
    if places != [] { AtIs(es, places[..|places| - 1]); }
  }

  lemma TreeOnly(es: seq<Event>, i: nat)
    requires i < |es|
    ensures forall k | 0 <= k < |Tree(es, i)| :: Tree(es, i)[k] < |es|
    decreases |es| - i, |es| + 1
  {
    AboveOnly(es, i, i + 1);
  }

  lemma AboveOnly(es: seq<Event>, i: nat, j: nat)
    requires i < j <= |es|
    ensures forall k | 0 <= k < |Above(es, i, j)| :: Above(es, i, j)[k] < |es|
    decreases |es| - i, |es| - j
  {
    if j < |es| {
      AboveOnly(es, i, j + 1);
      if Anchor(es, j) == Some(i) { TreeOnly(es, j); }
    }
  }

  lemma {:induction false} TreesOnly(es: seq<Event>, places: seq<nat>)
    requires forall n | 0 <= n < |places| :: places[n] < |es|
    ensures forall k | 0 <= k < |Trees(es, places)| :: Trees(es, places)[k] < |es|
    decreases |places|
  {
    hide Tree;
    if places != [] {
      TreeOnly(es, places[0]);
      TreesOnly(es, places[1..]);
    }
  }

  /** `readBack` holds, for the event at `x`, all of the first `k` that were read back to just before it. */
  ghost predicate Aside(es: seq<Event>, k: nat, readBack: map<string, seq<Event>>, x: nat)
    requires x < |es| && k <= |es|
  {
    es[x].id.Some? ==>
      var kids := Kids(es, x, k);
      && (es[x].id.value in readBack <==> kids != [])
      && (kids != [] ==> readBack[es[x].id.value] == At(es, kids))
  }

  ghost predicate StillHolds(es: seq<Event>, readBack: map<string, seq<Event>>, x: nat)
    requires x < |es|
  {
    Aside(es, |es|, readBack, x)
  }

  /** No chain passes through two of these places. */
  ghost predicate Apart(es: seq<Event>, places: seq<nat>) {
    && (forall n | 0 <= n < |places| :: places[n] < |es|)
    && (forall m, n, x | 0 <= m < n < |places| && 0 <= x < |es| && Under(es, places[m], x) :: !Under(es, places[n], x))
  }

  /** An event somewhere under one of these places. */
  ghost predicate Within(es: seq<Event>, places: seq<nat>, x: nat)
    requires x < |es|
  {
    exists n :: 0 <= n < |places| && Under(es, places[n], x)
  }

  lemma NoIdNoKids(es: seq<Event>, i: nat, k: nat)
    requires k <= |es| && i < |es| && es[i].id.None?
    ensures Kids(es, i, k) == []
  {
    if k > 0 { NoIdNoKids(es, i, k - 1); }
  }

  lemma KidsApart(es: seq<Event>, i: nat)
    requires i < |es|
    ensures Apart(es, Kids(es, i, |es|))
  {
    var kids := Kids(es, i, |es|);
    forall m, n, x | 0 <= m < n < |kids| && 0 <= x < |es| && Under(es, kids[m], x) && Under(es, kids[n], x)
      ensures false
    {
      ChainIsALine(es, kids[m], kids[n], x);
      UnderIsAbove(es, kids[m], i);
    }
  }

  lemma KidsAreWithin(es: seq<Event>, i: nat, x: nat)
    requires i < |es| && x < |es|
    ensures Within(es, Kids(es, i, |es|), x) <==> Under(es, i, x) && x != i
  {
    var kids := Kids(es, i, |es|);
    if Within(es, kids, x) {
      var n :| 0 <= n < |kids| && Under(es, kids[n], x);
      UnderThrough(es, i, kids[n], x);
    }
    if Under(es, i, x) && x != i {
      var n := KidAt(es, i, StepAbove(es, i, x), |es|);
      assert Under(es, kids[n], x);
    }
  }

  lemma {:induction false} KidAt(es: seq<Event>, i: nat, j: nat, k: nat) returns (n: nat)
    requires j < k <= |es| && Anchor(es, j) == Some(i)
    ensures n < |Kids(es, i, k)| && Kids(es, i, k)[n] == j
    decreases k
  {
    if j == k - 1 { n := |Kids(es, i, k - 1)|; } else { n := KidAt(es, i, j, k - 1); }
  }

  ghost predicate Inside(es: seq<Event>, places: seq<nat>) {
    forall k | 0 <= k < |places| :: places[k] < |es|
  }

  /** `left` is `readBack` less some of what belongs under `places`. */
  ghost predicate Leaves(es: seq<Event>, places: seq<nat>, readBack: map<string, seq<Event>>, left: map<string, seq<Event>>) {
    && left.Keys <= readBack.Keys && (forall id | id in left :: left[id] == readBack[id])
    && forall x | 0 <= x < |es| && es[x].id.Some? && !Within(es, places, x) ::
         es[x].id.value in left <==> es[x].id.value in readBack
  }

  lemma FirstHasItsOwn(es: seq<Event>, places: seq<nat>, readBack: map<string, seq<Event>>)
    requires Filed(es) && Apart(es, places) && places != []
    requires forall x | 0 <= x < |es| && Within(es, places, x) :: StillHolds(es, readBack, x)
    ensures var i, kids := places[0], Kids(es, places[0], |es|);
      && Apart(es, kids)
      && (if es[i].id.Some? && es[i].id.value in readBack then
            && readBack[es[i].id.value] == At(es, kids)
            && (forall x | 0 <= x < |es| && Within(es, kids, x) :: StillHolds(es, readBack - {es[i].id.value}, x))
          else kids == [])
  {
    hide Kids, Anchor;
    var i, kids := places[0], Kids(es, places[0], |es|);
    KidsApart(es, i);
    assert Under(es, i, i) && Within(es, places, i);
    if es[i].id.None? { NoIdNoKids(es, i, |es|); }
    if es[i].id.Some? && es[i].id.value in readBack {
      forall x | 0 <= x < |es| && Within(es, kids, x) ensures StillHolds(es, readBack - {es[i].id.value}, x) {
        KidsAreWithin(es, i, x);
        assert Within(es, places, x);
        if i < x { } else { }
      }
    }
  }

  lemma RestHasItsOwn(es: seq<Event>, places: seq<nat>, readBack: map<string, seq<Event>>, left: map<string, seq<Event>>)
    requires Filed(es) && Apart(es, places) && places != [] && Leaves(es, places[..1], readBack, left)
    requires forall x | 0 <= x < |es| && Within(es, places, x) :: StillHolds(es, readBack, x)
    ensures Apart(es, places[1..])
    ensures forall x | 0 <= x < |es| && Within(es, places[1..], x) :: StillHolds(es, left, x)
  {
    hide Kids, Anchor, Under;
    forall x | 0 <= x < |es| && Within(es, places[1..], x) ensures StillHolds(es, left, x) {
      var n :| 0 <= n < |places[1..]| && Under(es, places[1..][n], x);
      assert Under(es, places[n + 1], x);
      assert Within(es, places, x);
      assert !Within(es, places[..1], x);
    }
  }

  lemma TakingFirstLeaves(es: seq<Event>, places: seq<nat>, readBack: map<string, seq<Event>>, left: map<string, seq<Event>>)
    requires Filed(es) && Apart(es, places) && places != []
    requires es[places[0]].id.Some? && es[places[0]].id.value in readBack
    requires Leaves(es, Kids(es, places[0], |es|), readBack - {es[places[0]].id.value}, left)
    ensures Leaves(es, places[..1], readBack, left)
  {
    hide Kids, Anchor;
    var i := places[0];
    forall x | 0 <= x < |es| && es[x].id.Some? && !Within(es, places[..1], x)
      ensures es[x].id.value in left <==> es[x].id.value in readBack
    {
      assert !Under(es, places[..1][0], x);
      KidsAreWithin(es, i, x);
      if i < x { } else { }
    }
  }

  lemma LeavingBoth(es: seq<Event>, places: seq<nat>, readBack: map<string, seq<Event>>,
                    middle: map<string, seq<Event>>, left: map<string, seq<Event>>)
    requires places != [] && Leaves(es, places[..1], readBack, middle) && Leaves(es, places[1..], middle, left)
    ensures Leaves(es, places, readBack, left)
  {
    hide Under;
    forall x | 0 <= x < |es| && es[x].id.Some? && !Within(es, places, x)
      ensures es[x].id.value in left <==> es[x].id.value in readBack
    {
      forall n | 0 <= n < |places[1..]| ensures !Under(es, places[1..][n], x) { assert !Under(es, places[n + 1], x); }
      assert !Within(es, places[1..], x);
      assert !Within(es, places[..1], x);
    }
  }

  lemma AllInOrder(es: seq<Event>, places: seq<nat>, own: seq<Event>, rest: seq<Event>)
    requires Inside(es, places) && places != []
    requires Inside(es, Trees(es, Kids(es, places[0], |es|))) && own == At(es, Trees(es, Kids(es, places[0], |es|)))
    requires Inside(es, Trees(es, places[1..])) && rest == At(es, Trees(es, places[1..]))
    ensures Inside(es, Trees(es, places)) && At(es, Trees(es, places)) == own + [es[places[0]]] + rest
  {
    hide Tree, Above, Kids, At, Trees;
    var i := places[0];
    TreesOnly(es, places);
    TreeOnly(es, i);
    TreesAre(es, places);
    TreeIs(es, i);
    AboveIsTrees(es, i, |es|);
    NothingAbove(es, i);
    assert Tree(es, i) == Trees(es, Kids(es, i, |es|)) + [i];
    AtAdds(es, Tree(es, i), Trees(es, places[1..]));
    AtAdds(es, Trees(es, Kids(es, i, |es|)), [i]);
    AtOne(es, i);
  }

  lemma TreesAre(es: seq<Event>, places: seq<nat>)
    requires Inside(es, places) && places != []
    ensures Trees(es, places) == Tree(es, places[0]) + Trees(es, places[1..])
  {
  }

  lemma NothingAbove(es: seq<Event>, i: nat)
    requires i < |es|
    ensures Above(es, i, |es|) == []
  {
  }

  lemma AtOne(es: seq<Event>, i: nat)
    requires i < |es|
    ensures At(es, [i]) == [es[i]]
  {
    assert [i][..0] == [];
  }

  /** `place`, over a list: before each event, all that was read back to just before it. */
  method PlaceEach(ghost es: seq<Event>, ghost places: seq<nat>, list: seq<Event>, readBack: map<string, seq<Event>>)
    returns (ordered: seq<Event>, left: map<string, seq<Event>>)
    requires Filed(es) && Apart(es, places) && list == At(es, places)
    requires forall x | 0 <= x < |es| && Within(es, places, x) :: StillHolds(es, readBack, x)
    ensures Inside(es, Trees(es, places)) && ordered == At(es, Trees(es, places))
    ensures Leaves(es, places, readBack, left)
    decreases readBack.Keys, |list|
  {
    hide Tree, Under, Bearer, Anchor, Trees, Kids, Filed, StillHolds, Within;
    AtIs(es, places);
    NoTrees(es);
    if list == [] { return [], readBack; }
    var event := list[0];
    FirstHasItsOwn(es, places, readBack);
    var own: seq<Event>, remaining := [], readBack;
    if event.id.Some? && event.id.value in readBack {
      own, remaining := PlaceEach(es, Kids(es, places[0], |es|), readBack[event.id.value], readBack - {event.id.value});
      TakingFirstLeaves(es, places, readBack, remaining);
    }
    RestHasItsOwn(es, places, readBack, remaining);
    AtIs(es, places[1..]);
    assert list[1..] == At(es, places[1..]);
    var rest: seq<Event>;
    rest, left := PlaceEach(es, places[1..], list[1..], remaining);
    LeavingBoth(es, places, readBack, remaining, left);
    ordered := own + [event] + rest;
    AllInOrder(es, places, own, rest);
  }

  lemma RootsApart(es: seq<Event>)
    ensures Apart(es, Placed(es, |es|))
  {
    var roots := Placed(es, |es|);
    forall m, n, x | 0 <= m < n < |roots| && 0 <= x < |es| && Under(es, roots[m], x) ensures !Under(es, roots[n], x) {
      RootIsUnder(es, roots[m], x);
      RootIsUnder(es, roots[n], x);
    }
  }

  /** What the second loop has put aside, of the first `k` events. */
  ghost predicate PutAside(es: seq<Event>, k: nat, readBack: map<string, seq<Event>>)
    requires k <= |es|
  {
    forall x | 0 <= x < |es| :: Aside(es, k, readBack, x)
  }

  lemma {:induction false} BearerIs(es: seq<Event>, i: nat)
    requires Filed(es) && i < |es| && es[i].id.Some?
    ensures Bearer(es, es[i].id.value) == Some(i)
    decreases |es|
  {
    if i < |es| - 1 { BearerIs(es[..|es| - 1], i); }
  }

  lemma NoneMoreAside(es: seq<Event>, k: nat, readBack: map<string, seq<Event>>)
    requires k < |es| && PutAside(es, k, readBack) && Anchor(es, k).None?
    ensures PutAside(es, k + 1, readBack)
  {
    hide Kids, Bearer, Anchor, At;
    var next := k + 1;
    forall x | 0 <= x < |es| ensures Aside(es, next, readBack, x) {
      KidsAre(es, x, k);
      assert Kids(es, x, next) == Kids(es, x, k) + [] == Kids(es, x, k);
      assert Aside(es, k, readBack, x);
    }
  }

  /** One event more, put aside for the event it belongs before. */
  lemma OneMoreAside(es: seq<Event>, k: nat, readBack: map<string, seq<Event>>)
    requires Filed(es) && k < |es| && PutAside(es, k, readBack) && Anchor(es, k).Some?
    ensures es[k].before.Some?
    ensures var id := es[k].before.value;
      PutAside(es, k + 1, readBack[id := (if id in readBack then readBack[id] else []) + [es[k]]])
  {
    hide Kids, At, PutAside;
    var i, id := Anchor(es, k).value, es[k].before.value;
    var after := readBack[id := (if id in readBack then readBack[id] else []) + [es[k]]];
    var next := k + 1;
    forall x | 0 <= x < |es| ensures Aside(es, next, after, x) {
      AsideAt(es, k, readBack, x);
      if es[x].id.Some? { OneAside(es, k, readBack, after, i, id, x); }
    }
    AllAside(es, next, after);
  }

  lemma AsideAt(es: seq<Event>, k: nat, readBack: map<string, seq<Event>>, x: nat)
    requires k <= |es| && x < |es| && PutAside(es, k, readBack)
    ensures Aside(es, k, readBack, x)
  {
  }

  lemma AllAside(es: seq<Event>, k: nat, readBack: map<string, seq<Event>>)
    requires k <= |es| && forall x | 0 <= x < |es| :: Aside(es, k, readBack, x)
    ensures PutAside(es, k, readBack)
  {
  }

  lemma OneAside(es: seq<Event>, k: nat, readBack: map<string, seq<Event>>, after: map<string, seq<Event>>, i: nat, id: string, x: nat)
    requires Filed(es) && k < |es| && x < |es| && es[x].id.Some? && Aside(es, k, readBack, x)
    requires Anchor(es, k) == Some(i) && es[k].before == Some(id)
    requires after == readBack[id := (if id in readBack then readBack[id] else []) + [es[k]]]
    ensures Aside(es, k + 1, after, x)
  {
    hide Kids, At, Filed;
    assert Bearer(es, id) == Some(i);
    KidsAre(es, x, k);
    BearerIs(es, x);
    AtAdds(es, Kids(es, x, k), [k]);
    AtOne(es, k);
    AtNone(es);
    if x != i { assert Kids(es, x, k + 1) == Kids(es, x, k) + [] == Kids(es, x, k); }
  }

  lemma AsideIsHeld(es: seq<Event>, readBack: map<string, seq<Event>>, x: nat)
    requires PutAside(es, |es|, readBack) && x < |es|
    ensures StillHolds(es, readBack, x)
  {
  }

  /** With nothing read back, nothing moves. */
  lemma {:induction false} NothingMoves(es: seq<Event>, k: nat)
    requires k <= |es| && forall j | 0 <= j < k :: es[j].before.None?
    ensures At(es, Placed(es, k)) == es[..k]
    decreases k
  {
    hide Placed, At, Anchor, Bearer;
    if k == 0 {
      NonePlaced(es);
      AtNone(es);
    } else {
      NothingMoves(es, k - 1);
      KidsAre(es, 0, k - 1);
      AtAdds(es, Placed(es, k - 1), [k - 1]);
      AtOne(es, k - 1);
      assert es[..k] == es[..k - 1] + [es[k - 1]];
    }
  }

  lemma {:induction false} TreesOfRoots(es: seq<Event>, places: seq<nat>)
    requires Inside(es, places) && forall j | 0 <= j < |es| :: es[j].before.None?
    ensures Trees(es, places) == places
    decreases |places|
  {
    if places != [] {
      TreesOfRoots(es, places[1..]);
      NoneAbove(es, places[0], places[0] + 1);
    }
  }

  lemma {:induction false} NoneAbove(es: seq<Event>, i: nat, j: nat)
    requires i < j <= |es| && forall k | 0 <= k < |es| :: es[k].before.None?
    ensures Above(es, i, j) == []
    decreases |es| - j
  {
    if j < |es| { NoneAbove(es, i, j + 1); }
  }

  /** `inHistoryOrder`: what was read back put before what it names, the rest left in place. */
  method InHistoryOrder(events: seq<Event>) returns (ordered: seq<Event>)
    requires Filed(events)
    ensures Inside(events, Rows(events, 0)) && ordered == At(events, Rows(events, 0))
  {
    hide Tree, Rows, Under, Bearer, Anchor, Trees, Kids, Placed, InPlace, Filed, At, PutAside, StillHolds;
    var seqByID: map<string, nat> := map[];
    for k := 0 to |events|
      invariant forall id | id in seqByID :: exists i :: 0 <= i < k && events[i].id == Some(id) && seqByID[id] == events[i].at
      invariant forall i | 0 <= i < k && events[i].id.Some? :: events[i].id.value in seqByID
    {
      if events[k].id.Some? { seqByID := seqByID[events[k].id.value := events[k].at]; }
    }
    var readBack: map<string, seq<Event>> := map[];
    var filedInPlace: seq<Event> := [];
    var placed := false;
    NothingAside(events);
    for k := 0 to |events|
      invariant Inside(events, Placed(events, k)) && filedInPlace == At(events, Placed(events, k))
      invariant PutAside(events, k, readBack)
      invariant !placed ==> forall j | 0 <= j < k :: events[j].before.None?
    {
      KidsAre(events, 0, k);
      AtAdds(events, Placed(events, k), if InPlace(events, k) then [k] else []);
      AtOne(events, k);
      AtNone(events);
      if Anchor(events, k).Some? { OneMoreAside(events, k, readBack); } else { NoneMoreAside(events, k, readBack); }
      WhereItGoes(events, k, seqByID);
      if events[k].before.None? {
        filedInPlace := filedInPlace + [events[k]];
      } else {
        placed := true;
        var anchor := events[k].before.value;
        if anchor in seqByID {
          if seqByID[anchor] < events[k].at {
            readBack := readBack[anchor := (if anchor in readBack then readBack[anchor] else []) + [events[k]]];
          } else {
            filedInPlace := filedInPlace + [events[k]];
          }
        }
      }
    }
    RowsAreTrees(events, |events|);
    NoRowsLeft(events);
    if !placed {
      NothingMoves(events, |events|);
      TreesOfRoots(events, Placed(events, |events|));
      assert Rows(events, 0) == Placed(events, |events|) && events[..|events|] == events;
      return events;
    }
    RootsApart(events);
    assert Rows(events, 0) == Trees(events, Placed(events, |events|));
    forall x | 0 <= x < |events| ensures StillHolds(events, readBack, x) { AsideIsHeld(events, readBack, x); }
    var left: map<string, seq<Event>>;
    ordered, left := PlaceEach(events, Placed(events, |events|), filedInPlace, readBack);
  }

  lemma NothingAside(es: seq<Event>)
    ensures PutAside(es, 0, map[]) && Inside(es, Placed(es, 0)) && At(es, Placed(es, 0)) == []
  {
  }

  lemma AtNone(es: seq<Event>)
    ensures At(es, []) == []
  {
  }

  lemma NoRowsLeft(es: seq<Event>)
    ensures Rows(es, |es|) == []
  {
  }

  /** The switch on `seqByID[anchor]` is the forest's own: put aside, filed in place, or left out. */
  lemma {:induction false} WhereItGoes(es: seq<Event>, k: nat, seqByID: map<string, nat>)
    requires Filed(es) && k < |es|
    requires forall id | id in seqByID :: exists i :: 0 <= i < |es| && es[i].id == Some(id) && seqByID[id] == es[i].at
    requires forall i | 0 <= i < |es| && es[i].id.Some? :: es[i].id.value in seqByID
    ensures es[k].before.None? ==> InPlace(es, k) && Anchor(es, k).None?
    ensures es[k].before.Some? && es[k].before.value !in seqByID ==> !InPlace(es, k) && Anchor(es, k).None?
    ensures es[k].before.Some? && es[k].before.value in seqByID ==>
              && (InPlace(es, k) <==> seqByID[es[k].before.value] >= es[k].at)
              && (Anchor(es, k).Some? <==> seqByID[es[k].before.value] < es[k].at)
  {
    if es[k].before.Some? && es[k].before.value in seqByID {
      var id := es[k].before.value;
      var i :| 0 <= i < |es| && es[i].id == Some(id) && seqByID[id] == es[i].at;
      BearerIs(es, i);
      if i < k { } else { }
    }
  }
}
