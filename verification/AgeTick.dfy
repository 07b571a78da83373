/**
 When a drawn age stops being true: `AgeScale` and `AgeTick.nextChange`
 (CodeConnectKit/Sources/CodeConnectKit/AgeTick.swift), against what `Format.age`,
 `Format.spokenDuration` and `CCWaitClock.clock` draw and speak. Instants are reals,
 in seconds.
 */
module AgeTick {
  import opened Wrappers

  datatype Band = Band(below: real, step: real)

  datatype AgeScale = AgeScale(bands: seq<Band>, coarsest: real)

  const AGE: AgeScale := AgeScale([Band(60.0, 1.0), Band(3600.0, 60.0)], 3600.0)

  const CLOCK: AgeScale := AgeScale([Band(3600.0, 1.0), Band(86400.0, 60.0)], 3600.0)

  function StepFor(bands: seq<Band>, coarsest: real, age: real): real {
    if bands == [] then coarsest
    else if age < bands[0].below then bands[0].step
    else StepFor(bands[1..], coarsest, age)
  }

  /** `step(forAge:)`: the first band the age is below. */
  method StepForAge(scale: AgeScale, age: real) returns (step: real)
    ensures step == StepFor(scale.bands, scale.coarsest, age)
  {
    for i := 0 to |scale.bands|
      invariant StepFor(scale.bands, scale.coarsest, age) == StepFor(scale.bands[i..], scale.coarsest, age)
    {
      assert scale.bands[i..][1..] == scale.bands[i + 1..];
      if age < scale.bands[i].below { return scale.bands[i].step; }
    }
    return scale.coarsest;
  }

  function Elapsed(since: real, now: real): real { if now < since then 0.0 else now - since }

  function Finest(scale: AgeScale): real {
    if scale.bands == [] then scale.coarsest else scale.bands[0].step
  }

  predicate Steps(scale: AgeScale) {
    scale.coarsest > 0.0 && forall i | 0 <= i < |scale.bands| :: scale.bands[i].step > 0.0
  }

  lemma {:induction false} StepIsPositive(bands: seq<Band>, coarsest: real, age: real)
    requires coarsest > 0.0 && forall i | 0 <= i < |bands| :: bands[i].step > 0.0
    ensures StepFor(bands, coarsest, age) > 0.0
    decreases |bands|
  {
    if bands != [] && age >= bands[0].below { StepIsPositive(bands[1..], coarsest, age); }
  }

  function NextChange(since: real, now: real, scale: AgeScale): real
    requires Steps(scale)
  {
    StepIsPositive(scale.bands, scale.coarsest, Elapsed(since, now));
    var step := StepFor(scale.bands, scale.coarsest, Elapsed(since, now));
    var candidate := since + ((Elapsed(since, now) / step).Floor as real + 1.0) * step;
    if candidate > now then candidate else now + Finest(scale)
  }

  // ------------------------------------------------------------ what is drawn

  /** A printed or spoken age, by its unit and count; the words for each are one string apiece. */
  datatype Printed = Seconds(n: int) | Minutes(n: int) | Hours(n: int) | Days(n: int)

  datatype TwoUnits = JustSeconds(s: int) | MinutesSeconds(m: int, s: int) | HoursMinutes(h: int, m: int) | DaysHours(d: int, h: int)

  /** `Format.age` */
  function Drawn(age: real): Printed
    requires age >= 0.0
  {
    if age < 1.0 then Seconds(0)
    else if age < 60.0 then Seconds(age.Floor)
    else if age < 3600.0 then Minutes((age / 60.0).Floor)
    else if age < 86400.0 then Hours((age / 3600.0).Floor)
    else Days((age / 86400.0).Floor)
  }

  /** `Format.spokenDuration`: whole seconds first, and never past hours. */
  function Spoken(age: real): Printed
    requires age >= 0.0
  {
    var seconds := age.Floor;
    if seconds < 60 then Seconds(seconds)
    else if seconds < 3600 then Minutes(seconds / 60)
    else Hours(seconds / 3600)
  }

  /** `CCWaitClock.clock` */
  function Clocked(age: real): TwoUnits
    requires age >= 0.0
  {
    var total := age.Floor;
    if total < 60 then JustSeconds(total)
    else if total < 3600 then MinutesSeconds(total / 60, total % 60)
    else if total < 86400 then HoursMinutes(total / 3600, total % 3600 / 60)
    else DaysHours(total / 86400, total % 86400 / 3600)
  }

  // -------------------------------------------------- cells between two changes

  /** Whole units are the same whether seconds are counted whole first or not. */
  lemma WholeUnits(age: real)
    requires age >= 0.0
    ensures (age / 1.0).Floor == age.Floor && (age / 60.0).Floor == age.Floor / 60
    ensures (age / 3600.0).Floor == age.Floor / 3600 && (age / 86400.0).Floor == age.Floor / 86400
  {
    var f := age.Floor;
    assert f as real <= age < f as real + 1.0;
    var m, h, d := f / 60, f / 3600, f / 86400;
    assert 60 * m <= f <= 60 * m + 59 && 3600 * h <= f <= 3600 * h + 3599 && 86400 * d <= f <= 86400 * d + 86399;
    assert 60.0 * m as real <= age < 60.0 * m as real + 60.0;
    assert 3600.0 * h as real <= age < 3600.0 * h as real + 3600.0;
    assert 86400.0 * d as real <= age < 86400.0 * d as real + 86400.0;
  }

  /** The step an age is drawn at. */
  function AgeStep(age: real): int { if age < 60.0 then 1 else if age < 3600.0 then 60 else 3600 }

  function ClockStep(age: real): int { if age < 3600.0 then 1 else if age < 86400.0 then 60 else 3600 }

  lemma StepsOfScales(age: real)
    ensures StepFor(AGE.bands, AGE.coarsest, age) == AgeStep(age) as real
    ensures StepFor(CLOCK.bands, CLOCK.coarsest, age) == ClockStep(age) as real
  {
    TwoBands(60.0, 1.0, 3600.0, 60.0, 3600.0, age);
    TwoBands(3600.0, 1.0, 86400.0, 60.0, 3600.0, age);
  }

  lemma TwoBands(b0: real, s0: real, b1: real, s1: real, coarsest: real, age: real)
    ensures StepFor([Band(b0, s0), Band(b1, s1)], coarsest, age) == if age < b0 then s0 else if age < b1 then s1 else coarsest
  {
    var bands := [Band(b0, s0), Band(b1, s1)];
    assert bands[1..] == [Band(b1, s1)] && bands[1..][1..] == [];
    assert StepFor(bands[1..][1..], coarsest, age) == coarsest;
    assert StepFor(bands[1..], coarsest, age) == if age < b1 then s1 else coarsest;
  }

  /** What is drawn and spoken, from whole seconds. */
  function DrawnWhole(f: nat): (Printed, Printed) {
    if f < 60 then (Seconds(f), Seconds(f))
    else if f < 3600 then (Minutes(f / 60), Minutes(f / 60))
    else (if f < 86400 then Hours(f / 3600) else Days(f / 86400), Hours(f / 3600))
  }

  lemma DrawnIsWhole(age: real)
    requires age >= 0.0
    ensures (Drawn(age), Spoken(age)) == DrawnWhole(age.Floor)
  {
    WholeUnits(age);
  }

  /** The drawn-and-spoken pair is the same exactly while the whole steps are. */
  lemma {:induction false} AgeCell(f: nat, g: nat)
    requires f <= g
    ensures var step := if f < 60 then 1 else if f < 3600 then 60 else 3600;
      DrawnWhole(g) == DrawnWhole(f) <==> g / step == f / step
  {
    if 60 <= f < 3600 {
      assert g >= 3600 ==> g / 60 >= 60 > f / 60;
    } else if f >= 3600 {
      assert f / 86400 == (f / 3600) / 24 && g / 86400 == (g / 3600) / 24;
      assert f < 86400 <==> f / 3600 < 24;
      assert g < 86400 <==> g / 3600 < 24;
    }
  }

  lemma {:induction false} ClockCell(f: nat, g: nat, age: real, later: real)
    requires 0.0 <= age && 0.0 <= later && f == age.Floor && g == later.Floor && f <= g
    ensures var step := if f < 3600 then 1 else if f < 86400 then 60 else 3600;
      (Clocked(later), Spoken(later)) == (Clocked(age), Spoken(age)) <==> g / step == f / step
  {
    if f < 3600 {
      assert f == f / 60 * 60 + f % 60 && g == g / 60 * 60 + g % 60;
    } else if f < 86400 {
      assert f / 60 == f / 3600 * 60 + f % 3600 / 60 && g / 60 == g / 3600 * 60 + g % 3600 / 60;
      assert g >= 86400 ==> g / 60 >= 1440 > f / 60;
    } else {
      assert f / 3600 == f / 86400 * 24 + f % 86400 / 3600 && g / 3600 == g / 86400 * 24 + g % 86400 / 3600;
    }
  }

  /** The whole steps of a later age reach one more exactly at the next multiple of the step. */
  lemma NextMultiple(age: real, later: real, step: int)
    requires 0.0 <= age <= later && step in {1, 60, 3600}
    ensures var next := ((age / (step as real)).Floor as real + 1.0) * (step as real);
      && age < next <= age + step as real
      && (later.Floor / step == age.Floor / step <==> later < next)
  {
    WholeUnits(age);
    WholeUnits(later);
    var k := age.Floor / step;
    assert (age / (step as real)).Floor == k;
    if step == 1 {
      assert (k as real + 1.0) * 1.0 == k as real + 1.0;
    } else if step == 60 {
      assert age / 60.0 < k as real + 1.0 && age / 60.0 >= k as real;
    } else {
      assert age / 3600.0 < k as real + 1.0 && age / 3600.0 >= k as real;
    }
  }

  /** What a scale's view draws and speaks of an age. */
  datatype Face = AgeFace(drawn: Printed, spoken: Printed) | ClockFace(clock: TwoUnits, said: Printed)

  function FaceOf(scale: AgeScale, age: real): Face
    requires age >= 0.0
  {
    if scale == AGE then AgeFace(Drawn(age), Spoken(age)) else ClockFace(Clocked(age), Spoken(age))
  }

  function FaceAt(scale: AgeScale, since: real, at: real): Face { FaceOf(scale, Elapsed(since, at)) }

  /** The instant, counted from the timestamp, at which the step after this age's begins. */
  function NextStep(age: real, step: real): real
    requires step > 0.0
  {
    ((age / step).Floor as real + 1.0) * step
  }

  lemma WholeAges(age: real)
    requires age >= 0.0
    ensures AgeStep(age) == if age.Floor < 60 then 1 else if age.Floor < 3600 then 60 else 3600
    ensures ClockStep(age) == if age.Floor < 3600 then 1 else if age.Floor < 86400 then 60 else 3600
  {
  }

  lemma FaceOfAge(age: real, later: real)
    requires 0.0 <= age <= later
    ensures var next := NextStep(age, AgeStep(age) as real);
      && age < next <= age + AgeStep(age) as real && (FaceOf(AGE, later) == FaceOf(AGE, age) <==> later < next)
  {
    hide Drawn, Spoken, Clocked, DrawnWhole;
    WholeAges(age);
    NextMultiple(age, later, AgeStep(age));
    DrawnIsWhole(age);
    DrawnIsWhole(later);
    AgeCell(age.Floor, later.Floor);
  }

  lemma FaceOfClock(age: real, later: real)
    requires 0.0 <= age <= later
    ensures var next := NextStep(age, ClockStep(age) as real);
      && age < next <= age + ClockStep(age) as real && (FaceOf(CLOCK, later) == FaceOf(CLOCK, age) <==> later < next)
  {
    hide Drawn, Spoken, Clocked, DrawnWhole;
    ScalesDiffer();
    WholeAges(age);
    NextMultiple(age, later, ClockStep(age));
    ClockCell(age.Floor, later.Floor, age, later);
  }

  lemma ScalesDiffer()
    ensures AGE != CLOCK
  {
    assert AGE.bands[0].below != CLOCK.bands[0].below;
  }

  /**
   **The next change is the next change**: from now until it, what is drawn and spoken
   stays exactly what it is, and at it, it does not. Counted from the timestamp it is a
   multiple of the step, never more than one step away from an age already begun, and
   the guard against a busy wait is never needed.
   */
  lemma {:induction false} NextChangeIsExact(scale: AgeScale, since: real, now: real, at: real)
    requires scale == AGE || scale == CLOCK
    requires now <= at
    ensures Steps(scale)
    ensures var next := NextChange(since, now, scale);
      && next > now
      && (since <= now ==> next - now <= StepFor(scale.bands, scale.coarsest, now - since))
      && (FaceAt(scale, since, at) == FaceAt(scale, since, now) <==> at < next)
      && (now < since ==> next == since + 1.0)
      && exists k: nat :: StepsFrom(since, next, StepFor(scale.bands, scale.coarsest, Elapsed(since, now)), k)
  {
    hide FaceOf, AgeStep, ClockStep, StepFor, NextStep, NextChange;
    StepsAreSteps();
    var age, later := Elapsed(since, now), Elapsed(since, at);
    StepsOfScales(age);
    if scale == AGE { FaceOfAge(age, later); } else { FaceOfClock(age, later); }
    FirstStep();
    NextChangeIsNextStep(scale, since, now);
  }

  /** Where the step after this age's begins in the future, the guard is not needed. */
  lemma NextChangeIsNextStep(scale: AgeScale, since: real, now: real)
    requires Steps(scale)
    requires StepFor(scale.bands, scale.coarsest, Elapsed(since, now)) > 0.0
    requires NextStep(Elapsed(since, now), StepFor(scale.bands, scale.coarsest, Elapsed(since, now))) > Elapsed(since, now)
    ensures NextChange(since, now, scale)
         == since + NextStep(Elapsed(since, now), StepFor(scale.bands, scale.coarsest, Elapsed(since, now)))
    ensures exists k: nat ::
              StepsFrom(since, NextChange(since, now, scale), StepFor(scale.bands, scale.coarsest, Elapsed(since, now)), k)
  {
    hide StepFor;
    var step := StepFor(scale.bands, scale.coarsest, Elapsed(since, now));
    var whole := (Elapsed(since, now) / step).Floor;
    WholeIsCounted(Elapsed(since, now), step);
    assert StepsFrom(since, NextChange(since, now, scale), step, whole + 1);
  }

  /** `at` is `k` whole steps after `since`. */
  predicate StepsFrom(since: real, at: real, step: real, k: nat) { at == since + k as real * step }

  lemma WholeIsCounted(age: real, step: real)
    requires age >= 0.0 && step > 0.0
    ensures (age / step).Floor >= 0
  {
    assert age / step >= 0.0;
  }

  lemma StepsAreSteps()
    ensures Steps(AGE) && Steps(CLOCK)
  {
  }

  lemma FirstStep()
    ensures AgeStep(0.0) == 1 && ClockStep(0.0) == 1 && NextStep(0.0, 1.0) == 1.0
  {
    assert (0.0 / 1.0).Floor == 0;
  }

  function RenderTime(lastTick: real, wallClock: real): real { if lastTick < wallClock then wallClock else lastTick }

  /** A view's clock never goes back while its ticks do not, whatever the device's does. */
  lemma {:induction false} RenderTimeIsMonotone(tick: real, wall: real, tick': real, wall': real)
    requires tick' == RenderTime(tick, wall)
    ensures RenderTime(tick', wall') >= RenderTime(tick, wall) && RenderTime(tick', wall') >= wall'
  {
  }
}
