/** The auto-scaling controller: internal/control/control.go.  Throughput is a real number, so the
    smoothing is exact. */
module Controller {
  datatype Phase = Climbing | Holding | Trimming

  /** One observation.  A guard signal below zero is unknown. */
  datatype Sample = Sample(throughput: real, sysCPU: real, devUtil: real, rotational: bool, blocked: bool)

  datatype Tunables = Tunables(alpha: real, margin: real, dwellN: nat, reprobe: nat, cpuCeil: real, utilCeil: real)

  const DEFAULTS := Tunables(0.35, 0.06, 2, 8, 0.95, 95.0)

  /** The controller's fields. */
  datatype Ctl = Ctl(min: int, max: int, w: int, ema: real, emaSet: bool, refT: real, peakT: real, prevW: int,
                     ph: Phase, dwell: int, hold: int, probeUp: bool, tune: Tunables)

  function Clamp(lo: int, hi: int, x: int): int {
    if x < lo then lo else if x > hi then hi else x
  }

  /** A fresh controller, bounded to [min, max]. */
  function Fresh(min: int, max: int, start: int): Ctl {
    var lo := if min < 1 then 1 else min;
    var hi := if max < lo then lo else max;
    var w := Clamp(lo, hi, start);
    Ctl(lo, hi, w, 0.0, false, 0.0, 0.0, w, Climbing, 0, 0, false, DEFAULTS)
  }

  predicate CanGrow(c: Ctl, s: Sample) {
    && !(s.sysCPU >= 0.0 && s.sysCPU > c.tune.cpuCeil)
    && !(s.rotational && s.devUtil >= 0.0 && s.devUtil > c.tune.utilCeil)
  }

  function Grow(c: Ctl): int {
    var n := c.w + c.w / 2;
    var m := if n <= c.w then c.w + 1 else n;
    if m > c.max then c.max else m
  }

  function Smoothed(c: Ctl, s: Sample): real {
    if !c.emaSet then s.throughput else c.tune.alpha * s.throughput + (1.0 - c.tune.alpha) * c.ema
  }

  /** Every tick folds the sample in, whatever else it does. */
  function Fold(c: Ctl, s: Sample): Ctl {
    c.(ema := Smoothed(c, s), emaSet := true)
  }

  /** A tentative change of w, to be judged after the dwell. */
  function Tentative(c: Ctl, w: int, ph: Phase): Ctl {
    c.(prevW := c.w, w := w, ph := ph, dwell := c.tune.dwellN)
  }

  /** Back to the w before the last change. */
  function Revert(c: Ctl): Ctl {
    c.(w := c.prevW, ph := Holding, hold := 0, dwell := c.tune.dwellN)
  }

  function AfterClimb(c: Ctl, s: Sample): Ctl {
    if c.ema > c.refT * (1.0 + c.tune.margin) then
      var d := c.(refT := c.ema, peakT := if c.ema > c.peakT then c.ema else c.peakT);
      if CanGrow(c, s) && c.w < c.max then Tentative(d, Grow(d), Climbing)
      else d.(ph := Holding, hold := 0)
    else Revert(c)
  }

  /** Up and down probes alternate, each falling back to the other. */
  function Probe(c: Ctl, s: Sample): Ctl {
    if c.probeUp && CanGrow(c, s) && c.w < c.max then Tentative(c, Grow(c), Climbing)
    else if c.w > c.min then Tentative(c, c.w - 1, Trimming)
    else if CanGrow(c, s) && c.w < c.max then Tentative(c, Grow(c), Climbing)
    else c
  }

  function AfterHold(c: Ctl, s: Sample): Ctl {
    var d := c.(hold := c.hold + 1, refT := c.ema, peakT := if c.ema > c.peakT then c.ema else c.peakT);
    if d.hold < c.tune.reprobe then d else Probe(d.(hold := 0, probeUp := !d.probeUp), s)
  }

  function AfterTrim(c: Ctl): Ctl {
    if c.ema >= c.peakT * (1.0 - c.tune.margin) then c.(refT := c.ema, ph := Holding, hold := 0)
    else Revert(c)
  }

  /** One tick. */
  function Tick(c: Ctl, s: Sample): Ctl {
    var d := Fold(c, s);
    if d.dwell > 0 then d.(dwell := d.dwell - 1)
    else if s.blocked then
      if CanGrow(d, s) && d.w < d.max then d.(prevW := d.w, w := Grow(d), dwell := d.tune.dwellN) else d
    else
      var e := match d.ph
               case Climbing => AfterClimb(d, s)
               case Holding => AfterHold(d, s)
               case Trimming => AfterTrim(d);
      e.(w := Clamp(e.min, e.max, e.w))
  }

  /** What every tick keeps: the limits, the bounds of w and of the w to go back to. */
  predicate Ok(c: Ctl) {
    && 1 <= c.min <= c.max
    && c.min <= c.w <= c.max && c.min <= c.prevW <= c.max
    && (c.ph.Climbing? ==> c.prevW <= c.w)
    && 0 <= c.dwell <= c.tune.dwellN
  }

  class Controller {
    var min: int
    var max: int
    var w: int
    var ema: real
    var emaSet: bool
    var refT: real
    var peakT: real
    var prevW: int
    var ph: Phase
    var dwell: int
    var hold: int
    var probeUp: bool
    var tune: Tunables

    ghost function Model(): Ctl
      reads this
    {
      Ctl(min, max, w, ema, emaSet, refT, peakT, prevW, ph, dwell, hold, probeUp, tune)
    }

    constructor (min: int, max: int, start: int)
      ensures Model() == Fresh(min, max, start)
    {
      var lo, hi, w0 := min, max, start;
      if lo < 1 { lo := 1; }
      if hi < lo { hi := lo; }
      if w0 < lo { w0 := lo; }
      if w0 > hi { w0 := hi; }
      this.min, this.max, w, prevW := lo, hi, w0, w0;
      ema, emaSet, refT, peakT := 0.0, false, 0.0, 0.0;
      ph, dwell, hold, probeUp, tune := Climbing, 0, 0, false, DEFAULTS;
    }

    method MayGrow(s: Sample) returns (ok: bool)
      ensures ok == CanGrow(Model(), s)
    {
      if s.sysCPU >= 0.0 && s.sysCPU > tune.cpuCeil {
        return false;
      }
      if s.rotational && s.devUtil >= 0.0 && s.devUtil > tune.utilCeil {
        return false;
      }
      return true;
    }

    method Grown() returns (n: int)
      ensures n == Grow(Model())
    {
      n := w + w / 2;
      if n <= w { n := w + 1; }
      if n > max { n := max; }
    }

    /** The last increase paid off, or it did not. */
    method JudgeClimb(s: Sample)
      modifies this
      ensures Model() == AfterClimb(old(Model()), s)
    {
      if ema > refT * (1.0 + tune.margin) {
        refT := ema;
        if ema > peakT { peakT := ema; }
        var canGrow := MayGrow(s);
        if canGrow && w < max {
          var grown := Grown();
          prevW, w, ph, dwell := w, grown, Climbing, tune.dwellN;
        } else {
          ph, hold := Holding, 0;
        }
      } else {
        w, ph, hold, dwell := prevW, Holding, 0, tune.dwellN;
      }
    }

    method ContinueHold(s: Sample)
      modifies this
      ensures Model() == AfterHold(old(Model()), s)
    {
      hold := hold + 1;
      refT := ema;
      if ema > peakT { peakT := ema; }
      if hold >= tune.reprobe {
        hold, probeUp := 0, !probeUp;
        StartProbe(s);
      }
    }

    method StartProbe(s: Sample)
      modifies this
      ensures Model() == Probe(old(Model()), s)
    {
      var canGrow := MayGrow(s);
      var grown := Grown();
      if probeUp && canGrow && w < max {
        prevW, w, ph, dwell := w, grown, Climbing, tune.dwellN;
      } else if w > min {
        prevW, w, ph, dwell := w, w - 1, Trimming, tune.dwellN;
      } else if canGrow && w < max {
        prevW, w, ph, dwell := w, grown, Climbing, tune.dwellN;
      }
    }

    method JudgeTrim()
      modifies this
      ensures Model() == AfterTrim(old(Model()))
    {
      if ema >= peakT * (1.0 - tune.margin) {
        refT, ph, hold := ema, Holding, 0;
      } else {
        w, ph, hold, dwell := prevW, Holding, 0, tune.dwellN;
      }
    }

    /** Folds in a sample and returns the limit. */
    method Update(s: Sample) returns (r: int)
      requires 1 <= min <= max
      modifies this
      ensures Model() == Tick(old(Model()), s) && r == w
    {
      if !emaSet {
        ema, emaSet := s.throughput, true;
      } else {
        ema := tune.alpha * s.throughput + (1.0 - tune.alpha) * ema;
      }
      assert Model() == Fold(old(Model()), s);
      if dwell > 0 {
        dwell := dwell - 1;
        return w;
      }
      if s.blocked {
        var canGrow := MayGrow(s);
        if canGrow && w < max {
          var grown := Grown();
          prevW, w, dwell := w, grown, tune.dwellN;
        }
        return w;
      }
      match ph {
        case Climbing => JudgeClimb(s);
        case Holding => ContinueHold(s);
        case Trimming => JudgeTrim();
      }
      if w < min { w := min; }
      if w > max { w := max; }
      return w;
    }
  }

  // ---- One tick, in numbers ----

  /** The smoothed throughput that a tick judges by. */
  predicate FoldsTo(c: Ctl, s: Sample, e: real) {
    e == if c.emaSet then c.tune.alpha * s.throughput + (1.0 - c.tune.alpha) * c.ema else s.throughput
  }

  /** The processors are not full, and neither is a disk that rotates; a signal below zero says nothing. */
  predicate Free(c: Ctl, s: Sample) {
    (s.sysCPU < 0.0 || s.sysCPU <= c.tune.cpuCeil) && (s.rotational ==> s.devUtil < 0.0 || s.devUtil <= c.tune.utilCeil)
  }

  /** From w half as many more, but one at least, and no more than max. */
  predicate GrownFrom(w: int, max: int, w': int) {
    w' == if w + w / 2 > w then (if w + w / 2 < max then w + w / 2 else max) else (if w + 1 < max then w + 1 else max)
  }

  function Larger(x: real, y: real): real {
    if x < y then y else x
  }

  /** While a change settles nothing is judged. */
  lemma DwellTick(c: Ctl, s: Sample, e: real)
    requires Ok(c) && c.dwell > 0 && FoldsTo(c, s, e)
    ensures Tick(c, s) == c.(ema := e, emaSet := true, dwell := c.dwell - 1)
  {
  }

  /** A stall is no verdict: w grows if the guards let it, and the phase and its references stay. */
  lemma BlockedTick(c: Ctl, s: Sample, e: real)
    requires Ok(c) && c.dwell == 0 && s.blocked && FoldsTo(c, s, e)
    ensures var d := Tick(c, s);
            if Free(c, s) && c.w < c.max
            then GrownFrom(c.w, c.max, d.w)
                 && d == c.(ema := e, emaSet := true, prevW := c.w, w := d.w, dwell := c.tune.dwellN)
            else d == c.(ema := e, emaSet := true)
  {
  }

  /** A rise that paid off by more than the margin is followed by another, if the guards and max allow it; one that
      did not is undone. */
  lemma ClimbTick(c: Ctl, s: Sample, e: real)
    requires Ok(c) && c.dwell == 0 && !s.blocked && c.ph.Climbing? && FoldsTo(c, s, e)
    ensures var d := Tick(c, s);
            if e <= c.refT * (1.0 + c.tune.margin)
            then d == c.(ema := e, emaSet := true, w := c.prevW, ph := Holding, hold := 0, dwell := c.tune.dwellN)
            else if Free(c, s) && c.w < c.max
            then GrownFrom(c.w, c.max, d.w)
                 && d == c.(ema := e, emaSet := true, refT := e, peakT := Larger(c.peakT, e), prevW := c.w, w := d.w,
                            dwell := c.tune.dwellN)
            else d == c.(ema := e, emaSet := true, refT := e, peakT := Larger(c.peakT, e), ph := Holding, hold := 0)
  {
  }

  /** At rest the references follow the throughput. */
  lemma RestTick(c: Ctl, s: Sample, e: real)
    requires Ok(c) && c.dwell == 0 && !s.blocked && c.ph.Holding? && c.hold + 1 < c.tune.reprobe && FoldsTo(c, s, e)
    ensures var d := Tick(c, s);
            d == c.(ema := e, emaSet := true, refT := e, peakT := Larger(c.peakT, e), hold := c.hold + 1)
  {
    var d := c.(ema := e, emaSet := true);
    assert Fold(c, s) == d;
    assert AfterHold(d, s) == d.(hold := c.hold + 1, refT := e, peakT := Larger(c.peakT, e));
  }

  /** After reprobe ticks at rest w is probed: up in every other turn, down in the others, each if it can be and
      else the other way. */
  lemma ProbeTick(c: Ctl, s: Sample, e: real)
    requires Ok(c) && c.dwell == 0 && !s.blocked && c.ph.Holding? && c.hold + 1 >= c.tune.reprobe && FoldsTo(c, s, e)
    ensures var d, r := Tick(c, s), c.(ema := e, emaSet := true, refT := e, peakT := Larger(c.peakT, e), hold := 0);
            var up := Free(c, s) && c.w < c.max;
            var tried := r.(probeUp := !c.probeUp, prevW := c.w, w := d.w, dwell := c.tune.dwellN);
            if up && (!c.probeUp || c.w == c.min) then GrownFrom(c.w, c.max, d.w) && d == tried.(ph := Climbing)
            else if c.w > c.min then d.w == c.w - 1 && d == tried.(ph := Trimming)
            else d == r.(probeUp := !c.probeUp)
  {
  }

  /** A trim that cost no more than the margin of the best stays, any other is undone. */
  lemma TrimTick(c: Ctl, s: Sample, e: real)
    requires Ok(c) && c.dwell == 0 && !s.blocked && c.ph.Trimming? && FoldsTo(c, s, e)
    ensures var d := Tick(c, s);
            if e >= c.peakT * (1.0 - c.tune.margin)
            then d == c.(ema := e, emaSet := true, refT := e, ph := Holding, hold := 0)
            else d == c.(ema := e, emaSet := true, w := c.prevW, ph := Holding, hold := 0, dwell := c.tune.dwellN)
  {
    var d := c.(ema := e, emaSet := true);
    assert Fold(c, s) == d;
    assert AfterTrim(d).w == if e >= c.peakT * (1.0 - c.tune.margin) then c.w else c.prevW;
  }

  /** New limits, in numbers: min is at least 1, max at least min, and w within them. */
  lemma FreshInNumbers(min: int, max: int, start: int)
    ensures var c := Fresh(min, max, start);
            && c.min >= 1 && c.min >= min && (c.min == 1 || c.min == min)
            && c.max >= c.min && c.max >= max && (c.max == c.min || c.max == max)
            && c.min <= c.w <= c.max && (c.min <= start <= c.max ==> c.w == start)
            && (start < c.min ==> c.w == c.min) && (start > c.max ==> c.w == c.max)
            && c.prevW == c.w && c.ph.Climbing? && c.dwell == 0 && c.hold == 0 && !c.probeUp && !c.emaSet
            && c.refT == 0.0 && c.peakT == 0.0
            && c.tune == Tunables(0.35, 0.06, 2, 8, 0.95, 95.0)
  {
  }

  // ---- Every sample sequence ----

  /** states are the controller's values from c on, one tick per sample. */
  predicate Run(c: Ctl, samples: seq<Sample>, states: seq<Ctl>) {
    && |states| == |samples| + 1 && states[0] == c
    && forall k :: 0 <= k < |samples| ==> states[k + 1] == Tick(states[k], samples[k])
  }

  lemma TickKeeps(c: Ctl, s: Sample)
    requires Ok(c)
    ensures Ok(Tick(c, s))
    ensures Tick(c, s).min == c.min && Tick(c, s).max == c.max && Tick(c, s).tune == c.tune
  {
  }

  /** w rises only by a growth step that the guards allow, or when a failed trim is undone. */
  predicate RiseAllowed(c: Ctl, s: Sample, d: Ctl) {
    || (CanGrow(c, s) && c.w < c.max && d.w == Grow(c) && d.prevW == c.w)
    || (c.ph.Trimming? && !s.blocked && d.w == c.prevW && d.ema < c.peakT * (1.0 - c.tune.margin))
  }

  /** w changes only when the dwell is over, and every change starts a full dwell. */
  lemma TickChanges(c: Ctl, s: Sample)
    requires Ok(c)
    ensures var d := Tick(c, s);
            && (c.dwell > 0 ==> d.w == c.w && d.dwell == c.dwell - 1)
            && (d.w != c.w ==> c.dwell == 0 && d.dwell == c.tune.dwellN)
            && (d.w > c.w ==> RiseAllowed(c, s, d))
  {
  }

  /** A fresh controller is in order, whatever limits it is asked for. */
  lemma FreshIsOk(min: int, max: int, start: int)
    ensures Ok(Fresh(min, max, start))
  {
  }

  /** For every sample sequence, any tunables and any controller in order, W stays in [min, max]. */
  lemma {:induction false} AlwaysBounded(c: Ctl, samples: seq<Sample>, states: seq<Ctl>, n: nat)
    requires Ok(c) && Run(c, samples, states) && n < |states|
    ensures Ok(states[n]) && states[n].min == c.min && states[n].max == c.max && states[n].tune == c.tune
  {
    if n > 0 {
      AlwaysBounded(c, samples, states, n - 1);
      TickKeeps(states[n - 1], samples[n - 1]);
    }
  }

  /** After a change, each of the next dwellN ticks leaves w alone. */
  lemma {:induction false} DwellHolds(c: Ctl, samples: seq<Sample>, states: seq<Ctl>, i: nat, k: nat)
    requires Ok(c) && Run(c, samples, states) && i < |samples| && states[i + 1].w != states[i].w
    requires i + 1 + k < |states| && k <= c.tune.dwellN
    ensures states[i + 1 + k].w == states[i + 1].w && states[i + 1 + k].dwell == c.tune.dwellN - k
  {
    AlwaysBounded(c, samples, states, i + k);
    TickChanges(states[i + k], samples[i + k]);
    if k > 0 {
      DwellHolds(c, samples, states, i, k - 1);
    }
  }

  /** Any two changes of W are separated by at least dwellN unchanged ticks. */
  lemma ChangesAreApart(c: Ctl, samples: seq<Sample>, states: seq<Ctl>, i: nat, j: nat)
    requires Ok(c) && Run(c, samples, states) && i < j < |samples|
    requires states[i + 1].w != states[i].w && states[j + 1].w != states[j].w
    ensures j - i > c.tune.dwellN
  {
    if j - i <= c.tune.dwellN {
      DwellHolds(c, samples, states, i, j - i - 1);
      DwellHolds(c, samples, states, i, j - i);
    }
  }

  /** Every rise of W in a run has one of the two causes. */
  lemma RisesHaveCause(c: Ctl, samples: seq<Sample>, states: seq<Ctl>, i: nat)
    requires Ok(c) && Run(c, samples, states) && i < |samples| && states[i + 1].w > states[i].w
    ensures RiseAllowed(states[i], samples[i], states[i + 1])
  {
    AlwaysBounded(c, samples, states, i);
    TickChanges(states[i], samples[i]);
  }

  // ---- Growing throughput ----

  /** Load that more workers keep carrying: no stall, guards free, and each sample at least 1.2 times what was
      smoothed before. */
  predicate Scaling(samples: seq<Sample>, states: seq<Ctl>)
    requires |states| == |samples| + 1
  {
    forall k :: 0 <= k < |samples| ==>
      && !samples[k].blocked && Free(states[k], samples[k])
      && 0.0 < samples[k].throughput && (states[k].emaSet ==> samples[k].throughput >= 1.2 * states[k].ema)
  }

  /** w after k rises in a row. */
  function Risen(w: int, max: int, k: nat): int {
    if k == 0 then w
    else
      var v := Risen(w, max, k - 1);
      var u := if v + v / 2 > v then v + v / 2 else v + 1;
      if u < max then u else max
  }

  lemma {:induction false} RisenBounds(w: int, max: int, k: nat)
    requires 1 <= w <= max
    ensures w <= Risen(w, max, k) <= max && (Risen(w, max, k) == max || Risen(w, max, k) >= w + k)
    ensures k > 0 && Risen(w, max, k - 1) == max ==> Risen(w, max, k) == max
  {
    if k > 0 { RisenBounds(w, max, k - 1); }
  }

  /** Two rises at least double a w above one. */
  lemma {:induction false} TwoRisesDouble(w: int, max: int, k: nat)
    requires 2 <= w <= max
    ensures Risen(w, max, 2 * k) == max || Risen(w, max, 2 * k) >= w * Power2(k)
  {
    if k > 0 {
      TwoRisesDouble(w, max, k - 1);
      RisenBounds(w, max, 2 * k - 2);
      var v, u := Risen(w, max, 2 * k - 2), Risen(w, max, 2 * k - 1);
      assert Risen(w, max, 2 * k) == max || Risen(w, max, 2 * k) >= 2 * v;
      if v < max { Doubles(w, v, Power2(k - 1)); }
    }
  }

  lemma Doubles(w: int, v: int, p: int)
    requires v >= w * p
    ensures 2 * v >= w * (2 * p)
  {
  }

  function Power2(k: nat): int {
    if k == 0 then 1 else 2 * Power2(k - 1)
  }

  /** Climbing since the start, three ticks to a rise. */
  predicate Climber(f: Ctl, c: Ctl, n: nat) {
    && Ok(c) && c.tune == DEFAULTS && c.min == f.min && c.max == f.max && c.ph.Climbing?
    && c.w == Risen(f.w, f.max, (n + 2) / 3) && c.dwell == (3 - n % 3) % 3
    && (if n == 0 then !c.emaSet && c.refT == 0.0 else c.emaSet && 0.0 < c.ema && 0.0 <= c.refT <= c.ema)
  }

  /** A sample of a growing load is past the margin. */
  lemma ScalingPays(c: Ctl, s: Sample, e: real)
    requires c.tune == DEFAULTS && FoldsTo(c, s, e) && 0.0 < s.throughput && 0.0 <= c.refT
    requires if c.emaSet then 0.0 < c.ema && c.refT <= c.ema && s.throughput >= 1.2 * c.ema else c.refT == 0.0
    ensures e > c.refT * (1.0 + c.tune.margin) && 0.0 < e && (c.emaSet ==> c.ema <= e)
  {
  }

  lemma ClimberClimbs(f: Ctl, c: Ctl, n: nat, s: Sample)
    requires Climber(f, c, n) && !s.blocked && Free(c, s)
    requires 0.0 < s.throughput && (c.emaSet ==> s.throughput >= 1.2 * c.ema)
    requires c.dwell == 0 ==> c.w < c.max
    ensures Climber(f, Tick(c, s), n + 1)
  {
    var e := if c.emaSet then c.tune.alpha * s.throughput + (1.0 - c.tune.alpha) * c.ema else s.throughput;
    ScalingPays(c, s, e);
    if c.dwell > 0 {
      DwellTick(c, s, e);
      assert (n + 1 + 2) / 3 == (n + 2) / 3;
    } else {
      ClimbTick(c, s, e);
      assert n % 3 == 0 && (n + 1 + 2) / 3 == (n + 2) / 3 + 1;
    }
  }

  /** Until max is reached, every third tick is a rise. */
  lemma {:induction false} ClimbRun(min: int, max: int, start: int, samples: seq<Sample>, states: seq<Ctl>, n: nat)
    requires Run(Fresh(min, max, start), samples, states) && Scaling(samples, states) && n < |states|
    requires var f := Fresh(min, max, start); n == 0 || Risen(f.w, f.max, (n - 1) / 3) < f.max
    ensures Climber(Fresh(min, max, start), states[n], n)
  {
    if n > 0 {
      var f := Fresh(min, max, start);
      NotYetAtMax(f.w, f.max, n);
      ClimbRun(min, max, start, samples, states, n - 1);
      ClimberClimbs(f, states[n - 1], n - 1, samples[n - 1]);
    }
  }

  lemma NotYetAtMax(w: int, max: int, n: nat)
    requires 1 <= w <= max && n > 0 && Risen(w, max, (n - 1) / 3) < max
    ensures n > 1 ==> Risen(w, max, (n - 2) / 3) < max
    ensures (n - 1) % 3 == 0 ==> Risen(w, max, (n - 1 + 2) / 3) < max
  {
    if n > 1 {
      RisenBounds(w, max, (n - 1) / 3);
      RisenBounds(w, max, (n - 2) / 3);
      assert (n - 2) / 3 == (n - 1) / 3 || (n - 2) / 3 == (n - 1) / 3 - 1;
    }
    assert (n - 1) % 3 == 0 ==> (n + 1) / 3 == (n - 1) / 3;
  }

  /** Under a load that keeps growing W reaches max: after k rises, 3k - 2 ticks, whenever k rises are enough for
      max; as many as the distance always are, and of a start above one twice its doublings. */
  lemma ScalingReachesMax(min: int, max: int, start: int, samples: seq<Sample>, states: seq<Ctl>, k: nat)
    requires Run(Fresh(min, max, start), samples, states) && Scaling(samples, states) && 3 * k <= |samples|
    requires var f := Fresh(min, max, start);
             f.max <= f.w + k || (2 <= f.w && k % 2 == 0 && f.max <= f.w * Power2(k / 2))
    ensures exists n :: 0 <= n <= 3 * k && states[n].w == Fresh(min, max, start).max
  {
    var f := Fresh(min, max, start);
    FreshIsOk(min, max, start);
    RisenBounds(f.w, f.max, k);
    if 2 <= f.w && k % 2 == 0 { TwoRisesDouble(f.w, f.max, k / 2); }
    assert Risen(f.w, f.max, k) == f.max;
    var j := FirstAtMax(f.w, f.max, k);
    if j == 0 {
      assert states[0].w == f.max;
    } else {
      var n := 3 * j - 2;
      assert (n - 1) / 3 == j - 1 && (n + 2) / 3 == j;
      ClimbRun(min, max, start, samples, states, n);
      assert states[n].w == f.max;
    }
  }

  lemma {:induction false} FirstAtMax(w: int, max: int, k: nat) returns (j: nat)
    requires Risen(w, max, k) == max && 1 <= w <= max
    ensures j <= k && Risen(w, max, j) == max && (j > 0 ==> Risen(w, max, j - 1) < max)
  {
    j := k;
    RisenBounds(w, max, k);
    if k > 0 {
      RisenBounds(w, max, k - 1);
      if Risen(w, max, k - 1) == max { j := FirstAtMax(w, max, k - 1); }
    }
  }

  /** Nothing holds w down, and the throughput doubles from tick to tick. */
  predicate Doubling(samples: seq<Sample>) {
    forall k :: 0 <= k < |samples| ==> samples[k] == Sample(Power2(k) as real, -1.0, -1.0, false, false)
  }

  lemma {:induction false} DoublingEma(f: Ctl, samples: seq<Sample>, states: seq<Ctl>, n: nat)
    requires Run(f, samples, states) && n <= |samples| && Doubling(samples) && f.tune == DEFAULTS && !f.emaSet
    ensures states[n].tune == DEFAULTS && (n == 0 <==> !states[n].emaSet)
    ensures Power2(n) >= 1 && (n > 0 ==> 0.0 < states[n].ema <= Power2(n - 1) as real)
  {
    if n > 0 {
      DoublingEma(f, samples, states, n - 1);
      TickFolds(states[n - 1], samples[n - 1]);
      EmaBelow(states[n - 1], samples[n - 1], Power2(n - 1) as real);
    }
  }

  lemma Twice(p: int, e: real)
    requires 0.0 < e <= p as real
    ensures (2 * p) as real >= 1.2 * e
  {
  }

  /** Such a load: one that doubles from tick to tick. */
  lemma DoublingScales(min: int, max: int, start: int, samples: seq<Sample>, states: seq<Ctl>)
    requires Run(Fresh(min, max, start), samples, states) && Doubling(samples)
    ensures Scaling(samples, states)
  {
    forall k | 0 <= k < |samples|
      ensures !samples[k].blocked && Free(states[k], samples[k]) && 0.0 < samples[k].throughput
      ensures states[k].emaSet ==> samples[k].throughput >= 1.2 * states[k].ema
    {
      DoublingEma(Fresh(min, max, start), samples, states, k);
      if k > 0 { Twice(Power2(k - 1), states[k].ema); }
    }
  }

  lemma EmaBelow(c: Ctl, s: Sample, p: real)
    requires c.tune == DEFAULTS && s.throughput == p && 0.0 < p && (c.emaSet ==> 0.0 < c.ema <= p)
    ensures forall e :: FoldsTo(c, s, e) ==> 0.0 < e <= p
  {
  }

  lemma TickFolds(c: Ctl, s: Sample)
    ensures Tick(c, s).emaSet && FoldsTo(c, s, Tick(c, s).ema) && Tick(c, s).tune == c.tune
  {
  }

  // ---- Constant throughput ----

  /** Constant non-negative throughput, never blocked; the guard signals are free. */
  predicate Steady(samples: seq<Sample>, t: real) {
    0.0 <= t && forall k :: 0 <= k < |samples| ==> samples[k].throughput == t && !samples[k].blocked
  }

  /** The w the controller will be at once the current probe is over. */
  function Base(c: Ctl): int {
    if c.ph.Climbing? then c.prevW else c.w
  }

  /** The controller has seen only throughput t. */
  predicate Settled(c: Ctl, t: real) {
    && Ok(c) && c.tune == DEFAULTS && 0.0 <= t
    && c.emaSet && c.ema == t && c.peakT == t
    && (c.ph.Climbing? ==> c.refT == t)
    && 0 <= c.hold < 8
  }

  /** How many ticks the base can stay where it is. */
  function Patience(c: Ctl): int {
    match c.ph
    case Holding => if c.probeUp then c.dwell + 8 - c.hold else c.dwell + 21 - c.hold
    case Climbing => if c.probeUp then c.dwell + 11 else c.dwell + 24
    case Trimming => if c.probeUp then c.dwell + 9 else c.dwell + 22
  }

  /** Ticks to go until the base is min, at 24 for each step down. */
  function Potential(c: Ctl): int {
    24 * (Base(c) - c.min) + Patience(c)
  }

  /** The first tick settles a fresh controller. */
  lemma FirstTick(min: int, max: int, start: int, s: Sample)
    requires 0.0 <= s.throughput && !s.blocked
    ensures var f := Fresh(min, max, start); var c := Tick(f, s);
            && Settled(c, s.throughput) && c.min == f.min
            && (Base(c) == f.w || Base(c) == c.min)
            && Potential(c) <= 24 * (f.w - f.min) + 26
  {
  }

  /** Every later tick keeps it settled; above min the potential falls, at min the base stays. */
  lemma SettledTick(c: Ctl, s: Sample, t: real)
    requires Settled(c, t) && s.throughput == t && !s.blocked
    ensures var d := Tick(c, s);
            && Settled(d, t) && d.min == c.min
            && (Base(c) > c.min ==> Potential(d) < Potential(c))
            && (Base(c) == c.min ==> Base(d) == c.min)
            && (c.ph.Climbing? && c.dwell > 0 ==> d.ph.Climbing? && d.dwell == c.dwell - 1)
            && (c.ph.Climbing? && c.dwell == 0 ==> d.ph.Holding? && d.w == c.prevW)
  {
  }

  lemma {:induction false} SettledRun(min: int, max: int, start: int, samples: seq<Sample>, states: seq<Ctl>,
      t: real, n: nat)
    requires Steady(samples, t) && Run(Fresh(min, max, start), samples, states) && 1 <= n < |states|
    ensures var f := Fresh(min, max, start);
            && Settled(states[n], t) && states[n].min == f.min
            && (Base(states[n]) == f.min || Potential(states[n]) <= 24 * (f.w - f.min) + 27 - n)
  {
    if n == 1 {
      FirstTick(min, max, start, samples[0]);
    } else {
      SettledRun(min, max, start, samples, states, t, n - 1);
      SettledTick(states[n - 1], samples[n - 1], t);
    }
  }

  /** A probe above the base is reverted as soon as its dwell is over. */
  lemma {:induction false} ProbeReverts(c: Ctl, samples: seq<Sample>, states: seq<Ctl>, t: real)
    requires Steady(samples, t) && Run(c, samples, states) && Settled(c, t) && c.ph.Climbing?
    requires c.dwell + 1 < |states|
    ensures states[c.dwell + 1].w == c.prevW && states[c.dwell + 1].ph.Holding?
    decreases c.dwell
  {
    SettledTick(c, samples[0], t);
    if c.dwell > 0 {
      assert Tick(c, samples[0]).prevW == c.prevW;
      ProbeReverts(states[1], samples[1..], states[1..], t);
    }
  }

  /** Under constant non-negative throughput with no blocked sample, whatever the guards say, a fresh
      controller is down to min within 24 ticks for each step plus 3.  From then on W is min, except in a
      probe, and each probe is back at min after its dwell. */
  lemma ConvergesToMin(min: int, max: int, start: int, samples: seq<Sample>, states: seq<Ctl>, t: real, n: nat)
    requires Steady(samples, t) && Run(Fresh(min, max, start), samples, states) && n < |states|
    requires var f := Fresh(min, max, start); 24 * (f.w - f.min) + 3 <= n
    ensures var f, c := Fresh(min, max, start), states[n];
            || c.w == f.min
            || (c.ph.Climbing? && c.prevW == f.min && 0 <= c.dwell <= 2
                && (n + c.dwell + 1 < |states| ==>
                      states[n + c.dwell + 1].w == f.min && states[n + c.dwell + 1].ph.Holding?))
  {
    SettledRun(min, max, start, samples, states, t, n);
    var c := states[n];
    if c.ph.Climbing? && n + c.dwell + 1 < |states| {
      ProbeReverts(c, samples[n..], states[n..], t);
    }
  }

  /** And W does reach min in that time: the descent is by trims, which leave W at its base. */
  lemma {:induction false} ReachesMin(min: int, max: int, start: int, samples: seq<Sample>, states: seq<Ctl>, t: real)
    requires Steady(samples, t) && Run(Fresh(min, max, start), samples, states)
    requires var f := Fresh(min, max, start); 24 * (f.w - f.min) + 6 <= |samples|
    ensures var f := Fresh(min, max, start);
            exists n :: 0 <= n <= 24 * (f.w - f.min) + 6 && states[n].w == f.min
  {
    var f := Fresh(min, max, start);
    var n := 24 * (f.w - f.min) + 3;
    ConvergesToMin(min, max, start, samples, states, t, n);
    if states[n].w != f.min {
      assert states[n + states[n].dwell + 1].w == f.min;
    }
  }
}
