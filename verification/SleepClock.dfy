/** The schedule clock that notices device sleep (crates/rovai-core/src/automation_clock.rs). One host clock counts
    through sleep and one does not; their gap is bracketed between two reads and compared with an earlier gap. */
module SleepClock {
  import opened Options

  const U64_MAX := 0xFFFF_FFFF_FFFF_FFFF
  const TOLERANCE := 1_000_000

  // One bracketed sample. `asleep` is what the code cannot see: the ticks slept since boot, when `continuous` was read.
  datatype Reading = Reading(before: nat, continuous: nat, after: nat, asleep: nat)
  datatype Timebase = Timebase(numer: nat, denom: nat)

  predicate Usable(t: Timebase) { t.numer > 0 && t.denom > 0 }

  /** Ticks to nanoseconds, rounded down. */
  function Nanos(t: Timebase, ticks: nat): nat
    requires Usable(t)
  {
    ticks * t.numer / t.denom
  }

  function SatSub(a: nat, b: nat): nat { if a >= b then a - b else 0 }

  function SatAdd(a: nat, b: nat): nat { if a + b > U64_MAX then U64_MAX else a + b }

  /** sleep_offset_bounds: None when sampling took over a millisecond, or a value does not fit. */
  function Bounds(t: Timebase, r: Reading): (b: Option<(nat, nat)>)
    requires Usable(t)
  {
    if r.after < r.before || Nanos(t, r.after - r.before) > TOLERANCE then None
    else if r.continuous < r.before then None
    else if Nanos(t, SatSub(r.continuous, r.after)) > U64_MAX || Nanos(t, r.continuous - r.before) > U64_MAX then None
    else Some((Nanos(t, SatSub(r.continuous, r.after)), Nanos(t, r.continuous - r.before)))
  }

  /** How the host clocks relate: the read of the running clock falls between the two of the other. */
  ghost predicate Physical(r: Reading) { r.before + r.asleep <= r.continuous <= r.after + r.asleep }

  // Rounding ---------------------------------------------------------------------------------------

  lemma Multiples(a: nat, b: nat, d: nat)
    ensures a <= b ==> a * d <= b * d
  {
  }

  lemma FloorBounds(x: nat, d: nat)
    requires d > 0
    ensures x / d * d <= x < x / d * d + d
  {
    assert x == x / d * d + x % d;
  }

  /** Multiples less than one step apart are in order. */
  lemma Steps(p: nat, q: nat, d: nat)
    requires p * d < q * d + d
    ensures p <= q
  {
    Multiples(q + 1, p, d);
    assert (q + 1) * d == q * d + d;
  }

  lemma FloorMonotone(x: nat, y: nat, d: nat)
    requires d > 0 && x <= y
    ensures x / d <= y / d
  {
    FloorBounds(x, d);
    FloorBounds(y, d);
    Steps(x / d, y / d, d);
  }

  lemma NanosMonotone(t: Timebase, a: nat, b: nat)
    requires Usable(t) && a <= b
    ensures Nanos(t, a) <= Nanos(t, b)
  {
    Multiples(a, b, t.numer);
    FloorMonotone(a * t.numer, b * t.numer, t.denom);
  }

  lemma SumSteps(x: nat, y: nat, p: nat, q: nat, s: nat, d: nat)
    requires p * d <= x < p * d + d && q * d <= y < q * d + d && s * d <= x + y < s * d + d
    ensures p + q <= s <= p + q + 1
  {
    assert (p + q) * d == p * d + q * d && (p + q + 1) * d == p * d + q * d + d;
    Steps(p + q, s, d);
    Steps(s, p + q + 1, d);
  }

  lemma FloorSum(x: nat, y: nat, d: nat)
    requires d > 0
    ensures x / d + y / d <= (x + y) / d <= x / d + y / d + 1
  {
    FloorBounds(x, d);
    FloorBounds(y, d);
    FloorBounds(x + y, d);
    SumSteps(x, y, x / d, y / d, (x + y) / d, d);
  }

  /** Rounding down loses less than one nanosecond on either side of a sum. */
  lemma NanosSum(t: Timebase, a: nat, b: nat)
    requires Usable(t)
    ensures Nanos(t, a) + Nanos(t, b) <= Nanos(t, a + b) <= Nanos(t, a) + Nanos(t, b) + 1
  {
    assert (a + b) * t.numer == a * t.numer + b * t.numer;
    FloorSum(a * t.numer, b * t.numer, t.denom);
  }

  /** The bounds enclose the sleep so far, and lie at most a tolerance and a rounding apart. */
  lemma BoundsEnclose(t: Timebase, r: Reading)
    requires Usable(t) && Physical(r) && Bounds(t, r).Some?
    ensures var (lower, upper) := Bounds(t, r).value;
            lower <= Nanos(t, r.asleep) <= upper <= lower + TOLERANCE + 1
  {
    NanosMonotone(t, SatSub(r.continuous, r.after), r.asleep);
    NanosMonotone(t, r.asleep, r.continuous - r.before);
    NanosSum(t, SatSub(r.continuous, r.after), r.after - r.before);
    NanosMonotone(t, r.continuous - r.before, SatSub(r.continuous, r.after) + (r.after - r.before));
  }

  lemma FloorAtMost(x: nat, d: nat, n: nat)
    requires d > 0
    ensures x / d <= n <==> x < (n + 1) * d
  {
    FloorBounds(x, d);
    assert (n + 1) * d == n * d + d;
    if x / d <= n { Multiples(x / d, n, d); } else { Multiples(n + 1, x / d, d); }
  }

  /** A reading has bounds exactly when it took at most a millisecond, rounded down, its clocks are in order, and the
      longer gap fits 64 bits. */
  lemma BoundsIff(t: Timebase, r: Reading)
    requires Usable(t)
    ensures Bounds(t, r).Some? <==>
      && r.before <= r.after && (r.after - r.before) * t.numer < 1_000_001 * t.denom
      && r.before <= r.continuous && (r.continuous - r.before) * t.numer < 0x1_0000_0000_0000_0000 * t.denom
  {
    if r.before <= r.after { FloorAtMost((r.after - r.before) * t.numer, t.denom, 1_000_000); }
    if r.before <= r.continuous { FloorAtMost((r.continuous - r.before) * t.numer, t.denom, U64_MAX); }
    if r.before <= r.after && r.before <= r.continuous {
      NanosMonotone(t, SatSub(r.continuous, r.after), r.continuous - r.before);
    }
  }

  // The clock --------------------------------------------------------------------------------------

  datatype Clock = Clock(boundary: int, offset: Option<nat>, base: nat) // base: ticks asleep at the baseline sample
  datatype Sample = Sample(now: int, observedAt: int, reading: Option<Reading>) // no reading: no host clock answered

  function BoundsOf(t: Timebase, s: Sample): Option<(nat, nat)>
    requires Usable(t)
  {
    if s.reading.Some? then Bounds(t, s.reading.value) else None
  }

  function Max(a: int, b: int): int { if a >= b then a else b }

  ghost predicate Woke(c: Clock, lower: nat) { c.offset.Some? && lower > SatAdd(c.offset.value, TOLERANCE) }

  /** A new clock takes its first reading as the baseline, if that has bounds. */
  ghost function Started(t: Timebase, now: int, reading: Option<Reading>): Clock
    requires Usable(t)
  {
    var bounds := BoundsOf(t, Sample(now, now, reading));
    if bounds.Some? then Clock(now, Some(bounds.value.1), reading.value.asleep) else Clock(now, None, 0)
  }

  ghost function Observed(t: Timebase, c: Clock, s: Sample): Clock
    requires Usable(t)
  {
    if BoundsOf(t, s).None? then c
    else
      var (lower, upper) := BoundsOf(t, s).value;
      if c.offset.None? || Woke(c, lower) then Clock(Max(c.boundary, s.observedAt), Some(upper), s.reading.value.asleep)
      else c.(offset := Some(if upper < c.offset.value then upper else c.offset.value))
  }

  /** A claim: this sample's time, and the boundary before which schedules are recovered. */
  ghost function Claim(t: Timebase, c: Clock, s: Sample): Option<(int, int)>
    requires Usable(t)
  {
    if BoundsOf(t, s).None? || c.offset.None? || Woke(c, BoundsOf(t, s).value.0) then None
    else Some((s.now, c.boundary))
  }

  class AutomationClock {
    const timebase: Timebase
    var boundary: int
    var offset: Option<nat>
    ghost var base: nat

    ghost function State(): Clock
      reads this
    {
      Clock(boundary, offset, base)
    }

    constructor (timebase: Timebase, now: int, reading: Option<Reading>)
      requires Usable(timebase)
      ensures this.timebase == timebase && boundary == now
      ensures State() == Started(timebase, now, reading)
    {
      this.timebase, boundary := timebase, now;
      var bounds := BoundsOf(timebase, Sample(now, now, reading));
      offset := if bounds.Some? then Some(bounds.value.1) else None;
      base := if bounds.Some? then reading.value.asleep else 0;
    }

    method Observe(s: Sample) returns (claim: Option<(int, int)>)
      requires Usable(timebase)
      modifies this
      ensures State() == Observed(timebase, old(State()), s) && claim == Claim(timebase, old(State()), s)
    {
      var bounds := BoundsOf(timebase, s);
      if bounds.None? { return None; }
      var (lower, upper) := bounds.value;
      match offset {
        case Some(previous) =>
          if lower > SatAdd(previous, TOLERANCE) {
            boundary := Max(boundary, s.observedAt);
            offset := Some(upper);
            base := s.reading.value.asleep;
            return None;
          }
          offset := Some(if previous <= upper then previous else upper);
        case None =>
          boundary := Max(boundary, s.observedAt);
          offset := Some(upper);
          base := s.reading.value.asleep;
          return None;
      }
      return Some((s.now, boundary));
    }
  }

  // Over sequences of samples ----------------------------------------------------------------------

  ghost function After(t: Timebase, c: Clock, samples: seq<Sample>): Clock
    requires Usable(t)
  {
    if samples == [] then c else Observed(t, After(t, c, samples[..|samples| - 1]), samples[|samples| - 1])
  }

  ghost function AsleepAt(s: Sample): nat { if s.reading.Some? then s.reading.value.asleep else 0 }

  /** Readings are physical, and sleep only adds up. */
  ghost predicate Plausible(t: Timebase, base: nat, samples: seq<Sample>)
    requires Usable(t)
  {
    && (forall i | 0 <= i < |samples| && samples[i].reading.Some? ::
          Physical(samples[i].reading.value) && base <= AsleepAt(samples[i]))
    && (forall i, j | 0 <= i < j < |samples| && samples[i].reading.Some? && samples[j].reading.Some? ::
          AsleepAt(samples[i]) <= AsleepAt(samples[j]))
  }

  /** What the stored offset tells about the sleep at the baseline. */
  ghost predicate Sound(t: Timebase, c: Clock)
    requires Usable(t)
  {
    c.offset.Some? ==> Nanos(t, c.base) <= c.offset.value <= Nanos(t, c.base) + TOLERANCE + 1
  }

  /** So a clock is sound from the start, and everything below holds of every sequence of samples of it. */
  lemma StartIsSound(t: Timebase, now: int, reading: Option<Reading>)
    requires Usable(t) && (reading.Some? ==> Physical(reading.value))
    ensures Sound(t, Started(t, now, reading)) && Started(t, now, reading).boundary == now
    ensures Started(t, now, reading).offset.Some? <==> reading.Some? && Bounds(t, reading.value).Some?
  {
    if BoundsOf(t, Sample(now, now, reading)).Some? { BoundsEnclose(t, reading.value); }
  }

  lemma ObservedIsSound(t: Timebase, c: Clock, s: Sample)
    requires Usable(t) && Sound(t, c)
    requires s.reading.Some? ==> Physical(s.reading.value) && (c.offset.Some? ==> c.base <= AsleepAt(s))
    ensures Sound(t, Observed(t, c, s))
  {
    if BoundsOf(t, s).Some? {
      BoundsEnclose(t, s.reading.value);
      if c.offset.Some? { NanosMonotone(t, c.base, AsleepAt(s)); }
    }
  }

  lemma {:induction false} AlwaysSound(t: Timebase, c: Clock, samples: seq<Sample>)
    requires Usable(t) && Sound(t, c) && Plausible(t, c.base, samples)
    ensures Sound(t, After(t, c, samples))
    ensures After(t, c, samples).base == c.base
         || exists i ::
             0 <= i < |samples| && samples[i].reading.Some? && After(t, c, samples).base == AsleepAt(samples[i])
  {
    if samples != [] {
      var init, last := samples[..|samples| - 1], samples[|samples| - 1];
      AlwaysSound(t, c, init);
      var before := After(t, c, init);
      if last.reading.Some? && before.base != c.base {
        var i :| 0 <= i < |init| && init[i].reading.Some? && before.base == AsleepAt(init[i]);
        assert samples[i] == init[i];
      }
      ObservedIsSound(t, before, last);
      var after := After(t, c, samples);
      if after.base != c.base {
        if after.base == before.base {
          var i :| 0 <= i < |init| && init[i].reading.Some? && before.base == AsleepAt(init[i]);
          assert samples[i] == init[i];
        } else {
          assert after.base == AsleepAt(samples[|samples| - 1]);
        }
      }
    }
  }

  lemma BaseBelow(t: Timebase, c: Clock, samples: seq<Sample>, s: Sample)
    requires Usable(t) && Sound(t, c) && Plausible(t, c.base, samples + [s]) && s.reading.Some?
    ensures Sound(t, After(t, c, samples)) && After(t, c, samples).base <= AsleepAt(s) && Physical(s.reading.value)
  {
    var all := samples + [s];
    assert forall i | 0 <= i < |samples| :: all[i] == samples[i];
    assert all[|samples|] == s;
    AlwaysSound(t, c, samples);
  }

  /** Whenever a claim is handed out, the device slept at most 3,000,002 ns since the baseline
      sample, rounding included. */
  lemma ClaimBoundsSleep(t: Timebase, c: Clock, samples: seq<Sample>, s: Sample)
    requires Usable(t) && Sound(t, c) && Plausible(t, c.base, samples + [s])
    requires Claim(t, After(t, c, samples), s).Some?
    ensures var base := After(t, c, samples).base;
            base <= AsleepAt(s) && Nanos(t, AsleepAt(s) - base) <= 3_000_002
  {
    BaseBelow(t, c, samples, s);
    var clock := After(t, c, samples);
    BoundsEnclose(t, s.reading.value);
    NanosSum(t, clock.base, AsleepAt(s) - clock.base);
  }

  /** So a longer sleep is always noticed: no claim, and the boundary moves up to this sample. */
  lemma LongSleepIsNoticed(t: Timebase, c: Clock, samples: seq<Sample>, s: Sample)
    requires Usable(t) && Sound(t, c) && Plausible(t, c.base, samples + [s]) && BoundsOf(t, s).Some?
    requires After(t, c, samples).base <= AsleepAt(s)
    requires Nanos(t, AsleepAt(s) - After(t, c, samples).base) > 3_000_002
    ensures Claim(t, After(t, c, samples), s).None?
    ensures Observed(t, After(t, c, samples), s).boundary >= s.observedAt
  {
    if Claim(t, After(t, c, samples), s).Some? { ClaimBoundsSleep(t, c, samples, s); }
  }

  /** Without sleep an established boundary never moves, and every sample with bounds yields a claim. */
  lemma {:induction false} NoSleepNoMove(t: Timebase, c: Clock, samples: seq<Sample>, s: Sample)
    requires Usable(t) && Sound(t, c) && c.offset.Some? && Plausible(t, c.base, samples + [s])
    requires forall i | 0 <= i < |samples + [s]| && (samples + [s])[i].reading.Some? ::
               AsleepAt((samples + [s])[i]) == c.base
    requires BoundsOf(t, s).Some?
    ensures After(t, c, samples).boundary == c.boundary && After(t, c, samples).offset.Some?
              && After(t, c, samples).base == c.base
    ensures Claim(t, After(t, c, samples), s) == Some((s.now, c.boundary))
    decreases |samples|
  {
    NoSleepKeeps(t, c, samples, s);
    BaseBelow(t, c, samples, s);
    assert (samples + [s])[|samples|] == s;
    NoSleepClaims(t, After(t, c, samples), s);
  }

  lemma NoSleepClaims(t: Timebase, c: Clock, s: Sample)
    requires Usable(t) && Sound(t, c) && c.offset.Some? && BoundsOf(t, s).Some?
    requires Physical(s.reading.value) && AsleepAt(s) == c.base
    ensures Claim(t, c, s) == Some((s.now, c.boundary))
    ensures Observed(t, c, s).boundary == c.boundary && Observed(t, c, s).offset.Some?
              && Observed(t, c, s).base == c.base
  {
    BoundsEnclose(t, s.reading.value);
  }

  lemma {:induction false} NoSleepKeeps(t: Timebase, c: Clock, samples: seq<Sample>, s: Sample)
    requires Usable(t) && Sound(t, c) && c.offset.Some? && Plausible(t, c.base, samples + [s])
    requires forall i | 0 <= i < |samples + [s]| && (samples + [s])[i].reading.Some? ::
               AsleepAt((samples + [s])[i]) == c.base
    ensures After(t, c, samples).boundary == c.boundary && After(t, c, samples).offset.Some?
              && After(t, c, samples).base == c.base
    decreases |samples|
  {
    if samples != [] {
      var init, last := samples[..|samples| - 1], samples[|samples| - 1];
      assert forall i | 0 <= i < |samples| :: (samples + [s])[i] == samples[i];
      assert init + [last] == samples;
      NoSleepKeeps(t, c, init, last);
      if BoundsOf(t, last).Some? {
        BaseBelow(t, c, init, last);
        NoSleepClaims(t, After(t, c, init), last);
      }
    }
  }

  /** A reading that yields no claim is the new baseline: the boundary moves up to it, and never down. */
  lemma NewBaseline(t: Timebase, c: Clock, s: Sample)
    requires Usable(t) && BoundsOf(t, s).Some? && Claim(t, c, s).None?
    ensures var d := Observed(t, c, s);
      && d.boundary >= c.boundary && d.boundary >= s.observedAt && d.boundary in {c.boundary, s.observedAt}
      && d.offset == Some(BoundsOf(t, s).value.1) && d.base == AsleepAt(s)
  {
  }

  /** Every reading with bounds has yielded a claim. */
  ghost predicate Quiet(t: Timebase, c: Clock, samples: seq<Sample>)
    requires Usable(t)
  {
    forall i | 0 <= i < |samples| && BoundsOf(t, samples[i]).Some? ::
      Claim(t, After(t, c, samples[..i]), samples[i]).Some?
  }

  /** The upper bounds since the baseline, and the baseline's own. */
  ghost predicate IsUpper(t: Timebase, c: Clock, samples: seq<Sample>, upper: nat)
    requires Usable(t)
  {
    || c.offset == Some(upper)
    || exists i | 0 <= i < |samples| :: BoundsOf(t, samples[i]).Some? && BoundsOf(t, samples[i]).value.1 == upper
  }

  lemma {:induction false} OffsetIsLeast(t: Timebase, c: Clock, samples: seq<Sample>)
    requires Usable(t) && c.offset.Some? && Quiet(t, c, samples)
    ensures var d := After(t, c, samples);
      && d.boundary == c.boundary && d.base == c.base && d.offset.Some? && IsUpper(t, c, samples, d.offset.value)
      && forall upper: nat | IsUpper(t, c, samples, upper) :: d.offset.value <= upper
  {
    if samples != [] {
      var init, last := samples[..|samples| - 1], samples[|samples| - 1];
      forall i | 0 <= i < |init| && BoundsOf(t, init[i]).Some?
        ensures Claim(t, After(t, c, init[..i]), init[i]).Some?
      {
        assert samples[..i] == init[..i] && samples[i] == init[i];
      }
      OffsetIsLeast(t, c, init);
      assert samples[..|init|] == init && samples[|init|] == last;
      OneMoreUpper(t, c, init, last);
      assert samples == init + [last];
    }
  }

  lemma OneMoreUpper(t: Timebase, c: Clock, samples: seq<Sample>, s: Sample)
    requires Usable(t)
    ensures forall upper: nat :: IsUpper(t, c, samples + [s], upper) <==>
      IsUpper(t, c, samples, upper) || (BoundsOf(t, s).Some? && BoundsOf(t, s).value.1 == upper)
  {
    var all := samples + [s];
    hide BoundsOf;
    forall upper: nat
      ensures IsUpper(t, c, all, upper) <==>
        IsUpper(t, c, samples, upper) || (BoundsOf(t, s).Some? && BoundsOf(t, s).value.1 == upper)
    {
      if IsUpper(t, c, samples, upper) && c.offset != Some(upper) {
        var i :| 0 <= i < |samples| && BoundsOf(t, samples[i]).Some? && BoundsOf(t, samples[i]).value.1 == upper;
        assert all[i] == samples[i];
      }
      assert all[|samples|] == s;
      if IsUpper(t, c, all, upper) && c.offset != Some(upper) {
        var i :| 0 <= i < |all| && BoundsOf(t, all[i]).Some? && BoundsOf(t, all[i]).value.1 == upper;
        assert i < |samples| ==> all[i] == samples[i];
      }
    }
  }

  /** A claim is handed out exactly when this reading's lower bound is at most a millisecond above every upper bound
      since the baseline; it then names the boundary of the baseline. */
  lemma ClaimIff(t: Timebase, c: Clock, samples: seq<Sample>, s: Sample)
    requires Usable(t) && c.offset.Some? && Quiet(t, c, samples) && BoundsOf(t, s).Some?
    ensures var claim := Claim(t, After(t, c, samples), s);
      && (claim.Some? <==>
            forall upper: nat | IsUpper(t, c, samples, upper) :: BoundsOf(t, s).value.0 <= upper + 1_000_000)
      && (claim.Some? ==> claim.value == (s.now, c.boundary))
  {
    OffsetIsLeast(t, c, samples);
    assert BoundsOf(t, s).value.0 <= U64_MAX;
    hide After, Quiet, IsUpper, BoundsOf;
  }

  /** The boundary never moves backwards. */
  lemma {:induction false} BoundaryNeverFalls(t: Timebase, c: Clock, samples: seq<Sample>)
    requires Usable(t)
    ensures After(t, c, samples).boundary >= c.boundary
  {
    if samples != [] { BoundaryNeverFalls(t, c, samples[..|samples| - 1]); }
  }
}
