/**
 * The flood simulator. Each call of `GenerateRealisticData` produces one sample of
 * the downstream level A, the upstream level B and the flow, driven by a five-phase
 * machine NORMAL -> RAINING -> RISING -> PEAK -> FALLING -> NORMAL with fixed call
 * budgets. A is B replayed through a fixed-depth lag queue. The random draws of a
 * call are a parameter, so that the phase budgets, the interpolation end points and
 * the queue replay hold whatever the noise is. Levels are exact reals.
 */
module Sensor {
  import opened Common

  const BaseMucNuocA: real := 5.0     // cm
  const BaseMucNuocB: real := 4.0     // cm
  const BaseLuuLuong: real := 2.0     // m3/s
  const PeakMucNuocA: real := 30.0
  const PeakMucNuocB: real := 28.0
  const PeakLuuLuong: real := 15.0
  const DangerLevelA: real := 28.0
  const DangerLevelB: real := 25.0
  const DangerLevelBPeak: real := 28.0
  const RainDurationSteps: int := 10
  const FloodRiseTime: int := 30
  const FloodPeakTime: int := 15
  const FloodFallTime: int := 30
  const ALagTimeSteps: int := 15
  const UpdateIntervalMs: int := 2000
  /** `UPDATE_INTERVAL_MS / 1000`: the seconds one call stands for. */
  const SecondsPerCall: real := 2.0
  /** Per-call chance of a rain event while NORMAL. */
  const RainChance: real := 0.001

  /** B's rise per RISING call, the calls B needs to reach 25 cm and the calls A needs to reach danger. */
  const BRisePerStep: real := 0.8
  const BStepsToDanger: real := 26.25
  const ATotalStepsToDanger: real := 51.25

  /**
   * The three derived constants follow from the base ones: the rise per call spreads
   * B's base-to-peak distance over the RISING budget, and A's expected time to danger
   * adds the rain, B's climb to 25 cm and the lag.
   */
  lemma DerivedConstants()
    ensures BRisePerStep == (PeakMucNuocB - BaseMucNuocB) / FloodRiseTime as real
    ensures BStepsToDanger == (DangerLevelB - BaseMucNuocB) / BRisePerStep
    ensures ATotalStepsToDanger == RainDurationSteps as real + BStepsToDanger + ALagTimeSteps as real
    ensures SecondsPerCall == UpdateIntervalMs as real / 1000.0
  {
  }

  // ---------------------------------------------------------------------------
  // Phase machine

  datatype Phase = NORMAL | RAINING | RISING | PEAK | FALLING

  /** The phase and the calls already counted in it (`currentState`, `stateStepCounter`). */
  datatype Clock = Clock(phase: Phase, counter: int)

  /** The number of calls each flood phase lasts. */
  function Budget(p: Phase): int {
    match p
    case NORMAL => 0
    case RAINING => RainDurationSteps
    case RISING => FloodRiseTime
    case PEAK => FloodPeakTime
    case FALLING => FloodFallTime
  }

  function Successor(p: Phase): Phase {
    match p
    case NORMAL => RAINING
    case RAINING => RISING
    case RISING => PEAK
    case PEAK => FALLING
    case FALLING => NORMAL
  }

  /** The counter is 0 in NORMAL and below the phase budget in every other phase. */
  predicate ClockOk(c: Clock) {
    if c.phase == NORMAL then c.counter == 0 else 0 <= c.counter < Budget(c.phase)
  }

  /** The phase a call's switch handles: NORMAL turns into RAINING when the rain draw fires. */
  function SwitchPhase(p: Phase, rainStarts: bool): Phase {
    if p == NORMAL && rainStarts then RAINING else p
  }

  /**
   * The phase machine of one call: the random rain trigger, then one counted call in
   * the current phase and a move to the next phase once its budget is used up.
   */
  function NextClock(c: Clock, rainStarts: bool): (n: Clock)
    ensures n.phase == c.phase || n.phase == Successor(c.phase)
    ensures c.phase == NORMAL ==> (n.phase == RAINING <==> rainStarts)
    ensures n.phase != c.phase ==> n.counter == (if c.phase == NORMAL then 1 else 0)
    ensures c.phase != NORMAL && c.counter >= 0 ==> (n.phase != c.phase <==> c.counter + 1 >= Budget(c.phase))
    ensures ClockOk(c) ==> ClockOk(n)
  {
    var start := if c.phase == NORMAL && rainStarts then Clock(RAINING, 0) else c;
    if start.phase == NORMAL then start
    else if start.counter + 1 >= Budget(start.phase) then Clock(Successor(start.phase), 0)
    else Clock(start.phase, start.counter + 1)
  }

  /** Outside NORMAL the rain draw has no effect on the phase machine. */
  lemma RainDrawIgnoredDuringFlood(c: Clock)
    requires c.phase != NORMAL
    ensures NextClock(c, true) == NextClock(c, false)
  {
  }

  /** `n` calls without rain draws firing. */
  function ClockRun(c: Clock, n: nat): Clock
    decreases n
  {
    if n == 0 then c else ClockRun(NextClock(c, false), n - 1)
  }

  lemma {:induction false} ClockRunLast(c: Clock, n: nat)
    ensures ClockRun(c, n + 1) == NextClock(ClockRun(c, n), false)
    decreases n
  {
    if n > 0 {
      ClockRunLast(NextClock(c, false), n - 1);
    }
  }

  lemma {:induction false} ClockRunAdd(c: Clock, m: nat, n: nat)
    ensures ClockRun(c, m + n) == ClockRun(ClockRun(c, m), n)
    decreases m
  {
    if m > 0 {
      ClockRunAdd(NextClock(c, false), m - 1, n);
    }
  }

  /**
   * Each flood phase entered with counter `j` stays for exactly the rest of its
   * budget: after `k` more calls it is still that phase with counter `j + k`, until
   * the budget is reached, when the next phase starts with counter 0.
   */
  lemma {:induction false} PhaseBudget(p: Phase, j: int, k: nat)
    requires p != NORMAL && 0 <= j < Budget(p) && j + k <= Budget(p)
    ensures ClockRun(Clock(p, j), k) ==
      if j + k < Budget(p) then Clock(p, j + k) else Clock(Successor(p), 0)
    decreases k
  {
    if k > 0 {
      if j + 1 < Budget(p) {
        PhaseBudget(p, j + 1, k - 1);
      }
    }
  }

  /**
   * RAINING lasts exactly 10 calls counting the call whose draw starts the rain;
   * the next call starts RISING.
   */
  lemma RainingSpansTenCalls(k: nat)
    requires k < RainDurationSteps - 1
    ensures NextClock(Clock(NORMAL, 0), true) == Clock(RAINING, 1)
    ensures ClockRun(Clock(RAINING, 1), k) == Clock(RAINING, k + 1)
    ensures ClockRun(Clock(RAINING, 1), RainDurationSteps - 1) == Clock(RISING, 0)
  {
    PhaseBudget(RAINING, 1, k);
    PhaseBudget(RAINING, 1, RainDurationSteps - 1);
  }

  /**
   * A whole flood: the call that starts the rain and 84 more calls lead back to
   * NORMAL, through RISING (30 calls), PEAK (15) and FALLING (30).
   */
  lemma FloodCycle()
    ensures ClockRun(Clock(RAINING, 1), 9) == Clock(RISING, 0)
    ensures ClockRun(Clock(RAINING, 1), 39) == Clock(PEAK, 0)
    ensures ClockRun(Clock(RAINING, 1), 54) == Clock(FALLING, 0)
    ensures ClockRun(Clock(RAINING, 1), 84) == Clock(NORMAL, 0)
  {
    PhaseBudget(RAINING, 1, 9);
    PhaseBudget(RISING, 0, 30);
    PhaseBudget(PEAK, 0, 15);
    PhaseBudget(FALLING, 0, 30);
    ClockRunAdd(Clock(RAINING, 1), 9, 30);
    ClockRunAdd(Clock(RAINING, 1), 39, 15);
    ClockRunAdd(Clock(RAINING, 1), 54, 30);
  }

  // ---------------------------------------------------------------------------
  // Danger countdown

  /** Calls since the rain started (the starting call counts as 1). */
  function Elapsed(c: Clock): int {
    match c.phase
    case NORMAL => 0
    case RAINING => c.counter
    case RISING => RainDurationSteps + c.counter
    case PEAK => RainDurationSteps + FloodRiseTime + c.counter
    case FALLING => RainDurationSteps + FloodRiseTime + FloodPeakTime + c.counter
  }

  /** The countdown the simulator reports: twice the remaining calls, never negative, absent in NORMAL. */
  function ReportedCountdown(phase: Phase, dangerCountdown: real): (r: Option<real>)
    ensures r.None? <==> phase == NORMAL
    ensures r.Some? ==> r.value >= 0.0 && r.value >= 2.0 * dangerCountdown
    ensures r.Some? ==> r.value == Max(0.0, 2.0 * dangerCountdown)
  {
    if phase != NORMAL then Some(Max(0.0, dangerCountdown * SecondsPerCall)) else None
  }

  /**
   * Along a flood, the k-th call since the rain started is in a flood phase and has
   * counted k calls, so the countdown it reports is max(0, 2 * (51.25 - k)) seconds,
   * which reaches 0 from the 52nd call on.
   */
  lemma {:induction false} CountdownAlongFlood(k: nat)
    requires 1 <= k <= 84
    ensures var c := ClockRun(Clock(RAINING, 1), k - 1);
      && c.phase != NORMAL && ClockOk(c) && Elapsed(c) == k
      && ReportedCountdown(c.phase, ATotalStepsToDanger - k as real) == Some(Max(0.0, 2.0 * (51.25 - k as real)))
      && (ReportedCountdown(c.phase, ATotalStepsToDanger - k as real) == Some(0.0) <==> k >= 52)
  {
    if k > 1 {
      CountdownAlongFlood(k - 1);
      ClockRunLast(Clock(RAINING, 1), k - 2);
      var c := ClockRun(Clock(RAINING, 1), k - 2);
      assert ClockOk(c) && Elapsed(c) == k - 1;
    }
  }

  // ---------------------------------------------------------------------------
  // Remaining-ticks interpolation

  /** `x += (target - x) / remaining`, done only while calls remain. */
  function Approach(x: real, target: real, remaining: int): (r: real)
    ensures remaining == 1 ==> r == target
    ensures remaining >= 1 && x <= target ==> x <= r <= target
    ensures remaining >= 1 && target <= x ==> target <= r <= x
  {
    if remaining > 0 then x + (target - x) / remaining as real else x
  }

  /** FALLING's `x -= (x - base) / remaining` is the same step as `Approach`. */
  lemma RecedeIsApproach(x: real, base: real, remaining: int)
    requires remaining > 0
    ensures x - (x - base) / remaining as real == Approach(x, base, remaining)
  {
    var r := remaining as real;
    assert (x - base) / r == -((base - x) / r);
  }

  /** `k` interpolation calls with the remaining count going down by one each call. */
  function Glide(x: real, target: real, remaining: int, k: nat): real
    decreases k
  {
    if k == 0 then x else Glide(Approach(x, target, remaining), target, remaining - 1, k - 1)
  }

  /** The same, with the level clamped to [lo, hi] after every call, as the simulator does with B. */
  function ClampedGlide(x: real, target: real, remaining: int, k: nat, lo: real, hi: real): real
    requires lo <= hi
    decreases k
  {
    if k == 0 then x else ClampedGlide(Clamp(Approach(x, target, remaining), lo, hi), target, remaining - 1, k - 1, lo, hi)
  }

  /** One interpolation call leaves (remaining - 1) / remaining of the gap. */
  lemma ApproachGap(x: real, target: real, remaining: int)
    requires remaining > 0
    ensures (target - Approach(x, target, remaining)) * remaining as real == (target - x) * (remaining - 1) as real
  {
    var r := remaining as real;
    var d := target - x;
    assert (d / r) * r == d;
    assert (d - d / r) * r == d * r - (d / r) * r;
  }

  lemma CancelFactor(a: real, b: real, c: real)
    requires c != 0.0 && a * c == b * c
    ensures a == b
  {
    assert (a - b) * c == 0.0;
  }

  /** The arithmetic of one induction step of `GlideGap`. */
  lemma GapStep(g: real, e: real, d: real, r: real, m: real)
    requires r > 1.0 && g * (r - 1.0) == e * m && e * r == d * (r - 1.0)
    ensures g * r == d * m
  {
    calc {
      (g * r) * (r - 1.0);
      (g * (r - 1.0)) * r;
      (e * m) * r;
      (e * r) * m;
      (d * (r - 1.0)) * m;
      (d * m) * (r - 1.0);
    }
    CancelFactor(g * r, d * m, r - 1.0);
  }

  /**
   * Remaining-ticks interpolation closes the gap linearly: after k of `remaining`
   * calls the gap to the target is (remaining - k) / remaining of the original.
   */
  lemma {:induction false} GlideGap(x: real, target: real, remaining: int, k: nat)
    requires 0 < remaining && k <= remaining
    ensures (target - Glide(x, target, remaining, k)) * remaining as real == (target - x) * (remaining - k) as real
    decreases k
  {
    if k > 0 {
      var x1 := Approach(x, target, remaining);
      if remaining == 1 {
        assert Glide(x, target, remaining, k) == x1 == target;
      } else {
        GlideGap(x1, target, remaining - 1, k - 1);
        GlideGapStep(x, target, remaining, k, Glide(x1, target, remaining - 1, k - 1));
      }
    }
  }

  /** The induction step of `GlideGap`, from the gap left after the first call. */
  lemma GlideGapStep(x: real, target: real, remaining: int, k: nat, rest: real)
    requires 1 < remaining && 0 < k <= remaining
    requires (target - rest) * (remaining - 1) as real
             == (target - Approach(x, target, remaining)) * (remaining - 1 - (k - 1)) as real
    ensures (target - rest) * remaining as real == (target - x) * (remaining - k) as real
  {
    ApproachGap(x, target, remaining);
    GapStep(target - rest, target - Approach(x, target, remaining), target - x, remaining as real, (remaining - k) as real);
  }

  /** Clamping is inert while both the level and the target are inside the bounds. */
  lemma {:induction false} ClampedGlideIsGlide(x: real, target: real, remaining: int, k: nat, lo: real, hi: real)
    requires lo <= x <= hi && lo <= target <= hi && k <= remaining
    ensures ClampedGlide(x, target, remaining, k, lo, hi) == Glide(x, target, remaining, k)
    decreases k
  {
    if k > 0 {
      var x1 := Approach(x, target, remaining);
      assert lo <= x1 <= hi;
      ClampedGlideIsGlide(x1, target, remaining - 1, k - 1, lo, hi);
    }
  }

  /** After all `remaining` calls the level is exactly on the target. */
  lemma GlideLands(x: real, target: real, remaining: int)
    requires 0 < remaining
    ensures Glide(x, target, remaining, remaining) == target
  {
    GlideGap(x, target, remaining, remaining);
    CancelFactor(target - Glide(x, target, remaining, remaining), 0.0, remaining as real);
  }

  /**
   * In exact arithmetic B lands on its peak on the last RISING call and on its
   * baseline on the last FALLING call, from any level in range; the flow, which is
   * not clamped, lands on its peak and baseline the same way.
   */
  lemma InterpolationEndpoints(b: real, flow: real)
    requires 0.0 <= b <= PeakMucNuocB
    ensures ClampedGlide(b, PeakMucNuocB, FloodRiseTime, FloodRiseTime, 0.0, PeakMucNuocB) == PeakMucNuocB
    ensures ClampedGlide(b, BaseMucNuocB, FloodFallTime, FloodFallTime, 0.0, PeakMucNuocB) == BaseMucNuocB
    ensures Glide(flow, PeakLuuLuong, FloodRiseTime, FloodRiseTime) == PeakLuuLuong
    ensures Glide(flow, BaseLuuLuong, FloodFallTime, FloodFallTime) == BaseLuuLuong
  {
    ClampedGlideIsGlide(b, PeakMucNuocB, FloodRiseTime, FloodRiseTime, 0.0, PeakMucNuocB);
    ClampedGlideIsGlide(b, BaseMucNuocB, FloodFallTime, FloodFallTime, 0.0, PeakMucNuocB);
    GlideLands(b, PeakMucNuocB, FloodRiseTime);
    GlideLands(b, BaseMucNuocB, FloodFallTime);
    GlideLands(flow, PeakLuuLuong, FloodRiseTime);
    GlideLands(flow, BaseLuuLuong, FloodFallTime);
  }

  /** The NORMAL random walk: `x += (draw - 0.5) * step; x -= (x - base) * 0.1`. */
  function MeanRevert(x: real, draw: real, step: real, base: real): real {
    var y := x + (draw - 0.5) * step;
    y - (y - base) * 0.1
  }

  // ---------------------------------------------------------------------------
  // Lag queue

  function MinInt(x: int, y: int): int { if x < y then x else y }

  /** One call's push onto the lag queue and the shift once it holds more than 15 values. */
  function LagPush(queue: seq<real>, b: real): (r: (seq<real>, Option<real>))
    ensures |queue| <= ALagTimeSteps ==> |r.0| <= ALagTimeSteps
    ensures r.1.Some? <==> |queue| >= ALagTimeSteps
  {
    var q := queue + [b];
    if |q| > ALagTimeSteps then (q[1..], Some(q[0])) else (q, None)
  }

  /** The queue after pushing every value of `pushed`, starting empty. */
  function LagQueue(pushed: seq<real>): seq<real> {
    if pushed == [] then [] else LagPush(LagQueue(pushed[..|pushed| - 1]), pushed[|pushed| - 1]).0
  }

  /** The value shifted out by the push of the last value of `pushed`. */
  function LagOutput(pushed: seq<real>): Option<real>
    requires pushed != []
  {
    LagPush(LagQueue(pushed[..|pushed| - 1]), pushed[|pushed| - 1]).1
  }

  /**
   * The lag queue holds the last min(n, 15) pushed values, so it never grows past
   * 15; from the 16th call on, every call shifts out the value pushed 15 calls
   * earlier.
   */
  lemma {:induction false} LagReplay(pushed: seq<real>)
    ensures var n := |pushed|;
      LagQueue(pushed) == pushed[n - MinInt(n, ALagTimeSteps)..]
    ensures |LagQueue(pushed)| <= ALagTimeSteps
    ensures pushed != [] ==>
      LagOutput(pushed) == if |pushed| > ALagTimeSteps then Some(pushed[|pushed| - 1 - ALagTimeSteps]) else None
  {
    if pushed != [] {
      var n := |pushed|;
      var init := pushed[..n - 1];
      LagReplay(init);
      assert init[n - 1 - MinInt(n - 1, ALagTimeSteps)..] + [pushed[n - 1]] == pushed[n - 1 - MinInt(n - 1, ALagTimeSteps)..];
    }
  }

  // ---------------------------------------------------------------------------
  // Tier classification and the edge-triggered log

  /** A's status: strict cutoffs 28 / 25 / 20. */
  function ClassifyA(a: real): (status: string)
    ensures IsStatus(status)
    ensures status == Danger <==> a > DangerLevelA
    ensures status == High <==> 25.0 < a <= DangerLevelA
    ensures status == Warning <==> 20.0 < a <= 25.0
  {
    if a > DangerLevelA then Danger
    else if a > 25.0 then High
    else if a > 20.0 then Warning
    else Normal
  }

  /** B's status: danger from 28 inclusive, then strict cutoffs 25 / 20. */
  function ClassifyB(b: real): (status: string)
    ensures IsStatus(status)
    ensures status == Danger <==> b >= DangerLevelBPeak
    ensures status == High <==> DangerLevelB < b < DangerLevelBPeak
    ensures status == Warning <==> 20.0 < b <= DangerLevelB
  {
    if b >= DangerLevelBPeak then Danger
    else if b > DangerLevelB then High
    else if b > 20.0 then Warning
    else Normal
  }

  /** The two classifications agree on every level except exactly 28, where only B is in danger. */
  lemma ClassifiersDifferOnlyAtPeak(x: real)
    ensures ClassifyA(x) != ClassifyB(x) <==> x == 28.0
    ensures x == 28.0 ==> ClassifyA(x) == High && ClassifyB(x) == Danger
  {
  }

  /** A higher level never gives a less severe status. */
  lemma ClassifyMonotone(x: real, y: real)
    requires x <= y
    ensures Severity(ClassifyA(x)) <= Severity(ClassifyA(y))
    ensures Severity(ClassifyB(x)) <= Severity(ClassifyB(y))
  {
  }

  /** A's notice text for each status. */
  function MessageA(status: string): string {
    if status == Danger then "Mực nước A VƯỢT NGƯỠNG 28cm!"
    else if status == High then "Mực nước A trên 25cm!"
    else if status == Warning then "Mực nước A trên 20cm!"
    else "An toàn"
  }

  datatype Gauge = GaugeA | GaugeB

  /** One console line: an alert for a status, or the "safe" line when the status is normal. */
  datatype LogLine = LogLine(gauge: Gauge, status: string)

  /**
   * The edge-triggered log of one gauge: a line only when the status differs from
   * the last logged one, and the "safe" line only on a return from another status.
   */
  function EdgeLog(status: string, lastLogged: string): (line: Option<string>)
    requires IsStatus(status)
    ensures line.Some? <==> status != lastLogged
    ensures line.Some? ==> line.value == status
    ensures line == Some(Normal) ==> lastLogged != Normal
  {
    if status == lastLogged then None
    else if status == Warning || status == High || status == Danger then Some(status)
    else if status == Normal && lastLogged != Normal then Some(status)
    else None
  }

  /** The line, if any, one gauge logs on one call. */
  function LogLines(gauge: Gauge, status: string, lastLogged: string): (lines: seq<LogLine>)
    requires IsStatus(status)
    ensures |lines| <= 1
  {
    if EdgeLog(status, lastLogged).Some? then [LogLine(gauge, status)] else []
  }

  predicate AllStatuses(ss: seq<string>) {
    forall i :: 0 <= i < |ss| ==> IsStatus(ss[i])
  }

  /** The lines logged for a series of statuses, the last logged status being updated after each. */
  function EdgeLogs(lastLogged: string, ss: seq<string>): (lines: seq<Option<string>>)
    requires AllStatuses(ss)
    ensures |lines| == |ss|
    decreases ss
  {
    if ss == [] then [] else [EdgeLog(ss[0], lastLogged)] + EdgeLogs(ss[0], ss[1..])
  }

  /** Over a series of calls, a line is logged exactly at the calls whose status differs from the previous call's. */
  lemma {:induction false} LogOnlyOnChange(lastLogged: string, ss: seq<string>, i: nat)
    requires AllStatuses(ss) && i < |ss|
    ensures EdgeLogs(lastLogged, ss)[i].Some? <==> ss[i] != (if i == 0 then lastLogged else ss[i - 1])
    decreases i
  {
    if i > 0 {
      LogOnlyOnChange(ss[0], ss[1..], i - 1);
    }
  }

  // ---------------------------------------------------------------------------
  // The simulator

  /** The `Math.random()` draws of one call; each is used only in the branch that needs it. */
  datatype Draws = Draws(
    rain: real,        // NORMAL: starts the rain when below 0.001
    walkA: real,       // NORMAL: A's random walk
    walkB: real,       // NORMAL: B's random walk
    walkFlow: real,    // NORMAL: the flow's random walk
    peakB: real,       // PEAK: B's noise
    peakFlow: real,    // PEAK: the flow's noise
    lagWalkA: real)    // A's own walk before the lag queue has filled

  /** The sample one call returns (levels before `toFixed` rounding). */
  datatype Reading = Reading(
    mucNuocA: real,
    mucNuocB: real,
    luuLuong: real,
    isRaining: bool,
    trangThai: string,
    thongBao: string,
    timeUntilADanger: Option<real>)

  /**
   * What the switch does to B and the flow in phase `p` entered with counter `c`:
   * nothing while RAINING, remaining-ticks interpolation while RISING and FALLING,
   * noise around the peak during PEAK and a mean-reverting walk in NORMAL.
   */
  function SwitchLevels(p: Phase, c: int, draws: Draws, b0: real, flow0: real): (real, real) {
    match p
    case RAINING => (b0, flow0)
    case RISING => (Approach(b0, PeakMucNuocB, FloodRiseTime - c), Approach(flow0, PeakLuuLuong, FloodRiseTime - c))
    case PEAK => (PeakMucNuocB + (draws.peakB - 0.5) * 2.0, PeakLuuLuong + (draws.peakFlow - 0.5) * 3.0)
    case FALLING => (Approach(b0, BaseMucNuocB, FloodFallTime - c), Approach(flow0, BaseLuuLuong, FloodFallTime - c))
    case NORMAL => (MeanRevert(b0, draws.walkB, 0.5, BaseMucNuocB), MeanRevert(flow0, draws.walkFlow, 0.2, BaseLuuLuong))
  }

  class Simulator {
    var currentState: Phase
    var dangerCountdown: real
    var stateStepCounter: int
    var currentA: real
    var currentB: real
    var currentLuuLuong: real
    var isRaining: bool
    var bHistoryQueue: seq<real>
    var lastLoggedAState: string
    var lastLoggedBState: string

    ghost predicate Valid()
      reads this
    {
      && ClockOk(Clock(currentState, stateStepCounter))
      && isRaining == (currentState != NORMAL)
      && dangerCountdown == (if currentState == NORMAL then 0.0 else ATotalStepsToDanger - Elapsed(Clock(currentState, stateStepCounter)) as real)
      && 0.0 <= currentA <= PeakMucNuocA
      && 0.0 <= currentB <= PeakMucNuocB
      && |bHistoryQueue| <= ALagTimeSteps
      && IsStatus(lastLoggedAState) && IsStatus(lastLoggedBState)
    }

    /** The simulator at start-up; `flood` is the `--flood` flag, which starts in RAINING. */
    constructor (flood: bool)
      ensures Valid()
      ensures Clock(currentState, stateStepCounter) == Clock(if flood then RAINING else NORMAL, 0)
      ensures isRaining == flood
      ensures dangerCountdown == if flood then ATotalStepsToDanger else 0.0
      ensures currentA == BaseMucNuocA && currentB == BaseMucNuocB && currentLuuLuong == BaseLuuLuong
      ensures bHistoryQueue == []
      ensures lastLoggedAState == Normal && lastLoggedBState == Normal
    {
      currentState := NORMAL;
      dangerCountdown := 0.0;
      stateStepCounter := 0;
      currentA := BaseMucNuocA;
      currentB := BaseMucNuocB;
      currentLuuLuong := BaseLuuLuong;
      isRaining := false;
      bHistoryQueue := [];
      lastLoggedAState := Normal;
      lastLoggedBState := Normal;
      if flood {
        currentState := RAINING;
        isRaining := true;
        stateStepCounter := 0;
        dangerCountdown := ATotalStepsToDanger;
      }
    }

    /** The rain trigger and the phase switch of one call: the first half of `GenerateRealisticData`. */
    method AdvancePhase(draws: Draws)
      requires Valid()
      modifies this`currentState, this`stateStepCounter, this`isRaining, this`dangerCountdown
      modifies this`currentA, this`currentB, this`currentLuuLuong
      ensures Clock(currentState, stateStepCounter) == NextClock(old(Clock(currentState, stateStepCounter)), draws.rain < RainChance)
      ensures ClockOk(Clock(currentState, stateStepCounter))
      ensures isRaining == (currentState != NORMAL)
      ensures dangerCountdown == (if currentState == NORMAL then 0.0 else ATotalStepsToDanger - Elapsed(Clock(currentState, stateStepCounter)) as real + 1.0)
      ensures (currentB, currentLuuLuong) ==
        SwitchLevels(SwitchPhase(old(currentState), draws.rain < RainChance), old(stateStepCounter), draws, old(currentB), old(currentLuuLuong))
      ensures currentA == if SwitchPhase(old(currentState), draws.rain < RainChance) == NORMAL
                          then MeanRevert(old(currentA), draws.walkA, 0.5, BaseMucNuocA) else old(currentA)
    {
      // --- the phase machine
      if currentState == NORMAL && draws.rain < RainChance {
        currentState := RAINING; isRaining := true; stateStepCounter := 0;
        dangerCountdown := ATotalStepsToDanger;
      }

      match currentState {
        case RAINING =>
          stateStepCounter := stateStepCounter + 1;
          if stateStepCounter >= RainDurationSteps {
            currentState := RISING; stateStepCounter := 0;
          }
        case RISING =>
          var riseRemaining := FloodRiseTime - stateStepCounter;
          if riseRemaining > 0 {
            currentB := currentB + (PeakMucNuocB - currentB) / riseRemaining as real;
            currentLuuLuong := currentLuuLuong + (PeakLuuLuong - currentLuuLuong) / riseRemaining as real;
          }
          stateStepCounter := stateStepCounter + 1;
          if stateStepCounter >= FloodRiseTime {
            currentState := PEAK; stateStepCounter := 0;
          }
        case PEAK =>
          currentB := PeakMucNuocB + (draws.peakB - 0.5) * 2.0;
          currentLuuLuong := PeakLuuLuong + (draws.peakFlow - 0.5) * 3.0;
          stateStepCounter := stateStepCounter + 1;
          if stateStepCounter >= FloodPeakTime {
            currentState := FALLING; stateStepCounter := 0;
          }
        case FALLING =>
          var fallRemaining := FloodFallTime - stateStepCounter;
          if fallRemaining > 0 {
            RecedeIsApproach(currentB, BaseMucNuocB, fallRemaining);
            RecedeIsApproach(currentLuuLuong, BaseLuuLuong, fallRemaining);
            currentB := currentB - (currentB - BaseMucNuocB) / fallRemaining as real;
            currentLuuLuong := currentLuuLuong - (currentLuuLuong - BaseLuuLuong) / fallRemaining as real;
          } else {
            // switching the rain off here is dead code: the counter stays below the budget
            assert false;
          }
          stateStepCounter := stateStepCounter + 1;
          if stateStepCounter >= FloodFallTime {
            currentState := NORMAL; stateStepCounter := 0;
            dangerCountdown := 0.0; isRaining := false;
          }
        case NORMAL =>
          currentA := currentA + (draws.walkA - 0.5) * 0.5;
          currentA := currentA - (currentA - BaseMucNuocA) * 0.1;
          currentB := currentB + (draws.walkB - 0.5) * 0.5;
          currentLuuLuong := currentLuuLuong + (draws.walkFlow - 0.5) * 0.2;
          currentB := currentB - (currentB - BaseMucNuocB) * 0.1;
          currentLuuLuong := currentLuuLuong - (currentLuuLuong - BaseLuuLuong) * 0.1;
          isRaining := false;
      }

    }

    /** Pushes B onto the lag queue; once it holds more than 15 values A takes the value shifted out. */
    method ShiftLagQueue(lagWalkA: real)
      requires |bHistoryQueue| <= ALagTimeSteps
      modifies this`bHistoryQueue, this`currentA
      ensures var (queue, shifted) := LagPush(old(bHistoryQueue), currentB);
        && bHistoryQueue == queue
        && currentA == if shifted.Some? then shifted.value else MeanRevert(old(currentA), lagWalkA, 0.5, BaseMucNuocA)
      ensures |bHistoryQueue| <= ALagTimeSteps
    {
      bHistoryQueue := bHistoryQueue + [currentB];
      if |bHistoryQueue| > ALagTimeSteps {
        currentA := bHistoryQueue[0];
        bHistoryQueue := bHistoryQueue[1..];
      } else {
        currentA := currentA + (lagWalkA - 0.5) * 0.5;
        currentA := currentA - (currentA - BaseMucNuocA) * 0.1;
      }
    }

    /** One call less to danger while a flood is under way; the countdown reported in seconds. */
    method CountDown() returns (thoiGianConLai: Option<real>)
      modifies this`dangerCountdown
      ensures dangerCountdown == if currentState == NORMAL then old(dangerCountdown) else old(dangerCountdown) - 1.0
      ensures thoiGianConLai == ReportedCountdown(currentState, dangerCountdown)
    {
      thoiGianConLai := None;
      if currentState != NORMAL {
        dangerCountdown := dangerCountdown - 1.0;
        thoiGianConLai := Some(Max(0.0, dangerCountdown * SecondsPerCall));
      }
    }

    /**
     * One call of `generateRealisticData`. `rawA` is A before clamping, the value the
     * status is computed on; B before clamping is the value pushed onto the queue.
     */
    method GenerateRealisticData(draws: Draws) returns (reading: Reading, logs: seq<LogLine>, ghost rawA: real, ghost rawB: real)
      requires Valid()
      modifies this
      ensures Valid()
      // the phase machine; only NORMAL -> RAINING depends on a draw
      ensures Clock(currentState, stateStepCounter) == NextClock(old(Clock(currentState, stateStepCounter)), draws.rain < RainChance)
      ensures isRaining == (currentState != NORMAL)
      // B and the flow, by the phase the switch handled; B is clamped afterwards
      ensures currentB == Clamp(rawB, 0.0, PeakMucNuocB)
      ensures (rawB, currentLuuLuong) ==
        SwitchLevels(SwitchPhase(old(currentState), draws.rain < RainChance), old(stateStepCounter), draws, old(currentB), old(currentLuuLuong))
      // A: the value B had 15 calls earlier once the queue has filled, its own walk before
      ensures var (queue, shifted) := LagPush(old(bHistoryQueue), rawB);
        && bHistoryQueue == queue
        && rawA == if shifted.Some? then shifted.value
                   else MeanRevert(if SwitchPhase(old(currentState), draws.rain < RainChance) == NORMAL
                                   then MeanRevert(old(currentA), draws.walkA, 0.5, BaseMucNuocA) else old(currentA),
                                   draws.lagWalkA, 0.5, BaseMucNuocA)
      ensures currentA == Clamp(rawA, 0.0, PeakMucNuocA)
      // the countdown
      ensures dangerCountdown == (if currentState == NORMAL then 0.0 else ATotalStepsToDanger - Elapsed(Clock(currentState, stateStepCounter)) as real)
      // statuses, computed before clamping, and the edge-triggered log
      ensures lastLoggedAState == ClassifyA(rawA)
      ensures lastLoggedBState == ClassifyB(rawB)
      ensures logs == LogLines(GaugeA, ClassifyA(rawA), old(lastLoggedAState))
                    + LogLines(GaugeB, ClassifyB(rawB), old(lastLoggedBState))
      ensures reading == Reading(currentA, currentB, currentLuuLuong, isRaining,
                                 ClassifyA(rawA), MessageA(ClassifyA(rawA)),
                                 ReportedCountdown(currentState, dangerCountdown))
    {
      // --- the phase machine
      AdvancePhase(draws);
      ghost var remaining := if currentState == NORMAL then 0.0
                             else ATotalStepsToDanger - Elapsed(Clock(currentState, stateStepCounter)) as real;

      // --- A follows B through the lag queue
      rawB := currentB;
      ShiftLagQueue(draws.lagWalkA);
      rawA := currentA;

      // --- the countdown
      var thoiGianConLai := CountDown();
      assert dangerCountdown == remaining;

      // --- statuses (on the unclamped levels) and their edge-triggered logs
      var trangThai := ClassifyA(currentA);
      var thongBao := MessageA(trangThai);
      logs := LogLines(GaugeA, trangThai, lastLoggedAState);
      lastLoggedAState := trangThai;
      var trangThaiB := ClassifyB(currentB);
      logs := logs + LogLines(GaugeB, trangThaiB, lastLoggedBState);
      lastLoggedBState := trangThaiB;

      // --- keep both levels in range
      currentA := Clamp(currentA, 0.0, PeakMucNuocA);
      currentB := Clamp(currentB, 0.0, PeakMucNuocB);

      reading := Reading(currentA, currentB, currentLuuLuong, isRaining, trangThai, thongBao, thoiGianConLai);
    }
  }
}
