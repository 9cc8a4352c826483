/**
 The RSC timer arithmetic (msm/sde_rsc.c, `sde_rsc_timer_calculate`), with the u64 wrap-around, the
 s64 reading and the u32 truncation of the C code written out, against the same timers computed
 on unbounded integers.
 */
module RscTimer {

  const U32 := 0x1_0000_0000
  const U64 := 0x1_0000_0000_0000_0000
  const S64_MIN_BIT := 0x8000_0000_0000_0000

  const NANOS := 1_000_000_000
  const CXO_PERIOD := 52
  const PDC_JITTER := 20
  const MIN_PREFILL := 35
  const MAX_PREFILL := 108
  const MIN_THRESHOLD := 18

  type u32 = x: int | 0 <= x < 0x1_0000_0000

  datatype PanelConfig = PanelConfig(fps: u32, jitterNumer: u32, jitterDenom: u32, vtotal: u32, prefillLines: u32)

  /** The per-version times set at probe. */
  datatype Times = Times(backoff: u32, modeThreshold: u32, slot0: u32)

  datatype Timers = Timers(
    staticWakeup: u32, rscBackoff: u32, pdcBackoff: u32, modeThreshold: u32,
    slot0: u32, slot1: u32, slot2: u32, minThreshold: u32, bwiThreshold: u32)

  function OrDefault(x: u32, default: u32): u32 { if x == 0 then default else x }

  function Clamp(x: u32): u32 {
    var capped := if x > MAX_PREFILL then MAX_PREFILL else x;
    if capped < MIN_PREFILL then MIN_PREFILL else capped
  }

  /** Zero fields get the 640x480@60 defaults; the prefill lines are clamped. */
  function Defaulted(c: PanelConfig): PanelConfig {
    PanelConfig(OrDefault(c.fps, 60), OrDefault(c.jitterNumer, 2), OrDefault(c.jitterDenom, 1),
                OrDefault(c.vtotal, 505), Clamp(OrDefault(c.prefillLines, 25)))
  }

  /** The clamp hides the default of 25 prefill lines: without it every configuration would come out the same. */
  lemma {:induction false} PrefillDefaultUnused(c: PanelConfig)
    ensures Defaulted(c).prefillLines == Clamp(c.prefillLines) != 25
    ensures Defaulted(Defaulted(c)) == Defaulted(c)
  {
  }

  ghost predicate Usable(c: PanelConfig) {
    c.fps > 0 && c.jitterDenom > 0 && c.vtotal > 0 && MIN_PREFILL <= c.prefillLines <= MAX_PREFILL
  }

  /** `div_u64`, by its meaning. */
  function Div(x: nat, d: nat): (q: nat)
    requires d > 0
    ensures q <= x && q * d <= x < q * d + d
  {
    if x < d then 0
    else
      var q := Div(x - d, d);
      assert (1 + q) * d == d + q * d;
      1 + q
  }

  lemma {:induction false} ProductBound(x: nat, y: nat, xMax: nat, yMax: nat)
    requires x <= xMax && y <= yMax
    ensures 0 <= x * y <= xMax * yMax
  {
    assert x * y <= x * yMax <= xMax * yMax;
  }

  // ---------------------------------------------------------------- the intended times

  function FrameTime(c: PanelConfig): nat
    requires Usable(c)
  {
    Div(NANOS, c.fps)
  }

  function Jitter(c: PanelConfig): nat
    requires Usable(c)
  {
    ProductBound(FrameTime(c), c.jitterNumer, NANOS, U32 - 1);
    Div(FrameTime(c) * c.jitterNumer, c.jitterDenom) / 100
  }

  function PrefillTime(c: PanelConfig): nat
    requires Usable(c)
  {
    ProductBound(Div(FrameTime(c), c.vtotal), c.prefillLines, NANOS, MAX_PREFILL);
    Div(FrameTime(c), c.vtotal) * c.prefillLines
  }

  lemma {:induction false} NestedFloor(x: nat, d: nat, q: nat, j: nat)
    requires d > 0 && q * d <= x < q * d + d && 100 * j <= q < 100 * j + 100
    ensures (100 * d) * j <= x < (100 * d) * (j + 1)
  {
    ProductBound(100 * j, d, q, d);
    ProductBound(q + 1, d, 100 * j + 100, d);
    assert (100 * j) * d == (100 * d) * j && (100 * j + 100) * d == (100 * d) * (j + 1) && (q + 1) * d == q * d + d;
  }

  /**
   What the times are: the frame is the largest whose `fps` copies fit in a second, the jitter that
   percentage of it, the prefill that many lines of the largest line time that fits `vtotal` times.
   */
  lemma {:induction false} TimesMean(c: PanelConfig)
    requires Usable(c)
    ensures FrameTime(c) * c.fps <= NANOS < FrameTime(c) * c.fps + c.fps
    ensures (100 * c.jitterDenom) * Jitter(c) <= FrameTime(c) * c.jitterNumer < (100 * c.jitterDenom) * (Jitter(c) + 1)
    ensures exists line: nat :: line * c.vtotal <= FrameTime(c) < line * c.vtotal + c.vtotal && PrefillTime(c) == line * c.prefillLines
  {
    ProductBound(FrameTime(c), c.jitterNumer, NANOS, U32 - 1);
    var x := FrameTime(c) * c.jitterNumer;
    NestedFloor(x, c.jitterDenom, Div(x, c.jitterDenom), Jitter(c));
    var line := Div(FrameTime(c), c.vtotal);
    hide Div;
    assert line * c.vtotal <= FrameTime(c) < line * c.vtotal + c.vtotal && PrefillTime(c) == line * c.prefillLines;
  }

  /** Without any panel configuration: 640x480 at 60 frames, 2 percent jitter, 35 prefill lines. */
  lemma {:induction false} DefaultPanel()
    ensures var c := Defaulted(PanelConfig(0, 0, 0, 0, 0));
            && Usable(c) && FrameTime(c) == 16_666_666 && Jitter(c) == 333_333 && PrefillTime(c) == 1_155_105
            && Wakeup(c, true) == 291_889 && Wakeup(c, false) == 298_299
  {
    hide Div;
    var c := Defaulted(PanelConfig(0, 0, 0, 0, 0));
    assert c == PanelConfig(60, 2, 1, 505, 35);
    assert FrameTime(c) == 16_666_666;
    assert Div(FrameTime(c), 505) == 33_003;
    assert Div(FrameTime(c) * 2, 1) == 33_333_332;
  }

  /** Time kept free at the end of the frame; jitter counts in CMD mode only. */
  function Reserved(c: PanelConfig, cmd: bool): nat
    requires Usable(c)
  {
    PrefillTime(c) + if cmd then Jitter(c) else 0
  }

  function Wakeup(c: PanelConfig, cmd: bool): nat
    requires Usable(c)
  {
    if Reserved(c, cmd) > FrameTime(c) then 0 else (FrameTime(c) - Reserved(c, cmd)) / CXO_PERIOD
  }

  // ---------------------------------------------------------------- the machine arithmetic

  function Wrap(x: int): (r: int)
    ensures 0 <= r < U64
  {
    x % U64
  }

  function AsSigned(x: int): int
    requires 0 <= x < U64
  {
    if x < S64_MIN_BIT then x else x - U64
  }

  function Truncate(x: int): u32 { x % U32 }

  lemma {:induction false} Bounds(c: PanelConfig)
    requires Usable(c)
    ensures FrameTime(c) <= NANOS
    ensures 0 <= FrameTime(c) * c.jitterNumer < S64_MIN_BIT
    ensures Jitter(c) <= S64_MIN_BIT / 100
    ensures PrefillTime(c) <= NANOS * MAX_PREFILL
  {
    hide Div;
    ProductBound(FrameTime(c), c.jitterNumer, NANOS, U32 - 1);
    ProductBound(Div(FrameTime(c), c.vtotal), c.prefillLines, NANOS, MAX_PREFILL);
  }

  /** Reading a wrapped difference as signed gives the true difference whenever that fits in s64. */
  lemma {:induction false} SignedDifferenceExact(x: int)
    requires -S64_MIN_BIT <= x < S64_MIN_BIT
    ensures AsSigned(Wrap(x)) == x
  {
    if x < 0 {
      assert x % U64 == (x + U64) % U64;
    }
  }

  /** What the static wakeup time means: it ends before the reserved time, and within time slot 1. */
  lemma {:induction false} WakeupFits(c: PanelConfig, cmd: bool)
    requires Usable(c)
    ensures Wakeup(c, cmd) <= FrameTime(c) / CXO_PERIOD < U32
    ensures Wakeup(c, cmd) > 0 ==> CXO_PERIOD * Wakeup(c, cmd) + Reserved(c, cmd) <= FrameTime(c)
    ensures Reserved(c, cmd) + CXO_PERIOD <= FrameTime(c) ==>
              FrameTime(c) < CXO_PERIOD * (Wakeup(c, cmd) + 1) + Reserved(c, cmd)
  {
    Bounds(c);
  }

  /** The timer part of `struct sde_rsc_priv`. */
  class TimerState {
    var cmdConfig: PanelConfig
    var timers: Timers

    constructor (c: PanelConfig, t: Timers)
      ensures cmdConfig == c && timers == t
    {
      cmdConfig, timers := c, t;
    }

    /**
     For all 32-bit panel configurations: every stored timer is the intended time, so no
     subtraction wraps visibly and no store truncates.
     */
    method Calculate(config: PanelConfig, hasConfig: bool, times: Times, cmd: bool)
      modifies this
      ensures cmdConfig == Defaulted(if hasConfig then config else old(cmdConfig)) && Usable(cmdConfig)
      ensures timers.staticWakeup == Wakeup(cmdConfig, cmd)
      ensures timers.slot1 == FrameTime(cmdConfig) / CXO_PERIOD
      ensures timers.rscBackoff == times.backoff / CXO_PERIOD
      ensures timers.pdcBackoff == times.backoff * PDC_JITTER / 100
      ensures timers.modeThreshold == times.modeThreshold / CXO_PERIOD
      ensures timers.slot0 == times.slot0 / CXO_PERIOD == timers.bwiThreshold
      ensures timers.slot2 == 0xFFFF_FFFF && timers.minThreshold == MIN_THRESHOLD
      ensures timers.staticWakeup <= timers.slot1
      ensures timers.staticWakeup > 0 ==>
                CXO_PERIOD * timers.staticWakeup + Reserved(cmdConfig, cmd) <= FrameTime(cmdConfig)
    {
      if hasConfig {
        cmdConfig := config;
      }
      cmdConfig := Defaulted(cmdConfig);
      var c := cmdConfig;
      Bounds(c);
      hide Jitter, PrefillTime, FrameTime;
      var frame, jitter, prefill := FrameTimes(c);
      var total := StaticTotal(frame, jitter, prefill, cmd);
      total := total / CXO_PERIOD;
      assert total == Wakeup(c, cmd);
      WakeupFits(c, cmd);
      timers := StoreTimers(total, frame, times);
    }
  }

  method FrameTimes(c: PanelConfig) returns (frame: nat, jitter: nat, prefill: nat)
    requires Usable(c)
    ensures frame == FrameTime(c) && jitter == Jitter(c) && prefill == PrefillTime(c)
  {
    hide Div;
    Bounds(c);
    frame := Wrap(Div(NANOS, c.fps));
    jitter := Wrap(frame * c.jitterNumer);
    jitter := Div(jitter, c.jitterDenom);
    jitter := jitter / 100;
    var line := Div(frame, c.vtotal);
    prefill := Wrap(line * c.prefillLines);
  }

  /** The wrapped subtraction, read as s64 and raised to zero. */
  method StaticTotal(frame: nat, jitter: nat, prefill: nat, cmd: bool) returns (total: nat)
    requires frame <= NANOS && jitter <= S64_MIN_BIT / 100 && prefill <= NANOS * MAX_PREFILL
    ensures var left := frame - prefill - (if cmd then jitter else 0); total == if left < 0 then 0 else left
  {
    var signed := if cmd then AsSigned(Wrap(Wrap(frame - jitter) - prefill)) else AsSigned(Wrap(frame - prefill));
    if cmd {
      assert Wrap(Wrap(frame - jitter) - prefill) == Wrap(frame - jitter - prefill);
      SignedDifferenceExact(frame - jitter - prefill);
    } else {
      SignedDifferenceExact(frame - prefill);
    }
    total := if signed < 0 then 0 else signed;
  }

  method StoreTimers(wakeup: nat, frame: nat, times: Times) returns (t: Timers)
    requires wakeup < U32 && frame <= NANOS
    ensures t == Timers(wakeup, times.backoff / CXO_PERIOD, times.backoff * PDC_JITTER / 100,
                        times.modeThreshold / CXO_PERIOD, times.slot0 / CXO_PERIOD, frame / CXO_PERIOD,
                        0xFFFF_FFFF, MIN_THRESHOLD, times.slot0 / CXO_PERIOD)
  {
    t := Timers(Truncate(wakeup), Truncate(times.backoff / CXO_PERIOD),
                Truncate(Wrap(times.backoff * PDC_JITTER) / 100), Truncate(times.modeThreshold / CXO_PERIOD),
                Truncate(times.slot0 / CXO_PERIOD), Truncate(frame / CXO_PERIOD),
                0xFFFF_FFFF, MIN_THRESHOLD, Truncate(times.slot0 / CXO_PERIOD));
  }
}
