/** The GPIO part of the platform: the pushbutton event latch written by the
    external-interrupt handler and read-and-cleared by polling, and the blink
    controller that sets the timer period and drives the LED from a sample of
    the timer's counter. Hardware reads (the pin-state register, the counter)
    are parameters; the interrupt-flag acknowledgement and the busy-waits on
    the synchronisation flags have no state in this model. */
module Gpio {
  import opened Platform

  // ---------------------------------------------------------------------------
  // Pushbutton event latch: specification

  /** The button on PA23 is wired active-low to EXTINT[2]: bit 2 of the pin
      state reads 0 while the button is held. */
  predicate ButtonHeld(pinState: bv32) {
    pinState & (1 << 2) == 0
  }

  /** The single event an edge reports, from the pin level sampled in the
      handler. */
  function EdgeEvent(pinState: bv32): (e: bv16)
    ensures e == PB_ONBOARD_PRESS <==> ButtonHeld(pinState)
    ensures e == PB_ONBOARD_RELEASE <==> !ButtonHeld(pinState)
  {
    if ButtonHeld(pinState) then PB_ONBOARD_PRESS else PB_ONBOARD_RELEASE
  }

  /** The mask after one run of the edge handler on mask m. */
  function HandlerStep(m: bv16, pinState: bv32): (r: bv16)
    // every bit outside the button's bits is left alone
    ensures r & !PB_ONBOARD_MASK == m & !PB_ONBOARD_MASK
    // the button's bits hold exactly the one event of this edge
    ensures r & PB_ONBOARD_MASK == EdgeEvent(pinState)
    ensures r & PB_ONBOARD_PRESS != 0 <==> ButtonHeld(pinState)
    ensures r & PB_ONBOARD_RELEASE != 0 <==> !ButtonHeld(pinState)
  {
    (m & !PB_ONBOARD_MASK) | EdgeEvent(pinState)
  }

  /** The values the mask can hold when it starts at 0: no event, a press, or
      a release, never both. */
  predicate EventsOnly(m: bv16) {
    m == 0 || m == PB_ONBOARD_PRESS || m == PB_ONBOARD_RELEASE
  }

  /** A second edge before any poll overwrites the first one's event. */
  lemma LaterEdgeOverwrites(m: bv16, first: bv32, second: bv32)
    ensures HandlerStep(HandlerStep(m, first), second) == HandlerStep(m, second)
  {
  }

  /** Two edges that sample the same pin level leave the mask as one does. */
  lemma HandlerIdempotent(m: bv16, pinState: bv32)
    ensures HandlerStep(HandlerStep(m, pinState), pinState) == HandlerStep(m, pinState)
  {
  }

  /** The mask after a run of edges with no poll in between. */
  function AfterEdges(m: bv16, pins: seq<bv32>): bv16
    decreases |pins|
  {
    if pins == [] then m else AfterEdges(HandlerStep(m, pins[0]), pins[1..])
  }

  /** Whatever edges came before, the mask reflects only the latest one. */
  lemma {:induction false} LatestEdgeWins(m: bv16, pins: seq<bv32>)
    requires |pins| > 0
    ensures AfterEdges(m, pins) == HandlerStep(m, pins[|pins| - 1])
    decreases |pins|
  {
    if |pins| > 1 {
      LatestEdgeWins(HandlerStep(m, pins[0]), pins[1..]);
      LaterEdgeOverwrites(m, pins[0], pins[|pins| - 1]);
    }
  }

  /** What can happen to the latch: an edge interrupt, or a poll. */
  datatype LatchEvent = Edge(pinState: bv32) | Poll

  function LatchStep(m: bv16, e: LatchEvent): bv16 {
    match e
    case Edge(p) => HandlerStep(m, p)
    case Poll => 0
  }

  /** The mask after a sequence of interrupts and polls. */
  function MaskAfter(m: bv16, evs: seq<LatchEvent>): bv16
    decreases |evs|
  {
    if evs == [] then m else MaskAfter(LatchStep(m, evs[0]), evs[1..])
  }

  /** The values returned by the polls of a sequence, in order. */
  function PollResults(m: bv16, evs: seq<LatchEvent>): seq<bv16>
    decreases |evs|
  {
    if evs == [] then []
    else (if evs[0].Poll? then [m] else []) + PollResults(LatchStep(m, evs[0]), evs[1..])
  }

  /** From the initial mask 0, the latch never holds bits outside the button's
      mask, nor both of them, so every poll returns 0, PRESS or RELEASE. */
  lemma {:induction false} LatchStaysWithinEvents(m: bv16, evs: seq<LatchEvent>)
    requires EventsOnly(m)
    ensures EventsOnly(MaskAfter(m, evs))
    ensures forall r :: r in PollResults(m, evs) ==> EventsOnly(r)
    decreases |evs|
  {
    if evs != [] {
      LatchStaysWithinEvents(LatchStep(m, evs[0]), evs[1..]);
    }
  }

  /** A poll returns the event of the latest edge before it, and a poll right
      after it returns nothing. */
  lemma {:induction false} PollReportsLatestEdge(m: bv16, pins: seq<bv32>)
    requires EventsOnly(m) && |pins| > 0
    ensures PollResults(m, Edges(pins) + [Poll, Poll]) == [EdgeEvent(pins[|pins| - 1]), 0]
  {
    EdgesThenPolls(m, pins);
    LatestEdgeWins(m, pins);
  }

  function Edges(pins: seq<bv32>): (evs: seq<LatchEvent>)
    ensures |evs| == |pins|
  {
    if pins == [] then [] else [Edge(pins[0])] + Edges(pins[1..])
  }

  lemma {:induction false} EdgesThenPolls(m: bv16, pins: seq<bv32>)
    ensures PollResults(m, Edges(pins) + [Poll, Poll]) == [AfterEdges(m, pins), 0]
    decreases |pins|
  {
    var evs := Edges(pins) + [Poll, Poll];
    if pins == [] {
      assert evs == [Poll, Poll] && evs[1..] == [Poll] && [Poll][1..] == [];
      assert PollResults(0, [Poll]) == [0];
    } else {
      var rest := Edges(pins[1..]) + [Poll, Poll];
      assert evs[0] == Edge(pins[0]) && evs[1..] == rest;
      EdgesThenPolls(HandlerStep(m, pins[0]), pins[1..]);
    }
  }

  // ---------------------------------------------------------------------------
  // Blink controller: specification

  /** The settings that blink, as opposed to staying dim or lit. */
  predicate Blinking(s: BlinkSetting) {
    s.Slow? || s.Medium? || s.Fast?
  }

  /** The period written to the timer's compare register for a blinking
      setting. */
  function BlinkPeriod(s: BlinkSetting): (p: U16)
    requires Blinking(s)
  {
    match s
    case Slow => 23438
    case Medium => 11719
    case Fast => 7032
  }

  /** The threshold as a fraction of the period, in tenths. */
  function DutyTenths(s: BlinkSetting): (t: int)
    requires Blinking(s)
  {
    match s
    case Slow => 9
    case Medium => 8
    case Fast => 5
  }

  /** The counter sample lies below period * fraction. */
  predicate BelowThreshold(s: BlinkSetting, count: int)
    requires Blinking(s)
  {
    10 * count < DutyTenths(s) * BlinkPeriod(s)
  }

  /** The counter sample lies above period * fraction. */
  predicate AboveThreshold(s: BlinkSetting, count: int)
    requires Blinking(s)
  {
    10 * count > DutyTenths(s) * BlinkPeriod(s)
  }

  /** The compare register after one update under setting s. */
  function CcAfter(s: BlinkSetting, cc: U16): U16 {
    if Blinking(s) then BlinkPeriod(s) else cc
  }

  /** The LED level after one update under setting s, given the counter sample
      for the "below" test, the one for the "above" test, and the level
      before. */
  function LedAfter(s: BlinkSetting, belowSample: U16, aboveSample: U16, prev: bool): bool {
    match s
    case Off => false
    case On => true
    case _ =>
      if AboveThreshold(s, aboveSample) then true
      else if BelowThreshold(s, belowSample) then false
      else prev
  }

  /** OFF always leaves the LED dark and ON always lit, whatever the counter,
      and neither touches the compare register. */
  lemma OffAndOnIgnoreCounter(c1: U16, c2: U16, prev: bool, cc: U16)
    ensures !LedAfter(Off, c1, c2, prev) && LedAfter(On, c1, c2, prev)
    ensures CcAfter(Off, cc) == cc && CcAfter(On, cc) == cc
  {
  }

  /** The last counter value that darkens the LED and the first that lights it. */
  function LastDark(s: BlinkSetting): int
    requires Blinking(s)
  {
    match s
    case Slow => 21094
    case Medium => 9375
    case Fast => 3515
  }

  function FirstLit(s: BlinkSetting): int
    requires Blinking(s)
  {
    match s
    case Slow => 21095
    case Medium => 9376
    case Fast => 3517
  }

  /** The thresholds 23438 * 0.9 = 21094.2, 11719 * 0.8 = 9375.2 and
      7032 * 0.5 = 3516 in counter values: only FAST has a sample that lies on
      its threshold, 3516, and it neither darkens nor lights the LED. */
  lemma ThresholdsInCounts(s: BlinkSetting, c: int)
    requires Blinking(s)
    ensures BelowThreshold(s, c) <==> c <= LastDark(s)
    ensures AboveThreshold(s, c) <==> c >= FirstLit(s)
    ensures !BelowThreshold(s, c) && !AboveThreshold(s, c) <==> s == Fast && c == 3516
  {
  }

  /** With one counter sample, a blinking setting darkens the LED below the
      threshold, lights it above, and keeps its level on the threshold. */
  lemma SingleSampleLevel(s: BlinkSetting, c: U16, prev: bool)
    requires Blinking(s)
    ensures LedAfter(s, c, c, prev) == (c >= FirstLit(s) || (c > LastDark(s) && prev))
  {
  }

  /** Updating twice with the same samples is the same as updating once. */
  lemma BlinkUpdateIdempotent(s: BlinkSetting, c1: U16, c2: U16, prev: bool, cc: U16)
    ensures LedAfter(s, c1, c2, LedAfter(s, c1, c2, prev)) == LedAfter(s, c1, c2, prev)
    ensures CcAfter(s, CcAfter(s, cc)) == CcAfter(s, cc)
  {
  }

  /** Number of counter values in [0, n) at which a single sample lights the
      LED. */
  function LitCount(s: BlinkSetting, n: nat): nat
    requires Blinking(s)
  {
    if n == 0 then 0 else LitCount(s, n - 1) + (if AboveThreshold(s, n - 1) then 1 else 0)
  }

  lemma {:induction false} LitCountClosed(s: BlinkSetting, n: nat)
    requires Blinking(s)
    ensures LitCount(s, n) == if n <= FirstLit(s) then 0 else n - FirstLit(s)
  {
    if n > 0 {
      LitCountClosed(s, n - 1);
      ThresholdsInCounts(s, n - 1);
    }
  }

  /** Over one period of the counter the LED is lit only in the last tenth
      (SLOW), fifth (MEDIUM) or half (FAST), to within two counter values:
      the active-high LED is cleared below the threshold and set above it. */
  lemma LitFractionOfPeriod(s: BlinkSetting)
    requires Blinking(s)
    ensures var lit := LitCount(s, BlinkPeriod(s));
            10 * lit <= (10 - DutyTenths(s)) * BlinkPeriod(s) < 10 * lit + 20
    ensures s == Slow ==> LitCount(s, BlinkPeriod(s)) == 2343
    ensures s == Medium ==> LitCount(s, BlinkPeriod(s)) == 2343
    ensures s == Fast ==> LitCount(s, BlinkPeriod(s)) == 3515
  {
    LitCountClosed(s, BlinkPeriod(s));
  }

  // ---------------------------------------------------------------------------
  // The state the GPIO routines update in place

  class Board {
    /** Pushbutton events latched since the last poll. */
    var pbPressMask: bv16
    /** The timer's period (compare) register. */
    var tcCc0: U16
    /** The LED output level; the LED is active-high. */
    var ledOn: bool

    ghost predicate Valid()
      reads this
    {
      EventsOnly(pbPressMask)
    }

    /** The mask starts at 0; the register and the LED start as the hardware
        bring-up left them. */
    constructor (cc0: U16, led: bool)
      ensures Valid()
      ensures pbPressMask == 0 && tcCc0 == cc0 && ledOn == led
    {
      pbPressMask := 0;
      tcCc0 := cc0;
      ledOn := led;
    }

    /** The edge interrupt: clear both button bits, then set the one the
        sampled pin level calls for. */
    method ExtInt2Handler(pinState: bv32)
      requires Valid()
      modifies this`pbPressMask
      ensures Valid()
      ensures pbPressMask == HandlerStep(old(pbPressMask), pinState)
    {
      pbPressMask := pbPressMask & !PB_ONBOARD_MASK;
      if pinState & (1 << 2) == 0 {
        pbPressMask := pbPressMask | PB_ONBOARD_PRESS;
      } else {
        pbPressMask := pbPressMask | PB_ONBOARD_RELEASE;
      }
    }

    /** Return the events latched since the last call and clear the latch. */
    method PbGetEvent() returns (events: bv16)
      requires Valid()
      modifies this`pbPressMask
      ensures Valid()
      ensures events == old(pbPressMask) && pbPressMask == 0
      ensures events == 0 || events == PB_ONBOARD_PRESS || events == PB_ONBOARD_RELEASE
    {
      var cache := pbPressMask;
      pbPressMask := 0;
      events := cache;
    }

    /** Recompute the LED level under the current blink setting. The counter
        is read once for the "below" test and once for the "above" test. */
    method BlinkModify(setting: BlinkSetting, belowSample: U16, aboveSample: U16)
      modifies this`tcCc0, this`ledOn
      ensures tcCc0 == CcAfter(setting, old(tcCc0))
      ensures ledOn == LedAfter(setting, belowSample, aboveSample, old(ledOn))
    {
      match setting {
        case Off =>
          ledOn := false;
        case Slow =>
          tcCc0 := 23438;
          if belowSample * 10 < tcCc0 * 9 {
            ledOn := false;
          }
          if aboveSample * 10 > tcCc0 * 9 {
            ledOn := true;
          }
        case Medium =>
          tcCc0 := 11719;
          if belowSample * 10 < tcCc0 * 8 {
            ledOn := false;
          }
          if aboveSample * 10 > tcCc0 * 8 {
            ledOn := true;
          }
        case Fast =>
          tcCc0 := 7032;
          if belowSample * 2 < tcCc0 {
            ledOn := false;
          }
          if aboveSample * 2 > tcCc0 {
            ledOn := true;
          }
        case On =>
          ledOn := true;
      }
    }
  }

  /** A press and then a release before any poll: the poll sees only the
      release, and an immediate second poll sees nothing. */
  method PressReleaseThenPoll() returns (first: bv16, second: bv16)
    ensures first == PB_ONBOARD_RELEASE && second == 0
  {
    var board := new Board(0, false);
    board.ExtInt2Handler(0);
    board.ExtInt2Handler(1 << 2);
    first := board.PbGetEvent();
    second := board.PbGetEvent();
  }

  /** FAST blinking: a sample below the threshold darkens the LED and one
      above lights it, and the period register holds 7032 throughout. */
  method FastBlinkSamples() returns (below: bool, above: bool, cc: U16)
    ensures !below && above && cc == 7032
  {
    var board := new Board(0, true);
    board.BlinkModify(Fast, 1000, 1000);
    below := board.ledOn;
    board.BlinkModify(Fast, 5000, 5000);
    above := board.ledOn;
    cc := board.tcCc0;
  }
}
