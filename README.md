# Platform GPIO core: pushbutton event latch, blink controller, time specifications

This project models the integer state logic of a small microcontroller
platform layer (a PIC32CM board support package) and proves properties of it
in Dafny.

- **Pushbutton event latch** (`gpio.dfy`, class `Gpio.Board`). The 16-bit mask
  `pb_press_mask` starts at 0. The edge interrupt for the active-low button on
  PA23 (EXTINT[2]) clears the PRESS and RELEASE bits. It then sets PRESS if
  bit 2 of the pin state reads 0, and RELEASE otherwise. `platform_pb_get_event`
  returns the mask and clears it. The pure functions `HandlerStep`,
  `MaskAfter` and `PollResults` specify this, and lemmas prove the following.
  A later edge overwrites an earlier one, so the latest edge wins. The latch
  holds only 0, PRESS or RELEASE. A poll reports the latest edge, and a
  second poll reports nothing.
- **Blink controller** (`Gpio.Board.BlinkModify`). For SLOW, MEDIUM and FAST
  the code writes 23438, 11719 or 7032 to the timer's compare register
  `TC_CC[0]`. It then clears the LED if the counter is below `CC*0.9`,
  `CC*0.8` or `CC*0.5`, and sets it if the counter is above. OFF clears the
  LED, ON sets it, and neither writes the register. The float comparisons
  are modelled as exact integer cross-multiplications (`10*c < 9*CC`,
  `10*c < 8*CC`, `2*c < CC`). Lemmas prove the following. The LED is active-high, so it is
  lit only in the last 10%, 20% or 50% of each period, to within two counter
  values. The only counter value that sits exactly on a threshold is 3516
  under FAST, and there the LED keeps its previous level.
- **Time specifications** (`platform.dfy`, module `Platform`). A timespec
  has 32-bit seconds and nanoseconds in [0, 999999999]. `Compare` is the
  lexicographic order on (seconds, nanoseconds), and its contract is the
  order on the instants denoted. `Delta` is the difference lhs − rhs. It
  borrows nanoseconds and takes seconds modulo 2^32, which corrects for one
  wrap-around of the seconds counter. `Advance` is its inverse, and the two
  round trips are proved. The module also holds the header's event-bit and
  blink-code constants.

Where the design description and the code disagree, the model follows the
code:

- The design description says a press followed by a release before a poll
  leaves both bits set. The handler first wipes both bits (platform/gpio.c:210),
  so only the latest edge's bit survives (`LatestEdgeWins`,
  `Gpio.PressReleaseThenPoll`).
- The design description says the LED is lit while the counter is below the
  threshold. The code clears the active-high LED below the threshold and sets
  it above (platform/gpio.c:167-171), so the LED is lit in the last part of
  each period (`LitFractionOfPeriod`).
- The design description requires the poll to be an atomic exchange. The
  code does a plain load and then a store (platform/gpio.c:266-268).
- The header does not say in which direction `platform_tick_delta`
  subtracts. The model computes lhs − rhs modulo one cycle of the seconds
  counter. This is the only reading under which an lhs of 2 s and an rhs of
  4294967294 s gives a small positive result.

## Model

| member | source | states |
|---|---|---|
| `Platform.ButtonBitsDisjoint` | platform.h:35-42 | PRESS (0x0001) and RELEASE (0x0002) are distinct single bits, and MASK is exactly their union, 0x0003 |
| `Platform.BlinkCode` | platform.h:55-68 | each setting's code lies in 0..4; code 0 is exactly OFF and code 4 exactly ON |
| `Platform.BlinkFromCode` | platform.h:55-68 | an integer names a blink setting iff it lies in 0..4 |
| `Platform.BlinkCodesRoundTrip` | platform.h:55-68 | code and decode are inverse, so OFF..ON are five distinct codes |
| `Platform.TimespecZeroValid` | platform.h:100-101 | the zero timespec {0, 0} meets the nanoseconds range and denotes instant 0 |
| `Platform.ToNanos` | platform.h:87-98 | a valid timespec denotes an instant within one cycle of the 32-bit seconds counter |
| `Platform.ToNanosInjective` | platform.h:91-97 | with nanoseconds in [0, 999999999], two timespecs denoting the same instant are equal |
| `Platform.Compare` | platform.h:103-113 | result is -1, 0 or +1; -1 iff lhs is the earlier instant, +1 iff the later, 0 iff equal |
| `Platform.CompareSelf` | platform.h:109-110 | compare(t, t) == 0 |
| `Platform.CompareAntisymmetric` | platform.h:109-113 | compare(a, b) == -compare(b, a) |
| `Platform.CompareTransitive` | platform.h:109-113 | earlier-than is transitive |
| `Platform.NsecRangeNeededForCompare` | platform.h:91-97 | a timespec outside the nanoseconds range breaks the agreement between the lexicographic order and the instants |
| `Platform.Delta` | platform.h:129-142 | the result is a valid timespec; it is lhs − rhs when lhs is not earlier, and lhs + 2^32 s − rhs (one wrap-around corrected) when it is |
| `Platform.Advance` | platform.h:129-142 | moving a timespec forward by a valid elapsed time gives a valid timespec, with the seconds wrapping modulo 2^32 |
| `Platform.DeltaThenAdvance` | platform.h:129-142 | advancing rhs by delta(lhs, rhs) gives back lhs, across a wrap-around too |
| `Platform.AdvanceThenDelta` | platform.h:129-142 | every elapsed time shorter than one seconds-counter cycle is recovered exactly by delta |
| `Platform.DeltaAcrossOneWrap` | platform.h:129-133 | delta({2,0}, {4294967294,0}) is {4,0}, and a nanosecond borrow across the wrap is handled |
| `Gpio.EdgeEvent` | platform/gpio.c:211-214 | an edge yields PRESS iff pin-state bit 2 is 0 (button held, active-low) and RELEASE otherwise |
| `Gpio.HandlerStep` | platform/gpio.c:209-215 | the handler leaves every bit outside MASK unchanged and leaves exactly one of PRESS/RELEASE set, chosen by the pin level |
| `Gpio.LaterEdgeOverwrites` | platform/gpio.c:210-214 | a second edge before a poll leaves the mask as if only the second edge had happened |
| `Gpio.HandlerIdempotent` | platform/gpio.c:210-214 | repeating the handler with the same pin level changes nothing further |
| `Gpio.LatestEdgeWins` | platform/gpio.c:207-214 | after any non-empty run of edges, the mask is what the latest edge alone would produce |
| `Gpio.LatchStaysWithinEvents` | platform/gpio.c:207-214 | from mask 0, after any sequence of edges and polls, the mask and every poll result is 0, PRESS or RELEASE |
| `Gpio.EdgesThenPolls` | platform/gpio.c:265-270 | after a run of edges, a poll returns the accumulated mask and an immediate second poll returns 0 |
| `Gpio.PollReportsLatestEdge` | platform/gpio.c:265-270 | from a reachable mask, a poll after edges returns the latest edge's event, then a second poll returns 0 |
| `Gpio.OffAndOnIgnoreCounter` | platform/gpio.c:160-197 | OFF always drives the LED low and ON always high, whatever the counter; neither writes TC_CC[0] |
| `Gpio.ThresholdsInCounts` | platform/gpio.c:164-193 | the LED is cleared for counts up to 21094 / 9375 / 3515 and set from 21095 / 9376 / 3517 (SLOW / MEDIUM / FAST); only FAST at 3516 fires neither branch |
| `Gpio.SingleSampleLevel` | platform/gpio.c:164-193 | with one counter sample, a blinking setting leaves the LED lit iff the sample is above the threshold, or on it and the LED was already lit |
| `Gpio.BlinkUpdateIdempotent` | platform/gpio.c:154-199 | updating twice with the same setting and samples leaves the same LED level and compare register as once |
| `Gpio.LitCountClosed` | platform/gpio.c:164-193 | the number of counter values below n that light the LED is n minus the first lighting value, or 0 |
| `Gpio.LitFractionOfPeriod` | platform/gpio.c:164-193 | over one period the LED is lit for 2343 / 2343 / 3515 counter values: the last tenth, fifth or half of the period, within two counts |
| `Gpio.Board.constructor` | platform/gpio.c:207 | the press mask starts at 0 and meets the latch invariant |
| `Gpio.Board.ExtInt2Handler` | platform/gpio.c:209-219 | the mask becomes HandlerStep of its old value and the sampled pin state; the latch invariant is kept; nothing else changes |
| `Gpio.Board.PbGetEvent` | platform/gpio.c:265-270 | returns the mask's previous value, which is 0, PRESS or RELEASE, and leaves the mask 0 |
| `Gpio.Board.BlinkModify` | platform/gpio.c:154-199 | TC_CC[0] becomes 23438 / 11719 / 7032 for SLOW / MEDIUM / FAST and is kept otherwise; the LED is cleared below and set above the threshold, forced by OFF/ON, and kept when neither branch fires; the press mask is untouched |
| `Gpio.PressReleaseThenPoll` | platform.h:44-51 | a press then a release before any poll: the poll returns only RELEASE and the next poll returns 0 |
| `Gpio.FastBlinkSamples` | platform/gpio.c:184-193 | under FAST a sample of 1000 leaves the LED dark, a sample of 5000 leaves it lit, and TC_CC[0] is 7032 |

## Left out

- Register bring-up is not modelled: `EIC_init_early`, `EIC_init_late`, `EVSYS_init`, `blink_init`, `PB_init`, `Emergency_Pins_Init`, `NVIC_init` and `platform_init` only program registers and busy-wait on their synchronisation flags.
- `read_count()`'s register handshake is not modelled. The counter value is a parameter, and `BlinkModify` takes two samples because the code reads the counter once for each test. Single-sample results are stated with both samples equal.
- The busy-waits on `TC_SYNCBUSY` are not modelled, and neither is the interrupt-flag acknowledgement `EIC_INTFLAG` (platform/gpio.c:217). They hold no state of this model.
- Reading `TC_CC[0]` back right after writing it is assumed to return the written value.
- The float products `CC*0.9`, `CC*0.8` and `CC*0.5` are replaced by exact integer cross-multiplication. The products are 21094.2, 9375.2 and exactly 3516, so the replacement decides every integer counter sample the same way. IEEE doubles are not modelled.
- Interrupt concurrency is not modelled. The handler and the poll are sequential steps, and the model claims nothing about races. The poll is a load followed by a store, not an atomic exchange, so an edge arriving between the two could be lost.
- `currentSetting` and its enumeration come from `blink_settings.h`, which is not part of this model. The setting is a parameter of type `BlinkSetting`.
- Platform.Compare: the source's implementation of `platform_timespec_compare` is not part of this model. Compare is given at contract level, as a lexicographic order proved against the documented -1/0/+1 meaning.
- Platform.Delta: the source's implementation of `platform_tick_delta` is not part of this model. Delta is the documented difference with one wrap-around correction. An elapsed time of a full seconds-counter cycle or more cannot be represented and is not reported.
- The bodies of `platform_tick_count` and `platform_tick_hrcount` are not part of this model. `PLATFORM_TICK_PERIOD_US` is kept as a constant only.
- `platform_do_loop_one` is not modelled. It only forwards the current tick to the serial tick handler, whose body is not part of this model.
- The asynchronous USART transmit and receive interface is not modelled. Only its declarations and descriptor types exist, and BREAK completion is documented as unimplemented.
- The unused global `top` and the stale `@param val` on `platform_blink_modify` are not modelled. They have no behaviour.
