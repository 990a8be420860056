/** Value-level declarations of the platform-support header: the pushbutton
    event bits, the blink codes, and the time specification with its
    comparison and wrap-around-aware difference. */
module Platform {

  /** An unsigned 16-bit quantity held as a mathematical integer. */
  type U16 = x: int | 0 <= x < 0x1_0000

  /** An unsigned 32-bit quantity held as a mathematical integer. */
  type U32 = x: int | 0 <= x < 0x1_0000_0000

  datatype Option<T> = None | Some(value: T)

  // ---------------------------------------------------------------------------
  // Pushbutton event bits

  /** Event bit for pressing the on-board button. */
  const PB_ONBOARD_PRESS: bv16 := 0x0001
  /** Event bit for releasing the on-board button. */
  const PB_ONBOARD_RELEASE: bv16 := 0x0002
  /** All event bits that belong to the on-board button. */
  const PB_ONBOARD_MASK: bv16 := PB_ONBOARD_PRESS | PB_ONBOARD_RELEASE

  predicate SingleBit(b: bv16) {
    b != 0 && b & (b - 1) == 0
  }

  /** PRESS and RELEASE are distinct single bits and MASK is exactly their
      union, which is 0x0003. */
  lemma ButtonBitsDisjoint()
    ensures SingleBit(PB_ONBOARD_PRESS) && SingleBit(PB_ONBOARD_RELEASE)
    ensures PB_ONBOARD_PRESS & PB_ONBOARD_RELEASE == 0
    ensures PB_ONBOARD_MASK == 0x0003
    ensures PB_ONBOARD_MASK & PB_ONBOARD_PRESS == PB_ONBOARD_PRESS
    ensures PB_ONBOARD_MASK & PB_ONBOARD_RELEASE == PB_ONBOARD_RELEASE
  {
  }

  // ---------------------------------------------------------------------------
  // Blink settings

  /** The five indicator settings, from indefinitely dim to indefinitely lit. */
  datatype BlinkSetting = Off | Slow | Medium | Fast | On

  /** The numeric code the header assigns to a setting. */
  function BlinkCode(s: BlinkSetting): (c: int)
    ensures 0 <= c <= 4
    ensures c == 0 <==> s == Off
    ensures c == 4 <==> s == On
  {
    match s
    case Off => 0
    case Slow => 1
    case Medium => 2
    case Fast => 3
    case On => 4
  }

  /** The setting a numeric code denotes, if any. */
  function BlinkFromCode(c: int): (r: Option<BlinkSetting>)
    ensures r.Some? <==> 0 <= c <= 4
  {
    if c == 0 then Some(Off)
    else if c == 1 then Some(Slow)
    else if c == 2 then Some(Medium)
    else if c == 3 then Some(Fast)
    else if c == 4 then Some(On)
    else None
  }

  /** The codes 0..4 name the five settings one to one. */
  lemma BlinkCodesRoundTrip(s: BlinkSetting, c: int)
    ensures BlinkFromCode(BlinkCode(s)) == Some(s)
    ensures BlinkFromCode(c) == Some(s) ==> BlinkCode(s) == c
  {
  }

  // ---------------------------------------------------------------------------
  // Time specifications

  const NSEC_PER_SEC: int := 1_000_000_000
  /** Number of distinct values of the 32-bit seconds counter. */
  const SEC_MODULUS: int := 0x1_0000_0000
  /** Nanoseconds in one full cycle of the seconds counter. */
  const CYCLE_NSEC: int := SEC_MODULUS * NSEC_PER_SEC

  /** Microseconds in one tick. */
  const TICK_PERIOD_US: int := 5000

  /** A time specification: seconds since some epoch and nanoseconds. */
  datatype Timespec = Timespec(nrSec: U32, nrNsec: U32)

  /** The range every routine expects of the nanoseconds field. */
  predicate ValidTimespec(t: Timespec) {
    t.nrNsec <= 999_999_999
  }

  /** The zero time specification. */
  const TIMESPEC_ZERO: Timespec := Timespec(0, 0)

  lemma TimespecZeroValid()
    ensures ValidTimespec(TIMESPEC_ZERO)
    ensures ToNanos(TIMESPEC_ZERO) == 0
  {
  }

  /** The instant a time specification denotes, in nanoseconds since the epoch
      (within one cycle of the seconds counter). */
  function ToNanos(t: Timespec): (n: int)
    ensures 0 <= n
    ensures ValidTimespec(t) ==> n < CYCLE_NSEC
  {
    t.nrSec * NSEC_PER_SEC + t.nrNsec
  }

  /** Two valid time specifications that denote the same instant are equal. */
  lemma ToNanosInjective(a: Timespec, b: Timespec)
    requires ValidTimespec(a) && ValidTimespec(b)
    requires ToNanos(a) == ToNanos(b)
    ensures a == b
  {
  }

  /** Lexicographic "earlier than" on (seconds, nanoseconds). */
  predicate LexEarlier(lhs: Timespec, rhs: Timespec) {
    lhs.nrSec < rhs.nrSec || (lhs.nrSec == rhs.nrSec && lhs.nrNsec < rhs.nrNsec)
  }

  /** Compare two time specifications: -1 if lhs is earlier, +1 if later, 0
      otherwise. Earlier and later are those of the instants denoted. */
  function Compare(lhs: Timespec, rhs: Timespec): (r: int)
    requires ValidTimespec(lhs) && ValidTimespec(rhs)
    ensures r == -1 || r == 0 || r == 1
    ensures r == -1 <==> ToNanos(lhs) < ToNanos(rhs)
    ensures r == 1 <==> ToNanos(lhs) > ToNanos(rhs)
    ensures r == 0 <==> lhs == rhs
  {
    if LexEarlier(lhs, rhs) then -1
    else if LexEarlier(rhs, lhs) then 1
    else 0
  }

  /** A time specification compares equal to itself. */
  lemma CompareSelf(t: Timespec)
    requires ValidTimespec(t)
    ensures Compare(t, t) == 0
  {
  }

  /** Swapping the operands negates the result. */
  lemma CompareAntisymmetric(a: Timespec, b: Timespec)
    requires ValidTimespec(a) && ValidTimespec(b)
    ensures Compare(a, b) == -Compare(b, a)
  {
  }

  /** "Earlier" is transitive. */
  lemma CompareTransitive(a: Timespec, b: Timespec, c: Timespec)
    requires ValidTimespec(a) && ValidTimespec(b) && ValidTimespec(c)
    requires Compare(a, b) == -1 && Compare(b, c) == -1
    ensures Compare(a, c) == -1
  {
  }

  /** Without the nanoseconds range, the lexicographic order no longer agrees
      with the instants denoted: this is why Compare requires it. */
  lemma NsecRangeNeededForCompare()
    ensures var a, b := Timespec(0, 1_500_000_000), Timespec(1, 0);
            !ValidTimespec(a) && LexEarlier(a, b) && ToNanos(a) > ToNanos(b)
  {
  }

  /** Time elapsed from rhs to lhs. The seconds are subtracted modulo 2^32, so
      one wrap-around of the seconds counter between the two is corrected. */
  function Delta(lhs: Timespec, rhs: Timespec): (d: Timespec)
    requires ValidTimespec(lhs) && ValidTimespec(rhs)
    ensures ValidTimespec(d)
    ensures ToNanos(lhs) >= ToNanos(rhs) ==> ToNanos(d) == ToNanos(lhs) - ToNanos(rhs)
    ensures ToNanos(lhs) < ToNanos(rhs) ==> ToNanos(d) == ToNanos(lhs) + CYCLE_NSEC - ToNanos(rhs)
  {
    var borrow := if lhs.nrNsec < rhs.nrNsec then 1 else 0;
    var sec := lhs.nrSec - rhs.nrSec - borrow;
    Timespec(if sec < 0 then sec + SEC_MODULUS else sec,
             lhs.nrNsec + borrow * NSEC_PER_SEC - rhs.nrNsec)
  }

  /** The instant reached from t after elapsed time d, with the seconds counter
      wrapping modulo 2^32. */
  function Advance(t: Timespec, d: Timespec): (r: Timespec)
    requires ValidTimespec(t) && ValidTimespec(d)
    ensures ValidTimespec(r)
    ensures ToNanos(t) + ToNanos(d) < CYCLE_NSEC ==> ToNanos(r) == ToNanos(t) + ToNanos(d)
    ensures ToNanos(t) + ToNanos(d) >= CYCLE_NSEC ==> ToNanos(r) == ToNanos(t) + ToNanos(d) - CYCLE_NSEC
  {
    var carry := if t.nrNsec + d.nrNsec >= NSEC_PER_SEC then 1 else 0;
    var sec := t.nrSec + d.nrSec + carry;
    Timespec(if sec >= SEC_MODULUS then sec - SEC_MODULUS else sec,
             t.nrNsec + d.nrNsec - carry * NSEC_PER_SEC)
  }

  /** Advancing rhs by the difference lhs - rhs lands on lhs, whether or not the
      seconds counter wrapped in between. */
  lemma DeltaThenAdvance(lhs: Timespec, rhs: Timespec)
    requires ValidTimespec(lhs) && ValidTimespec(rhs)
    ensures Advance(rhs, Delta(lhs, rhs)) == lhs
  {
  }

  /** Any elapsed time shorter than one full cycle of the seconds counter is
      recovered by Delta, even across one wrap-around. */
  lemma AdvanceThenDelta(t: Timespec, d: Timespec)
    requires ValidTimespec(t) && ValidTimespec(d)
    ensures Delta(Advance(t, d), t) == d
  {
  }

  /** Two instants on either side of one roll-over of the seconds counter:
      4294967294 s and, 4 s later, 2 s. */
  lemma DeltaAcrossOneWrap()
    ensures Delta(Timespec(2, 0), Timespec(4294967294, 0)) == Timespec(4, 0)
    ensures Delta(Timespec(2, 100), Timespec(4294967295, 200)) == Timespec(2, 999_999_900)
  {
  }
}
