/** Data of the LCD Minion: the fixed-capacity tables of virtual screens and
    per-channel alert flags, the two counters, and the blinker/backlight
    flags (LCDMinion.h). */
module LCDData {

  /** Capacity of both per-channel tables. */
  const MAX_CHAN: nat := 20

  /** The two fixed lines that channel 0 shows after start-up. */
  const BANNER_LINE0: string := "  Badger Bots   "
  const BANNER_LINE1: string := "  Team #6058    "

  /** One virtual screen: exactly two text lines. */
  datatype Screen = Screen(line0: string, line1: string)

  /** Per-channel control state: exactly two booleans. */
  datatype Flags = Flags(alertEnable: bool, isAlert: bool)

  const Banner: Screen := Screen(BANNER_LINE0, BANNER_LINE1)

  /** The value zero-initialised global storage holds in every slot. */
  const BlankScreen: Screen := Screen("", "")
  const Idle: Flags := Flags(false, false)

  /** The whole shared state: both tables (always MAX_CHAN long), the number of
      allocated channels, the channel on display, whether the FlashLight task
      is running, and the backlight register as last written by the core. */
  datatype State = State(
    screens: seq<Screen>,
    panel: seq<Flags>,
    numChan: int,
    curChan: int,
    blinkRunning: bool,
    backlight: bool)

  /** Why a call is refused: the table is full, or a channel id is not allocated. */
  datatype Error = CapacityExceeded | BadChannel

  datatype Result<T> = Ok(value: T) | Err(error: Error)

  /** Both tables have the fixed capacity. */
  predicate WellShaped(s: State) {
    |s.screens| == MAX_CHAN && |s.panel| == MAX_CHAN
  }

  /** The channel id names an allocated slot. */
  predicate IsChan(s: State, chan: int) {
    0 <= chan < s.numChan
  }

  /** The invariant of every reachable state: the tables have their fixed
      size, 0 <= curChan < numChan <= MAX_CHAN, and slots not yet handed out
      still hold their zero-initialised flags. */
  predicate Valid(s: State) {
    && WellShaped(s)
    && 0 <= s.curChan < s.numChan <= MAX_CHAN
    && forall i | s.numChan <= i < MAX_CHAN :: s.panel[i] == Idle
  }

  /** Every valid channel index lies within the fixed tables. */
  lemma ChanInTable(s: State, chan: int)
    requires Valid(s)
    requires IsChan(s, chan)
    ensures 0 <= chan < MAX_CHAN && chan < |s.screens| && chan < |s.panel|
  {
  }

  /** Global storage before the display task runs: everything zeroed. The
      backlight register is not written by the core until start-up, so its
      power-on value is taken to be off. */
  function PowerOn(): (s: State)
    ensures WellShaped(s)
    ensures s.numChan == 0 && s.curChan == 0 && !s.blinkRunning && !s.backlight
    ensures forall i | 0 <= i < MAX_CHAN :: s.screens[i] == BlankScreen && s.panel[i] == Idle
  {
    State(seq(MAX_CHAN, _ => BlankScreen), seq(MAX_CHAN, _ => Idle), 0, 0, false, false)
  }
}
