# LCD Minion — a Dafny model

LCD Minion shares the two-line VEX Cortex LCD among several producers. Each
producer asks for a virtual channel and then pushes two lines of text to it,
optionally with an alert flag. A display task shows one channel at a time.
The Left button moves to the next channel and the Center button to the
previous one. An alert from a channel takes over the display and starts
blinking the backlight. The Right button toggles the alert enable of the
channel on display, which dismisses the alert.

The model is a pure state machine written in three modules:

- `LCDData` (`lcd_data.dfy`) holds what the header declares. That is the
  capacity `MAX_CHAN = 20` and the two-line `Screen`. It also holds the
  per-channel `Flags` (`alertEnable`, `isAlert`) and the banner lines. The
  shared `State` has both tables as sequences of exactly `MAX_CHAN`
  entries, plus `numChan`, `curChan`, a `blinkRunning` flag for the
  FlashLight task and a `backlight` flag. The invariant `Valid` says three
  things: the tables have their fixed size, `0 <= curChan < numChan <= MAX_CHAN`,
  and slots not yet handed out still hold zeroed flags.
- `LCDMinion` (`lcd_minion.dfy`) holds one transition per source routine.
  These are `reqLCDChan`, `dispLCDChan` and `clearLCDAlert`, the start-up of
  the display task, and one dispatch of a sampled button code. It also holds
  the rows the display shows.
- `LCDProps` (`lcd_props.dfy`) holds properties that span several calls.
  `Exec`/`Run` apply any sequence of producer calls and button presses. The
  module also covers the order of granted ids, navigation round trips, the
  one-shot alert edge, and the concrete scenarios.

Decisions the code leaves open:

- Global storage is taken to be zero-initialised, as C globals are. Strings
  start empty, flags false and `numChan` 0 (`PowerOn`). Start-up then writes
  only `numChan`, `curChan`, screen 0 and the backlight. So channel 0 starts
  with alerts disabled: the code never sets its `alertEnable`.
- `reqLCDChan` writes only `alertEnable`. The new channel has `isAlert`
  false because an unallocated slot is never written.
- The source never checks channel ids or capacity. The model refuses those
  calls with a `Result`: `CapacityExceeded` from `ReqLCDChan` on a full
  table, and `BadChannel` from `DispLCDChan` and `ClearLCDAlert` for an id
  outside `[0, numChan)`. At the level of `Exec`, a refused call leaves the
  state unchanged.
- Starting the FlashLight task sets `blinkRunning`. Stopping it clears the
  flag. A start while it is already running leaves the flag set.
- The behaviour of the code is kept where a cleaner design would differ.
  Turning alerts off on one channel stops the blinker even while another
  channel's alert is latched (`DismissSilencesOtherAlerts`). A producer
  retracting its alert leaves the blinker running
  (`RetractionKeepsBlinker`).

## Model

| member | source | states |
|---|---|---|
| LCDData.ChanInTable | LCDMinion.h:33-36 | in a valid state every allocated channel id indexes within both fixed tables of MAX_CHAN = 20 entries |
| LCDData.PowerOn | LCDMinion.h:33-36 | before the display task runs, both tables are MAX_CHAN long, every screen is blank, every flag pair is (false, false), no channel is allocated, and the blinker and backlight are off |
| LCDMinion.ReqLCDChan | LCDMinion.cpp:39-51 | succeeds exactly when the table is not full; then it returns the old numChan, increments numChan by one, and leaves the new slot with alerts enabled and nothing latched; screens, current channel, blinker, backlight and all other slots are unchanged; on a full table it returns CapacityExceeded |
| LCDMinion.DispLCDChan | LCDMinion.cpp:74-94 | succeeds exactly for an allocated channel (else BadChannel). It overwrites that channel's two lines and no other screen, and changes no other channel's flags, no enable flag, numChan or the backlight. On a rising edge (alert, enabled, not latched) it makes the channel current, latches isAlert and runs the blinker. A repeated alert push changes only the content. A push without alert clears isAlert and moves neither curChan nor the blinker |
| LCDMinion.Toggle | LCDMinion.cpp:100-117 | negates the channel's alertEnable. If it is now off, the blinker is stopped and the backlight forced on, whatever other channels hold. If it is now on, the channel's isAlert is cleared. No other channel, screen or counter changes |
| LCDMinion.ClearLCDAlert | LCDMinion.cpp:100-117 | succeeds exactly for an allocated channel (else BadChannel). It negates the channel's enable. If the enable ends off, the blinker is stopped and the backlight turned on, and the latch is kept. If it ends on, the latch is cleared and the blinker and backlight are kept. Other channels' flags, the screens, numChan and curChan are unchanged |
| LCDMinion.Startup | LCDMinion.cpp:135-143 | start-up leaves one channel, channel 0 on display holding the banner, and the backlight on; the other screens, all flags and the blinker are untouched |
| LCDMinion.Init | LCDMinion.cpp:135-143 | the state the display loop starts in is valid, with numChan = 1 and curChan = 0. Channel 0 shows the two 16-character banner lines, with alerts disabled and nothing latched. The backlight is on and the blinker is stopped |
| LCDMinion.Left | LCDMinion.cpp:163-169 | Left moves to (curChan + 1) mod numChan, wrapping from the top channel to 0; only curChan changes and the invariant is kept |
| LCDMinion.Center | LCDMinion.cpp:171-177 | Center moves to (curChan - 1 + numChan) mod numChan, wrapping from 0 to the top channel; only curChan changes and the invariant is kept |
| LCDMinion.Press | LCDMinion.cpp:148-196 | code 1 gives the Left move and code 2 the Center move. Code 4 is the same transition as clearLCDAlert on the current channel. Every other code, including none pressed and chords, leaves the state unchanged. The invariant is kept |
| LCDMinion.Render | LCDMinion.cpp:198-200 | the rows written to the display are the screen of an allocated channel |
| LCDMinion.Cycle | LCDMinion.cpp:145-203 | one loop pass dispatches the code and then shows the next channel after Left, the previous one after Center, and the same channel for Right or any other code |
| LCDProps.Exec | LCDMinion.cpp:39-117 | one producer call or button press keeps the invariant. A call is refused exactly for a request on a full table or a bad channel id, and then the state is unchanged. A granted id is the old numChan, and numChan grows by at most one |
| LCDProps.Run | LCDMinion.cpp:145-203 | every state reached by any sequence of calls and presses is valid, and numChan never decreases, so ids are never freed |
| LCDProps.Grants | LCDMinion.cpp:39-51 | under any interleaving of calls, one id is granted per channel the calls allocate. The ids are consecutive from the starting numChan, hence strictly increasing and unique, and each is below the final numChan |
| LCDProps.BannerNeverGranted | LCDMinion.cpp:135 | starting from start-up, under any interleaving of calls, the ids granted are 1, 2, 3, …, so no producer is ever granted channel 0 |
| LCDProps.AllocMany | LCDMinion.cpp:39-51 | k successive allocations return numChan, numChan + 1, …, numChan + k - 1. Each new slot has alerts enabled and nothing latched. Older slots, the screens and the current channel are unchanged |
| LCDProps.IdsFromStartup | LCDMinion.cpp:135 | starting from start-up, successive allocations return 1, 2, 3, …, strictly increasing |
| LCDProps.TableFullAfterLastChannel | LCDMinion.h:10 | after MAX_CHAN - 1 producers have allocated, the next request is refused with CapacityExceeded and the state is unchanged |
| LCDProps.LeftCenterInverse | LCDMinion.cpp:163-177 | Left then Center, and Center then Left, each restore the state |
| LCDProps.LeftN | LCDMinion.cpp:163-169 | any number of Left presses keeps the invariant and changes only curChan |
| LCDProps.LeftNPosition | LCDMinion.cpp:163-169 | after k Left presses the display is at (curChan + k) mod numChan |
| LCDProps.LeftCycleReturns | LCDMinion.cpp:163-169 | numChan Left presses return to the starting state, and no smaller positive number of presses returns to the starting channel |
| LCDProps.AlertIsEdgeTriggered | LCDMinion.cpp:81-90 | after a rising edge the alert channel is current and blinking. If the user then navigates away, a second alert push on that channel only replaces its content and does not pull the display back |
| LCDProps.AlertShowsItsContent | LCDMinion.cpp:81-90 | after a rising edge, the rows displayed are the content the alert push carried |
| LCDProps.DismissTwiceRearms | LCDMinion.cpp:179-195 | two Right presses on a channel with alerts enabled stop the blinker and leave the backlight on. The channel ends enabled with nothing latched, so its next alert push is a fresh rising edge |
| LCDProps.DismissSilencesOtherAlerts | LCDMinion.cpp:100-112 | turning alerts off on one channel stops the blinker even though another channel still has a latched alert |
| LCDProps.RetractionKeepsBlinker | LCDMinion.cpp:92-93 | a producer retracting its alert clears the latch but leaves the blinker running and the channel on display |
| LCDProps.AllocAlertDismissScenario | LCDMinion.cpp:39-117 | from start-up, the first allocation returns 1. An alert push of "A"/"B" on it moves the display from 0 to 1 and starts blinking. clearLCDAlert(1) disables its alerts, stops the blinker and turns the backlight on, and "A"/"B" is still displayed |
| LCDProps.WrapScenario | LCDMinion.cpp:163-177 | with three channels and channel 2 current, Left wraps to 0 and Center then wraps back to 2 |
| LCDProps.ReqUnguarded | LCDMinion.cpp:39-51 | allocation as written always returns the old numChan and increments the count. When the table has room it agrees with ReqLCDChan |
| LCDProps.UnguardedOverflows | LCDMinion.cpp:44-48 | on a full table the unguarded allocation returns id 20, which is outside both tables, and leaves a state that breaks the invariant; ReqLCDChan refuses the same call |

## Left out

- Timing: the 200 ms display period, the 750 ms blink dwell and the 500 ms press-and-hold wait (LCDMinion.cpp:153-159). They are wall-clock behaviour. Each loop pass takes one already-sampled button code.
- The FlashLight task body: its endless off/on loop drives only the hardware backlight. The model keeps `blinkRunning` and the backlight value last written by the core. It does not model the blink phases or what the scheduler does when a running task is started again.
- Hardware I/O: `displayLCDString`, `nLCDButtons` and `bLCDBacklight` are hardware registers. Rendering is the pure `Render`, and the button code is a parameter.
- The endless `while(true)` loops: the model has one step (`Cycle`) and sequences of steps (`Run`).
- The RobotC `string` length limit and its truncation on assignment: screens hold unbounded `seq<char>` lines.
- Producer calls made before the display task has started (while `numChan` is still 0) are not modelled. Every operation requires the invariant that start-up establishes.
- Concurrency: producers and the display task share state under cooperative scheduling with no preemption. Each call is one atomic transition.
- LCDMinion.Render: its contract says only that the rows shown are some allocated channel's screen. Which channel is shown is stated by `Cycle` and `AlertShowsItsContent`.

## Findings

| source | as written | input that shows it | evidently intended | confidence | as-written member | corrected member |
|---|---|---|---|---|---|---|
| LCDMinion.cpp:44-48 | `reqLCDChan` increments `numChan` and writes `panelLCD[newChan]` with no capacity check | any state with `numChan == 20`, e.g. 19 allocations after start-up | refuse the allocation when the table is full and leave the state unchanged | high; not executed | LCDProps.ReqUnguarded (exhibited by LCDProps.UnguardedOverflows) | LCDMinion.ReqLCDChan (with LCDProps.TableFullAfterLastChannel) |
