/** The operations of the LCD Minion (LCDMinion.cpp): channel allocation,
    content and alert intake, alert dismissal, start-up of the display task
    and one button-dispatch step of its loop. Every operation is a pure
    transition on an LCDData.State. */
module LCDMinion {
  import opened LCDData

  /** Button codes as read from the LCD's button register. */
  const BTN_LEFT: int := 1
  const BTN_CENTER: int := 2
  const BTN_RIGHT: int := 4

  /** A successful allocation: the new state and the id handed out. */
  datatype Alloc = Alloc(state: State, chan: int)

  /** reqLCDChan: hand out the next unused slot and enable alerts on it.
      The table is full at MAX_CHAN channels; the call is then refused. */
  function ReqLCDChan(s: State): (r: Result<Alloc>)
    requires Valid(s)
    ensures r.Ok? <==> s.numChan < MAX_CHAN
    ensures r.Err? ==> r.error == CapacityExceeded
    ensures r.Ok? ==>
      var t := r.value.state;
      && Valid(t)
      && r.value.chan == s.numChan
      && t.numChan == s.numChan + 1
      && t.panel[r.value.chan] == Flags(true, false)
      && (forall i | 0 <= i < MAX_CHAN && i != r.value.chan :: t.panel[i] == s.panel[i])
      && t.screens == s.screens
      && t.curChan == s.curChan
      && t.blinkRunning == s.blinkRunning && t.backlight == s.backlight
  {
    if s.numChan == MAX_CHAN then
      Err(CapacityExceeded)
    else
      var newChan := s.numChan;
      var flags := s.panel[newChan].(alertEnable := true);
      Ok(Alloc(s.(numChan := s.numChan + 1, panel := s.panel[newChan := flags]), newChan))
  }

  /** A push with alert set that finds the channel permitted to alert and not
      already alerting: the rising edge that takes over the display. */
  predicate RisingEdge(s: State, chan: int, alert: bool)
    requires WellShaped(s) && 0 <= chan < MAX_CHAN
  {
    alert && s.panel[chan].alertEnable && !s.panel[chan].isAlert
  }

  /** dispLCDChan: store the pushed screen in the channel; on a rising alert
      edge make it the current channel, start the blinker and latch the
      alert; a push without alert retracts any latched alert. */
  function DispLCDChan(s: State, chan: int, disp: Screen, alert: bool): (r: Result<State>)
    requires Valid(s)
    ensures r.Ok? <==> IsChan(s, chan)
    ensures r.Err? ==> r.error == BadChannel
    ensures r.Ok? ==>
      var t := r.value;
      && Valid(t)
      // the content of the channel is overwritten, no other screen changes
      && t.screens[chan] == disp
      && (forall i | 0 <= i < MAX_CHAN && i != chan :: t.screens[i] == s.screens[i])
      // no other channel's flags and no enable flag change
      && (forall i | 0 <= i < MAX_CHAN && i != chan :: t.panel[i] == s.panel[i])
      && t.panel[chan].alertEnable == s.panel[chan].alertEnable
      && t.numChan == s.numChan
      && t.backlight == s.backlight
    // rising edge: the channel takes over the display and the blinker runs
    ensures r.Ok? && RisingEdge(s, chan, alert) ==>
      r.value.curChan == chan && r.value.panel[chan].isAlert && r.value.blinkRunning
    // an alert push that is not a rising edge only replaces the content
    ensures r.Ok? && alert && !RisingEdge(s, chan, alert) ==>
      r.value == s.(screens := r.value.screens)
    // retraction: the latch is cleared, nothing else but the content moves
    ensures r.Ok? && !alert ==>
      && !r.value.panel[chan].isAlert
      && r.value.curChan == s.curChan
      && r.value.blinkRunning == s.blinkRunning
  {
    if !IsChan(s, chan) then
      Err(BadChannel)
    else
      var stored := s.(screens := s.screens[chan := disp]);
      var alerted :=
        if RisingEdge(stored, chan, alert) then
          stored.(curChan := chan, blinkRunning := true,
                  panel := stored.panel[chan := stored.panel[chan].(isAlert := true)])
        else stored;
      if !alert then
        Ok(alerted.(panel := alerted.panel[chan := alerted.panel[chan].(isAlert := false)]))
      else
        Ok(alerted)
  }

  /** The alert toggle shared by clearLCDAlert and the Right button: flip the
      channel's alert enable; turning it off stops the blinker and forces the
      backlight on (whatever other channels are doing), turning it on clears
      the channel's latched alert. */
  function Toggle(s: State, chan: int): (r: State)
    requires Valid(s) && IsChan(s, chan)
    ensures Valid(r)
    ensures r.panel[chan].alertEnable == !s.panel[chan].alertEnable
    ensures !r.panel[chan].alertEnable ==>
      && !r.blinkRunning && r.backlight
      && r.panel[chan].isAlert == s.panel[chan].isAlert
    ensures r.panel[chan].alertEnable ==>
      && !r.panel[chan].isAlert
      && r.blinkRunning == s.blinkRunning && r.backlight == s.backlight
    ensures forall i | 0 <= i < MAX_CHAN && i != chan :: r.panel[i] == s.panel[i]
    ensures r.screens == s.screens && r.numChan == s.numChan && r.curChan == s.curChan
  {
    var flipped := s.panel[chan].(alertEnable := !s.panel[chan].alertEnable);
    var t := s.(panel := s.panel[chan := flipped]);
    if !flipped.alertEnable then
      t.(blinkRunning := false, backlight := true)
    else
      t.(panel := t.panel[chan := flipped.(isAlert := false)])
  }

  /** clearLCDAlert: the alert toggle on a channel named by a producer. */
  function ClearLCDAlert(s: State, chan: int): (r: Result<State>)
    requires Valid(s)
    ensures r.Ok? <==> IsChan(s, chan)
    ensures r.Err? ==> r.error == BadChannel
    ensures r.Ok? ==> Valid(r.value)
    ensures r.Ok? ==> r.value.panel[chan].alertEnable == !s.panel[chan].alertEnable
    ensures r.Ok? && !r.value.panel[chan].alertEnable ==>
      !r.value.blinkRunning && r.value.backlight
    ensures r.Ok? && !r.value.panel[chan].alertEnable ==>
      r.value.panel[chan].isAlert == s.panel[chan].isAlert
    ensures r.Ok? && r.value.panel[chan].alertEnable ==>
      && !r.value.panel[chan].isAlert
      && r.value.blinkRunning == s.blinkRunning && r.value.backlight == s.backlight
    // nothing but the named channel's flags, the blinker and the backlight moves
    ensures r.Ok? ==>
      && (forall i | 0 <= i < MAX_CHAN && i != chan :: r.value.panel[i] == s.panel[i])
      && r.value.screens == s.screens
      && r.value.numChan == s.numChan
      && r.value.curChan == s.curChan
  {
    if IsChan(s, chan) then Ok(Toggle(s, chan)) else Err(BadChannel)
  }

  /** Start-up of the display task: one channel (the banner in slot 0), shown,
      backlight on. The rest of the tables is left as it was. */
  function Startup(s: State): (r: State)
    requires WellShaped(s)
    ensures WellShaped(r)
    ensures r.numChan == 1 && r.curChan == 0 && r.backlight
    ensures r.screens[0] == Banner
    ensures forall i | 1 <= i < MAX_CHAN :: r.screens[i] == s.screens[i]
    ensures r.panel == s.panel && r.blinkRunning == s.blinkRunning
  {
    s.(numChan := 1, curChan := 0, screens := s.screens[0 := Banner], backlight := true)
  }

  /** The state in which the display task enters its loop, starting from
      zero-initialised storage. Channel 0 is never given alerts by start-up. */
  function Init(): (r: State)
    ensures Valid(r)
    ensures r.numChan == 1 && r.curChan == 0 && r.backlight && !r.blinkRunning
    ensures r.screens[0] == Banner && |r.screens[0].line0| == 16 && |r.screens[0].line1| == 16
    ensures r.panel[0] == Idle
  {
    Startup(PowerOn())
  }

  /** Left ("up"): next channel, wrapping from the top to 0. */
  function Left(s: State): (r: State)
    requires Valid(s)
    ensures Valid(r)
    ensures r.curChan == (s.curChan + 1) % s.numChan
    ensures r == s.(curChan := r.curChan)
  {
    var c := s.curChan + 1;
    if c == s.numChan then s.(curChan := 0) else s.(curChan := c)
  }

  /** Center ("down"): previous channel, wrapping from 0 to the top. */
  function Center(s: State): (r: State)
    requires Valid(s)
    ensures Valid(r)
    ensures r.curChan == (s.curChan - 1 + s.numChan) % s.numChan
    ensures r == s.(curChan := r.curChan)
  {
    var c := s.curChan - 1;
    if c < 0 then s.(curChan := s.numChan - 1) else s.(curChan := c)
  }

  /** Dispatch of one sampled button code: Left and Center navigate, Right
      toggles the alert of the channel on display, every other code
      (nothing pressed, or several buttons at once) does nothing. */
  function Press(s: State, code: int): (r: State)
    requires Valid(s)
    ensures Valid(r)
    ensures code == BTN_LEFT ==> r == s.(curChan := (s.curChan + 1) % s.numChan)
    ensures code == BTN_CENTER ==> r == s.(curChan := (s.curChan - 1 + s.numChan) % s.numChan)
    ensures code == BTN_RIGHT ==> Ok(r) == ClearLCDAlert(s, s.curChan)
    ensures code !in {BTN_LEFT, BTN_CENTER, BTN_RIGHT} ==> r == s
  {
    if code > 0 then
      match code
      case 1 => Left(s)
      case 2 => Center(s)
      case 4 => Toggle(s, s.curChan)
      case _ => s
    else s
  }

  /** What the two display rows show: the current channel's screen. */
  function Render(s: State): (rows: Screen)
    requires Valid(s)
    ensures exists c | IsChan(s, c) :: rows == s.screens[c]
  {
    s.screens[s.curChan]
  }

  /** One pass of the display loop: dispatch the sampled code, then show the
      current channel. */
  datatype Frame = Frame(state: State, shown: Screen)

  function Cycle(s: State, code: int): (f: Frame)
    requires Valid(s)
    ensures Valid(f.state) && f.state == Press(s, code)
    ensures code == BTN_LEFT ==> f.shown == s.screens[(s.curChan + 1) % s.numChan]
    ensures code == BTN_CENTER ==> f.shown == s.screens[(s.curChan - 1 + s.numChan) % s.numChan]
    // the alert toggle and every other code keep the same channel on display
    ensures code != BTN_LEFT && code != BTN_CENTER ==> f.shown == s.screens[s.curChan]
  {
    var t := Press(s, code);
    Frame(t, Render(t))
  }
}
