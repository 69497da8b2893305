/** Properties of the LCD Minion that relate several calls: the invariant
    over any sequence of producer calls and button presses, the order in
    which channel ids are handed out, navigation round trips, and the
    edge-triggered alert protocol. */
module LCDProps {
  import opened LCDData
  import opened LCDMinion

  /** Everything that can happen to the shared state: a producer call of one
      of the three public functions, or one sampled button code. */
  datatype Call =
    | Request
    | Display(chan: int, disp: Screen, alert: bool)
    | ClearAlert(chan: int)
    | Button(code: int)

  datatype Reply = Granted(chan: int) | Done | Refused(error: Error)

  datatype Outcome = Outcome(state: State, reply: Reply)

  /** Apply one call; a refused call leaves the state as it was. */
  function Exec(s: State, call: Call): (o: Outcome)
    requires Valid(s)
    ensures Valid(o.state)
    ensures o.reply.Refused? ==> o.state == s
    ensures o.reply.Refused? <==>
      || (call.Request? && s.numChan == MAX_CHAN)
      || ((call.Display? || call.ClearAlert?) && !IsChan(s, call.chan))
    ensures o.reply.Granted? ==> call.Request? && o.reply.chan == s.numChan
    ensures o.state.numChan == s.numChan || o.state.numChan == s.numChan + 1
  {
    match call
    case Request =>
      (match ReqLCDChan(s)
       case Ok(a) => Outcome(a.state, Granted(a.chan))
       case Err(e) => Outcome(s, Refused(e)))
    case Display(chan, disp, alert) =>
      (match DispLCDChan(s, chan, disp, alert)
       case Ok(t) => Outcome(t, Done)
       case Err(e) => Outcome(s, Refused(e)))
    case ClearAlert(chan) =>
      (match ClearLCDAlert(s, chan)
       case Ok(t) => Outcome(t, Done)
       case Err(e) => Outcome(s, Refused(e)))
    case Button(code) =>
      Outcome(Press(s, code), Done)
  }

  /** Apply a sequence of calls in order. Every state reached is valid, and
      the channel count never shrinks, so an id once handed out stays
      allocated. */
  function Run(s: State, calls: seq<Call>): (t: State)
    requires Valid(s)
    ensures Valid(t)
    ensures s.numChan <= t.numChan
    decreases |calls|
  {
    if |calls| == 0 then s
    else Run(Exec(s, calls[0]).state, calls[1..])
  }

  /** The ids granted, in order, while a sequence of calls is applied. Under
      any interleaving of producer calls and button presses they are
      consecutive from the channel count at the start, one per channel
      allocated by the calls, so from start-up they run 1, 2, 3, ... */
  function Grants(s: State, calls: seq<Call>): (ids: seq<int>)
    requires Valid(s)
    ensures |ids| == Run(s, calls).numChan - s.numChan
    ensures forall i | 0 <= i < |ids| :: ids[i] == s.numChan + i
    ensures forall i | 0 <= i < |ids| :: s.numChan <= ids[i] < Run(s, calls).numChan
    ensures forall i, j | 0 <= i < j < |ids| :: ids[i] < ids[j]
    decreases |calls|
  {
    if |calls| == 0 then []
    else
      var o := Exec(s, calls[0]);
      var rest := Grants(o.state, calls[1..]);
      if o.reply.Granted? then [o.reply.chan] + rest else rest
  }

  /** From start-up, under any interleaving of calls, the ids granted are
      1, 2, 3, ...: no producer is ever granted the banner channel 0. */
  lemma BannerNeverGranted(calls: seq<Call>)
    ensures 0 !in Grants(Init(), calls)
    ensures forall i | 0 <= i < |Grants(Init(), calls)| :: Grants(Init(), calls)[i] == i + 1
  {
  }

  /** The result of k allocations in a row. */
  datatype Allocations = Allocations(state: State, ids: seq<int>)

  /** k successive reqLCDChan calls, while there is room: the ids are the
      next k slot numbers in order, and each new slot has alerts enabled and
      nothing latched. */
  function AllocMany(s: State, k: nat): (r: Allocations)
    requires Valid(s) && s.numChan + k <= MAX_CHAN
    ensures Valid(r.state)
    ensures |r.ids| == k
    ensures forall i | 0 <= i < k :: r.ids[i] == s.numChan + i
    ensures r.state.numChan == s.numChan + k
    ensures forall c | s.numChan <= c < s.numChan + k :: r.state.panel[c] == Flags(true, false)
    ensures forall c | 0 <= c < s.numChan :: r.state.panel[c] == s.panel[c]
    ensures r.state.screens == s.screens && r.state.curChan == s.curChan
    decreases k
  {
    if k == 0 then Allocations(s, [])
    else
      var a := ReqLCDChan(s).value;
      var rest := AllocMany(a.state, k - 1);
      Allocations(rest.state, [a.chan] + rest.ids)
  }

  /** From start-up, successive allocations return 1, 2, 3, ...: unique,
      strictly increasing, channel 0 being the banner. */
  lemma IdsFromStartup(k: nat)
    requires 1 + k <= MAX_CHAN
    ensures var ids := AllocMany(Init(), k).ids;
      && (forall i | 0 <= i < k :: ids[i] == i + 1)
      && (forall i, j | 0 <= i < j < k :: ids[i] < ids[j])
  {
  }

  /** Once MAX_CHAN - 1 producers have their channels, the next request is
      refused and the state is left as it was. */
  lemma TableFullAfterLastChannel()
    ensures var full := AllocMany(Init(), MAX_CHAN - 1).state;
      && ReqLCDChan(full) == Err(CapacityExceeded)
      && Exec(full, Request) == Outcome(full, Refused(CapacityExceeded))
  {
  }

  /** Left then Center, or Center then Left, puts the display back. */
  lemma LeftCenterInverse(s: State)
    requires Valid(s)
    ensures Center(Left(s)) == s
    ensures Left(Center(s)) == s
  {
  }

  /** k presses of Left. */
  function LeftN(s: State, k: nat): (r: State)
    requires Valid(s)
    ensures Valid(r)
    ensures r == s.(curChan := r.curChan)
    decreases k
  {
    if k == 0 then s else LeftN(Left(s), k - 1)
  }

  /** After k presses of Left the display is k channels further on, modulo
      the channel count. */
  lemma {:induction false} LeftNPosition(s: State, k: nat)
    requires Valid(s)
    ensures LeftN(s, k).curChan == (s.curChan + k) % s.numChan
    decreases k
  {
    var n := s.numChan;
    if k == 0 {
      ModUnique(s.curChan, n, 0, s.curChan);
    } else {
      LeftNPosition(Left(s), k - 1);
      if s.curChan + 1 == n {
        ModUnique(0, n, 0, 0);
        ModAddPeriod(k - 1, n);
      } else {
        ModUnique(s.curChan + 1, n, 0, s.curChan + 1);
      }
    }
  }

  lemma MulAtLeast(d: int, n: int)
    requires d >= 1 && n > 0
    ensures d * n >= n
  {
  }

  /** Euclidean remainder is determined by any quotient/remainder split. */
  lemma ModUnique(x: int, n: int, q: int, r: int)
    requires n > 0 && 0 <= r < n && x == q * n + r
    ensures x % n == r
  {
    var q', r' := x / n, x % n;
    assert (q - q') * n == r' - r;
    if q > q' {
      MulAtLeast(q - q', n);
    } else if q' > q {
      MulAtLeast(q' - q, n);
    }
  }

  lemma ModAddPeriod(x: int, n: int)
    requires n > 0
    ensures (x + n) % n == x % n
  {
    ModUnique(x + n, n, x / n + 1, x % n);
  }

  /** Pressing Left once per allocated channel visits them all and comes back. */
  lemma LeftCycleReturns(s: State)
    requires Valid(s)
    ensures LeftN(s, s.numChan as nat) == s
    ensures forall k: nat | 0 < k < s.numChan :: LeftN(s, k).curChan != s.curChan
  {
    var n := s.numChan;
    LeftNPosition(s, n as nat);
    ModUnique(s.curChan + n, n, 1, s.curChan);
    forall k: nat | 0 < k < n
      ensures LeftN(s, k).curChan != s.curChan
    {
      LeftNPosition(s, k);
      if s.curChan + k < n {
        ModUnique(s.curChan + k, n, 0, s.curChan + k);
      } else {
        ModUnique(s.curChan + k, n, 1, s.curChan + k - n);
      }
    }
  }

  /** An alert is one-shot: after the rising edge the user may navigate away,
      and a further alert push on the same channel only refreshes its
      content; it neither pulls the display back nor restarts the blinker. */
  lemma AlertIsEdgeTriggered(s: State, chan: int, d1: Screen, d2: Screen, code: int)
    requires Valid(s) && IsChan(s, chan) && RisingEdge(s, chan, true)
    requires code == BTN_LEFT || code == BTN_CENTER
    ensures var s1 := DispLCDChan(s, chan, d1, true).value;
      var s2 := Press(s1, code);
      var s3 := DispLCDChan(s2, chan, d2, true).value;
      && s1.curChan == chan && s1.blinkRunning
      && s3.curChan == s2.curChan
      && s3 == s2.(screens := s2.screens[chan := d2])
  {
  }

  /** A rising alert edge puts the alerting channel's new content on display. */
  lemma AlertShowsItsContent(s: State, chan: int, d: Screen)
    requires Valid(s) && IsChan(s, chan) && RisingEdge(s, chan, true)
    ensures Render(DispLCDChan(s, chan, d, true).value) == d
  {
  }

  /** Pressing Right twice on an alerting channel dismisses it for good: the
      blinker is stopped, the backlight is on, alerts are enabled again and
      nothing is latched, so the channel's next alert push is a fresh rising
      edge. */
  lemma DismissTwiceRearms(s: State)
    requires Valid(s) && s.panel[s.curChan].alertEnable
    ensures var t := Press(Press(s, BTN_RIGHT), BTN_RIGHT);
      && t.panel[t.curChan] == Flags(true, false)
      && !t.blinkRunning && t.backlight
      && t.curChan == s.curChan && t.screens == s.screens
      && RisingEdge(t, t.curChan, true)
  {
  }

  /** Turning alerts off on one channel stops the blinker even while another
      channel's alert is still latched. */
  lemma DismissSilencesOtherAlerts(s: State, chan: int, other: int)
    requires Valid(s) && IsChan(s, chan) && IsChan(s, other) && chan != other
    requires s.panel[chan].alertEnable && s.panel[other].isAlert
    ensures var t := ClearLCDAlert(s, chan).value;
      t.panel[other].isAlert && !t.blinkRunning
  {
  }

  /** A producer retracting its alert clears the latch but leaves the blinker
      running: blinking is started and stopped only by the alert edge and the
      alert toggle. */
  lemma RetractionKeepsBlinker(s: State, chan: int, d: Screen)
    requires Valid(s) && IsChan(s, chan) && RisingEdge(s, chan, true)
    ensures var t := DispLCDChan(DispLCDChan(s, chan, d, true).value, chan, d, false).value;
      !t.panel[chan].isAlert && t.blinkRunning && t.curChan == chan
  {
  }

  /** The scenario: one producer allocates, alerts, and the alert is
      dismissed; the display keeps showing the producer's content. */
  lemma AllocAlertDismissScenario()
    ensures var s0 := Init();
      var a := ReqLCDChan(s0).value;
      var d := Screen("A", "B");
      var s2 := DispLCDChan(a.state, a.chan, d, true).value;
      var s3 := ClearLCDAlert(s2, 1).value;
      && a.chan == 1
      && s0.curChan == 0 && s2.curChan == 1 && s2.blinkRunning
      && !s3.panel[1].alertEnable && !s3.blinkRunning && s3.backlight
      && Render(s3) == d
  {
  }

  /** The scenario: with three channels and channel 2 on display, Left wraps
      to 0 and Center wraps back to 2. */
  lemma WrapScenario()
    ensures var s := AllocMany(Init(), 2).state.(curChan := 2);
      && Valid(s) && s.numChan == 3
      && Press(s, BTN_LEFT).curChan == 0
      && Press(Press(s, BTN_LEFT), BTN_CENTER).curChan == 2
  {
  }

  /** reqLCDChan as written: no capacity check, and the write of the enable
      flag lands outside the table when the table is full (the model drops
      that write; the hardware would corrupt whatever follows the table). */
  function ReqUnguarded(s: State): (r: Alloc)
    requires Valid(s)
    ensures r.chan == s.numChan && r.state.numChan == s.numChan + 1
    ensures r.chan < MAX_CHAN ==> ReqLCDChan(s) == Ok(r)
  {
    var newChan := s.numChan;
    var panel :=
      if newChan < |s.panel| then s.panel[newChan := s.panel[newChan].(alertEnable := true)]
      else s.panel;
    Alloc(s.(numChan := s.numChan + 1, panel := panel), newChan)
  }

  /** On a full table the unguarded allocation hands out id MAX_CHAN, which
      indexes past both tables, and leaves a state outside the invariant;
      the guarded allocation refuses the same call. */
  lemma UnguardedOverflows()
    ensures var full := AllocMany(Init(), MAX_CHAN - 1).state;
      var r := ReqUnguarded(full);
      && r.chan == MAX_CHAN
      && !(r.chan < |r.state.screens|)
      && !Valid(r.state)
      && ReqLCDChan(full).Err?
  {
  }
}
