/** The two browser timers of client/src/hooks/useBreathingExercise.ts on a
    one-second clock: the session interval (lines 144-152) fires every second
    while running, and the phase timeout (lines 126 and 155) fires when the
    current phase's duration has elapsed and is then re-armed for the next
    phase. Pausing clears both. */
module Schedule {
  import opened Patterns
  import opened Engine

  /** The engine plus the seconds until the armed phase timer fires. */
  datatype Clock = Clock(m: Machine, due: int)

  /** Pressing play: start the engine and arm the phase timer for the current
      phase's duration. */
  function Play(c: Clock): (r: Clock)
    ensures r.m == DoStart(c.m).after
    ensures r.due == c.m.session.phaseDuration
  {
    Clock(c.m.(session := c.m.session.(playing := true)), c.m.session.phaseDuration)
  }

  /** One second of wall time: the countdown ticks first (it was armed
      first); if the session is still running and the phase timer is due it
      fires and is re-armed for the new phase. A stopped session has no
      timers. */
  function Second(c: Clock): (r: Clock)
    ensures !c.m.session.playing ==> r == c
    ensures r.m.props == c.m.props
    ensures r.m.session.remaining == DoTick(c.m).after.session.remaining
    ensures r.m.session.playing == DoTick(c.m).after.session.playing
    ensures c.m.session.playing && r.m.session.playing && c.due <= 1 ==>
      && r.m.session.phase == Next(c.m.props.pattern, c.m.session.phase)
      && r.due == Duration(c.m.props.pattern, r.m.session.phase)
    ensures c.m.session.playing && r.m.session.playing && c.due > 1 ==>
      && r.m.session.phase == c.m.session.phase
      && r.due == c.due - 1
    ensures c.m.session.playing && !r.m.session.playing ==> r.m.session.phase == c.m.session.phase
    ensures Inv(c.m) ==> Inv(r.m)
  {
    if !c.m.session.playing then c
    else
      var ticked := DoTick(c.m).after;
      if !ticked.session.playing then Clock(ticked, c.due)
      else if c.due <= 1 then
        var advanced := DoAdvance(ticked).after;
        Clock(advanced, advanced.session.phaseDuration)
      else Clock(ticked, c.due - 1)
  }

  /** A new pattern on the clock. A running session is restarted
      (lines 189-194): both timers are cleared and the phase timeout is armed
      afresh for the current phase's duration under the new pattern
      (line 155). A stopped session has no timers to re-arm. */
  function Repattern(c: Clock, p: Pattern): (r: Clock)
    requires ValidPattern(p)
    ensures r.m == DoSetPattern(c.m, p).after
    ensures c.m.session.playing ==> r.due == Duration(p, c.m.session.phase)
    ensures !c.m.session.playing ==> r.due == c.due
  {
    var m := DoSetPattern(c.m, p).after;
    if c.m.session.playing then Clock(m, m.session.phaseDuration) else Clock(m, c.due)
  }

  /** `n` seconds of wall time. */
  function Run(c: Clock, n: nat): Clock
    decreases n
  {
    if n == 0 then c else Run(Second(c), n - 1)
  }

  /** A running session with `r` seconds left counts down one per second,
      stops exactly when it reaches zero and then stays at zero. */
  lemma {:induction false} RunCountsDown(c: Clock, n: nat)
    requires c.m.session.playing && c.m.session.remaining >= 1
    ensures var r := c.m.session.remaining;
      && Run(c, n).m.session.remaining == (if n < r then r - n else 0)
      && Run(c, n).m.session.playing == (n < r)
      && Run(c, n).m.props == c.m.props
    decreases n
  {
    if n > 0 {
      var c' := Second(c);
      if c.m.session.remaining == 1 {
        StoppedStaysPut(c', n - 1);
      } else {
        RunCountsDown(c', n - 1);
      }
    }
  }

  /** A stopped session stays exactly as it is however long the clock runs:
      no phase advances after the countdown has ended or after a pause. */
  lemma {:induction false} StoppedStaysPut(c: Clock, n: nat)
    requires !c.m.session.playing
    ensures Run(c, n) == c
    decreases n
  {
    if n > 0 {
      assert Second(c) == c;
      StoppedStaysPut(c, n - 1);
    }
  }

  /** The phase shown after each of the next `n` seconds. */
  function Trace(c: Clock, n: nat): (t: seq<Phase>)
    ensures |t| == n
    decreases n
  {
    if n == 0 then [] else [Second(c).m.session.phase] + Trace(Second(c), n - 1)
  }

  /** `n` copies of one phase. */
  function Repeat(ph: Phase, n: nat): (t: seq<Phase>)
    ensures |t| == n
    ensures forall i :: 0 <= i < n ==> t[i] == ph
  {
    seq(n, _ => ph)
  }

  /** Running `a` seconds and then `b` more is running `a + b` seconds. */
  lemma {:induction false} RunSplit(c: Clock, a: nat, b: nat)
    ensures Run(c, a + b) == Run(Run(c, a), b)
    ensures Trace(c, a + b) == Trace(c, a) + Trace(Run(c, a), b)
    decreases a
  {
    if a > 0 {
      var c' := Second(c);
      RunSplit(c', a - 1, b);
      assert Run(c, a + b) == Run(c', (a - 1) + b);
      assert Trace(c, a + b) == [c'.m.session.phase] + Trace(c', (a - 1) + b);
    }
  }

  /** While the phase timer is not yet due, each second only takes one second
      off the countdown and off the timer, and the phase stays. */
  lemma {:induction false} Waiting(c: Clock, k: nat)
    requires c.m.session.playing
    requires k < c.due && k < c.m.session.remaining
    ensures Run(c, k) == Clock(c.m.(session := c.m.session.(remaining := c.m.session.remaining - k)), c.due - k)
    ensures Trace(c, k) == Repeat(c.m.session.phase, k)
    decreases k
  {
    if k > 0 {
      var c' := Second(c);
      assert c' == Clock(c.m.(session := c.m.session.(remaining := c.m.session.remaining - 1)), c.due - 1);
      Waiting(c', k - 1);
      assert Trace(c, k) == [c.m.session.phase] + Repeat(c.m.session.phase, k - 1);
    }
  }

  /** One phase of a running session: with the timer due in `d` seconds and
      more than `d` seconds left, the current phase shows for `d - 1` more
      seconds, then the successor appears with its own full duration armed. */
  lemma Segment(c: Clock)
    requires c.m.session.playing && Inv(c.m)
    requires 1 <= c.due < c.m.session.remaining
    ensures var p := c.m.props.pattern;
      var next := Next(p, c.m.session.phase);
      && Run(c, c.due).m.session.phase == next
      && Run(c, c.due).due == Duration(p, next)
      && Run(c, c.due).m == c.m.(session := Session(next, Label(next), Duration(p, next), c.m.session.remaining - c.due, true))
      && Trace(c, c.due) == Repeat(c.m.session.phase, c.due - 1) + [next]
  {
    var d := c.due;
    Waiting(c, d - 1);
    RunSplit(c, d - 1, 1);
    var w := Run(c, d - 1);
    assert Run(w, 1) == Second(w);
    assert Trace(w, 1) == [Second(w).m.session.phase];
  }

  /** After a pattern change in a running session, the current phase lasts
      its duration under the new pattern, counted from the change, and then
      the new pattern's successor appears with its own duration armed. */
  lemma RepatternRearms(c: Clock, p: Pattern)
    requires Inv(c.m) && ValidPattern(p) && c.m.session.playing
    requires 1 <= Duration(p, c.m.session.phase) < c.m.session.remaining
    ensures var r := Repattern(c, p);
      var d := Duration(p, c.m.session.phase);
      var next := Next(p, c.m.session.phase);
      && r.due == d
      && Run(r, d).m.session.phase == next
      && Run(r, d).due == Duration(p, next)
      && Trace(r, d) == Repeat(c.m.session.phase, d - 1) + [next]
  {
    Segment(Repattern(c, p));
  }

  /** Switching a running box-breathing session to 4-7-8 during the first
      hold: the hold now lasts seven seconds from the switch, then exhale
      follows with eight seconds armed. */
  lemma BoxToFourSevenEight(c: Clock)
    requires Inv(c.m) && c.m.props.pattern == BoxBreathing
    requires c.m.session.playing && c.m.session.phase == Hold1 && c.m.session.remaining > 7
    ensures var r := Repattern(c, FourSevenEight);
      && r.due == 7
      && Run(r, 7).m.session.phase == Exhale
      && Run(r, 7).due == 8
      && Trace(r, 7) == Repeat(Hold1, 6) + [Exhale]
  {
    RepatternRearms(c, FourSevenEight);
  }

  /** A freshly loaded page with the given pattern and a one-minute session,
      after pressing play. */
  function Started(p: Pattern): Clock
    requires ValidPattern(p)
  {
    Play(Clock(Init(Props(p, 1, true, "ocean", 80)), 0))
  }

  /** A running box-breathing clock in phase `ph` with `left` seconds left,
      the phase timer freshly armed for four seconds. */
  predicate BoxAt(c: Clock, ph: Phase, left: int)
  {
    && c.m.props.pattern == BoxBreathing && ValidProps(c.m.props)
    && c.m.session.playing && Consistent(BoxBreathing, c.m.session)
    && c.m.session.phase == ph && c.due == 4 && c.m.session.remaining == left
  }

  /** One four-second phase of box breathing: the phase shows for three more
      seconds, then its successor appears with four seconds armed. */
  lemma BoxSegment(c: Clock, ph: Phase, left: int)
    requires BoxAt(c, ph, left) && left > 4
    ensures BoxAt(Run(c, 4), Next(BoxBreathing, ph), left - 4)
    ensures Run(c, 4).m.props == c.m.props
    ensures Trace(c, 4) == [ph, ph, ph, Next(BoxBreathing, ph)]
  {
    Segment(c);
    assert Repeat(ph, 3) == [ph, ph, ph];
  }

  /** Two four-second phases of box breathing. */
  lemma BoxHalf(c: Clock, ph: Phase, left: int)
    requires BoxAt(c, ph, left) && left > 8
    ensures var ph' := Next(BoxBreathing, ph);
      && BoxAt(Run(c, 8), Next(BoxBreathing, ph'), left - 8)
      && Trace(c, 8) == [ph, ph, ph, ph', ph', ph', ph', Next(BoxBreathing, ph')]
  {
    BoxSegment(c, ph, left);
    BoxSegment(Run(c, 4), Next(BoxBreathing, ph), left - 4);
    RunSplit(c, 4, 4);
  }

  /** A whole box-breathing cycle from an inhale with its timer freshly
      armed: four seconds each of inhale, hold, exhale and hold, then inhale. */
  lemma BoxCycle(c: Clock, left: int)
    requires BoxAt(c, Inhale, left) && left > 16
    ensures Trace(c, 16) ==
      [Inhale, Inhale, Inhale, Hold1, Hold1, Hold1, Hold1, Exhale] +
      [Exhale, Exhale, Exhale, Hold2, Hold2, Hold2, Hold2, Inhale]
    ensures BoxAt(Run(c, 16), Inhale, left - 16)
  {
    BoxHalves(c, left);
    RunSplit(c, 8, 8);
  }

  /** The two halves of a box-breathing cycle. */
  lemma BoxHalves(c: Clock, left: int)
    requires BoxAt(c, Inhale, left) && left > 16
    ensures Trace(c, 8) == [Inhale, Inhale, Inhale, Hold1, Hold1, Hold1, Hold1, Exhale]
    ensures Trace(Run(c, 8), 8) == [Exhale, Exhale, Exhale, Hold2, Hold2, Hold2, Hold2, Inhale]
    ensures BoxAt(Run(Run(c, 8), 8), Inhale, left - 16)
  {
    assert Next(BoxBreathing, Inhale) == Hold1 && Next(BoxBreathing, Hold1) == Exhale;
    assert Next(BoxBreathing, Exhale) == Hold2 && Next(BoxBreathing, Hold2) == Inhale;
    BoxHalf(c, Inhale, left);
    BoxHalf(Run(c, 8), Exhale, left - 8);
  }

  /** Box breathing walks inhale, hold, exhale, hold for four seconds each and
      is back at inhale after 16 seconds, with 44 of the 60 seconds left. */
  lemma BoxBreathingCycle(c0: Clock)
    requires c0 == Started(BoxBreathing)
    ensures Trace(c0, 16) ==
      [Inhale, Inhale, Inhale, Hold1, Hold1, Hold1, Hold1, Exhale] +
      [Exhale, Exhale, Exhale, Hold2, Hold2, Hold2, Hold2, Inhale]
    ensures Run(c0, 16).m.session.phase == Inhale
    ensures Run(c0, 16).m.session.remaining == 44
  {
    assert BoxAt(c0, Inhale, 60);
    BoxCycle(c0, 60);
  }

  /** The 4-7-8 pattern in a one-minute session: hold after 4 seconds with 56
      left, exhale after 11 with 49 left, inhale again after 19 with 41 left
      (the zero second hold is skipped). */
  lemma FourSevenEightScenario(c0: Clock)
    requires c0 == Started(FourSevenEight)
    ensures Run(c0, 4).m.session.phase == Hold1
    ensures Run(c0, 4).m.session.remaining == 56
    ensures Run(c0, 11).m.session.phase == Exhale
    ensures Run(c0, 11).m.session.remaining == 49
    ensures Run(c0, 19).m.session.phase == Inhale
    ensures Run(c0, 19).m.session.remaining == 41
  {
    Segment(c0);
    var c1 := Run(c0, 4);
    Segment(c1);
    var c2 := Run(c1, 7);
    Segment(c2);
    RunSplit(c0, 4, 7);
    RunSplit(c0, 11, 8);
  }

  /** A running energizing-breath clock in phase `ph` with `left` seconds
      left, the phase timer freshly armed for two seconds. */
  predicate EnergizingAt(c: Clock, ph: Phase, left: int)
  {
    && c.m.props.pattern == Energizing && ValidProps(c.m.props)
    && c.m.session.playing && Consistent(Energizing, c.m.session)
    && c.m.session.phase == ph && c.due == 2 && c.m.session.remaining == left
  }

  /** One two-second phase of energizing breath: inhale hands over to exhale
      and exhale to inhale, with two seconds armed. */
  lemma EnergizingSegment(c: Clock, ph: Phase, left: int)
    requires EnergizingAt(c, ph, left) && left > 2
    requires ph == Inhale || ph == Exhale
    ensures var ph' := if ph == Inhale then Exhale else Inhale;
      && EnergizingAt(Run(c, 2), ph', left - 2)
      && Trace(c, 2) == [ph, ph']
  {
    Segment(c);
    assert Repeat(ph, 1) == [ph];
  }

  /** Energizing breath has no holds: over its first eight seconds it
      alternates inhale and exhale, two seconds each. */
  lemma EnergizingAlternates(c0: Clock)
    requires c0 == Started(Energizing)
    ensures Trace(c0, 8) ==
      [Inhale, Exhale, Exhale, Inhale, Inhale, Exhale, Exhale, Inhale]
  {
    assert EnergizingAt(c0, Inhale, 60);
    EnergizingSegment(c0, Inhale, 60);
    var c1 := Run(c0, 2);
    EnergizingSegment(c1, Exhale, 58);
    var c2 := Run(c1, 2);
    EnergizingSegment(c2, Inhale, 56);
    var c3 := Run(c2, 2);
    EnergizingSegment(c3, Exhale, 54);
    RunSplit(c0, 2, 2);
    RunSplit(c0, 4, 2);
    RunSplit(c0, 6, 2);
  }
}
