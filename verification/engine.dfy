/** The breathing phase-timing engine of client/src/hooks/useBreathingExercise.ts,
    as a pure event-driven machine.

    The hook's React state `{phase, phaseLabel, phaseDuration, timeRemaining,
    isPlaying}` is a `Session`; its props are `Props`.  The browser's
    `setInterval` (the one-second session countdown) and `setTimeout` (the
    phase timer) are replaced by the events `Tick` and `PhaseTimerFired`, and
    every call into the audio manager becomes a `Cmd` token in the returned
    log. */
module Engine {
  import opened Patterns
  import opened Wrappers

  /** Calls the engine makes into the audio manager. `StopCues` is
      `stopAllAudio`, `PlayCue` is `playAudio`. */
  datatype Cmd =
    | PlayCue(phase: Phase, volume: int)
    | StopCues
    | PlayBackground(sound: string, volume: int)
    | StopBackground

  /** The hook's inputs, supplied by the page. */
  datatype Props = Props(
    pattern: Pattern,
    sessionMinutes: int,
    audioEnabled: bool,
    sound: string,
    volume: int)

  /** The hook's own state. */
  datatype Session = Session(
    phase: Phase,
    phaseLabel: string,
    phaseDuration: int,
    remaining: int,
    playing: bool)

  datatype Machine = Machine(props: Props, session: Session)

  /** What one event does: the machine afterwards and the audio commands
      emitted, in order. */
  datatype Transition = Transition(after: Machine, cmds: seq<Cmd>)

  datatype Event =
    | Tick
    | PhaseTimerFired
    | Start
    | Pause
    | Reset
    | Toggle
    | SetDuration(minutes: int)
    | SetPattern(pattern: Pattern)
    | SetAudioEnabled(enabled: bool)
    | SetSound(sound: string)
    | SetVolume(volume: int)

  /** The background id meaning "no background track". */
  const NoSound: string := "none"

  /** The label shown for a phase: both holds read "Hold", and the label
      otherwise tells the phases apart. */
  function Label(ph: Phase): (r: string)
    ensures r == "Hold" <==> ph == Hold1 || ph == Hold2
    ensures r == "Inhale" <==> ph == Inhale
    ensures r == "Exhale" <==> ph == Exhale
  {
    match ph
    case Inhale => "Inhale"
    case Hold1 => "Hold"
    case Exhale => "Exhale"
    case Hold2 => "Hold"
  }

  /** The position of a phase in the order inhale, hold1, exhale, hold2. */
  function Rank(ph: Phase): nat
  {
    match ph
    case Inhale => 0
    case Hold1 => 1
    case Exhale => 2
    case Hold2 => 3
  }

  /** The phase at a position of that order. */
  function AtRank(i: nat): Phase
    requires i < 4
  {
    if i == 0 then Inhale else if i == 1 then Hold1 else if i == 2 then Exhale else Hold2
  }

  predicate IsHold(ph: Phase)
  {
    ph == Hold1 || ph == Hold2
  }

  /** The successor of a phase; a hold whose duration is zero is skipped,
      so it never stays put and never lands on a skipped hold. */
  function Next(p: Pattern, ph: Phase): (r: Phase)
    ensures r != ph
    ensures IsHold(r) ==> Duration(p, r) > 0
  {
    match ph
    case Inhale => if p.hold1 > 0 then Hold1 else Exhale
    case Hold1 => Exhale
    case Exhale => if p.hold2 > 0 then Hold2 else Inhale
    case Hold2 => Inhale
  }

  /** The successor is the following phase of the order inhale, hold1,
      exhale, hold2 (wrapping round), or the one after that when the
      following phase is a hold without positive duration. */
  lemma NextByRank(p: Pattern, ph: Phase)
    ensures var following := AtRank((Rank(ph) + 1) % 4);
      Next(p, ph) == if IsHold(following) && Duration(p, following) <= 0 then AtRank((Rank(ph) + 2) % 4) else following
  {
  }

  /** Reference definition of the cycle: the phases of positive duration, in
      canonical order, starting from inhale. */
  function Active(p: Pattern): (cycle: seq<Phase>)
    ensures 2 <= |cycle| <= 4
    ensures cycle[0] == Inhale
    ensures forall i :: 0 < i < |cycle| ==> cycle[i] != Inhale
    ensures Hold1 in cycle <==> p.hold1 > 0
    ensures Hold2 in cycle <==> p.hold2 > 0
  {
    [Inhale] + (if p.hold1 > 0 then [Hold1] else []) + [Exhale] + (if p.hold2 > 0 then [Hold2] else [])
  }

  /** `n` applications of the successor. */
  function Iterate(p: Pattern, ph: Phase, n: nat): Phase
  {
    if n == 0 then ph else Next(p, Iterate(p, ph, n - 1))
  }

  /** The successor moves one place along the reference cycle, wrapping at the end. */
  lemma NextFollowsActive(p: Pattern, i: nat)
    requires i < |Active(p)|
    ensures Next(p, Active(p)[i]) == Active(p)[(i + 1) % |Active(p)|]
  {
  }

  /** From a valid pattern's point of view an advance never lands on a phase
      of zero duration. */
  lemma NextNeverZero(p: Pattern, ph: Phase)
    requires ValidPattern(p)
    ensures Duration(p, Next(p, ph)) > 0
  {
  }

  /** Iterating the successor from inhale walks the reference cycle. */
  lemma {:induction false} IterateWalksActive(p: Pattern, n: nat)
    ensures Iterate(p, Inhale, n) == Active(p)[n % |Active(p)|]
  {
    var cycle := Active(p);
    var k := |cycle|;
    if n > 0 {
      IterateWalksActive(p, n - 1);
      var j := (n - 1) % k;
      NextFollowsActive(p, j);
      assert (j + 1) % k == n % k by {
        assert n - 1 == ((n - 1) / k) * k + j;
      }
    }
  }

  /** From inhale the engine returns to inhale after 2 to 4 advances, without
      passing inhale on the way, and visits a hold iff its duration is positive. */
  lemma CycleFromInhale(p: Pattern)
    ensures 2 <= |Active(p)| <= 4
    ensures Iterate(p, Inhale, |Active(p)|) == Inhale
    ensures forall i :: 0 < i < |Active(p)| ==> Iterate(p, Inhale, i) != Inhale
    ensures p.hold1 > 0 <==> exists i :: 0 <= i < |Active(p)| && Iterate(p, Inhale, i) == Hold1
    ensures p.hold2 > 0 <==> exists i :: 0 <= i < |Active(p)| && Iterate(p, Inhale, i) == Hold2
  {
    var cycle := Active(p);
    var k := |cycle|;
    IterateFullCycle(p);
    forall i | 0 <= i < k
      ensures Iterate(p, Inhale, i) == cycle[i]
    {
      IterateInCycle(p, i);
    }
    VisitsIffInCycle(p, Hold1);
    VisitsIffInCycle(p, Hold2);
  }

  lemma VisitsIffInCycle(p: Pattern, h: Phase)
    ensures h in Active(p) <==> exists i :: 0 <= i < |Active(p)| && Iterate(p, Inhale, i) == h
  {
    var cycle := Active(p);
    if h in cycle {
      var i :| 0 <= i < |cycle| && cycle[i] == h;
      IterateInCycle(p, i);
    }
    if exists i :: 0 <= i < |cycle| && Iterate(p, Inhale, i) == h {
      var i :| 0 <= i < |cycle| && Iterate(p, Inhale, i) == h;
      IterateInCycle(p, i);
    }
  }

  lemma IterateInCycle(p: Pattern, i: nat)
    requires i < |Active(p)|
    ensures Iterate(p, Inhale, i) == Active(p)[i]
  {
    IterateWalksActive(p, i);
    assert i % |Active(p)| == i;
  }

  lemma IterateFullCycle(p: Pattern)
    ensures Iterate(p, Inhale, |Active(p)|) == Inhale
  {
    IterateWalksActive(p, |Active(p)|);
    assert |Active(p)| % |Active(p)| == 0;
  }

  /** The inputs the engine expects: a valid pattern and a non-negative length. */
  predicate ValidProps(props: Props)
  {
    ValidPattern(props.pattern) && props.sessionMinutes >= 0
  }

  /** The session agrees with the pattern: the label names the phase, the
      phase duration is the pattern's, and the countdown is not negative. */
  predicate Consistent(p: Pattern, s: Session)
  {
    && s.phaseLabel == Label(s.phase)
    && s.phaseDuration == Duration(p, s.phase)
    && s.remaining >= 0
  }

  predicate Inv(m: Machine)
  {
    ValidProps(m.props) && Consistent(m.props.pattern, m.session)
  }

  /** The hook's initial state: idle at inhale with the whole session left. */
  function Init(props: Props): (m: Machine)
    requires ValidProps(props)
    ensures Inv(m)
    ensures m.props == props
    ensures !m.session.playing && m.session.phase == Inhale
    ensures m.session.remaining == props.sessionMinutes * 60
  {
    Machine(props, Session(Inhale, "Inhale", props.pattern.inhale, props.sessionMinutes * 60, false))
  }

  /** The effect on `isPlaying` and the track (lines 211-216). It runs after
      every render in which `isPlaying` changed: it stops the background
      track and replays the selected one only when the session now runs. */
  function PlayingEffect(props: Props, playing: bool): (cmds: seq<Cmd>)
    ensures 1 <= |cmds| <= 2 && cmds[0] == StopBackground
    ensures |cmds| == 2 <==> playing && props.sound != NoSound
    ensures forall i :: 1 <= i < |cmds| ==> cmds[i] == PlayBackground(props.sound, props.volume)
  {
    [StopBackground] + (if playing && props.sound != NoSound then [PlayBackground(props.sound, props.volume)] else [])
  }

  /** The effect runs only when `isPlaying` actually changed; React skips an
      effect whose dependencies are unchanged. */
  function Settle(props: Props, wasPlaying: bool, playing: bool): seq<Cmd>
  {
    if wasPlaying == playing then [] else PlayingEffect(props, playing)
  }

  /** `pauseExercise`: stop, keep the phase and the countdown, and silence
      cues; when a running session stops, the effect on `isPlaying` also
      stops the background track. */
  function DoPause(m: Machine): (t: Transition)
    ensures !t.after.session.playing
    ensures t.after.props == m.props
    ensures t.after.session.phase == m.session.phase
    ensures t.after.session.phaseLabel == m.session.phaseLabel
    ensures t.after.session.phaseDuration == m.session.phaseDuration
    ensures t.after.session.remaining == m.session.remaining
    ensures m.session.playing ==> t.cmds == [StopCues, StopBackground]
    ensures !m.session.playing ==> t.cmds == [StopCues]
    ensures Inv(m) ==> Inv(t.after)
  {
    Transition(m.(session := m.session.(playing := false)), [StopCues] + Settle(m.props, m.session.playing, false))
  }

  /** The commands of `startExercise` itself: the background track unless it
      is "none", then the cue for the current phase when audio is on. */
  function StartCmds(props: Props, ph: Phase): (cmds: seq<Cmd>)
    ensures PlayBackground(props.sound, props.volume) in cmds <==> props.sound != NoSound
    ensures PlayCue(ph, props.volume) in cmds <==> props.audioEnabled
    ensures forall c :: c in cmds ==> c == PlayBackground(props.sound, props.volume) || c == PlayCue(ph, props.volume)
    ensures |cmds| <= 2
    ensures |cmds| == 2 ==> cmds[0].PlayBackground? && cmds[1].PlayCue?
  {
    (if props.sound != NoSound then [PlayBackground(props.sound, props.volume)] else [])
    + (if props.audioEnabled then [PlayCue(ph, props.volume)] else [])
  }

  /** `startExercise`: run from the current phase with the current countdown.
      Starting a stopped session also runs the effect on `isPlaying`, which
      stops the background track and replays the selected one. */
  function DoStart(m: Machine): (t: Transition)
    ensures t.after.session.playing
    ensures t.after.props == m.props
    ensures t.after.session == m.session.(playing := true)
    ensures m.session.playing ==> t.cmds == StartCmds(m.props, m.session.phase)
    ensures !m.session.playing ==> t.cmds == StartCmds(m.props, m.session.phase) + PlayingEffect(m.props, true)
    ensures Inv(m) ==> Inv(t.after)
  {
    Transition(
      m.(session := m.session.(playing := true)),
      StartCmds(m.props, m.session.phase) + Settle(m.props, m.session.playing, true))
  }

  /** `resetExercise`: stop and go back to the first inhale with the whole
      session left; it does not restart. */
  function DoReset(m: Machine): (t: Transition)
    ensures ValidProps(m.props) ==> Inv(t.after) && t.after == Init(m.props)
    ensures !t.after.session.playing && t.after.session.phase == Inhale
    ensures t.after.session.remaining == m.props.sessionMinutes * 60
    ensures t.after.session.phaseDuration == m.props.pattern.inhale
    ensures t.cmds == DoPause(m).cmds
  {
    var paused := DoPause(m);
    var p := m.props.pattern;
    Transition(
      paused.after.(session := Session(Inhale, "Inhale", p.inhale, m.props.sessionMinutes * 60, false)),
      paused.cmds)
  }

  /** One firing of the session interval: at one second or less the session
      stops at zero, otherwise one second is taken off. Without a running
      session no interval is armed and nothing happens. */
  function DoTick(m: Machine): (t: Transition)
    ensures !m.session.playing ==> t == Transition(m, [])
    ensures m.session.playing && m.session.remaining <= 1 ==>
      && t.after.session.remaining == 0
      && !t.after.session.playing
      && t.cmds == [StopCues, StopBackground]
    ensures m.session.playing && m.session.remaining > 1 ==>
      && t.after.session.remaining == m.session.remaining - 1
      && t.after.session.playing
      && t.cmds == []
    ensures m.session.playing ==> t.after.session.remaining >= 0
    ensures t.after.props == m.props
    ensures t.after.session.phase == m.session.phase
    ensures t.after.session.phaseDuration == m.session.phaseDuration
    ensures Inv(m) ==> Inv(t.after)
  {
    if !m.session.playing then
      Transition(m, [])
    else if m.session.remaining <= 1 then
      var paused := DoPause(m);
      Transition(paused.after.(session := paused.after.session.(remaining := 0)), paused.cmds)
    else
      Transition(m.(session := m.session.(remaining := m.session.remaining - 1)), [])
  }

  /** `moveToNextPhase`: while running, advance to the successor phase, take
      its label and duration, and cue it when audio is on; while stopped, do
      nothing. */
  function DoAdvance(m: Machine): (t: Transition)
    ensures !m.session.playing ==> t == Transition(m, [])
    ensures m.session.playing ==>
      var p := m.props.pattern;
      var next := t.after.session.phase;
      && next == Next(p, m.session.phase)
      && t.after.session.phaseDuration == Duration(p, next)
      && t.after.session.phaseLabel == (if next == Hold1 || next == Hold2 then "Hold" else if next == Inhale then "Inhale" else "Exhale")
      && t.after.session.remaining == m.session.remaining
      && t.after.session.playing
      && (t.cmds == [PlayCue(next, m.props.volume)] <==> m.props.audioEnabled)
      && (t.cmds == [] <==> !m.props.audioEnabled)
    ensures t.after.props == m.props
    ensures ValidPattern(m.props.pattern) && m.session.playing ==> t.after.session.phaseDuration > 0
    ensures Inv(m) ==> Inv(t.after)
  {
    if !m.session.playing then
      Transition(m, [])
    else
      var p := m.props.pattern;
      var next := Next(p, m.session.phase);
      Transition(
        m.(session := m.session.(phase := next, phaseLabel := Label(next), phaseDuration := Duration(p, next))),
        if m.props.audioEnabled then [PlayCue(next, m.props.volume)] else [])
  }

  /** `togglePlayPause`: a running session is paused and its background track
      stopped (once by the toggle, once more by the effect on `isPlaying`); a
      stopped one is started. */
  function DoToggle(m: Machine): (t: Transition)
    ensures m.session.playing ==>
      && !t.after.session.playing
      && t.cmds == [StopCues, StopBackground, StopBackground]
    ensures !m.session.playing ==>
      && t.after.session.playing
      && t.cmds == StartCmds(m.props, m.session.phase) + PlayingEffect(m.props, true)
    ensures t.after.props == m.props
    ensures t.after.session.phase == m.session.phase
    ensures t.after.session.remaining == m.session.remaining
    ensures Inv(m) ==> Inv(t.after)
  {
    if m.session.playing then
      var stopped := m.(session := m.session.(playing := false));
      Transition(stopped, [StopCues, StopBackground] + Settle(m.props, true, false))
    else
      DoStart(m)
  }

  /** A new session length resets the countdown to the whole new session, at
      once and whether or not the session is running. The same length again
      changes nothing: the effect does not run for an unchanged value. */
  function DoSetDuration(m: Machine, minutes: int): (t: Transition)
    ensures minutes == m.props.sessionMinutes ==> t == Transition(m, [])
    ensures minutes != m.props.sessionMinutes ==>
      && t.after.session.remaining == minutes * 60
      && t.after.session == m.session.(remaining := minutes * 60)
    ensures t.after.props == m.props.(sessionMinutes := minutes)
    ensures t.cmds == []
    ensures Inv(m) && minutes >= 0 ==> Inv(t.after)
  {
    if minutes == m.props.sessionMinutes then
      Transition(m, [])
    else
      var props := m.props.(sessionMinutes := minutes);
      Transition(Machine(props, m.session.(remaining := minutes * 60)), [])
  }

  /** A new pattern takes effect in the current phase: the phase and the
      countdown stay, the phase duration becomes the new pattern's, and a
      running session is restarted (`pauseExercise`, then `startExercise`) on
      the new timings. `isPlaying` ends where it began, so the effect on it
      does not run. */
  function DoSetPattern(m: Machine, p: Pattern): (t: Transition)
    requires ValidPattern(p)
    ensures t.after.props == m.props.(pattern := p)
    ensures t.after.session.phase == m.session.phase
    ensures t.after.session.phaseLabel == m.session.phaseLabel
    ensures t.after.session.phaseDuration == Duration(p, m.session.phase)
    ensures t.after.session.remaining == m.session.remaining
    ensures t.after.session.playing == m.session.playing
    ensures m.session.playing ==> t.cmds == [StopCues] + StartCmds(m.props, m.session.phase)
    ensures !m.session.playing ==> t.cmds == []
    ensures Inv(m) ==> Inv(t.after)
  {
    var synced := Machine(m.props.(pattern := p), m.session.(phaseDuration := Duration(p, m.session.phase)));
    if m.session.playing then
      Transition(synced, [StopCues] + StartCmds(synced.props, m.session.phase))
    else
      Transition(synced, [])
  }

  /** Turning audio off silences cues without touching the session; the
      effect runs only when the flag actually changes. */
  function DoSetAudioEnabled(m: Machine, enabled: bool): (t: Transition)
    ensures t.after == m.(props := m.props.(audioEnabled := enabled))
    ensures t.cmds == (if m.props.audioEnabled && !enabled then [StopCues] else [])
    ensures enabled == m.props.audioEnabled ==> t == Transition(m, [])
    ensures Inv(m) ==> Inv(t.after)
  {
    if enabled == m.props.audioEnabled then
      Transition(m, [])
    else
      Transition(m.(props := m.props.(audioEnabled := enabled)), if enabled then [] else [StopCues])
  }

  /** The background effects that run when the track or the volume changes:
      the volume effect replays a selected track, then the effect on the
      track and `isPlaying` stops it and replays it only while running. */
  function BackgroundResync(props: Props, playing: bool): (cmds: seq<Cmd>)
    ensures StopBackground in cmds
    ensures StopCues !in cmds
    ensures forall c :: c in cmds && c.PlayBackground? ==> c == PlayBackground(props.sound, props.volume)
  {
    var replay := if props.sound != NoSound then [PlayBackground(props.sound, props.volume)] else [];
    replay + PlayingEffect(props, playing)
  }

  /** A change of background track or volume: the settings are updated, the
      session is untouched, and the background is resynchronised. Setting
      the same track and volume again changes nothing. */
  function DoSetBackground(m: Machine, sound: string, volume: int): (t: Transition)
    ensures t.after == m.(props := m.props.(sound := sound, volume := volume))
    ensures sound == m.props.sound && volume == m.props.volume ==> t == Transition(m, [])
    ensures sound != m.props.sound || volume != m.props.volume ==>
      t.cmds == BackgroundResync(t.after.props, m.session.playing)
    ensures Inv(m) ==> Inv(t.after)
  {
    if sound == m.props.sound && volume == m.props.volume then
      Transition(m, [])
    else
      var props := m.props.(sound := sound, volume := volume);
      Transition(m.(props := props), BackgroundResync(props, m.session.playing))
  }

  /** Events the engine accepts: a new pattern must be valid and a new
      session length non-negative. */
  predicate EventOk(e: Event)
  {
    match e
    case SetPattern(p) => ValidPattern(p)
    case SetDuration(minutes) => minutes >= 0
    case _ => true
  }

  /** One event. Every accepted event preserves the invariant. */
  function Step(m: Machine, e: Event): (t: Transition)
    requires EventOk(e)
    ensures Inv(m) ==> Inv(t.after)
  {
    match e
    case Tick => DoTick(m)
    case PhaseTimerFired => DoAdvance(m)
    case Start => DoStart(m)
    case Pause => DoPause(m)
    case Reset => DoReset(m)
    case Toggle => DoToggle(m)
    case SetDuration(minutes) => DoSetDuration(m, minutes)
    case SetPattern(p) => DoSetPattern(m, p)
    case SetAudioEnabled(enabled) => DoSetAudioEnabled(m, enabled)
    case SetSound(sound) => DoSetBackground(m, sound, m.props.volume)
    case SetVolume(volume) => DoSetBackground(m, m.props.sound, volume)
  }

  /** The background slot of the audio manager after a command log: starting
      a track replaces the previous one ("none" leaves the slot empty), and a
      stop empties it; cue commands leave it alone. */
  function Background(bg: Option<string>, cmds: seq<Cmd>): Option<string>
    decreases |cmds|
  {
    if cmds == [] then bg
    else
      var last := cmds[|cmds| - 1];
      var before := Background(bg, cmds[..|cmds| - 1]);
      match last
      case PlayBackground(sound, _) => if sound == NoSound then None else Some(sound)
      case StopBackground => None
      case _ => before
  }

  /** Playing a log in two parts is playing it whole. */
  lemma {:induction false} BackgroundAppend(bg: Option<string>, xs: seq<Cmd>, ys: seq<Cmd>)
    ensures Background(bg, xs + ys) == Background(Background(bg, xs), ys)
    decreases |ys|
  {
    if ys == [] {
      assert xs + ys == xs;
    } else {
      BackgroundAppend(bg, xs, ys[..|ys| - 1]);
      assert (xs + ys)[..|xs + ys| - 1] == xs + ys[..|ys| - 1];
    }
  }

  /** A log without background commands leaves the background alone. */
  lemma {:induction false} BackgroundUntouched(bg: Option<string>, cmds: seq<Cmd>)
    requires forall c :: c in cmds ==> !c.PlayBackground? && c != StopBackground
    ensures Background(bg, cmds) == bg
    decreases |cmds|
  {
    if cmds != [] {
      assert cmds[|cmds| - 1] in cmds;
      BackgroundUntouched(bg, cmds[..|cmds| - 1]);
    }
  }

  /** A log whose last command is a background command leaves the slot as
      that command says, whatever came before. */
  lemma LastBackground(bg: Option<string>, xs: seq<Cmd>, c: Cmd)
    requires c.PlayBackground? || c == StopBackground
    ensures Background(bg, xs + [c]) ==
      if c.PlayBackground? && c.sound != NoSound then Some(c.sound) else None
  {
    assert (xs + [c])[..|xs + [c]| - 1] == xs;
  }

  /** What the background slot should hold for a machine: the selected track
      while the session runs, nothing otherwise. */
  function Audible(m: Machine): Option<string>
  {
    if m.session.playing && m.props.sound != NoSound then Some(m.props.sound) else None
  }

  /** Starting a stopped session leaves exactly the selected track playing,
      or nothing with "none", whatever played before; starting a running one
      again replays the selected track. */
  lemma StartBackground(m: Machine, bg: Option<string>)
    ensures !m.session.playing ==> Background(bg, DoStart(m).cmds) == Audible(DoStart(m).after)
    ensures m.session.playing ==> (Background(bg, DoStart(m).cmds) ==
      if m.props.sound != NoSound then Some(m.props.sound) else bg)
  {
    if !m.session.playing {
      var effect := PlayingEffect(m.props, true);
      var head := StartCmds(m.props, m.session.phase) + effect[..|effect| - 1];
      assert DoStart(m).cmds == head + [effect[|effect| - 1]];
      LastBackground(bg, head, effect[|effect| - 1]);
    } else {
      assert DoStart(m).cmds == StartCmds(m.props, m.session.phase);
      StartCmdsBackground(m.props, m.session.phase, bg);
    }
  }

  /** The commands of `startExercise` alone put the selected track in the
      slot, and leave the slot alone with "none". */
  lemma StartCmdsBackground(props: Props, ph: Phase, bg: Option<string>)
    ensures Background(bg, StartCmds(props, ph)) ==
      if props.sound != NoSound then Some(props.sound) else bg
  {
    var cueCmds := if props.audioEnabled then [PlayCue(ph, props.volume)] else [];
    if props.sound != NoSound {
      var play := PlayBackground(props.sound, props.volume);
      assert StartCmds(props, ph) == [play] + cueCmds;
      LastBackground(bg, [], play);
      assert [] + [play] == [play];
      BackgroundAppend(bg, [play], cueCmds);
      BackgroundUntouched(Some(props.sound), cueCmds);
    } else {
      assert StartCmds(props, ph) == cueCmds;
      BackgroundUntouched(bg, cueCmds);
    }
  }

  /** Every event that stops a running session (a pause, a reset, the toggle
      or the last tick of the countdown) leaves no background track, whatever
      played before. */
  lemma PauseBackground(m: Machine, e: Event, bg: Option<string>)
    requires EventOk(e)
    requires m.session.playing && !Step(m, e).after.session.playing
    ensures Background(bg, Step(m, e).cmds) == None
  {
    var t := Step(m, e);
    match e
    case Tick =>
      LastBackground(bg, [StopCues], StopBackground);
    case Pause =>
      LastBackground(bg, [StopCues], StopBackground);
    case Reset =>
      LastBackground(bg, [StopCues], StopBackground);
    case Toggle =>
      LastBackground(bg, [StopCues, StopBackground], StopBackground);
    case _ =>
  }

  /** After a change of track or volume, the selected track plays exactly
      when the session is running and the track is not "none". */
  lemma ResyncBackground(props: Props, playing: bool, bg: Option<string>)
    ensures Background(bg, BackgroundResync(props, playing)) ==
      if playing && props.sound != NoSound then Some(props.sound) else None
  {
    var cmds := BackgroundResync(props, playing);
    LastBackground(bg, cmds[..|cmds| - 1], cmds[|cmds| - 1]);
    assert cmds == cmds[..|cmds| - 1] + [cmds[|cmds| - 1]];
  }

  /** The background slot follows the session: if it held the selected track
      exactly while running before an event, it does so after the event too. */
  lemma BackgroundFollowsSession(m: Machine, e: Event, bg: Option<string>)
    requires EventOk(e)
    requires bg == Audible(m)
    ensures Background(bg, Step(m, e).cmds) == Audible(Step(m, e).after)
  {
    if m.session.playing && !Step(m, e).after.session.playing {
      PauseBackground(m, e, bg);
    } else {
      match e
      case Start => StartBackground(m, bg);
      case Toggle => StartBackground(m, bg);
      case SetPattern(p) => RestartBackground(m, p, bg);
      case SetSound(sound) => ChangeBackground(m, sound, m.props.volume, bg);
      case SetVolume(volume) => ChangeBackground(m, m.props.sound, volume, bg);
      case Tick => BackgroundUntouched(bg, DoTick(m).cmds);
      case PhaseTimerFired => BackgroundUntouched(bg, DoAdvance(m).cmds);
      case Pause => BackgroundUntouched(bg, DoPause(m).cmds);
      case Reset => BackgroundUntouched(bg, DoReset(m).cmds);
      case SetDuration(minutes) => BackgroundUntouched(bg, DoSetDuration(m, minutes).cmds);
      case SetAudioEnabled(enabled) => BackgroundUntouched(bg, DoSetAudioEnabled(m, enabled).cmds);
    }
  }

  /** The restart on a new pattern keeps the background slot in step. */
  lemma RestartBackground(m: Machine, p: Pattern, bg: Option<string>)
    requires ValidPattern(p)
    requires bg == Audible(m)
    ensures Background(bg, DoSetPattern(m, p).cmds) == Audible(DoSetPattern(m, p).after)
  {
    if m.session.playing {
      var starts := StartCmds(m.props, m.session.phase);
      StartBackground(m, bg);
      assert DoStart(m).cmds == starts;
      BackgroundAppend(bg, [StopCues], starts);
      BackgroundUntouched(bg, [StopCues]);
    }
  }

  /** A change of track or volume keeps the background slot in step. */
  lemma ChangeBackground(m: Machine, sound: string, volume: int, bg: Option<string>)
    requires bg == Audible(m)
    ensures Background(bg, DoSetBackground(m, sound, volume).cmds) == Audible(DoSetBackground(m, sound, volume).after)
  {
    var t := DoSetBackground(m, sound, volume);
    if sound != m.props.sound || volume != m.props.volume {
      ResyncBackground(t.after.props, m.session.playing, bg);
    }
  }

  /** A second pause changes nothing and emits only another cue stop. */
  lemma PauseIdempotent(m: Machine)
    ensures DoPause(DoPause(m).after).after == DoPause(m).after
    ensures DoPause(DoPause(m).after).cmds == [StopCues]
  {
  }

  /** Toggling a stopped session twice stops it again where it was; the
      second toggle stops the cues and the background track and leaves no
      track playing. */
  lemma ToggleTwiceRestores(m: Machine, bg: Option<string>)
    requires !m.session.playing
    ensures DoToggle(DoToggle(m).after).after == m
    ensures DoToggle(DoToggle(m).after).cmds == [StopCues, StopBackground, StopBackground]
    ensures Background(bg, DoToggle(m).cmds + DoToggle(DoToggle(m).after).cmds) == None
  {
    LastBackground(bg, DoToggle(m).cmds + [StopCues, StopBackground], StopBackground);
    assert DoToggle(m).cmds + [StopCues, StopBackground, StopBackground]
      == (DoToggle(m).cmds + [StopCues, StopBackground]) + [StopBackground];
  }

  /** Without holds the successor alternates inhale and exhale. */
  lemma NoHoldsAlternate(p: Pattern, n: nat)
    requires p.hold1 == 0 && p.hold2 == 0
    ensures Iterate(p, Inhale, n) == if n % 2 == 0 then Inhale else Exhale
  {
    IterateWalksActive(p, n);
  }

  /** A run of events, the commands of each appended in order. Along any run
      of accepted events the invariant holds, so the countdown is never
      negative and the phase duration always matches the pattern. */
  function Replay(m: Machine, events: seq<Event>): (t: Transition)
    requires forall i :: 0 <= i < |events| ==> EventOk(events[i])
    ensures Inv(m) ==> Inv(t.after) && t.after.session.remaining >= 0
    ensures t.after.props.pattern == m.props.pattern || exists i :: 0 <= i < |events| && events[i] == SetPattern(t.after.props.pattern)
    decreases |events|
  {
    if events == [] then Transition(m, [])
    else
      var first := Step(m, events[0]);
      var rest := Replay(first.after, events[1..]);
      assert forall i :: 0 <= i < |events[1..]| ==> events[1..][i] == events[i + 1];
      Transition(rest.after, first.cmds + rest.cmds)
  }

  /** Along any run of accepted events from a page whose background slot
      matches the session (initially: stopped, nothing playing), the slot
      holds the selected track exactly while the session runs. */
  lemma {:induction false} ReplayBackground(m: Machine, events: seq<Event>, bg: Option<string>)
    requires forall i :: 0 <= i < |events| ==> EventOk(events[i])
    requires bg == Audible(m)
    ensures Background(bg, Replay(m, events).cmds) == Audible(Replay(m, events).after)
    decreases |events|
  {
    if events != [] {
      var first := Step(m, events[0]);
      assert forall i :: 0 <= i < |events[1..]| ==> events[1..][i] == events[i + 1];
      BackgroundFollowsSession(m, events[0], bg);
      var mid := Background(bg, first.cmds);
      ReplayBackground(first.after, events[1..], mid);
      BackgroundAppend(bg, first.cmds, Replay(first.after, events[1..]).cmds);
    }
  }

  /** Switching a running session to a pattern that skips the current phase
      leaves the engine in that phase (a hold) with a zero duration until
      the phase timer fires; the advance then lands on a phase of positive
      duration. */
  lemma SwitchIntoSkippedHold(m: Machine, p: Pattern)
    requires Inv(m) && m.session.playing
    requires ValidPattern(p) && Duration(p, m.session.phase) == 0
    ensures var t := DoSetPattern(m, p);
      && IsHold(t.after.session.phase)
      && t.after.session.phase == m.session.phase
      && t.after.session.phaseDuration == 0
      && DoAdvance(t.after).after.session.phase == Next(p, m.session.phase)
      && DoAdvance(t.after).after.session.phaseDuration > 0
  {
  }

  /** The instance of `SwitchIntoSkippedHold` the default table offers:
      energizing breath chosen during the first hold of a running session. */
  lemma SwitchToEnergizingInHold(m: Machine)
    requires Inv(m) && m.session.phase == Hold1 && m.session.playing
    ensures var t := DoSetPattern(m, Energizing);
      && t.after.session.phase == Hold1
      && t.after.session.phaseDuration == 0
      && DoAdvance(t.after).after.session.phase == Exhale
      && DoAdvance(t.after).after.session.phaseDuration == 2
  {
  }
}
