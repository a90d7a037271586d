# Breathing exercise engine — a Dafny model

This project models the core of a guided-breathing web application. At its centre is the
client-side **phase-timing engine**, the `useBreathingExercise` hook. It paces a user through
inhale / hold / exhale / hold phases, counts a session down second by second, and tells the
audio manager when to play phase cues and the background track. Around it sit four smaller
pieces:
- the table of default breathing patterns;
- the server's in-memory store (users and a seeded exercise catalog);
- the `m:ss` time formatter;
- the page logic that picks the pattern to run and holds the initial settings.

The engine is a pure, event-driven machine (`Engine`):
- **State.** The hook's React state `{phase, phaseLabel, phaseDuration, timeRemaining,
  isPlaying}` is a `Session`. The hook's inputs (pattern, session length, audio flag,
  background sound, volume) are `Props`.
- **Events.** Each one is a function returning the next machine and the log of audio
  commands it emitted (`PlayCue`, `StopCues`, `PlayBackground`, `StopBackground`). The
  browser timers become the events `Tick` (the one-second session interval) and
  `PhaseTimerFired` (the phase timeout). The user's intents are `Start`, `Pause`, `Reset`
  and `Toggle`. Prop changes are `SetDuration`, `SetPattern`, `SetAudioEnabled`, `SetSound`
  and `SetVolume`.
- **Timeline.** `Schedule` puts the two timers on a one-second clock so that whole sessions
  can be simulated.

Modules and files:

| file | module | models |
|---|---|---|
| wrappers.dfy | `Wrappers` | `Option`, for JavaScript's `T \| undefined` |
| find.dfy | `Find` | `Array.prototype.find` |
| patterns.dfy | `Patterns` | `BreathingPattern` and `defaultBreathingPatterns` |
| engine.dfy | `Engine` | the hook: successor, countdown, start/pause/reset/toggle, prop resynchronisation, audio commands |
| schedule.dfy | `Schedule` | the interval and timeout on a one-second clock, with whole-session scenarios |
| storage.dfy | `Storage` | `MemStorage` over an insertion-ordered JavaScript `Map` |
| timeformat.dfy | `TimeFormat` | `formatTime` |
| home.dfy | `Home` | `selectedPattern` resolution and the initial settings |

How the model reads the code:
- **`SetDuration`.** A new session length resets the countdown at once, even while a
  session is running: the hook's effect (useBreathingExercise.ts:32-34) has no guard. The
  same length again changes nothing, because React does not re-run an effect whose
  dependencies are unchanged. The audio flag, the track and the volume behave the same way.
- **Invalid patterns.** The code does not validate pattern durations, so the model states
  pattern validity as a precondition (`ValidPattern`) rather than an error path.
- **Background track.** The effect at lines 211-216 runs whenever `isPlaying` changes. It
  always stops the background track and replays the selected one only while running. So
  every way a running session stops (the toggle, a reset, the last tick of the countdown)
  also stops the track, and starting a stopped session replaces whatever played with the
  selected track, or with nothing for "none".

## Model

| member | source | states |
|---|---|---|
| Engine.Next | client/src/hooks/useBreathingExercise.ts:77-114 | the successor (inhale → hold1 if hold1 > 0, else exhale; hold1 → exhale; exhale → hold2 if hold2 > 0, else inhale; hold2 → inhale) never stays on the same phase and never lands on a hold without positive duration |
| Engine.NextByRank | client/src/hooks/useBreathingExercise.ts:77-114 | the successor is the following phase of inhale, hold1, exhale, hold2 (wrapping), or the one after it when the following phase is a hold without positive duration |
| Engine.Label | client/src/hooks/useBreathingExercise.ts:81-107 | both holds are labelled "Hold", inhale "Inhale" and exhale "Exhale", so the label tells every phase apart except the two holds |
| Engine.NextFollowsActive | client/src/hooks/useBreathingExercise.ts:77-114 | the successor moves one place along the cycle of positive-duration phases (inhale, hold1 if positive, exhale, hold2 if positive), wrapping at the end |
| Engine.Active | client/src/hooks/useBreathingExercise.ts:77-114 | the cycle has 2 to 4 phases, starts at inhale, and contains a hold iff that hold's duration is positive |
| Engine.NextNeverZero | client/src/hooks/useBreathingExercise.ts:77-114 | with inhale > 0 and exhale > 0, an advance never lands on a zero-duration phase |
| Engine.IterateWalksActive | client/src/hooks/useBreathingExercise.ts:77-114 | n advances from inhale reach the phase at position n mod cycle length |
| Engine.CycleFromInhale | client/src/hooks/useBreathingExercise.ts:77-114 | from inhale the engine returns to inhale after 2-4 advances, not before, and passes hold1 iff hold1 > 0 and hold2 iff hold2 > 0 |
| Engine.NoHoldsAlternate | client/src/hooks/useBreathingExercise.ts:78-103 | with both holds zero the phases alternate inhale, exhale |
| Engine.Init | client/src/hooks/useBreathingExercise.ts:22-26 | the hook starts stopped at inhale with the whole session on the countdown and a state consistent with the pattern |
| Engine.DoPause | client/src/hooks/useBreathingExercise.ts:52-56 | pause stops the session, keeps phase, label, phase duration and countdown, emits one cue stop, and a background stop when the session was running (effect at lines 211-216) |
| Engine.PauseIdempotent | client/src/hooks/useBreathingExercise.ts:52-56 | a second pause changes nothing and emits only the cue stop |
| Engine.StartCmds | client/src/hooks/useBreathingExercise.ts:133-141 | startExercise emits exactly the background track iff it is not "none", then the current phase's cue iff audio is on, in that order, and nothing else |
| Engine.DoStart | client/src/hooks/useBreathingExercise.ts:129-141 | start sets the session running without touching phase, phase duration or countdown; from a stopped session the effect on isPlaying (lines 211-216) follows the start commands |
| Engine.DoReset | client/src/hooks/useBreathingExercise.ts:58-68 | reset from any state stops at inhale with label "Inhale", the pattern's inhale duration and sessionDuration*60 seconds left, equal to the initial state, with the commands of a pause |
| Engine.DoTick | client/src/hooks/useBreathingExercise.ts:144-152 | a countdown tick at one second or less stops the session at 0 and stops cues and background, otherwise takes off exactly one second; the phase is untouched and the countdown never goes negative |
| Engine.DoAdvance | client/src/hooks/useBreathingExercise.ts:70-123 | a phase timer while stopped changes nothing and emits nothing; while running it moves to the successor with that phase's duration and label, and cues it iff audio is on |
| Engine.DoToggle | client/src/hooks/useBreathingExercise.ts:158-165 | toggle pauses and stops the background track (by the toggle and again by the effect at lines 211-216) when running, and starts when stopped |
| Engine.ToggleTwiceRestores | client/src/hooks/useBreathingExercise.ts:158-165 | toggling a stopped session twice returns it to exactly where it was, and no background track is left playing |
| Engine.DoSetDuration | client/src/hooks/useBreathingExercise.ts:31-34 | a different session length sets the countdown to minutes*60 and changes nothing else; the same length changes nothing at all |
| Engine.DoSetPattern | client/src/hooks/useBreathingExercise.ts:36-39 | a new pattern keeps the phase and countdown and takes the new pattern's duration for the current phase; through the effect at lines 189-194 it restarts a running session (cue stop, then the start commands) |
| Engine.SwitchIntoSkippedHold | client/src/hooks/useBreathingExercise.ts:36-39 | switching a running session into any valid pattern that gives the current phase zero duration leaves that hold with a zero phase duration until the next advance, which moves to the new pattern's successor with a positive duration |
| Engine.SwitchToEnergizingInHold | client/src/hooks/useBreathingExercise.ts:36-39 | switching a running session to energizing breath during the first hold leaves a zero phase duration; the next advance lands on exhale for 2 s |
| Engine.DoSetAudioEnabled | client/src/hooks/useBreathingExercise.ts:203-208 | turning audio off stops the cues and leaves the session alone; setting the flag it already has emits nothing |
| Engine.BackgroundResync | client/src/hooks/useBreathingExercise.ts:196-216 | a track or volume change always stops the background and only ever replays the selected track |
| Engine.DoSetBackground | client/src/hooks/useBreathingExercise.ts:196-216 | a track or volume change updates that setting, leaves the session alone and emits the background resynchronisation; the same track and volume change nothing |
| Engine.ResyncBackground | client/src/hooks/useBreathingExercise.ts:196-216 | after a track or volume change the selected track plays iff the session is running and the track is not "none" |
| Engine.StartBackground | client/src/hooks/useBreathingExercise.ts:129-141 | starting a stopped session leaves exactly the selected track playing, or nothing for "none", whatever played before |
| Engine.PauseBackground | client/src/hooks/useBreathingExercise.ts:211-216 | every event that stops a running session (pause, reset, toggle, last tick) leaves no background track, whatever played before |
| Engine.PlayingEffect | client/src/hooks/useBreathingExercise.ts:211-216 | the effect on isPlaying first stops the background track, then replays the selected track exactly when running and the track is not "none" |
| Engine.StartCmdsBackground | client/src/hooks/useBreathingExercise.ts:133-136 | startExercise's own commands put the selected track in the slot and leave the slot alone for "none" |
| Engine.RestartBackground | client/src/hooks/useBreathingExercise.ts:189-194 | the restart on a new pattern keeps the background slot matching the session |
| Engine.ChangeBackground | client/src/hooks/useBreathingExercise.ts:196-216 | a track or volume change keeps the background slot matching the session |
| Engine.BackgroundFollowsSession | client/src/hooks/useBreathingExercise.ts:129-216 | if the background slot holds the selected track exactly while running before an event, it does so after every accepted event |
| Engine.BackgroundAppend | client/src/lib/audioManager.ts:97-106 | the background slot after a log is the slot after its first part, replayed through its second part |
| Engine.BackgroundUntouched | client/src/lib/audioManager.ts:49-94 | a log with no background command leaves the background slot alone |
| Engine.Step | client/src/hooks/useBreathingExercise.ts:22-165 | every accepted event preserves the invariant (label matches phase, phase duration matches pattern, countdown non-negative) |
| Engine.Replay | client/src/hooks/useBreathingExercise.ts:22-165 | along any run of accepted events the invariant holds and the countdown is never negative |
| Engine.ReplayBackground | client/src/hooks/useBreathingExercise.ts:129-216 | along any run of accepted events from a stopped, silent page, the background track plays exactly while the session runs and the track is not "none" |
| Schedule.Play | client/src/hooks/useBreathingExercise.ts:129-155 | pressing play starts the engine and arms the phase timer for the current phase's duration |
| Schedule.Second | client/src/hooks/useBreathingExercise.ts:144-155 | one second ticks the countdown; while still running, a due phase timer fires (successor phase) and is re-armed for the successor's duration, otherwise the phase stays and the timer shrinks by one; a stopped session is left as it is |
| Schedule.RunCountsDown | client/src/hooks/useBreathingExercise.ts:144-152 | a running session with r seconds left has max(r-n, 0) left after n seconds and is running iff n < r |
| Schedule.StoppedStaysPut | client/src/hooks/useBreathingExercise.ts:144-152 | once stopped (countdown ended or paused) no further phase transitions or ticks happen |
| Schedule.RunSplit | client/src/hooks/useBreathingExercise.ts:144-155 | running a + b seconds is running a seconds then b seconds, and the phase traces concatenate |
| Schedule.Waiting | client/src/hooks/useBreathingExercise.ts:144-155 | before the phase timer is due each second only shortens countdown and timer, and the phase stays |
| Schedule.Segment | client/src/hooks/useBreathingExercise.ts:116-126 | a phase shows for its remaining seconds, then the successor appears with its full duration armed |
| Schedule.Repattern | client/src/hooks/useBreathingExercise.ts:189-194 | a pattern change while running re-arms the phase timer for the current phase's duration under the new pattern (line 155); a stopped clock keeps its timer |
| Schedule.RepatternRearms | client/src/hooks/useBreathingExercise.ts:189-194 | after a pattern change the current phase lasts its new duration from the change, then the new pattern's successor appears with its own duration armed |
| Schedule.BoxToFourSevenEight | client/src/hooks/useBreathingExercise.ts:189-194 | switching a running box-breathing session to 4-7-8 in the first hold: the hold lasts 7 s from the switch, then exhale with 8 s armed |
| Schedule.BoxSegment | client/src/lib/breathingPatterns.ts:14-23 | each box-breathing phase shows for four seconds and hands over to its successor with four seconds armed |
| Schedule.BoxHalf | client/src/lib/breathingPatterns.ts:14-23 | two box-breathing phases take eight seconds and hand over to the phase after next |
| Schedule.BoxCycle | client/src/lib/breathingPatterns.ts:14-23 | from any freshly armed inhale, box breathing shows four seconds each of inhale, hold, exhale and hold, then inhale again |
| Schedule.BoxBreathingCycle | client/src/lib/breathingPatterns.ts:14-23 | box breathing visits inhale, hold, exhale, hold for four seconds each and is back at inhale after 16 seconds with 44 of 60 seconds left |
| Schedule.FourSevenEightScenario | client/src/lib/breathingPatterns.ts:24-33 | 4-7-8 in a one-minute session: hold at 4 s with 56 left, exhale at 11 s with 49 left, inhale at 19 s with 41 left |
| Schedule.EnergizingSegment | client/src/lib/breathingPatterns.ts:44-53 | each energizing-breath phase shows for two seconds and hands over, inhale to exhale and exhale to inhale, with two seconds armed |
| Schedule.EnergizingAlternates | client/src/lib/breathingPatterns.ts:44-53 | over the first eight seconds, energizing breath only alternates inhale and exhale, two seconds each |
| Patterns.Defaults | client/src/lib/breathingPatterns.ts:13-54 | the default table holds exactly the four ids, each entry is filed under its own id and has inhale > 0, exhale > 0 and holds >= 0 |
| Patterns.DefaultDurations | client/src/lib/breathingPatterns.ts:14-53 | the durations are box-breathing (4,4,4,4), 4-7-8 (4,7,8,0), deep-calm (6,2,7,0), energizing (2,0,2,0) |
| Find.First | client/src/pages/Home.tsx:28 | find yields the first element passing the test, or none iff no element passes |
| Storage.Get | server/storage.ts:28 | a Map get finds a value iff the key is filed, and returns exactly the value filed under it |
| Storage.Set | server/storage.ts:40 | a Map set files the value under its key, changes no other key, and appends a new key to the iteration order |
| Storage.Values | server/storage.ts:44-46 | a Map's values come out in key insertion order |
| Storage.New | server/storage.ts:18-25 | the constructor starts with no users, the id counter at 1, and the seeded catalog |
| Storage.InitializeExercises | server/storage.ts:52-107 | seeding any map files each of the four seed exercises under its own id and leaves every other key as it was |
| Storage.SeedingInOrder | server/storage.ts:52-107 | seeding an empty map files the four exercises under their ids in seed order |
| Storage.CatalogContents | server/storage.ts:52-107 | the seeded catalog lists box-breathing, 4-7-8, deep-calm, energizing in that order and finds each under its id and nothing else |
| Storage.GetUser | server/storage.ts:27-29 | getUser finds a user iff one is filed under the id, and returns exactly the stored user, which carries the id |
| Storage.GetUserByUsername | server/storage.ts:31-35 | getUserByUsername returns the earliest-inserted (smallest-id) user with that name, or none iff nobody has it |
| Storage.CreateUser | server/storage.ts:37-42 | createUser issues the counter value as id, bumps the counter by one, makes the user findable under its id, changes no other lookup and leaves the catalog alone |
| Storage.GetAllExercises | server/storage.ts:44-46 | getAllExercises returns exactly the four seed exercises in seed order |
| Storage.GetExerciseById | server/storage.ts:48-50 | getExerciseById returns the seeded exercise for a seeded id and none for any other |
| Storage.CreateAllIds | server/storage.ts:37-42 | successive creations issue consecutive ids starting from the counter |
| Storage.IssuedIds | server/storage.ts:21-38 | from a fresh store the issued ids are 1, 2, 3, ..., strictly increasing and pairwise distinct |
| Storage.DuplicateUsernames | server/storage.ts:31-42 | two users with the same name are both stored and the lookup by name returns the first |
| TimeFormat.Decimal | client/src/components/BreathingExercise.tsx:46 | the decimal rendering is a non-empty digit string without a leading zero |
| TimeFormat.DecimalRoundTrip | client/src/components/BreathingExercise.tsx:46 | reading a rendered number back gives the number |
| TimeFormat.PadStart | client/src/components/BreathingExercise.tsx:46 | padStart keeps the string as its suffix and fills up to the width with '0' |
| TimeFormat.PaddedValue | client/src/components/BreathingExercise.tsx:46 | zero-padding does not change the value of a digit string |
| TimeFormat.FormatTime | client/src/components/BreathingExercise.tsx:43-47 | the output has exactly one ':', third from the end; the seconds field is two digits below 60; the minutes field has no leading zero; and 60*minutes + seconds is the input |
| TimeFormat.FormatTimeMinutes | client/src/components/BreathingExercise.tsx:44-46 | the minutes field is exactly the decimal rendering of the whole minutes |
| TimeFormat.CanonicalDecimal | client/src/components/BreathingExercise.tsx:46 | a digit string without a leading zero is the decimal rendering of its value, so the rendering is unique |
| TimeFormat.FormatTimeRoundTrip | client/src/components/BreathingExercise.tsx:43-47 | parsing the formatted time gives back the number of seconds |
| TimeFormat.FormatTimeExamples | client/src/components/BreathingExercise.tsx:43-47 | 300 shows as "5:00" and 59 as "0:59" |
| Home.ToPattern | client/src/pages/Home.tsx:31-39 | an API exercise's id, name, description and color theme are copied and its steps become the flat durations |
| Home.SelectPattern | client/src/pages/Home.tsx:28-40 | the first API exercise with the selected id wins; otherwise the default with that id; otherwise box breathing; the result is valid when the API's exercises are |
| Home.ServerOverridesDefault | client/src/pages/Home.tsx:31-40 | an API exercise takes precedence over the default with the same id |
| Home.HookProps | client/src/pages/Home.tsx:85-93 | the engine receives the selected pattern and the page's duration, audio flag, sound and volume |
| Home.ClientMatchesServer | server/storage.ts:53-101 | the client's default table agrees field for field with the server seed, in the same order |
| Home.SameBeforeAndAfterFetch | client/src/pages/Home.tsx:28-40 | with the server's catalog or with none yet, every selected id resolves to the same pattern |
| Home.InitialPage | client/src/pages/Home.tsx:16-20 | the first screen is box breathing, stopped at inhale for 4 s with 300 s shown as "5:00", audio on at volume 80 with the ocean sound |

## Left out

- `stopAllAudio`, `playAudio` and `playBackgroundSound` (client/src/lib/audioManager.ts) are Web
  Audio plumbing with floating-point gains and frequencies. The engine's calls into them are
  command tokens. Only the background slot (a track replaces the previous one, "none" or a
  stop empties it) is interpreted, by `Engine.Background`.
- Timer handles and `clearTimers` (useBreathingExercise.ts:41-50) are not modelled. The
  interval exists exactly while the session is running, so `Tick` and `PhaseTimerFired` do
  nothing on a stopped session.
- Timer granularity: `Schedule` advances in whole seconds. A phase timer armed for zero
  seconds (possible only after `SetPattern` into a skipped hold) fires at the next second
  rather than at once.
- The re-armed phase timeout (useBreathingExercise.ts:126) schedules the closure created for
  the old phase. The page keeps going only because React re-runs the restart effect
  (lines 189-194) whenever `startExercise` changes identity. The model advances from the
  current phase, which is the behaviour those re-runs produce. The echoes of these re-runs
  are not modelled: a second cue stop, cue and background replay on each phase change and
  on each start, and, after a pattern change, a first restart that still uses the old phase
  duration before the re-run with the new one. The same restart also runs whenever the audio
  flag, the background sound or the volume changes while a session is running, because all
  three are dependencies of `startExercise` (line 156). It re-arms the phase timer for the
  full phase duration, and turning audio on also cues the current phase. The model's
  `SetAudioEnabled`, `SetSound` and `SetVolume` leave the phase timer alone and emit no cue.
  Each echo replays the same track, so the background slot is the same with or without them.
- Home.tsx:31-40 builds a fresh pattern object on every render of the page once the server's
  exercises have loaded, so any re-render of the page restarts a running session through
  the effect at lines 189-194. The model restarts only on `SetPattern`.
- The effects' first run on mount is not modelled. On mount the volume effect
  (lines 197-201) starts the selected track and the effect on `isPlaying` (lines 211-216)
  stops it at once, so the page starts silent. That is the model's starting background
  slot: nothing plays (`None == Audible(Init(..))`).
- `onReset` (line 65): the page passes a callback that does nothing, so the model emits nothing.
- `toggleFullscreen` (lines 167-177) and the unmount cleanup (lines 179-186) are DOM and
  lifecycle concerns.
- The code does not validate patterns. Pattern validity is a precondition of `Engine.DoSetPattern` and `Engine.Init`.
- TimeFormat.FormatTime: defined on natural numbers only. The engine's countdown is proven
  never negative (`Engine.Replay`), so negative inputs to `formatTime` never occur.
- Home.SelectPattern: the JavaScript object lookup `defaultBreathingPatterns[id]` also finds
  inherited properties such as `"toString"`. The model treats the table as a plain map. The
  selector only ever offers the catalog ids.
- Rendering (BreathingCircle, ExerciseSelector, Header, WelcomeOverlay), fetching through
  `useQuery`, and the drizzle/zod schema declarations have no behaviour to prove. Only their
  record shapes are used.
