/** The breathing-pattern record and the client's table of default patterns
    (client/src/lib/breathingPatterns.ts). */
module Patterns {

  /** The four phases of one breathing cycle. */
  datatype Phase = Inhale | Hold1 | Exhale | Hold2

  /** A named configuration of per-phase durations, in seconds. */
  datatype Pattern = Pattern(
    id: string,
    name: string,
    description: string,
    colorTheme: string,
    inhale: int,
    hold1: int,
    exhale: int,
    hold2: int)

  /** `pattern[phase]`: the configured duration of one phase. */
  function Duration(p: Pattern, ph: Phase): int
  {
    match ph
    case Inhale => p.inhale
    case Hold1 => p.hold1
    case Exhale => p.exhale
    case Hold2 => p.hold2
  }

  /** What the timing engine expects of a pattern: breathing in and out take
      time, and a hold is either skipped (zero) or lasts a positive time. */
  predicate ValidPattern(p: Pattern)
  {
    p.inhale > 0 && p.exhale > 0 && p.hold1 >= 0 && p.hold2 >= 0
  }

  /** The ids of the default table, in declaration order. */
  const DefaultIds: seq<string> := ["box-breathing", "4-7-8", "deep-calm", "energizing"]

  const BoxBreathing: Pattern :=
    Pattern("box-breathing", "Box Breathing", "Inhale, Hold, Exhale, Hold", "primary", 4, 4, 4, 4)
  const FourSevenEight: Pattern :=
    Pattern("4-7-8", "4-7-8 Technique", "Relaxation breath", "secondary", 4, 7, 8, 0)
  const DeepCalm: Pattern :=
    Pattern("deep-calm", "Deep Calm", "Stress relief breathing", "accent", 6, 2, 7, 0)
  const Energizing: Pattern :=
    Pattern("energizing", "Energizing Breath", "Morning activation", "success", 2, 0, 2, 0)

  /** `defaultBreathingPatterns`: every entry is filed under its own id and
      satisfies the engine's precondition, and the table holds exactly the four
      default ids. */
  function Defaults(): (table: map<string, Pattern>)
    ensures forall i :: 0 <= i < |DefaultIds| ==> DefaultIds[i] in table
    ensures |table| == |DefaultIds|
    ensures forall k :: k in table ==> table[k].id == k
    ensures forall k :: k in table ==> ValidPattern(table[k])
  {
    map[
      "box-breathing" := BoxBreathing,
      "4-7-8" := FourSevenEight,
      "deep-calm" := DeepCalm,
      "energizing" := Energizing
    ]
  }

  /** The exact durations (inhale, hold1, exhale, hold2) of the four defaults. */
  lemma DefaultDurations()
    ensures var t := Defaults();
      && (t["box-breathing"].inhale, t["box-breathing"].hold1, t["box-breathing"].exhale, t["box-breathing"].hold2) == (4, 4, 4, 4)
      && (t["4-7-8"].inhale, t["4-7-8"].hold1, t["4-7-8"].exhale, t["4-7-8"].hold2) == (4, 7, 8, 0)
      && (t["deep-calm"].inhale, t["deep-calm"].hold1, t["deep-calm"].exhale, t["deep-calm"].hold2) == (6, 2, 7, 0)
      && (t["energizing"].inhale, t["energizing"].hold1, t["energizing"].exhale, t["energizing"].hold2) == (2, 0, 2, 0)
  {
  }
}
