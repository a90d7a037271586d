/** The page that wires settings to the engine (client/src/pages/Home.tsx):
    its initial settings and how it resolves the selected pattern from the
    exercises the server returned and the client's default table. */
module Home {
  import opened Wrappers
  import opened Find
  import opened Patterns
  import Storage
  import Engine
  import TimeFormat

  /** The page's settings state. */
  datatype Settings = Settings(
    patternId: string,
    sessionMinutes: int,
    audioEnabled: bool,
    volume: int,
    sound: string)

  const InitialSettings: Settings := Settings("box-breathing", 5, true, 80, "ocean")

  /** An exercise from the server flattened into a pattern: the identifying
      fields copied, the step durations moved up. */
  function ToPattern(e: Storage.Exercise): (p: Pattern)
    ensures (p.id, p.name, p.description, p.colorTheme) == (e.id, e.name, e.description, e.colorTheme)
    ensures (p.inhale, p.hold1, p.exhale, p.hold2) == (e.steps.inhale, e.steps.hold1, e.steps.exhale, e.steps.hold2)
  {
    Pattern(e.id, e.name, e.description, e.colorTheme,
            e.steps.inhale, e.steps.hold1, e.steps.exhale, e.steps.hold2)
  }

  /** `selectedPattern`: the first server exercise with the selected id,
      flattened; failing that the default with that id; failing that box
      breathing. */
  function SelectPattern(exercises: seq<Storage.Exercise>, selectedId: string): (p: Pattern)
    ensures forall i :: (0 <= i < |exercises| && exercises[i].id == selectedId &&
      (forall j :: 0 <= j < i ==> exercises[j].id != selectedId)) ==> p == ToPattern(exercises[i])
    ensures (forall i :: 0 <= i < |exercises| ==> exercises[i].id != selectedId) ==>
      p == (if selectedId in Defaults() then Defaults()[selectedId] else Defaults()["box-breathing"])
    ensures (forall i :: 0 <= i < |exercises| ==> ValidPattern(ToPattern(exercises[i]))) ==> ValidPattern(p)
  {
    var found := First(exercises, (e: Storage.Exercise) => e.id == selectedId);
    if found.Some? then
      ToPattern(exercises[found.value])
    else if selectedId in Defaults() then
      Defaults()[selectedId]
    else
      Defaults()["box-breathing"]
  }

  /** The props the page hands to the engine. */
  function HookProps(settings: Settings, exercises: seq<Storage.Exercise>): (props: Engine.Props)
    ensures props.pattern == SelectPattern(exercises, settings.patternId)
    ensures props.sessionMinutes == settings.sessionMinutes
    ensures (props.audioEnabled, props.sound, props.volume) == (settings.audioEnabled, settings.sound, settings.volume)
  {
    Engine.Props(SelectPattern(exercises, settings.patternId), settings.sessionMinutes,
                 settings.audioEnabled, settings.sound, settings.volume)
  }

  /** The client's default table and the server's seed agree field for field,
      in the same order. */
  lemma ClientMatchesServer()
    ensures |Storage.SeedExercises| == |DefaultIds|
    ensures forall i :: 0 <= i < |DefaultIds| ==> Storage.SeedExercises[i].id == DefaultIds[i]
    ensures forall i :: 0 <= i < |Storage.SeedExercises| ==>
      ToPattern(Storage.SeedExercises[i]) == Defaults()[Storage.SeedExercises[i].id]
  {
  }

  /** Whether or not the server's list has arrived, the page resolves every
      id to the same pattern. */
  lemma SameBeforeAndAfterFetch(selectedId: string)
    ensures SelectPattern(Storage.GetAllExercises(Storage.New()), selectedId) == SelectPattern([], selectedId)
  {
    var xs := Storage.GetAllExercises(Storage.New());
    ClientMatchesServer();
    var found := First(xs, (e: Storage.Exercise) => e.id == selectedId);
    if found.Some? {
      assert ToPattern(xs[found.value]) == Defaults()[selectedId];
    }
  }

  /** A server exercise wins over the default filed under the same id. */
  lemma ServerOverridesDefault(e: Storage.Exercise, rest: seq<Storage.Exercise>)
    requires e.id in Defaults()
    ensures SelectPattern([e] + rest, e.id) == ToPattern(e)
  {
    assert ([e] + rest)[0] == e;
  }

  /** The page as first shown: box breathing at inhale for four seconds, five
      minutes on the clock displayed as "5:00", stopped. */
  lemma InitialPage(exercises: seq<Storage.Exercise>)
    requires exercises == [] || exercises == Storage.SeedExercises
    ensures var m := Engine.Init(HookProps(InitialSettings, exercises));
      && m.session.phase == Inhale
      && m.session.phaseLabel == "Inhale"
      && m.session.phaseDuration == 4
      && m.session.remaining == 300
      && TimeFormat.FormatTime(m.session.remaining) == "5:00"
      && !m.session.playing
      && m.props.audioEnabled && m.props.volume == 80 && m.props.sound == "ocean"
  {
    if exercises != [] {
      assert exercises[0].id == "box-breathing";
    }
    assert SelectPattern(exercises, "box-breathing") == BoxBreathing;
    TimeFormat.FormatTimeExamples();
  }
}
