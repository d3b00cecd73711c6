/**
  The task generation page (src/pages/TaskGeneration.tsx): a location, an
  exploration theme (or, in the agent look, a mission type), a duration and
  a difficulty, and a generate button that is refused until both the
  location and the theme are filled in.
*/
module TaskGeneration {
  import opened Wrappers

  // ----- choices offered by the page -----

  datatype ExplorerTheme = ExplorerTheme(id: string, name: string, color: string, description: string)

  /** The exploration themes offered as cards (vintage look) and buttons (pixel look). */
  const ExplorerThemes: seq<ExplorerTheme> := [
    ExplorerTheme("artistic", "文艺青年", "from-purple-500 to-pink-500", "寻找艺术角落、独立书店、咖啡馆"),
    ExplorerTheme("foodie", "美食探索者", "from-orange-500 to-red-500", "品尝地道小吃、探访老字号"),
    ExplorerTheme("photographer", "摄影师", "from-blue-500 to-teal-500", "捕捉独特视角、记录城市变迁"),
    ExplorerTheme("social", "社交达人", "from-green-500 to-emerald-500", "结识新朋友、参与社区活动")
  ]

  /** The option values of the agent look's operation-type select; the first is the empty prompt. */
  const MissionTypes: seq<string> :=
    ["", "infiltration", "surveillance", "extraction", "reconnaissance", "sabotage", "intelligence"]

  const VintageDurations: seq<string> := ["1", "2", "3", "4"]
  const AgentDurations: seq<string> := ["short", "medium", "long"]
  const VintageDifficulties: seq<string> := ["easy", "medium", "hard"]
  const AgentDifficulties: seq<string> := ["low", "medium", "high", "extreme"]

  /** Every value the theme state can take from some control of the page. */
  predicate SelectableTheme(v: string) {
    v in MissionTypes || exists i :: 0 <= i < |ExplorerThemes| && ExplorerThemes[i].id == v
  }

  /**
    The defaults: the duration `"2"` is a vintage option but not one of the
    agent select's, while the difficulty `"medium"` belongs to both.
  */
  lemma DefaultsAgainstOptions()
    ensures "2" in VintageDurations && "2" !in AgentDurations
    ensures "medium" in VintageDifficulties && "medium" in AgentDifficulties
    ensures SelectableTheme("")
  {
    assert VintageDurations[1] == "2";
    assert AgentDifficulties[1] == "medium";
    assert VintageDifficulties[1] == "medium";
    assert MissionTypes[0] == "";
  }

  /** The theme ids are distinct, and none of them is a mission type or empty. */
  lemma ThemeIdsDistinct()
    ensures forall i, j :: 0 <= i < j < |ExplorerThemes| ==> ExplorerThemes[i].id != ExplorerThemes[j].id
    ensures forall i :: 0 <= i < |ExplorerThemes| ==> ExplorerThemes[i].id != "" && ExplorerThemes[i].id !in MissionTypes
  {
  }

  // ----- the generate guard -----

  /** The guard of `handleGenerateTask`: both the location and the theme must be non-empty strings. */
  predicate CanGenerate(location: string, selectedTheme: string) {
    location != "" && selectedTheme != ""
  }

  /** The `disabled` expression of the generate button, as each look writes it. */
  predicate AgentButtonDisabled(location: string, selectedTheme: string, isGenerating: bool) {
    location == "" || selectedTheme == "" || isGenerating
  }

  predicate PixelButtonDisabled(location: string, selectedTheme: string, isGenerating: bool) {
    isGenerating || location == "" || selectedTheme == ""
  }

  predicate VintageButtonDisabled(location: string, selectedTheme: string, isGenerating: bool) {
    isGenerating || location == "" || selectedTheme == ""
  }

  /**
    All three looks disable the button in the same states: exactly while a
    generation runs or the guard would refuse. So an enabled button never
    reaches the alert.
  */
  lemma DisabledIffGuardFailsOrBusy(location: string, selectedTheme: string, isGenerating: bool)
    ensures AgentButtonDisabled(location, selectedTheme, isGenerating) <==> isGenerating || !CanGenerate(location, selectedTheme)
    ensures PixelButtonDisabled(location, selectedTheme, isGenerating) <==> AgentButtonDisabled(location, selectedTheme, isGenerating)
    ensures VintageButtonDisabled(location, selectedTheme, isGenerating) <==> AgentButtonDisabled(location, selectedTheme, isGenerating)
    ensures !AgentButtonDisabled(location, selectedTheme, isGenerating) ==> CanGenerate(location, selectedTheme) && !isGenerating
  {
  }

  /** What the finished generation reports: the form as it stood when the button was pressed. */
  datatype GenerationRequest = GenerationRequest(location: string, theme: string, duration: string, difficulty: string)

  // ----- the page state -----

  class TaskGenerationPage {
    var location: string
    var selectedTheme: string
    var duration: string
    var difficulty: string
    var isGenerating: bool
    var showAdvanced: bool

    /** The initial state of the page. */
    constructor ()
      ensures location == "" && selectedTheme == "" && duration == "2" && difficulty == "medium"
      ensures !isGenerating && !showAdvanced
      ensures !CanGenerate(location, selectedTheme)
      ensures Valid()
    {
      location := "";
      selectedTheme := "";
      duration := "2";
      difficulty := "medium";
      isGenerating := false;
      showAdvanced := false;
    }

    /** The theme state holds a value one of the page's controls offers. */
    predicate Valid()
      reads this
    {
      SelectableTheme(selectedTheme)
    }

    method SetLocation(v: string)
      requires Valid()
      modifies this`location
      ensures location == v
      ensures Valid()
    {
      location := v;
    }

    /** Clicking the card or button of exploration theme `i`. */
    method SelectExplorerTheme(i: nat)
      requires i < |ExplorerThemes|
      modifies this`selectedTheme
      ensures selectedTheme == ExplorerThemes[i].id && Valid()
      ensures CanGenerate(location, selectedTheme) <==> location != ""
    {
      selectedTheme := ExplorerThemes[i].id;
      ThemeIdsDistinct();
    }

    /** Choosing entry `i` of the operation-type select; the prompt entry clears the choice. */
    method SelectMissionType(i: nat)
      requires i < |MissionTypes|
      modifies this`selectedTheme
      ensures selectedTheme == MissionTypes[i] && Valid()
      ensures i == 0 ==> !CanGenerate(location, selectedTheme)
    {
      selectedTheme := MissionTypes[i];
    }

    method SetDuration(v: string)
      requires Valid()
      modifies this`duration
      ensures duration == v
      ensures Valid()
    {
      duration := v;
    }

    method SetDifficulty(v: string)
      requires Valid()
      modifies this`difficulty
      ensures difficulty == v
      ensures Valid()
    {
      difficulty := v;
    }

    /**
      `handleGenerateTask`: with a location and a theme, start generating and
      return the request the timer will report; otherwise alert and change
      nothing.
    */
    method HandleGenerateTask() returns (request: Option<GenerationRequest>)
      requires Valid()
      modifies this`isGenerating
      ensures request.Some? <==> CanGenerate(location, selectedTheme)
      ensures request.Some? ==> request.value == GenerationRequest(location, selectedTheme, duration, difficulty)
      ensures isGenerating == (old(isGenerating) || request.Some?)
      ensures Valid()
    {
      if location == "" || selectedTheme == "" {
        return None;
      }
      isGenerating := true;
      request := Some(GenerationRequest(location, selectedTheme, duration, difficulty));
    }

    /** The three-second timer of a started generation fires. */
    method GenerationFinished()
      requires Valid()
      modifies this`isGenerating
      ensures !isGenerating
      ensures Valid()
    {
      isGenerating := false;
    }

    /** `toggleAdvanced`, and the agent look's inline toggle of the same flag. */
    method ToggleAdvanced()
      requires Valid()
      modifies this`showAdvanced
      ensures showAdvanced == !old(showAdvanced)
      ensures Valid()
    {
      showAdvanced := !showAdvanced;
    }
  }
}
