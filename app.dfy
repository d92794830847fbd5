/**
 * The session of `App.tsx`: the theme chosen from the age, and the state
 * machine the ten `useState` hooks form. Each async handler is two
 * methods: `Begin...`, everything before its `await`, returning the request
 * the service is called with (None when the handler stops early), and
 * `...Settled`, what happens once the service promise settles, taking the
 * settled outcome. The continuations do not look at `appState`, so an
 * outcome that settles after a reset still lands, as it does in the app.
 */
module App {
  import opened Wrappers
  import opened Uri
  import opened JsText
  import opened Types
  import GeminiService
  import ConclusionView

  // ---------------------------------------------------------------------------
  // getThemeClass

  const ThemeDefault: string := "theme-default"
  const ThemeYounger: string := "theme-younger"
  const ThemeMiddle: string := "theme-middle"
  const ThemeOlder: string := "theme-older"

  /** JavaScript's `!userAge` on a `number | null`: null and 0 are falsy. */
  predicate AgeMissing(age: Option<int>)
  {
    age.None? || age.value == 0
  }

  function ThemeClass(age: Option<int>): (c: string)
    ensures c == ThemeYounger <==> age.Some? && 6 <= age.value <= 10
    ensures c == ThemeMiddle <==> age.Some? && 11 <= age.value <= 13
    ensures c == ThemeOlder <==> age.Some? && 14 <= age.value <= 17
    ensures c == ThemeDefault <==> age.None? || age.value < 6 || age.value > 17
  {
    if AgeMissing(age) then ThemeDefault
    else if 6 <= age.value <= 10 then ThemeYounger
    else if 11 <= age.value <= 13 then ThemeMiddle
    else if 14 <= age.value <= 17 then ThemeOlder
    else ThemeDefault
  }

  /** The theme and the prompts' age directive put every age in the same bracket. */
  lemma ThemeMatchesAgeGroup(age: int)
    ensures ThemeClass(Some(age)) == ThemeYounger <==> GeminiService.AgeGroupContext(age) == GeminiService.Ages6To10
    ensures ThemeClass(Some(age)) == ThemeMiddle <==> GeminiService.AgeGroupContext(age) == GeminiService.Ages11To13
    ensures ThemeClass(Some(age)) == ThemeOlder <==> GeminiService.AgeGroupContext(age) == GeminiService.Ages14To17
    ensures ThemeClass(Some(age)) == ThemeDefault <==> GeminiService.AgeGroupContext(age).OtherAge?
  {
  }

  // ---------------------------------------------------------------------------
  // handleError

  /** What a `catch` receives: an `Error` object, or any other thrown value. */
  datatype Thrown = ErrorObject(message: string) | OtherValue

  /** `err instanceof Error ? err.message : defaultMessage`. */
  function ErrorText(err: Thrown, defaultMessage: string): (text: string)
    ensures err.ErrorObject? ==> text == err.message
    ensures err.OtherValue? ==> text == defaultMessage
  {
    match err
    case ErrorObject(m) => m
    case OtherValue => defaultMessage
  }

  const AgeNotSet: string := "Age not set"
  const AgeNotSetDefault: string := "Please start over and provide an age."

  // ---------------------------------------------------------------------------
  // handleAnalysis: the drawing payload

  /**
   * `drawingDataUrl ? drawingDataUrl.split(',')[1] : ''`, then `|| ''`:
   * the second comma-separated field of the data URL, or empty.
   */
  function DrawingPayload(dataUrl: string): (payload: string)
    ensures ',' !in payload
  {
    if dataUrl == [] then []
    else
      var fields := Split(dataUrl, ',');
      if |fields| >= 2 then fields[1] else []
  }

  /**
   * A data URL `header,payload` yields its payload; a string with no comma
   * (no drawing, or no payload) yields the empty drawing.
   */
  lemma DrawingPayloadFacts(header: string, payload: string, plain: string)
    requires ',' !in header && ',' !in payload && ',' !in plain
    ensures DrawingPayload(header + "," + payload) == payload
    ensures DrawingPayload(plain) == []
  {
    assert header + "," + payload == header + [','] + payload;
    SplitAfterField(header, ',', payload);
    SplitLastField(payload, ',');
    SplitLastField(plain, ',');
  }

  // ---------------------------------------------------------------------------
  // handleMissionComplete: the trait merge

  /** `setAnalysisResult(prev => ...)`: traits become `Array.from(new Set([...traits, ...unlocked]))`. */
  function MergeTraits(prev: Option<AnalysisResult>, unlocked: seq<string>): (r: Option<AnalysisResult>)
    ensures r.None? <==> prev.None?
    ensures r.Some? ==> r.value.feedback == prev.value.feedback && r.value.careerPaths == prev.value.careerPaths
  {
    if prev.None? then None
    else Some(prev.value.(traits := Distinct(prev.value.traits + unlocked)))
  }

  /**
   * A null analysis stays null. Otherwise only the traits change: they
   * hold every old trait and every unlocked skill and nothing else, each
   * once; when the old traits had no repeats they come first, unchanged,
   * followed by the unlocked skills not already present, in order.
   */
  lemma MergeTraitsFacts(prev: Option<AnalysisResult>, unlocked: seq<string>)
    ensures prev.None? ==> MergeTraits(prev, unlocked).None?
    ensures prev.Some? ==>
      var before := prev.value;
      && MergeTraits(prev, unlocked).Some?
      && var r := MergeTraits(prev, unlocked).value;
      && r.feedback == before.feedback && r.careerPaths == before.careerPaths
      && NoDup(r.traits)
      && (forall t :: t in r.traits <==> t in before.traits || t in unlocked)
      && (NoDup(before.traits) ==>
            r.traits == AddAll(before.traits, unlocked) && |before.traits| <= |r.traits| && r.traits[..|before.traits|] == before.traits)
  {
    if prev.Some? {
      var ts := prev.value.traits;
      DistinctFacts(ts + unlocked);
      if NoDup(ts) {
        AddAllAppend([], ts, unlocked);
        DistinctOfNoDup(ts);
        AddAllFacts(ts, unlocked);
      }
    }
  }

  /** The analysis once a debrief has arrived: merged only when some skill was unlocked. */
  function AnalysisAfterDebrief(prev: Option<AnalysisResult>, c: Conclusion): (r: Option<AnalysisResult>)
    ensures r.None? <==> prev.None?
  {
    if |c.unlockedSkills| > 0 then MergeTraits(prev, c.unlockedSkills) else prev
  }

  /**
   * The debrief screen and the trait merge use the same test: with no
   * "New Strengths Unlocked" block the analysis is untouched, and every
   * skill that block shows is a trait afterwards, no trait lost.
   */
  lemma UnlockedSkillsBecomeTraits(prev: Option<AnalysisResult>, c: Conclusion)
    ensures !ConclusionView.ShowsUnlockedSkills(c) ==> AnalysisAfterDebrief(prev, c) == prev
    ensures prev.Some? ==> AnalysisAfterDebrief(prev, c).Some?
    ensures prev.Some? && ConclusionView.ShowsUnlockedSkills(c) ==>
      (forall s :: s in c.unlockedSkills ==> s in AnalysisAfterDebrief(prev, c).value.traits)
    ensures prev.Some? ==>
      (forall t :: t in prev.value.traits ==> t in AnalysisAfterDebrief(prev, c).value.traits)
  {
    MergeTraitsFacts(prev, c.unlockedSkills);
  }

  // ---------------------------------------------------------------------------
  // The session

  /** The ten hook values at one moment. */
  datatype Snapshot = Snapshot(
    appState: AppState,
    userAge: Option<int>,
    analysisResult: Option<AnalysisResult>,
    selectedCareer: Option<CareerPath>,
    userChoice: Option<StoryChoice>,
    currentStoryStep: Option<StoryStep>,
    currentMiniMission: Option<MultiRoundMission>,
    simulationConclusion: Option<Conclusion>,
    realWorldPlan: Option<RealWorldPlan>,
    error: Option<string>)

  /** The `useState` initial values. */
  const Initial: Snapshot := Snapshot(AgeInput, None, None, None, None, None, None, None, None, None)

  /**
   * The screens that show stored data always have it: the error screen an
   * error text, the story screen a step, the mission screen a mission, the
   * debrief a conclusion and the planner a plan. (The results screen is
   * not covered: a late story result after a full reset can lead back to it
   * with no analysis, and it then renders nothing.)
   */
  predicate ScreenHasData(s: Snapshot)
  {
    && (s.appState == Error ==> s.error.Some?)
    && (s.appState == CareerSimulation ==> s.currentStoryStep.Some?)
    && (s.appState == MiniMission ==> s.currentMiniMission.Some?)
    && (s.appState == SimulationConclusion ==> s.simulationConclusion.Some?)
    && (s.appState == PlannerDisplay ==> s.realWorldPlan.Some?)
  }

  /** What each service is called with. */
  datatype AnalysisRequest = AnalysisRequest(dream: string, drawingBase64: string, age: int)
  datatype SimulationRequest = SimulationRequest(careerName: string, age: int)
  datatype MissionRequest = MissionRequest(careerName: string, choiceText: string, age: int)
  datatype FeedbackRequest = FeedbackRequest(careerName: string, choiceText: string, roundResults: seq<RoundResult>, age: int)
  datatype PlanRequest = PlanRequest(careerName: string, traits: seq<string>, age: int)

  class Session {
    var appState: AppState
    var userAge: Option<int>
    var analysisResult: Option<AnalysisResult>
    var selectedCareer: Option<CareerPath>
    var userChoice: Option<StoryChoice>
    var currentStoryStep: Option<StoryStep>
    var currentMiniMission: Option<MultiRoundMission>
    var simulationConclusion: Option<Conclusion>
    var realWorldPlan: Option<RealWorldPlan>
    var error: Option<string>

    function State(): Snapshot
      reads this
    {
      Snapshot(appState, userAge, analysisResult, selectedCareer, userChoice,
               currentStoryStep, currentMiniMission, simulationConclusion, realWorldPlan, error)
    }

    predicate Valid()
      reads this
    {
      ScreenHasData(State())
    }

    constructor()
      ensures State() == Initial && Valid()
    {
      appState := AgeInput;
      userAge := None;
      analysisResult := None;
      selectedCareer := None;
      userChoice := None;
      currentStoryStep := None;
      currentMiniMission := None;
      simulationConclusion := None;
      realWorldPlan := None;
      error := None;
    }

    method HandleError(err: Thrown, defaultMessage: string)
      requires Valid()
      modifies this
      ensures Valid()
      ensures State() == old(State()).(appState := Error, error := Some(ErrorText(err, defaultMessage)))
    {
      error := Some(ErrorText(err, defaultMessage));
      appState := Error;
    }

    method HandleAgeSubmit(age: int)
      requires Valid()
      modifies this
      ensures Valid()
      ensures State() == old(State()).(userAge := Some(age), appState := DreamInput)
    {
      userAge := Some(age);
      appState := DreamInput;
    }

    /** `handleAnalysis` up to the `analyzeDream` call. */
    method BeginAnalysis(dream: string, drawingDataUrl: string) returns (request: Option<AnalysisRequest>)
      requires Valid()
      modifies this
      ensures Valid()
      ensures AgeMissing(old(userAge)) ==>
        request.None? && State() == old(State()).(appState := Error, error := Some(AgeNotSet))
      ensures !AgeMissing(old(userAge)) ==>
        && request == Some(AnalysisRequest(dream, DrawingPayload(drawingDataUrl), old(userAge).value))
        && State() == old(State()).(appState := AnalysisInProgress, error := None)
    {
      if AgeMissing(userAge) {
        HandleError(ErrorObject(AgeNotSet), AgeNotSetDefault);
        return None;
      }
      appState := AnalysisInProgress;
      error := None;
      var base64Drawing := if drawingDataUrl != [] then
        (var fields := Split(drawingDataUrl, ','); if |fields| >= 2 then fields[1] else [])
        else [];
      request := Some(AnalysisRequest(dream, base64Drawing, userAge.value));
    }

    method AnalysisSettled(outcome: Result<AnalysisResult, Thrown>)
      requires Valid()
      modifies this
      ensures Valid()
      ensures outcome.Success? ==>
        State() == old(State()).(analysisResult := Some(outcome.value), appState := ResultsDisplay)
      ensures outcome.Failure? ==>
        State() == old(State()).(appState := Error, error := Some(ErrorText(outcome.error, "Analysis failed.")))
    {
      match outcome
      case Success(result) =>
        analysisResult := Some(result);
        appState := ResultsDisplay;
      case Failure(err) =>
        HandleError(err, "Analysis failed.");
    }

    /** `handleSelectPath` up to the `startSimulation` call. */
    method BeginSelectPath(path: CareerPath) returns (request: Option<SimulationRequest>)
      requires Valid()
      modifies this
      ensures Valid()
      ensures AgeMissing(old(userAge)) ==>
        request.None? && State() == old(State()).(appState := Error, error := Some(AgeNotSet))
      ensures !AgeMissing(old(userAge)) ==>
        && request == Some(SimulationRequest(path.name, old(userAge).value))
        && State() == old(State()).(appState := CareerSimulationInProgress, selectedCareer := Some(path), error := None)
    {
      if AgeMissing(userAge) {
        HandleError(ErrorObject(AgeNotSet), AgeNotSetDefault);
        return None;
      }
      appState := CareerSimulationInProgress;
      selectedCareer := Some(path);
      error := None;
      request := Some(SimulationRequest(path.name, userAge.value));
    }

    method SelectPathSettled(outcome: Result<StoryStep, Thrown>)
      requires Valid()
      modifies this
      ensures Valid()
      ensures outcome.Success? ==>
        State() == old(State()).(currentStoryStep := Some(outcome.value), appState := CareerSimulation)
      ensures outcome.Failure? ==>
        State() == old(State()).(appState := Error, error := Some(ErrorText(outcome.error, "Could not start the simulation.")))
    {
      match outcome
      case Success(step) =>
        currentStoryStep := Some(step);
        appState := CareerSimulation;
      case Failure(err) =>
        HandleError(err, "Could not start the simulation.");
    }

    /** `handleStartMission` up to the `generateMiniMission` call; silent when career or age is missing. */
    method BeginStartMission(choice: StoryChoice) returns (request: Option<MissionRequest>)
      requires Valid()
      modifies this
      ensures Valid()
      ensures old(selectedCareer).None? || AgeMissing(old(userAge)) ==>
        request.None? && State() == old(State())
      ensures old(selectedCareer).Some? && !AgeMissing(old(userAge)) ==>
        && request == Some(MissionRequest(old(selectedCareer).value.name, choice.text, old(userAge).value))
        && State() == old(State()).(userChoice := Some(choice), appState := MiniMissionInProgress, error := None)
    {
      if selectedCareer.None? || AgeMissing(userAge) {
        return None;
      }
      userChoice := Some(choice);
      appState := MiniMissionInProgress;
      error := None;
      request := Some(MissionRequest(selectedCareer.value.name, choice.text, userAge.value));
    }

    method StartMissionSettled(outcome: Result<MultiRoundMission, Thrown>)
      requires Valid()
      modifies this
      ensures Valid()
      ensures outcome.Success? ==>
        State() == old(State()).(currentMiniMission := Some(outcome.value), appState := MiniMission)
      ensures outcome.Failure? ==>
        State() == old(State()).(appState := Error, error := Some(ErrorText(outcome.error, "Could not create a mini-mission.")))
    {
      match outcome
      case Success(mission) =>
        currentMiniMission := Some(mission);
        appState := MiniMission;
      case Failure(err) =>
        HandleError(err, "Could not create a mini-mission.");
    }

    /**
     * `handleMissionComplete` up to the `getMissionFeedback` call; silent
     * when career, choice or age is missing. It shows the story loader again.
     */
    method BeginMissionComplete(roundResults: seq<RoundResult>) returns (request: Option<FeedbackRequest>)
      requires Valid()
      modifies this
      ensures Valid()
      ensures old(selectedCareer).None? || old(userChoice).None? || AgeMissing(old(userAge)) ==>
        request.None? && State() == old(State())
      ensures old(selectedCareer).Some? && old(userChoice).Some? && !AgeMissing(old(userAge)) ==>
        && request == Some(FeedbackRequest(old(selectedCareer).value.name, old(userChoice).value.text,
                                           roundResults, old(userAge).value))
        && State() == old(State()).(appState := CareerSimulationInProgress, error := None)
    {
      if selectedCareer.None? || userChoice.None? || AgeMissing(userAge) {
        return None;
      }
      appState := CareerSimulationInProgress;
      error := None;
      request := Some(FeedbackRequest(selectedCareer.value.name, userChoice.value.text, roundResults, userAge.value));
    }

    /** The conclusion is stored, and a non-empty `unlockedSkills` is merged into the traits. */
    method MissionCompleteSettled(outcome: Result<Conclusion, Thrown>)
      requires Valid()
      modifies this
      ensures Valid()
      ensures outcome.Success? ==>
        var c := outcome.value;
        State() == old(State()).(
          simulationConclusion := Some(c),
          analysisResult := AnalysisAfterDebrief(old(analysisResult), c),
          appState := SimulationConclusion)
      ensures outcome.Failure? ==>
        State() == old(State()).(appState := Error,
                                 error := Some(ErrorText(outcome.error, "Could not get the simulation conclusion.")))
    {
      match outcome
      case Success(conclusion) =>
        simulationConclusion := Some(conclusion);
        if |conclusion.unlockedSkills| > 0 {
          if analysisResult.Some? {
            var prev := analysisResult.value;
            analysisResult := Some(prev.(traits := AddAll([], prev.traits + conclusion.unlockedSkills)));
          }
        }
        appState := SimulationConclusion;
      case Failure(err) =>
        HandleError(err, "Could not get the simulation conclusion.");
    }

    /** `handleGeneratePlan` up to the `generateRealWorldPlan` call; silent when career, analysis or age is missing. */
    method BeginGeneratePlan() returns (request: Option<PlanRequest>)
      requires Valid()
      modifies this
      ensures Valid()
      ensures old(selectedCareer).None? || old(analysisResult).None? || AgeMissing(old(userAge)) ==>
        request.None? && State() == old(State())
      ensures old(selectedCareer).Some? && old(analysisResult).Some? && !AgeMissing(old(userAge)) ==>
        && request == Some(PlanRequest(old(selectedCareer).value.name, old(analysisResult).value.traits, old(userAge).value))
        && State() == old(State()).(appState := PlannerInProgress, error := None)
    {
      if selectedCareer.None? || analysisResult.None? || AgeMissing(userAge) {
        return None;
      }
      appState := PlannerInProgress;
      error := None;
      request := Some(PlanRequest(selectedCareer.value.name, analysisResult.value.traits, userAge.value));
    }

    method GeneratePlanSettled(outcome: Result<RealWorldPlan, Thrown>)
      requires Valid()
      modifies this
      ensures Valid()
      ensures outcome.Success? ==>
        State() == old(State()).(realWorldPlan := Some(outcome.value), appState := PlannerDisplay)
      ensures outcome.Failure? ==>
        State() == old(State()).(appState := Error, error := Some(ErrorText(outcome.error, "Could not generate your action plan.")))
    {
      match outcome
      case Success(plan) =>
        realWorldPlan := Some(plan);
        appState := PlannerDisplay;
      case Failure(err) =>
        HandleError(err, "Could not generate your action plan.");
    }

    /** Back to the results: everything after the analysis is cleared; age, analysis and error are kept. */
    method ResetSimulation()
      requires Valid()
      modifies this
      ensures Valid()
      ensures State() == old(State()).(
        currentStoryStep := None, selectedCareer := None, userChoice := None,
        currentMiniMission := None, simulationConclusion := None, realWorldPlan := None,
        appState := ResultsDisplay)
    {
      currentStoryStep := None;
      selectedCareer := None;
      userChoice := None;
      currentMiniMission := None;
      simulationConclusion := None;
      realWorldPlan := None;
      appState := ResultsDisplay;
    }

    /** Start over: exactly the initial hook values. */
    method ResetApp()
      requires Valid()
      modifies this
      ensures Valid()
      ensures State() == Initial
    {
      analysisResult := None;
      ResetSimulation();
      error := None;
      userAge := None;
      appState := AgeInput;
    }
  }
}
