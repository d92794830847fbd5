/** The records that flow between the service, the session and the screens. */
module Types {
  import opened Wrappers

  datatype CareerPath = CareerPath(name: string, description: string, imageUrl: string)

  datatype AnalysisResult = AnalysisResult(feedback: string, traits: seq<string>, careerPaths: seq<CareerPath>)

  datatype StoryChoice = StoryChoice(text: string)

  datatype StoryStep = StoryStep(text: string, imageUrl: string, choices: seq<StoryChoice>)

  /** One tile of a mission grid; `objectType` is the source's `type` field. */
  datatype GameObject = GameObject(id: string, objectType: string, imageUrl: string)

  /** The game mode is copied from the backend's answer without being checked, so it stays a string. */
  datatype GameRound = GameRound(
    roundNumber: int,
    instructions: string,
    skillToTest: string,
    gridObjects: seq<GameObject>,
    correctObjectIds: seq<string>,
    gameMode: string)

  datatype MultiRoundMission = MultiRoundMission(title: string, rounds: seq<GameRound>)

  datatype CoachingFeedback = CoachingFeedback(text: string, icon: string)

  /** The source's `SimulationConclusion`. */
  datatype Conclusion = Conclusion(
    text: string,
    imageUrl: string,
    feedbackTitle: string,
    coachingFeedback: seq<CoachingFeedback>,
    unlockedSkills: seq<string>)

  datatype PlanSuggestion = PlanSuggestion(title: string, description: string, platform: Option<string>, url: string)

  datatype ParentEmail = ParentEmail(subject: string, body: string)

  datatype GrowthMapNode = GrowthMapNode(title: string, imagePrompt: string, imageUrl: Option<string>)

  datatype GrowthMap = GrowthMap(centralCareer: GrowthMapNode, traitNodes: seq<GrowthMapNode>)

  datatype RealWorldPlan = RealWorldPlan(
    planTitle: string,
    youtubeSuggestions: seq<PlanSuggestion>,
    onlineCourseSuggestions: seq<PlanSuggestion>,
    localActivitySuggestions: seq<PlanSuggestion>,
    growthMap: GrowthMap,
    parentEmail: ParentEmail)

  /** The outcome of one mission round, as the mission screen reports it. */
  datatype RoundResult = RoundResult(skill: string, success: bool)

  /** The twelve screens of the session. */
  datatype AppState =
    | AgeInput
    | DreamInput
    | AnalysisInProgress
    | ResultsDisplay
    | CareerSimulationInProgress
    | CareerSimulation
    | MiniMissionInProgress
    | MiniMission
    | SimulationConclusion
    | PlannerInProgress
    | PlannerDisplay
    | Error
}
