/**
 * The service operations of `geminiService.ts` other than the mission grid:
 * the age bracket, the dream analysis, the mission debrief and the
 * real-world plan. Each text-generation call is represented by its parsed
 * answer, `None` when the call failed, returned no text or returned text
 * that did not parse; each image request is run through `ImageFetch`, the
 * k-th request of an operation answered by `images(k)`.
 */
module GeminiService {
  import opened Wrappers
  import opened JsText
  import opened JsNumber
  import opened Uri
  import opened ImageFetch
  import opened Types

  // ---------------------------------------------------------------------------
  // getAgeGroupContext

  /** Which tone directive the prompts carry; the fallback names the age. */
  datatype AgeGroup = Ages6To10 | Ages11To13 | Ages14To17 | OtherAge(age: int)

  function AgeGroupContext(age: int): (g: AgeGroup)
    ensures g == Ages6To10 <==> 6 <= age <= 10
    ensures g == Ages11To13 <==> 11 <= age <= 13
    ensures g == Ages14To17 <==> 14 <= age <= 17
    ensures g == OtherAge(age) <==> age < 6 || age > 17
  {
    if 6 <= age <= 10 then Ages6To10
    else if 11 <= age <= 13 then Ages11To13
    else if 14 <= age <= 17 then Ages14To17
    else OtherAge(age)
  }

  // ---------------------------------------------------------------------------
  // analyzeDream

  /** A career path as the analysis call returns it, before its image. */
  datatype PathDraft = PathDraft(name: string, description: string)

  datatype AnalysisDraft = AnalysisDraft(feedback: string, traits: seq<string>, careerPaths: seq<PathDraft>)

  /** Which of the three prompt texts goes with the parts. */
  datatype DreamPrompt = DreamWithDrawing(dream: string) | DreamOnly(dream: string) | DrawingOnly

  /** One element of `parts`: the PNG drawing, or the prompt text. */
  datatype Part = InlineImage(mimeType: string, data: string) | TextPart(prompt: DreamPrompt)

  const NoInputMessage: string := "No input provided for analysis."
  const AnalysisFailureMessage: string := "Failed to get analysis from Becom.AI."

  predicate HasText(dreamText: string)
  {
    Trim(dreamText) != []
  }

  predicate HasDrawing(drawingBase64: string)
  {
    drawingBase64 != []
  }

  function CareerImagePrompt(name: string, age: int): (prompt: string)
    ensures Contains(prompt, name)
  {
    var lead := "A vibrant and friendly cartoon illustration of a ";
    var rest := (if age <= 11 then ", simple, clear, for a child" else "") + ". No text in the image.";
    ContainsInfix(lead, name, rest);
    lead + name + rest
  }

  /** The URL the k-th image request of an operation ends with. */
  function ImageUrl(images: nat -> nat -> ImageOutcome, jitter: nat -> nat -> int, k: nat): string
  {
    Run(images(k), jitter(k), DefaultMaxRetries, 0).url
  }

  /**
   * The `parts` of the analysis request: the PNG drawing when there is
   * one, then exactly one text part whose prompt depends on which inputs
   * are present.
   */
  function DreamParts(dreamText: string, drawingBase64: string): (parts: seq<Part>)
    ensures |parts| == (if HasDrawing(drawingBase64) then 2 else 1)
    ensures HasDrawing(drawingBase64) ==> parts[0] == InlineImage("image/png", drawingBase64)
    ensures parts[|parts| - 1].TextPart?
    ensures parts[|parts| - 1].prompt.DreamWithDrawing? <==> HasText(dreamText) && HasDrawing(drawingBase64)
    ensures parts[|parts| - 1].prompt.DreamOnly? <==> HasText(dreamText) && !HasDrawing(drawingBase64)
    ensures parts[|parts| - 1].prompt.DrawingOnly? <==> !HasText(dreamText)
    ensures !parts[|parts| - 1].prompt.DrawingOnly? ==> parts[|parts| - 1].prompt.dream == dreamText
  {
    (if HasDrawing(drawingBase64) then [InlineImage("image/png", drawingBase64)] else [])
    + [TextPart(
        if HasText(dreamText) && HasDrawing(drawingBase64) then DreamWithDrawing(dreamText)
        else if HasText(dreamText) then DreamOnly(dreamText)
        else DrawingOnly)]
  }

  /**
   * The per-path loop of `analyzeDream`: one image request per career
   * path, in order, each path keeping its name and description and taking
   * the URL its request ends with.
   */
  method AttachCareerImages(paths: seq<PathDraft>, age: int, images: nat -> nat -> ImageOutcome, jitter: nat -> nat -> int)
    returns (withImages: seq<CareerPath>, imagePrompts: seq<string>)
    ensures |withImages| == |imagePrompts| == |paths|
    ensures forall k :: 0 <= k < |paths| ==>
      && imagePrompts[k] == CareerImagePrompt(paths[k].name, age)
      && withImages[k] == CareerPath(paths[k].name, paths[k].description, ImageUrl(images, jitter, k))
  {
    withImages, imagePrompts := [], [];
    var k := 0;
    while k < |paths|
      invariant 0 <= k <= |paths|
      invariant |withImages| == |imagePrompts| == k
      invariant forall i :: 0 <= i < k ==>
        && imagePrompts[i] == CareerImagePrompt(paths[i].name, age)
        && withImages[i] == CareerPath(paths[i].name, paths[i].description, ImageUrl(images, jitter, i))
    {
      var path := paths[k];
      imagePrompts := imagePrompts + [CareerImagePrompt(path.name, age)];
      var url, _, _ := GenerateImage(images(k), jitter(k), DefaultMaxRetries);
      assert url == ImageUrl(images, jitter, k);
      withImages := withImages + [CareerPath(path.name, path.description, url)];
      k := k + 1;
    }
  }

  /**
   * `analyzeDream`. Returns the analysis or the thrown message, the parts
   * sent to the text model (None when no call is made), and the prompts of
   * the image requests, in the order they were issued.
   */
  method AnalyzeDream(
    dreamText: string,
    drawingBase64: string,
    age: int,
    response: Option<AnalysisDraft>,
    images: nat -> nat -> ImageOutcome,
    jitter: nat -> nat -> int)
    returns (result: Result<AnalysisResult, string>, sent: Option<seq<Part>>, imagePrompts: seq<string>)
    // Blank text (see TrimEmptyIffAllSpace) and no drawing: the message thrown
    // before any call, not rewrapped.
    ensures sent.None? <==> !HasText(dreamText) && !HasDrawing(drawingBase64)
    ensures sent.None? ==> result == Failure(NoInputMessage) && imagePrompts == []
    ensures sent.Some? ==> sent.value == DreamParts(dreamText, drawingBase64)
    // Any failure of the call or of its answer: one generic message, no image request.
    ensures sent.Some? && response.None? ==> result == Failure(AnalysisFailureMessage) && imagePrompts == []
    // Success: one image request per path, in order; paths kept in order with their image attached.
    ensures sent.Some? && response.Some? ==>
      var d := response.value;
      && result.Success?
      && result.value.feedback == d.feedback
      && result.value.traits == d.traits
      && |result.value.careerPaths| == |d.careerPaths| == |imagePrompts|
      && forall k :: 0 <= k < |d.careerPaths| ==>
           && imagePrompts[k] == CareerImagePrompt(d.careerPaths[k].name, age)
           && result.value.careerPaths[k] ==
                CareerPath(d.careerPaths[k].name, d.careerPaths[k].description, ImageUrl(images, jitter, k))
  {
    var hasText := Trim(dreamText) != [];
    var hasDrawing := drawingBase64 != [];
    if !hasText && !hasDrawing {
      return Failure(NoInputMessage), None, [];
    }
    sent := Some(DreamParts(dreamText, drawingBase64));
    if response.None? {
      return Failure(AnalysisFailureMessage), sent, [];
    }
    var d := response.value;
    var withImages;
    withImages, imagePrompts := AttachCareerImages(d.careerPaths, age, images, jitter);
    result := Success(AnalysisResult(d.feedback, d.traits, withImages));
  }

  // ---------------------------------------------------------------------------
  // getMissionFeedback

  /** The debrief as the text call returns it, before its image. */
  datatype ConclusionDraft = ConclusionDraft(
    text: string,
    feedbackTitle: string,
    coachingFeedback: seq<CoachingFeedback>,
    unlockedSkills: seq<string>)

  const SucceededEnding: string := "they succeeded."
  const FailedEnding: string := "they failed."

  /** The sentence describing round `i` (counting from 0). */
  function RoundSentence(i: nat, r: RoundResult): string
  {
    "In round " + Decimal(i + 1) + ", they were tested on '" + r.skill + "' and "
      + (if r.success then SucceededEnding else FailedEnding)
  }

  function RoundSentences(results: seq<RoundResult>, from: nat): (s: seq<string>)
    ensures |s| == |results|
    ensures forall i :: 0 <= i < |results| ==> s[i] == RoundSentence(from + i, results[i])
  {
    if results == [] then [] else [RoundSentence(from, results[0])] + RoundSentences(results[1..], from + 1)
  }

  /** `parts.join(' ')`. */
  function JoinWithSpace(parts: seq<string>): string
  {
    if parts == [] then [] else if |parts| == 1 then parts[0] else parts[0] + " " + JoinWithSpace(parts[1..])
  }

  /** `resultsSummary`: one sentence per round, in round order, separated by spaces. */
  function ResultsSummary(results: seq<RoundResult>): string
  {
    JoinWithSpace(RoundSentences(results, 0))
  }

  predicate EndsWith(s: string, suffix: string)
  {
    |suffix| <= |s| && s[|s| - |suffix|..] == suffix
  }

  /**
   * Whatever the skill names are, a round's sentence ends in "they
   * succeeded." exactly when the round succeeded, and begins with that
   * round's number.
   */
  lemma RoundSentenceReportsOutcome(i: nat, r: RoundResult)
    ensures EndsWith(RoundSentence(i, r), SucceededEnding) <==> r.success
    ensures RoundSentence(i, r)[..9 + |Decimal(i + 1)|] == "In round " + Decimal(i + 1)
  {
    var s := RoundSentence(i, r);
    if !r.success {
      assert s[|s| - |FailedEnding|..] == FailedEnding;
      assert s[|s| - 4] == 'l' != SucceededEnding[|SucceededEnding| - 4];
    }
  }

  function FeedbackFailureMessage(careerName: string): string
  {
    "Failed to conclude the story for a " + careerName + "."
  }

  /**
   * `getMissionFeedback`. The debrief's `unlockedSkills` is passed through
   * exactly as the backend returned it: the code does not filter it against
   * the rounds that succeeded.
   */
  method GetMissionFeedback(
    careerName: string,
    roundResults: seq<RoundResult>,
    response: Option<ConclusionDraft>,
    image: nat -> ImageOutcome,
    jitter: nat -> int)
    returns (result: Result<Conclusion, string>, summary: string, imageRequested: bool)
    ensures summary == ResultsSummary(roundResults)
    ensures response.None? ==> result == Failure(FeedbackFailureMessage(careerName)) && !imageRequested
    ensures response.Some? ==>
      var d := response.value;
      && imageRequested
      && result == Success(Conclusion(d.text, Run(image, jitter, DefaultMaxRetries, 0).url,
                                      d.feedbackTitle, d.coachingFeedback, d.unlockedSkills))
  {
    summary := ResultsSummary(roundResults);
    if response.None? {
      return Failure(FeedbackFailureMessage(careerName)), summary, false;
    }
    var d := response.value;
    var url, _, _ := GenerateImage(image, jitter, DefaultMaxRetries);
    result := Success(Conclusion(d.text, url, d.feedbackTitle, d.coachingFeedback, d.unlockedSkills));
    imageRequested := true;
  }

  // ---------------------------------------------------------------------------
  // generateRealWorldPlan

  const KhanAcademyHome: string := "https://www.khanacademy.org/"
  const KhanSearchMarker: string := "search?page_search_query="
  const KhanSearchBase: string := KhanAcademyHome + KhanSearchMarker

  predicate IsKhanPlatform(platform: Option<string>)
  {
    platform.Some? && Contains(ToLower(platform.value), "khan")
  }

  /** The fix-up of one course suggestion: a Khan Academy course gets a search URL unless it has one. */
  function KhanRewrite(s: PlanSuggestion): PlanSuggestion
  {
    if IsKhanPlatform(s.platform) && !Contains(s.url, KhanSearchMarker)
    then s.(url := KhanSearchBase + EncodeURIComponent(s.title))
    else s
  }

  /**
   * The rewrite touches only the URL, and only of a Khan Academy course;
   * a URL that changed is the search template with the encoded title.
   */
  lemma KhanRewriteChangesOnlyUrl(s: PlanSuggestion)
    ensures var r := KhanRewrite(s);
      && r.title == s.title && r.description == s.description && r.platform == s.platform
      && (!IsKhanPlatform(s.platform) ==> r == s)
      && (r.url != s.url ==> r.url == KhanSearchBase + EncodeURIComponent(s.title))
  {
  }

  /**
   * Afterwards a Khan Academy course's URL is a search URL, so applying
   * the rewrite twice is applying it once.
   */
  lemma KhanRewriteIdempotent(s: PlanSuggestion)
    ensures IsKhanPlatform(s.platform) ==> Contains(KhanRewrite(s).url, KhanSearchMarker)
    ensures KhanRewrite(KhanRewrite(s)) == KhanRewrite(s)
  {
    if IsKhanPlatform(s.platform) && !Contains(s.url, KhanSearchMarker) {
      ContainsInfix(KhanAcademyHome, KhanSearchMarker, EncodeURIComponent(s.title));
    }
  }

  function IconPrompt(node: GrowthMapNode): (prompt: string)
    ensures |node.imagePrompt| < |prompt| && prompt[..|node.imagePrompt|] == node.imagePrompt
  {
    node.imagePrompt + ", cute cartoon icon, simple, sticker style, on a plain white background, no shadows"
  }

  function PlanFailureMessage(careerName: string): string
  {
    "Failed to create a real-world plan for a " + careerName + "."
  }

  /**
   * The icon requests of `generateRealWorldPlan`, one per node with the
   * central node first. They are issued together and awaited with
   * `Promise.all`; the model runs them in node order, node k being request k.
   */
  method FetchNodeIcons(nodes: seq<GrowthMapNode>, images: nat -> nat -> ImageOutcome, jitter: nat -> nat -> int)
    returns (urls: seq<string>, iconPrompts: seq<string>)
    ensures |urls| == |iconPrompts| == |nodes|
    ensures forall k :: 0 <= k < |nodes| ==> urls[k] == ImageUrl(images, jitter, k) && iconPrompts[k] == IconPrompt(nodes[k])
  {
    urls := [];
    iconPrompts := [];
    var k := 0;
    while k < |nodes|
      invariant 0 <= k <= |nodes|
      invariant |urls| == |iconPrompts| == k
      invariant forall i :: 0 <= i < k ==> urls[i] == ImageUrl(images, jitter, i) && iconPrompts[i] == IconPrompt(nodes[i])
    {
      iconPrompts := iconPrompts + [IconPrompt(nodes[k])];
      var url, _, _ := GenerateImage(images(k), jitter(k), DefaultMaxRetries);
      assert url == ImageUrl(images, jitter, k);
      urls := urls + [url];
      k := k + 1;
    }
  }

  /** Trait node k takes the icon at position k + 1 (position 0 is the central node's). */
  method SpliceTraitIcons(traitNodes: seq<GrowthMapNode>, urls: seq<string>) returns (traits: seq<GrowthMapNode>)
    requires |urls| == 1 + |traitNodes|
    ensures |traits| == |traitNodes|
    ensures forall k :: 0 <= k < |traitNodes| ==> traits[k] == traitNodes[k].(imageUrl := Some(urls[k + 1]))
  {
    traits := traitNodes;
    var k := 0;
    while k < |traits|
      invariant 0 <= k <= |traits| == |traitNodes|
      invariant forall i :: 0 <= i < k ==> traits[i] == traitNodes[i].(imageUrl := Some(urls[i + 1]))
      invariant forall i :: k <= i < |traits| ==> traits[i] == traitNodes[i]
    {
      traits := traits[k := traits[k].(imageUrl := Some(urls[k + 1]))];
      k := k + 1;
    }
  }

  /** The course-link pass: each course suggestion goes through `KhanRewrite`, in place. */
  method FixCourseLinks(suggestions: seq<PlanSuggestion>) returns (courses: seq<PlanSuggestion>)
    ensures |courses| == |suggestions|
    ensures forall k :: 0 <= k < |suggestions| ==> courses[k] == KhanRewrite(suggestions[k])
  {
    courses := suggestions;
    var k := 0;
    while k < |courses|
      invariant 0 <= k <= |courses| == |suggestions|
      invariant forall i :: 0 <= i < k ==> courses[i] == KhanRewrite(suggestions[i])
      invariant forall i :: k <= i < |courses| ==> courses[i] == suggestions[i]
    {
      var s := courses[k];
      if s.platform.Some? && Contains(ToLower(s.platform.value), "khan") && !Contains(s.url, KhanSearchMarker) {
        courses := courses[k := s.(url := KhanSearchBase + EncodeURIComponent(s.title))];
      }
      k := k + 1;
    }
  }

  /**
   * `generateRealWorldPlan`: the plan as returned, with an icon on every
   * growth-map node and the Khan Academy course links fixed up.
   */
  method GenerateRealWorldPlan(
    careerName: string,
    response: Option<RealWorldPlan>,
    images: nat -> nat -> ImageOutcome,
    jitter: nat -> nat -> int)
    returns (result: Result<RealWorldPlan, string>, iconPrompts: seq<string>)
    ensures response.None? ==> result == Failure(PlanFailureMessage(careerName)) && iconPrompts == []
    ensures response.Some? ==>
      var p := response.value;
      var gm := p.growthMap;
      && result.Success?
      && var q := result.value;
      // one icon per node, central node first
      && |iconPrompts| == 1 + |gm.traitNodes|
      && iconPrompts[0] == IconPrompt(gm.centralCareer)
      && (forall k :: 0 <= k < |gm.traitNodes| ==> iconPrompts[k + 1] == IconPrompt(gm.traitNodes[k]))
      // icons spliced back by position
      && q.growthMap.centralCareer == gm.centralCareer.(imageUrl := Some(ImageUrl(images, jitter, 0)))
      && |q.growthMap.traitNodes| == |gm.traitNodes|
      && (forall k :: 0 <= k < |gm.traitNodes| ==>
            q.growthMap.traitNodes[k] == gm.traitNodes[k].(imageUrl := Some(ImageUrl(images, jitter, k + 1))))
      // course links fixed up, everything else as returned
      && |q.onlineCourseSuggestions| == |p.onlineCourseSuggestions|
      && (forall k :: 0 <= k < |p.onlineCourseSuggestions| ==>
            q.onlineCourseSuggestions[k] == KhanRewrite(p.onlineCourseSuggestions[k]))
      && q.planTitle == p.planTitle
      && q.youtubeSuggestions == p.youtubeSuggestions
      && q.localActivitySuggestions == p.localActivitySuggestions
      && q.parentEmail == p.parentEmail
  {
    if response.None? {
      return Failure(PlanFailureMessage(careerName)), [];
    }
    var plan := response.value;
    var allNodes := [plan.growthMap.centralCareer] + plan.growthMap.traitNodes;
    var urls;
    urls, iconPrompts := FetchNodeIcons(allNodes, images, jitter);
    var central := plan.growthMap.centralCareer.(imageUrl := Some(urls[0]));
    var traits := SpliceTraitIcons(plan.growthMap.traitNodes, urls);
    var courses := FixCourseLinks(plan.onlineCourseSuggestions);
    assert forall k :: 0 <= k < |plan.growthMap.traitNodes| ==> allNodes[k + 1] == plan.growthMap.traitNodes[k];
    result := Success(plan.(
      growthMap := GrowthMap(central, traits),
      onlineCourseSuggestions := courses));
  }
}
