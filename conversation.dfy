/**
 * The seven-stage dialogue as a pure transition on the conversation record:
 * one user message in, the new record and the reply out. Each stage handler
 * of the bot is one function here; `Transition` dispatches on the stage.
 */
module Conversation {
  import opened Wrappers
  import opened Text
  import opened State
  import opened Heuristics
  import opened Extraction
  import opened Generators

  datatype Outcome = Outcome(state: ConversationState, reply: Reply)

  /**
   * What handling one message may draw from `Math.random` and from the id
   * generator: the raw `Math.floor(Math.random() * n)` values of
   * `collectTrendingNotes`, the draws of the generators each pipeline step
   * calls, and the two ids of the links.
   */
  datatype Draws = Draws(
    totalFound: nat,
    selected: nat,
    notes: seq<NoteDraws>,
    analysis: AnalysisDraws,
    creation: CreationDraws,
    downloadId: string,
    previewId: string)

  /**
   * Every draw lies in the range its expression yields: `Math.floor(r * 30)`
   * below 30, `Math.floor(r * 5)` below 5, one note per selected note, and the
   * generators' own ranges (the findings' ranges depend on the category).
   */
  predicate DrawsFit(category: string, d: Draws) {
    && d.totalFound < 30 && d.selected < 5
    && |d.notes| == d.selected + 5 && AllNoteDrawsFit(d.notes)
    && FindingDrawsFit(FindingsKindOf(category), d.analysis.findings)
    && CreationDrawsFit(d.creation)
  }

  const DownloadPrefix := "https://example.com/download/"
  const PreviewPrefix := "https://example.com/preview/"

  // ---------------------------------------------------------------------------
  // The pipeline steps of the processing stage

  /**
   * `collectTrendingNotes`: 20 to 49 notes found, 5 to 9 of them selected,
   * and exactly the selected number generated, all in the requested
   * category. Nothing but the collected data changes.
   */
  function Collect(s: ConversationState, d: Draws): (r: ConversationState)
    requires DrawsFit(s.userRequest.category, d)
    ensures r == s.(collectedData := r.collectedData)
    ensures 20 <= r.collectedData.totalFound < 50 && 5 <= r.collectedData.selectedCount < 10
    ensures |r.collectedData.trendingNotes| == r.collectedData.selectedCount
    ensures forall i :: 0 <= i < |r.collectedData.trendingNotes| ==>
      r.collectedData.trendingNotes[i].category == s.userRequest.category
  {
    var notes := MockNotes(s.userRequest.keyword, s.userRequest.category, d.notes);
    s.(collectedData := CollectedData(notes, d.totalFound + 20, d.selected + 5))
  }

  /**
   * `analyzeContent`: an analysis of exactly the collected notes, in order,
   * with four findings. Nothing but the analysis changes.
   */
  function Analyze(s: ConversationState, d: Draws): (r: ConversationState)
    requires DrawsFit(s.userRequest.category, d)
    ensures r == s.(analysisResult := r.analysisResult)
    ensures r.analysisResult.Some? && |r.analysisResult.value.keyFindings| == 4
    ensures r.analysisResult.value.sourceNotes == NoteIds(s.collectedData.trendingNotes)
  {
    var a := MockAnalysisResult(s.userRequest.keyword, s.userRequest.category, s.collectedData.trendingNotes, d.analysis);
    s.(analysisResult := Some(a))
  }

  /**
   * `createContent`: the created content replaces the whole creation record;
   * nothing else changes. What the new record holds is `CreationShape`.
   */
  function Create(s: ConversationState, d: Draws): (r: ConversationState)
    requires DrawsFit(s.userRequest.category, d)
    ensures r == s.(creationResult := r.creationResult)
  {
    s.(creationResult := MockCreationResult(s.userRequest.keyword, s.userRequest.category, d.creation))
  }

  /**
   * `generateDownloadLinks`: both links, each under its fixed prefix; the
   * rest of the creation record and of the conversation is unchanged.
   */
  function Link(s: ConversationState, downloadId: string, previewId: string): (r: ConversationState)
    ensures var c := r.creationResult;
      && r == s.(creationResult := s.creationResult.(downloadLink := c.downloadLink, previewLink := c.previewLink))
      && StartsWith(c.downloadLink, DownloadPrefix) && StartsWith(c.previewLink, PreviewPrefix)
  {
    var c := s.creationResult.(downloadLink := DownloadPrefix + downloadId, previewLink := PreviewPrefix + previewId);
    assert (DownloadPrefix + downloadId)[..|DownloadPrefix|] == DownloadPrefix;
    assert (PreviewPrefix + previewId)[..|PreviewPrefix|] == PreviewPrefix;
    s.(creationResult := c)
  }

  // ---------------------------------------------------------------------------
  // The results report

  /** `content.substring(0, 200)`: the opening of the content, at most 200 characters. */
  function Preview(content: string): (p: string)
    ensures |p| <= 200 && StartsWith(content, p)
    ensures |content| <= 200 ==> p == content
    ensures |content| >= 200 ==> |p| == 200
  {
    content[..Min(200, |content|)]
  }

  /** The four findings the report lists: `key_findings[0]` to `[3]`, `undefined` where one is missing. */
  function FirstFour(findings: seq<string>): (r: seq<string>)
    ensures |r| == 4
    ensures |findings| >= 4 ==> r == findings[..4]
  {
    seq(4, i requires 0 <= i < 4 => if i < |findings| then findings[i] else "undefined")
  }

  /**
   * `showResults`: the request, the number of notes analysed, four findings,
   * the title, a preview of the content, the number of images and the
   * download link; it fails when there is no analysis to read findings from.
   */
  function ResultsReply(s: ConversationState): (r: Reply)
    ensures r == Fault <==> s.analysisResult.None?
    ensures r.Results? ==>
      && r.keyword == s.userRequest.keyword && r.category == s.userRequest.category
      && r.selectedCount == s.collectedData.selectedCount
      && r.findings == FirstFour(s.analysisResult.value.keyFindings)
      && r.title == s.creationResult.title && r.preview == Preview(s.creationResult.content)
      && r.imageCount == |s.creationResult.images|
      && r.downloadLink == s.creationResult.downloadLink
  {
    match s.analysisResult
    case None => Fault
    case Some(a) =>
      var c := s.creationResult;
      Results(s.userRequest.keyword, s.userRequest.category, s.collectedData.selectedCount,
        FirstFour(a.keyFindings), c.title, Preview(c.content), |c.images|, c.downloadLink)
  }

  // ---------------------------------------------------------------------------
  // The stage handlers

  /** The record `handleGreetingStage` leaves: reset, and collecting needs. */
  function Restarted(): ConversationState {
    FreshState().(currentStage := CollectingNeeds)
  }

  /** `handleGreetingStage`: start over, whatever was said. */
  function Greet(): Outcome {
    Outcome(Restarted(), Welcome)
  }

  /**
   * `handleCollectingNeedsStage`: what is extracted from the lower-cased
   * message is stored; both together move on to confirmation.
   */
  function CollectNeeds(s: ConversationState, message: string, keywordPatterns: seq<Matcher>, categoryPatterns: seq<Matcher>): Outcome {
    var t := ToLower(message);
    var keyword := KeywordOf(t, keywordPatterns);
    var category := CategoryOf(t, categoryPatterns);
    if keyword != "" && category != "" then
      Outcome(
        s.(currentStage := ConfirmingInfo, userRequest := s.userRequest.(keyword := keyword, category := category)),
        ConfirmNeeds(keyword, category))
    else if keyword != "" then
      Outcome(s.(userRequest := s.userRequest.(keyword := keyword)), AskForCategory(keyword))
    else if category != "" then
      Outcome(s.(userRequest := s.userRequest.(category := category)), AskForKeyword(category))
    else
      Outcome(s, AskForDetails)
  }

  /** `handleConfirmingInfoStage`: confirmation starts processing; anything else clears the request. */
  function Confirm(s: ConversationState, message: string): Outcome {
    if IsUserConfirming(message) then
      Outcome(
        s.(currentStage := Processing, userRequest := s.userRequest.(confirmed := true)),
        ProcessingStarted(s.userRequest.keyword, s.userRequest.category))
    else
      Outcome(
        s.(currentStage := CollectingNeeds, userRequest := s.userRequest.(keyword := "", category := "")),
        AskAgain)
  }

  /** The first branch of `handleProcessingStage`: collect the notes and report the counts. */
  function CollectStep(s: ConversationState, d: Draws): Outcome
    requires DrawsFit(s.userRequest.category, d)
  {
    var c := Collect(s, d);
    Outcome(
      c.(processingStatus := s.processingStatus.(dataCollected := true)),
      NotesCollected(c.collectedData.totalFound, c.collectedData.selectedCount))
  }

  /** The second branch: analyse the notes. */
  function AnalyzeStep(s: ConversationState, d: Draws): Outcome
    requires DrawsFit(s.userRequest.category, d)
  {
    Outcome(Analyze(s, d).(processingStatus := s.processingStatus.(analysisCompleted := true)), AnalysisFinished)
  }

  /** The third branch: create the content. */
  function CreateStep(s: ConversationState, d: Draws): Outcome
    requires DrawsFit(s.userRequest.category, d)
  {
    Outcome(Create(s, d).(processingStatus := s.processingStatus.(contentCreated := true)), ContentFinished)
  }

  /** The fourth branch: generate the links and show the results. */
  function LinkStep(s: ConversationState, d: Draws): Outcome {
    var l := Link(s, d.downloadId, d.previewId).(
      processingStatus := s.processingStatus.(linksGenerated := true),
      currentStage := ShowingResults);
    Outcome(l, ResultsReply(l))
  }

  /** The last branch, with every step already done: show the results again. */
  function ShowStep(s: ConversationState): Outcome {
    var r := s.(currentStage := ShowingResults);
    Outcome(r, ResultsReply(r))
  }

  /**
   * `handleProcessingStage`: the first pipeline step not yet done runs and its
   * flag is set; after the last one, or when all are done, the results are shown.
   */
  function Process(s: ConversationState, d: Draws): Outcome
    requires DrawsFit(s.userRequest.category, d)
  {
    var p := s.processingStatus;
    if !p.dataCollected then CollectStep(s, d)
    else if !p.analysisCompleted then AnalyzeStep(s, d)
    else if !p.contentCreated then CreateStep(s, d)
    else if !p.linksGenerated then LinkStep(s, d)
    else ShowStep(s)
  }

  /** `handleShowingResultsStage`: ask for feedback. */
  function RequestFeedback(s: ConversationState): Outcome {
    Outcome(s.(currentStage := CollectingFeedback), FeedbackRequest)
  }

  /** `handleCollectingFeedbackStage`: answer the feedback and end. */
  function ThankForFeedback(s: ConversationState, message: string): Outcome {
    Outcome(s.(currentStage := Ending), Farewell(AnalyzeFeedback(message).responseMessage))
  }

  /** `handleEndingStage`: a new request starts over; anything else keeps the conversation ended. */
  function CloseOrRestart(s: ConversationState, message: string): Outcome {
    if IsNewRequest(message) then Greet() else Outcome(s, StillHere)
  }

  /** `handleUserMessage`: dispatch on the stage; an unrecognised stage greets again. */
  function Transition(s: ConversationState, message: string, keywordPatterns: seq<Matcher>, categoryPatterns: seq<Matcher>, d: Draws): Outcome
    requires DrawsFit(s.userRequest.category, d)
  {
    match s.currentStage
    case Greeting => Greet()
    case CollectingNeeds => CollectNeeds(s, message, keywordPatterns, categoryPatterns)
    case ConfirmingInfo => Confirm(s, message)
    case Processing => Process(s, d)
    case ShowingResults => RequestFeedback(s)
    case CollectingFeedback => ThankForFeedback(s, message)
    case Ending => CloseOrRestart(s, message)
    case Unrecognised => Greet()
  }

  // ---------------------------------------------------------------------------
  // The invariant of every record a conversation reaches

  /** Greeting, collecting needs and confirming come before any processing. */
  predicate Gathering(stage: Stage) {
    stage == Greeting || stage == CollectingNeeds || stage == ConfirmingInfo
  }

  /** The stages after the results have been shown. */
  predicate Delivered(stage: Stage) {
    stage == ShowingResults || stage == CollectingFeedback || stage == Ending
  }

  predicate NoFlags(p: ProcessingStatus) {
    !p.dataCollected && !p.analysisCompleted && !p.contentCreated && !p.linksGenerated
  }

  predicate AllFlags(p: ProcessingStatus) {
    p.dataCollected && p.analysisCompleted && p.contentCreated && p.linksGenerated
  }

  /** The flags are set in pipeline order: each one implies the one before it. */
  predicate FlagsInOrder(p: ProcessingStatus) {
    && (p.analysisCompleted ==> p.dataCollected)
    && (p.contentCreated ==> p.analysisCompleted)
    && (p.linksGenerated ==> p.contentCreated)
  }

  function FlagCount(p: ProcessingStatus): nat {
    (if p.dataCollected then 1 else 0) + (if p.analysisCompleted then 1 else 0)
    + (if p.contentCreated then 1 else 0) + (if p.linksGenerated then 1 else 0)
  }

  /**
   * What holds of the record between any two messages: the stage is one of
   * the seven; the greeting stage only ever holds the fresh record; nothing
   * is processed before confirmation, and everything is once the results are
   * out; processing never sits with all four steps done; and what each set
   * flag promises is in the record.
   */
  predicate Consistent(s: ConversationState) {
    var p := s.processingStatus;
    && s.currentStage != Unrecognised
    && (s.currentStage == Greeting ==> s == FreshState())
    && (Gathering(s.currentStage) ==> NoFlags(p) && !s.userRequest.confirmed)
    && (s.currentStage == ConfirmingInfo ==> s.userRequest.keyword != "" && s.userRequest.category != "")
    && (!Gathering(s.currentStage) ==> s.userRequest.confirmed)
    && (Delivered(s.currentStage) ==> AllFlags(p))
    && (s.currentStage == Processing ==> !p.linksGenerated)
    && FlagsInOrder(p)
    && (p.dataCollected ==>
      && 20 <= s.collectedData.totalFound < 50 && 5 <= s.collectedData.selectedCount < 10
      && |s.collectedData.trendingNotes| == s.collectedData.selectedCount)
    && (p.analysisCompleted ==>
      && s.analysisResult.Some? && |s.analysisResult.value.keyFindings| == 4
      && s.analysisResult.value.sourceNotes == NoteIds(s.collectedData.trendingNotes))
    && (p.contentCreated ==>
      && 5 <= |s.creationResult.images| <= 7 && s.creationResult.imageCount == |s.creationResult.images|
      && Contains(s.creationResult.title, s.userRequest.keyword)
      && Contains(s.creationResult.title, s.userRequest.category))
    && (p.linksGenerated ==>
      StartsWith(s.creationResult.downloadLink, DownloadPrefix) && StartsWith(s.creationResult.previewLink, PreviewPrefix))
  }
}
