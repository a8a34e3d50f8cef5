/**
 * The conversation record the bot keeps between messages, and the records
 * the mock pipeline fills in: collected notes, the analysis and the created
 * content.
 */
module State {
  import opened Wrappers

  /**
   * `currentStage`. The source keeps it as a string; `Unrecognised` stands for
   * any string other than the seven stage names.
   */
  datatype Stage =
    | Greeting
    | CollectingNeeds
    | ConfirmingInfo
    | Processing
    | ShowingResults
    | CollectingFeedback
    | Ending
    | Unrecognised

  datatype UserRequest = UserRequest(keyword: string, category: string, confirmed: bool)

  /** The four pipeline flags, in pipeline order. */
  datatype ProcessingStatus = ProcessingStatus(
    dataCollected: bool,
    analysisCompleted: bool,
    contentCreated: bool,
    linksGenerated: bool)

  datatype Author = Author(id: string, name: string, followers: nat)

  datatype Comment = Comment(user: string, content: string)

  datatype Engagement = Engagement(likes: nat, collects: nat, comments: nat, topComments: seq<Comment>)

  datatype TrendingNote = TrendingNote(
    id: string,
    title: string,
    author: Author,
    publishTime: string,
    category: string,
    content: string,
    images: seq<string>,
    tags: seq<string>,
    engagement: Engagement)

  datatype CollectedData = CollectedData(trendingNotes: seq<TrendingNote>, totalFound: nat, selectedCount: nat)

  datatype AnalysisResult = AnalysisResult(
    analysisId: string,
    timestamp: string,
    sourceNotes: seq<string>,
    keyFindings: seq<string>,
    successFactors: seq<string>)

  /** The `type` of a generated image. */
  datatype ImageRole = Cover | Product | Usage | Effect

  datatype Image = Image(url: string, role: ImageRole, width: nat, height: nat)

  /**
   * `creationResult`. `wordCount` and `imageCount` are absent from the record
   * the reset builds; they are 0 here.
   */
  datatype CreationResult = CreationResult(
    title: string,
    content: string,
    images: seq<Image>,
    tags: seq<string>,
    wordCount: nat,
    imageCount: nat,
    downloadLink: string,
    previewLink: string)

  datatype ConversationState = ConversationState(
    currentStage: Stage,
    userRequest: UserRequest,
    processingStatus: ProcessingStatus,
    collectedData: CollectedData,
    analysisResult: Option<AnalysisResult>,
    creationResult: CreationResult)

  /** What `resetConversationState` installs: the greeting stage and nothing gathered. */
  function FreshState(): (s: ConversationState)
    ensures s.currentStage == Greeting
    ensures s.userRequest.keyword == "" && s.userRequest.category == "" && !s.userRequest.confirmed
    ensures !s.processingStatus.dataCollected && !s.processingStatus.analysisCompleted
    ensures !s.processingStatus.contentCreated && !s.processingStatus.linksGenerated
    ensures s.collectedData.trendingNotes == [] && s.collectedData.totalFound == 0 && s.collectedData.selectedCount == 0
    ensures s.analysisResult.None?
    ensures s.creationResult.title == "" && s.creationResult.content == ""
    ensures s.creationResult.images == [] && s.creationResult.tags == []
    ensures s.creationResult.downloadLink == "" && s.creationResult.previewLink == ""
  {
    ConversationState(
      Greeting,
      UserRequest("", "", false),
      ProcessingStatus(false, false, false, false),
      CollectedData([], 0, 0),
      None,
      CreationResult("", "", [], [], 0, 0, "", ""))
  }

  /**
   * The text of a reply (`{type: 'text', content}`), by the template it comes
   * from and the values interpolated into it.
   */
  datatype Reply =
    | Welcome
    | ConfirmNeeds(keyword: string, category: string)
    | AskForCategory(keyword: string)
    | AskForKeyword(category: string)
    | AskForDetails
    | ProcessingStarted(keyword: string, category: string)
    | AskAgain
    | NotesCollected(totalFound: nat, selectedCount: nat)
    | AnalysisFinished
    | ContentFinished
    | Results(
        keyword: string,
        category: string,
        selectedCount: nat,
        findings: seq<string>,
        title: string,
        preview: string,
        imageCount: nat,
        downloadLink: string)
    | FeedbackRequest
    | Farewell(feedbackReply: string)
    | StillHere
    /** No reply: the call fails, as `showResults` does when it reads the findings of a missing analysis. */
    | Fault
}
