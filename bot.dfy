/**
 * The bot object: one conversation record, updated in place by each
 * message, with one method per stage handler and per pipeline step. Every
 * method is proved to do what the matching function of `Conversation` says.
 */
module Bot {
  import opened Wrappers
  import opened Text
  import opened State
  import opened Heuristics
  import opened Extraction
  import opened Generators
  import opened Conversation

  class XiaohongshuBot {
    var conversationState: ConversationState

    /** The keyword and category regular expressions of `extractKeywordAndCategory`, as matchers. */
    const keywordPatterns: seq<Matcher>
    const categoryPatterns: seq<Matcher>

    /** A new bot holds the fresh record. */
    constructor(keywordPatterns: seq<Matcher>, categoryPatterns: seq<Matcher>)
      ensures conversationState == FreshState()
      ensures this.keywordPatterns == keywordPatterns && this.categoryPatterns == categoryPatterns
    {
      this.keywordPatterns := keywordPatterns;
      this.categoryPatterns := categoryPatterns;
      new;
      ResetConversationState();
    }

    /**
     * `handleUserMessage`: the new record and the reply are those of
     * `Transition` (see `ConversationFacts` for what that keeps).
     */
    method HandleUserMessage(message: string, d: Draws) returns (reply: Reply)
      requires DrawsFit(conversationState.userRequest.category, d)
      modifies this
      ensures Outcome(conversationState, reply) == Transition(old(conversationState), message, keywordPatterns, categoryPatterns, d)
    {
      var before := conversationState;
      ghost var expected := Transition(before, message, keywordPatterns, categoryPatterns, d);
      match conversationState.currentStage
      case Greeting =>
        reply := HandleGreetingStage(message);
        assert Outcome(conversationState, reply) == expected;
      case CollectingNeeds =>
        reply := HandleCollectingNeedsStage(message);
        assert Outcome(conversationState, reply) == expected;
      case ConfirmingInfo =>
        reply := HandleConfirmingInfoStage(message);
        assert Outcome(conversationState, reply) == expected;
      case Processing =>
        reply := HandleProcessingStage(message, d);
        assert Outcome(conversationState, reply) == expected;
      case ShowingResults =>
        reply := HandleShowingResultsStage(message);
        assert Outcome(conversationState, reply) == expected;
      case CollectingFeedback =>
        reply := HandleCollectingFeedbackStage(message);
        assert Outcome(conversationState, reply) == expected;
      case Ending =>
        reply := HandleEndingStage(message);
        assert Outcome(conversationState, reply) == expected;
      case Unrecognised =>
        conversationState := conversationState.(currentStage := Greeting);
        reply := HandleGreetingStage(message);
        assert Outcome(conversationState, reply) == expected;
    }

    /** `handleGreetingStage`: reset, then collect needs. */
    method HandleGreetingStage(message: string) returns (reply: Reply)
      modifies this
      ensures Outcome(conversationState, reply) == Greet()
    {
      ResetConversationState();
      conversationState := conversationState.(currentStage := CollectingNeeds);
      reply := Welcome;
    }

    /** `handleCollectingNeedsStage`. */
    method HandleCollectingNeedsStage(message: string) returns (reply: Reply)
      modifies this
      ensures Outcome(conversationState, reply) == CollectNeeds(old(conversationState), message, keywordPatterns, categoryPatterns)
    {
      var keyword, category := ExtractKeywordAndCategory(message, keywordPatterns, categoryPatterns);
      if keyword != "" && category != "" {
        conversationState := conversationState.(userRequest := conversationState.userRequest.(keyword := keyword));
        conversationState := conversationState.(userRequest := conversationState.userRequest.(category := category));
        conversationState := conversationState.(currentStage := ConfirmingInfo);
        reply := ConfirmNeeds(keyword, category);
      } else if keyword != "" {
        conversationState := conversationState.(userRequest := conversationState.userRequest.(keyword := keyword));
        reply := AskForCategory(keyword);
      } else if category != "" {
        conversationState := conversationState.(userRequest := conversationState.userRequest.(category := category));
        reply := AskForKeyword(category);
      } else {
        reply := AskForDetails;
      }
    }

    /** `handleConfirmingInfoStage`. */
    method HandleConfirmingInfoStage(message: string) returns (reply: Reply)
      modifies this
      ensures Outcome(conversationState, reply) == Confirm(old(conversationState), message)
    {
      if IsUserConfirming(message) {
        conversationState := conversationState.(userRequest := conversationState.userRequest.(confirmed := true));
        conversationState := conversationState.(currentStage := Processing);
        reply := ProcessingStarted(conversationState.userRequest.keyword, conversationState.userRequest.category);
      } else {
        conversationState := conversationState.(currentStage := CollectingNeeds);
        conversationState := conversationState.(userRequest := conversationState.userRequest.(keyword := ""));
        conversationState := conversationState.(userRequest := conversationState.userRequest.(category := ""));
        reply := AskAgain;
      }
    }

    /** `handleProcessingStage`: the message is not read. */
    method HandleProcessingStage(message: string, d: Draws) returns (reply: Reply)
      requires DrawsFit(conversationState.userRequest.category, d)
      modifies this
      ensures Outcome(conversationState, reply) == Process(old(conversationState), d)
    {
      var status := conversationState.processingStatus;
      if !status.dataCollected {
        reply := RunCollectStep(d);
      } else if !status.analysisCompleted {
        reply := RunAnalyzeStep(d);
      } else if !status.contentCreated {
        reply := RunCreateStep(d);
      } else if !status.linksGenerated {
        reply := RunLinkStep(d);
      } else {
        conversationState := conversationState.(currentStage := ShowingResults);
        reply := ShowResults();
      }
    }

    /** The first branch of `handleProcessingStage`. */
    method RunCollectStep(d: Draws) returns (reply: Reply)
      requires DrawsFit(conversationState.userRequest.category, d)
      modifies this
      ensures Outcome(conversationState, reply) == CollectStep(old(conversationState), d)
    {
      var status := conversationState.processingStatus;
      CollectTrendingNotes(d);
      conversationState := conversationState.(processingStatus := status.(dataCollected := true));
      reply := NotesCollected(conversationState.collectedData.totalFound, conversationState.collectedData.selectedCount);
    }

    /** The second branch of `handleProcessingStage`. */
    method RunAnalyzeStep(d: Draws) returns (reply: Reply)
      requires DrawsFit(conversationState.userRequest.category, d)
      modifies this
      ensures Outcome(conversationState, reply) == AnalyzeStep(old(conversationState), d)
    {
      var status := conversationState.processingStatus;
      AnalyzeContent(d);
      conversationState := conversationState.(processingStatus := status.(analysisCompleted := true));
      reply := AnalysisFinished;
    }

    /** The third branch of `handleProcessingStage`. */
    method RunCreateStep(d: Draws) returns (reply: Reply)
      requires DrawsFit(conversationState.userRequest.category, d)
      modifies this
      ensures Outcome(conversationState, reply) == CreateStep(old(conversationState), d)
    {
      var status := conversationState.processingStatus;
      CreateContent(d);
      conversationState := conversationState.(processingStatus := status.(contentCreated := true));
      reply := ContentFinished;
    }

    /** The fourth branch of `handleProcessingStage`. */
    method RunLinkStep(d: Draws) returns (reply: Reply)
      modifies this
      ensures Outcome(conversationState, reply) == LinkStep(old(conversationState), d)
    {
      var status := conversationState.processingStatus;
      GenerateDownloadLinks(d.downloadId, d.previewId);
      conversationState := conversationState.(processingStatus := status.(linksGenerated := true));
      conversationState := conversationState.(currentStage := ShowingResults);
      reply := ShowResults();
    }

    /** `handleShowingResultsStage`. */
    method HandleShowingResultsStage(message: string) returns (reply: Reply)
      modifies this
      ensures Outcome(conversationState, reply) == RequestFeedback(old(conversationState))
    {
      conversationState := conversationState.(currentStage := CollectingFeedback);
      reply := FeedbackRequest;
    }

    /** `handleCollectingFeedbackStage`. */
    method HandleCollectingFeedbackStage(message: string) returns (reply: Reply)
      modifies this
      ensures Outcome(conversationState, reply) == ThankForFeedback(old(conversationState), message)
    {
      conversationState := conversationState.(currentStage := Ending);
      var feedback := AnalyzeFeedback(message);
      reply := Farewell(feedback.responseMessage);
    }

    /** `handleEndingStage`. */
    method HandleEndingStage(message: string) returns (reply: Reply)
      modifies this
      ensures Outcome(conversationState, reply) == CloseOrRestart(old(conversationState), message)
    {
      if IsNewRequest(message) {
        reply := HandleGreetingStage(message);
      } else {
        reply := StillHere;
      }
    }

    /** `showResults`: reads the record, changes nothing. */
    method ShowResults() returns (reply: Reply)
      ensures reply == ResultsReply(conversationState)
    {
      match conversationState.analysisResult
      case None =>
        reply := Fault;
      case Some(analysis) =>
        var creation := conversationState.creationResult;
        reply := Results(
          conversationState.userRequest.keyword,
          conversationState.userRequest.category,
          conversationState.collectedData.selectedCount,
          FirstFour(analysis.keyFindings),
          creation.title,
          Preview(creation.content),
          |creation.images|,
          creation.downloadLink);
    }

    /** `collectTrendingNotes`: the counts first, then as many notes as were selected. */
    method CollectTrendingNotes(d: Draws)
      requires DrawsFit(conversationState.userRequest.category, d)
      modifies this
      ensures conversationState == Collect(old(conversationState), d)
    {
      var totalFound := d.totalFound + 20;
      var selectedCount := d.selected + 5;
      conversationState := conversationState.(collectedData :=
        conversationState.collectedData.(totalFound := totalFound, selectedCount := selectedCount));
      var request := conversationState.userRequest;
      var notes := GenerateMockTrendingNotes(request.keyword, request.category, d.notes);
      conversationState := conversationState.(collectedData := conversationState.collectedData.(trendingNotes := notes));
    }

    /** `analyzeContent`. */
    method AnalyzeContent(d: Draws)
      requires DrawsFit(conversationState.userRequest.category, d)
      modifies this
      ensures conversationState == Analyze(old(conversationState), d)
    {
      var request := conversationState.userRequest;
      var analysis := MockAnalysisResult(request.keyword, request.category, conversationState.collectedData.trendingNotes, d.analysis);
      conversationState := conversationState.(analysisResult := Some(analysis));
    }

    /** `createContent`: the created record replaces the old one whole. */
    method CreateContent(d: Draws)
      requires DrawsFit(conversationState.userRequest.category, d)
      modifies this
      ensures conversationState == Create(old(conversationState), d)
    {
      var request := conversationState.userRequest;
      var creation := GenerateMockCreationResult(request.keyword, request.category, d.creation);
      conversationState := conversationState.(creationResult := creation);
    }

    /** `generateDownloadLinks`. */
    method GenerateDownloadLinks(downloadId: string, previewId: string)
      modifies this
      ensures conversationState == Link(old(conversationState), downloadId, previewId)
    {
      var downloadLink := DownloadPrefix + downloadId;
      var previewLink := PreviewPrefix + previewId;
      conversationState := conversationState.(creationResult := conversationState.creationResult.(downloadLink := downloadLink));
      conversationState := conversationState.(creationResult := conversationState.creationResult.(previewLink := previewLink));
    }

    /** `resetConversationState`. */
    method ResetConversationState()
      modifies this
      ensures conversationState == FreshState()
    {
      conversationState := FreshState();
    }
  }
}
