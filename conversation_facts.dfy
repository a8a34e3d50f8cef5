/**
 * What the dialogue promises: how each stage moves, that the record stays
 * consistent from the first message on, and that the results report never
 * fails on a consistent record.
 */
module ConversationFacts {
  import opened Wrappers
  import opened Text
  import opened State
  import opened Heuristics
  import opened Extraction
  import opened Generators
  import opened Conversation

  /** A greeting or unrecognised stage resets everything and moves to collecting needs, whatever the message. */
  lemma GreetingResets(s: ConversationState, message: string, kp: seq<Matcher>, cp: seq<Matcher>, d: Draws)
    requires s.currentStage == Greeting || s.currentStage == Unrecognised
    requires DrawsFit(s.userRequest.category, d)
    ensures var o := Transition(s, message, kp, cp, d);
      && o.reply == Welcome
      && o.state.currentStage == CollectingNeeds
      && o.state.userRequest == UserRequest("", "", false)
      && NoFlags(o.state.processingStatus)
      && o.state.collectedData == CollectedData([], 0, 0)
      && o.state.analysisResult == None
      && o.state.creationResult == FreshState().creationResult
  {
  }

  /**
   * Collecting needs moves on to confirmation exactly when both a keyword and
   * a category are extracted from the lower-cased message, and stays put
   * otherwise; each non-empty extraction replaces the stored value, an empty
   * one keeps it; nothing is confirmed or processed.
   */
  lemma CollectingNeedsAdvancesIffBoth(s: ConversationState, message: string, kp: seq<Matcher>, cp: seq<Matcher>, d: Draws)
    requires s.currentStage == CollectingNeeds
    requires DrawsFit(s.userRequest.category, d)
    ensures var o := Transition(s, message, kp, cp, d);
      var keyword := KeywordOf(ToLower(message), kp);
      var category := CategoryOf(ToLower(message), cp);
      && (o.state.currentStage == ConfirmingInfo <==> keyword != "" && category != "")
      && (o.state.currentStage != ConfirmingInfo ==> o.state.currentStage == CollectingNeeds)
      && o.state.userRequest.keyword == (if keyword != "" then keyword else s.userRequest.keyword)
      && o.state.userRequest.category == (if category != "" then category else s.userRequest.category)
      && o.state.userRequest.confirmed == s.userRequest.confirmed
      && o.state == s.(currentStage := o.state.currentStage, userRequest := o.state.userRequest)
      && o.state.processingStatus == s.processingStatus
  {
  }

  /**
   * The confirmation gate: processing starts, and the request is marked
   * confirmed, exactly when the message confirms; otherwise keyword and
   * category are cleared and needs are collected again.
   */
  lemma ConfirmationGate(s: ConversationState, message: string, kp: seq<Matcher>, cp: seq<Matcher>, d: Draws)
    requires s.currentStage == ConfirmingInfo && !s.userRequest.confirmed
    requires DrawsFit(s.userRequest.category, d)
    ensures var o := Transition(s, message, kp, cp, d);
      && (o.state.currentStage == Processing <==> IsUserConfirming(message))
      && (o.state.userRequest.confirmed <==> IsUserConfirming(message))
      && (IsUserConfirming(message) ==>
        o.reply == ProcessingStarted(s.userRequest.keyword, s.userRequest.category)
        && o.state.userRequest.keyword == s.userRequest.keyword
        && o.state.userRequest.category == s.userRequest.category)
      && (!IsUserConfirming(message) ==>
        o.reply == AskAgain && o.state.currentStage == CollectingNeeds
        && o.state.userRequest.keyword == "" && o.state.userRequest.category == "")
      && o.state == s.(currentStage := o.state.currentStage, userRequest := o.state.userRequest)
      && o.state.processingStatus == s.processingStatus
  {
  }

  /** Showing results asks for feedback and changes nothing else. */
  lemma ShowingResultsAsksForFeedback(s: ConversationState, message: string, kp: seq<Matcher>, cp: seq<Matcher>, d: Draws)
    requires s.currentStage == ShowingResults
    requires DrawsFit(s.userRequest.category, d)
    ensures var o := Transition(s, message, kp, cp, d);
      o.reply == FeedbackRequest && o.state == s.(currentStage := CollectingFeedback)
  {
  }

  /**
   * Any feedback ends the conversation and changes nothing else; the answer
   * opens with the reply for the tone the feedback shows and ends with the
   * suggestion note exactly when it makes a suggestion.
   */
  lemma FeedbackEndsConversation(s: ConversationState, message: string, kp: seq<Matcher>, cp: seq<Matcher>, d: Draws)
    requires s.currentStage == CollectingFeedback
    requires DrawsFit(s.userRequest.category, d)
    ensures var o := Transition(s, message, kp, cp, d);
      var f := AnalyzeFeedback(message);
      && o.state == s.(currentStage := Ending)
      && o.reply.Farewell?
      && StartsWith(o.reply.feedbackReply, ToneReply(f.isPositive, f.isNegative))
      && (f.hasSuggestion <==> EndsWith(o.reply.feedbackReply, SuggestionNote))
  {
  }

  /** The ending stage starts over on a new request and otherwise stays as it is. */
  lemma EndingRestartsOnlyOnNewRequest(s: ConversationState, message: string, kp: seq<Matcher>, cp: seq<Matcher>, d: Draws)
    requires s.currentStage == Ending
    requires DrawsFit(s.userRequest.category, d)
    ensures var o := Transition(s, message, kp, cp, d);
      && (IsNewRequest(message) ==> o.state == Restarted() && o.reply == Welcome)
      && (!IsNewRequest(message) ==> o.state == s && o.reply == StillHere)
  {
  }

  /** What the user says while processing does not matter: only the draws do. */
  lemma ProcessingIgnoresMessage(s: ConversationState, m1: string, m2: string, kp: seq<Matcher>, cp: seq<Matcher>, d: Draws)
    requires s.currentStage == Processing
    requires DrawsFit(s.userRequest.category, d)
    ensures Transition(s, m1, kp, cp, d) == Transition(s, m2, kp, cp, d)
  {
  }

  /**
   * On a consistent record each message during processing completes exactly
   * one more pipeline step, in order, without touching the request; the
   * fourth moves on to the results.
   */
  lemma ProcessingAdvancesOneStep(s: ConversationState, message: string, kp: seq<Matcher>, cp: seq<Matcher>, d: Draws)
    requires Consistent(s) && s.currentStage == Processing
    requires DrawsFit(s.userRequest.category, d)
    ensures var o := Transition(s, message, kp, cp, d);
      && FlagCount(o.state.processingStatus) == FlagCount(s.processingStatus) + 1
      && FlagsInOrder(o.state.processingStatus)
      && o.state.currentStage == (if o.state.processingStatus.linksGenerated then ShowingResults else Processing)
      && o.state.userRequest == s.userRequest
  {
  }

  /** A conversation starts consistent: the constructor's record, and the one every restart leaves. */
  lemma StartIsConsistent()
    ensures Consistent(FreshState())
    ensures Consistent(Restarted())
  {
  }

  /** Collecting the notes, the first step, leaves a consistent record. */
  lemma CollectStepIsConsistent(s: ConversationState, d: Draws)
    requires Consistent(s) && s.currentStage == Processing && !s.processingStatus.dataCollected
    requires DrawsFit(s.userRequest.category, d)
    ensures Consistent(Process(s, d).state)
  {
    var c := Collect(s, d);
    assert Process(s, d).state == c.(processingStatus := s.processingStatus.(dataCollected := true));
  }

  /** Analysing the collected notes, the second step, leaves a consistent record. */
  lemma AnalyzeStepIsConsistent(s: ConversationState, d: Draws)
    requires Consistent(s) && s.currentStage == Processing
    requires s.processingStatus.dataCollected && !s.processingStatus.analysisCompleted
    requires DrawsFit(s.userRequest.category, d)
    ensures Consistent(Process(s, d).state)
  {
    var a := Analyze(s, d);
    assert Process(s, d).state == a.(processingStatus := s.processingStatus.(analysisCompleted := true));
  }

  /** Creating the content, the third step, leaves a consistent record. */
  lemma CreateStepIsConsistent(s: ConversationState, d: Draws)
    requires Consistent(s) && s.currentStage == Processing
    requires s.processingStatus.analysisCompleted && !s.processingStatus.contentCreated
    requires DrawsFit(s.userRequest.category, d)
    ensures Consistent(Process(s, d).state)
  {
    var c := Create(s, d);
    CreationShape(s.userRequest.keyword, s.userRequest.category, d.creation);
    assert Process(s, d).state == c.(processingStatus := s.processingStatus.(contentCreated := true));
  }

  /** Generating the links, the last step, leaves a consistent record showing the results. */
  lemma LinkStepIsConsistent(s: ConversationState, d: Draws)
    requires Consistent(s) && s.currentStage == Processing && s.processingStatus.contentCreated
    requires DrawsFit(s.userRequest.category, d)
    ensures Consistent(Process(s, d).state)
  {
    var l := Link(s, d.downloadId, d.previewId);
    assert Process(s, d).state == l.(processingStatus := s.processingStatus.(linksGenerated := true), currentStage := ShowingResults);
  }

  /** Processing keeps the record consistent: each step fills in what its flag promises. */
  lemma ProcessPreservesConsistency(s: ConversationState, d: Draws)
    requires Consistent(s) && s.currentStage == Processing
    requires DrawsFit(s.userRequest.category, d)
    ensures Consistent(Process(s, d).state)
  {
    var p := s.processingStatus;
    if !p.dataCollected {
      CollectStepIsConsistent(s, d);
    } else if !p.analysisCompleted {
      AnalyzeStepIsConsistent(s, d);
    } else if !p.contentCreated {
      CreateStepIsConsistent(s, d);
    } else {
      LinkStepIsConsistent(s, d);
    }
  }

  /** The stages around processing keep the record consistent. */
  lemma DialogueStepsAreConsistent(s: ConversationState, message: string, kp: seq<Matcher>, cp: seq<Matcher>)
    requires Consistent(s)
    ensures s.currentStage == CollectingNeeds ==> Consistent(CollectNeeds(s, message, kp, cp).state)
    ensures s.currentStage == ConfirmingInfo ==> Consistent(Confirm(s, message).state)
    ensures s.currentStage == ShowingResults ==> Consistent(RequestFeedback(s).state)
    ensures s.currentStage == CollectingFeedback ==> Consistent(ThankForFeedback(s, message).state)
    ensures s.currentStage == Ending ==> Consistent(CloseOrRestart(s, message).state)
  {
    StartIsConsistent();
  }

  /** Every message keeps the record consistent, so every record a conversation reaches is. */
  lemma TransitionPreservesConsistency(s: ConversationState, message: string, kp: seq<Matcher>, cp: seq<Matcher>, d: Draws)
    requires Consistent(s)
    requires DrawsFit(s.userRequest.category, d)
    ensures Consistent(Transition(s, message, kp, cp, d).state)
  {
    if s.currentStage == Processing {
      ProcessPreservesConsistency(s, d);
    } else if s.currentStage == Greeting {
      StartIsConsistent();
    } else {
      DialogueStepsAreConsistent(s, message, kp, cp);
    }
  }

  /**
   * The report the last pipeline step shows, on a consistent record: never a
   * failure, with the four findings of the analysis, 5 to 9 analysed notes,
   * 5 to 7 images and a download link under its prefix.
   */
  lemma LinkStepReport(s: ConversationState, d: Draws)
    requires Consistent(s) && s.currentStage == Processing && s.processingStatus.contentCreated
    ensures var o := LinkStep(s, d);
      && o.reply.Results?
      && o.state.currentStage == ShowingResults
      && o.reply.findings == o.state.analysisResult.value.keyFindings
      && 5 <= o.reply.selectedCount < 10
      && 5 <= o.reply.imageCount <= 7
      && StartsWith(o.reply.downloadLink, DownloadPrefix)
  {
    var o := LinkStep(s, d);
    assert o.state.analysisResult == s.analysisResult;
    assert o.state.creationResult.images == s.creationResult.images;
  }

  /** The first three pipeline steps only report their progress. */
  lemma EarlyStepsReportProgress(s: ConversationState, d: Draws)
    requires !s.processingStatus.contentCreated
    requires DrawsFit(s.userRequest.category, d)
    ensures var r := Process(s, d).reply; r.NotesCollected? || r == AnalysisFinished || r == ContentFinished
  {
    var p := s.processingStatus;
    if !p.dataCollected {
      CollectStepReply(s, d);
    } else if !p.analysisCompleted {
      AnalyzeStepReply(s, d);
    } else {
      CreateStepReply(s, d);
    }
  }

  lemma CollectStepReply(s: ConversationState, d: Draws)
    requires !s.processingStatus.dataCollected && DrawsFit(s.userRequest.category, d)
    ensures Process(s, d).reply.NotesCollected?
  {
    assert Process(s, d) == CollectStep(s, d);
  }

  lemma AnalyzeStepReply(s: ConversationState, d: Draws)
    requires s.processingStatus.dataCollected && !s.processingStatus.analysisCompleted
    requires DrawsFit(s.userRequest.category, d)
    ensures Process(s, d).reply == AnalysisFinished
  {
    assert Process(s, d) == AnalyzeStep(s, d);
  }

  lemma CreateStepReply(s: ConversationState, d: Draws)
    requires s.processingStatus.dataCollected && s.processingStatus.analysisCompleted && !s.processingStatus.contentCreated
    requires DrawsFit(s.userRequest.category, d)
    ensures Process(s, d).reply == ContentFinished
  {
    assert Process(s, d) == CreateStep(s, d);
  }

  /** Only the last pipeline step shows results, so no other message can fail. */
  lemma NoReportBeforeLinks(s: ConversationState, message: string, kp: seq<Matcher>, cp: seq<Matcher>, d: Draws)
    requires !(s.currentStage == Processing && s.processingStatus.contentCreated)
    requires DrawsFit(s.userRequest.category, d)
    ensures var r := Transition(s, message, kp, cp, d).reply; !r.Results? && r != Fault
  {
    if s.currentStage == Processing {
      EarlyStepsReportProgress(s, d);
    }
  }

  /**
   * On a consistent record `showResults` never fails: when results are shown
   * they report the four findings of the analysis, 5 to 9 analysed notes,
   * 5 to 7 images and a download link under its prefix.
   */
  lemma ResultsNeverFail(s: ConversationState, message: string, kp: seq<Matcher>, cp: seq<Matcher>, d: Draws)
    requires Consistent(s)
    requires DrawsFit(s.userRequest.category, d)
    ensures var o := Transition(s, message, kp, cp, d);
      && o.reply != Fault
      && (o.reply.Results? ==>
        && o.state.currentStage == ShowingResults
        && o.reply.findings == o.state.analysisResult.value.keyFindings
        && 5 <= o.reply.selectedCount < 10
        && 5 <= o.reply.imageCount <= 7
        && StartsWith(o.reply.downloadLink, DownloadPrefix))
  {
    if s.currentStage == Processing && s.processingStatus.contentCreated {
      assert Transition(s, message, kp, cp, d) == LinkStep(s, d);
      LinkStepReport(s, d);
    } else {
      NoReportBeforeLinks(s, message, kp, cp, d);
    }
  }

  /**
   * Flags are only ever cleared by starting over: every other message keeps
   * each pipeline step that was done, done.
   */
  lemma FlagsClearedOnlyByRestart(s: ConversationState, message: string, kp: seq<Matcher>, cp: seq<Matcher>, d: Draws)
    requires DrawsFit(s.userRequest.category, d)
    ensures var o := Transition(s, message, kp, cp, d);
      var (p, q) := (s.processingStatus, o.state.processingStatus);
      || o.state == Restarted()
      || ((p.dataCollected ==> q.dataCollected) && (p.analysisCompleted ==> q.analysisCompleted)
        && (p.contentCreated ==> q.contentCreated) && (p.linksGenerated ==> q.linksGenerated))
  {
  }

  /**
   * Once processing starts, four messages run the whole pipeline: the first
   * three report collection, analysis and creation and stay in processing;
   * the fourth shows the results, with all four steps done.
   */
  lemma ProcessingTakesFourMessages(s: ConversationState, m1: string, m2: string, m3: string, m4: string,
                                    kp: seq<Matcher>, cp: seq<Matcher>, d1: Draws, d2: Draws, d3: Draws, d4: Draws)
    requires Consistent(s) && s.currentStage == Processing && NoFlags(s.processingStatus)
    requires var c := s.userRequest.category; DrawsFit(c, d1) && DrawsFit(c, d2) && DrawsFit(c, d3) && DrawsFit(c, d4)
    ensures var o1 := Transition(s, m1, kp, cp, d1);
      && o1.state.userRequest == s.userRequest
      && var o2 := Transition(o1.state, m2, kp, cp, d2);
      && o2.state.userRequest == s.userRequest
      && var o3 := Transition(o2.state, m3, kp, cp, d3);
      && o3.state.userRequest == s.userRequest
      && var o4 := Transition(o3.state, m4, kp, cp, d4);
      && o1.reply.NotesCollected? && o2.reply == AnalysisFinished && o3.reply == ContentFinished
      && o3.state.currentStage == Processing
      && o4.reply.Results? && o4.state.currentStage == ShowingResults && AllFlags(o4.state.processingStatus)
  {
    var o1 := Transition(s, m1, kp, cp, d1);
    ProcessingAdvancesOneStep(s, m1, kp, cp, d1);
    ProcessPreservesConsistency(s, d1);
    var o2 := Transition(o1.state, m2, kp, cp, d2);
    ProcessingAdvancesOneStep(o1.state, m2, kp, cp, d2);
    ProcessPreservesConsistency(o1.state, d2);
    var o3 := Transition(o2.state, m3, kp, cp, d3);
    ProcessingAdvancesOneStep(o2.state, m3, kp, cp, d3);
    ProcessPreservesConsistency(o2.state, d3);
    ProcessingAdvancesOneStep(o3.state, m4, kp, cp, d4);
    ResultsNeverFail(o3.state, m4, kp, cp, d4);
  }
}
