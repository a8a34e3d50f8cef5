# Xiaohongshu content bot — a verified model

This project models `XiaohongshuBot` (`src/lib/xiaohongshuBot.ts`). The bot is a chat assistant. It asks a
user for a keyword and a content category. It then runs a mock pipeline: it collects trending notes,
analyses them, writes a new note with images and tags, and generates download and preview links. Finally
it shows the results and asks for feedback.

The conversation has seven stages:

1. greeting
2. collecting needs
3. confirming the information
4. processing (one pipeline step per message)
5. showing results
6. collecting feedback
7. ending

The model has four layers:

- `Text` (text.dfy): the JavaScript string operations the bot uses, namely `toLowerCase`, `trim`,
  `includes`, `startsWith`, UTF-16 `length` and decimal formatting.
- `Heuristics` (heuristics.dfy): the keyword tests `isUserConfirming`, `isNewRequest` and
  `analyzeFeedback`.
- `Extraction` (extraction.dfy): `extractKeywordAndCategory`, including the exact fallback tokenizer
  and the leftmost category-word search.
- `Generators` (generators.dfy): the mock generators for titles, prose, tags, images, comments,
  notes, the analysis and the creation.

On top of these layers:

- `State` (state.dfy) holds the conversation record.
- `Conversation` (conversation.dfy) writes each stage handler as a pure transition
  `(record, message) -> (record, reply)`.
- `ConversationFacts` (conversation_facts.dfy) proves the dialogue properties.
- `Bot` (bot.dfy) is the class itself. Its field `conversationState` is updated in place by one
  method per handler of the source. Each method is proved to perform exactly the transition that
  `Conversation` defines.

Every `Math.random()` draw is an explicit natural-number argument, and its range is the precondition
(`Draws`, `NoteDraws`, `CreationDraws`, …). Every id from `generateUniqueId` and every timestamp is a
string argument.

## Model

| member | source | states |
|---|---|---|
| Bot.XiaohongshuBot.constructor | src/lib/xiaohongshuBot.ts:40-42 | a new bot starts in the greeting stage with nothing requested, no pipeline flag set and nothing collected |
| Bot.XiaohongshuBot.HandleUserMessage | src/lib/xiaohongshuBot.ts:47-76 | the new record and the reply are the dispatch on the old stage: each stage goes to its handler, and an unknown stage is repaired to greeting |
| Bot.XiaohongshuBot.HandleGreetingStage | src/lib/xiaohongshuBot.ts:81-95 | the record is reset, the stage becomes collecting needs, and the reply is the welcome text |
| Bot.XiaohongshuBot.HandleCollectingNeedsStage | src/lib/xiaohongshuBot.ts:100-169 | whatever the message yields for keyword and category is stored when non-empty; the bot asks for what the message lacked and moves to confirmation only when this one message yields both |
| Bot.XiaohongshuBot.HandleConfirmingInfoStage | src/lib/xiaohongshuBot.ts:174-211 | a confirming answer sets `confirmed` and starts processing; any other answer clears keyword and category and returns to collecting needs |
| Bot.XiaohongshuBot.HandleProcessingStage | src/lib/xiaohongshuBot.ts:216-283 | exactly the first pipeline step whose flag is still clear is run; once all four are done the results are shown |
| Bot.XiaohongshuBot.RunCollectStep | src/lib/xiaohongshuBot.ts:220-234 | collects notes, sets `dataCollected`, and reports the found and selected counts |
| Bot.XiaohongshuBot.RunAnalyzeStep | src/lib/xiaohongshuBot.ts:235-249 | analyses the collected notes and sets `analysisCompleted` |
| Bot.XiaohongshuBot.RunCreateStep | src/lib/xiaohongshuBot.ts:250-263 | creates the note and sets `contentCreated` |
| Bot.XiaohongshuBot.RunLinkStep | src/lib/xiaohongshuBot.ts:263-275 | generates the links, sets `linksGenerated`, moves to showing results, and replies with the results |
| Bot.XiaohongshuBot.HandleShowingResultsStage | src/lib/xiaohongshuBot.ts:288-303 | the stage becomes collecting feedback, and the reply asks for feedback |
| Bot.XiaohongshuBot.HandleCollectingFeedbackStage | src/lib/xiaohongshuBot.ts:308-324 | the stage becomes ending, and the reply carries the feedback analysis' response |
| Bot.XiaohongshuBot.HandleEndingStage | src/lib/xiaohongshuBot.ts:329-343 | a new request restarts the dialogue at collecting needs; anything else leaves the record as it is |
| Bot.XiaohongshuBot.ShowResults | src/lib/xiaohongshuBot.ts:348-376 | the results reply is built from the record and changes nothing |
| Bot.XiaohongshuBot.CollectTrendingNotes | src/lib/xiaohongshuBot.ts:381-408 | only the collected data changes (see `Conversation.Collect`) |
| Bot.XiaohongshuBot.AnalyzeContent | src/lib/xiaohongshuBot.ts:413-432 | only the analysis result changes (see `Conversation.Analyze`) |
| Bot.XiaohongshuBot.CreateContent | src/lib/xiaohongshuBot.ts:437-459 | only the creation result changes (see `Generators.CreationShape`) |
| Bot.XiaohongshuBot.GenerateDownloadLinks | src/lib/xiaohongshuBot.ts:464-484 | only the two links of the creation result change (see `Conversation.Link`) |
| Bot.XiaohongshuBot.ResetConversationState | src/lib/xiaohongshuBot.ts:686-715 | the record becomes the empty greeting-stage record |
| Conversation.Collect | src/lib/xiaohongshuBot.ts:381-408 | 20 to 49 notes are found and 5 to 9 selected; exactly the selected number of notes is generated, all in the requested category; nothing else in the record changes |
| Conversation.Analyze | src/lib/xiaohongshuBot.ts:413-432 | an analysis is present afterwards, with four findings and the ids of the collected notes in order; nothing else changes |
| Conversation.Link | src/lib/xiaohongshuBot.ts:464-484 | the download and preview links start with their URL prefixes; nothing else in the record changes |
| Conversation.Preview | src/lib/xiaohongshuBot.ts:365 | the preview is a prefix of the content, of at most 200 characters; the whole content when it is short, exactly 200 characters otherwise |
| Conversation.FirstFour | src/lib/xiaohongshuBot.ts:356-359 | the results list four findings, and they are the first four when the analysis has at least four |
| Conversation.ResultsReply | src/lib/xiaohongshuBot.ts:348-376 | building the results fails exactly when no analysis exists; otherwise the reply shows the requested keyword and category, the selected count, the first four findings, the title, the 200-character preview of the content, the image count and the download link |
| Conversation.Transition | src/lib/xiaohongshuBot.ts:47-76 | the outcome of one message: the handler of the current stage, with an unknown stage handled as greeting; its properties are the `ConversationFacts` lemmas, above all `TransitionPreservesConsistency` and `ResultsNeverFail` |
| Conversation.Greet | src/lib/xiaohongshuBot.ts:81-95 | the greeting handler: the reset record moved to collecting needs, with the welcome; stated by `ConversationFacts.GreetingResets` |
| Conversation.CollectNeeds | src/lib/xiaohongshuBot.ts:100-169 | the four branches of the needs handler on what the lower-cased message yields; stated by `ConversationFacts.CollectingNeedsAdvancesIffBoth` |
| Conversation.Confirm | src/lib/xiaohongshuBot.ts:174-211 | the confirmation handler; stated by `ConversationFacts.ConfirmationGate` |
| Conversation.Process | src/lib/xiaohongshuBot.ts:216-283 | the processing handler, which runs the first step whose flag is clear; stated by `ConversationFacts.ProcessingAdvancesOneStep` and `ProcessingTakesFourMessages` |
| Conversation.RequestFeedback | src/lib/xiaohongshuBot.ts:288-303 | the results handler; stated by `ConversationFacts.ShowingResultsAsksForFeedback` |
| Conversation.ThankForFeedback | src/lib/xiaohongshuBot.ts:308-324 | the feedback handler; stated by `ConversationFacts.FeedbackEndsConversation` |
| Conversation.CloseOrRestart | src/lib/xiaohongshuBot.ts:329-343 | the ending handler; stated by `ConversationFacts.EndingRestartsOnlyOnNewRequest` |
| ConversationFacts.GreetingResets | src/lib/xiaohongshuBot.ts:71-95 | from greeting or an unknown stage, any message yields the welcome and a fully cleared record in collecting needs |
| ConversationFacts.CollectingNeedsAdvancesIffBoth | src/lib/xiaohongshuBot.ts:100-169 | the dialogue moves to confirmation iff this one message yields both a keyword and a category (one remembered from an earlier message does not help), and otherwise stays; each field is overwritten only by a non-empty extraction; nothing else changes |
| ConversationFacts.ConfirmationGate | src/lib/xiaohongshuBot.ts:174-211 | processing starts iff the answer confirms, keeping the request; otherwise the bot asks again with keyword and category cleared; only the stage and the request change, and the collected data, analysis and created note stay as they were |
| ConversationFacts.ShowingResultsAsksForFeedback | src/lib/xiaohongshuBot.ts:288-303 | showing results only changes the stage to collecting feedback |
| ConversationFacts.FeedbackEndsConversation | src/lib/xiaohongshuBot.ts:308-324 | feedback moves to ending, and the reply opens with the tone reply of the detected flags and closes with the suggestion note iff a suggestion was detected |
| ConversationFacts.EndingRestartsOnlyOnNewRequest | src/lib/xiaohongshuBot.ts:329-343 | in the ending stage a new request restarts the dialogue, and any other message leaves the record untouched |
| ConversationFacts.ProcessingIgnoresMessage | src/lib/xiaohongshuBot.ts:216-283 | in the processing stage the message text has no influence on the outcome |
| ConversationFacts.ProcessingAdvancesOneStep | src/lib/xiaohongshuBot.ts:216-283 | each processing message sets exactly one more flag, keeps the flags in pipeline order, keeps the request, and leaves processing exactly when the links are done |
| ConversationFacts.ProcessingTakesFourMessages | src/lib/xiaohongshuBot.ts:216-283 | from a fresh processing stage, four messages produce the collection, analysis, creation and results replies in that order, ending in showing results with all flags set |
| ConversationFacts.TransitionPreservesConsistency | src/lib/xiaohongshuBot.ts:47-76 | every message keeps the record consistent: flags in pipeline order, each flag matching the stage and the data present, and results only after processing |
| ConversationFacts.ResultsNeverFail | src/lib/xiaohongshuBot.ts:263-283 | from a consistent record the results step never hits the missing-analysis crash, and the results it shows list the analysis' findings, 5 to 9 notes, 5 to 7 images and a download link |
| ConversationFacts.FlagsClearedOnlyByRestart | src/lib/xiaohongshuBot.ts:47-343 | a pipeline flag once set stays set unless the whole record is reset |
| Extraction.ExtractKeywordAndCategory | src/lib/xiaohongshuBot.ts:489-543 | the keyword and the category are those that `KeywordOfSpec` and `CategoryOfSpec` characterise, taken from the lower-cased message |
| Extraction.FindCapturedKeyword | src/lib/xiaohongshuBot.ts:505-511 | the loop over the keyword patterns stops at the first one that captures and yields its trimmed capture (`CapturedKeywordIsFirst`) |
| Extraction.FindFallbackKeyword | src/lib/xiaohongshuBot.ts:519-524 | the loop over the split pieces stops at the first acceptable piece (`FirstCandidateIs`) |
| Extraction.KeywordOf | src/lib/xiaohongshuBot.ts:497-525 | the keyword of the lower-cased message, characterised by `KeywordOfSpec` |
| Extraction.CapturedKeywordIsFirst | src/lib/xiaohongshuBot.ts:505-511 | the captured keyword is the trimmed capture of the first pattern that captures, whatever later patterns yield |
| Extraction.FirstCandidateIs | src/lib/xiaohongshuBot.ts:519-524 | the fallback takes the first acceptable piece, whatever pieces follow it |
| Extraction.CategoryOf | src/lib/xiaohongshuBot.ts:527-540 | the category of the lower-cased message, characterised by `CategoryOfSpec` |
| Extraction.LeftmostCategoryWord | src/lib/xiaohongshuBot.ts:531 | the alternation of the fourteen category words finds a category word at the leftmost position where any occurs, and finds none iff no category word occurs |
| Extraction.Split | src/lib/xiaohongshuBot.ts:517 | the pieces of the split; never an empty list; where the pieces break is fixed by `SplitAtPunctuation`, `SplitAtSpaceRun` and `SplitOfPlain` |
| Extraction.KeywordOfSpec | src/lib/xiaohongshuBot.ts:497-525 | the first capturing pattern decides the keyword (its trimmed capture) unless that capture is blank; otherwise the keyword is the first split piece of two or more UTF-16 units with no category word, or empty when there is no such piece |
| Extraction.CategoryOfSpec | src/lib/xiaohongshuBot.ts:527-540 | when a capture pattern matches, the category is the trimmed match of the first one that matches; otherwise it is empty iff no category word occurs, and else the category word at the leftmost occurrence |
| Extraction.FindCategory | src/lib/xiaohongshuBot.ts:534-540 | the first-match loop over the category patterns computes the category that `CategoryOfSpec` describes |
| Extraction.SplitKeepsAllButSeparators | src/lib/xiaohongshuBot.ts:517 | the split pieces, joined, give back the message with every separator removed |
| Extraction.SplitPiecesArePlain | src/lib/xiaohongshuBot.ts:517 | no split piece contains whitespace or a separating punctuation mark |
| Extraction.SplitOfPlain | src/lib/xiaohongshuBot.ts:517 | a message without separators splits into itself alone |
| Extraction.SplitAtPunctuation | src/lib/xiaohongshuBot.ts:517 | when the first separator is a punctuation mark, the text before it is the first piece and the split goes on right after the mark |
| Extraction.SplitAtSpaceRun | src/lib/xiaohongshuBot.ts:517 | when the first separator starts a whitespace run, the text before it is the first piece, the whole run is one separator, and the split goes on after the run |
| Heuristics.IsUserConfirming | src/lib/xiaohongshuBot.ts:548-571 | a message confirms iff, lower-cased, it is one of the fourteen whole-message answers, or it contains 信息 followed by 正确/准确/没问题, or it ends with 正确/准确/没问题/可以 optionally followed by one closing mark |
| Heuristics.IsNewRequest | src/lib/xiaohongshuBot.ts:576-595 | a message is a new request iff, lower-cased, it starts with one of the twelve request openings |
| Heuristics.AnalyzeFeedback | src/lib/xiaohongshuBot.ts:600-681 | each flag is set iff the message contains a word of its list; the response opens with the tone reply the two flags select and ends with the suggestion note iff a suggestion was found |
| Heuristics.ToneReply | src/lib/xiaohongshuBot.ts:659-669 | the response chosen by the (positive, negative) flags; the four responses differ (`HeuristicsFacts.ToneReplyInjective`), and none ends with the suggestion note (`ToneLacksNote`) |
| HeuristicsFacts.RejectionDoesNotConfirm | src/lib/xiaohongshuBot.ts:548-571 | "不对，重新来" does not confirm |
| HeuristicsFacts.AffirmativeConfirms | src/lib/xiaohongshuBot.ts:559 | the whole-message answer "是的" confirms |
| HeuristicsFacts.NegatedAnswerConfirms | src/lib/xiaohongshuBot.ts:565 | "不正确" and "信息不准确" count as confirmation, because the ending pattern ignores a preceding negation |
| HeuristicsFacts.HelpRequestIsNewRequest | src/lib/xiaohongshuBot.ts:576-595 | a "帮我…" message is a new request |
| HeuristicsFacts.ThanksIsNoNewRequest | src/lib/xiaohongshuBot.ts:576-595 | "谢谢" is not a new request |
| HeuristicsFacts.FeedbackReplyDeterminesFlags | src/lib/xiaohongshuBot.ts:659-673 | two messages that get the same response have the same three flags |
| HeuristicsFacts.NegatedPraiseIsMixed | src/lib/xiaohongshuBot.ts:607-636 | a negative word made of 不 plus a positive word always sets both flags |
| HeuristicsFacts.DissatisfiedGetsMixedReply | src/lib/xiaohongshuBot.ts:661-669 | "不满意" gets the mixed response, not the negative one |
| HeuristicsFacts.PraiseWithWishReply | src/lib/xiaohongshuBot.ts:654-673 | "这个不错，但希望图片更好看" is positive, not negative, carries a suggestion, and gets the praise response followed by the suggestion note |
| Generators.GenerateMockTags | src/lib/xiaohongshuBot.ts:814-830 | the loop appends each drawn extra tag that is not yet present |
| Generators.MockTagsShape | src/lib/xiaohongshuBot.ts:814-830 | the tags start with the five base tags; between 5 and 10 in total; no duplicates when the base tags have none |
| Generators.GenerateCreativeTags | src/lib/xiaohongshuBot.ts:1016-1042 | both loops append each drawn tag that is not yet present |
| Generators.CreativeTagsShape | src/lib/xiaohongshuBot.ts:1016-1042 | as for the mock tags: base tags first, 5 to 10 tags, no duplicates added |
| Generators.AppendedAddsOnlyFresh | src/lib/xiaohongshuBot.ts:822-827 | each appended tag comes from the pool and was absent from everything before it |
| Generators.AppendedHoldsEveryDraw | src/lib/xiaohongshuBot.ts:822-827 | every drawn tag is in the result, whether appended or already present |
| Generators.ImageType | src/lib/xiaohongshuBot.ts:1047-1057 | image 0 is the cover; the rest of the first third shows the product, the second third the usage, and the remainder the effect |
| Generators.RolesInOrder | src/lib/xiaohongshuBot.ts:1047-1057 | roles never go backwards along the image list |
| Generators.AllRolesOccur | src/lib/xiaohongshuBot.ts:1047-1057 | with four or more images, every role occurs |
| Generators.RolesForCreatedCounts | src/lib/xiaohongshuBot.ts:939-948 | the role sequences for 5, 6 and 7 generated images |
| Generators.GenerateImages | src/lib/xiaohongshuBot.ts:940-948 | the image loop builds one 1080×1920 image per id, with the cover first and (from three images on) the effect last |
| Generators.GenerateMockImageUrls | src/lib/xiaohongshuBot.ts:801-809 | the URL loop yields `NoteImageUrls`: one URL per id, made of the images prefix, the id and `.jpg` |
| Generators.NoteImageUrls | src/lib/xiaohongshuBot.ts:804-808 | the i-th URL is the images prefix, the i-th id and `.jpg`, and there is one per id |
| Generators.MockTitleMentions | src/lib/xiaohongshuBot.ts:760-772 | every mock title contains the keyword; all templates except the second also contain the category |
| Generators.CreativeTitleMentions | src/lib/xiaohongshuBot.ts:968-979 | every creative title contains both the keyword and the category |
| Generators.ContentMentions | src/lib/xiaohongshuBot.ts:777-796 | the mock note body and the creative note body both contain the keyword and the category |
| Generators.Experience | src/lib/xiaohongshuBot.ts:1126-1129 | a drawn time frame followed by a drawn activity word |
| Generators.Problem | src/lib/xiaohongshuBot.ts:1134-1137 | the keyword followed by the drawn trouble word |
| Generators.Solution | src/lib/xiaohongshuBot.ts:1142-1145 | the keyword followed by the drawn remedy phrase |
| Generators.Intro | src/lib/xiaohongshuBot.ts:1150-1160 | the drawn one of five opening templates, with keyword and category in their places and the second one led by a drawn time frame |
| Generators.MainPointTitle | src/lib/xiaohongshuBot.ts:1165-1174 | a drawn title from row `Min(index - 1, 3)` of the four-row table |
| Generators.DetailedPoint | src/lib/xiaohongshuBot.ts:1194-1203 | the template at `Min(index - 1, 3)`, filled with the drawn ingredient, frequency, preparation, attention, problem detail or remedy |
| Generators.MainPoint | src/lib/xiaohongshuBot.ts:1179-1189 | the template at `Min(index - 1, 3)`; the n-th template embeds the n-th detailed point, keyword and category kept in place |
| Generators.Conclusion | src/lib/xiaohongshuBot.ts:1257-1265 | the drawn one of five closing templates, with keyword and category in their places |
| Generators.PickersClamp | src/lib/xiaohongshuBot.ts:1165-1204 | the section pickers treat every index of 4 or more as index 4 |
| Generators.MockTitle | src/lib/xiaohongshuBot.ts:760-772 | the template chosen by the note index modulo seven; its contents are stated by `MockTitleMentions` |
| Generators.CreativeTitle | src/lib/xiaohongshuBot.ts:968-979 | one of the five creative templates; its contents are stated by `CreativeTitleMentions` |
| Generators.MockContent | src/lib/xiaohongshuBot.ts:777-796 | the mock note body; its contents are stated by `ContentMentions` |
| Generators.CreativeContent | src/lib/xiaohongshuBot.ts:984-1011 | the creative note body with four titled sections; its contents are stated by `ContentMentions` |
| Generators.AuthorName | src/lib/xiaohongshuBot.ts:865-875 | an author name is three characters: the drawn prefix, middle and suffix characters, in that order |
| Generators.MockNote | src/lib/xiaohongshuBot.ts:731-751 | one trending note; its fields are stated by `MockNoteShape` |
| Generators.KeyFindings | src/lib/xiaohongshuBot.ts:880-912 | the four findings of the kind the category selects |
| Generators.MockCreationResult | src/lib/xiaohongshuBot.ts:931-963 | the created note; its fields are stated by `CreationShape` |
| Generators.MockComment | src/lib/xiaohongshuBot.ts:850-857 | the user is "用户" followed by at most six characters of a fresh id, and the content is one of the comment templates |
| Generators.GenerateMockComments | src/lib/xiaohongshuBot.ts:835-860 | one comment per draw, each by a "用户…" user of at most eight characters and with a template text |
| Generators.GenerateMockTrendingNotes | src/lib/xiaohongshuBot.ts:728-755 | the loop builds one note per draw, in order |
| Generators.MockNoteShape | src/lib/xiaohongshuBot.ts:728-755 | a note is in the requested category, its title holds the keyword, it has 3 to 6 images, 5 to 10 tags opening with the base tags and free of duplicates when the base tags are, three top comments, and followers and engagement in their ranges |
| Generators.MockAnalysisResult | src/lib/xiaohongshuBot.ts:880-926 | four findings chosen by the category, four success factors, and the source notes are the note ids in order |
| Generators.FindingsKindOf | src/lib/xiaohongshuBot.ts:884-912 | the finding set the category selects: review, then tutorial, then sharing, by `includes` tests in that order, and general otherwise; `FindingsKindOfCategoryWords` gives it for every category word |
| Generators.FindingsKindOfCategoryWords | src/lib/xiaohongshuBot.ts:884-912 | for each of the fourteen category words, the review findings are chosen iff it is 测评 or 推荐, tutorial iff 教程 or 技巧, and sharing iff 分享 or 心得 |
| Generators.GenerateMockCreationResult | src/lib/xiaohongshuBot.ts:931-963 | the method assembles the title, content, images, tags and counts the generator defines |
| Generators.CreationShape | src/lib/xiaohongshuBot.ts:931-963 | a created note has 5 to 7 images (as many as `imageCount`), with the cover first and the effect last; its word count is the UTF-16 length of its content; its title contains keyword and category; it has 5 to 10 tags opening with the base tags; both links are empty |
| Text.ToLowerFixes | src/lib/xiaohongshuBot.ts:493 | lower-casing is idempotent and leaves text without capitals unchanged |
| Text.Trim | src/lib/xiaohongshuBot.ts:508 | the result is a slice of the input, with only whitespace cut at either end and no whitespace left at either end |
| Text.ContainsIff | src/lib/xiaohongshuBot.ts:520 | `includes` holds iff the word occurs at some position |
| Text.Utf16LengthOfBmp | src/lib/xiaohongshuBot.ts:958 | for text within the Basic Multilingual Plane, `length` is the number of characters |
| Text.DecimalRoundTrip | src/lib/xiaohongshuBot.ts:968-979 | the decimal text of a number interpolated into a title (here and in the titles and findings of lines 760-772 and 880-912) reads back as that number |

## Left out

- Randomness, ids and time: `Math.random`, `generateUniqueId` (lines 720-723) and `new Date()` are inputs
  rather than effects. The range of each draw is a precondition. Which values occur, and how often, is not
  modelled.
- The capture patterns are not modelled as regexes. There are four keyword patterns and the first two
  category patterns, all regexes with backtracking. They are parameters of type
  `Extraction.Matcher` (a function from the lower-cased message to the capture or match). The third
  category pattern and the fallback `split` are modelled exactly.
- Text.ToLower: only ASCII capitals are lowered. JavaScript's full Unicode case mapping is not modelled.
- Conversation.Preview: `substring(0, 200)` counts UTF-16 units. The model counts characters, which is
  the same for text in the Basic Multilingual Plane.
- Long fixed Chinese prose in replies and templates is shortened with "…". Every
  interpolation hole (keyword, category, counts, picked phrases) is kept in place.
- Replies are a `Reply` datatype naming the template and its interpolated values, not the full text.
  The `{type: 'text'}` wrapper is dropped.
- `showResults` throws a `TypeError` when no analysis exists. The model returns `Fault` instead.
  `ConversationFacts.ResultsNeverFail` shows that this cannot happen from a consistent record.
- Bot.XiaohongshuBot.HandleUserMessage: its contract ties it to `Conversation.Transition`. The
  invariant it keeps is stated as `ConversationFacts.TransitionPreservesConsistency` rather than in its
  own ensures.
- Conversation.Create: its contract states only that nothing but the creation result changes. What the
  new creation result holds is `Generators.CreationShape`.
- The analysis and title arguments of `generateCreativeTitle` and `generateCreativeContent` are unused
  in the source. They are omitted.
- The record built by `resetConversationState` has no `wordCount` or `imageCount`. In the model these
  are 0.
- `async`, the returned promise, console output, and the Next.js route and UI around the class are not
  part of this model.
- The code and its comments disagree in two places, and the model follows the code:
  - a note gets 3 to 6 images, although the comment says 3 to 7;
  - a created note gets 5 to 7 images, although the comment says 5 to 8.
- The confirmation test runs on the lower-cased message without trimming it, so an answer with
  leading or trailing whitespace is not one of the whole-message answers. The model does the same.
