# LiveAvatar sales coaching: a verified model of its core

The application lets a participant of a sales training talk to a streaming
AI avatar. A conversation starts with a knowledge-base context created for
the participant. The browser keeps a chat history of what the participant
and the avatar say, and saves it message by message. When the session ends,
the server turns the transcript into a structured conversation report, which
is stored as a database row and as a PDF.

This project models six parts of that application in Dafny and proves
properties about them:

- **Context creation** (`GenerateContext`, from `app/api/generate-context/route.ts`).
  The endpoint picks the avatar's role profile and reads the participant's
  data: it tries a joined query first, then a person-by-person fallback. It
  looks up the knowledge topic and builds the coaching prompt and the opening
  line. Then it asks the avatar service for a context and passes the answer
  on.
- **Avatar listing** (`Avatars`, from `app/api/get-avatars/route.ts`). Two
  fetches collect the active custom avatars and the curated public ones. The
  list is sorted custom first, then default id first, and falls back to the
  default avatar when nothing was collected.
- **Chat history** (`ChatHistory`, from `src/liveavatar/context.tsx`). Typed
  messages are remembered so that their speech transcription is not shown
  twice. A transcription seen again within a few seconds is ignored, and blank
  transcriptions are dropped.
- **The session component** (`Session`, from `src/components/LiveAvatarSession.tsx`).
  The pending chat messages are numbered with sequence numbers and sent to
  the message route. The conversation is ended once, when the session is
  stopped by the stop button or by a two-minute countdown.
- **The message route** (`MessagesRoute`, from `app/api/conversations/messages/route.ts`).
  It validates a batch, trims it and upserts it on `(conversation_id, seq)`,
  ignoring duplicates.
- **Conversation reports** (`ConversationReport`, `ReportLayout` and
  `ReportPipeline`, from `src/lib/reports/conversation-report.ts`). These
  cover the transcript text, the sanitising of the language model's reply
  against a default report, the report text and its PDF page layout, and the
  sequence of database writes with its `try`/`catch`.

Shared modules model JavaScript's string operations (`Text`: `trim`,
`split`, `join`, splitting on `\s+`, `String(n)`), parsed JSON values with
JavaScript truthiness (`Json`) and the `Option`/`Result` wrappers
(`Wrappers`).

Each stateful part of the source is a class whose fields are the state the
source mutates:

- `ChatHistoryState` for the React state and refs of the chat history;
- `LiveAvatarSessionComponent` for the component's refs;
- `MessageTable` for the message table;
- `ReportDatabase` for the report tables.

Each method of these classes is proved equal to a specification function of
the old state. The properties are proved about those functions.

Five behaviours of the source, modelled as written, are worth knowing:

- **A blank message can lose a later message.**
  `persistPendingMessages` numbers the pending messages before it drops the
  blank ones, but it advances the counter only by the number of messages
  sent. A blank message therefore makes the next batch reuse a sequence
  number, and the route silently ignores the message sent under it
  (`Session.BlankMessageReusesSeq`, `Session.ReusedSeqDropsMessage`). The
  application itself never produces a blank message
  (`ChatHistory.ApplicationKeepsMessagesNonBlank`), so this is latent.
- **A failed reset can leave two latest summaries.** The reset of
  `is_latest` ignores its error, so a failed reset can leave two summaries of
  one target marked latest (`ReportPipeline.FailedResetLeavesTwoLatest`).
- **The countdown stops at the first new message.** The countdown effect
  depends on `stopAndFinalizeSession`, which is recreated whenever the chat
  messages change. React then runs the effect's cleanup, which clears the
  interval, and the effect runs again but returns at its `timerStartedRef`
  guard. From the first message after the stream is ready, the countdown
  neither moves nor stops the session; only the stop button does
  (`Session.CountdownFrozen`, `Session.FirstMessageFreezesCountdown`).
- **A save that rejects skips the end route.** `endConversation` awaits
  the save of the pending messages outside its `try`. When the save's
  `fetch` rejects, the conversation is marked ended but the end route is
  never called, so no report is generated, and `onSessionStopped` is not
  called (`Session.RejectedSaveNeverEnds`).
- **The sort comparator is inconsistent in one case.** It answers -1 both
  ways for two entries of the same group that both carry the default id
  (`Avatars.CompareAgreesWithRank`).

## Model

| member | source | states |
|---|---|---|
| Text.TrimStartSpec | app/api/conversations/messages/route.ts:35-40 | removing leading white space yields a suffix that is empty or starts with a non-space; what was removed is blank |
| Text.TrimEndSpec | app/api/conversations/messages/route.ts:35-40 | removing trailing white space yields a prefix that is empty or ends with a non-space; what was removed is blank |
| Text.TrimSpec | app/api/conversations/messages/route.ts:35-40 | `trim()` is empty exactly for a blank string, otherwise neither starts nor ends with white space, and leaves an already trimmed string unchanged |
| Text.TrimIdempotent | app/api/conversations/messages/route.ts:40 | trimming twice is trimming once |
| Text.JoinAppend | src/lib/reports/conversation-report.ts:346-380 | joining a list extended by one element adds the separator and that element |
| Text.LastIndexOf | src/lib/reports/conversation-report.ts:435 | the index found holds the character and no later position does |
| Text.Split | src/lib/reports/conversation-report.ts:435 | `split(c)` yields at least one piece and no piece contains the separator |
| Text.SplitJoin | src/lib/reports/conversation-report.ts:435 | splitting a joined list gives back the list when no piece contains the separator |
| Text.LastIndexOfBeforeTail | src/lib/reports/conversation-report.ts:435 | in `a + c + b` with no `c` in `b` the last `c` is at index `|a|` |
| Text.JoinSplit | src/lib/reports/conversation-report.ts:565 | joining the pieces of a split with the same separator gives back the string |
| Text.WordEnd | src/lib/reports/conversation-report.ts:384 | a word runs to the first white space or to the end, and holds no white space |
| Text.Words | src/lib/reports/conversation-report.ts:384 | `split(/\s+/).filter(Boolean)` yields non-empty words without white space |
| Text.WordsEmptyIffBlank | src/lib/reports/conversation-report.ts:384-387 | a text has no words exactly when it is blank |
| Text.NatToString | src/components/LiveAvatarSession.tsx:524 | `String(n)` is a non-empty digit string without a leading zero |
| Text.DecimalValueOfNatToString | src/components/LiveAvatarSession.tsx:524 | the digits of `String(n)` read back as `n` |
| Json.Get | app/api/conversations/messages/route.ts:17-18 | a property read yields a value only on an object that has the key, and then that key's value |
| ConversationReport.NormalizeText | src/lib/reports/conversation-report.ts:80-86 | a string with text gives its trimmed text, which has no surrounding white space; anything else gives the fallback |
| ConversationReport.FullName | src/lib/reports/conversation-report.ts:106 | the full name is empty exactly when first and last name are both blank, and is trimmed otherwise |
| ConversationReport.FullNameJoins | src/lib/reports/conversation-report.ts:106 | for trimmed names the full name is both names joined by one space, or the one that is given |
| ConversationReport.FullNameExample | src/lib/reports/conversation-report.ts:106 | "Max" and "Muster" give "Max Muster" |
| ConversationReport.BlankConcat | src/lib/reports/conversation-report.ts:106 | a concatenation is blank exactly when both parts are |
| ConversationReport.BuildDefaultReport | src/lib/reports/conversation-report.ts:105-128 | the default report carries the fixed title, the conversation date, and the name, role and company of the profile or "nicht vorhanden" |
| ConversationReport.SanitizeReportPayload | src/lib/reports/conversation-report.ts:130-165 | a reply that is not an object is replaced by the default report; a missing or non-object `zieldefinition` yields "nicht konkretisiert" for the three goals |
| ConversationReport.SanitiseFallsBackToDefault | src/lib/reports/conversation-report.ts:130-165 | every sanitised field is the reply's trimmed text when it has some and the default report's field otherwise |
| ConversationReport.SanitisedHeader | src/lib/reports/conversation-report.ts:145-149 | title, name, role, company and date come from the reply or from the default report |
| ConversationReport.SanitisedAnalysis | src/lib/reports/conversation-report.ts:150-155 | the status and analysis fields come from the reply or from the default report |
| ConversationReport.SanitisedGoals | src/lib/reports/conversation-report.ts:141-160 | the three goal fields come from `zieldefinition` or from the default report |
| ConversationReport.NestedFieldFrom | src/lib/reports/conversation-report.ts:141 | reading a key of `zieldefinition \|\| {}` agrees with reading it from a possibly missing `zieldefinition` |
| ConversationReport.SanitisedClosing | src/lib/reports/conversation-report.ts:161-163 | the recommendation fields come from the reply or from the default report |
| ConversationReport.SanitisedIsComplete | src/lib/reports/conversation-report.ts:130-165 | with a non-empty date no field of the sanitised report is empty |
| ConversationReport.EmptyReplyIsDefault | src/lib/reports/conversation-report.ts:136-165 | the replies `{}` and `[]` both give exactly the default report |
| ConversationReport.TitleOnlyReply | src/lib/reports/conversation-report.ts:145-147 | a reply with only a title keeps the trimmed title and takes name and role from the profile |
| ConversationReport.Speaker | src/lib/reports/conversation-report.ts:99 | "Avatar" exactly for the sender "avatar", "Teilnehmer" for every other sender |
| ConversationReport.TranscriptLines | src/lib/reports/conversation-report.ts:97-101 | one `Speaker: content` line per message, in order |
| ConversationReport.TranscriptLinesRecovered | src/lib/reports/conversation-report.ts:96-103 | without newlines in the contents, the transcript splits back into one line per message, each starting with its speaker |
| ConversationReport.ReportTextLayout | src/lib/reports/conversation-report.ts:345-381 | without newlines in the fields, the report text splits back into exactly its 33 lines, title first |
| ConversationReport.LinesFreeConcat | src/lib/reports/conversation-report.ts:345-381 | two lists of newline-free lines concatenate to one |
| ConversationReport.HeaderLinesFree | src/lib/reports/conversation-report.ts:347-353 | the header lines hold no newline when the fields hold none |
| ConversationReport.AnalysisLinesFree | src/lib/reports/conversation-report.ts:354-366 | the analysis lines hold no newline when the fields hold none |
| ConversationReport.GoalLinesFree | src/lib/reports/conversation-report.ts:367-371 | the goal lines hold no newline when the fields hold none |
| ConversationReport.ClosingLinesFree | src/lib/reports/conversation-report.ts:372-380 | the closing lines hold no newline when the fields hold none |
| ConversationReport.Reverse | src/lib/reports/conversation-report.ts:565 | `reverse()` keeps the length and mirrors the positions |
| ConversationReport.ReshapeGermanDate | src/lib/reports/conversation-report.ts:565 | a date "D.M.YYYY" of three dot-free parts becomes "YYYY-M-D" |
| ConversationReport.JoinThree | src/lib/reports/conversation-report.ts:565 | three pieces join with two separators |
| ConversationReport.ReshapeWithoutDots | src/lib/reports/conversation-report.ts:565 | a date without dots is stored as it is |
| ConversationReport.ResolveParticipantProfile | src/lib/reports/conversation-report.ts:167-208 | the profile keeps the person id; with a person row the names are the normalised `first_name` and `last_name`, otherwise empty; with an employment row the role is the normalised `function_title` and the company the normalised `name` of the first or only company, otherwise empty; every field is trimmed |
| ConversationReport.ResolvedFullName | src/lib/reports/conversation-report.ts:106 | the report's name for a resolved profile is its names joined by one space, or the one that has text |
| ReportLayout.JoinExtendLast | src/lib/reports/conversation-report.ts:392 | extending the last line by a separator and a word extends the joined text the same way |
| ReportLayout.WrapWordsJoin | src/lib/reports/conversation-report.ts:389-399 | the finished lines and the current line joined by spaces read as the words consumed |
| ReportLayout.WrapWordsLines | src/lib/reports/conversation-report.ts:391-399 | no finished line is empty, and one longer than the limit is a single word |
| ReportLayout.WrapWordsWraps | src/lib/reports/conversation-report.ts:389-402 | the lines after the loop are a wrapping of the words |
| ReportLayout.WrapLineSpec | src/lib/reports/conversation-report.ts:383-404 | a text without words gives `[""]`; otherwise the lines joined by spaces read as the words, none is empty, and only a single overlong word exceeds the limit |
| ReportLayout.WrapLineNonEmpty | src/lib/reports/conversation-report.ts:384-387 | the result is never empty, and is `[""]` exactly for a blank text |
| ReportLayout.WrapPdfLine | src/lib/reports/conversation-report.ts:383-404 | the loop returns the wrapping `WrapLine` specifies |
| ReportLayout.BuildReportPdf | src/lib/reports/conversation-report.ts:406-450 | the drawing calls are those of the layout of the report's lines |
| ReportLayout.DrawWrapped | src/lib/reports/conversation-report.ts:421-446 | drawing the wrapped segments of one line moves the page cursor as `AddSegments` specifies |
| ReportLayout.AddLineSound | src/lib/reports/conversation-report.ts:421-433 | a draw keeps the layout sound and appends one draw of the line, which opens a new page at its top exactly when the cursor was at or below y = 48; the cursor then drops 22 points after a title and 16 otherwise |
| ReportLayout.AddSegmentsSound | src/lib/reports/conversation-report.ts:444-446 | drawing the segments of one line keeps the layout sound |
| ReportLayout.LayoutSound | src/lib/reports/conversation-report.ts:418-447 | every draw of the report lies between the bottom margin and the top of its page, and pages advance one at a time, each new page starting at its top |
| ReportLayout.Texts | src/lib/reports/conversation-report.ts:426 | the texts of the draws, one per draw, in order |
| ReportLayout.AddSegmentsTexts | src/lib/reports/conversation-report.ts:444-446 | the segments are drawn in order after the earlier draws |
| ReportLayout.LayoutTexts | src/lib/reports/conversation-report.ts:435-447 | the PDF draws exactly the wrapped segments of the non-blank lines, in order |
| ReportLayout.AddSegmentsTitles | src/lib/reports/conversation-report.ts:442-445 | one draw per segment, and only the first segment of a title line is a title |
| ReportLayout.LayoutTitles | src/lib/reports/conversation-report.ts:436-446 | only the first draw can be a title, and there is one when the first line is not blank |
| ReportLayout.TitlesExtend | src/lib/reports/conversation-report.ts:442-445 | appending non-title draws keeps the title at the first draw only |
| ReportLayout.LayoutLineBlank | src/lib/reports/conversation-report.ts:437-439 | a blank line draws nothing, stays on the page and lowers the cursor by 8 points, wherever the cursor is |
| ReportLayout.BlankLayout | src/lib/reports/conversation-report.ts:437-439 | blank lines draw nothing and move the cursor 8 points each on the first page |
| ReportPipeline.MakeCtxContents | src/lib/reports/conversation-report.ts:555-584 | the rows carry the participant's target and report keys, the storage path with the timestamp, the date reshaped to year-month-day and the report text; the PDF draws exactly the wrapped non-blank lines of that text, for a payload without line breaks the 33 report lines |
| ReportPipeline.ClearLatestOf | src/lib/reports/conversation-report.ts:519-525 | the reset unmarks exactly the latest summaries of the target and changes nothing else |
| ReportPipeline.FailIndexIsFirst | src/lib/reports/conversation-report.ts:513-644 | the `try` block stops at the first step that throws, and every earlier step succeeded |
| ReportPipeline.ReportDatabase.constructor | src/lib/reports/conversation-report.ts:452 | the tables start empty |
| ReportPipeline.ReportDatabase.GenerateAndStoreConversationReport | src/lib/reports/conversation-report.ts:452-657 | the new tables and the thrown error are those of `Generate` |
| ReportPipeline.ReportDatabase.WriteAll | src/lib/reports/conversation-report.ts:491-656 | the writes after the checks are those of `Writes` |
| ReportPipeline.ReportDatabase.TryCatchReport | src/lib/reports/conversation-report.ts:513-656 | the `try` block with its `catch` acts as `TryCatch` |
| ReportPipeline.ReportDatabase.WriteReport | src/lib/reports/conversation-report.ts:514-578 | the tables hold the writes of the steps before the first failure, and that step is reported |
| ReportPipeline.ReportDatabase.FinishReport | src/lib/reports/conversation-report.ts:580-644 | the same for the steps from the PDF upload on |
| ReportPipeline.StepwiseMatchesAfterSteps | src/lib/reports/conversation-report.ts:513-644 | applying the steps one by one gives the table-by-table description |
| ReportPipeline.StepExtends | src/lib/reports/conversation-report.ts:513-644 | one more step extends the description by that step's write |
| ReportPipeline.TryCatchOutcome | src/lib/reports/conversation-report.ts:513-656 | the block returns normally exactly when the reply arrives and no checked write fails |
| ReportPipeline.TryCatchRunAndTarget | src/lib/reports/conversation-report.ts:623-656 | only the new run changes: "completed" on success, "failed" with the error otherwise; the target is linked only on success |
| ReportPipeline.EarlyFailuresWriteNothing | src/lib/reports/conversation-report.ts:453-511 | each early check throws its own error and writes nothing; a failed run insert leaves only the target row |
| ReportPipeline.GenerateIsWrites | src/lib/reports/conversation-report.ts:484-511 | once the checks pass the operation is the writes on what they produced |
| ReportPipeline.OpenedRunCompletes | src/lib/reports/conversation-report.ts:513-644 | a completed run leaves the run completed, the target linked, the report and the PDF row stored, and one latest summary |
| ReportPipeline.SuccessCompletesRun | src/lib/reports/conversation-report.ts:491-644 | the operation succeeds exactly when the reply arrives and no fallible write fails, and then the run is completed and linked |
| ReportPipeline.OpenedRunFails | src/lib/reports/conversation-report.ts:645-656 | a failure keeps earlier runs, marks the new run failed when the `catch` update goes through, and keeps the target's link |
| ReportPipeline.ReportStaysFinal | src/lib/reports/conversation-report.ts:555-621 | after a failure past the report upsert the report row stays with status "final" |
| ReportPipeline.LatestSummaryUnique | src/lib/reports/conversation-report.ts:519-547 | when the reset goes through, each target keeps at most one latest summary |
| ReportPipeline.FailedResetLeavesTwoLatest | src/lib/reports/conversation-report.ts:519-541 | when the reset fails silently, a target that had a latest summary ends with two |
| ReportPipeline.OpenedRunKeepsLatestCompleted | src/lib/reports/conversation-report.ts:623-656 | a target's latest completed run is always a completed run of that target |
| ReportPipeline.GenerateKeepsLatestCompleted | src/lib/reports/conversation-report.ts:452-657 | the whole operation keeps that invariant whatever fails |
| ReportPipeline.WritesKeepLatestCompleted | src/lib/reports/conversation-report.ts:491-656 | the writes keep that invariant |
| ReportPipeline.OpenedRunUpsertsByKey | src/lib/reports/conversation-report.ts:491-574 | targets and reports are upserted on their keys: only the own key is added, and exactly one run |
| ReportPipeline.RegenerationKeepsOneRow | src/lib/reports/conversation-report.ts:491-574 | generating twice for a conversation leaves one target row and one report row, with two runs |
| MessagesRoute.MessagesOf | app/api/conversations/messages/route.ts:18 | messages are read only from an array property |
| MessagesRoute.KeepMessage | app/api/conversations/messages/route.ts:35 | a kept message has a positive finite seq |
| MessagesRoute.MessageTable.constructor | app/api/conversations/messages/route.ts:50-55 | the table starts empty |
| MessagesRoute.MessageTable.Post | app/api/conversations/messages/route.ts:14-76 | the answer and the new table are those of `Handle` |
| MessagesRoute.MessageTable.UpsertIgnoringDuplicates | app/api/conversations/messages/route.ts:50-55 | the table becomes the batch inserted row by row with ON CONFLICT DO NOTHING |
| MessagesRoute.OnlySuccessWrites | app/api/conversations/messages/route.ts:14-76 | the table changes only on a 200 answer counting at least one row |
| MessagesRoute.BlankConversationIdIsBadRequest | app/api/conversations/messages/route.ts:17-25 | a readable body is answered 400 exactly when its conversation id is blank, and then nothing is written |
| MessagesRoute.NonArrayMessagesSaveNothing | app/api/conversations/messages/route.ts:18-32 | a non-array `messages` is answered `{inserted: 0}` and writes nothing |
| MessagesRoute.ValidBatchIsUpserted | app/api/conversations/messages/route.ts:34-68 | a valid non-empty batch is upserted and answered with its size |
| MessagesRoute.ValidRowsAppend | app/api/conversations/messages/route.ts:34-41 | the filter succeeds on a concatenation exactly when on both parts, and keeps order |
| MessagesRoute.SingleMessage | app/api/conversations/messages/route.ts:35-40 | the filter throws on null and on non-string content behind a valid seq, keeps a message exactly with a positive seq and non-blank content, and trims it |
| MessagesRoute.ValidRowsAreClean | app/api/conversations/messages/route.ts:34-41 | every row belongs to the conversation, has a positive seq and trimmed non-blank content, and there are no more rows than messages |
| MessagesRoute.InsertIgnoringKeepsExisting | app/api/conversations/messages/route.ts:52-55 | a duplicate never overwrites an existing row |
| MessagesRoute.InsertIgnoringKeys | app/api/conversations/messages/route.ts:52-55 | the table afterwards holds exactly the old keys and the batch's keys |
| MessagesRoute.InsertIgnoringFirstWins | app/api/conversations/messages/route.ts:52-55 | a new key receives the first row of the batch that carries it |
| MessagesRoute.DuplicatesAreCountedButNotWritten | app/api/conversations/messages/route.ts:50-65 | a batch of existing keys is answered with its full size while the table does not change |
| ChatHistory.ChatHistoryState.constructor | src/liveavatar/context.tsx:215-220 | no messages and no remembered texts or keys |
| ChatHistory.ChatHistoryState.AddMessageTo | src/liveavatar/context.tsx:222-224 | the state becomes `AddMessage` of the old state |
| ChatHistory.ChatHistoryState.AddTypedMessageTo | src/liveavatar/context.tsx:227-240 | the state becomes `AddTypedMessage` of the old state |
| ChatHistory.ChatHistoryState.ExpireTypedText | src/liveavatar/context.tsx:231-233 | the typed text is forgotten |
| ChatHistory.ChatHistoryState.ExpireRecentKey | src/liveavatar/context.tsx:158 | the dedupe key is forgotten |
| ChatHistory.ChatHistoryState.HandleUserTranscription | src/liveavatar/context.tsx:144-166 | the state becomes `UserTranscription` of the old state |
| ChatHistory.ChatHistoryState.HandleAvatarTranscription | src/liveavatar/context.tsx:169-186 | the state becomes `AvatarTranscription` of the old state |
| ChatHistory.StepAppendsAtMostOne | src/liveavatar/context.tsx:144-240 | every event keeps the earlier messages and adds at most one |
| ChatHistory.RunIsAppendOnly | src/liveavatar/context.tsx:144-240 | over any events the old list is a prefix of the new one, which grows by at most one per event |
| ChatHistory.AddMessageAppends | src/liveavatar/context.tsx:222-224 | `addMessage` appends exactly the message and touches nothing else |
| ChatHistory.TypedThenExpired | src/liveavatar/context.tsx:227-240 | a typed message is appended as a user message and remembered until its timer fires |
| ChatHistory.BlankTranscriptionIgnored | src/liveavatar/context.tsx:145-171 | a blank transcription changes nothing |
| ChatHistory.TypedEchoSuppressed | src/liveavatar/context.tsx:148-151 | the transcription of a just-typed text is swallowed once and forgotten |
| ChatHistory.TranscriptionDedupe | src/liveavatar/context.tsx:152-184 | a recently seen key adds nothing; a new one records the key and appends the untrimmed text |
| ChatHistory.KeysAreNamespaced | src/liveavatar/context.tsx:153-173 | user and avatar keys never coincide |
| ChatHistory.SameTextFromBothSenders | src/liveavatar/context.tsx:153-173 | the same text from the user and then the avatar is shown twice |
| ChatHistory.ApplicationKeepsMessagesNonBlank | src/liveavatar/context.tsx:146-171 | events the application produces never put a blank message into the history |
| Session.LiveAvatarSessionComponent.constructor | src/components/LiveAvatarSession.tsx:379-384 | the refs start at their initial values |
| Session.LiveAvatarSessionComponent.PersistPendingMessages | src/components/LiveAvatarSession.tsx:417-458 | the new refs and the request payload are those of `Persist`; the call rejects exactly when a save request is made and its `fetch` rejects |
| Session.LiveAvatarSessionComponent.EndConversation | src/components/LiveAvatarSession.tsx:464-479 | the new refs and the payload are those of `End`: the end route is skipped when the awaited save rejects, and the call then rejects |
| Session.LiveAvatarSessionComponent.StopAndFinalizeSession | src/components/LiveAvatarSession.tsx:481-485 | stops the session, ends the conversation, and calls `onSessionStopped` unless ending rejected |
| Session.LiveAvatarSessionComponent.ClearCountdown | src/components/LiveAvatarSession.tsx:517 | the cleanup clears the interval and nothing else |
| Session.LiveAvatarSessionComponent.StartCountdown | src/components/LiveAvatarSession.tsx:500-504 | the interval is installed only when the stream is ready and the timer never started before |
| Session.LiveAvatarSessionComponent.CountdownTick | src/components/LiveAvatarSession.tsx:505-515 | one tick acts as `Tick`: the time drops, and at the end the session is stopped |
| Session.NonBlankOnlyKeeps | src/components/LiveAvatarSession.tsx:430 | the filter keeps a part of its input |
| Session.NonBlankOnlyDropsBlank | src/components/LiveAvatarSession.tsx:430 | what the filter keeps has text |
| Session.IncreasingTail | src/components/LiveAvatarSession.tsx:425-430 | the tail of an increasing list is increasing and above its head |
| Session.NonBlankOnlyIncreasing | src/components/LiveAvatarSession.tsx:430 | filtering keeps the seq order |
| Session.NonBlankOnlyAll | src/components/LiveAvatarSession.tsx:430 | the filter drops nothing exactly when no entry is blank |
| Session.PayloadNumbering | src/components/LiveAvatarSession.tsx:423-430 | a sent message carries the seq of its pending index; seqs increase and stay in range |
| Session.PayloadDropsOnlyBlank | src/components/LiveAvatarSession.tsx:423-430 | every sent message has text, and nothing is dropped exactly when no pending message is blank |
| Session.NonBlankOnlyLength | src/components/LiveAvatarSession.tsx:430 | a filter result as long as its input is the input |
| Session.PersistGuard | src/components/LiveAvatarSession.tsx:418 | without a conversation id, or during a save, nothing happens |
| Session.PersistCounters | src/components/LiveAvatarSession.tsx:432-453 | a successful save advances the seq by the messages sent and the saved count to the end; a failure changes neither; an all-blank batch only moves the saved count |
| Session.ConsecutiveBatchesDisjoint | src/components/LiveAvatarSession.tsx:423-453 | after an all-non-blank batch the next batch only uses higher seqs |
| Session.BlankMessageReusesSeq | src/components/LiveAvatarSession.tsx:423-453 | after a batch with a blank message the next batch reuses a seq already sent |
| Session.EncodedMessageKept | src/components/LiveAvatarSession.tsx:437-444 | the route keeps a message the client sends, as the row the client meant |
| Session.EncodedBatchIsValid | src/components/LiveAvatarSession.tsx:437-444 | the route accepts a client batch as one row per message, in order |
| Session.RequestBodyRead | src/components/LiveAvatarSession.tsx:440-443 | the route reads back the conversation id and the messages the client sent |
| Session.SentBatchIsSaved | src/components/LiveAvatarSession.tsx:437-444 | a sent batch is stored and counted in full unless the database fails |
| Session.SentBatchIsSavedGlue | src/components/LiveAvatarSession.tsx:437-444 | the route's answer and table for a client request body |
| Session.RowsForLength | src/components/LiveAvatarSession.tsx:437-444 | one encoded message and one row per sent message |
| Session.ReusedSeqDropsMessage | src/components/LiveAvatarSession.tsx:423-453 | the message sent under a reused seq is answered as inserted but not stored |
| Session.InitialIsValid | src/components/LiveAvatarSession.tsx:379-384 | the initial refs satisfy the component invariant |
| Session.PersistKeepsValid | src/components/LiveAvatarSession.tsx:417-458 | a save keeps the invariant, never lowers the counters and changes nothing else |
| Session.EndKeepsValid | src/components/LiveAvatarSession.tsx:464-479 | ending keeps the invariant and marks the conversation ended; the end route is called exactly on the first call with an id whose save does not reject |
| Session.StopKeepsValid | src/components/LiveAvatarSession.tsx:481-485 | a stop keeps the invariant, counts one stop request, and is followed by `onSessionStopped` exactly when ending does not reject |
| Session.StepKeepsValid | src/components/LiveAvatarSession.tsx:417-518 | every event keeps the invariant: a messages change (countdown cleanup, save effect, countdown effect), a stream change, the stop button and a tick |
| Session.EndedAtMostOnce | src/components/LiveAvatarSession.tsx:464-512 | whatever happens, the end route is called at most once, and at most one stop request goes without `onSessionStopped` |
| Session.EndedStaysEnded | src/components/LiveAvatarSession.tsx:465-466 | once ended, no event calls the end route again |
| Session.RejectedSaveNeverEnds | src/components/LiveAvatarSession.tsx:464-485 | a stop whose save rejects leaves the conversation ended, the end route uncalled for good and `onSessionStopped` uncalled |
| Session.CountdownFrozen | src/components/LiveAvatarSession.tsx:500-518 | once the interval is cleared after the timer started, no event but the stop button changes the countdown or stops the session |
| Session.FirstMessageFreezesCountdown | src/components/LiveAvatarSession.tsx:500-518 | a messages change right after the stream is ready clears the interval for good: the time stays at two minutes and the countdown never stops the session |
| Session.CountdownStepBounds | src/components/LiveAvatarSession.tsx:506-514 | the time never goes negative, drops by one above one, and runs out exactly at one or below |
| Session.CountdownRunsOutOnTime | src/components/LiveAvatarSession.tsx:505-515 | from `t` seconds the countdown shows `t - k` and runs out on tick `t` |
| Session.PaddedSeconds | src/components/LiveAvatarSession.tsx:523-524 | the seconds are two digits reading back as the seconds |
| Session.FormatTimeReadsBack | src/components/LiveAvatarSession.tsx:521-525 | `formatTime` is minutes, a colon and two digits, which read back as the time |
| GenerateContext.RoleConfig | app/api/generate-context/route.ts:30-41 | the role is the configured one exactly when that is 1 to 4, and 2 otherwise |
| GenerateContext.RoleInstructions | app/api/generate-context/route.ts:43-92 | a role's text starts with its "ROLLENPROFIL n:" heading; it is empty exactly for a value that is no role |
| GenerateContext.GetStringField | app/api/generate-context/route.ts:94-102 | the loop returns `StringField` |
| GenerateContext.StringFieldFirstUsable | app/api/generate-context/route.ts:94-102 | the field is the trimmed text of the first usable alias, and empty exactly when none is usable |
| GenerateContext.StringFieldIsTrimmed | app/api/generate-context/route.ts:97-98 | a field is always trimmed |
| GenerateContext.LowerCase | app/api/generate-context/route.ts:105 | lower-casing keeps the length |
| GenerateContext.LowerCaseAt | app/api/generate-context/route.ts:105 | each character is lower-cased on its own |
| GenerateContext.LowerCaseIdempotent | app/api/generate-context/route.ts:105 | lower-casing twice is lower-casing once |
| GenerateContext.NormalizeCodeIdempotent | app/api/generate-context/route.ts:328 | normalising a code twice is normalising it once |
| GenerateContext.TopicDataSpec | app/api/generate-context/route.ts:104-128 | a topic is found exactly when the normalised code is non-empty and its query hits; only that query matters; the code is never empty |
| GenerateContext.IdVariants | app/api/generate-context/route.ts:131-136 | the id is tried as text, then as a number exactly when it is a non-empty digit string |
| GenerateContext.JoinedLookup | app/api/generate-context/route.ts:139-178 | a joined hit is tagged with the join source and has a personal id |
| GenerateContext.FetchParticipantData | app/api/generate-context/route.ts:130-252 | the query loops return `ParticipantLookup` |
| GenerateContext.JoinedLookupFirstHit | app/api/generate-context/route.ts:139-178 | the joined path answers for the first variant with a hit, and finds nothing exactly when no variant hits |
| GenerateContext.FirstPersonFirstHit | app/api/generate-context/route.ts:182-198 | the fallback skips failed queries, takes the first row found, and finds none exactly when no variant hits |
| GenerateContext.ParticipantSources | app/api/generate-context/route.ts:130-252 | the joined path wins when it finds a row, the fallback otherwise; a fallback participant carries the person's id |
| GenerateContext.PersonalIdNeverEmpty | app/api/generate-context/route.ts:130-252 | a participant found for a non-blank id has a non-empty personal id |
| GenerateContext.UnlinesAppend | app/api/generate-context/route.ts:297-303 | line-terminated text distributes over concatenation |
| GenerateContext.UnlinesIsJoin | app/api/generate-context/route.ts:297-303 | line-terminated lines are the lines joined by newlines with an empty last piece |
| GenerateContext.LabeledLine | app/api/generate-context/route.ts:298-303 | an optional line appears exactly for a non-empty value |
| GenerateContext.ParticipantBlockIsUnlines | app/api/generate-context/route.ts:296-304 | the participant block is the personal id line and the non-empty field lines, each ending in a line feed |
| GenerateContext.ParticipantBlockReadsBack | app/api/generate-context/route.ts:296-304 | the participant block splits back into the personal id and the non-empty fields in order |
| GenerateContext.Request | app/api/generate-context/route.ts:308-360 | a context is requested exactly for a readable body with a non-blank participant id |
| GenerateContext.Post | app/api/generate-context/route.ts:308-395 | the request and response are those of `Request` and `Respond` |
| GenerateContext.MissingParticipantRefused | app/api/generate-context/route.ts:316-323 | a blank id is answered 400 exactly, whatever the database and the service |
| GenerateContext.EffectiveIdIsTrimmed | app/api/generate-context/route.ts:316 | the effective id is already trimmed |
| GenerateContext.CreatedResponse | app/api/generate-context/route.ts:362-387 | a created context reports a valid role, the selected topic, the business name and a non-empty personal id, and only after an `ok` answer |
| GenerateContext.ServiceErrorPassedOn | app/api/generate-context/route.ts:362-371 | a failed service answer is passed on with its status, or ends in the server error |
| GenerateContext.TopicQueriedWithReportedCode | app/api/generate-context/route.ts:328-382 | the reported topic code is already normalised, so it is the code queried |
| GenerateContext.OpeningGreeting | app/api/generate-context/route.ts:341-343 | the opening greets the first name, or "Teilnehmer" without one |
| Avatars.UntilNullIsPrefix | app/api/get-avatars/route.ts:50-61 | the entries reached are the longest prefix without a null |
| Avatars.Rank | app/api/get-avatars/route.ts:102-112 | there are four groups |
| Avatars.CompareAgreesWithRank | app/api/get-avatars/route.ts:102-112 | the comparator orders as the ranks do, except for two default ids of one group, where it answers -1 both ways |
| Avatars.WithRankHasRank | app/api/get-avatars/route.ts:102-112 | a group holds only entries of its rank |
| Avatars.WithRankIdentity | app/api/get-avatars/route.ts:102-112 | a list of one rank is its own group |
| Avatars.WithRankEmpty | app/api/get-avatars/route.ts:102-112 | a list without a rank has an empty group for it |
| Avatars.WithRankAppend | app/api/get-avatars/route.ts:102-112 | grouping distributes over concatenation |
| Avatars.WithRankLast | app/api/get-avatars/route.ts:102-112 | the last entry adds to its own group only |
| Avatars.WithRankPartition | app/api/get-avatars/route.ts:102-112 | the four groups hold every entry as often as it occurs |
| Avatars.SortByRankPermutation | app/api/get-avatars/route.ts:102-112 | the sort is a permutation |
| Avatars.SortByRankOrdered | app/api/get-avatars/route.ts:102-112 | the sort orders by rank |
| Avatars.SortByRankStable | app/api/get-avatars/route.ts:102-112 | the sort keeps the order within each rank |
| Avatars.WithRankAppend4 | app/api/get-avatars/route.ts:102-112 | selecting a rank from four concatenated lists selects it from each |
| Avatars.StableGroups | app/api/get-avatars/route.ts:102-112 | four concatenated groups give back each group |
| Avatars.PushCustomAvatars | app/api/get-avatars/route.ts:50-61 | the loop appends the custom entries of the items reached |
| Avatars.PushPublicAvatars | app/api/get-avatars/route.ts:84-95 | the loop appends the public entries of the items reached |
| Avatars.ListAvatars | app/api/get-avatars/route.ts:29-126 | the list answered is `AvatarList` |
| Avatars.CustomEntriesSpec | app/api/get-avatars/route.ts:50-61 | exactly the active custom avatars are collected, each marked custom |
| Avatars.PublicEntriesSpec | app/api/get-avatars/route.ts:84-95 | exactly the public avatars with a curated id are collected, each marked public |
| Avatars.AvatarListSpec | app/api/get-avatars/route.ts:101-121 | the answer is never empty: the collected entries as often as collected, or the default avatar alone |
| Avatars.CustomFirstThenDefault | app/api/get-avatars/route.ts:101-112 | custom avatars come first, and within each group the default id first |
| Avatars.FetchesAreIndependent | app/api/get-avatars/route.ts:33-99 | a failed fetch leaves the other kind's entries as they were |

## Left out

- PDF bytes, fonts and font sizes: the PDF is modelled as its list of `drawText` calls (page, baseline, text, title flag).
- SHA-256 and date formatting: `createHash`, `toLocaleDateString("de-DE")` and `new Date()` are parameters of the world.
- Timestamps, `Date.now()` and timers are parameters or explicit events. The timers are not real time.
- The network, the database client and the language model are modelled by their outcomes. Each fallible call either fails or answers, and database queries are lookup functions and tables.
- Database query semantics are given as lookup functions, not modelled: joins, `order("valid_from")`, `limit(1)` and `is_active` filters.
- The avatar fetches: every failure mode (network error, non-`ok` status, unreadable JSON) is one absent body.
- JSON numbers are integers. Non-integer numbers and NaN are not modelled.
- `Number(id)` is modelled only for strings of decimal digits. Signs, fractions, exponents, hexadecimal and digit strings beyond double precision are not modelled.
- String lengths count characters, not UTF-16 code units.
- `toLowerCase` is modelled on ASCII letters only.
- The prompt prose (the guidelines and the system prompt of the report) is a parameter or left out. Only its structure is modelled: the role profile, the topic lines and the participant block.
- Exact error message texts are not modelled. `JSON.parse` is modelled as a parsed value or its absence. Console logging is not modelled.
- Interleaving at `await` points is not modelled: each handler and each save runs to completion as one step.
- Sorting: the engine's sort algorithm is not modelled. The result is taken to be the stable order by rank, as the language has required since ES2019. When two entries of one group both carry the default id the comparator is inconsistent, and the model keeps their input order.
- `KB_TOPIC_CODE` is imported from `app/api/secrets.ts` but not defined there, so it is a configuration option. So is `AVATAR_ROLE`.
- The constant columns of the report writes (`summary_type`, `language`, `prompt_version`, `model_name`, `tenant_id`) are not stored in the model's rows. Neither are the time and size columns (`source_from_ts`, `source_to_ts`, `source_updated_at`, `bericht_generiert_am`, `generated_at`, `finished_at`, `file_size_bytes`) or the text of `error_message`: a failed run records which step failed.
- PDF drawing is taken to succeed. A standard font cannot draw characters outside WinAnsi (an emoji in the model's reply, say), which would throw after the report upsert and leave a failed run with a "final" report row.
- A `fetch` that rejects in `persistPendingMessages` leaves the counters as a failed save does, and the call rejects. Its callers are modelled with that rejection. The avatar session's `stopSession` is taken to succeed.
- LayoutSound: over a whole layout it states the bounds and one-page steps only, because a layout does not record the cursor before each draw. The exact rule, a new page exactly when y ≤ 48 before a draw, is stated per draw by `AddLineSound`.
- React rendering, video, microphone and voice chat controls are not modelled.
- The conversation start and end routes, the session-token route and `LiveAvatarDemo.tsx` are not part of this model.
