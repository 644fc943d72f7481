# video-transcriber, modelled in Dafny

A web service that turns a video URL into Markdown. It fetches the video's information, downloads the audio, and transcribes it. Then it writes four artifacts into a `temp` directory:

- the raw transcript;
- the transcript as tidied by Gemini;
- a translation, when the detected language differs from the summary language;
- a summary.

Progress goes to browsers over Server-Sent Events, and the task registry is persisted as JSON. This project models the service's core and proves properties of the model.

The modules follow the Java classes:

| module | file | models |
|---|---|---|
| `JavaStrings` | `java_strings.dfy` | the parts of `String`, `Character` and Spring's `StringUtils` the services use: `strip`, `trim`, `toLowerCase` on ASCII, `hasText`, null rendered in a concatenation |
| `RegexReplace` | `regex_replace.dfy` | the two regular-expression rewrite shapes the services use: capping runs of one character (`_+`, `\n{3,}`) and collapsing runs of a character class |
| `TaskRecord` | `task_info.dfy` | `TaskInfo`: a class whose mutators update the record in place. Each mutator is proved against a function on the record's durable fields |
| `StatusResponse` | `task_status_response.dfy` | `TaskStatusResponse`: built from a task, from a generic map, and the heartbeat |
| `Sse` | `sse_service.dfy` | `SseService`: the registry from task id to emitter list, and the broadcast, removal, completion and heartbeat rounds, as imperative methods against registry functions |
| `GeminiResponse` | `gemini_response.dfy` | the Gson accessor chain both Gemini clients use to read a reply, and the key test both clients' constructors apply |
| `Summarization` | `summarization.dfy` | `SummarizationService`: `callGeminiApi`'s outcomes, `optimizeTranscript`, `summarize`, `getLanguageName` |
| `Translation` | `translation_service.dfy` | `TranslationService`: `shouldTranslate`, `translateText`, `ensureMarkdownParagraphs`, the prompt language table |
| `Files` | `file_utils.dfy` | `FileUtils`: `saveStringToFile` on an abstract file store, and `findFileByPrefixAndExtension` on a directory listing |
| `Transcript` | `transcription_result.dfy` | `TranscriptionResult.getFullTranscript`, the builder loop kept as a loop |
| `Download` | `file_download.dfy` | `FileDownloadController.downloadFile`: its guard chain over java.nio-style paths |
| `ArtifactNames` | `artifact_names.dfy` | `sanitizeFilename` and the four artifact names |
| `Orchestration` | `task_management.dfy` | `TaskManagementService` as a class: the registry, the URL index, the tasks file, task creation, progress, failure, cancellation, and `processVideoTask` stage by stage against a pure plan of the run |

The pipeline's collaborators are a `Collaborators` value. These are the video information, the download, the transcription, the three Gemini exchanges, and the checkpoint before which the user deletes the task. The two text services are `Services`, instantiated by `GeminiServices` from the Summarization and Translation models.

## Behaviour the model brings out

- The containment check in `downloadFile` compares a relative path with an absolute one, so every download is refused (see Findings).
- In `createAndStartTask`, the "already being processed" warning at line 131 can never fire. The id that `computeIfAbsent` returns always names a registered record that carries that id.
- `cancelAndDeleteTask` releases the task's URL from the index without checking which task holds the claim, and the index invariant does not make that task the one being deleted. Task A finishes and its `finally` block releases URL U (line 270). A second submission of U then lets task B claim U (line 109). Deleting A now removes U from the index while B is still running (line 347), so a third submission of U starts a duplicate run.
- `ensureMarkdownParagraphs` replaces CR LF by LF in a single pass, so "\r\r\n" leaves a fresh CR LF behind. The guarantee of "no CR LF" holds only for input without CR CR LF.
- `updateStatus` to a non-PROCESSING state keeps the old error. "The error field is set exactly when the status is ERROR" is therefore not an invariant of `TaskInfo`.
- A title that sanitizes to a name with ".." gives artifacts that the download controller rejects by name.
- `getLanguageName` in the summary service names seven languages. The translation prompt table names eleven.

## Model

| member | source | states |
|---|---|---|
| JavaStrings.Render | src/main/java/me/qwerprog/service/TaskManagementService.java:266 | A null reference prints as "null" in a string concatenation; any other string prints as itself. |
| JavaStrings.HasTextAt | src/main/java/me/qwerprog/service/TranslationService.java:54 | One character that is not whitespace is enough for StringUtils.hasText to hold. |
| JavaStrings.DropLeading | src/main/java/me/qwerprog/service/TranslationService.java:151 | The result is a suffix of the input; every character dropped satisfies the predicate and the first one kept does not. |
| JavaStrings.DropTrailing | src/main/java/me/qwerprog/service/TranslationService.java:151 | The result is a prefix of the input; every character dropped satisfies the predicate and the last one kept does not. |
| JavaStrings.Strip | src/main/java/me/qwerprog/service/TranslationService.java:57-58 | String.strip leaves no Character.isWhitespace character at either end. |
| JavaStrings.Trim | src/main/java/me/qwerprog/model/TranscriptionResult.java:35 | String.trim leaves no character up to the space at either end. |
| JavaStrings.StripKeepsText | src/main/java/me/qwerprog/service/TranslationService.java:148-151 | A string with text never strips to the empty string. |
| JavaStrings.StripKeepsChar | src/main/java/me/qwerprog/service/TranslationService.java:151 | Stripping keeps every character that is not whitespace. |
| JavaStrings.StripLeadingBlank | src/main/java/me/qwerprog/service/TranslationService.java:57-58 | A leading whitespace character makes no difference to the strip. |
| JavaStrings.StripUnpadded | src/main/java/me/qwerprog/service/TranslationService.java:57-58 | A string that neither starts nor ends with whitespace strips to itself. |
| JavaStrings.StripIsInfix | src/main/java/me/qwerprog/service/TranslationService.java:151 | The strip is a contiguous piece of its input. |
| JavaStrings.ToLower | src/main/java/me/qwerprog/service/TranslationService.java:57 | toLowerCase keeps the length and lower-cases each ASCII letter in place. |
| RegexReplace.CapRunsFrom | src/main/java/me/qwerprog/service/TranslationService.java:150 | Capping runs of a character never makes the string longer. |
| RegexReplace.CapRunsBounded | src/main/java/me/qwerprog/service/TranslationService.java:150 | After capping, and after up to k copies already written, no run of the character is longer than k. |
| RegexReplace.CapRunsHasNoLongRun | src/main/java/me/qwerprog/service/TranslationService.java:150 | `replaceAll("\n{3,}", "\n\n")` leaves no run of three line feeds; capping at one leaves no run of two. |
| RegexReplace.RunsAtMostOneNoPair | src/main/java/me/qwerprog/service/TaskManagementService.java:470 | After `replaceAll("_+", "_")` no two underscores stand side by side. |
| RegexReplace.RunsAtMostInfix | src/main/java/me/qwerprog/service/TranslationService.java:151 | Stripping a string without long runs cannot create one. |
| RegexReplace.CapRunsFromInput | src/main/java/me/qwerprog/service/TranslationService.java:150 | Capping only removes characters: every output character occurs in the input. |
| RegexReplace.CapRunsKeepsNoPair | src/main/java/me/qwerprog/service/TranslationService.java:149-150 | Capping line-feed runs never puts a CR in front of a line feed it did not already precede. |
| RegexReplace.CollapseOutside | src/main/java/me/qwerprog/service/TaskManagementService.java:468 | Collapsing runs of unsafe characters never makes the string longer. |
| RegexReplace.CollapseOutsideChars | src/main/java/me/qwerprog/service/TaskManagementService.java:468 | After `replaceAll("[^\w\-.]+", "_")` every character is an underscore or a safe character of the input. |
| RegexReplace.CollapseOutsideNoKept | src/main/java/me/qwerprog/service/TaskManagementService.java:468 | A non-empty name made only of unsafe characters becomes a single underscore. |
| TaskRecord.FreshRecord | src/main/java/me/qwerprog/dto/TaskInfo.java:29-43 | A new record is PROCESSING at 0 with the message "任务已创建...", no error and no artifact path. |
| TaskRecord.StatusUpdated | src/main/java/me/qwerprog/dto/TaskInfo.java:59-65 | updateStatus sets the status and message and keeps the progress. It clears the error only for PROCESSING, keeps it otherwise, and touches nothing else. |
| TaskRecord.ProgressUpdated | src/main/java/me/qwerprog/dto/TaskInfo.java:72-80 | updateProgress never lowers the progress and caps it at 100. A lower value leaves the progress as it was. The message is set, the status becomes PROCESSING and the error is cleared. |
| TaskRecord.Completed | src/main/java/me/qwerprog/dto/TaskInfo.java:86-91 | complete makes the record COMPLETED at 100 with the given message and no error. |
| TaskRecord.Failed | src/main/java/me/qwerprog/dto/TaskInfo.java:97-103 | fail makes the record ERROR with the given error. The message is the given one, or "处理失败" when it is null. Progress and paths are kept. |
| TaskRecord.ResultPathsSet | src/main/java/me/qwerprog/dto/TaskInfo.java:106-111 | setResultPaths stores each path as given, a null one as null, and changes no other field. |
| TaskRecord.VideoDetailsSet | src/main/java/me/qwerprog/dto/TaskInfo.java:113-117 | setVideoDetails stores the title and both languages and changes no other field. |
| TaskRecord.MutatorsKeepProgressInRange | src/main/java/me/qwerprog/dto/TaskInfo.java:59-103 | Starting in range, every mutator keeps the progress in [0, 100]. |
| TaskRecord.StatusUpdateCanBreakErrorIffFailed | src/main/java/me/qwerprog/dto/TaskInfo.java:59-65 | updateStatus to COMPLETED after a failure leaves a COMPLETED record that still carries the error, so "error exactly when ERROR" is not an invariant. |
| TaskRecord.TaskInfo.constructor | src/main/java/me/qwerprog/dto/TaskInfo.java:27-50 | The no-argument constructor with the field initialisers, then the id and URL set: the record is Fresh with that id and URL, and it has no future. |
| TaskRecord.TaskInfo.FromData | src/main/java/me/qwerprog/service/TaskManagementService.java:411-412 | A deserialised record holds exactly the stored fields and has no future and no audio path. |
| TaskRecord.TaskInfo.UpdateStatus | src/main/java/me/qwerprog/dto/TaskInfo.java:59-65 | The record's durable fields become StatusUpdated of the old ones. |
| TaskRecord.TaskInfo.UpdateProgress | src/main/java/me/qwerprog/dto/TaskInfo.java:72-80 | The record's durable fields become ProgressUpdated of the old ones. |
| TaskRecord.TaskInfo.Complete | src/main/java/me/qwerprog/dto/TaskInfo.java:86-91 | The record's durable fields become Completed of the old ones. |
| TaskRecord.TaskInfo.Fail | src/main/java/me/qwerprog/dto/TaskInfo.java:97-103 | The record's durable fields become Failed of the old ones. |
| TaskRecord.TaskInfo.SetResultPaths | src/main/java/me/qwerprog/dto/TaskInfo.java:106-111 | The record's durable fields become ResultPathsSet of the old ones. |
| TaskRecord.TaskInfo.SetVideoDetails | src/main/java/me/qwerprog/dto/TaskInfo.java:113-117 | The record's durable fields become VideoDetailsSet of the old ones. |
| StatusResponse.StatusName | src/main/java/me/qwerprog/dto/TaskStatusResponse.java:39 | The status sent to clients is "processing", "completed" or "error", one per enum constant. |
| StatusResponse.StatusNameIsLowerCaseName | src/main/java/me/qwerprog/dto/TaskStatusResponse.java:39 | Each status name is toLowerCase of the enum constant's name. |
| StatusResponse.FromTaskInfo | src/main/java/me/qwerprog/dto/TaskStatusResponse.java:37-54 | Copies the progress, message, error, URL, title, three paths and both languages verbatim. The status becomes its lower-cased name. Script, summary, translation and type stay null. A null task gives the all-default response. |
| StatusResponse.Heartbeat | src/main/java/me/qwerprog/dto/TaskStatusResponse.java:98-104 | The heartbeat has type "heartbeat", message "ping", progress 0, and every other field null. |
| StatusResponse.StringEntry | src/main/java/me/qwerprog/dto/TaskStatusResponse.java:61-75 | An absent key gives the default, a key mapped to null gives null, and a string gives itself. Any other value makes the cast throw. |
| StatusResponse.ProgressEntry | src/main/java/me/qwerprog/dto/TaskStatusResponse.java:62 | An absent progress is 0 and an integer is kept. Anything else, null included, throws. |
| StatusResponse.FromMap | src/main/java/me/qwerprog/dto/TaskStatusResponse.java:58-77 | fromMap fails exactly when a key it reads holds a value of the wrong type, and the error names such a key. A bad status is the exception raised before any other. A bad progress comes next, and it is a NullPointerException exactly when the progress is null. Otherwise every field is its key's value, null for a key mapped to null, and the default for an absent key: "unknown", 0 and "" for status, progress and message, null for the rest. |
| GeminiResponse.AsObject | src/main/java/me/qwerprog/service/SummarizationService.java:141 | getAsJsonObject succeeds exactly on an object and yields its members. |
| GeminiResponse.MemberObject | src/main/java/me/qwerprog/service/SummarizationService.java:145 | getAsJsonObject(name) succeeds exactly when the member is an object. An absent member leads to a NullPointerException. |
| GeminiResponse.MemberArray | src/main/java/me/qwerprog/service/SummarizationService.java:167-170 | getAsJsonArray(name) succeeds exactly when the member is an array. An absent member leads to a NullPointerException. |
| GeminiResponse.Member | src/main/java/me/qwerprog/service/SummarizationService.java:172 | get(name) succeeds exactly when the member is present. |
| GeminiResponse.Element | src/main/java/me/qwerprog/service/SummarizationService.java:168 | get(i) succeeds exactly for an index inside the array. |
| GeminiResponse.AsString | src/main/java/me/qwerprog/service/SummarizationService.java:172 | getAsString gives a string's text. It throws on null and on objects, and on arrays that do not hold exactly one element. |
| GeminiResponse.CandidateText | src/main/java/me/qwerprog/service/SummarizationService.java:167-172 | No contract of its own: the accessor chain, each step failing with the exception Gson throws. The two lemmas below state what it reads. |
| GeminiResponse.CandidateTextOfTextReply | src/main/java/me/qwerprog/service/SummarizationService.java:167-172 | Reading candidates[0].content.parts[0].text out of a reply built around a text gives back that text. |
| GeminiResponse.CandidateTextNeedsCandidates | src/main/java/me/qwerprog/service/SummarizationService.java:167-172 | Any reply the chain can read has a non-empty candidates array whose first element is an object. |
| GeminiResponse.CandidateTextReadsFirstOnly | src/main/java/me/qwerprog/service/SummarizationService.java:167-172 | Further candidates, further parts and other top-level members do not change the text read. |
| Summarization.ErrorMessage | src/main/java/me/qwerprog/service/SummarizationService.java:145-146 | An error object without a message gives "Unknown API error". An error member that is not an object makes the reading fail. |
| GeminiResponse.ClientAvailable | src/main/java/me/qwerprog/service/SummarizationService.java:21-33 | No contract of its own: a web client is built unless the key is null, blank or "YOUR_GOOGLE_AI_API_KEY_HERE". The translation service's constructor at TranslationService.java:39-51 applies the same test. |
| Summarization.HasCandidates | src/main/java/me/qwerprog/service/SummarizationService.java:152 | No contract of its own: the guard that "candidates" is present, is an array and is not empty. |
| Summarization.Outcome | src/main/java/me/qwerprog/service/SummarizationService.java:120-193 | No contract of its own: the outcome of the call once a client exists, branch by branch. OutcomeIsTextOrFailure and OutcomeMessages state its results. |
| Summarization.Answered | src/main/java/me/qwerprog/service/SummarizationService.java:136-175 | No contract of its own: the replies that reach the result. The body has text and parses to an object with no error member, and the text path is readable. |
| Summarization.CallGeminiApi | src/main/java/me/qwerprog/service/SummarizationService.java:98-102 | callGeminiApi returns null exactly when the service has no client. |
| Summarization.UnconfiguredKeyDisablesCalls | src/main/java/me/qwerprog/service/SummarizationService.java:99-101 | A service whose constructor got a null, blank or placeholder key answers every call with null. Any other key gives an answer. |
| Summarization.OutcomeIsTextOrFailure | src/main/java/me/qwerprog/service/SummarizationService.java:120-193 | The call never throws. An accepted reply gives exactly the text at candidates[0].content.parts[0].text, and every other outcome starts with "API 调用失败: ". |
| Summarization.OutcomeMessages | src/main/java/me/qwerprog/service/SummarizationService.java:136-180 | The message for each reply form the code names: error with and without a message, an error member that is not an object, promptFeedback, empty candidates, an unreadable candidate, a good reply, an empty body. |
| Summarization.OptimizeTranscript | src/main/java/me/qwerprog/service/SummarizationService.java:35-63 | Without a client, or for a blank transcript, the transcript comes back unchanged. Otherwise the result is the generated text, or a failure string. |
| Summarization.LanguageName | src/main/java/me/qwerprog/service/SummarizationService.java:196-207 | No contract of its own: the seven display names and the code itself otherwise. LanguageNamesAgree relates it to the translation table. |
| Summarization.LanguageNamesAgree | src/main/java/me/qwerprog/service/SummarizationService.java:196-207 | getLanguageName names zh, en, es, fr, de, ja and ko as the translation table does and returns any other code unchanged. So it gives the bare code for it, pt, ru and ar, which the translation table names. |
| Summarization.Summarize | src/main/java/me/qwerprog/service/SummarizationService.java:65-96 | Without a client the result is "摘要功能暂不可用", and that check comes first. For blank text it is "无内容可摘要". Otherwise it is the generated text or a failure string. |
| Translation.PromptLanguageName | src/main/java/me/qwerprog/service/TranslationService.java:25-37 | No contract of its own: LANGUAGE_MAP_PROMPT with its eleven entries and getOrDefault's fallback. PromptLanguageNameFallback states what it returns. |
| Translation.PromptLanguageNameFallback | src/main/java/me/qwerprog/service/TranslationService.java:25-37 | A code outside LANGUAGE_MAP_PROMPT names itself, and each of the eleven codes in it gets a name different from the code. |
| Translation.ShouldTranslate | src/main/java/me/qwerprog/service/TranslationService.java:53-68 | No contract of its own: both codes have text, they differ once normalised, and they are not both simplified-Chinese variants. The lemmas below state its properties. |
| Translation.ShouldTranslateSymmetric | src/main/java/me/qwerprog/service/TranslationService.java:53-68 | shouldTranslate does not depend on the order of its arguments. |
| Translation.ShouldTranslateNeedsTwoLanguages | src/main/java/me/qwerprog/service/TranslationService.java:53-62 | A language is never translated into itself, and a null or blank code is never translated to or from. |
| Translation.Normalized | src/main/java/me/qwerprog/service/TranslationService.java:57-58 | No contract of its own: toLowerCase, then strip. NormalizedTo and NormalizedIgnoresLeadingBlank state how codes compare. |
| Translation.NormalizedTo | src/main/java/me/qwerprog/service/TranslationService.java:57-58 | A code whose lower-cased form has no surrounding whitespace compares as that form. |
| Translation.BothChineseNotTranslated | src/main/java/me/qwerprog/service/TranslationService.java:63-66 | Two codes that both compare as zh, zh-cn or zh-hans are not translated. |
| Translation.DistinctLanguagesTranslated | src/main/java/me/qwerprog/service/TranslationService.java:53-68 | Two codes with text that compare differently, and are not both simplified Chinese, are translated. This is the "true in every other case" half. |
| Translation.LowerKeepsText | src/main/java/me/qwerprog/service/TranslationService.java:54-57 | Lower-casing a code neither creates nor removes text. |
| Translation.NormalizedIgnoresLeadingBlank | src/main/java/me/qwerprog/service/TranslationService.java:57-58 | A leading whitespace character does not change how a code compares. |
| Translation.LeadingBlankKeepsText | src/main/java/me/qwerprog/service/TranslationService.java:54 | A leading whitespace character neither creates nor removes text. |
| Translation.CaseAndBlanksIgnored | src/main/java/me/qwerprog/service/TranslationService.java:53-68 | The decision ignores a code's case and a leading blank. |
| Translation.TraditionalChineseTranslates | src/main/java/me/qwerprog/service/TranslationService.java:63-67 | "zh-tw" is not a simplified variant, so "zh-tw" to "zh" is translated. |
| Translation.ReplaceCrLf | src/main/java/me/qwerprog/service/TranslationService.java:149 | Replacing CR LF by LF never makes the text longer. |
| Translation.ReplaceCrLfRemovesPairs | src/main/java/me/qwerprog/service/TranslationService.java:149 | Without CR CR LF in the input, no CR LF is left. |
| Translation.ReplaceCrLfLeavesCrCrLf | src/main/java/me/qwerprog/service/TranslationService.java:149 | "a\r\r\nb" becomes "a\r\nb": a CR just before a CR LF survives as a new CR LF. |
| Translation.ReplaceCrLfKeeps | src/main/java/me/qwerprog/service/TranslationService.java:149 | The replacement drops only CRs. |
| Translation.CapRunsKeeps | src/main/java/me/qwerprog/service/TranslationService.java:150 | Capping line-feed runs keeps every character other than a line feed. |
| Translation.ParagraphsKeepText | src/main/java/me/qwerprog/service/TranslationService.java:147-152 | Text with text keeps text after the clean-up. |
| Translation.ParagraphsRunsCapped | src/main/java/me/qwerprog/service/TranslationService.java:149-151 | No run of three line feeds survives the clean-up. |
| Translation.ParagraphsNoCrLf | src/main/java/me/qwerprog/service/TranslationService.java:149-151 | Without CR CR LF in the input, the cleaned text holds no CR LF. |
| Translation.MarkdownParagraphs | src/main/java/me/qwerprog/service/TranslationService.java:147-152 | No contract of its own: blank text becomes "". Otherwise CR LF becomes LF, runs of three or more LF become two, and the result is stripped. MarkdownParagraphsShape states its shape. |
| Translation.MarkdownParagraphsShape | src/main/java/me/qwerprog/service/TranslationService.java:147-152 | ensureMarkdownParagraphs: no whitespace at either end, no three line feeds in a row. Text exactly when the input has text, so blank input gives "". No CR LF when the input has no CR CR LF. |
| Translation.TranslatedText | src/main/java/me/qwerprog/service/TranslationService.java:130-136 | A translation is read exactly when the call returned a non-null body that parses to an object whose text path is readable. The translation is the text at that path. |
| Translation.TranslateText | src/main/java/me/qwerprog/service/TranslationService.java:70-145 | The text comes back unchanged without a client, for blank text, and when no translation is needed. Otherwise the result is the cleaned-up translation, or the text itself when the call or the reading throws. |
| Translation.TranslateTextIsInputOrClean | src/main/java/me/qwerprog/service/TranslationService.java:70-145 | Whatever happens, the result is the input, or a text with no whitespace at its ends and no three line feeds in a row. |
| Translation.TranslateTextOfReply | src/main/java/me/qwerprog/service/TranslationService.java:119-139 | For a readable reply carrying t, the result is t after ensureMarkdownParagraphs. |
| Files.FileStore.SaveStringToFile | src/main/java/me/qwerprog/utils/FileUtils.java:24-43 | A null content is written as "". A failing write rethrows and leaves the files as they were. A successful write replaces only that path's content. |
| Files.MatchesName | src/main/java/me/qwerprog/utils/FileUtils.java:60-71 | The filter returns true exactly when the name starts with the prefix and ends with one of the extensions. |
| Files.FirstAccepted | src/main/java/me/qwerprog/utils/FileUtils.java:58-73 | Gives the position of the first regular entry whose name fits, with none before it, or none when no entry fits. |
| Files.FindFileByPrefixAndExtension | src/main/java/me/qwerprog/utils/FileUtils.java:52-78 | Null for a non-directory and for a failed listing. Otherwise the path, inside the directory, of the first regular file in listing order whose name fits, or null when none fits. |
| Files.Resolve | src/main/java/me/qwerprog/utils/FileUtils.java:57-72 | Path.resolve of an entry name: the result starts with the directory and ends with the name, which is its whole last component after one separator. |
| Files.DirectoriesAreSkipped | src/main/java/me/qwerprog/utils/FileUtils.java:59 | A non-regular entry is never returned, even when its name is the only one that fits; the regular file after it is returned as its path in the directory. |
| Transcript.TrimmedTexts | src/main/java/me/qwerprog/model/TranscriptionResult.java:35 | The segment texts, each trimmed, in segment order. |
| Transcript.FullTranscript | src/main/java/me/qwerprog/model/TranscriptionResult.java:32-38 | The loop builds every trimmed text followed by a space, and the whole is trimmed. |
| Transcript.Spaced | src/main/java/me/qwerprog/model/TranscriptionResult.java:33-36 | No contract of its own: each part followed by one space, as the builder loop appends them. |
| Transcript.Join | src/main/java/me/qwerprog/model/TranscriptionResult.java:33-36 | No contract of its own: String.join. SpacedIsJoin relates the two. |
| Transcript.SpacedIsJoin | src/main/java/me/qwerprog/model/TranscriptionResult.java:33-36 | The builder holds the trimmed texts joined by single spaces, plus one trailing space. |
| Transcript.TrimIgnoresTrailingSpace | src/main/java/me/qwerprog/model/TranscriptionResult.java:37 | The final trim removes the builder's trailing space. |
| Transcript.FullTranscriptIsJoin | src/main/java/me/qwerprog/model/TranscriptionResult.java:32-38 | The full transcript is the trimmed segment texts, in order, joined by single spaces, then trimmed. |
| Transcript.FullTranscriptOfNoSegments | src/main/java/me/qwerprog/model/TranscriptionResult.java:32-38 | No segments give "". |
| Transcript.FullTranscriptOfOneSegment | src/main/java/me/qwerprog/model/TranscriptionResult.java:35-37 | One segment gives its trimmed text. |
| Transcript.TrimIdempotent | src/main/java/me/qwerprog/model/TranscriptionResult.java:35-37 | Trimming twice is trimming once. |
| Transcript.FullTranscriptOfNonBlankSegments | src/main/java/me/qwerprog/model/TranscriptionResult.java:33-37 | When no segment is blank, the transcript is exactly the trimmed texts joined by single spaces. |
| Transcript.FullTranscriptUnpadded | src/main/java/me/qwerprog/model/TranscriptionResult.java:37 | The transcript neither starts nor ends with a character trim removes. |
| Download.Normalize | src/main/java/me/qwerprog/controller/FileDownloadController.java:61 | Path.normalize keeps whether the path is absolute. |
| Download.ToAbsolutePath | src/main/java/me/qwerprog/controller/FileDownloadController.java:64 | Path.toAbsolutePath gives an absolute path. |
| Download.Serve | src/main/java/me/qwerprog/controller/FileDownloadController.java:69-91 | The request is served exactly when the file exists and is readable and nothing throws. The response is a text/markdown attachment named after the file. Refusals are NOT_FOUND or INTERNAL_SERVER_ERROR, never BAD_REQUEST. |
| Download.DownloadFile | src/main/java/me/qwerprog/controller/FileDownloadController.java:45-92 | A name outside `^[\w\-.]+$`, or one holding "..", is BAD_REQUEST "Invalid filename format.". A valid name not ending in ".md", in any case, is BAD_REQUEST "Only .md files can be downloaded.". |
| Download.NameChecksComeFirst | src/main/java/me/qwerprog/controller/FileDownloadController.java:48-61 | Both name checks decide before any path is built: their BAD_REQUEST does not depend on the working directory or the files. |
| Download.RelativeNeverStartsWithAbsolute | src/main/java/me/qwerprog/controller/FileDownloadController.java:64 | Path.startsWith is false between a relative and an absolute path. |
| Download.DownloadAlwaysRefused | src/main/java/me/qwerprog/controller/FileDownloadController.java:61-67 | As written, every name that passes both checks is refused with BAD_REQUEST "Invalid file path.". |
| Download.ExistingFileIsRefused | src/main/java/me/qwerprog/controller/FileDownloadController.java:61-67 | The controller refuses "a.md" even when that file exists and is readable in the temp directory. |
| Download.ValidNameStaysInside | src/main/java/me/qwerprog/controller/FileDownloadController.java:61 | A valid markdown name resolves and normalises to temp/<name>. |
| Download.DownloadFileCorrected | src/main/java/me/qwerprog/controller/FileDownloadController.java:45-92 | The guard chain with the containment check made on absolute paths. The two name checks behave as in the code. |
| Download.CorrectedServesTempFiles | src/main/java/me/qwerprog/controller/FileDownloadController.java:61-82 | Once the check is corrected, a valid markdown name is served exactly when temp/<name> exists and is readable, and nothing else is served. |
| ArtifactNames.DropLeadingUnderscore | src/main/java/me/qwerprog/service/TaskManagementService.java:472 | The "^_" alternative: the result is the input, or the input is an underscore followed by the result. It differs from the input exactly when the input starts with an underscore. |
| ArtifactNames.DropTrailingUnderscore | src/main/java/me/qwerprog/service/TaskManagementService.java:472 | The "_$" alternative: the result is the input, or the result followed by an underscore is the input. It differs from the input exactly when the input ends with an underscore. |
| ArtifactNames.Cleaned | src/main/java/me/qwerprog/service/TaskManagementService.java:468-472 | No contract of its own: the three rewrites in order, runs of unsafe characters to "_", runs of "_" to one, then one underscore removed at each end. CleanedShape states the shape of the result. |
| ArtifactNames.Capped | src/main/java/me/qwerprog/service/TaskManagementService.java:475-479 | A name of at most 100 characters is kept. A longer one is cut to a prefix of 99 or 100 characters. The result is always a prefix of the input. |
| ArtifactNames.SanitizeFilename | src/main/java/me/qwerprog/service/TaskManagementService.java:463-482 | A name without text becomes "untitled". The result is never empty and has at most 100 characters. SanitizeFilenameShape states the rest of its shape. |
| ArtifactNames.DropUnderscoresShape | src/main/java/me/qwerprog/service/TaskManagementService.java:472 | Removing an underscore at each end keeps only safe characters and no double underscore, and leaves no underscore at either end. |
| ArtifactNames.CollapsedSingles | src/main/java/me/qwerprog/service/TaskManagementService.java:468-470 | The first two rewrites leave only [A-Za-z0-9_.-] characters and no two underscores in a row. |
| ArtifactNames.CleanedShape | src/main/java/me/qwerprog/service/TaskManagementService.java:468-472 | The three rewrites leave only safe characters, no double underscore and no underscore at either end. |
| ArtifactNames.CappedShape | src/main/java/me/qwerprog/service/TaskManagementService.java:475-479 | The cut to 100 characters, then the removal of one trailing underscore, keeps that shape and bounds the length. |
| ArtifactNames.SanitizeFilenameShape | src/main/java/me/qwerprog/service/TaskManagementService.java:463-482 | A sanitized name is never empty and has at most 100 characters, all from [A-Za-z0-9_.-]. It has no "__" and no underscore at either end. |
| ArtifactNames.UnsafeNameIsUntitled | src/main/java/me/qwerprog/service/TaskManagementService.java:463-482 | A name made only of unsafe characters becomes "untitled". A title written entirely in Chinese is an example. |
| ArtifactNames.CollapseKeepsNameChars | src/main/java/me/qwerprog/service/TaskManagementService.java:468 | The unsafe-character rewrite leaves a name of safe characters as it is. |
| ArtifactNames.CapRunsKeepsSingles | src/main/java/me/qwerprog/service/TaskManagementService.java:470 | The underscore-run rewrite leaves a name without "__" as it is. |
| ArtifactNames.SafeNameIsKept | src/main/java/me/qwerprog/service/TaskManagementService.java:463-482 | A name already in the sanitized shape is left as it is. |
| ArtifactNames.SanitizeIdempotent | src/main/java/me/qwerprog/service/TaskManagementService.java:463-482 | Sanitizing twice is sanitizing once. |
| ArtifactNames.ArtifactName | src/main/java/me/qwerprog/service/TaskManagementService.java:205 | It fails exactly for an id shorter than six characters, with substring's message. Otherwise it is "<kind>_<title>_", then the id's first six characters, then ".md". |
| ArtifactNames.MdSuffixIsMarkdown | src/main/java/me/qwerprog/controller/FileDownloadController.java:55 | Every artifact name passes the extension check. |
| ArtifactNames.MdNameIsValid | src/main/java/me/qwerprog/controller/FileDownloadController.java:50-58 | A stem of safe characters with no ".." and no final dot, plus ".md", passes both name checks. |
| ArtifactNames.ArtifactNamesAreDownloadable | src/main/java/me/qwerprog/service/TaskManagementService.java:204-205 | The condition: a title whose sanitized form has no "..", and an id whose first six characters are safe and not dots, as a UUID's are. Under it, each of the four artifact names passes the download controller's name checks. |
| ArtifactNames.DottedTitleIsSafe | src/main/java/me/qwerprog/service/TaskManagementService.java:468 | "a..b" is already in the sanitized shape: the sanitizer keeps dots. |
| ArtifactNames.DottedTitleIsNotDownloadable | src/main/java/me/qwerprog/controller/FileDownloadController.java:50 | The title "a..b" survives sanitizing. Its raw transcript's name then holds "..", so the download controller refuses it. |
| Orchestration.FailureMessage | src/main/java/me/qwerprog/service/TaskManagementService.java:306 | The stored message is "处理失败: ", a prefix of the error of at most 100 characters, and "...". |
| Orchestration.FailureMessageCuts | src/main/java/me/qwerprog/service/TaskManagementService.java:306 | A short error is kept whole, and a long one is cut after its hundredth character. "..." follows in both cases. |
| Orchestration.GeminiServices | src/main/java/me/qwerprog/service/TaskManagementService.java:214-245 | No contract of its own: the three text services the pipeline calls, optimizeTranscript, translateText and summarize, each answering from its own exchange. |
| Orchestration.CreatedRecord | src/main/java/me/qwerprog/service/TaskManagementService.java:110-115 | No contract of its own: the new record's fields, then updateStatus(PROCESSING, "任务创建，准备处理..."). CreatedRecordShape states its shape. |
| Orchestration.CreatedRecordShape | src/main/java/me/qwerprog/service/TaskManagementService.java:110-115 | The new record carries the id, the URL and the summary language. It is PROCESSING at 0 with "任务创建，准备处理...", no error and no artifact paths. |
| Orchestration.Reloaded | src/main/java/me/qwerprog/service/TaskManagementService.java:420-426 | A reloaded PROCESSING record becomes ERROR with "Application restarted during processing." and "处理中断", keeping its progress. Any other record is kept as it is. |
| Orchestration.LoadedRecords | src/main/java/me/qwerprog/service/TaskManagementService.java:407-438 | An absent or unreadable file gives an empty registry. A readable one gives a record for each stored id. |
| Orchestration.LoadIdempotent | src/main/java/me/qwerprog/service/TaskManagementService.java:407-438 | Loading a loaded registry changes nothing. |
| Orchestration.SaveLoadRoundTrip | src/main/java/me/qwerprog/service/TaskManagementService.java:407-456 | Saving then loading gives back every id and every record, except that PROCESSING records come back failed. With none PROCESSING, the round trip is exact. |
| Orchestration.FailureText | src/main/java/me/qwerprog/service/TaskManagementService.java:261-266 | A CancellationException gives "Task was cancelled by user.". Any other exception gives "Processing failed: " followed by its message, null printed as "null". |
| Orchestration.FailureTextReported | src/main/java/me/qwerprog/service/TaskManagementService.java:261-266 | Every error the pipeline reports is the cancellation text or starts with "Processing failed: ". |
| Orchestration.WrittenElsewhere | src/main/java/me/qwerprog/service/TaskManagementService.java:207-250 | A path the run does not write keeps its content, and no file appears that was not written. |
| Orchestration.WrittenDistinct | src/main/java/me/qwerprog/service/TaskManagementService.java:207-250 | When no two writes share a path, every file written holds what was written to it. |
| Orchestration.ArtifactPaths | src/main/java/me/qwerprog/service/TaskManagementService.java:204-249 | Building the four paths fails exactly for an id shorter than six characters, with substring's message. |
| Orchestration.ArtifactPathsSpelled | src/main/java/me/qwerprog/service/TaskManagementService.java:205-249 | Each path is "temp/<kind>_<sanitized title>_<first six characters of the id>.md", for raw, transcript, translation and summary. |
| Orchestration.ArtifactPathsDistinct | src/main/java/me/qwerprog/service/TaskManagementService.java:205-248 | The four paths are pairwise different, so no artifact overwrites another. |
| Orchestration.FetchPlan | src/main/java/me/qwerprog/service/TaskManagementService.java:183-200 | The fetch passes checkpoints 10, 15 and 35 only when all three collaborators answer. Its title defaults to "untitled" and its language to "en". A fetch that stops early never completes, and a deletion stops it only when the user deletes. |
| Orchestration.DownloadPlan | src/main/java/me/qwerprog/service/TaskManagementService.java:190-193 | From checkpoint 15, with the same guarantees for the download and the transcription. |
| Orchestration.TranscribePlan | src/main/java/me/qwerprog/service/TaskManagementService.java:196-200 | From checkpoint 35. A successful transcription keeps the title, and the detected language defaults to "en". A failure has the fetch's failure shape. |
| Orchestration.WritePlan | src/main/java/me/qwerprog/service/TaskManagementService.java:204-209 | A completed run wrote the raw transcript, the transcript, then the translation exactly when it translated, then the summary. Every one of those paths was writable. |
| Orchestration.ScriptPlan | src/main/java/me/qwerprog/service/TaskManagementService.java:213-221 | A completed run passed 55, then 70 when it translated, then 80. It wrote the transcript, then the translation when it translated, then the summary, all to writable paths. |
| Orchestration.TranslationPlan | src/main/java/me/qwerprog/service/TaskManagementService.java:225-239 | Checkpoint 70 and the translation's write happen exactly when the run translates. Then come 80 and the summary. A failure reports "Processing failed: ", and the deletion checkpoint is never passed. |
| Orchestration.SummaryPlan | src/main/java/me/qwerprog/service/TaskManagementService.java:243-259 | A completed run passed 80 and wrote the summary last. |
| Orchestration.Plan | src/main/java/me/qwerprog/service/TaskManagementService.java:181-266 | A completed run had the video information, the download and the transcription succeed. It took the title and the language from them, or from their defaults. It translated exactly when the detected and the summary languages differ. It passed 10, 15, 35, 55, then 70 only when translating, then 80. It wrote the raw transcript, the transcript, the translation when there was one, and the summary, in that order, to writable paths. An aborted run reports the cancellation text or "Processing failed: ". A deleted ending needs the user's deletion, and the deletion checkpoint is never passed. |
| Orchestration.FinishedRecord | src/main/java/me/qwerprog/service/TaskManagementService.java:255-257 | No contract of its own: the paths set, the video details set, then COMPLETED with "处理完成！". FinishedRecordShape states its shape. |
| Orchestration.FinishedRecordShape | src/main/java/me/qwerprog/service/TaskManagementService.java:255-257 | A completed record is COMPLETED at 100 with "处理完成！" and no error. It carries the run's title, languages and paths; the translation path is set exactly when it translated. Nothing of the record before the run survives but the id and URL. |
| Orchestration.CheckpointsIncrease | src/main/java/me/qwerprog/service/TaskManagementService.java:183-257 | The checkpoints of a completed run, then 100, strictly increase. |
| Orchestration.UntroubledRunCompletes | src/main/java/me/qwerprog/service/TaskManagementService.java:181-259 | The run completes when every collaborator answers, no one deletes the task, the id has six characters and every write succeeds. |
| Orchestration.FailedFetchWritesNothing | src/main/java/me/qwerprog/service/TaskManagementService.java:183-200 | A run whose video information, download or transcription fails writes no file and does not complete. |
| Orchestration.UrlIndexRemoved | src/main/java/me/qwerprog/service/TaskManagementService.java:270 | Releasing a URL keeps the URL index consistent. |
| Orchestration.UrlIndexAdded | src/main/java/me/qwerprog/service/TaskManagementService.java:109-127 | Claiming a URL for a new record that carries it keeps the URL index consistent. |
| Orchestration.UrlIndexTaskRemoved | src/main/java/me/qwerprog/service/TaskManagementService.java:344-348 | Removing a task together with its own URL keeps the URL index consistent. |
| Orchestration.Records | src/main/java/me/qwerprog/service/TaskManagementService.java:447 | The serialised registry has exactly the registered ids. |
| Orchestration.LoadTasks | src/main/java/me/qwerprog/service/TaskManagementService.java:407-438 | The records loaded are fresh objects, one per stored id, with the loaded fields and no future. |
| Orchestration.TaskManagementService.Snapshot | src/main/java/me/qwerprog/service/TaskManagementService.java:447 | The snapshot has exactly the registered ids. |
| Orchestration.TaskManagementService.Publish | src/main/java/me/qwerprog/service/TaskManagementService.java:291 | One broadcast of the record's current status response: the registry becomes the broadcast registry, each subscriber of the task whose send does not fail receives the new status response, in list order, failing emitters leave the list, and no other task's list changes. Afterwards the last event each remaining subscriber of the task has received is that response. |
| Orchestration.TaskManagementService.Pushed | src/main/java/me/qwerprog/service/SseService.java:80-107 | No contract of its own: the registry and the delivery log are those of one broadcast of the given record from the given starting state. |
| Orchestration.TaskManagementService.LastPushed | src/main/java/me/qwerprog/service/SseService.java:91-105 | No contract of its own: every emitter still registered for the task has the given record's status response as the last event delivered to it. |
| Orchestration.TaskManagementService.CloseEmitters | src/main/java/me/qwerprog/service/TaskManagementService.java:276 | Every emitter still subscribed to the task is completed. |
| Orchestration.TaskManagementService.CloseAndSave | src/main/java/me/qwerprog/service/TaskManagementService.java:274-276 | The task's emitters are completed, and the file holds the snapshot unless the write fails. |
| Orchestration.TaskManagementService.constructor | src/main/java/me/qwerprog/service/TaskManagementService.java:66-79 | The service starts with no task and no URL in process. The summarization and translation services have a client exactly when the key each constructor received passes ClientAvailable. |
| Orchestration.TaskManagementService.Initialize | src/main/java/me/qwerprog/service/TaskManagementService.java:84-89 | Every stored record becomes a fresh object with the loaded fields and no future. PROCESSING records are failed as interrupted. No URL is put back in process. |
| Orchestration.TaskManagementService.Shutdown | src/main/java/me/qwerprog/service/TaskManagementService.java:94-98 | The registry is saved once more. |
| Orchestration.TaskManagementService.SaveTasks | src/main/java/me/qwerprog/service/TaskManagementService.java:443-456 | The file receives the snapshot of the registry. A failed write leaves the old file. |
| Orchestration.TaskManagementService.GetTask | src/main/java/me/qwerprog/service/TaskManagementService.java:162-168 | getTask gives the registered record, or the "Task not found with ID" exception for an unknown id. |
| Orchestration.TaskManagementService.IsUrlCurrentlyProcessing | src/main/java/me/qwerprog/service/TaskManagementService.java:151-153 | A URL is reported as in process exactly when the index holds it. |
| Orchestration.TaskManagementService.CreateAndStartTask | src/main/java/me/qwerprog/service/TaskManagementService.java:107-144 | A URL already in process yields its task's id and adds nothing. Otherwise exactly one new PROCESSING record under the fresh id, with a running future, claims the URL and is saved. Either way that task's state is broadcast once: each subscriber of the task whose send does not fail receives the new status response, in list order, failing emitters leave the list, and no other task's list changes, and nothing is sent when the task has no subscriber. The returned id always names a record carrying that id, so the "already processing" warning never fires. |
| Orchestration.TaskManagementService.NewTask | src/main/java/me/qwerprog/service/TaskManagementService.java:110-115 | The record built inside computeIfAbsent is the created record, without a future yet. |
| Orchestration.TaskManagementService.UpdateTaskProgress | src/main/java/me/qwerprog/service/TaskManagementService.java:286-296 | Only a PROCESSING record is updated, broadcast and saved: each subscriber of the task whose send does not fail receives the new status response, in list order, failing emitters leave the list, and no other task's list changes, and the last event each remaining subscriber has received is the update. Any other record, the subscribers, the deliveries and the file are left alone. An unknown id throws. |
| Orchestration.TaskManagementService.HandleTaskFailure | src/main/java/me/qwerprog/service/TaskManagementService.java:303-320 | The record fails with the whole error and the cut message. It is then broadcast (each subscriber of the task whose send does not fail receives the new status response, in list order, failing emitters leave the list, and no other task's list changes), saved, releases its URL and has its emitters completed; the last event each remaining subscriber has received is the failed record. An unknown id changes nothing. |
| Orchestration.TaskManagementService.CancelAndDeleteTask | src/main/java/me/qwerprog/service/TaskManagementService.java:327-357 | An unknown id throws and changes nothing. Otherwise a running future is cancelled, the record is failed with "Task cancelled by user."/"任务已取消" and broadcast (each subscriber of the task whose send does not fail receives the new status response, in list order, failing emitters leave the list, and no other task's list changes; the last event each remaining subscriber has received is the cancelled record); a task that is not running sends nothing. The record is then removed, its URL released, its emitters completed and the registry saved. |
| Orchestration.TaskManagementService.CancelRunning | src/main/java/me/qwerprog/service/TaskManagementService.java:334-341 | A running future is cancelled, the record fails with "Task cancelled by user." and "任务已取消", and the cancelled record is broadcast: each subscriber of the task whose send does not fail receives the new status response, in list order, failing emitters leave the list, and no other task's list changes, and it is the last event each remaining subscriber has received. |
| Orchestration.TaskManagementService.Unregister | src/main/java/me/qwerprog/service/TaskManagementService.java:344-348 | The record leaves the registry and its own URL is released. |
| Orchestration.TaskManagementService.Checkpoint | src/main/java/me/qwerprog/service/TaskManagementService.java:286-288 | Either the user's deletion happens first, and the next getTask throws, or the record gets updateTaskProgress's update. No other task's subscribers change. |
| Orchestration.TaskManagementService.FetchStage | src/main/java/me/qwerprog/service/TaskManagementService.java:183-187 | Step 1 does what FetchPlan says. If the user deletes the task, the record is gone with its URL; otherwise the registry is unchanged. No other task's subscribers change. |
| Orchestration.TaskManagementService.DownloadStage | src/main/java/me/qwerprog/service/TaskManagementService.java:190-193 | The download step does what DownloadPlan says. No other task's subscribers change. |
| Orchestration.TaskManagementService.TranscribeStage | src/main/java/me/qwerprog/service/TaskManagementService.java:196-201 | The transcription step does what TranscribePlan says. No other task's subscribers change. |
| Orchestration.TaskManagementService.WriteStage | src/main/java/me/qwerprog/service/TaskManagementService.java:204-209 | The raw transcript step and everything after it do what WritePlan says, to the files, the registry and the record. No other task's subscribers change, and on completion the last event each remaining subscriber has received is the finished record. |
| Orchestration.TaskManagementService.ScriptStage | src/main/java/me/qwerprog/service/TaskManagementService.java:213-221 | The transcript step and everything after it do what ScriptPlan says. No other task's subscribers change, and on completion the last event each remaining subscriber has received is the finished record. |
| Orchestration.TaskManagementService.TranslationStage | src/main/java/me/qwerprog/service/TaskManagementService.java:225-239 | The translation step and everything after it do what TranslationPlan says. No other task's subscribers change, and on completion the last event each remaining subscriber has received is the finished record. |
| Orchestration.TaskManagementService.SummaryStage | src/main/java/me/qwerprog/service/TaskManagementService.java:243-259 | The summary step and the completion do what SummaryPlan says. No other task's subscribers change, and on completion the last event each remaining subscriber has received is the finished record. |
| Orchestration.TaskManagementService.CompleteRecord | src/main/java/me/qwerprog/service/TaskManagementService.java:255-259 | The results are set and complete() runs, and the final record is broadcast: each subscriber of the task whose send does not fail receives the new status response, in list order, failing emitters leave the list, and no other task's list changes, and it is the last event each remaining subscriber has received. |
| Orchestration.TaskManagementService.RunStages | src/main/java/me/qwerprog/service/TaskManagementService.java:181-259 | The try block does what Plan says, to the files, the registry and the record, and it passes exactly Plan's checkpoints. No other task's subscribers change, and on completion the last event each remaining subscriber has received is the finished record. |
| Orchestration.TaskManagementService.RecordEnding | src/main/java/me/qwerprog/service/TaskManagementService.java:261-266 | An aborted run fails the record through handleTaskFailure and releases the record's URL; the last event each remaining subscriber has received is then the failed record. Completed and deleted runs leave the record, the subscribers and the deliveries as they are. The future is done unless the task was deleted. No other task's subscribers change. |
| Orchestration.TaskManagementService.Conclude | src/main/java/me/qwerprog/service/TaskManagementService.java:261-277 | The catch blocks, then finally: the URL is released, the emitters completed and the registry saved, whatever the ending. Only an aborted run sends anything, and then the failed record is the last event each of the task's subscribers has received. No other task's subscribers change. |
| Orchestration.TaskManagementService.RunTask | src/main/java/me/qwerprog/service/TaskManagementService.java:177-278 | A registered task's run follows Plan. The files get Plan's writes. A deleted task leaves the registry. The URL is released, and the record's own URL too unless the run completed. The record ends complete or failed as the ending says, and unless the task was deleted, that final record is the last event each subscriber of the task received before its emitters were completed. The future is done unless the task was deleted. The registry is saved and no other task's subscribers change. |
| Orchestration.TaskManagementService.ProcessVideoTask | src/main/java/me/qwerprog/service/TaskManagementService.java:177-278 | An unknown id throws before anything happens and changes nothing, subscribers and deliveries included. A registered task runs as Plan says, with the Gemini-backed services. Its URL is released however the run ends. A completed run leaves the finished record, and an aborted one leaves the reported error with the cut message; either way that record is the last event each subscriber of the task received. A deleted task stays deleted. The registry is saved, the task's emitters completed, and no other task's subscribers change. |
| Sse.Surviving | src/main/java/me/qwerprog/service/SseService.java:91-105 | The emitters that survive a broadcast are a sub-list of the subscribers. |
| Sse.SurvivingMembers | src/main/java/me/qwerprog/service/SseService.java:91-105 | The survivors are exactly the subscribers whose send does not fail. |
| Sse.Deliveries | src/main/java/me/qwerprog/service/SseService.java:91-105 | No contract of its own: one delivery per emitter whose send does not fail, in list order. The two lemmas below state it. |
| Sse.DeliveriesMembers | src/main/java/me/qwerprog/service/SseService.java:91-105 | Every delivery carries the event to a subscriber whose send does not fail, and every such subscriber gets one. |
| Sse.DeliveriesAreSurvivors | src/main/java/me/qwerprog/service/SseService.java:91-105 | Exactly the survivors receive the event, each once and in list order. |
| Sse.SurvivingNoDuplicates | src/main/java/me/qwerprog/service/SseService.java:98-104 | Dropping failing emitters cannot create a repeat. |
| Sse.RemoveFirst | src/main/java/me/qwerprog/service/SseService.java:161 | List.remove drops one occurrence of an emitter when there is one, and otherwise changes nothing. |
| Sse.RemoveFirstMembers | src/main/java/me/qwerprog/service/SseService.java:161 | Removing keeps every other emitter and adds none. |
| Sse.RemoveFirstNoDuplicates | src/main/java/me/qwerprog/service/SseService.java:161 | In a list without repeats the removed emitter is gone altogether. |
| Sse.Removed | src/main/java/me/qwerprog/service/SseService.java:158-171 | No contract of its own: the registry after removeEmitter. RemovedEffect states its effect. |
| Sse.RemovedEffect | src/main/java/me/qwerprog/service/SseService.java:158-171 | removeEmitter touches only the task's entry. An unsubscribed emitter changes nothing. Otherwise the emitter goes, and so does the entry when its list empties. |
| Sse.Broadcasted | src/main/java/me/qwerprog/service/SseService.java:80-107 | No contract of its own: the registry after one broadcast. BroadcastedEffect states its effect. |
| Sse.BroadcastedEffect | src/main/java/me/qwerprog/service/SseService.java:80-107 | A broadcast touches only the task's entry, and an absent or empty list is left alone. Otherwise the failing emitters leave it, the others stay in order, and the entry goes when none is left. |
| Sse.BroadcastedOthers | src/main/java/me/qwerprog/service/SseService.java:80-107 | A broadcast leaves every other task's emitter list exactly as it was. |
| Sse.LastTo | src/main/java/me/qwerprog/service/SseService.java:91-105 | No contract of its own: the last event in the delivery log addressed to an emitter, if any. |
| Sse.LastToDeliveries | src/main/java/me/qwerprog/service/SseService.java:91-105 | After a round of deliveries of one event, that event is the last one each emitter of the round that did not fail has received, whatever was delivered before. |
| Sse.BroadcastedLastDelivery | src/main/java/me/qwerprog/service/SseService.java:80-107 | After a broadcast, every emitter still registered for the task has the broadcast event as the last event delivered to it. |
| Sse.BroadcastStepFails | src/main/java/me/qwerprog/service/SseService.java:98-104 | A failing send removes that emitter and delivers nothing, and the loop goes on with the rest. |
| Sse.BroadcastStepSends | src/main/java/me/qwerprog/service/SseService.java:92-97 | A successful send leaves the list unchanged and delivers the event once more. |
| Sse.HeartbeatPruned | src/main/java/me/qwerprog/service/SseService.java:178-192 | After a heartbeat round every list keeps only its survivors, and ids left without a subscriber are dropped. |
| Sse.PartlyPrunedSend | src/main/java/me/qwerprog/service/SseService.java:184-185 | Visiting an id with a non-empty list is one heartbeat broadcast to it. |
| Sse.PartlyPrunedDrop | src/main/java/me/qwerprog/service/SseService.java:186-189 | Visiting an id with an empty list drops that id. |
| Sse.HeartbeatsDone | src/main/java/me/qwerprog/service/SseService.java:178-192 | Each heartbeat of a round went to a live subscriber, and every live subscriber got one. |
| Sse.RemovedKeepsShape | src/main/java/me/qwerprog/service/SseService.java:165-168 | removeEmitter never leaves an empty list or a repeat behind. |
| Sse.BroadcastedKeepsShape | src/main/java/me/qwerprog/service/SseService.java:98-104 | A broadcast never leaves an empty list or a repeat behind. |
| Sse.HeartbeatPrunedKeepsShape | src/main/java/me/qwerprog/service/SseService.java:178-192 | A heartbeat round leaves no list empty, and none repeating if none did before. |
| Sse.SseService.constructor | src/main/java/me/qwerprog/service/SseService.java:27 | The registry starts empty, nothing has been sent and no emitter is completed. |
| Sse.SseService.CreateEmitter | src/main/java/me/qwerprog/service/SseService.java:36-73 | Appends one new, never-issued emitter to the task's list, creating the list when it is absent. Other tasks' lists are unchanged and the registry keeps its shape. |
| Sse.SseService.RemoveEmitter | src/main/java/me/qwerprog/service/SseService.java:158-171 | The registry becomes Removed of the old one and keeps its shape. |
| Sse.SseService.SendTo | src/main/java/me/qwerprog/service/SseService.java:92-104 | A failing send removes the emitter. Any other send delivers the event to it. |
| Sse.SseService.Broadcast | src/main/java/me/qwerprog/service/SseService.java:80-107 | Every emitter of the list as it was is tried in order. Failing ones are removed and the rest receive the event once each. Without a list nothing happens. |
| Sse.SseService.BroadcastStep | src/main/java/me/qwerprog/service/SseService.java:91-105 | One turn of the loop over the list as it was when the send began. |
| Sse.SseService.SendTaskUpdate | src/main/java/me/qwerprog/service/SseService.java:80-107 | A "task_update" event carrying the task's status response, broadcast as Broadcast says. |
| Sse.SseService.SendHeartbeat | src/main/java/me/qwerprog/service/SseService.java:113-129 | A "heartbeat" event carrying the heartbeat record, broadcast as Broadcast says. |
| Sse.SseService.CompleteEmitter | src/main/java/me/qwerprog/service/SseService.java:135-150 | Every emitter of the task is completed and the list itself is left alone. An absent task changes nothing. |
| Sse.SseService.HeartbeatEntry | src/main/java/me/qwerprog/service/SseService.java:183-191 | A non-empty list gets a heartbeat broadcast and an empty one is removed. |
| Sse.SseService.HeartbeatVisit | src/main/java/me/qwerprog/service/SseService.java:183-191 | One turn of the round over the ids, keeping the round's invariant. |
| Sse.SseService.HeartbeatRound | src/main/java/me/qwerprog/service/SseService.java:183-191 | Every id is visited once, in the order the map chooses. |
| Sse.SseService.SendHeartbeats | src/main/java/me/qwerprog/service/SseService.java:178-192 | The registry becomes HeartbeatPruned of the old one, and no list is left empty. The new heartbeats go only to live subscribers, and every live subscriber gets one. |

## Left out

- Concurrency: `ConcurrentHashMap`, `CopyOnWriteArrayList`, `CompletableFuture.runAsync`, `synchronized` and the thread pool are modelled as one sequential run. `Future.cancel(true)` is modelled by the user deleting the task before one chosen checkpoint, after which the next `getTask` throws. Interleavings other than that one are not modelled.
- The `exceptionally` handler of `createAndStartTask`: the only exception that escapes `processVideoTask` in the model is `getTask`'s, for an id already gone. The handler's `handleTaskFailure` then finds nothing, so it changes nothing and is not modelled separately.
- Orchestration.TaskManagementService.ProcessVideoTask: on an aborted run, the contract fixes the record's status, error and message, but not its progress or paths.
- Orchestration.TaskManagementService.RunTask: the same weaker statement on an aborted run as ProcessVideoTask.
- Orchestration.TaskManagementService.RunTask: for a task the user deletes during the run, the contract states that no other task's subscribers change, but not the cancellation broadcast sent to the task's own subscribers. CancelAndDeleteTask states that broadcast for the deletion on its own.
- Orchestration.TaskManagementService.ProcessVideoTask: the same as RunTask for the deletion's cancellation broadcast.
- Orchestration.TaskManagementService.Initialize: stated for the freshly constructed service with an empty registry and an empty URL index, which is how `@PostConstruct` runs it. `loadTasks` on a non-empty registry is not modelled.
- Orchestration.TaskManagementService.SaveTasks: the temporary file, the atomic move and the cleanup after a failure are one abstract write of a `TasksFile` that succeeds or not. So are the JSON encoding and decoding through Jackson.
- `cleanupTempFiles`, `cleanupTaskFiles` and `deleteFileIfExists`: deleting the audio file after a run and the unused per-task file cleanup are I/O with no effect on the registry.
- The audio path and `setAudioFilePath`: the download's path is passed to the transcription but not recorded in the record's durable fields.
- `TaskInfo`'s `setTaskId`, `setUrl` and `setTaskFuture` and its getters: the id and URL are constructor arguments that never change afterwards, and the future is a three-state field.
- The summary language is taken as a non-null string, as the request's `@NotEmpty` validation ensures. The null case of `setVideoDetails` is modelled only in `TaskRecord`.
- The prompts: the wording of the optimisation, summary and translation prompts, the request JSON, the temperature, the token limit, the API URL and the key in the query string. Only the prompts' language name (`PromptLanguageName`, `LanguageName`) is modelled.
- HTTP: `WebClient` and its timeouts are an `Exchange` value holding the exception or the response body.
- The SSE timeout (`SSE_TIMEOUT`) and the `@Scheduled` 25-second rate are timing. The `onCompletion`, `onTimeout` and `onError` callbacks of `createEmitter` are modelled by `RemoveEmitter`: the timeout completes the emitter, whose completion callback removes it, and the error callback removes it directly. The callbacks are methods a caller may run, not events the model schedules.
- Event ids (`System.currentTimeMillis()`), logging, and `toJsonString` / `toMap` of `TaskStatusResponse` are not modelled, since Jackson's exact output is library behaviour. An event carries the response record itself.
- Paths are Unix paths: an absolute flag and a list of names, with `.` and `..` resolved as on Unix. Windows drive letters, UNC roots and backslash separators are not modelled.
- The API key: both Gemini services read the same `gemini.api.key` property, but the configuration is not modelled. The service constructor takes each service's key separately.
- Download.Serve: a `MalformedURLException` ("Error creating file URL.") and any other exception ("An error occurred while downloading the file.") are both INTERNAL_SERVER_ERROR and are folded into one `resourceFails` flag with the second message.
- Unicode: `toLowerCase` is modelled on ASCII letters only. Lengths count characters, not UTF-16 code units. `Character.isWhitespace` is written out over the full set of characters it accepts.
- Transcript.FullTranscript: the segment list and every segment text are non-null. A null text would make the source throw a NullPointerException. Segment times are not modelled.
- Files.FileStore.SaveStringToFile: creating missing parent directories and the UTF-8 encoding are not modelled. An unwritable path stands for every `IOException`.
- `YtDlpClient`, `WhisperClient`, `VideoProcessingService`, `TranscriptionService`, the REST controllers other than the download controller, and the configuration classes are not part of this model. Their answers enter the model as the `Collaborators` value.

## Findings

| source | as written | input that shows it | evidently intended | confidence | as-written member | corrected member |
|---|---|---|---|---|---|---|
| src/main/java/me/qwerprog/controller/FileDownloadController.java:61-67 | `file` is `TEMP_DIR.resolve(filename).normalize()`, a relative path because `TEMP_DIR` is `Paths.get("temp")`. It is compared with the absolute `TEMP_DIR.toAbsolutePath()`, and `Path.startsWith` is false between a relative and an absolute path. | `GET /api/download/a.md`, with the working directory `/srv` and a readable `/srv/temp/a.md`: the response is BAD_REQUEST "Invalid file path.". The same happens for every name that passes the two name checks. | Compare the absolute, normalised file with the absolute temp directory, so that a valid name inside `temp` is served when it exists and is readable. | not executed | Download.DownloadAlwaysRefused | Download.CorrectedServesTempFiles |
