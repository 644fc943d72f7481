/**
 * TaskManagementService, run sequentially: the task registry (`tasks`), the index of URLs
 * being processed (`processingUrls`), the persisted snapshot of the registry, and the
 * processing pipeline with its progress checkpoints. The collaborators the pipeline calls
 * (video info, download, transcription and the Gemini exchanges) are an input value; a user
 * deleting the task while it runs is an input too, applied just before one checkpoint.
 */
module Orchestration {
  import opened JavaStrings
  import opened TaskRecord
  import opened Sse
  import opened GeminiResponse
  import opened ArtifactNames
  import Summarization
  import Translation
  import Files

  const PREPARING := "任务创建，准备处理..."
  const DONE_MESSAGE := "处理完成！"
  const CANCELLED_BY_USER := "Task was cancelled by user."
  const PROCESSING_FAILED := "Processing failed: "
  const CANCEL_ERROR := "Task cancelled by user."
  const CANCEL_MESSAGE := "任务已取消"
  const RESTARTED := "Application restarted during processing."
  const INTERRUPTED := "处理中断"
  const FAILURE_PREFIX := "处理失败: "
  const MAX_ERROR_LENGTH := 100

  /** getTask's IllegalArgumentException message. */
  function TaskNotFound(taskId: string): string {
    "Task not found with ID: " + taskId
  }

  /** cancelAndDeleteTask's IllegalArgumentException message. */
  function CancelNotFound(taskId: string): string {
    "Task not found: " + taskId
  }

  /**
   * The message handleTaskFailure stores: "处理失败: ", at most the first 100 characters of the
   * error, and "..." (also when nothing was cut).
   */
  function FailureMessage(error: string): (r: string)
    ensures StartsWith(r, FAILURE_PREFIX) && EndsWith(r, "...")
    ensures |r| == |FAILURE_PREFIX| + Min(|error|, MAX_ERROR_LENGTH) + 3
    ensures StartsWith(error, r[|FAILURE_PREFIX|..|r| - 3])
  {
    var r := FAILURE_PREFIX + error[..Min(|error|, MAX_ERROR_LENGTH)] + "...";
    assert r[|FAILURE_PREFIX|..|r| - 3] == error[..Min(|error|, MAX_ERROR_LENGTH)];
    assert r[..|FAILURE_PREFIX|] == FAILURE_PREFIX;
    r
  }

  /** A short error is kept whole; a long one is cut after its hundredth character. */
  lemma FailureMessageCuts(error: string)
    ensures |error| <= MAX_ERROR_LENGTH ==> FailureMessage(error) == FAILURE_PREFIX + error + "..."
    ensures |error| > MAX_ERROR_LENGTH ==> FailureMessage(error) == FAILURE_PREFIX + error[..MAX_ERROR_LENGTH] + "..."
  {
    var r := FailureMessage(error);
    var n := Min(|error|, MAX_ERROR_LENGTH);
    assert r == r[..|FAILURE_PREFIX|] + r[|FAILURE_PREFIX|..|r| - 3] + r[|r| - 3..];
    assert r[|FAILURE_PREFIX|..|r| - 3] == error[..n];
    assert |error| <= MAX_ERROR_LENGTH ==> error[..n] == error;
  }

  /** The record createAndStartTask registers: id, URL and summary language set, then "preparing". */
  function CreatedRecord(url: string, summaryLanguage: string, taskId: string): TaskData {
    StatusUpdated(Fresh.(taskId := Some(taskId), url := Some(url), summaryLanguage := Some(summaryLanguage)),
                  PROCESSING, PREPARING)
  }

  /** A new task is PROCESSING at 0 with no error and no artifact, and knows its id and URL. */
  lemma CreatedRecordShape(url: string, summaryLanguage: string, taskId: string)
    ensures var d := CreatedRecord(url, summaryLanguage, taskId);
            && d.taskId == Some(taskId) && d.url == Some(url) && d.summaryLanguage == Some(summaryLanguage)
            && d.status == PROCESSING && d.progress == 0 && d.message == PREPARING && d.error.None?
            && d.scriptPath.None? && d.summaryPath.None? && d.translationPath.None? && d.rawScriptPath.None?
            && ProgressInRange(d) && ErrorIffFailed(d)
  {
  }

  // ---------------------------------------------------------------------------------------
  // Persistence: the tasks file holds the durable fields of every record.

  datatype TasksFile = Absent | Unreadable | Saved(records: map<string, TaskData>)

  /** What loadTasks makes of one stored record: a PROCESSING record was interrupted. */
  function Reloaded(d: TaskData): (r: TaskData)
    ensures r.status != PROCESSING
    ensures d.status != PROCESSING ==> r == d
    ensures d.status == PROCESSING ==>
              && r.status == ERROR && r.error == Some(RESTARTED) && r.message == INTERRUPTED
              && r.progress == d.progress && OnlyLifecycleChanged(d, r)
  {
    if d.status == PROCESSING then Failed(d, RESTARTED, Some(INTERRUPTED)) else d
  }

  /** The registry loadTasks builds: empty without a readable file. */
  function LoadedRecords(f: TasksFile): (r: map<string, TaskData>)
    ensures f.Saved? ==> r.Keys == f.records.Keys
    ensures !f.Saved? ==> r == map[]
  {
    if f.Saved? then map id | id in f.records :: Reloaded(f.records[id]) else map[]
  }

  /** Loading twice is loading once. */
  lemma LoadIdempotent(f: TasksFile)
    ensures LoadedRecords(Saved(LoadedRecords(f))) == LoadedRecords(f)
  {
  }

  /** Saving then loading gives back every record, except that PROCESSING ones come back failed. */
  lemma SaveLoadRoundTrip(m: map<string, TaskData>)
    ensures LoadedRecords(Saved(m)).Keys == m.Keys
    ensures forall id | id in m :: LoadedRecords(Saved(m))[id] == Reloaded(m[id])
    ensures (forall id | id in m :: m[id].status != PROCESSING) ==> LoadedRecords(Saved(m)) == m
  {
  }

  // ---------------------------------------------------------------------------------------
  // The pipeline's collaborators and its planned course.

  /** How a collaborator call fails: a CancellationException, or any other exception and its message. */
  datatype Failure = Cancelled | Thrown(message: Option<string>)

  /** The error text the pipeline's two catch blocks pass on. */
  function FailureText(f: Failure): (r: string)
    ensures f.Cancelled? ==> r == CANCELLED_BY_USER
    ensures f.Thrown? ==> r == PROCESSING_FAILED + Render(f.message)
  {
    match f
    case Cancelled => CANCELLED_BY_USER
    case Thrown(m) => PROCESSING_FAILED + Render(m)
  }

  /** The transcription's answer: the transcript and detected-language entries, when present. */
  datatype Transcribed = Transcribed(transcript: Option<string>, language: Option<string>)

  /**
   * What the collaborators do in one run: the title entry of the video information, the audio
   * path of the download, the transcription, the three Gemini exchanges, and the checkpoint
   * (by its progress) before which the user deletes the task, if they do.
   */
  datatype Collaborators = Collaborators(
    videoInfo: Result<Option<string>, Failure>,
    download: Result<Option<string>, Failure>,
    transcription: Result<Transcribed, Failure>,
    optimizeReply: Exchange,
    translateReply: Exchange,
    summaryReply: Exchange,
    deleteBefore: Option<int>)

  predicate DeletedAt(env: Collaborators, progress: int) {
    env.deleteBefore == Some(progress)
  }

  /** One file the run writes. */
  datatype Artifact = Artifact(path: string, content: string)

  /** The paths of some writes, in order. */
  function Paths(ws: seq<Artifact>): (r: seq<string>)
    ensures |r| == |ws| && forall i | 0 <= i < |ws| :: r[i] == ws[i].path
  {
    if ws == [] then [] else [ws[0].path] + Paths(ws[1..])
  }

  lemma PathsConcat(a: seq<Artifact>, b: seq<Artifact>)
    ensures Paths(a + b) == Paths(a) + Paths(b)
  {
    assert forall i | 0 <= i < |a + b| :: Paths(a + b)[i] == (Paths(a) + Paths(b))[i];
  }

  /** The files after the given writes, in order: a later write to a path replaces an earlier one. */
  function Written(files: map<string, string>, ws: seq<Artifact>): (r: map<string, string>)
    ensures files.Keys <= r.Keys
    ensures forall w | w in ws :: w.path in r
    decreases |ws|
  {
    if ws == [] then files else Written(files[ws[0].path := ws[0].content], ws[1..])
  }

  lemma WrittenCons(files: map<string, string>, w: Artifact, ws: seq<Artifact>)
    ensures Written(files, [w] + ws) == Written(files[w.path := w.content], ws)
  {
    assert ([w] + ws)[1..] == ws;
  }

  /** A file the writes do not name keeps its content, and no file appears that was not written. */
  lemma {:induction false} WrittenElsewhere(files: map<string, string>, ws: seq<Artifact>, p: string)
    ensures p in Written(files, ws) <==> p in files || p in Paths(ws)
    ensures p in files && p !in Paths(ws) ==> Written(files, ws)[p] == files[p]
    decreases |ws|
  {
    if ws != [] {
      assert Paths(ws) == [ws[0].path] + Paths(ws[1..]);
      WrittenElsewhere(files[ws[0].path := ws[0].content], ws[1..], p);
    }
  }

  /** When no two writes share a path, every written file holds what was written to it. */
  lemma {:induction false} WrittenDistinct(files: map<string, string>, ws: seq<Artifact>)
    requires forall i, j | 0 <= i < j < |ws| :: ws[i].path != ws[j].path
    ensures forall i | 0 <= i < |ws| :: Written(files, ws)[ws[i].path] == ws[i].content
    decreases |ws|
  {
    if ws != [] {
      var files' := files[ws[0].path := ws[0].content];
      WrittenDistinct(files', ws[1..]);
      WrittenElsewhere(files', ws[1..], ws[0].path);
      forall i | 0 <= i < |ws|
        ensures Written(files, ws)[ws[i].path] == ws[i].content
      {
        if i > 0 {
          assert ws[i] == ws[1..][i - 1];
        }
      }
    }
  }

  /** The four artifact paths of a task. */
  datatype Names = Names(raw: string, script: string, translation: string, summary: string)

  /**
   * The paths of the raw transcript, the transcript, the translation and the summary, built
   * the way the source builds each one; only the first can fail, since the others take the
   * same six-character prefix of the id.
   */
  function ArtifactPaths(title: string, taskId: string): (r: Result<Names, string>)
    ensures r.Success? <==> |taskId| >= 6
    ensures r.Failure? ==> r.error == SubstringMessage(|taskId|)
  {
    var safe := SanitizeFilename(title);
    match ArtifactName("raw", safe, taskId)
    case Failure(m) => Failure(m)
    case Success(raw) =>
      Success(Names(InTemp(raw), InTemp(ArtifactName("transcript", safe, taskId).value),
                    InTemp(ArtifactName("translation", safe, taskId).value),
                    InTemp(ArtifactName("summary", safe, taskId).value)))
  }

  /** Each path is "temp/<kind>_<sanitized title>_<first six characters of the id>.md". */
  lemma ArtifactPathsSpelled(title: string, taskId: string)
    requires |taskId| >= 6
    ensures var tail := "_" + SanitizeFilename(title) + "_" + taskId[..6] + ".md";
            ArtifactPaths(title, taskId) ==
              Success(Names(InTemp("raw" + tail), InTemp("transcript" + tail),
                            InTemp("translation" + tail), InTemp("summary" + tail)))
  {
    var safe := SanitizeFilename(title);
    ArtifactNameSpelled("raw", safe, taskId);
    ArtifactNameSpelled("transcript", safe, taskId);
    ArtifactNameSpelled("translation", safe, taskId);
    ArtifactNameSpelled("summary", safe, taskId);
  }

  lemma ArtifactNameSpelled(kind: string, safe: string, taskId: string)
    requires |taskId| >= 6
    ensures ArtifactName(kind, safe, taskId) == Success(kind + ("_" + safe + "_" + taskId[..6] + ".md"))
  {
    var id := taskId[..6];
    assert kind + "_" + safe + "_" + id + ".md" == kind + ("_" + safe + "_" + id + ".md");
  }

  /** The four paths are pairwise different, so no artifact overwrites another. */
  lemma ArtifactPathsDistinct(title: string, taskId: string)
    requires |taskId| >= 6
    ensures var n := ArtifactPaths(title, taskId).value;
            && n.raw != n.script && n.raw != n.translation && n.raw != n.summary
            && n.script != n.translation && n.script != n.summary && n.translation != n.summary
  {
    ArtifactPathsSpelled(title, taskId);
    var n := ArtifactPaths(title, taskId).value;
    var tail := "_" + SanitizeFilename(title) + "_" + taskId[..6] + ".md";
    assert n.raw[5] == 'r' && n.script[5] == 't' && n.translation[5] == 't' && n.summary[5] == 's';
    assert n.script[10] == 'c' && n.translation[10] == 'l';
  }

  /** How a run ends: completed with its results, failed with an error, or deleted under it. */
  datatype Ending =
    | Finished(title: string, detected: string, names: Names, translated: bool)
    | Aborted(error: string)
    | Deleted

  /** The translation path a completed run records: null unless it translated. */
  function TranslationPath(e: Ending): Option<string>
    requires e.Finished?
  {
    if e.translated then Some(e.names.translation) else None
  }

  /** A run's ending, the files it wrote and the checkpoints (by progress) it passed, in order. */
  datatype Run = Run(ending: Ending, writes: seq<Artifact>, passed: seq<int>)

  /** One write and the checkpoints after it, then the rest of the run. */
  function After(w: Artifact, passed: seq<int>, rest: Run): (r: Run)
    ensures r.ending == rest.ending && r.writes == [w] + rest.writes && r.passed == passed + rest.passed
    ensures Paths(r.writes) == [w.path] + Paths(rest.writes)
  {
    assert ([w] + rest.writes)[1..] == rest.writes;
    Run(rest.ending, [w] + rest.writes, passed + rest.passed)
  }

  /** The title, audio path, transcript and detected language the first three steps produce. */
  datatype Fetched = Fetched(title: string, audio: Option<string>, rawScript: string, detected: string)

  datatype FetchOutcome = FetchOutcome(result: Result<Fetched, Ending>, passed: seq<int>)

  /**
   * A fetch that stops early does not complete, stops for a deletion only when the user deletes
   * the task, and reports its error as the two catch blocks do; no fetch passes the checkpoint
   * before which the user deleted the task.
   */
  predicate FetchFailureShape(env: Collaborators, r: FetchOutcome) {
    && (r.result.Failure? ==> !r.result.error.Finished?)
    && (r.result == Failure(Deleted) ==> env.deleteBefore.Some?)
    && (r.result.Failure? && r.result.error.Aborted? ==>
          r.result.error.error == CANCELLED_BY_USER || StartsWith(r.result.error.error, PROCESSING_FAILED))
    && (env.deleteBefore.Some? ==> env.deleteBefore.value !in r.passed)
  }

  /** A checkpoint passed, then the rest of the fetch. */
  function Continued(progress: int, rest: FetchOutcome): (r: FetchOutcome)
    ensures r.result == rest.result && r.passed == [progress] + rest.passed
  {
    FetchOutcome(rest.result, [progress] + rest.passed)
  }

  /** Checkpoint 35 and the transcription; a missing transcript is "" and a missing language "en". */
  function TranscribePlan(env: Collaborators, title: string, audio: Option<string>): (r: FetchOutcome)
    ensures r.result.Success? ==>
              && r.passed == [35] && env.transcription.Success?
              && r.result.value.title == title
              && r.result.value.detected == env.transcription.value.language.GetOr("en")
    ensures FetchFailureShape(env, r)
  {
    if DeletedAt(env, 35) then FetchOutcome(Failure(Deleted), [])
    else match env.transcription
    case Failure(f) => FailureTextReported(f); FetchOutcome(Failure(Aborted(FailureText(f))), [35])
    case Success(t) =>
      FetchOutcome(Success(Fetched(title, audio, t.transcript.GetOr(""), t.language.GetOr("en"))), [35])
  }

  /** Checkpoint 15 and the download to audio, then the transcription. */
  function DownloadPlan(env: Collaborators, title: string): (r: FetchOutcome)
    ensures r.result.Success? ==>
              && r.passed == [15, 35] && env.download.Success? && env.transcription.Success?
              && r.result.value.title == title
              && r.result.value.detected == env.transcription.value.language.GetOr("en")
    ensures FetchFailureShape(env, r)
  {
    if DeletedAt(env, 15) then FetchOutcome(Failure(Deleted), [])
    else match env.download
    case Failure(f) => FailureTextReported(f); FetchOutcome(Failure(Aborted(FailureText(f))), [15])
    case Success(audio) => Continued(15, TranscribePlan(env, title, audio))
  }

  /**
   * Checkpoint 10 and the video information (a missing title is "untitled"), then the download
   * and the transcription.
   */
  function FetchPlan(env: Collaborators): (r: FetchOutcome)
    ensures r.result.Success? ==>
              && r.passed == [10, 15, 35]
              && env.videoInfo.Success? && env.download.Success? && env.transcription.Success?
              && r.result.value.title == env.videoInfo.value.GetOr(UNTITLED)
              && r.result.value.detected == env.transcription.value.language.GetOr("en")
    ensures FetchFailureShape(env, r)
  {
    if DeletedAt(env, 10) then FetchOutcome(Failure(Deleted), [])
    else match env.videoInfo
    case Failure(f) => FailureTextReported(f); FetchOutcome(Failure(Aborted(FailureText(f))), [10])
    case Success(title) => Continued(10, DownloadPlan(env, title.GetOr(UNTITLED)))
  }

  /** Every failure message starts with "Processing failed: " or is the cancellation message. */
  lemma FailureTextReported(f: Failure)
    ensures FailureText(f) == CANCELLED_BY_USER || StartsWith(FailureText(f), PROCESSING_FAILED)
  {
    if f.Thrown? {
      PrefixStarts(PROCESSING_FAILED, Render(f.message));
    }
  }

  lemma PrefixStarts(p: string, tail: string)
    ensures StartsWith(p + tail, p)
  {
    assert (p + tail)[..|p|] == p;
  }

  /**
   * What the pipeline asks of the two text services: optimizeTranscript(rawScript),
   * translateText(text, targetLanguage, sourceLanguage) and summarize(text, language, title).
   */
  datatype Services = Services(
    optimize: string -> string,
    translate: (string, string, string) -> string,
    summarize: (string, string, string) -> string)

  /** The services as the application wires them: the Gemini-backed models, answering with the run's replies. */
  function GeminiServices(summarizer: bool, translator: bool, env: Collaborators): Services {
    Services(
      rawScript => Summarization.OptimizeTranscript(summarizer, rawScript, env.optimizeReply),
      (text, target, source) => Translation.TranslateText(translator, text, Some(target), Some(source), env.translateReply),
      (text, language, title) => Summarization.Summarize(summarizer, text, language, title, env.summaryReply))
  }

  /** Checkpoint 80, the summary and its write; the run completes here. */
  function SummaryPlan(url: string, language: string, env: Collaborators, f: Fetched, names: Names,
                       optimized: string, services: Services, unwritable: set<string>, translated: bool): (r: Run)
    ensures r.ending.Finished? ==>
              && r.ending == Finished(f.title, f.detected, names, translated)
              && r.passed == [80] && Paths(r.writes) == [names.summary] && names.summary !in unwritable
    ensures r.ending.Aborted? ==> StartsWith(r.ending.error, PROCESSING_FAILED)
    ensures r.ending.Deleted? ==> env.deleteBefore.Some?
    ensures env.deleteBefore.Some? ==> env.deleteBefore.value !in r.passed
  {
    if DeletedAt(env, 80) then Run(Deleted, [], [])
    else
      var summary := services.summarize(optimized, language, f.title);
      if names.summary in unwritable then
        PrefixStarts(PROCESSING_FAILED, names.summary);
        Run(Aborted(PROCESSING_FAILED + names.summary), [], [80])
      else
        Run(Finished(f.title, f.detected, names, translated), [Artifact(names.summary, WithSource(summary, url))], [80])
  }

  /** Checkpoint 70, the translation and its write, when the detected and the target language differ. */
  function TranslationPlan(url: string, language: string, env: Collaborators, f: Fetched, names: Names,
                           optimized: string, translate: bool, services: Services,
                           unwritable: set<string>): (r: Run)
    ensures r.ending.Finished? ==>
              && r.ending == Finished(f.title, f.detected, names, translate)
              && r.passed == (if translate then [70, 80] else [80])
              && Paths(r.writes) == (if translate then [names.translation, names.summary] else [names.summary])
              && (translate ==> names.translation !in unwritable) && names.summary !in unwritable
    ensures r.ending.Aborted? ==> StartsWith(r.ending.error, PROCESSING_FAILED)
    ensures r.ending.Deleted? ==> env.deleteBefore.Some?
    ensures env.deleteBefore.Some? ==> env.deleteBefore.value !in r.passed
  {
    if !translate then
      SummaryPlan(url, language, env, f, names, optimized, services, unwritable, false)
    else if DeletedAt(env, 70) then Run(Deleted, [], [])
    else
      var translated := services.translate(optimized, language, f.detected);
      if names.translation in unwritable then
        PrefixStarts(PROCESSING_FAILED, names.translation);
        Run(Aborted(PROCESSING_FAILED + names.translation), [], [70])
      else
        After(Artifact(names.translation, Document(f.title, translated, url)), [70],
              SummaryPlan(url, language, env, f, names, optimized, services, unwritable, true))
  }

  /** Checkpoint 55, the optimisation of the transcript and its write. */
  function ScriptPlan(url: string, language: string, env: Collaborators, f: Fetched, names: Names,
                      translate: bool, services: Services, unwritable: set<string>): (r: Run)
    ensures r.ending.Finished? ==>
              && r.ending == Finished(f.title, f.detected, names, translate)
              && r.passed == [55] + (if translate then [70, 80] else [80])
              && Paths(r.writes) == [names.script] + (if translate then [names.translation, names.summary] else [names.summary])
              && names.script !in unwritable
              && (translate ==> names.translation !in unwritable) && names.summary !in unwritable
    ensures r.ending.Aborted? ==> StartsWith(r.ending.error, PROCESSING_FAILED)
    ensures r.ending.Deleted? ==> env.deleteBefore.Some?
    ensures env.deleteBefore.Some? ==> env.deleteBefore.value !in r.passed
  {
    if DeletedAt(env, 55) then Run(Deleted, [], [])
    else
      var optimized := services.optimize(f.rawScript);
      if names.script in unwritable then
        PrefixStarts(PROCESSING_FAILED, names.script);
        Run(Aborted(PROCESSING_FAILED + names.script), [], [55])
      else
        After(Artifact(names.script, Document(f.title, optimized, url)), [55],
              TranslationPlan(url, language, env, f, names, optimized, translate, services, unwritable))
  }

  /** Whether the run translates: the detected language and the summary language differ. */
  predicate Translates(detected: string, language: string) {
    Translation.ShouldTranslate(Some(detected), Some(language))
  }

  /** From the transcript on: the artifact names, the raw transcript's write, then the rest. */
  function WritePlan(taskId: string, url: string, language: string, env: Collaborators, f: Fetched,
                     services: Services, unwritable: set<string>): (r: Run)
    ensures var e := r.ending;
            var translate := Translates(f.detected, language);
            e.Finished? ==>
              && e.title == f.title && e.detected == f.detected && e.translated == translate
              && ArtifactPaths(f.title, taskId) == Success(e.names)
              && r.passed == [55] + (if translate then [70, 80] else [80])
              && Paths(r.writes) == [e.names.raw, e.names.script] + (if translate then [e.names.translation, e.names.summary] else [e.names.summary])
              && e.names.raw !in unwritable && e.names.script !in unwritable
              && (translate ==> e.names.translation !in unwritable) && e.names.summary !in unwritable
    ensures r.ending.Aborted? ==> StartsWith(r.ending.error, PROCESSING_FAILED)
    ensures r.ending.Deleted? ==> env.deleteBefore.Some?
    ensures env.deleteBefore.Some? ==> env.deleteBefore.value !in r.passed
  {
    match ArtifactPaths(f.title, taskId)
    case Failure(m) =>
      PrefixStarts(PROCESSING_FAILED, m);
      Run(Aborted(PROCESSING_FAILED + m), [], [])
    case Success(names) =>
      if names.raw in unwritable then
        PrefixStarts(PROCESSING_FAILED, names.raw);
        Run(Aborted(PROCESSING_FAILED + names.raw), [], [])
      else
        After(Artifact(names.raw, WithSource(f.rawScript, url)), [],
              ScriptPlan(url, language, env, f, names, Translates(f.detected, language), services, unwritable))
  }

  /**
   * The whole try block of processVideoTask. A completed run took the title and the language
   * from the collaborators (or their defaults), passed the checkpoints 10, 15, 35, 55, then 70
   * exactly when it translated, then 80, and wrote the raw transcript, the transcript, the
   * translation exactly when it translated, and the summary, each to a path that accepts the
   * write. A failed run reports a cancellation or "Processing failed: " and the exception's
   * message. A deleted run was deleted by the user, and no run passes the checkpoint before
   * which the user deleted it.
   */
  function Plan(taskId: string, url: string, language: string, env: Collaborators,
                services: Services, unwritable: set<string>): (r: Run)
    ensures var e := r.ending;
            e.Finished? ==>
              && env.videoInfo.Success? && env.download.Success? && env.transcription.Success?
              && e.title == env.videoInfo.value.GetOr(UNTITLED)
              && e.detected == env.transcription.value.language.GetOr("en")
              && e.translated == Translates(e.detected, language)
              && ArtifactPaths(e.title, taskId) == Success(e.names)
              && r.passed == [10, 15, 35, 55] + (if e.translated then [70, 80] else [80])
              && Paths(r.writes) == [e.names.raw, e.names.script] + (if e.translated then [e.names.translation, e.names.summary] else [e.names.summary])
              && e.names.raw !in unwritable && e.names.script !in unwritable
              && (e.translated ==> e.names.translation !in unwritable) && e.names.summary !in unwritable
    ensures r.ending.Aborted? ==> r.ending.error == CANCELLED_BY_USER || StartsWith(r.ending.error, PROCESSING_FAILED)
    ensures r.ending.Deleted? ==> env.deleteBefore.Some?
    ensures env.deleteBefore.Some? ==> env.deleteBefore.value !in r.passed
  {
    var fetch := FetchPlan(env);
    match fetch.result
    case Failure(e) => Run(e, [], fetch.passed)
    case Success(f) =>
      var w := WritePlan(taskId, url, language, env, f, services, unwritable);
      CheckpointsJoin(w.ending.Finished? && w.ending.translated);
      Run(w.ending, w.writes, fetch.passed + w.passed)
  }

  lemma CheckpointsJoin(translate: bool)
    ensures var tail := if translate then [70, 80] else [80];
            [10, 15, 35] + ([55] + tail) == [10, 15, 35, 55] + tail
  {
  }

  /** The record at the end of a completed run: results and languages set, then complete(). */
  function FinishedRecord(d: TaskData, e: Ending, language: string): TaskData
    requires e.Finished?
  {
    Completed(VideoDetailsSet(ResultPathsSet(d, Some(e.names.script), Some(e.names.summary), TranslationPath(e), Some(e.names.raw)),
                              Some(e.title), Some(e.detected), Some(language)),
              DONE_MESSAGE)
  }

  /**
   * A completed record is COMPLETED at 100 with no error, carries the run's title, languages
   * and paths, and keeps its id and URL: nothing of the record before the run survives.
   */
  lemma FinishedRecordShape(d: TaskData, d': TaskData, e: Ending, language: string)
    requires e.Finished? && d.taskId == d'.taskId && d.url == d'.url
    ensures var r := FinishedRecord(d, e, language);
            && r == FinishedRecord(d', e, language)
            && r.status == COMPLETED && r.progress == 100 && r.message == DONE_MESSAGE && r.error.None?
            && r.taskId == d.taskId && r.url == d.url
            && r.videoTitle == Some(e.title) && r.detectedLanguage == Some(e.detected) && r.summaryLanguage == Some(language)
            && r.rawScriptPath == Some(e.names.raw) && r.scriptPath == Some(e.names.script)
            && r.summaryPath == Some(e.names.summary) && (r.translationPath.Some? <==> e.translated)
  {
  }

  /** The checkpoints of a completed run, followed by completion at 100, strictly increase. */
  lemma CheckpointsIncrease(translate: bool)
    ensures var ps := [10, 15, 35, 55] + (if translate then [70, 80] else [80]) + [100];
            forall i, j | 0 <= i < j < |ps| :: ps[i] < ps[j]
  {
  }

  /**
   * When every collaborator answers, nobody deletes the task, the id has six characters and
   * every write succeeds, the run completes.
   */
  lemma UntroubledRunCompletes(taskId: string, url: string, language: string, env: Collaborators,
                               services: Services)
    requires env.videoInfo.Success? && env.download.Success? && env.transcription.Success?
    requires env.deleteBefore.None? && |taskId| >= 6
    ensures Plan(taskId, url, language, env, services, {}).ending.Finished?
  {
  }

  /** A run that fails fetching its inputs writes no file. */
  lemma FailedFetchWritesNothing(taskId: string, url: string, language: string, env: Collaborators,
                                 services: Services, unwritable: set<string>)
    requires env.videoInfo.Failure? || env.download.Failure? || env.transcription.Failure?
    ensures Plan(taskId, url, language, env, services, unwritable).writes == []
    ensures !Plan(taskId, url, language, env, services, unwritable).ending.Finished?
  {
  }

  /** The record's status and progress before a checkpoint: still processing, not beyond it. */
  predicate Before(d: TaskData, progress: int) {
    d.status == PROCESSING && 0 <= d.progress <= progress
  }

  /**
   * A URL being processed names a registered task whose record carries that URL and that id.
   * (The id and the URL of a record never change, so this needs no heap.)
   */
  predicate UrlIndex(urls: map<string, string>, tasks: map<string, TaskInfo>) {
    forall u | u in urls :: urls[u] in tasks && tasks[urls[u]].url == Some(u) && tasks[urls[u]].taskId == Some(urls[u])
  }

  lemma UrlIndexRemoved(urls: map<string, string>, tasks: map<string, TaskInfo>, u: string)
    requires UrlIndex(urls, tasks)
    ensures UrlIndex(urls - {u}, tasks)
  {
  }

  lemma UrlIndexAdded(urls: map<string, string>, tasks: map<string, TaskInfo>, u: string, id: string, t: TaskInfo)
    requires UrlIndex(urls, tasks) && id !in tasks && t.url == Some(u) && t.taskId == Some(id)
    ensures UrlIndex(urls[u := id], tasks[id := t])
  {
  }

  /** Removing a task and its own URL keeps the index consistent: no other URL names it. */
  lemma UrlIndexTaskRemoved(urls: map<string, string>, tasks: map<string, TaskInfo>, id: string)
    requires UrlIndex(urls, tasks) && id in tasks
    ensures var rest := if tasks[id].url.Some? then urls - {tasks[id].url.value} else urls;
            UrlIndex(rest, tasks - {id})
  {
  }

  /** The URL index once a task's own URL is released. */
  function Released(urls: map<string, string>, t: TaskInfo): map<string, string> {
    if t.url.Some? then urls - {t.url.value} else urls
  }

  /** The durable fields of every record of a registry. */
  function Records(tasks: map<string, TaskInfo>): (r: map<string, TaskData>)
    reads tasks.Values
    ensures r.Keys == tasks.Keys
  {
    map id | id in tasks :: tasks[id].Data()
  }

  /** Records agrees with any map that has the same ids and each record's durable fields. */
  lemma RecordsAre(tasks: map<string, TaskInfo>, want: map<string, TaskData>)
    requires tasks.Keys == want.Keys && forall id | id in tasks :: tasks[id].Data() == want[id]
    ensures Records(tasks) == want
  {
  }

  /** The records loadTasks builds from the file, each a new object without a future. */
  method LoadTasks(file: TasksFile) returns (loaded: map<string, TaskInfo>)
    ensures loaded.Keys == LoadedRecords(file).Keys
    ensures forall id | id in loaded :: loaded[id].Data() == LoadedRecords(file)[id]
    ensures forall id | id in loaded :: fresh(loaded[id]) && loaded[id].taskFuture == NoFuture
  {
    loaded := map[];
    if file.Saved? {
      var todo := file.records.Keys;
      while todo != {}
        invariant todo <= file.records.Keys
        invariant loaded.Keys == file.records.Keys - todo
        invariant forall id | id in loaded ::
                    fresh(loaded[id]) && loaded[id].Data() == Reloaded(file.records[id]) && loaded[id].taskFuture == NoFuture
        decreases todo
      {
        var id :| id in todo;
        var t := new TaskInfo.FromData(file.records[id]);
        if t.status == PROCESSING {
          t.Fail(RESTARTED, Some(INTERRUPTED));
        }
        t.taskFuture := NoFuture;
        loaded := loaded[id := t];
        todo := todo - {id};
      }
    }
  }

  // ---------------------------------------------------------------------------------------

  class TaskManagementService {
    /** Task id -> record. */
    var tasks: map<string, TaskInfo>
    /** URL -> id of the task processing it. */
    var processingUrls: map<string, string>
    /** What the tasks file holds. */
    var file: TasksFile
    /** Whether writing the tasks file succeeds. */
    const storageWritable: bool
    const sse: SseService
    const store: Files.FileStore
    /** Whether the summarization and the translation service have a Gemini client. */
    const summarizerAvailable: bool
    const translatorAvailable: bool

    /** The registry's invariant: the URL index is consistent and the SSE registry well formed. */
    ghost predicate Valid()
      reads this`tasks, this`processingUrls, sse`emitters, sse`nextEmitter
    {
      sse.Valid() && UrlIndex(processingUrls, tasks)
    }

    /** The durable fields of every record: what saveTasks serialises. */
    function Snapshot(): (r: map<string, TaskData>)
      reads this`tasks, tasks.Values
      ensures r.Keys == tasks.Keys
    {
      Records(tasks)
    }

    /** The record of one id, as a frame. */
    ghost function Record(taskId: string): set<object>
      reads this`tasks
    {
      if taskId in tasks then {tasks[taskId]} else {}
    }

    /** Every emitter still subscribed to the task has been completed. */
    ghost predicate EmittersCompleted(taskId: string)
      reads sse`emitters, sse`completed
    {
      taskId in sse.emitters ==> forall e | e in sse.emitters[taskId] :: e in sse.completed
    }

    /**
     * One broadcast of the record `d` to the task's subscribers, from the registry `m` and the
     * log `log`, with the sends to `failing` throwing: those emitters leave the list, and every
     * other one receives the update once, in list order.
     */
    ghost predicate Pushed(m: map<string, seq<EmitterId>>, log: seq<Delivery>, failing: set<EmitterId>,
                           taskId: string, d: TaskData)
      reads sse`emitters, sse`sent
    {
      && sse.emitters == Broadcasted(m, taskId, failing)
      && sse.sent == log + (if taskId in m then Deliveries(m[taskId], failing, UpdateEvent(d)) else [])
    }

    /** Every emitter still subscribed to the task last received the update carrying `d`. */
    ghost predicate LastPushed(taskId: string, d: TaskData)
      reads sse`emitters, sse`sent
    {
      taskId in sse.emitters ==> forall e | e in sse.emitters[taskId] :: LastTo(sse.sent, e) == Some(UpdateEvent(d))
    }

    /** sseService.sendTaskUpdate, seen from here: one broadcast of the record's current state. */
    method Publish(taskId: string, task: TaskInfo)
      requires Valid()
      modifies sse`emitters, sse`sent
      ensures Valid() && Pushed(old(sse.emitters), old(sse.sent), sse.Failing(), taskId, task.Data())
      ensures sse.emitters - {taskId} == old(sse.emitters) - {taskId}
      ensures LastPushed(taskId, task.Data())
    {
      ghost var m, log := sse.emitters, sse.sent;
      sse.SendTaskUpdate(taskId, task.Data());
      BroadcastedOthers(m, taskId, sse.Failing());
      BroadcastedLastDelivery(m, taskId, sse.Failing(), log, UpdateEvent(task.Data()));
    }

    /** sseService.completeEmitter, seen from here: the task's emitters are all completed. */
    method CloseEmitters(taskId: string)
      requires Valid()
      modifies sse`completed
      ensures Valid() && EmittersCompleted(taskId)
      ensures old(sse.completed) <= sse.completed
    {
      sse.CompleteEmitter(taskId);
    }

    /** The common tail of a task's end: its emitters are completed and the registry saved. */
    method CloseAndSave(taskId: string)
      requires Valid()
      modifies this`file, sse`completed
      ensures Valid() && EmittersCompleted(taskId)
      ensures file == if storageWritable then Saved(Snapshot()) else old(file)
    {
      CloseEmitters(taskId);
      SaveTasks();
    }

    /**
     * The constructor: the collaborators are stored; no task is known and no URL is in process.
     * The two Gemini services are given by the API keys their constructors received: each has a
     * client exactly when its key is usable.
     */
    constructor (sse: SseService, store: Files.FileStore, file: TasksFile, storageWritable: bool,
                 summarizerKey: Option<string>, translatorKey: Option<string>)
      requires sse.Valid()
      ensures Valid()
      ensures this.sse == sse && this.store == store && this.file == file
      ensures this.storageWritable == storageWritable
      ensures summarizerAvailable == ClientAvailable(summarizerKey) && translatorAvailable == ClientAvailable(translatorKey)
      ensures tasks == map[] && processingUrls == map[]
    {
      tasks := map[];
      processingUrls := map[];
      this.file := file;
      this.storageWritable := storageWritable;
      this.sse := sse;
      this.store := store;
      summarizerAvailable := ClientAvailable(summarizerKey);
      translatorAvailable := ClientAvailable(translatorKey);
    }

    /**
     * initialize and loadTasks, run once on the new service: every stored record becomes a
     * fresh object with the loaded fields and no future; PROCESSING records are failed as
     * interrupted; no URL is put back in process.
     */
    method Initialize()
      requires Valid() && tasks == map[] && processingUrls == map[]
      modifies this`tasks
      ensures Valid() && Snapshot() == LoadedRecords(file)
      ensures forall id | id in tasks :: fresh(tasks[id]) && tasks[id].taskFuture == NoFuture
    {
      var loaded := LoadTasks(file);
      tasks := loaded;
      RecordsAre(tasks, LoadedRecords(file));
    }

    /** shutdown: the registry is saved once more. */
    method Shutdown()
      modifies this`file
      ensures file == if storageWritable then Saved(Snapshot()) else old(file)
    {
      SaveTasks();
    }

    /** saveTasks: the file receives the snapshot; a failed write leaves the old file. */
    method SaveTasks()
      modifies this`file
      ensures file == if storageWritable then Saved(Snapshot()) else old(file)
    {
      if storageWritable {
        file := Saved(Snapshot());
      }
    }

    /** getTask: the record, or the IllegalArgumentException for an unknown id. */
    function GetTask(taskId: string): (r: Result<TaskInfo, string>)
      reads this`tasks
      ensures r.Success? <==> taskId in tasks
      ensures r.Success? ==> r.value == tasks[taskId]
      ensures r.Failure? ==> r.error == TaskNotFound(taskId)
    {
      if taskId in tasks then Success(tasks[taskId]) else Failure(TaskNotFound(taskId))
    }

    /** isUrlCurrentlyProcessing. */
    function IsUrlCurrentlyProcessing(url: string): (b: bool)
      reads this`processingUrls
      ensures b <==> url in processingUrls
    {
      url in processingUrls
    }

    /**
     * createAndStartTask: a URL already in process yields its task's id and adds nothing;
     * otherwise a new PROCESSING task under the fresh id, with a running future, claims the URL
     * and is saved. Either way the task's state is broadcast, and the id names a record that
     * carries it, so the "already processing" warning never fires.
     */
    method CreateAndStartTask(url: string, summaryLanguage: string, freshId: string) returns (id: string)
      requires Valid() && freshId !in tasks
      modifies this`tasks, this`processingUrls, this`file, sse`emitters, sse`sent
      ensures Valid()
      ensures id in tasks && tasks[id].taskId == Some(id) && IsUrlCurrentlyProcessing(url)
      ensures url in old(processingUrls) ==>
                && id == old(processingUrls[url])
                && tasks == old(tasks) && processingUrls == old(processingUrls) && file == old(file)
      ensures url !in old(processingUrls) ==>
                && id == freshId && fresh(tasks[id])
                && tasks == old(tasks)[id := tasks[id]]
                && processingUrls == old(processingUrls)[url := id]
                && tasks[id].Data() == CreatedRecord(url, summaryLanguage, id)
                && tasks[id].taskFuture == Running
                && file == (if storageWritable then Saved(Snapshot()) else old(file))
      ensures Pushed(old(sse.emitters), old(sse.sent), sse.Failing(), id, tasks[id].Data())
      ensures sse.emitters - {id} == old(sse.emitters) - {id}
    {
      var created := url !in processingUrls;
      if created {
        id := freshId;
        var t := NewTask(url, summaryLanguage, id);
        t.taskFuture := Running;
        UrlIndexAdded(processingUrls, tasks, url, id, t);
        tasks := tasks[id := t];
        processingUrls := processingUrls[url := id];
      } else {
        id := processingUrls[url];
      }
      Publish(id, tasks[id]);
      // the source saves a new task before the broadcast; the broadcast and the transient
      // Future touch nothing saved, so saving after them gives the same file
      if created {
        SaveTasks();
      }
    }

    /** The record built inside computeIfAbsent, before it is registered. */
    method NewTask(url: string, summaryLanguage: string, taskId: string) returns (t: TaskInfo)
      ensures fresh(t) && t.Data() == CreatedRecord(url, summaryLanguage, taskId) && t.taskFuture == NoFuture
    {
      t := new TaskInfo(Some(taskId), Some(url));
      t.summaryLanguage := Some(summaryLanguage);
      t.UpdateStatus(PROCESSING, PREPARING);
    }

    /** updateTaskProgress: only a PROCESSING record is updated, broadcast and saved. */
    method UpdateTaskProgress(taskId: string, progress: int, message: string) returns (r: Result<(), string>)
      requires Valid()
      modifies Record(taskId), this`file, sse`emitters, sse`sent
      ensures Valid() && tasks == old(tasks) && processingUrls == old(processingUrls)
      ensures r.Success? <==> taskId in tasks
      ensures taskId !in tasks ==> r == Failure(TaskNotFound(taskId))
      ensures taskId in tasks && old(tasks[taskId].status) == PROCESSING ==>
                && tasks[taskId].Data() == ProgressUpdated(old(tasks[taskId].Data()), progress, message)
                && Pushed(old(sse.emitters), old(sse.sent), sse.Failing(), taskId, tasks[taskId].Data())
                && file == (if storageWritable then Saved(Snapshot()) else old(file))
      ensures taskId in tasks && old(tasks[taskId].status) != PROCESSING ==>
                && tasks[taskId].Data() == old(tasks[taskId].Data())
                && sse.emitters == old(sse.emitters) && sse.sent == old(sse.sent) && file == old(file)
      ensures !(taskId in tasks && old(tasks[taskId].status) == PROCESSING) ==>
                sse.emitters == old(sse.emitters) && sse.sent == old(sse.sent) && file == old(file)
      ensures sse.emitters - {taskId} == old(sse.emitters) - {taskId}
    {
      var found := GetTask(taskId);
      if found.Failure? {
        return Failure(found.error);
      }
      var task := found.value;
      if task.status == PROCESSING {
        task.UpdateProgress(progress, message);
        Publish(taskId, task);
        SaveTasks();
      }
      r := Success(());
    }

    /**
     * handleTaskFailure: the record fails with the whole error and the cut message, is
     * broadcast and saved, releases its URL and has its emitters completed. An unknown id
     * changes nothing.
     */
    method HandleTaskFailure(taskId: string, errorMessage: string)
      requires Valid()
      modifies Record(taskId), this`processingUrls, this`file, sse`emitters, sse`sent, sse`completed
      ensures Valid() && tasks == old(tasks)
      ensures taskId !in tasks ==>
                && processingUrls == old(processingUrls) && file == old(file)
                && sse.emitters == old(sse.emitters) && sse.sent == old(sse.sent) && sse.completed == old(sse.completed)
      ensures taskId in tasks ==>
                && tasks[taskId].Data() == Failed(old(tasks[taskId].Data()), errorMessage, Some(FailureMessage(errorMessage)))
                && processingUrls == (if tasks[taskId].url.Some? then old(processingUrls) - {tasks[taskId].url.value}
                                      else old(processingUrls))
                && file == (if storageWritable then Saved(Snapshot()) else old(file))
                && tasks[taskId].taskFuture == old(tasks[taskId].taskFuture)
                && Pushed(old(sse.emitters), old(sse.sent), old(sse.Failing()), taskId, tasks[taskId].Data())
                && LastPushed(taskId, tasks[taskId].Data())
                && EmittersCompleted(taskId)
      ensures sse.emitters - {taskId} == old(sse.emitters) - {taskId}
    {
      var found := GetTask(taskId);
      if found.Failure? {
        return;
      }
      var task := found.value;
      task.Fail(errorMessage, Some(FailureMessage(errorMessage)));
      Publish(taskId, task);
      if task.url.Some? {
        UrlIndexRemoved(processingUrls, tasks, task.url.value);
        processingUrls := processingUrls - {task.url.value};
      }
      // the source saves before the two steps above; neither touches a record, so the file is the same
      CloseAndSave(taskId);
    }

    /**
     * cancelAndDeleteTask: an unknown id throws and changes nothing. Otherwise a future not
     * yet done is cancelled and the record failed and broadcast; then the record is removed,
     * its URL released (whichever task holds the claim), its emitters completed and the
     * registry saved.
     */
    method CancelAndDeleteTask(taskId: string) returns (r: Result<(), string>)
      requires Valid()
      modifies Record(taskId), this`tasks, this`processingUrls, this`file, sse`emitters, sse`sent, sse`completed
      ensures Valid()
      ensures r.Success? <==> taskId in old(tasks)
      ensures taskId !in old(tasks) ==>
                && r == Failure(CancelNotFound(taskId))
                && tasks == old(tasks) && processingUrls == old(processingUrls) && file == old(file)
                && sse.emitters == old(sse.emitters) && sse.sent == old(sse.sent) && sse.completed == old(sse.completed)
      ensures taskId in old(tasks) ==>
                var t := old(tasks[taskId]);
                && tasks == old(tasks) - {taskId}
                && processingUrls == (if t.url.Some? then old(processingUrls) - {t.url.value}
                                      else old(processingUrls))
                && (old(t.taskFuture) == Running ==>
                      && t.Data() == Failed(old(t.Data()), CANCEL_ERROR, Some(CANCEL_MESSAGE)) && t.taskFuture == Done
                      && Pushed(old(sse.emitters), old(sse.sent), old(sse.Failing()), taskId, t.Data())
                      && LastPushed(taskId, t.Data()))
                && (old(t.taskFuture) != Running ==>
                      && t.Data() == old(t.Data()) && t.taskFuture == old(t.taskFuture)
                      && sse.emitters == old(sse.emitters) && sse.sent == old(sse.sent))
                && file == (if storageWritable then Saved(Snapshot()) else old(file))
                && EmittersCompleted(taskId)
      ensures sse.emitters - {taskId} == old(sse.emitters) - {taskId}
    {
      if taskId !in tasks {
        return Failure(CancelNotFound(taskId));
      }
      var task := tasks[taskId];
      if task.taskFuture == Running {
        CancelRunning(taskId, task);
      }
      Unregister(taskId);
      CloseAndSave(taskId);
      r := Success(());
    }

    /** A running future is cancelled: the record fails with the cancel message and is broadcast. */
    method CancelRunning(taskId: string, task: TaskInfo)
      requires Valid() && taskId in tasks && tasks[taskId] == task
      modifies task, sse`emitters, sse`sent
      ensures Valid()
      ensures task.Data() == Failed(old(task.Data()), CANCEL_ERROR, Some(CANCEL_MESSAGE)) && task.taskFuture == Done
      ensures Pushed(old(sse.emitters), old(sse.sent), sse.Failing(), taskId, task.Data()) && LastPushed(taskId, task.Data())
      ensures sse.emitters - {taskId} == old(sse.emitters) - {taskId}
    {
      task.taskFuture := Done;
      task.Fail(CANCEL_ERROR, Some(CANCEL_MESSAGE));
      Publish(taskId, task);
    }

    /** The record leaves the registry and its URL is released. */
    method Unregister(taskId: string)
      requires Valid() && taskId in tasks
      modifies this`tasks, this`processingUrls
      ensures Valid()
      ensures tasks == old(tasks) - {taskId} && processingUrls == Released(old(processingUrls), old(tasks)[taskId])
    {
      var task := tasks[taskId];
      UrlIndexTaskRemoved(processingUrls, tasks, taskId);
      tasks := tasks - {taskId};
      if task.url.Some? {
        processingUrls := processingUrls - {task.url.value};
      }
    }

    /**
     * One checkpoint of the run: the user's deletion, if it happens here, then
     * updateTaskProgress, whose getTask throws once the task is gone.
     */
    method Checkpoint(task: TaskInfo, taskId: string, progress: int, message: string, deleteFirst: bool)
      returns (ok: bool)
      requires Valid() && taskId in tasks && tasks[taskId] == task
      modifies task, this`tasks, this`processingUrls, this`file, sse`emitters, sse`sent, sse`completed
      ensures Valid() && ok == !deleteFirst && (!storageWritable ==> file == old(file))
      ensures ok ==> && tasks == old(tasks) && processingUrls == old(processingUrls)
                     && task.Data() == (if old(task.status) == PROCESSING then ProgressUpdated(old(task.Data()), progress, message)
                                        else old(task.Data()))
      ensures !ok ==> tasks == old(tasks) - {taskId} && processingUrls == Released(old(processingUrls), task)
      ensures sse.emitters - {taskId} == old(sse.emitters) - {taskId}
    {
      if deleteFirst {
        var _ := CancelAndDeleteTask(taskId);
      }
      var u := UpdateTaskProgress(taskId, progress, message);
      ok := u.Success?;
    }

    /** Step 1's start: checkpoint 10 and the video information, then the download and the transcription. */
    method FetchStage(task: TaskInfo, taskId: string, url: string, env: Collaborators)
      returns (out: Result<Fetched, Ending>, ghost trace: seq<int>)
      requires Valid() && taskId in tasks && tasks[taskId] == task
      modifies task, this`tasks, this`processingUrls, this`file, sse`emitters, sse`sent, sse`completed
      ensures Valid() && out == FetchPlan(env).result
      ensures !storageWritable ==> file == old(file)
      ensures out != Failure(Deleted) ==> tasks == old(tasks) && processingUrls == old(processingUrls)
      ensures out == Failure(Deleted) ==> tasks == old(tasks) - {taskId} && processingUrls == Released(old(processingUrls), task)
      ensures sse.emitters - {taskId} == old(sse.emitters) - {taskId}
      ensures Before(old(task.Data()), 10) ==> trace == FetchPlan(env).passed && (out.Success? ==> Before(task.Data(), 55))
    {
      var ok := Checkpoint(task, taskId, 10, "正在解析视频信息...", DeletedAt(env, 10));
      if !ok {
        return Failure(Deleted), [];
      }
      ghost var p := task.progress;
      if env.videoInfo.Failure? {
        return Failure(Aborted(FailureText(env.videoInfo.error))), [p];
      }
      var title := env.videoInfo.value.GetOr(UNTITLED);
      task.videoTitle := Some(title);
      ghost var rest;
      out, rest := DownloadStage(task, taskId, url, env, title);
      trace := [p] + rest;
    }

    /** Step 1's end: checkpoint 15 and the download to audio, then the transcription. */
    method DownloadStage(task: TaskInfo, taskId: string, url: string, env: Collaborators, title: string)
      returns (out: Result<Fetched, Ending>, ghost trace: seq<int>)
      requires Valid() && taskId in tasks && tasks[taskId] == task
      modifies task, this`tasks, this`processingUrls, this`file, sse`emitters, sse`sent, sse`completed
      ensures Valid() && out == DownloadPlan(env, title).result
      ensures !storageWritable ==> file == old(file)
      ensures out != Failure(Deleted) ==> tasks == old(tasks) && processingUrls == old(processingUrls)
      ensures out == Failure(Deleted) ==> tasks == old(tasks) - {taskId} && processingUrls == Released(old(processingUrls), task)
      ensures sse.emitters - {taskId} == old(sse.emitters) - {taskId}
      ensures Before(old(task.Data()), 15) ==> trace == DownloadPlan(env, title).passed && (out.Success? ==> Before(task.Data(), 55))
    {
      var ok := Checkpoint(task, taskId, 15, "正在下载视频并转换为音频...", DeletedAt(env, 15));
      if !ok {
        return Failure(Deleted), [];
      }
      ghost var p := task.progress;
      if env.download.Failure? {
        return Failure(Aborted(FailureText(env.download.error))), [p];
      }
      var audio := env.download.value;
      task.audioFilePath := audio;
      ghost var rest;
      out, rest := TranscribeStage(task, taskId, env, title, audio);
      trace := [p] + rest;
    }

    /** Step 2's start: checkpoint 35 and the transcription, with the detected language recorded. */
    method TranscribeStage(task: TaskInfo, taskId: string, env: Collaborators, title: string, audio: Option<string>)
      returns (out: Result<Fetched, Ending>, ghost trace: seq<int>)
      requires Valid() && taskId in tasks && tasks[taskId] == task
      modifies task, this`tasks, this`processingUrls, this`file, sse`emitters, sse`sent, sse`completed
      ensures Valid() && out == TranscribePlan(env, title, audio).result
      ensures !storageWritable ==> file == old(file)
      ensures out != Failure(Deleted) ==> tasks == old(tasks) && processingUrls == old(processingUrls)
      ensures out == Failure(Deleted) ==> tasks == old(tasks) - {taskId} && processingUrls == Released(old(processingUrls), task)
      ensures sse.emitters - {taskId} == old(sse.emitters) - {taskId}
      ensures Before(old(task.Data()), 35) ==>
                trace == TranscribePlan(env, title, audio).passed && (out.Success? ==> Before(task.Data(), 55))
    {
      var ok := Checkpoint(task, taskId, 35, "音频处理完成，开始转录...", DeletedAt(env, 35));
      if !ok {
        return Failure(Deleted), [];
      }
      trace := [task.progress];
      if env.transcription.Failure? {
        return Failure(Aborted(FailureText(env.transcription.error))), trace;
      }
      var rawScript := env.transcription.value.transcript.GetOr("");
      var detected := env.transcription.value.language.GetOr("en");
      task.detectedLanguage := Some(detected);
      out := Success(Fetched(title, audio, rawScript, detected));
    }

    /** Step 2's end: the artifact names and the raw transcript's file, then steps 3 to 6. */
    method WriteStage(task: TaskInfo, taskId: string, url: string, language: string, env: Collaborators,
                      services: Services, f: Fetched) returns (ending: Ending, ghost trace: seq<int>)
      requires Valid() && taskId in tasks && tasks[taskId] == task
      modifies task, this`tasks, this`processingUrls, this`file, sse`emitters, sse`sent, sse`completed, store`files
      ensures var run := WritePlan(taskId, url, language, env, f, services, store.unwritable);
              && Valid() && ending == run.ending && store.files == Written(old(store.files), run.writes)
              && (!storageWritable ==> file == old(file))
              && (ending.Deleted? ==> tasks == old(tasks) - {taskId} && processingUrls == Released(old(processingUrls), task))
              && (!ending.Deleted? ==> tasks == old(tasks) && processingUrls == old(processingUrls))
              && (ending.Finished? ==> task.Data() == FinishedRecord(old(task.Data()), ending, language))
              && (ending.Finished? ==> LastPushed(taskId, task.Data()))
              && sse.emitters - {taskId} == old(sse.emitters) - {taskId}
              && (Before(old(task.Data()), 55) ==> trace == run.passed)
    {
      ghost var d0 := task.Data();
      var paths := ArtifactPaths(f.title, taskId);
      if paths.Failure? {
        return Aborted(PROCESSING_FAILED + paths.error), [];
      }
      var names := paths.value;
      var raw := Artifact(names.raw, WithSource(f.rawScript, url));
      var saved := store.SaveStringToFile(Some(raw.content), raw.path);
      if saved.Failure? {
        return Aborted(PROCESSING_FAILED + saved.error.path), [];
      }
      task.rawScriptPath := Some(names.raw);
      ghost var d1 := task.Data();
      var translate := Translates(f.detected, language);
      ending, trace := ScriptStage(task, taskId, url, language, env, services, f, names, translate);
      WrittenCons(old(store.files), raw, ScriptPlan(url, language, env, f, names, translate, services, store.unwritable).writes);
      if ending.Finished? {
        FinishedRecordShape(d0, d1, ending, language);
      }
    }

    /** Step 3: checkpoint 55, the optimised transcript and its file, then steps 4 to 6. */
    method ScriptStage(task: TaskInfo, taskId: string, url: string, language: string, env: Collaborators,
                       services: Services, f: Fetched, names: Names, translate: bool)
      returns (ending: Ending, ghost trace: seq<int>)
      requires Valid() && taskId in tasks && tasks[taskId] == task
      modifies task, this`tasks, this`processingUrls, this`file, sse`emitters, sse`sent, sse`completed, store`files
      ensures var run := ScriptPlan(url, language, env, f, names, translate, services, store.unwritable);
              && Valid() && ending == run.ending && store.files == Written(old(store.files), run.writes)
              && (!storageWritable ==> file == old(file))
              && (ending.Deleted? ==> tasks == old(tasks) - {taskId} && processingUrls == Released(old(processingUrls), task))
              && (!ending.Deleted? ==> tasks == old(tasks) && processingUrls == old(processingUrls))
              && (ending.Finished? ==> task.Data() == FinishedRecord(old(task.Data()), ending, language))
              && (ending.Finished? ==> LastPushed(taskId, task.Data()))
              && sse.emitters - {taskId} == old(sse.emitters) - {taskId}
              && (Before(old(task.Data()), 55) ==> trace == run.passed)
    {
      ghost var d0 := task.Data();
      var ok := Checkpoint(task, taskId, 55, "转录完成，正在优化文本...", DeletedAt(env, 55));
      if !ok {
        return Deleted, [];
      }
      ghost var p := task.progress;
      var optimized := services.optimize(f.rawScript);
      var script := Artifact(names.script, Document(f.title, optimized, url));
      var saved := store.SaveStringToFile(Some(script.content), script.path);
      if saved.Failure? {
        return Aborted(PROCESSING_FAILED + saved.error.path), [p];
      }
      task.scriptPath := Some(names.script);
      ghost var d1 := task.Data();
      ghost var rest;
      ending, rest := TranslationStage(task, taskId, url, language, env, services, f, names, optimized, translate);
      trace := [p] + rest;
      WrittenCons(old(store.files), script, TranslationPlan(url, language, env, f, names, optimized, translate, services, store.unwritable).writes);
      if ending.Finished? {
        FinishedRecordShape(d0, d1, ending, language);
      }
    }

    /** Step 4: when the languages differ, checkpoint 70, the translation and its file; then steps 5 and 6. */
    method TranslationStage(task: TaskInfo, taskId: string, url: string, language: string, env: Collaborators,
                            services: Services, f: Fetched, names: Names, optimized: string, translate: bool)
      returns (ending: Ending, ghost trace: seq<int>)
      requires Valid() && taskId in tasks && tasks[taskId] == task
      modifies task, this`tasks, this`processingUrls, this`file, sse`emitters, sse`sent, sse`completed, store`files
      ensures var run := TranslationPlan(url, language, env, f, names, optimized, translate, services, store.unwritable);
              && Valid() && ending == run.ending && store.files == Written(old(store.files), run.writes)
              && (!storageWritable ==> file == old(file))
              && (ending.Deleted? ==> tasks == old(tasks) - {taskId} && processingUrls == Released(old(processingUrls), task))
              && (!ending.Deleted? ==> tasks == old(tasks) && processingUrls == old(processingUrls))
              && (ending.Finished? ==> task.Data() == FinishedRecord(old(task.Data()), ending, language))
              && (ending.Finished? ==> LastPushed(taskId, task.Data()))
              && sse.emitters - {taskId} == old(sse.emitters) - {taskId}
              && (Before(old(task.Data()), 70) ==> trace == run.passed)
    {
      if !translate {
        ending, trace := SummaryStage(task, taskId, url, language, env, services, f, names, optimized, false);
        return;
      }
      ghost var d0 := task.Data();
      var ok := Checkpoint(task, taskId, 70, "正在翻译文本...", DeletedAt(env, 70));
      if !ok {
        return Deleted, [];
      }
      ghost var p := task.progress;
      var translated := services.translate(optimized, language, f.detected);
      var translation := Artifact(names.translation, Document(f.title, translated, url));
      var saved := store.SaveStringToFile(Some(translation.content), translation.path);
      if saved.Failure? {
        return Aborted(PROCESSING_FAILED + saved.error.path), [p];
      }
      task.translationPath := Some(names.translation);
      ghost var d1 := task.Data();
      ghost var rest;
      ending, rest := SummaryStage(task, taskId, url, language, env, services, f, names, optimized, true);
      trace := [p] + rest;
      WrittenCons(old(store.files), translation, SummaryPlan(url, language, env, f, names, optimized, services, store.unwritable, true).writes);
      if ending.Finished? {
        FinishedRecordShape(d0, d1, ending, language);
      }
    }

    /** Steps 5 and 6: checkpoint 80, the summary and its file, then the results, complete() and the final broadcast. */
    method SummaryStage(task: TaskInfo, taskId: string, url: string, language: string, env: Collaborators,
                        services: Services, f: Fetched, names: Names, optimized: string, translated: bool)
      returns (ending: Ending, ghost trace: seq<int>)
      requires Valid() && taskId in tasks && tasks[taskId] == task
      modifies task, this`tasks, this`processingUrls, this`file, sse`emitters, sse`sent, sse`completed, store`files
      ensures var run := SummaryPlan(url, language, env, f, names, optimized, services, store.unwritable, translated);
              && Valid() && ending == run.ending && store.files == Written(old(store.files), run.writes)
              && (!storageWritable ==> file == old(file))
              && (ending.Deleted? ==> tasks == old(tasks) - {taskId} && processingUrls == Released(old(processingUrls), task))
              && (!ending.Deleted? ==> tasks == old(tasks) && processingUrls == old(processingUrls))
              && (ending.Finished? ==> task.Data() == FinishedRecord(old(task.Data()), ending, language))
              && (ending.Finished? ==> LastPushed(taskId, task.Data()))
              && sse.emitters - {taskId} == old(sse.emitters) - {taskId}
              && (Before(old(task.Data()), 80) ==> trace == run.passed)
    {
      ghost var d0 := task.Data();
      var ok := Checkpoint(task, taskId, 80, "正在生成摘要...", DeletedAt(env, 80));
      if !ok {
        return Deleted, [];
      }
      trace := [task.progress];
      var summary := services.summarize(optimized, language, f.title);
      var written := Artifact(names.summary, WithSource(summary, url));
      var saved := store.SaveStringToFile(Some(written.content), written.path);
      if saved.Failure? {
        return Aborted(PROCESSING_FAILED + saved.error.path), trace;
      }
      ending := Finished(f.title, f.detected, names, translated);
      CompleteRecord(task, taskId, ending, language);
      WrittenCons(old(store.files), written, []);
      assert [written] + [] == [written];
    }

    /** The end of the try block: the summary path, the results, complete() and the final broadcast. */
    method CompleteRecord(task: TaskInfo, taskId: string, ending: Ending, language: string)
      requires Valid() && taskId in tasks && tasks[taskId] == task && ending.Finished?
      modifies task, sse`emitters, sse`sent
      ensures Valid() && task.Data() == FinishedRecord(old(task.Data()), ending, language)
      ensures Pushed(old(sse.emitters), old(sse.sent), sse.Failing(), taskId, task.Data()) && LastPushed(taskId, task.Data())
      ensures sse.emitters - {taskId} == old(sse.emitters) - {taskId}
    {
      ghost var d0 := task.Data();
      task.summaryPath := Some(ending.names.summary);
      ghost var d1 := task.Data();
      task.SetResultPaths(Some(ending.names.script), Some(ending.names.summary), TranslationPath(ending), Some(ending.names.raw));
      task.SetVideoDetails(Some(ending.title), Some(ending.detected), Some(language));
      task.Complete(DONE_MESSAGE);
      Publish(taskId, task);
      FinishedRecordShape(d0, d1, ending, language);
    }

    /** The try block of processVideoTask: steps 1 and 2, then the rest when they succeed. */
    method RunStages(task: TaskInfo, taskId: string, url: string, language: string, env: Collaborators,
                     services: Services) returns (ending: Ending, ghost trace: seq<int>)
      requires Valid() && taskId in tasks && tasks[taskId] == task
      modifies task, this`tasks, this`processingUrls, this`file, sse`emitters, sse`sent, sse`completed, store`files
      ensures var run := Plan(taskId, url, language, env, services, store.unwritable);
              && Valid() && ending == run.ending && store.files == Written(old(store.files), run.writes)
              && (!storageWritable ==> file == old(file))
              && (ending.Deleted? ==> tasks == old(tasks) - {taskId} && processingUrls == Released(old(processingUrls), task))
              && (!ending.Deleted? ==> tasks == old(tasks) && processingUrls == old(processingUrls))
              && (ending.Finished? ==> task.Data() == FinishedRecord(old(task.Data()), ending, language))
              && (ending.Finished? ==> LastPushed(taskId, task.Data()))
              && sse.emitters - {taskId} == old(sse.emitters) - {taskId}
              && (Before(old(task.Data()), 10) ==> trace == run.passed)
    {
      ghost var d0 := task.Data();
      var fetched, fetchTrace := FetchStage(task, taskId, url, env);
      if fetched.Failure? {
        return fetched.error, fetchTrace;
      }
      ghost var d1 := task.Data();
      ghost var rest;
      ending, rest := WriteStage(task, taskId, url, language, env, services, fetched.value);
      trace := fetchTrace + rest;
      if ending.Finished? {
        FinishedRecordShape(d0, d1, ending, language);
      }
    }

    /**
     * The end of processVideoTask once the stages return: a failed run goes through
     * handleTaskFailure; a deleted task's "Task not found" does too, and finds nothing there.
     * The finally block then releases the URL, completes the emitters and saves the registry.
     */
    method Conclude(task: TaskInfo, taskId: string, url: string, ending: Ending)
      requires Valid()
      requires ending.Deleted? ==> taskId !in tasks
      requires !ending.Deleted? ==> taskId in tasks && tasks[taskId] == task
      modifies Record(taskId), this`processingUrls, this`file, sse`emitters, sse`sent, sse`completed
      ensures Valid() && tasks == old(tasks) && store.files == old(store.files)
      ensures processingUrls == (if ending.Aborted? then Released(old(processingUrls), task) else old(processingUrls)) - {url}
      ensures ending.Aborted? ==> task.Data() == Failed(old(task.Data()), ending.error, Some(FailureMessage(ending.error)))
      ensures !ending.Aborted? ==> task.Data() == old(task.Data())
      ensures task.taskFuture == if ending.Deleted? then old(task.taskFuture) else Done
      ensures file == (if storageWritable then Saved(Snapshot()) else old(file))
      ensures EmittersCompleted(taskId)
      ensures ending.Aborted? ==> LastPushed(taskId, task.Data())
      ensures !ending.Aborted? ==> sse.emitters == old(sse.emitters) && sse.sent == old(sse.sent)
      ensures sse.emitters - {taskId} == old(sse.emitters) - {taskId}
    {
      RecordEnding(task, taskId, ending);
      UrlIndexRemoved(processingUrls, tasks, url);
      processingUrls := processingUrls - {url};
      // the source saves before completing the emitters, which touches no record
      CloseAndSave(taskId);
    }

    /**
     * The catch blocks of processVideoTask: the Future completes unless the task was deleted,
     * and a failed or deleted run goes through handleTaskFailure.
     */
    method RecordEnding(task: TaskInfo, taskId: string, ending: Ending)
      requires Valid()
      requires ending.Deleted? ==> taskId !in tasks
      requires !ending.Deleted? ==> taskId in tasks && tasks[taskId] == task
      modifies Record(taskId), this`processingUrls, this`file, sse`emitters, sse`sent, sse`completed
      ensures Valid() && tasks == old(tasks) && (!storageWritable ==> file == old(file))
      ensures processingUrls == if ending.Aborted? then Released(old(processingUrls), task) else old(processingUrls)
      ensures ending.Aborted? ==> task.Data() == Failed(old(task.Data()), ending.error, Some(FailureMessage(ending.error)))
      ensures !ending.Aborted? ==> task.Data() == old(task.Data())
      ensures task.taskFuture == if ending.Deleted? then old(task.taskFuture) else Done
      ensures ending.Aborted? ==> LastPushed(taskId, task.Data())
      ensures !ending.Aborted? ==> sse.emitters == old(sse.emitters) && sse.sent == old(sse.sent)
      ensures sse.emitters - {taskId} == old(sse.emitters) - {taskId}
    {
      if !ending.Deleted? {
        // the Future completes with the run; nothing below reads it
        task.taskFuture := Done;
      }
      match ending {
        case Aborted(error) => HandleTaskFailure(taskId, error);
        case Deleted => HandleTaskFailure(taskId, PROCESSING_FAILED + TaskNotFound(taskId));
        case Finished(_, _, _, _) =>
      }
    }

    /**
     * The run of a registered task: the stages, the completion of the Future that runs them
     * (unless the task was deleted under them, which cancels it), then Conclude.
     */
    method RunTask(task: TaskInfo, taskId: string, url: string, language: string, env: Collaborators,
                   services: Services) returns (ghost run: Run, ghost trace: seq<int>)
      requires Valid() && taskId in tasks && tasks[taskId] == task
      modifies task, this`tasks, this`processingUrls, this`file, sse`emitters, sse`sent, sse`completed, store`files
      ensures run == Plan(taskId, url, language, env, services, store.unwritable)
      ensures Valid() && store.files == Written(old(store.files), run.writes)
      ensures tasks == (if run.ending.Deleted? then old(tasks) - {taskId} else old(tasks))
      ensures processingUrls == (if run.ending.Finished? then old(processingUrls) else Released(old(processingUrls), task)) - {url}
      ensures run.ending.Finished? ==> task.Data() == FinishedRecord(old(task.Data()), run.ending, language)
      ensures run.ending.Aborted? ==>
                task.status == ERROR && task.error == Some(run.ending.error) && task.message == FailureMessage(run.ending.error)
      ensures !run.ending.Deleted? ==> task.taskFuture == Done
      ensures Before(old(task.Data()), 10) ==> trace == run.passed
      ensures file == (if storageWritable then Saved(Snapshot()) else old(file))
      ensures EmittersCompleted(taskId)
      ensures !run.ending.Deleted? ==> LastPushed(taskId, task.Data())
      ensures sse.emitters - {taskId} == old(sse.emitters) - {taskId}
    {
      run := Plan(taskId, url, language, env, services, store.unwritable);
      var ending;
      ending, trace := RunStages(task, taskId, url, language, env, services);
      Conclude(task, taskId, url, ending);
    }

    /**
     * processVideoTask: an unknown id throws before anything happens; a registered task runs
     * as RunTask says, with the services as the application wires them.
     */
    method ProcessVideoTask(taskId: string, url: string, summaryLanguage: string, env: Collaborators)
      returns (r: Result<(), string>, ghost run: Run, ghost trace: seq<int>)
      requires Valid()
      modifies Record(taskId), this`tasks, this`processingUrls, this`file, sse`emitters, sse`sent, sse`completed, store`files
      ensures Valid()
      ensures r.Success? <==> taskId in old(tasks)
      ensures taskId !in old(tasks) ==>
                && r == Failure(TaskNotFound(taskId))
                && tasks == old(tasks) && processingUrls == old(processingUrls) && file == old(file)
                && store.files == old(store.files) && sse.emitters == old(sse.emitters) && sse.sent == old(sse.sent)
      ensures taskId in old(tasks) ==>
                run == Plan(taskId, url, summaryLanguage, env, GeminiServices(summarizerAvailable, translatorAvailable, env),
                            store.unwritable)
      ensures taskId in old(tasks) ==>
                var t := old(tasks[taskId]);
                && store.files == Written(old(store.files), run.writes)
                && tasks == (if run.ending.Deleted? then old(tasks) - {taskId} else old(tasks))
                && processingUrls == (if run.ending.Finished? then old(processingUrls) else Released(old(processingUrls), t)) - {url}
                && (run.ending.Finished? ==> t.Data() == FinishedRecord(old(t.Data()), run.ending, summaryLanguage))
                && (run.ending.Aborted? ==>
                      t.status == ERROR && t.error == Some(run.ending.error) && t.message == FailureMessage(run.ending.error))
                && (!run.ending.Deleted? ==> t.taskFuture == Done)
                && (Before(old(t.Data()), 10) ==> trace == run.passed)
                && file == (if storageWritable then Saved(Snapshot()) else old(file))
                && EmittersCompleted(taskId)
                && (!run.ending.Deleted? ==> LastPushed(taskId, t.Data()))
      ensures sse.emitters - {taskId} == old(sse.emitters) - {taskId}
    {
      var found := GetTask(taskId);
      if found.Failure? {
        return Failure(found.error), Run(Deleted, [], []), [];
      }
      run, trace := RunTask(found.value, taskId, url, summaryLanguage, env,
                            GeminiServices(summarizerAvailable, translatorAvailable, env));
      r := Success(());
    }
  }
}
