/**
 * The task record (dto/TaskInfo.java): a mutable object whose synchronized mutators
 * overwrite its lifecycle fields in place. `TaskData` is the record's durable part
 * (every field Jackson serialises); the class adds the two transient runtime fields.
 */
module TaskRecord {
  import opened JavaStrings

  datatype TaskStatus = PROCESSING | COMPLETED | ERROR

  /** The Future kept for the asynchronous run: none, still running, or done (finished or cancelled). */
  datatype FutureState = NoFuture | Running | Done

  /** The persisted fields of a task record, in the source's declaration order. */
  datatype TaskData = TaskData(
    taskId: Option<string>,
    url: Option<string>,
    status: TaskStatus,
    progress: int,
    message: string,
    error: Option<string>,
    videoTitle: Option<string>,
    detectedLanguage: Option<string>,
    summaryLanguage: Option<string>,
    scriptPath: Option<string>,
    summaryPath: Option<string>,
    translationPath: Option<string>,
    rawScriptPath: Option<string>)

  const CREATED_MESSAGE := "任务已创建..."
  const FAILED_MESSAGE := "处理失败"

  /** The field initialisers of the class: what the no-argument constructor yields. */
  const Fresh := TaskData(None, None, PROCESSING, 0, CREATED_MESSAGE, None,
                          None, None, None, None, None, None, None)

  function Min(a: int, b: int): int { if a <= b then a else b }
  function Max(a: int, b: int): int { if a <= b then b else a }

  predicate ProgressInRange(d: TaskData) {
    0 <= d.progress <= 100
  }

  /** The design's intended link between error and status; the mutators do not all keep it. */
  predicate ErrorIffFailed(d: TaskData) {
    d.error.Some? <==> d.status == ERROR
  }

  /** `r` differs from `d` at most in status, progress, message and error. */
  predicate OnlyLifecycleChanged(d: TaskData, r: TaskData) {
    r.(status := d.status, progress := d.progress, message := d.message, error := d.error) == d
  }

  /** A fresh record is PROCESSING at 0 with the creation message, no error and no artifact paths. */
  lemma FreshRecord()
    ensures Fresh.status == PROCESSING && Fresh.progress == 0 && Fresh.message == CREATED_MESSAGE
    ensures Fresh.error.None? && Fresh.scriptPath.None? && Fresh.summaryPath.None?
    ensures Fresh.translationPath.None? && Fresh.rawScriptPath.None?
    ensures ProgressInRange(Fresh) && ErrorIffFailed(Fresh)
  {
  }

  /** updateStatus: the error is cleared only when the new status is PROCESSING. */
  function StatusUpdated(d: TaskData, status: TaskStatus, message: string): (r: TaskData)
    ensures r.status == status && r.message == message && r.progress == d.progress
    ensures status == PROCESSING ==> r.error.None?
    ensures status != PROCESSING ==> r.error == d.error
    ensures OnlyLifecycleChanged(d, r)
  {
    d.(status := status, message := message,
       error := if status == PROCESSING then None else d.error)
  }

  /** updateProgress: never lowers the progress, caps it at 100, and puts the task back to PROCESSING. */
  function ProgressUpdated(d: TaskData, progress: int, message: string): (r: TaskData)
    ensures ProgressInRange(d) ==> ProgressInRange(r) && r.progress == Max(d.progress, Min(progress, 100))
    ensures progress < d.progress ==> r.progress == d.progress
    ensures r.status == PROCESSING && r.message == message && r.error.None?
    ensures ErrorIffFailed(r) && OnlyLifecycleChanged(d, r)
  {
    d.(progress := if progress >= d.progress then Min(progress, 100) else d.progress,
       message := message, status := PROCESSING, error := None)
  }

  /** complete: COMPLETED at 100 with no error. */
  function Completed(d: TaskData, message: string): (r: TaskData)
    ensures r.status == COMPLETED && r.progress == 100 && r.message == message && r.error.None?
    ensures ProgressInRange(r) && ErrorIffFailed(r) && OnlyLifecycleChanged(d, r)
  {
    d.(status := COMPLETED, progress := 100, message := message, error := None)
  }

  /** fail: ERROR with the given error; a null message becomes "处理失败"; progress is kept. */
  function Failed(d: TaskData, error: string, message: Option<string>): (r: TaskData)
    ensures r.status == ERROR && r.error == Some(error)
    ensures r.message == (if message.Some? then message.value else FAILED_MESSAGE)
    ensures r.progress == d.progress && ErrorIffFailed(r) && OnlyLifecycleChanged(d, r)
  {
    d.(status := ERROR, message := message.GetOr(FAILED_MESSAGE), error := Some(error))
  }

  /** setResultPaths: each path is stored as given (a null Path as null); nothing else changes. */
  function ResultPathsSet(d: TaskData, script: Option<string>, summary: Option<string>,
                          translation: Option<string>, rawScript: Option<string>): (r: TaskData)
    ensures r.scriptPath == script && r.summaryPath == summary
    ensures r.translationPath == translation && r.rawScriptPath == rawScript
    ensures r.(scriptPath := d.scriptPath, summaryPath := d.summaryPath,
               translationPath := d.translationPath, rawScriptPath := d.rawScriptPath) == d
  {
    d.(scriptPath := script, summaryPath := summary,
       translationPath := translation, rawScriptPath := rawScript)
  }

  /** setVideoDetails: title and both languages; nothing else changes. */
  function VideoDetailsSet(d: TaskData, title: Option<string>, detected: Option<string>,
                           summaryLanguage: Option<string>): (r: TaskData)
    ensures r.videoTitle == title && r.detectedLanguage == detected && r.summaryLanguage == summaryLanguage
    ensures r.(videoTitle := d.videoTitle, detectedLanguage := d.detectedLanguage,
               summaryLanguage := d.summaryLanguage) == d
  {
    d.(videoTitle := title, detectedLanguage := detected, summaryLanguage := summaryLanguage)
  }

  /**
   * Every mutator keeps the progress in [0, 100], and, the record starting in range,
   * no sequence of them leaves it.
   */
  lemma MutatorsKeepProgressInRange(d: TaskData, s: TaskStatus, p: int, m: string, e: string, om: Option<string>)
    requires ProgressInRange(d)
    ensures ProgressInRange(StatusUpdated(d, s, m))
    ensures ProgressInRange(ProgressUpdated(d, p, m))
    ensures ProgressInRange(Completed(d, m))
    ensures ProgressInRange(Failed(d, e, om))
  {
  }

  /** updateStatus to COMPLETED after a failure leaves a COMPLETED record that still carries an error. */
  lemma StatusUpdateCanBreakErrorIffFailed()
    ensures var d := StatusUpdated(Failed(Fresh, "boom", None), COMPLETED, "done");
            d.status == COMPLETED && d.error == Some("boom") && !ErrorIffFailed(d)
  {
  }

  class TaskInfo {
    // the id and the URL are written once, right after construction or by deserialisation
    const taskId: Option<string>
    const url: Option<string>
    var status: TaskStatus
    var progress: int
    var message: string
    var error: Option<string>
    var videoTitle: Option<string>
    var detectedLanguage: Option<string>
    var summaryLanguage: Option<string>
    var scriptPath: Option<string>
    var summaryPath: Option<string>
    var translationPath: Option<string>
    var rawScriptPath: Option<string>
    // runtime only, never persisted
    var taskFuture: FutureState
    var audioFilePath: Option<string>

    /** The durable view of the record: every field but the future and the audio file. */
    function Data(): TaskData
      reads this`status, this`progress, this`message, this`error, this`videoTitle, this`detectedLanguage,
            this`summaryLanguage, this`scriptPath, this`summaryPath, this`translationPath, this`rawScriptPath
    {
      TaskData(taskId, url, status, progress, message, error, videoTitle, detectedLanguage,
               summaryLanguage, scriptPath, summaryPath, translationPath, rawScriptPath)
    }

    /** The no-argument constructor with the field initialisers, then setTaskId and setUrl. */
    constructor (taskId: Option<string>, url: Option<string>)
      ensures Data() == Fresh.(taskId := taskId, url := url) && taskFuture == NoFuture && audioFilePath == None
    {
      this.taskId, this.url := taskId, url;
      status, progress, message, error := PROCESSING, 0, CREATED_MESSAGE, None;
      videoTitle, detectedLanguage, summaryLanguage := None, None, None;
      scriptPath, summaryPath, translationPath, rawScriptPath := None, None, None, None;
      taskFuture, audioFilePath := NoFuture, None;
    }

    /** Deserialisation: a record whose persisted fields are `d` and whose runtime fields are unset. */
    constructor FromData(d: TaskData)
      ensures Data() == d && taskFuture == NoFuture && audioFilePath == None
    {
      this.taskId, this.url := d.taskId, d.url;
      status, progress, message, error := d.status, d.progress, d.message, d.error;
      videoTitle, detectedLanguage, summaryLanguage := d.videoTitle, d.detectedLanguage, d.summaryLanguage;
      scriptPath, summaryPath, translationPath, rawScriptPath := d.scriptPath, d.summaryPath, d.translationPath, d.rawScriptPath;
      taskFuture, audioFilePath := NoFuture, None;
    }

    method UpdateStatus(newStatus: TaskStatus, newMessage: string)
      modifies this`status, this`message, this`error
      ensures Data() == StatusUpdated(old(Data()), newStatus, newMessage)
    {
      status := newStatus;
      message := newMessage;
      if newStatus == PROCESSING {
        error := None;
      }
    }

    method UpdateProgress(newProgress: int, newMessage: string)
      modifies this`status, this`progress, this`message, this`error
      ensures Data() == ProgressUpdated(old(Data()), newProgress, newMessage)
    {
      if newProgress >= progress {
        progress := Min(newProgress, 100);
      }
      message := newMessage;
      status := PROCESSING;
      error := None;
    }

    method Complete(newMessage: string)
      modifies this`status, this`progress, this`message, this`error
      ensures Data() == Completed(old(Data()), newMessage)
    {
      status := COMPLETED;
      progress := 100;
      message := newMessage;
      error := None;
    }

    method Fail(newError: string, newMessage: Option<string>)
      modifies this`status, this`message, this`error
      ensures Data() == Failed(old(Data()), newError, newMessage)
    {
      status := ERROR;
      message := if newMessage.Some? then newMessage.value else FAILED_MESSAGE;
      error := Some(newError);
    }

    method SetResultPaths(script: Option<string>, summary: Option<string>,
                          translation: Option<string>, rawScript: Option<string>)
      modifies this`scriptPath, this`summaryPath, this`translationPath, this`rawScriptPath
      ensures Data() == ResultPathsSet(old(Data()), script, summary, translation, rawScript)
    {
      scriptPath := script;
      summaryPath := summary;
      translationPath := translation;
      rawScriptPath := rawScript;
    }

    method SetVideoDetails(title: Option<string>, detected: Option<string>, language: Option<string>)
      modifies this`videoTitle, this`detectedLanguage, this`summaryLanguage
      ensures Data() == VideoDetailsSet(old(Data()), title, detected, language)
    {
      videoTitle := title;
      detectedLanguage := detected;
      summaryLanguage := language;
    }
  }
}
