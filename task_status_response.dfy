/**
 * The status message pushed to subscribers and returned by the status API
 * (dto/TaskStatusResponse.java): a flat record of optional fields built from a task,
 * from a generic map, or as the heartbeat.
 */
module StatusResponse {
  import opened JavaStrings
  import opened TaskRecord

  datatype TaskStatusResponse = TaskStatusResponse(
    status: Option<string>,
    progress: int,
    message: Option<string>,
    script: Option<string>,
    summary: Option<string>,
    translation: Option<string>,
    error: Option<string>,
    url: Option<string>,
    videoTitle: Option<string>,
    scriptPath: Option<string>,
    summaryPath: Option<string>,
    translationPath: Option<string>,
    detectedLanguage: Option<string>,
    summaryLanguage: Option<string>,
    eventType: Option<string>)  // the field `type`, used only by the heartbeat

  /** No-argument constructor and builder defaults: every reference null, progress 0. */
  const Empty := TaskStatusResponse(None, 0, None, None, None, None, None, None, None,
                                    None, None, None, None, None, None)

  /** Enum.name() of a status. */
  function EnumName(s: TaskStatus): string {
    match s
    case PROCESSING => "PROCESSING"
    case COMPLETED => "COMPLETED"
    case ERROR => "ERROR"
  }

  /** The status as sent to clients: the enum name lower-cased. */
  function StatusName(s: TaskStatus): (r: string)
    ensures r == "processing" || r == "completed" || r == "error"
    ensures (r == "processing") == (s == PROCESSING) && (r == "completed") == (s == COMPLETED)
  {
    match s
    case PROCESSING => "processing"
    case COMPLETED => "completed"
    case ERROR => "error"
  }

  /** The names are what toLowerCase makes of the enum constants' names. */
  lemma StatusNameIsLowerCaseName(s: TaskStatus)
    ensures StatusName(s) == ToLower(EnumName(s))
  {
    var u := EnumName(s);
    var l := ToLower(u);
    assert |l| == |u|;
    match s
    case PROCESSING =>
      assert forall i | 0 <= i < |l| :: l[i] == "processing"[i];
    case COMPLETED =>
      assert forall i | 0 <= i < |l| :: l[i] == "completed"[i];
    case ERROR =>
      assert forall i | 0 <= i < |l| :: l[i] == "error"[i];
  }

  /**
   * TaskStatusResponse(TaskInfo): copies the task's fields; the three content fields and
   * the type stay null; a null task gives the all-default response.
   */
  function FromTaskInfo(task: Option<TaskData>): (r: TaskStatusResponse)
    ensures task.None? ==> r == Empty
    ensures task.Some? ==>
      var t := task.value;
      && r.status == Some(StatusName(t.status)) && r.progress == t.progress
      && r.message == Some(t.message) && r.error == t.error && r.url == t.url
      && r.videoTitle == t.videoTitle && r.scriptPath == t.scriptPath
      && r.summaryPath == t.summaryPath && r.translationPath == t.translationPath
      && r.detectedLanguage == t.detectedLanguage && r.summaryLanguage == t.summaryLanguage
    ensures r.script.None? && r.summary.None? && r.translation.None? && r.eventType.None?
  {
    match task
    case None => Empty
    case Some(t) =>
      Empty.(status := Some(StatusName(t.status)), progress := t.progress, message := Some(t.message),
             error := t.error, url := t.url, videoTitle := t.videoTitle, scriptPath := t.scriptPath,
             summaryPath := t.summaryPath, translationPath := t.translationPath,
             detectedLanguage := t.detectedLanguage, summaryLanguage := t.summaryLanguage)
  }

  /** The heartbeat payload: type "heartbeat", message "ping", progress 0, nothing else. */
  function Heartbeat(): (r: TaskStatusResponse)
    ensures r.eventType == Some("heartbeat") && r.message == Some("ping") && r.progress == 0
    ensures r.(eventType := None, message := None) == Empty
  {
    Empty.(eventType := Some("heartbeat"), message := Some("ping"))
  }

  /** A value held by the generic map that fromMap reads. */
  datatype MapValue = Null | Str(s: string) | Int(i: int) | Other

  /** The exceptions fromMap can raise: a failed cast, or unboxing a null progress. */
  datatype CastError = ClassCastException(key: string) | NullPointerException(key: string)

  /** `(String) map.getOrDefault(key, default)`; a key mapped to null yields null, not the default. */
  function StringEntry(m: map<string, MapValue>, key: string, default: Option<string>): (r: Result<Option<string>, CastError>)
    ensures key !in m ==> r == Success(default)
    ensures key in m && m[key].Null? ==> r == Success(None)
    ensures key in m && m[key].Str? ==> r == Success(Some(m[key].s))
    ensures r.Failure? <==> key in m && (m[key].Int? || m[key].Other?)
  {
    if key !in m then Success(default)
    else match m[key]
      case Null => Success(None)
      case Str(s) => Success(Some(s))
      case _ => Failure(ClassCastException(key))
  }

  /** `(Integer) map.getOrDefault("progress", 0)` unboxed into an int. */
  function ProgressEntry(m: map<string, MapValue>): (r: Result<int, CastError>)
    ensures "progress" !in m ==> r == Success(0)
    ensures "progress" in m && m["progress"].Int? ==> r == Success(m["progress"].i)
    ensures r.Failure? <==> "progress" in m && !m["progress"].Int?
  {
    if "progress" !in m then Success(0)
    else match m["progress"]
      case Int(i) => Success(i)
      case Null => Failure(NullPointerException("progress"))
      case _ => Failure(ClassCastException("progress"))
  }

  /** The key's value survives its cast: progress must be an Integer, every other key a String or null. */
  predicate Readable(m: map<string, MapValue>, key: string) {
    key !in m || (if key == "progress" then m[key].Int? else m[key].Str? || m[key].Null?)
  }

  /** Every key fromMap reads survives its cast. */
  predicate WellTyped(m: map<string, MapValue>) {
    && Readable(m, "status") && Readable(m, "progress") && Readable(m, "message")
    && Readable(m, "script") && Readable(m, "summary") && Readable(m, "translation")
    && Readable(m, "error") && Readable(m, "url") && Readable(m, "videoTitle")
    && Readable(m, "scriptPath") && Readable(m, "summaryPath") && Readable(m, "translationPath")
    && Readable(m, "detectedLanguage") && Readable(m, "summaryLanguage") && Readable(m, "type")
  }

  /**
   * fromMap: the builder reads the keys in field order; the first bad cast is the exception raised.
   * It fails exactly when a key it reads holds a value of the wrong type, and then names the first
   * such key; otherwise every field is the key's value, null for a key mapped to null, and the
   * default for an absent key.
   */
  function FromMap(m: map<string, MapValue>): (r: Result<TaskStatusResponse, CastError>)
    ensures r.Success? <==> WellTyped(m)
    ensures r.Failure? ==> r.error.key in m && !Readable(m, r.error.key)
    ensures !Readable(m, "status") ==> r == Failure(ClassCastException("status"))
    ensures Readable(m, "status") && !Readable(m, "progress") ==>
              r == Failure(if m["progress"].Null? then NullPointerException("progress") else ClassCastException("progress"))
    ensures r.Failure? ==> (r.error.NullPointerException? <==> r.error.key == "progress" && m["progress"].Null?)
    ensures r.Success? ==>
      && Success(r.value.status) == StringEntry(m, "status", Some("unknown"))
      && Success(r.value.progress) == ProgressEntry(m)
      && Success(r.value.message) == StringEntry(m, "message", Some(""))
    ensures r.Success? ==>
      && Success(r.value.script) == StringEntry(m, "script", None)
      && Success(r.value.summary) == StringEntry(m, "summary", None)
      && Success(r.value.translation) == StringEntry(m, "translation", None)
      && Success(r.value.error) == StringEntry(m, "error", None)
      && Success(r.value.url) == StringEntry(m, "url", None)
      && Success(r.value.videoTitle) == StringEntry(m, "videoTitle", None)
    ensures r.Success? ==>
      && Success(r.value.scriptPath) == StringEntry(m, "scriptPath", None)
      && Success(r.value.summaryPath) == StringEntry(m, "summaryPath", None)
      && Success(r.value.translationPath) == StringEntry(m, "translationPath", None)
      && Success(r.value.detectedLanguage) == StringEntry(m, "detectedLanguage", None)
      && Success(r.value.summaryLanguage) == StringEntry(m, "summaryLanguage", None)
      && Success(r.value.eventType) == StringEntry(m, "type", None)
  {
    var status :- StringEntry(m, "status", Some("unknown"));
    var progress :- ProgressEntry(m);
    var message :- StringEntry(m, "message", Some(""));
    var script :- StringEntry(m, "script", None);
    var summary :- StringEntry(m, "summary", None);
    var translation :- StringEntry(m, "translation", None);
    var error :- StringEntry(m, "error", None);
    var url :- StringEntry(m, "url", None);
    var videoTitle :- StringEntry(m, "videoTitle", None);
    var scriptPath :- StringEntry(m, "scriptPath", None);
    var summaryPath :- StringEntry(m, "summaryPath", None);
    var translationPath :- StringEntry(m, "translationPath", None);
    var detectedLanguage :- StringEntry(m, "detectedLanguage", None);
    var summaryLanguage :- StringEntry(m, "summaryLanguage", None);
    var eventType :- StringEntry(m, "type", None);
    Success(TaskStatusResponse(status, progress, message, script, summary, translation, error, url,
                               videoTitle, scriptPath, summaryPath, translationPath, detectedLanguage,
                               summaryLanguage, eventType))
  }
}
