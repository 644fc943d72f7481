/**
 * SummarizationService: transcript optimisation and summarisation through one Gemini call.
 * The HTTP exchange is an input (an `Exchange`); the prompt wording is not modelled.
 * The service's web client exists exactly when the API key is usable.
 */
module Summarization {
  import opened JavaStrings
  import opened GeminiResponse
  import Translation

  const API_FAILURE := "API 调用失败: "
  const EMPTY_RESPONSE := "响应为空"
  const UNKNOWN_API_ERROR := "Unknown API error"
  const BLOCKED := "内容可能被安全策略阻止。"
  const NO_CONTENT := "未返回有效内容。"
  const UNREADABLE := "解析响应结构失败。"
  const SUMMARY_UNAVAILABLE := "摘要功能暂不可用"
  const NOTHING_TO_SUMMARIZE := "无内容可摘要"

  /** The error member's message, or "Unknown API error" when the error object has none. */
  function ErrorMessage(response: map<string, Json>): (r: Result<string, AccessError>)
    requires "error" in response
    ensures response["error"].JObj? && "message" !in response["error"].fields ==> r == Success(UNKNOWN_API_ERROR)
    ensures !response["error"].JObj? ==> r.Failure?
  {
    var error :- MemberObject(response, "error");
    if "message" in error then AsString(error["message"]) else Success(UNKNOWN_API_ERROR)
  }

  /** The candidates guard: a candidates member that is a non-empty array. */
  predicate HasCandidates(response: map<string, Json>) {
    "candidates" in response && response["candidates"].JArr? && |response["candidates"].items| > 0
  }

  /**
   * callGeminiApi once a client exists: every exception and every unusable reply becomes a
   * string starting with "API 调用失败: "; only a readable reply gives the generated text.
   */
  function Outcome(ex: Exchange): string {
    match ex
    case NetworkError(m) => API_FAILURE + Render(m)
    case Reply(body, parsed, accessMessage) =>
      if !HasTextOpt(body) then API_FAILURE + EMPTY_RESPONSE
      else match parsed
        case ParseFailed(m) => API_FAILURE + Render(m)
        case Object(response) =>
          if "error" in response then
            (match ErrorMessage(response)
             case Success(m) => API_FAILURE + m
             case Failure(_) => API_FAILURE + Render(accessMessage))
          else if !HasCandidates(response) then
            API_FAILURE + (if "promptFeedback" in response then BLOCKED else NO_CONTENT)
          else
            (match CandidateText(response)
             case Success(t) => t
             case Failure(_) => API_FAILURE + UNREADABLE)
  }

  /** callGeminiApi: null exactly when the service has no client. */
  function CallGeminiApi(available: bool, ex: Exchange): (r: Option<string>)
    ensures r.None? <==> !available
  {
    if available then Some(Outcome(ex)) else None
  }

  /**
   * A service built with a null, blank or placeholder key never calls Gemini: callGeminiApi
   * answers null; any other key gives a client, and every call an answer.
   */
  lemma UnconfiguredKeyDisablesCalls(apiKey: Option<string>, ex: Exchange)
    ensures CallGeminiApi(ClientAvailable(apiKey), ex).None? <==> !HasTextOpt(apiKey) || apiKey.value == PLACEHOLDER_KEY
    ensures CallGeminiApi(ClientAvailable(Some(PLACEHOLDER_KEY)), ex).None?
    ensures CallGeminiApi(ClientAvailable(Some("  ")), ex).None?
  {
    assert !HasText("  ") by {
      assert forall i | 0 <= i < |"  "| :: IsWhitespace("  "[i]);
    }
  }

  /** A reply the service accepts: non-blank, an object, no error member, and the text path readable. */
  predicate Answered(ex: Exchange) {
    && ex.Reply?
    && HasTextOpt(ex.body)
    && ex.parsed.Object?
    && "error" !in ex.parsed.fields
    && CandidateText(ex.parsed.fields).Success?
  }

  /**
   * The call never throws: an accepted reply yields exactly the text at
   * candidates[0].content.parts[0].text, and every other outcome is a failure string.
   */
  lemma OutcomeIsTextOrFailure(ex: Exchange)
    ensures Answered(ex) ==> Outcome(ex) == CandidateText(ex.parsed.fields).value
    ensures !Answered(ex) ==> StartsWith(Outcome(ex), API_FAILURE)
  {
    if Answered(ex) {
      CandidateTextNeedsCandidates(ex.parsed.fields);
    } else {
      var r := Outcome(ex);
      var tail :| r == API_FAILURE + tail;
      assert r[..|API_FAILURE|] == API_FAILURE;
    }
  }

  /** The reply forms named by the source, each with the message it produces. */
  lemma OutcomeMessages(body: string, lm: Option<string>)
    requires HasText(body)
    ensures Outcome(Reply(Some(body), Object(map["error" := JObj(map["message" := JStr("quota")])]), lm))
            == API_FAILURE + "quota"
    ensures Outcome(Reply(Some(body), Object(map["error" := JObj(map[])]), lm)) == API_FAILURE + UNKNOWN_API_ERROR
    ensures Outcome(Reply(Some(body), Object(map["error" := JStr("x")]), lm)) == API_FAILURE + Render(lm)
    ensures Outcome(Reply(Some(body), Object(map["promptFeedback" := JObj(map[])]), lm)) == API_FAILURE + BLOCKED
    ensures Outcome(Reply(Some(body), Object(map["candidates" := JArr([])]), lm)) == API_FAILURE + NO_CONTENT
    ensures Outcome(Reply(Some(body), Object(map["candidates" := JArr([JNull])]), lm)) == API_FAILURE + UNREADABLE
    ensures Outcome(Reply(Some(body), Object(TextReply("summary")), lm)) == "summary"
    ensures Outcome(Reply(None, Object(TextReply("summary")), lm)) == API_FAILURE + EMPTY_RESPONSE
  {
    CandidateTextOfTextReply("summary");
  }

  /**
   * optimizeTranscript: without a client, or for a blank transcript, the transcript comes back
   * unchanged; otherwise the outcome of the call.
   */
  function OptimizeTranscript(available: bool, rawScript: string, ex: Exchange): (r: string)
    ensures !available || !HasText(rawScript) ==> r == rawScript
    ensures available && HasText(rawScript) && Answered(ex) ==> r == CandidateText(ex.parsed.fields).value
    ensures available && HasText(rawScript) && !Answered(ex) ==> StartsWith(r, API_FAILURE)
  {
    OutcomeIsTextOrFailure(ex);
    if !available || !HasText(rawScript) then rawScript else CallGeminiApi(available, ex).value
  }

  /** getLanguageName: the display names of seven codes; any other code is its own name. */
  function LanguageName(code: string): (r: string)
  {
    match code
    case "zh" => "中文（简体）"
    case "en" => "English"
    case "es" => "Español"
    case "fr" => "Français"
    case "de" => "Deutsch"
    case "ja" => "日本語"
    case "ko" => "한국어"
    case _ => code
  }

  const SUMMARY_CODES: set<string> := {"zh", "en", "es", "fr", "de", "ja", "ko"}

  /**
   * The summary names agree with the translation prompt's names on the seven shared codes;
   * the translation table also names Italian, Portuguese, Russian and Arabic, which the summary
   * falls back to the bare code for.
   */
  lemma LanguageNamesAgree(code: string)
    ensures code in SUMMARY_CODES ==> LanguageName(code) == Translation.PromptLanguageName(code)
    ensures code !in SUMMARY_CODES ==> LanguageName(code) == code
    ensures code in {"it", "pt", "ru", "ar"} ==> LanguageName(code) != Translation.PromptLanguageName(code)
  {
  }

  /**
   * summarize: fixed replies without a client or for blank text, otherwise the outcome of the call
   * (the prompt names the language and the title, which only the prompt wording depends on).
   */
  function Summarize(available: bool, text: string, targetLanguage: string, videoTitle: string,
                     ex: Exchange): (r: string)
    ensures !available ==> r == SUMMARY_UNAVAILABLE
    ensures available && !HasText(text) ==> r == NOTHING_TO_SUMMARIZE
    ensures available && HasText(text) && Answered(ex) ==> r == CandidateText(ex.parsed.fields).value
    ensures available && HasText(text) && !Answered(ex) ==> StartsWith(r, API_FAILURE)
  {
    OutcomeIsTextOrFailure(ex);
    if !available then SUMMARY_UNAVAILABLE
    else if !HasText(text) then NOTHING_TO_SUMMARIZE
    else CallGeminiApi(available, ex).value
  }
}
