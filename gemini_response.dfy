/**
 * The part of Gson's tree model that the two Gemini clients read, and the outcome of one
 * blocking `generateContent` call. Both services read the generated text along the same
 * path, candidates[0].content.parts[0].text; the model states that path once.
 */
module GeminiResponse {
  import opened JavaStrings

  /** The placeholder the services refuse as an API key. */
  const PLACEHOLDER_KEY := "YOUR_GOOGLE_AI_API_KEY_HERE"

  /**
   * Both services' constructors build a web client unless the key is blank or the shipped
   * placeholder; without a client every call is skipped.
   */
  predicate ClientAvailable(apiKey: Option<string>) {
    HasTextOpt(apiKey) && apiKey.value != PLACEHOLDER_KEY
  }

  /** A parsed JSON value. A number keeps the lexeme Gson read, which is what getAsString returns. */
  datatype Json =
    | JNull
    | JBool(b: bool)
    | JNum(lexeme: string)
    | JStr(s: string)
    | JArr(items: seq<Json>)
    | JObj(fields: map<string, Json>)

  /** The exception a Gson accessor throws. */
  datatype AccessError =
    | ClassCast           // a member of the wrong kind cast to JsonObject or JsonArray
    | IllegalState        // getAsJsonObject on a non-object, getAsString on an array not of size one
    | IndexOutOfBounds    // JsonArray.get past the end
    | NullPointer         // a call on an absent member
    | UnsupportedOperation // getAsString on null or on an object

  /** JsonElement.getAsJsonObject. */
  function AsObject(j: Json): (r: Result<map<string, Json>, AccessError>)
    ensures r.Success? <==> j.JObj?
    ensures r.Success? ==> r.value == j.fields
  {
    if j.JObj? then Success(j.fields) else Failure(IllegalState)
  }

  /**
   * JsonObject.getAsJsonObject(name) followed by a call on it: an absent member is null, so the
   * next call throws NullPointerException; a member of another kind fails the cast.
   */
  function MemberObject(obj: map<string, Json>, name: string): (r: Result<map<string, Json>, AccessError>)
    ensures r.Success? <==> name in obj && obj[name].JObj?
    ensures r.Success? ==> r.value == obj[name].fields
    ensures name !in obj ==> r == Failure(NullPointer)
  {
    if name !in obj then Failure(NullPointer)
    else if obj[name].JObj? then Success(obj[name].fields)
    else Failure(ClassCast)
  }

  /** JsonObject.getAsJsonArray(name) followed by a call on it. */
  function MemberArray(obj: map<string, Json>, name: string): (r: Result<seq<Json>, AccessError>)
    ensures r.Success? <==> name in obj && obj[name].JArr?
    ensures r.Success? ==> r.value == obj[name].items
    ensures name !in obj ==> r == Failure(NullPointer)
  {
    if name !in obj then Failure(NullPointer)
    else if obj[name].JArr? then Success(obj[name].items)
    else Failure(ClassCast)
  }

  /** JsonObject.get(name) followed by a call on it. */
  function Member(obj: map<string, Json>, name: string): (r: Result<Json, AccessError>)
    ensures r.Success? <==> name in obj
    ensures r.Success? ==> r.value == obj[name]
  {
    if name in obj then Success(obj[name]) else Failure(NullPointer)
  }

  /** JsonArray.get(i). */
  function Element(items: seq<Json>, i: nat): (r: Result<Json, AccessError>)
    ensures r.Success? <==> i < |items|
    ensures r.Success? ==> r.value == items[i]
  {
    if i < |items| then Success(items[i]) else Failure(IndexOutOfBounds)
  }

  /**
   * JsonElement.getAsString: the text of a string, the lexeme of a number, "true" or
   * "false"; an array holding exactly one element gives that element's string.
   */
  function AsString(j: Json): (r: Result<string, AccessError>)
    ensures j.JStr? ==> r == Success(j.s)
    ensures j.JNull? || j.JObj? ==> r == Failure(UnsupportedOperation)
    ensures j.JArr? && |j.items| != 1 ==> r == Failure(IllegalState)
  {
    match j
    case JStr(s) => Success(s)
    case JNum(lexeme) => Success(lexeme)
    case JBool(b) => Success(if b then "true" else "false")
    case JArr(items) => if |items| == 1 then AsString(items[0]) else Failure(IllegalState)
    case JNull => Failure(UnsupportedOperation)
    case JObj(_) => Failure(UnsupportedOperation)
  }

  /** The accessor chain candidates[0].content.parts[0].text, read as a string. */
  function CandidateText(response: map<string, Json>): (r: Result<string, AccessError>)
  {
    var candidates :- MemberArray(response, "candidates");
    var first :- Element(candidates, 0);
    var candidate :- AsObject(first);
    var content :- MemberObject(candidate, "content");
    var parts :- MemberArray(content, "parts");
    var firstPart :- Element(parts, 0);
    var part :- AsObject(firstPart);
    var text :- Member(part, "text");
    AsString(text)
  }

  /** The shape of a reply whose first candidate's first part is the text t. */
  function TextReply(t: string): map<string, Json> {
    map["candidates" := JArr([JObj(map["content" := JObj(map["parts" := JArr([JObj(map["text" := JStr(t)])])])])])]
  }

  /** Reading the text back out of the reply shape gives the text. */
  lemma CandidateTextOfTextReply(t: string)
    ensures CandidateText(TextReply(t)) == Success(t)
  {
  }

  /** A reply the chain can read holds a non-empty candidates array whose first element is an object. */
  lemma CandidateTextNeedsCandidates(response: map<string, Json>)
    requires CandidateText(response).Success?
    ensures "candidates" in response && response["candidates"].JArr?
    ensures |response["candidates"].items| > 0 && response["candidates"].items[0].JObj?
  {
  }

  /** The chain reads only the first candidate and its first part: what follows them does not matter. */
  lemma CandidateTextReadsFirstOnly(t: string, moreCandidates: seq<Json>, moreParts: seq<Json>,
                                    extra: map<string, Json>)
    requires "candidates" !in extra
    ensures var part := JObj(map["text" := JStr(t)]);
            var candidate := JObj(map["content" := JObj(map["parts" := JArr([part] + moreParts)])]);
            CandidateText(extra["candidates" := JArr([candidate] + moreCandidates)]) == Success(t)
  {
  }

  /** What `JsonParser.parseString(body).getAsJsonObject()` yields: the object, or the exception. */
  datatype Parse = Object(fields: map<string, Json>) | ParseFailed(message: Option<string>)

  /**
   * The outcome of one blocking call to the generation endpoint: the exception WebClient raised,
   * or the response body together with its parse. `accessMessage` is the message of the exception a
   * Gson accessor throws while the error member is read (its text comes from the library).
   */
  datatype Exchange =
    | NetworkError(message: Option<string>)
    | Reply(body: Option<string>, parsed: Parse, accessMessage: Option<string>)
}
