/**
 * The Ollama client (src/services/ollama.ts): listing the installed models and
 * sending one non-streaming chat request, both through the host's forward
 * proxy, with the proxy's replies sorted into results and errors.
 *
 * The proxy and `JSON.parse` are inputs: `proxy` gives the reply to a request
 * and `parse` the value a body parses to (None when `JSON.parse` throws).
 */
module Ollama {
  import opened Wrappers
  import opened JsText
  import opened Messages

  /** An entry of the `/api/tags` listing. */
  datatype OllamaModel = OllamaModel(name: string, size: Option<int>, modifiedAt: Option<string>)

  /**
   * A parsed body, reduced to what the client inspects. `JObject`'s fields are
   * None when absent (`models` also when it is not an array, `messageContent`
   * also when `message` is missing or has no `content`); `JOther` is any
   * non-null value that is not an object (number, string, boolean).
   */
  datatype Json =
    | JNull
    | JObject(code: Option<int>, msg: Option<string>, models: Option<seq<OllamaModel>>, messageContent: Option<string>)
    | JOther

  /**
   * What the awaited `forwardProxy(...)` gave: the call rejected, it resolved to
   * nothing, or to a status and a body that may be missing.
   */
  datatype ProxyReply = Rejected | NoResponse | Response(status: int, body: Option<string>)

  datatype HttpMethod = Get | Post

  /** The `OllamaChatRequest` payload. */
  datatype ChatPayload = ChatPayload(model: string, messages: seq<Message>, temperature: real, stream: bool)

  /** The arguments of one `forwardProxy(url, method, payload, headers, timeout, contentType)` call (`verb` is the method); headers are always `[]`. */
  datatype ProxyRequest = ProxyRequest(
    url: string,
    verb: HttpMethod,
    payload: Option<ChatPayload>,   // None: the empty object `{}`
    timeout: nat,
    contentType: Option<string>)

  /** Why a request counted as a failed connection; each carries its own message. */
  datatype ConnectionCause =
    | NoReply               // "Connection refused: No response from Ollama server"
    | FailedStatus(status: int)  // "Connection failed with status <status> <parse error>"
    | Refused(message: string)   // the proxy's `msg`, or "Connection refused"

  datatype OllamaError =
    | OllamaConnectionError(cause: ConnectionCause, url: string)
    | UrlRequired           // "Ollama URL is required"
    | ModelRequired         // "Model is required"
    | InvalidJson           // "Invalid JSON response"
    | InvalidFormat         // "Invalid response format"
    | NullBody              // the TypeError of reading a field of a body that parsed to null
    | ProxyFailed           // the error a rejected `forwardProxy` call threw

  const DefaultTemperature: real := 0.1
  const ModelsTimeout: nat := 5000
  const ChatTimeout: nat := 60000

  /** `!baseUrl || baseUrl.trim() === ""`: the URL is empty or all white space. */
  predicate BlankUrl(baseUrl: string)
    ensures BlankUrl(baseUrl) <==> IsBlank(baseUrl)
  {
    TrimEmptyIffBlank(baseUrl);
    Trim(baseUrl) == ""
  }

  /** The request `fetchOllamaModels` sends. */
  function ModelsRequest(baseUrl: string): (q: ProxyRequest)
    ensures |q.url| == |baseUrl| + 9 && q.url[..|baseUrl|] == baseUrl && q.url[|baseUrl|..] == "/api/tags"
    ensures q.verb == Get && q.payload == None && q.timeout == ModelsTimeout
  {
    ProxyRequest(baseUrl + "/api/tags", Get, None, ModelsTimeout, None)
  }

  /** The request `sendChatMessage` sends: the whole history, never streamed. */
  function ChatRequest(baseUrl: string, model: string, messages: seq<Message>, temperature: real): (q: ProxyRequest)
    ensures |q.url| == |baseUrl| + 9 && q.url[..|baseUrl|] == baseUrl && q.url[|baseUrl|..] == "/api/chat"
    ensures q.verb == Post && q.timeout == ChatTimeout && q.contentType == Some("application/json")
    ensures q.payload == Some(ChatPayload(model, messages, temperature, false))
  {
    ProxyRequest(baseUrl + "/api/chat", Post, Some(ChatPayload(model, messages, temperature, false)), ChatTimeout,
                 Some("application/json"))
  }

  /** The proxy's own error envelope, `{code: -1, msg, data: null}`: only an object can be one. */
  predicate IsProxyError(j: Json)
    ensures j.JNull? || j.JOther? ==> !IsProxyError(j)
    ensures IsProxyError(j) ==> j.code == Some(-1)
  {
    j.JObject? && j.code == Some(-1)
  }

  /**
   * The reply handling both operations share: a rejected call, a missing reply
   * or body, a body that does not parse, and the proxy's error envelope, in that
   * order; any other parsed body is handed on.
   */
  function ReadReply(baseUrl: string, reply: ProxyReply, parse: string -> Option<Json>): (r: Result<Json, OllamaError>)
    ensures reply.Rejected? <==> r == Failure(ProxyFailed)
    ensures (reply.NoResponse? || (reply.Response? && !Truthy(reply.body)))
            ==> r == Failure(OllamaConnectionError(NoReply, baseUrl))
    ensures r.Success? ==> reply.Response? && Truthy(reply.body) && parse(reply.body.value) == Some(r.value)
                           && !IsProxyError(r.value)
    ensures r.Failure? ==> r.error == InvalidJson || r.error == ProxyFailed
                           || (r.error.OllamaConnectionError? && r.error.url == baseUrl)
    ensures r == Failure(InvalidJson) <==>
              reply.Response? && Truthy(reply.body) && parse(reply.body.value).None? && reply.status < 400
    ensures (reply.Response? && Truthy(reply.body) && parse(reply.body.value).None? && reply.status >= 400)
              ==> r == Failure(OllamaConnectionError(FailedStatus(reply.status), baseUrl))
    ensures reply.Response? && Truthy(reply.body) && parse(reply.body.value).Some? ==>
      var parsed := parse(reply.body.value).value;
      && (IsProxyError(parsed) ==> r == Failure(OllamaConnectionError(Refused(Or(parsed.msg, "Connection refused")), baseUrl)))
      && (!IsProxyError(parsed) ==> r == Success(parsed))
  {
    if reply.Rejected? then Failure(ProxyFailed)
    else if reply.NoResponse? || !Truthy(reply.body) then
      Failure(OllamaConnectionError(NoReply, baseUrl))
    else
      match parse(reply.body.value)
      case None =>
        if reply.status != 0 && reply.status >= 400 then Failure(OllamaConnectionError(FailedStatus(reply.status), baseUrl))
        else Failure(InvalidJson)
      case Some(parsed) =>
        if IsProxyError(parsed) then Failure(OllamaConnectionError(Refused(Or(parsed.msg, "Connection refused")), baseUrl))
        else Success(parsed)
  }

  /**
   * `fetchOllamaModels(baseUrl)`. A blank URL gives no models without a
   * request; a reply whose body has a `models` array gives that array; every
   * failure other than a connection failure (a rejected proxy call included) is
   * swallowed into an empty list, so the only error that escapes is a
   * connection error.
   */
  function FetchOllamaModels(baseUrl: string, proxy: ProxyRequest -> ProxyReply, parse: string -> Option<Json>)
    : (r: Result<seq<OllamaModel>, OllamaError>)
    ensures BlankUrl(baseUrl) ==> r == Success([])
    ensures r.Failure? ==> r.error.OllamaConnectionError? && r.error.url == baseUrl
    ensures !BlankUrl(baseUrl) ==>
      var read := ReadReply(baseUrl, proxy(ModelsRequest(baseUrl)), parse);
      && (read.Failure? && read.error.OllamaConnectionError? <==> r.Failure?)
      && (r.Failure? ==> r == Failure(read.error))
    ensures !BlankUrl(baseUrl) ==>
      var read := ReadReply(baseUrl, proxy(ModelsRequest(baseUrl)), parse);
      var listed := read.Success? && read.value.JObject? && read.value.models.Some?;
      && (listed ==> r == Success(read.value.models.value))
      && (!listed && !(read.Failure? && read.error.OllamaConnectionError?) ==> r == Success([]))
    ensures r.Success? && r.value != [] ==>
      var read := ReadReply(baseUrl, proxy(ModelsRequest(baseUrl)), parse);
      read.Success? && read.value.JObject? && read.value.models == Some(r.value)
  {
    if BlankUrl(baseUrl) then Success([])
    else
      match ReadReply(baseUrl, proxy(ModelsRequest(baseUrl)), parse)
      case Failure(e) => if e.OllamaConnectionError? then Failure(e) else Success([])
      case Success(data) =>
        match data
        case JNull => Success([])                  // TypeError reading `models` of null, swallowed
        case JOther => Success([])                 // "Invalid response format", swallowed
        case JObject(_, _, models, _) => if models.None? then Success([]) else Success(models.value)
  }

  /**
   * `sendChatMessage(baseUrl, model, messages, temperature = 0.1)`: the
   * assistant's reply text, which is never empty, or the error it throws. Every
   * error of the request is re-thrown as it is, a rejected proxy call included.
   */
  function SendChatMessage(baseUrl: string, model: string, messages: seq<Message>, proxy: ProxyRequest -> ProxyReply,
                           parse: string -> Option<Json>, temperature: real := DefaultTemperature)
    : (r: Result<string, OllamaError>)
    ensures BlankUrl(baseUrl) <==> r == Failure(UrlRequired)
    ensures !BlankUrl(baseUrl) && model == "" <==> r == Failure(ModelRequired)
    ensures r.Success? ==>
      var read := ReadReply(baseUrl, proxy(ChatRequest(baseUrl, model, messages, temperature)), parse);
      && r.value != ""
      && read.Success? && read.value.JObject? && read.value.messageContent == Some(r.value)
    ensures r.Failure? && r.error.OllamaConnectionError? ==> r.error.url == baseUrl
    ensures r.Failure? && r.error.OllamaConnectionError? ==>
      !BlankUrl(baseUrl) && model != ""
      && ReadReply(baseUrl, proxy(ChatRequest(baseUrl, model, messages, temperature)), parse) == Failure(r.error)
    ensures !BlankUrl(baseUrl) && model != "" ==>
      var read := ReadReply(baseUrl, proxy(ChatRequest(baseUrl, model, messages, temperature)), parse);
      && (read.Failure? ==> r == Failure(read.error))
      && (read.Success? && read.value.JNull? ==> r == Failure(NullBody))
      && ((read.Success? && read.value.JObject? && Truthy(read.value.messageContent))
            ==> r == Success(read.value.messageContent.value))
      && ((read.Success? && !read.value.JNull? && !(read.value.JObject? && Truthy(read.value.messageContent)))
            ==> r == Failure(InvalidFormat))
  {
    if BlankUrl(baseUrl) then Failure(UrlRequired)
    else if model == "" then Failure(ModelRequired)
    else
      match ReadReply(baseUrl, proxy(ChatRequest(baseUrl, model, messages, temperature)), parse)
      case Failure(e) => Failure(e)
      case Success(data) =>
        match data
        case JNull => Failure(NullBody)
        case JOther => Failure(InvalidFormat)
        case JObject(_, _, _, content) => if Truthy(content) then Success(content.value) else Failure(InvalidFormat)
  }

  /**
   * The two operations read a failed connection the same way: if the proxy
   * answers both requests alike, the model listing throws exactly the
   * connection error the chat request throws.
   */
  lemma SameConnectionErrors(baseUrl: string, model: string, messages: seq<Message>, temperature: real,
                             proxy: ProxyRequest -> ProxyReply, parse: string -> Option<Json>)
    requires !BlankUrl(baseUrl) && model != ""
    requires proxy(ModelsRequest(baseUrl)) == proxy(ChatRequest(baseUrl, model, messages, temperature))
    ensures var listing := FetchOllamaModels(baseUrl, proxy, parse);
      var chat := SendChatMessage(baseUrl, model, messages, proxy, parse, temperature);
      listing.Failure? <==> chat.Failure? && chat.error.OllamaConnectionError?
    ensures var listing := FetchOllamaModels(baseUrl, proxy, parse);
      listing.Failure? ==> listing.error == SendChatMessage(baseUrl, model, messages, proxy, parse, temperature).error
  {
  }
}
