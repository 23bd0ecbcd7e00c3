/**
 * Sending a chat turn (src/composables/useChatMessages.ts): the assembly of the
 * outgoing message list, and the `isConfigured`, `isLoading` and
 * `connectionError` flags the configuration check, the connection probe and
 * the send maintain.
 *
 * Each awaited `plugin.getSettings()` is an input (`SettingsRead`); the Ollama
 * replies come through `proxy` and `parse` as in the Ollama module.
 */
module UseChatMessages {
  import opened Wrappers
  import opened JsText
  import opened Messages
  import opened MessageFactory
  import opened Ollama

  const ConnectionErrorLead: string := "Ollama does not respond on "
  const ConnectionErrorTail: string := ". Please ensure Ollama is running and the URL is correct."

  /** `formatConnectionErrorMessage(url)`: the banner text, naming the URL verbatim. */
  function FormatConnectionErrorMessage(url: string): (r: string)
    ensures |r| == |ConnectionErrorLead| + |url| + |ConnectionErrorTail|
    ensures r[..|ConnectionErrorLead|] == ConnectionErrorLead
    ensures r[|ConnectionErrorLead|..|ConnectionErrorLead| + |url|] == url
    ensures r[|ConnectionErrorLead| + |url|..] == ConnectionErrorTail
  {
    var r := ConnectionErrorLead + url + ConnectionErrorTail;
    assert r[..|ConnectionErrorLead| + |url|] == ConnectionErrorLead + url;
    r
  }

  /** Different URLs give different banners, so the banner identifies the server that failed. */
  lemma FormatConnectionErrorMessageInjective(u: string, v: string)
    ensures FormatConnectionErrorMessage(u) == FormatConnectionErrorMessage(v) ==> u == v
  {
    var a, b := FormatConnectionErrorMessage(u), FormatConnectionErrorMessage(v);
    if a == b {
      assert |u| == |v|;
      assert u == a[|ConnectionErrorLead|..|ConnectionErrorLead| + |u|];
    }
  }

  /**
   * `messagesToSend[messagesToSend.length - 1] = buildUserMessage(contextualMessage)`
   * on a copy. On an empty array the assignment only sets the property "-1",
   * which is not an element, so the list stays empty.
   */
  function ReplaceLastTurn(messages: seq<Message>, contextualMessage: string): (r: seq<Message>)
    ensures |r| == |messages|
    ensures messages != [] ==> r[..|r| - 1] == messages[..|messages| - 1] && r[|r| - 1] == BuildUserMessage(contextualMessage)
  {
    if messages == [] then [] else messages[..|messages| - 1] + [BuildUserMessage(contextualMessage)]
  }

  /**
   * `prepareMessagesWithContext(messages, contextualMessage, userMessage, systemMessage)`.
   * When the builder embedded a document (the contextual message differs from
   * the question) the last turn becomes the contextual user turn, and the
   * supplied system message goes first unless a system message is already there.
   */
  function PrepareMessagesWithContext(messages: seq<Message>, contextualMessage: string, userMessage: string,
                                      systemMessage: Option<Message>): (r: seq<Message>)
    ensures contextualMessage == userMessage ==> r == messages
    ensures contextualMessage != userMessage ==>
      var replaced := ReplaceLastTurn(messages, contextualMessage);
      && (systemMessage.Some? && !HasSystemMessage(replaced) ==> r == [systemMessage.value] + replaced)
      && (systemMessage.None? || HasSystemMessage(replaced) ==> r == replaced)
  {
    if contextualMessage == userMessage then messages
    else
      var replaced := ReplaceLastTurn(messages, contextualMessage);
      if !HasSystemMessage(replaced) && systemMessage.Some? then [systemMessage.value] + replaced else replaced
  }

  /**
   * The prepared list never holds more system messages than max(input count, 1),
   * grows by at most one turn, and keeps every original turn but the last in order.
   */
  lemma {:induction false} NoDuplicateSystemMessage(messages: seq<Message>, contextualMessage: string, userMessage: string,
                                                    systemMessage: Option<Message>)
    ensures var r := PrepareMessagesWithContext(messages, contextualMessage, userMessage, systemMessage);
      && SystemCount(r) <= (if SystemCount(messages) > 1 then SystemCount(messages) else 1)
      && |messages| <= |r| <= |messages| + 1
      && (messages != [] ==> r[|r| - |messages|..|r| - 1] == messages[..|messages| - 1])
  {
    var r := PrepareMessagesWithContext(messages, contextualMessage, userMessage, systemMessage);
    if contextualMessage != userMessage {
      var replaced := ReplaceLastTurn(messages, contextualMessage);
      if messages != [] {
        var init := messages[..|messages| - 1];
        assert replaced == init + [BuildUserMessage(contextualMessage)];
        SystemCountAppend(init, [BuildUserMessage(contextualMessage)]);
        assert SystemCount([BuildUserMessage(contextualMessage)]) == 0 by {
          assert [BuildUserMessage(contextualMessage)][..0] == [];
        }
        assert SystemCount(replaced) <= SystemCount(messages);
      }
      if r != replaced {
        assert r == [systemMessage.value] + replaced;
        SystemCountPositiveIff(replaced);
        SystemCountAppend([systemMessage.value], replaced);
        assert SystemCount([systemMessage.value]) <= 1 by {
          assert [systemMessage.value][..0] == [];
        }
        assert r[|r| - |messages|..] == replaced;
      }
    }
  }

  /** A supplied system message is in the prepared list whenever a document was embedded. */
  lemma SystemMessageDelivered(messages: seq<Message>, contextualMessage: string, userMessage: string, systemMessage: Message)
    requires contextualMessage != userMessage && systemMessage.role == System
    ensures HasSystemMessage(PrepareMessagesWithContext(messages, contextualMessage, userMessage, Some(systemMessage)))
  {
    var r := PrepareMessagesWithContext(messages, contextualMessage, userMessage, Some(systemMessage));
    if r == ReplaceLastTurn(messages, contextualMessage) {
      assert HasSystemMessage(r);
    } else {
      assert r[0] == systemMessage;
    }
  }

  /** `RAGAssistantSettings`. */
  datatype Settings = Settings(ollamaUrl: string, selectedModel: string, temperature: real, contextFree: bool,
                               includeSubDocuments: bool)

  /** What one awaited `plugin.getSettings()` gave: it threw, or these settings. */
  datatype SettingsRead = SettingsFailed | Loaded(settings: Settings)

  /** `!!(settings.ollamaUrl && settings.selectedModel)`, false when the read threw. */
  predicate ConfiguredBy(read: SettingsRead)
    ensures read.SettingsFailed? ==> !ConfiguredBy(read)
    ensures read.Loaded? && (read.settings.ollamaUrl == "" || read.settings.selectedModel == "") ==> !ConfiguredBy(read)
    ensures ConfiguredBy(read) ==> |read.settings.ollamaUrl| > 0 && |read.settings.selectedModel| > 0
  {
    read.Loaded? && read.settings.ollamaUrl != "" && read.settings.selectedModel != ""
  }

  /** Why `sendMessage` rejected. */
  datatype SendError =
    | SettingsError               // `getSettings()` threw
    | NotConfigured               // "Ollama URL or model not configured"
    | ChatError(cause: OllamaError)   // `sendChatMessage` threw

  /**
   * The banner `checkConnection` leaves: none for a failed settings read or a
   * blank URL (no probe is made), the formatted message when the model listing
   * fails to connect, and none otherwise.
   */
  function ConnectionVerdict(read: SettingsRead, proxy: ProxyRequest -> ProxyReply, parse: string -> Option<Json>)
    : (r: Option<string>)
    ensures read.SettingsFailed? || BlankUrl(read.settings.ollamaUrl) ==> r == None
    ensures r.Some? <==>
      read.Loaded? && !BlankUrl(read.settings.ollamaUrl) && FetchOllamaModels(read.settings.ollamaUrl, proxy, parse).Failure?
    ensures r.Some? ==> r.value == FormatConnectionErrorMessage(read.settings.ollamaUrl)
  {
    if read.SettingsFailed? || BlankUrl(read.settings.ollamaUrl) then None
    else
      match FetchOllamaModels(read.settings.ollamaUrl, proxy, parse)
      case Success(_) => None
      case Failure(e) => if e.OllamaConnectionError? then Some(FormatConnectionErrorMessage(e.url)) else None
  }

  class ChatSession {
    var isConfigured: bool
    var isLoading: bool
    var connectionError: Option<string>

    constructor ()
      ensures !isConfigured && !isLoading && connectionError == None
    {
      isConfigured := false;
      isLoading := false;
      connectionError := None;
    }

    /** `checkConfiguration()`. */
    method CheckConfiguration(read: SettingsRead)
      modifies this
      ensures isConfigured == ConfiguredBy(read)
      ensures isLoading == old(isLoading) && connectionError == old(connectionError)
    {
      match read
      case SettingsFailed =>
        isConfigured := false;
      case Loaded(settings) =>
        isConfigured := settings.ollamaUrl != "" && settings.selectedModel != "";
    }

    /** `checkConnection()`: probe the server by listing its models. */
    method CheckConnection(read: SettingsRead, proxy: ProxyRequest -> ProxyReply, parse: string -> Option<Json>)
      modifies this
      ensures connectionError == ConnectionVerdict(read, proxy, parse)
      ensures isConfigured == old(isConfigured) && isLoading == old(isLoading)
    {
      var banner: Option<string> := None;
      if read.Loaded? && !BlankUrl(read.settings.ollamaUrl) {
        var listing := FetchOllamaModels(read.settings.ollamaUrl, proxy, parse);
        if listing.Failure? && listing.error.OllamaConnectionError? {
          banner := Some(FormatConnectionErrorMessage(listing.error.url));
        }
      }
      connectionError := banner;
    }

    /**
     * `sendMessage(userMessage, contextualMessage, systemMessage, messages)`.
     * `read` is the settings read at the start and `reread` the one the
     * configuration check in the catch block makes.
     */
    method SendMessage(userMessage: string, contextualMessage: string, systemMessage: Option<Message>,
                       messages: seq<Message>, read: SettingsRead, reread: SettingsRead,
                       proxy: ProxyRequest -> ProxyReply, parse: string -> Option<Json>)
      returns (outcome: Result<string, SendError>)
      modifies this
      ensures !isLoading
      ensures read.SettingsFailed? ==> outcome == Failure(SettingsError)
      ensures read.Loaded? && !ConfiguredBy(read) ==> outcome == Failure(NotConfigured)
      ensures ConfiguredBy(read) ==>
        var reply := SendChatMessage(read.settings.ollamaUrl, read.settings.selectedModel,
                                     PrepareMessagesWithContext(messages, contextualMessage, userMessage, systemMessage),
                                     proxy, parse, read.settings.temperature);
        outcome == (if reply.Success? then Success(reply.value) else Failure(ChatError(reply.error)))
      ensures outcome.Success? ==> isConfigured && connectionError == None && outcome.value != ""
      ensures outcome.Failure? ==> isConfigured == ConfiguredBy(reread)
      ensures outcome.Failure? && outcome.error.ChatError? && outcome.error.cause.OllamaConnectionError? ==>
        connectionError == Some(FormatConnectionErrorMessage(read.settings.ollamaUrl))
      ensures outcome.Failure? && !(outcome.error.ChatError? && outcome.error.cause.OllamaConnectionError?) ==>
        connectionError == old(connectionError)
    {
      isLoading := true;
      if read.SettingsFailed? {
        outcome := Failure(SettingsError);
      } else if read.settings.ollamaUrl == "" || read.settings.selectedModel == "" {
        isConfigured := false;
        outcome := Failure(NotConfigured);
      } else {
        isConfigured := true;
        var messagesToSend := PrepareMessagesWithContext(messages, contextualMessage, userMessage, systemMessage);
        var reply := SendChatMessage(read.settings.ollamaUrl, read.settings.selectedModel, messagesToSend,
                                     proxy, parse, read.settings.temperature);
        assert reply.Failure? && reply.error.OllamaConnectionError? ==> reply.error.url == read.settings.ollamaUrl;
        if reply.Success? {
          connectionError := None;
          outcome := Success(reply.value);
        } else {
          outcome := Failure(ChatError(reply.error));
        }
      }
      if outcome.Failure? {
        if outcome.error.ChatError? && outcome.error.cause.OllamaConnectionError? {
          connectionError := Some(FormatConnectionErrorMessage(outcome.error.cause.url));
        }
        CheckConfiguration(reread);
      }
      isLoading := false;
    }

    /** `clearConnectionError()`. */
    method ClearConnectionError()
      modifies this
      ensures connectionError == None
      ensures isConfigured == old(isConfigured) && isLoading == old(isLoading)
    {
      connectionError := None;
    }
  }
}
