/**
 * The chat client wrapper: message roles, the wire form of a message (plain
 * text, or a text part followed by an inline JPEG image given as a data URL
 * in the sense of RFC 2397, section 3), the system-prompt-first request, and
 * the token counters of one client.
 */
module Llm {
  import opened Common
  import Paths

  datatype Role = System | User | Assistant {
    /** The role's wire value. */
    function Value(): string {
      match this
      case System => "system"
      case User => "user"
      case Assistant => "assistant"
    }
  }

  /** The role with a given wire value, if any. */
  function RoleFromValue(s: string): (r: Option<Role>)
    ensures r.Some? ==> r.value.Value() == s
  {
    if s == "system" then Some(System)
    else if s == "user" then Some(User)
    else if s == "assistant" then Some(Assistant)
    else None
  }

  /** The three roles have distinct wire values. */
  lemma RoleValueRoundTrip(r: Role)
    ensures RoleFromValue(r.Value()) == Some(r)
  {
  }

  /** A message before formatting: an image, when present, is base64 text. */
  datatype Message = Message(role: Role, content: string, image: Option<string>)

  datatype ContentPart = TextPart(text: string) | ImageUrlPart(url: string)

  datatype Content = Text(text: string) | Parts(parts: seq<ContentPart>)

  /** A message as the chat API receives it. */
  datatype ChatMessage = ChatMessage(role: string, content: Content)

  const ImageUrlPrefix := "data:image/jpeg;base64,"

  /** `Message.format_message`. */
  function FormatMessage(m: Message): ChatMessage {
    match m.image
    case None => ChatMessage(m.role.Value(), Text(m.content))
    case Some(image) =>
      ChatMessage(m.role.Value(), Parts([TextPart(m.content), ImageUrlPart(ImageUrlPrefix + image)]))
  }

  /** The parts of a "data:" URL: `data:[<mediatype>][;base64],<data>`. */
  datatype DataUrl = DataUrl(mediaType: string, base64: bool, data: string)

  const DataUrlPrefix := "data:"
  const Base64Marker := ";base64"

  /** The media type a data URL means when it names none. */
  const DefaultMediaType := "text/plain;charset=US-ASCII"

  /** Splits a data URL at its first comma into header and data, as RFC 2397 section 3 lays it out. */
  function ParseDataUrl(url: string): Option<DataUrl> {
    if |url| < |DataUrlPrefix| || url[..|DataUrlPrefix|] != DataUrlPrefix then None
    else
      var rest := url[|DataUrlPrefix|..];
      var comma := Paths.Find(rest, ',');
      if comma < 0 then None
      else
        var header := rest[..comma];
        var isBase64 := |header| >= |Base64Marker| && header[|header| - |Base64Marker|..] == Base64Marker;
        var mediaType := if isBase64 then header[..|header| - |Base64Marker|] else header;
        Some(DataUrl(if mediaType == "" then DefaultMediaType else mediaType, isBase64, rest[comma + 1..]))
  }

  /** The image URL of a formatted message is a base64 JPEG data URL whose data is the image text itself. */
  lemma ImageUrlIsJpegDataUrl(image: string)
    ensures ParseDataUrl(ImageUrlPrefix + image) == Some(DataUrl("image/jpeg", true, image))
  {
    assert ImageUrlPrefix + image == DataUrlPrefix + ("image/jpeg" + Base64Marker) + [','] + image;
    Base64DataUrlParses("image/jpeg", image);
  }

  /** A base64 data URL with a media type free of commas parses back into that type and its data. */
  lemma Base64DataUrlParses(mediaType: string, data: string)
    requires mediaType != "" && ',' !in mediaType
    ensures ParseDataUrl(DataUrlPrefix + (mediaType + Base64Marker) + [','] + data) == Some(DataUrl(mediaType, true, data))
  {
    var header := mediaType + Base64Marker;
    var rest := header + [','] + data;
    var url := DataUrlPrefix + rest;
    assert url == DataUrlPrefix + header + [','] + data;
    SplitAt(DataUrlPrefix, rest);
    assert url[..|DataUrlPrefix|] == DataUrlPrefix && url[|DataUrlPrefix|..] == rest;
    assert ',' !in header;
    FindFirstAfter(header, data, ',');
    assert rest == header + ([','] + data);
    SplitAt(header, [','] + data);
    assert rest[..|header|] == header;
    SplitAt(header + [','], data);
    assert rest[|header| + 1..] == data;
    SplitAt(mediaType, Base64Marker);
  }

  /** In `h + [c] + t`, the first `c` is the one right after `h` when `h` holds none. */
  lemma FindFirstAfter(h: string, t: string, c: char)
    requires c !in h
    ensures Paths.Find(h + [c] + t, c) == |h|
  {
    var s := h + [c] + t;
    assert s[|h|] == c;
    assert forall i :: 0 <= i < |h| ==> s[i] == h[i];
  }

  /** Recovers the message a chat message was formatted from, if it has that shape. */
  function ParseMessage(c: ChatMessage): Option<Message> {
    match RoleFromValue(c.role)
    case None => None
    case Some(role) =>
      match c.content
      case Text(t) => Some(Message(role, t, None))
      case Parts(ps) =>
        if |ps| == 2 && ps[0].TextPart? && ps[1].ImageUrlPart? then
          match ParseDataUrl(ps[1].url)
          case Some(DataUrl(mt, true, data)) =>
            if mt == "image/jpeg" then Some(Message(role, ps[0].text, Some(data))) else None
          case _ => None
        else None
  }

  /** Formatting loses nothing: the role, the content and the image are all recovered. */
  lemma FormatMessageRoundTrip(m: Message)
    ensures ParseMessage(FormatMessage(m)) == Some(m)
  {
    RoleValueRoundTrip(m.role);
    if m.image.Some? {
      ImageUrlIsJpegDataUrl(m.image.value);
    }
  }

  /**
   * Without an image a message is its role's value and its plain content;
   * with one, its content is a text part holding the text, then an image
   * part whose URL carries the image as base64 JPEG data.
   */
  lemma FormattedMessageShape(m: Message)
    ensures FormatMessage(m).role == m.role.Value()
    ensures m.image.None? ==> FormatMessage(m).content == Text(m.content)
    ensures m.image.Some? ==>
      var c := FormatMessage(m).content;
      && c.Parts? && |c.parts| == 2
      && c.parts[0] == TextPart(m.content)
      && c.parts[1].ImageUrlPart?
      && ParseDataUrl(c.parts[1].url) == Some(DataUrl("image/jpeg", true, m.image.value))
  {
    if m.image.Some? {
      ImageUrlIsJpegDataUrl(m.image.value);
    }
  }

  /** The formatted messages, in their original order. */
  function FormatAll(messages: seq<Message>): (r: seq<ChatMessage>)
    ensures |r| == |messages|
    ensures forall i :: 0 <= i < |messages| ==> r[i] == FormatMessage(messages[i])
  {
    if messages == [] then [] else [FormatMessage(messages[0])] + FormatAll(messages[1..])
  }

  /** The request body of `generate_response`: the system prompt first, then the formatted messages. */
  function BuildMessages(systemPrompt: string, messages: seq<Message>): (r: seq<ChatMessage>)
    ensures |r| == |messages| + 1
    ensures r[0] == ChatMessage("system", Text(systemPrompt))
    ensures forall i :: 0 <= i < |messages| ==> r[i + 1] == FormatMessage(messages[i])
  {
    [ChatMessage(System.Value(), Text(systemPrompt))] + FormatAll(messages)
  }

  /** The request carries exactly the system prompt and then the caller's messages, recoverable in order. */
  lemma BuildMessagesRecoverable(systemPrompt: string, messages: seq<Message>)
    ensures ParseMessage(BuildMessages(systemPrompt, messages)[0]) == Some(Message(System, systemPrompt, None))
    ensures forall i :: 0 <= i < |messages| ==>
      ParseMessage(BuildMessages(systemPrompt, messages)[i + 1]) == Some(messages[i])
  {
    forall i | 0 <= i < |messages|
      ensures ParseMessage(BuildMessages(systemPrompt, messages)[i + 1]) == Some(messages[i])
    {
      FormatMessageRoundTrip(messages[i]);
    }
  }

  /** The token usage a chat response reports. */
  datatype Usage = Usage(promptTokens: nat, completionTokens: nat)

  /** One choice of a chat response: its text, and its parsed object when a schema was requested. */
  datatype Choice<P> = Choice(content: string, parsed: Option<P>)

  datatype ChatResponse<P> = ChatResponse(usage: Usage, choices: seq<Choice<P>>)

  /** What `generate_response` returns: the parsed object, or the text. */
  datatype Reply<P> = ParsedReply(parsed: Option<P>) | TextReply(content: string)

  const DefaultModelName := "gpt-4o-2024-08-06"

  /** The text of the IndexError raised by `choices[0]` on an empty list. */
  const NoChoiceError := "list index out of range"

  /** One chat client with its running token counters. */
  class LLM {
    const apiKey: string
    const modelName: string
    var inputTokens: nat
    var outputTokens: nat

    constructor (apiKey: string, modelName: string)
      ensures this.apiKey == apiKey && this.modelName == modelName
      ensures inputTokens == 0 && outputTokens == 0
    {
      this.apiKey := apiKey;
      this.modelName := modelName;
      inputTokens := 0;
      outputTokens := 0;
    }

    /** `LLM(api_key=...)`, as the extractor builds it: the default model and fresh counters. */
    static method WithDefaultModel(apiKey: string) returns (c: LLM)
      ensures fresh(c) && c.apiKey == apiKey && c.modelName == DefaultModelName
      ensures c.inputTokens == 0 && c.outputTokens == 0
    {
      c := new LLM(apiKey, DefaultModelName);
    }

    /** `update_token_usage`: both counters grow by the response's usage. */
    method UpdateTokenUsage(usage: Usage)
      modifies this
      ensures inputTokens == old(inputTokens) + usage.promptTokens
      ensures outputTokens == old(outputTokens) + usage.completionTokens
    {
      inputTokens := inputTokens + usage.promptTokens;
      outputTokens := outputTokens + usage.completionTokens;
    }

    /**
     * `generate_response`. The chat API is a parameter: given the model name,
     * the request and whether a response schema was given, it answers or fails
     * with a cause. An answer updates the counters exactly once, on either
     * branch, before the first choice is taken; a failure leaves them alone.
     */
    method GenerateResponse<P>(systemPrompt: string, messages: seq<Message>, structured: bool,
                               api: (string, seq<ChatMessage>, bool) -> Result<ChatResponse<P>, string>)
      returns (r: Result<Reply<P>, string>)
      modifies this
      ensures var response := api(modelName, BuildMessages(systemPrompt, messages), structured);
        && (response.Err? ==>
              r == Err(response.error) && inputTokens == old(inputTokens) && outputTokens == old(outputTokens))
        && (response.Ok? ==>
              && inputTokens == old(inputTokens) + response.value.usage.promptTokens
              && outputTokens == old(outputTokens) + response.value.usage.completionTokens
              && r == if response.value.choices == [] then Err(NoChoiceError)
                      else if structured then Ok(ParsedReply(response.value.choices[0].parsed))
                      else Ok(TextReply(response.value.choices[0].content)))
    {
      var request := BuildMessages(systemPrompt, messages);
      var response := api(modelName, request, structured);
      if response.Err? {
        return Err(response.error);
      }
      UpdateTokenUsage(response.value.usage);
      if response.value.choices == [] {
        return Err(NoChoiceError);
      }
      if structured {
        r := Ok(ParsedReply(response.value.choices[0].parsed));
      } else {
        r := Ok(TextReply(response.value.choices[0].content));
      }
    }
  }
}
