/**
 * Helpers of package llm/openai: the role mapping of request messages, the
 * token estimate of a conversation for a model, and the conversion of vision
 * requests into one multi-part user message. The tokenizer, the JPEG encoder
 * and base64 are outside the model and are given as functions.
 */
module OpenAiUtil {
  import opened Wrappers
  import opened Strings

  /** `RequestType` values. */
  const UserMessage: int := 0
  const SystemMessage: int := 1
  const AssistantMessage: int := 2

  const RoleUser := "user"
  const RoleSystem := "system"
  const RoleAssistant := "assistant"

  datatype Request = Request(kind: int, content: string)

  datatype ChatMessagePart = TextPart(text: string) | ImageUrlPart(url: string)

  datatype ChatMessage = ChatMessage(role: string, content: string, name: string, multiContent: seq<ChatMessagePart>)

  /** The request type a chat role stands for, if any. */
  function RoleKind(role: string): Option<int>
  {
    if role == RoleUser then Some(UserMessage)
    else if role == RoleSystem then Some(SystemMessage)
    else if role == RoleAssistant then Some(AssistantMessage)
    else None
  }

  /**
   * `toChatCompletionMessage`: content copied, role chosen by the request type;
   * any other type is an error and leaves the role empty.
   */
  function ToChatCompletionMessage(q: Request): (r: (ChatMessage, Option<string>))
    ensures r.0.content == q.content && r.0.name == "" && r.0.multiContent == []
    ensures r.1.None? <==> q.kind in {UserMessage, SystemMessage, AssistantMessage}
    ensures r.1.None? ==> RoleKind(r.0.role) == Some(q.kind)
    ensures r.1.Some? ==> r.1.value == "unknown type: openai.RequestType" && r.0.role == ""
  {
    var message := ChatMessage("", q.content, "", []);
    if q.kind == SystemMessage then (message.(role := RoleSystem), None)
    else if q.kind == AssistantMessage then (message.(role := RoleAssistant), None)
    else if q.kind == UserMessage then (message.(role := RoleUser), None)
    else (message, Some("unknown type: openai.RequestType"))
  }

  /** Distinct request types get distinct roles. */
  lemma RolesAreDistinct(a: Request, b: Request)
    requires ToChatCompletionMessage(a).1.None? && ToChatCompletionMessage(b).1.None?
    requires ToChatCompletionMessage(a).0.role == ToChatCompletionMessage(b).0.role
    ensures a.kind == b.kind
  {
  }

  /** Model names the token table knows, as the OpenAI client library spells them. */
  const Gpt35Turbo0613 := "gpt-3.5-turbo-0613"
  const Gpt35Turbo16k0613 := "gpt-3.5-turbo-16k-0613"
  const Gpt4_0314 := "gpt-4-0314"
  const Gpt4_32k0314 := "gpt-4-32k-0314"
  const Gpt4_0613 := "gpt-4-0613"
  const Gpt4_32k0613 := "gpt-4-32k-0613"
  const Gpt35Turbo0301 := "gpt-3.5-turbo-0301"
  const Gpt4VisionPreview := "gpt-4-vision-preview"
  const Gpt4Turbo := "gpt-4-turbo"
  const Gpt35Turbo := "gpt-3.5-turbo"
  const Gpt4 := "gpt-4"

  /** Tokens added per message and per named message, for the models the table lists. */
  function PerMessage(model: string): Option<(int, int)>
  {
    if model in {Gpt35Turbo0613, Gpt35Turbo16k0613, Gpt4_0314, Gpt4_32k0314, Gpt4_0613, Gpt4_32k0613} then Some((3, 1))
    else if model == Gpt35Turbo0301 then Some((4, -1))
    else if model == Gpt4VisionPreview then Some((1500, -1))
    else if model == Gpt4Turbo then Some((1000, -1))
    else None
  }

  /** The tokenizer: per model, whether an encoding exists (an error otherwise) and the token length of a text. */
  datatype Tokenizer = Tokenizer(encodingError: string -> Option<string>, length: (string, string) -> nat)

  function NotImplemented(model: string): string
  {
    "num_tokens_from_messages() is not implemented for model " + model
    + ". See https://github.com/openai/openai-python/blob/main/chatml.md for information on how messages are converted to tokens"
  }

  /** What one message costs under `model`. */
  function MessageTokens(m: ChatMessage, model: string, perMessage: int, perName: int, tk: Tokenizer): int
  {
    perMessage + tk.length(model, m.content) + tk.length(model, m.role) + tk.length(model, m.name)
    + (if m.name != "" then perName else 0)
  }

  /** The cost of the messages, summed in order. */
  function SumTokens(messages: seq<ChatMessage>, model: string, perMessage: int, perName: int, tk: Tokenizer): int
  {
    if |messages| == 0 then 0
    else SumTokens(messages[..|messages| - 1], model, perMessage, perName, tk)
         + MessageTokens(messages[|messages| - 1], model, perMessage, perName, tk)
  }

  /** How deep the fallback goes: a listed model needs none, any other one step. */
  function FallbackDepth(model: string): nat
  {
    if PerMessage(model).Some? then 0 else 1
  }

  /** `tokensCount` as a function: the count and the error, 0 with any error. */
  function TokensCount(messages: seq<ChatMessage>, model: string, tk: Tokenizer): (r: (int, Option<string>))
    ensures r.1.Some? ==> r.0 == 0
    decreases FallbackDepth(model)
  {
    if tk.encodingError(model).Some? then (0, Some("encoding for model: " + tk.encodingError(model).value))
    else match PerMessage(model)
      case Some((perMessage, perName)) => (SumTokens(messages, model, perMessage, perName, tk) + 3, None)
      case None =>
        if Contains(model, Gpt35Turbo) then TokensCount(messages, Gpt35Turbo0613, tk)
        else if Contains(model, Gpt4) then TokensCount(messages, Gpt4_0613, tk)
        else (0, Some(NotImplemented(model)))
  }

  /** `tokensCount`: the loop over the messages, with a fallback to a listed model. */
  method CountTokens(messages: seq<ChatMessage>, model: string, tk: Tokenizer) returns (numTokens: int, err: Option<string>)
    ensures (numTokens, err) == TokensCount(messages, model, tk)
    decreases FallbackDepth(model)
  {
    if tk.encodingError(model).Some? {
      return 0, Some("encoding for model: " + tk.encodingError(model).value);
    }
    var perMessage, perName;
    match PerMessage(model) {
      case Some(p) =>
        perMessage, perName := p.0, p.1;
      case None =>
        if Contains(model, Gpt35Turbo) {
          numTokens, err := CountTokens(messages, Gpt35Turbo0613, tk);
        } else if Contains(model, Gpt4) {
          numTokens, err := CountTokens(messages, Gpt4_0613, tk);
        } else {
          numTokens, err := 0, Some(NotImplemented(model));
        }
        return;
    }
    numTokens := 0;
    var i := 0;
    while i < |messages|
      invariant 0 <= i <= |messages|
      invariant numTokens == SumTokens(messages[..i], model, perMessage, perName, tk)
    {
      assert messages[..i + 1][..i] == messages[..i];
      var message := messages[i];
      numTokens := numTokens + perMessage;
      numTokens := numTokens + tk.length(model, message.content);
      numTokens := numTokens + tk.length(model, message.role);
      numTokens := numTokens + tk.length(model, message.name);
      if message.name != "" {
        numTokens := numTokens + perName;
      }
      i := i + 1;
    }
    assert messages[..i] == messages;
    numTokens := numTokens + 3;
    err := None;
  }

  /** The per-message costs add up: a conversation costs the sum of its parts. */
  lemma {:induction false} SumTokensAppend(a: seq<ChatMessage>, b: seq<ChatMessage>, model: string, perMessage: int, perName: int, tk: Tokenizer)
    ensures SumTokens(a + b, model, perMessage, perName, tk)
         == SumTokens(a, model, perMessage, perName, tk) + SumTokens(b, model, perMessage, perName, tk)
    decreases |b|
  {
    if |b| == 0 {
      assert a + b == a;
    } else {
      var b' := b[..|b| - 1];
      assert (a + b)[..|a + b| - 1] == a + b';
      SumTokensAppend(a, b', model, perMessage, perName, tk);
    }
  }

  /** Under the 0613 family every message costs at least 3 tokens, and every reply is primed with 3 more. */
  lemma {:induction false} TokensCountLowerBound(messages: seq<ChatMessage>, model: string, tk: Tokenizer)
    requires PerMessage(model) == Some((3, 1)) && tk.encodingError(model).None?
    ensures TokensCount(messages, model, tk) == (SumTokens(messages, model, 3, 1, tk) + 3, None)
    ensures SumTokens(messages, model, 3, 1, tk) >= 3 * |messages|
    decreases |messages|
  {
    if |messages| > 0 {
      TokensCountLowerBound(messages[..|messages| - 1], model, tk);
    }
  }

  /** A dated or extended gpt-3.5-turbo model the table does not list is counted as gpt-3.5-turbo-0613. */
  lemma Gpt35FallsBack(messages: seq<ChatMessage>, model: string, tk: Tokenizer)
    requires tk.encodingError(model).None? && PerMessage(model).None? && Contains(model, Gpt35Turbo)
    ensures TokensCount(messages, model, tk) == TokensCount(messages, Gpt35Turbo0613, tk)
  {
  }

  /** A model matching neither family is refused with the library's message. */
  lemma UnknownModelRefused(messages: seq<ChatMessage>, model: string, tk: Tokenizer)
    requires tk.encodingError(model).None? && PerMessage(model).None?
    requires !Contains(model, Gpt35Turbo) && !Contains(model, Gpt4)
    ensures TokensCount(messages, model, tk) == (0, Some(NotImplemented(model)))
  {
  }

  /** A vision request: text content, or an image to send. */
  datatype VisionRequest = VisionRequest(kind: int, content: string, image: Option<string>)

  /** The image codecs: JPEG encoding of an image (or its error) and standard base64. */
  datatype ImageCodec = ImageCodec(jpeg: string -> Result<seq<uint8>>, base64: seq<uint8> -> string)

  /** `toString`: the image as a JPEG data URL. */
  function ImageToString(image: string, codec: ImageCodec): (r: Result<string>)
    ensures r.Ok? <==> codec.jpeg(image).Ok?
    ensures r.Ok? ==> r.value == "data:image/jpeg;base64," + codec.base64(codec.jpeg(image).value)
    ensures r.Err? ==> r.error == "encoding for model: " + codec.jpeg(image).error
  {
    match codec.jpeg(image)
    case Err(e) => Err("encoding for model: " + e)
    case Ok(b) => Ok("data:image/jpeg;base64," + codec.base64(b))
  }

  datatype Transformed = Transformed(parts: seq<ChatMessagePart>, err: Option<string>)

  function Prefix(p: ChatMessagePart, t: Transformed): Transformed
  {
    t.(parts := [p] + t.parts)
  }

  /** The parts the requests become, in order, up to the first image that fails to convert. */
  function TransformParts(reqs: seq<VisionRequest>, codec: ImageCodec): Transformed
  {
    if |reqs| == 0 then Transformed([], None)
    else if reqs[0].image.Some? then
      match ImageToString(reqs[0].image.value, codec)
      case Err(e) => Transformed([], Some("image failed to convert: " + e))
      case Ok(url) => Prefix(ImageUrlPart(url), TransformParts(reqs[1..], codec))
    else Prefix(TextPart(reqs[0].content), TransformParts(reqs[1..], codec))
  }

  /** `transformImageRequests`: one user message holding the converted parts; on failure, the parts so far. */
  method TransformImageRequests(reqs: seq<VisionRequest>, codec: ImageCodec) returns (out: seq<ChatMessage>, err: Option<string>)
    ensures out == [ChatMessage(RoleUser, "", "", TransformParts(reqs, codec).parts)]
    ensures err == TransformParts(reqs, codec).err
  {
    var parts: seq<ChatMessagePart> := [];
    var i := 0;
    while i < |reqs|
      invariant 0 <= i <= |reqs|
      invariant TransformParts(reqs, codec) == TransformParts(reqs[i..], codec).(parts := parts + TransformParts(reqs[i..], codec).parts)
    {
      assert reqs[i..][1..] == reqs[i + 1..];
      if reqs[i].image.Some? {
        var imgInput := ImageToString(reqs[i].image.value, codec);
        if imgInput.Err? {
          assert parts + [] == parts;
          return [ChatMessage(RoleUser, "", "", parts)], Some("image failed to convert: " + imgInput.error);
        }
        assert parts + ([ImageUrlPart(imgInput.value)] + TransformParts(reqs[i + 1..], codec).parts)
            == (parts + [ImageUrlPart(imgInput.value)]) + TransformParts(reqs[i + 1..], codec).parts;
        parts := parts + [ImageUrlPart(imgInput.value)];
      } else {
        assert parts + ([TextPart(reqs[i].content)] + TransformParts(reqs[i + 1..], codec).parts)
            == (parts + [TextPart(reqs[i].content)]) + TransformParts(reqs[i + 1..], codec).parts;
        parts := parts + [TextPart(reqs[i].content)];
      }
      i := i + 1;
    }
    assert parts + [] == parts;
    out := [ChatMessage(RoleUser, "", "", parts)];
    err := None;
  }

  /** Text-only requests convert without error, one text part per request, in order. */
  lemma {:induction false} TextOnlyRequests(reqs: seq<VisionRequest>, codec: ImageCodec)
    requires forall i :: 0 <= i < |reqs| ==> reqs[i].image.None?
    ensures TransformParts(reqs, codec).err.None?
    ensures TransformParts(reqs, codec).parts == seq(|reqs|, i requires 0 <= i < |reqs| => TextPart(reqs[i].content))
  {
    if |reqs| > 0 {
      TextOnlyRequests(reqs[1..], codec);
    }
  }

  /** Conversion fails exactly when some image fails to encode. */
  lemma {:induction false} TransformFailsIffImageFails(reqs: seq<VisionRequest>, codec: ImageCodec)
    ensures TransformParts(reqs, codec).err.Some? <==>
      exists i :: 0 <= i < |reqs| && reqs[i].image.Some? && codec.jpeg(reqs[i].image.value).Err?
  {
    if |reqs| > 0 {
      TransformFailsIffImageFails(reqs[1..], codec);
      if exists i :: 0 <= i < |reqs[1..]| && reqs[1..][i].image.Some? && codec.jpeg(reqs[1..][i].image.value).Err? {
        var i :| 0 <= i < |reqs[1..]| && reqs[1..][i].image.Some? && codec.jpeg(reqs[1..][i].image.value).Err?;
        assert reqs[i + 1] == reqs[1..][i];
      }
      if exists i :: 0 <= i < |reqs| && reqs[i].image.Some? && codec.jpeg(reqs[i].image.value).Err? {
        var i :| 0 <= i < |reqs| && reqs[i].image.Some? && codec.jpeg(reqs[i].image.value).Err?;
        if i > 0 {
          assert reqs[1..][i - 1] == reqs[i];
        }
      }
    }
  }
}
