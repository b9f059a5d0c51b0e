/**
 * The records the server exchanges (its pydantic models and response
 * dictionaries), the uploaded files, and the vision-language model as an
 * uninterpreted collaborator.
 */
module Schema {
  import opened Wrappers
  import opened Errors

  /** A chat message as the `Message` model declares it: both fields required strings. */
  datatype Message = Message(role: string, content: string)

  /** A message object from the JSON `messages` form field of chat_completion,
      read with `msg.get(...)`: either key may be missing. */
  datatype RawMessage = RawMessage(role: Option<string>, content: Option<string>)

  /** What `json.loads(messages)` gives chat_completion. `JsonInvalid`: the
      call itself raises. `NotMessageList`: valid JSON that the user-message
      comprehension cannot read (not iterable, an element without `.get`, a
      role that is not a string); that failure happens only when the
      comprehension runs, after the image is read. */
  datatype ParsedMessages = JsonInvalid | NotMessageList | Messages(msgs: seq<RawMessage>)

  /** `ImageChatRequest`; its `max_tokens` and `temperature` are never read. */
  datatype ImageChatRequest = ImageChatRequest(messages: seq<Message>)

  datatype Usage = Usage(promptTokens: int, completionTokens: int, totalTokens: int)

  datatype Choice = Choice(index: int, message: Message, finishReason: string)

  datatype ChatCompletionResponse = ChatCompletionResponse(
    id: string, objectType: string, created: int, model: string,
    choices: seq<Choice>, usage: Usage)

  /** One element of batch_chat's `responses` list. */
  datatype BatchChatEntry = BatchChatEntry(
    imageIndex: int, model: string, created: int, response: Message, usage: Usage)

  datatype DescriptionBody = DescriptionBody(description: string)   // {"description": ...}
  datatype AnswersBody = AnswersBody(answers: seq<string>)           // {"answers": ...}
  datatype ResponsesBody = ResponsesBody(responses: seq<BatchChatEntry>) // {"responses": ...}

  /** A decoded RGB image and the model's encoding of one; both opaque. */
  type Image
  type Encoding

  /** An uploaded file. `decoded` is the result of reading it and converting
      it to an RGB image, an opaque step that fails (`None`) on data that is
      not an image. */
  datatype Upload = Upload(filename: string, contentType: string, decoded: Option<Image>)

  /** The loaded model's three capabilities; each may raise. */
  datatype VisionModel = VisionModel(
    encodeImage: Image -> Outcome<Encoding>,
    answerQuestion: (Encoding, string) -> Outcome<string>,
    batchAnswer: (seq<Image>, seq<string>) -> Outcome<seq<string>>)
}
