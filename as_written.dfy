/**
 * chat_completion exactly as app.py writes it, with Python's name lookup
 * made explicit. Two names in its body do not resolve to what the code
 * needs: `json` is never imported, and the form parameter `model` shadows
 * the module-level model object that line 529 calls, while line 544 needs
 * the form string under that same name, so no choice of scopes serves both.
 * Every failure happens inside the try block, so each surfaces as HTTP 500.
 */
module AsWritten {
  import opened Wrappers
  import opened Errors
  import opened Schema
  import opened Prompts
  import opened Accounting
  import opened Handlers

  /** Names bound at module level in app.py: its imports and its top-level
      assignments, classes and functions. (`json` is also not a builtin.) */
  const AppGlobals: set<string> := {
    "FastAPI", "File", "UploadFile", "HTTPException", "Form", "Depends",
    "AutoModelForCausalLM", "AutoTokenizer", "Image", "io", "torch", "logging",
    "sys", "platform", "List", "Optional", "CORSMiddleware", "BaseModel", "Field",
    "Union", "time", "jsonable_encoder", "uuid",
    "logger", "Message", "ImageChatRequest", "ChatResponse", "app", "model_id",
    "revision", "model", "device", "tokenizer", "describe_image", "batch_describe",
    "health_check", "Choice", "Usage", "ChatCompletionResponse", "chat_completion",
    "batch_chat_with_images"
  }

  /** The local names of chat_completion: its parameters and the variables
      it assigns. */
  const ChatCompletionLocals: set<string> := {
    "file", "messages", "model", "temperature", "max_tokens",
    "messages_list", "image_data", "image", "user_messages", "prompt", "enc_image",
    "response_text", "prompt_tokens", "completion_tokens", "response", "e"
  }

  datatype Binding = Local | Global | Unbound

  /** Python's lookup of a name used inside a function body: a local if the
      function binds it, else a module global, else a NameError. */
  function Resolve(name: string, locals: set<string>, globals: set<string>): (b: Binding)
    ensures b == Local <==> name in locals
    ensures b == Unbound <==> name !in locals && name !in globals
  {
    if name in locals then Local else if name in globals then Global else Unbound
  }

  /** chat_completion run with the given scopes. `modelField` is the value of
      the `model` form field; the only local named `model` is that string.
      `echoesFormField` says what line 544 passes as `model=`: as written
      (false) the name `model`, looked up again in the same scopes as at
      line 529; once the form parameter is renamed (true), that new name,
      bound to the form string. */
  function ChatCompletionAsWritten(locals: set<string>, globals: set<string>, echoesFormField: bool,
                                   file: Upload, parsed: ParsedMessages, modelField: string,
                                   vm: VisionModel, requestId: string, created: int)
    : (r: Response<ChatCompletionResponse>)
    ensures r.Error? ==> r.exc.status == 500
    ensures Resolve("json", locals, globals) == Unbound ==>
      r == Fail(500, ServerError(NameError("json")))
    ensures r.Ok? ==> echoesFormField && r.body.model == modelField
  {
    if Resolve("json", locals, globals) == Unbound then Fail(500, ServerError(NameError("json")))
    else if parsed.JsonInvalid? then Fail(500, ServerError(MalformedJson))
    else match file.decoded
      case None => Fail(500, ServerError(Unreadable))
      case Some(image) =>
        match parsed
        case NotMessageList => Fail(500, ServerError(MalformedMessages))
        case Messages(msgs) =>
          var prompt := CompletionPrompt(msgs);
          match Resolve("model", locals, globals)
          case Unbound => Fail(500, ServerError(NameError("model")))
          case Local => Fail(500, ServerError(AttributeError("str", "encode_image")))
          case Global =>
            match EncodeAndAnswer(vm, image, prompt)
            case Threw(f) => Fail(500, ServerError(f))
            case Done(answer) =>
              if echoesFormField then Ok(CompletionResponse(requestId, created, modelField, prompt, answer))
              // `model=model` hands the module-level model object to the `model: str` field
              else Fail(500, ServerError(ValidationError("model")))
  }

  /** As written, every request fails at `json.loads` with a NameError,
      reported as a 500, whatever the image, messages or model. */
  lemma AsWrittenJsonUnbound(file: Upload, parsed: ParsedMessages, modelField: string,
                             vm: VisionModel, requestId: string, created: int)
    ensures ChatCompletionAsWritten(ChatCompletionLocals, AppGlobals, false, file, parsed, modelField,
                                    vm, requestId, created)
      == Fail(500, ServerError(NameError("json")))
  {
  }

  /** Even once `json` is imported, `model.encode_image` is looked up on the
      form string, so a request with well-formed messages and a readable
      image still fails with an AttributeError. */
  lemma AsWrittenModelShadowed(globals: set<string>, file: Upload, parsed: ParsedMessages,
                               modelField: string, vm: VisionModel, requestId: string, created: int)
    ensures "json" in globals && parsed.Messages? && file.decoded.Some? ==>
      ChatCompletionAsWritten(ChatCompletionLocals, globals, false, file, parsed, modelField,
                              vm, requestId, created)
        == Fail(500, ServerError(AttributeError("str", "encode_image")))
  {
  }

  /** While line 544 still passes the name `model`, no choice of scopes makes
      the handler answer 200: `model` either fails at line 529 (unbound, or
      the form string) or, as the module-level model, fails validation of the
      response at line 544. Renaming the form parameter alone is not enough. */
  lemma AsWrittenNeverAnswers(locals: set<string>, globals: set<string>, file: Upload,
                              parsed: ParsedMessages, modelField: string,
                              vm: VisionModel, requestId: string, created: int)
    ensures ChatCompletionAsWritten(locals, globals, false, file, parsed, modelField,
                                    vm, requestId, created).Error?
    ensures "json" in globals && "model" in globals && "model" !in locals &&
            parsed.Messages? && file.decoded.Some? &&
            EncodeAndAnswer(vm, file.decoded.value, CompletionPrompt(parsed.msgs)).Done? ==>
      ChatCompletionAsWritten(locals, globals, false, file, parsed, modelField,
                              vm, requestId, created)
        == Fail(500, ServerError(ValidationError("model")))
  {
  }

  /** With `json` imported, the form parameter renamed so that `model`
      resolves to the module-level model at line 529, and line 544 echoing
      the renamed form field, the handler is exactly Handlers.ChatCompletion. */
  lemma FixedNamesGiveChatCompletion(locals: set<string>, globals: set<string>, file: Upload,
                                     parsed: ParsedMessages, modelField: string,
                                     vm: VisionModel, requestId: string, created: int)
    requires "json" in globals && "model" in globals && "model" !in locals
    ensures ChatCompletionAsWritten(locals, globals, true, file, parsed, modelField,
                                    vm, requestId, created)
      == ChatCompletion(file, parsed, modelField, vm, requestId, created)
  {
  }
}
