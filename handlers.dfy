/**
 * The four request handlers: describe_image, batch_describe,
 * chat_completion (as its authors evidently meant it; the code as written is
 * in module AsWritten) and batch_chat_with_images. Each returns the body of
 * an HTTP 200 or the HTTPException it raises.
 */
module Handlers {
  import opened Wrappers
  import opened Errors
  import opened Schema
  import opened Text
  import opened Prompts
  import opened Accounting

  /** The content-type gate: `content_type.startswith('image/')`. */
  predicate IsImageType(contentType: string)
    ensures IsImageType(contentType) <==> |contentType| >= 6 && contentType[..6] == "image/"
  {
    StartsWith(contentType, "image/")
  }

  /** An upload that passes the batch loops: image content type, decodable data. */
  predicate Usable(u: Upload) {
    IsImageType(u.contentType) && u.decoded.Some?
  }

  predicate AllUsable(images: seq<Upload>) {
    forall i :: 0 <= i < |images| ==> Usable(images[i])
  }

  /** The decoded images, in upload order. */
  function DecodedImages(images: seq<Upload>): (r: seq<Image>)
    requires AllUsable(images)
    ensures |r| == |images|
    ensures forall i :: 0 <= i < |images| ==> images[i].decoded == Some(r[i])
  {
    seq(|images|, i requires 0 <= i < |images| => images[i].decoded.value)
  }

  /** `model.encode_image(image)` followed by `model.answer_question(enc, prompt)`:
      every request encodes its image afresh. */
  function EncodeAndAnswer(vm: VisionModel, image: Image, prompt: string): (r: Outcome<string>)
    ensures vm.encodeImage(image).Threw? ==> r == Threw(vm.encodeImage(image).fault)
    ensures vm.encodeImage(image).Done? ==>
      r == vm.answerQuestion(vm.encodeImage(image).value, prompt)
  {
    match vm.encodeImage(image)
    case Threw(f) => Threw(f)
    case Done(enc) => vm.answerQuestion(enc, prompt)
  }

  // ---------------------------------------------------------------------
  // describe_image
  // ---------------------------------------------------------------------

  /** POST /describe. The content type is checked before the file is read
      and outside the try block, so it alone decides a 400; every later
      failure becomes a 500. */
  function DescribeImage(file: Upload, vm: VisionModel): (r: Response<DescriptionBody>)
    ensures (r.Error? && r.exc.status == 400) <==> !IsImageType(file.contentType)
    ensures !IsImageType(file.contentType) ==>
      r == Fail(400, InvalidFileType(file.contentType))
    ensures r.Error? ==> r.exc.status == 400 || r.exc.status == 500
    ensures IsImageType(file.contentType) && file.decoded.None? ==>
      r == Fail(500, ErrorProcessingImage(Unreadable))
    ensures (IsImageType(file.contentType) && file.decoded.Some?
             && EncodeAndAnswer(vm, file.decoded.value, DefaultPrompt).Threw?) ==>
      r == Fail(500, ErrorProcessingImage(EncodeAndAnswer(vm, file.decoded.value, DefaultPrompt).fault))
    ensures r.Ok? <==>
      IsImageType(file.contentType) && file.decoded.Some?
      && EncodeAndAnswer(vm, file.decoded.value, DefaultPrompt).Done?
    ensures r.Ok? ==>
      r.body.description == EncodeAndAnswer(vm, file.decoded.value, DefaultPrompt).value
  {
    if !IsImageType(file.contentType) then Fail(400, InvalidFileType(file.contentType))
    else match file.decoded
      case None => Fail(500, ErrorProcessingImage(Unreadable))
      case Some(image) =>
        match EncodeAndAnswer(vm, image, DefaultPrompt)
        case Threw(f) => Fail(500, ErrorProcessingImage(f))
        case Done(description) => Ok(DescriptionBody(description))
  }

  /** The gate looks at nothing but the content type: two non-image
      uploads with the same content type are rejected identically, whatever
      their data, and the model is never consulted. */
  lemma DescribeRejectsBeforeReading(f1: Upload, f2: Upload, vm1: VisionModel, vm2: VisionModel)
    requires f1.contentType == f2.contentType && !IsImageType(f1.contentType)
    ensures DescribeImage(f1, vm1) == DescribeImage(f2, vm2)
  {
  }

  // ---------------------------------------------------------------------
  // batch_describe
  // ---------------------------------------------------------------------

  /** batch_describe's checks before its try block. */
  function BatchDescribeRejection(imageCount: nat, prompts: Option<seq<string>>): (r: Option<HttpException>)
    ensures r.None? <==> imageCount > 0 && !PromptsMismatch(prompts, imageCount)
    ensures r.Some? ==> r.value.status == 400
    ensures imageCount == 0 ==> r == Some(HttpException(400, NoImagesProvided))
  {
    if imageCount == 0 then Some(HttpException(400, NoImagesProvided))
    else if PromptsMismatch(prompts, imageCount)
    then Some(HttpException(400, PromptCountMismatch(|prompts.value|, imageCount)))
    else None
  }

  /** What processing upload `u` raises inside batch_describe's loop. */
  function BatchDescribeFault(u: Upload): Fault {
    if !IsImageType(u.contentType)
    then Raised(HttpException(400, InvalidFileTypeFor(u.filename, u.contentType)))
    else Unreadable
  }

  /** POST /batch_describe. Rejects with 400 only for an empty image list or
      a non-empty prompt list of the wrong length. Otherwise the images are
      read in order; the first unusable one ends the request with a 500
      (a non-image content type raises a 400 that the handler's `except`
      re-reports as a 500). When all are usable, the model receives the
      decoded images and one prompt per image. */
  method BatchDescribe(images: seq<Upload>, prompts: Option<seq<string>>, vm: VisionModel)
    returns (r: Response<AnswersBody>)
    ensures (r.Error? && r.exc.status == 400) <==> BatchDescribeRejection(|images|, prompts).Some?
    ensures BatchDescribeRejection(|images|, prompts).Some? ==>
      r == Error(BatchDescribeRejection(|images|, prompts).value)
    ensures r.Error? ==> r.exc.status == 400 || r.exc.status == 500
    ensures BatchDescribeRejection(|images|, prompts).None? ==>
      forall k :: (0 <= k < |images| && !Usable(images[k])
                   && forall i :: 0 <= i < k ==> Usable(images[i])) ==>
        r == Fail(500, ErrorProcessingBatch(BatchDescribeFault(images[k])))
    ensures BatchDescribeRejection(|images|, prompts).None? && AllUsable(images) ==>
      match vm.batchAnswer(DecodedImages(images), EffectivePrompts(prompts, |images|))
      case Done(answers) => r == Ok(AnswersBody(answers))
      case Threw(f) => r == Fail(500, ErrorProcessingBatch(f))
  {
    var rejection := BatchDescribeRejection(|images|, prompts);
    if rejection.Some? {
      return Error(rejection.value);
    }
    var imageList: seq<Image> := [];
    var idx := 0;
    while idx < |images|
      invariant 0 <= idx <= |images|
      invariant forall i :: 0 <= i < idx ==> Usable(images[i])
      invariant |imageList| == idx
      invariant forall i :: 0 <= i < idx ==> imageList[i] == images[i].decoded.value
    {
      var img := images[idx];
      if !IsImageType(img.contentType) {
        var invalid := HttpException(400, InvalidFileTypeFor(img.filename, img.contentType));
        return Fail(500, ErrorProcessingBatch(Raised(invalid)));
      }
      if img.decoded.None? {
        return Fail(500, ErrorProcessingBatch(Unreadable));
      }
      imageList := imageList + [img.decoded.value];
      idx := idx + 1;
    }
    assert imageList == DecodedImages(images);
    var effective := EffectivePrompts(prompts, |images|);
    match vm.batchAnswer(imageList, effective)
    case Done(answers) => r := Ok(AnswersBody(answers));
    case Threw(f) => r := Fail(500, ErrorProcessingBatch(f));
  }

  // ---------------------------------------------------------------------
  // chat_completion
  // ---------------------------------------------------------------------

  /** POST /v1/chat/completions with `json` imported and the global model
      used for inference. `parsed` is the outcome of `json.loads(messages)`; `modelName` is the `model` form field, echoed
      in the response; `requestId` and `created` stand for `uuid.uuid4()` and
      `int(time.time())`. There is no content-type gate here, and every
      failure is a 500 in OpenAI's error shape. */
  function ChatCompletion(file: Upload, parsed: ParsedMessages, modelName: string,
                          vm: VisionModel, requestId: string, created: int)
    : (r: Response<ChatCompletionResponse>)
    ensures r.Error? ==> r.exc.status == 500 && r.exc.detail.ServerError?
    ensures parsed.JsonInvalid? ==> r == Fail(500, ServerError(MalformedJson))
    ensures !parsed.JsonInvalid? && file.decoded.None? ==> r == Fail(500, ServerError(Unreadable))
    ensures parsed.NotMessageList? && file.decoded.Some? ==>
      r == Fail(500, ServerError(MalformedMessages))
    ensures parsed.Messages? && file.decoded.Some? ==>
      match EncodeAndAnswer(vm, file.decoded.value, CompletionPrompt(parsed.msgs))
      case Threw(f) => r == Fail(500, ServerError(f))
      case Done(_) => r.Ok?
    ensures r.Ok? <==>
      parsed.Messages? && file.decoded.Some?
      && EncodeAndAnswer(vm, file.decoded.value, CompletionPrompt(parsed.msgs)).Done?
    ensures r.Ok? ==>
      var prompt := CompletionPrompt(parsed.msgs);
      r.body == CompletionResponse(requestId, created, modelName, prompt,
                                   EncodeAndAnswer(vm, file.decoded.value, prompt).value)
  {
    if parsed.JsonInvalid? then Fail(500, ServerError(MalformedJson))
    else match file.decoded
      case None => Fail(500, ServerError(Unreadable))
      case Some(image) =>
        match parsed
        case NotMessageList => Fail(500, ServerError(MalformedMessages))
        case Messages(msgs) =>
          var prompt := CompletionPrompt(msgs);
          match EncodeAndAnswer(vm, image, prompt)
          case Threw(f) => Fail(500, ServerError(f))
          case Done(answer) => Ok(CompletionResponse(requestId, created, modelName, prompt, answer))
  }

  /** A successful completion has exactly one choice: index 0, the
      assistant's answer, finish_reason "stop", and usage counting the words
      of the chosen prompt and of the answer. */
  lemma ChatCompletionShape(file: Upload, parsed: ParsedMessages, modelName: string,
                            vm: VisionModel, requestId: string, created: int)
    requires ChatCompletion(file, parsed, modelName, vm, requestId, created).Ok?
    ensures var c := ChatCompletion(file, parsed, modelName, vm, requestId, created).body;
      |c.choices| == 1 && c.choices[0].index == 0 && c.choices[0].finishReason == "stop"
      && c.choices[0].message.role == "assistant"
      && c.usage.promptTokens == WordCount(CompletionPrompt(parsed.msgs))
      && c.usage.completionTokens == WordCount(c.choices[0].message.content)
      && c.usage.totalTokens == c.usage.promptTokens + c.usage.completionTokens
  {
  }

  // ---------------------------------------------------------------------
  // batch_chat_with_images
  // ---------------------------------------------------------------------

  /** What processing the upload at position `idx` raises inside batch_chat's loop. */
  function BatchChatFault(idx: nat, u: Upload): Fault {
    if !IsImageType(u.contentType)
    then Raised(HttpException(400, InvalidFileTypeForImage(idx + 1, u.contentType)))
    else Unreadable
  }

  /** POST /batch_chat. Rejects an empty image list with 400 (its only 400).
      The loop reads the images in order and appends, per image, the prompt
      of the matching chat request or the default; the first unusable image
      ends the request with a 500. The model's answers are paired with the
      prompts by position; `clock(i)` is the time read for entry `i`. */
  method BatchChat(images: seq<Upload>, chatRequests: Option<seq<ImageChatRequest>>,
                   vm: VisionModel, clock: nat -> int)
    returns (r: Response<ResponsesBody>)
    ensures (r.Error? && r.exc.status == 400) <==> |images| == 0
    ensures |images| == 0 ==> r == Fail(400, NoImagesProvided)
    ensures r.Error? ==> r.exc.status == 400 || r.exc.status == 500
    ensures forall k :: (0 <= k < |images| && !Usable(images[k])
                         && forall i :: 0 <= i < k ==> Usable(images[i])) ==>
      r == Fail(500, ErrorInBatchImageChat(BatchChatFault(k, images[k])))
    ensures |images| > 0 && AllUsable(images) ==>
      var prompts := ChatPrompts(chatRequests, |images|);
      match vm.batchAnswer(DecodedImages(images), prompts)
      case Threw(f) => r == Fail(500, ErrorInBatchImageChat(f))
      case Done(answers) =>
        && r.Ok?
        && |r.body.responses| == Min(|images|, |answers|)
        && forall i :: 0 <= i < |r.body.responses| ==>
             r.body.responses[i] == BatchEntry(i, prompts[i], answers[i], clock(i))
  {
    if |images| == 0 {
      return Fail(400, NoImagesProvided);
    }
    var imageList: seq<Image> := [];
    var prompts: seq<string> := [];
    var idx := 0;
    while idx < |images|
      invariant 0 <= idx <= |images|
      invariant forall i :: 0 <= i < idx ==> Usable(images[i])
      invariant |imageList| == idx && |prompts| == idx
      invariant forall i :: 0 <= i < idx ==> imageList[i] == images[i].decoded.value
      invariant forall i :: 0 <= i < idx ==> prompts[i] == PromptFor(chatRequests, i)
    {
      var img := images[idx];
      if !IsImageType(img.contentType) {
        var invalid := HttpException(400, InvalidFileTypeForImage(idx + 1, img.contentType));
        return Fail(500, ErrorInBatchImageChat(Raised(invalid)));
      }
      if img.decoded.None? {
        return Fail(500, ErrorInBatchImageChat(Unreadable));
      }
      imageList := imageList + [img.decoded.value];
      prompts := prompts + [PromptFor(chatRequests, idx)];
      idx := idx + 1;
    }
    assert imageList == DecodedImages(images);
    assert prompts == ChatPrompts(chatRequests, |images|);
    match vm.batchAnswer(imageList, prompts)
    case Threw(f) =>
      r := Fail(500, ErrorInBatchImageChat(f));
    case Done(answers) =>
      var responses := FormatResponses(prompts, answers, clock);
      r := Ok(ResponsesBody(responses));
  }
}
