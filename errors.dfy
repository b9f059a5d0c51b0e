/**
 * Exceptions and HTTP outcomes of the request layer. `HttpException`
 * mirrors FastAPI's exception (a status code and a detail); each `Detail`
 * constructor stands for one of the handlers' detail messages, carrying the
 * values the message interpolates; `Fault` is an exception raised inside a
 * handler's `try` block, which the handler's broad `except` re-reports.
 */
module Errors {

  datatype Fault =
    | Raised(exc: HttpException)      // an HTTPException raised inside the try block
    | Unreadable                      // file.read / Image.open / convert failed
    | MalformedJson                   // json.loads raised: the form field is not JSON
    | MalformedMessages               // the comprehension could not read the parsed value as messages
    | ModelFailure(reason: string)    // encode_image / answer_question / batch_answer raised
    | NameError(name: string)         // a name bound neither locally nor globally
    | AttributeError(typeName: string, attribute: string)
    | ValidationError(field: string)  // pydantic refused a value for a field of a response record

  datatype Detail =
    | InvalidFileType(contentType: string)                       // describe_image
    | InvalidFileTypeFor(filename: string, contentType: string)  // batch_describe
    | InvalidFileTypeForImage(position: int, contentType: string) // batch_chat, 1-based
    | NoImagesProvided
    | PromptCountMismatch(promptCount: int, imageCount: int)
    | ErrorProcessingImage(cause: Fault)                         // "Error processing image: ..."
    | ErrorProcessingBatch(cause: Fault)                         // "Error processing batch: ..."
    | ErrorInBatchImageChat(cause: Fault)                        // "Error in batch image chat: ..."
    | ServerError(cause: Fault)  // {"error": {"message": str(e), "type": "internal_error", "code": "server_error"}}

  datatype HttpException = HttpException(status: int, detail: Detail)

  /** What an opaque step (decoding, a model call) produced: a value or a fault. */
  datatype Outcome<+T> = Done(value: T) | Threw(fault: Fault)

  /** What a handler answers: a body (HTTP 200) or an HTTPException. */
  datatype Response<+T> = Ok(body: T) | Error(exc: HttpException)

  function Fail<T>(status: int, detail: Detail): Response<T> {
    Error(HttpException(status, detail))
  }
}
