# Moondream API server: request-shaping layer

A Dafny model of the part of the Moondream image-chat server (`app.py`) that
decides what happens to a request before and after the vision-language model
runs:

- which requests are rejected, and with which HTTP status (the content-type
  gate, the empty-batch and prompt-count checks, and the broad `except` blocks
  that turn every later failure, even an inner 400, into a 500);
- which prompt reaches the model for each image (the last message whose role
  is "user" in any case, else "Describe this image.");
- how batch_describe fills in default prompts;
- how usage records count whitespace-separated words, and how chat responses
  are assembled by position.

The model's three capabilities (`encode_image`, `answer_question`,
`batch_answer`) are function-valued fields of `Schema.VisionModel`. Each may
raise, and each is otherwise uninterpreted. Reading and decoding an upload is
the opaque `Upload.decoded` (`None` when it fails). The result of `json.loads`
is the `parsed` parameter: either invalid JSON (which fails at once), or a
value the user-message comprehension cannot read (which fails only when the
comprehension runs, after the image is read), or a list of message objects. `uuid.uuid4()` and `time.time()` are parameters
too: batch_chat reads the clock once per response entry, so it takes
`clock: nat -> int`, indexed by entry.

Modules, in dependency order:

- `Wrappers`: Option.
- `Text`: `str.split()` with Python's whitespace set, `str.lower()`, and
  `startswith`.
- `Errors`: HTTP exceptions, their details, and the faults raised inside
  `try` blocks.
- `Schema`: the `Message`, `Usage`, `Choice`, `ChatCompletionResponse` and
  `ImageChatRequest` records, uploads, and the model.
- `Prompts`: prompt selection and defaults.
- `Accounting`: usage records and response assembly.
- `Handlers`: the four endpoints, with chat_completion as evidently intended.
- `AsWritten`: chat_completion exactly as written, with the scopes its names
  resolve in and the name line 544 echoes as parameters.

The batch handlers build their lists by appending inside loops, so they are
methods with loop invariants. Everything else is a function.

Every request encodes its image again (`EncodeAndAnswer`).

## Model

| member | source | states |
|---|---|---|
| `Text.Words` | app.py:537-538 | `str.split()` yields only non-empty, whitespace-free words |
| `Text.WordsOfJoin` | app.py:537-538 | splitting words joined by single spaces returns exactly those words (round trip with `" ".join`) |
| `Text.WordsEmptyIffBlank` | app.py:537-538 | a text has zero words if and only if it is all whitespace |
| `Text.WordsKeepEveryNonSpace` | app.py:537-538 | the words, concatenated, are exactly the text's non-whitespace characters in order |
| `Text.Lower` | app.py:524 | `str.lower()` (also app.py:615) keeps the length and lower-cases each character, so only letters change |
| `Text.WordCount` | app.py:537-538 | `len(s.split())` (also app.py:643-645) is zero if and only if the text is all whitespace; `Text.WordsOfJoin` gives the count for text of single-space-separated words |
| `Text.UserInAnyCase` | app.py:524 | `role.lower() == "user"` holds exactly for the case variants of "user" |
| `Prompts.Filter` | app.py:524 | the list comprehension keeps only elements passing the test and never grows the list |
| `Prompts.FilterEmpty` | app.py:524-525 | the filtered list is empty if and only if no element passes |
| `Prompts.FilterLast` | app.py:613-617 | the last element of the filtered list is the last passing element of the input |
| `Prompts.CompletionPrompt` | app.py:524-525 | chat_completion's prompt is the default or the `content` of some message whose role is "user" in any case; which message is fixed by `Prompts.CompletionPromptIsLastUser` |
| `Prompts.RequestPrompt` | app.py:613-617 | a batch_chat request's prompt is the default or the content of one of its user messages; `Prompts.SamePromptBothEndpoints` ties it to chat_completion's choice |
| `Prompts.PromptFor` | app.py:612-619 | image `idx` takes the prompt of `chat_requests[idx]` when that entry exists, and the default when the list is absent, empty or too short |
| `Prompts.ChatPrompts` | app.py:599-621 | the prompts list has one prompt per image, the prompt of image `i` at position `i`, all defaults without `chat_requests` |
| `Prompts.PromptsMismatch` | app.py:264 | an absent or empty prompt list is never a mismatch, nor one as long as the image list |
| `Prompts.CompletionPromptIsLastUser` | app.py:524-525 | chat_completion's prompt is the content of the last message whose lower-cased role (absent means "") is "user", or the default when that message has no `content` key |
| `Prompts.CompletionPromptWithoutUser` | app.py:524-525 | with no user message, chat_completion's prompt is "Describe this image." |
| `Prompts.PromptForIsLastUser` | app.py:612-617 | in batch_chat, image `idx` takes the content of the last user message of `chat_requests[idx]` when that entry exists |
| `Prompts.PromptForDefault` | app.py:612-619 | in batch_chat, image `idx` takes the default prompt when `chat_requests` is absent, too short, or that entry has no user message |
| `Prompts.EffectivePrompts` | app.py:285-286 | once the prompt count is validated, batch_describe hands the model exactly one prompt per image: the caller's list, or all defaults when the list is absent or empty |
| `Prompts.SamePromptBothEndpoints` | app.py:613-617 | for the same conversation, batch_chat and chat_completion choose the same prompt |
| `Accounting.MakeUsage` | app.py:555-559 | prompt and completion tokens are the word counts of prompt and answer, and total_tokens is their sum |
| `Accounting.UsageCountsWords` | app.py:537-538 | for texts of whole words separated by single spaces, the usage counts are the numbers of words |
| `Accounting.BlankAnswerIsFree` | app.py:643-645 | an answer costs zero completion tokens if and only if it is all whitespace |
| `Accounting.CompletionResponse` | app.py:541-560 | the completion has id "chatcmpl-" + uuid, object "chat.completion", and exactly one choice with index 0, role "assistant", the answer as content and finish_reason "stop" |
| `Accounting.BatchEntry` | app.py:634-647 | a batch_chat entry records its position as image_index, model "moondream-v2", the clock reading, the assistant answer and its usage |
| `Accounting.FormatResponses` | app.py:632-647 | the zip loop builds one entry per (prompt, answer) pair, in order, as many as the shorter list, entry i having image_index i |
| `Handlers.IsImageType` | app.py:216 | the content-type gate (also app.py:275 and app.py:600) accepts exactly the types whose first six characters are "image/" |
| `Handlers.DecodedImages` | app.py:609 | the image list (also app.py:283) has one decoded image per upload, in upload order |
| `Handlers.EncodeAndAnswer` | app.py:529-534 | (also app.py:232-234) a failed encoding is the fault of the call, with the model never asked; otherwise the result is the model's answer to the prompt about the encoded image |
| `Handlers.DescribeImage` | app.py:212-247 | 400 if and only if the content type does not start with "image/", before any read and whatever the data; every later failure is a 500 carrying its fault (unreadable image, or the model's own); success exactly when decoding, encoding and answering all succeed, the description being the answer to "Describe this image." |
| `Handlers.DescribeRejectsBeforeReading` | app.py:216-219 | rejection by content type depends on nothing but the content type (not the data, not the model) |
| `Handlers.BatchDescribeRejection` | app.py:259-267 | batch_describe rejects with 400 exactly when there are no images, or the prompt list is non-empty and its length differs from the image count |
| `Handlers.BatchDescribe` | app.py:252-310 | 400 exactly for the validation failures; otherwise the first non-image or unreadable upload gives a 500 wrapping its fault (a non-image's inner 400 included); with all images usable the model gets the decoded images in order and one prompt per image, and its answers or fault are returned |
| `Handlers.ChatCompletion` | app.py:504-562 | never a 400, and every error is a 500 in OpenAI's error shape, carrying the first fault in app.py's order: invalid JSON, then an unreadable image, then messages the comprehension cannot read, then the model's own fault; success exactly when all of these pass, with the response built from the chosen prompt and the answer |
| `Handlers.ChatCompletionShape` | app.py:545-559 | a successful completion has one choice, index 0, role "assistant", finish_reason "stop", usage counting the prompt's and answer's words with total = sum |
| `Handlers.BatchChat` | app.py:581-655 | 400 if and only if no images; the first non-image or unreadable upload gives a 500 wrapping its fault (non-image carries its 1-based position); otherwise the model gets the decoded images and one prompt per image in order, and the responses pair prompts with answers by position |
| `AsWritten.Resolve` | app.py:504-510 | a name in a handler body is a local if the handler binds it, else a module global, else unbound |
| `AsWritten.ChatCompletionAsWritten` | app.py:515-576 | as written, chat_completion only ever fails with 500, with a NameError on `json` whenever `json` is unbound, and succeeds only when line 544 echoes the form string, which it then returns as the response's `model` |
| `AsWritten.AsWrittenJsonUnbound` | app.py:517 | with app.py's imports, every request fails at `json.loads` with NameError, reported as 500 |
| `AsWritten.AsWrittenModelShadowed` | app.py:529 | with app.py's locals, `json` available, parseable messages and a readable image, chat_completion fails with AttributeError on `str.encode_image` |
| `AsWritten.AsWrittenNeverAnswers` | app.py:529-544 | while line 544 passes the name `model`, no module or local scope makes chat_completion answer 200: when `model` is the global model, inference runs and the response fails validation of its `model: str` field |
| `AsWritten.FixedNamesGiveChatCompletion` | app.py:504-562 | with `json` imported, the form parameter renamed so `model` is the global model at line 529, and line 544 echoing the renamed form field, the handler is exactly `Handlers.ChatCompletion` |

## Left out

- Model and tokenizer loading, device placement, CUDA memory reporting (app.py:170-207): foreign library calls and floating point.
- The health check (app.py:312-410) and `test_pytorch-cuda.py`: environment diagnostics.
- The inference itself (`encode_image`, `answer_question`, `batch_answer`): uninterpreted fields of `VisionModel`, each of which may fail.
- File reading and PIL decoding: one opaque outcome per upload (`Upload.decoded`). How a bad file fails is not modelled, only that it fails.
- `json.loads`: an opaque outcome (`parsed`) with three cases, and no JSON text is parsed. A `content` value that is present but not a string is not modelled.
- An upload whose content type is missing (`None`, which would make `startswith` raise): content types are strings here.
- FastAPI routing, form and pydantic parsing, CORS, logging and printing. Pydantic validation of a response record appears once, as `ValidationError`, where chat_completion as written would pass a non-string `model`.
- `temperature` and `max_tokens` (form fields and `ImageChatRequest` fields): the handlers accept them and never read them, so the model omits them.
- Exception details are a datatype with one constructor per message template, holding the values the template interpolates. The formatted strings themselves, including Starlette's `str(HTTPException)` rendering, are not built.
- `Text.Lower`: lower-cases ASCII letters only. This matches Python's `str.lower()` for the one use made of it, a comparison with "user".

## Findings

| source | as written | input that shows it | evidently intended | confidence | as-written member | corrected member |
|---|---|---|---|---|---|---|
| app.py:517 | `json.loads(messages)` is called, but `json` is never imported (app.py:48-62), so a NameError is raised inside the try and reported as HTTP 500 | any request to /v1/chat/completions | parse the messages with the `json` module | not executed | `AsWritten.AsWrittenJsonUnbound` | `Handlers.ChatCompletion` |
| app.py:507 | the form parameter `model: str` shadows the module-level model, so `model.encode_image(image)` (app.py:529) raises AttributeError on a string, reported as HTTP 500; renaming the parameter alone moves the failure to `model=model` (app.py:544), which hands the model object to a `str` field | any request with well-formed messages and a readable image, once `json` is imported | run inference with the global model and echo the form value as the response's `model` | not executed | `AsWritten.AsWrittenModelShadowed` | `Handlers.ChatCompletion` |
