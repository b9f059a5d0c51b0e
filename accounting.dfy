/**
 * Token accounting and the assembly of the chat responses: the `Usage`
 * record counts whitespace-separated words, and responses are built from
 * (prompt, answer) pairs by position.
 */
module Accounting {
  import opened Text
  import opened Schema

  const ModelTag: string := "moondream-v2"
  const AssistantRole: string := "assistant"
  const FinishStop: string := "stop"
  const CompletionObject: string := "chat.completion"
  const CompletionIdPrefix: string := "chatcmpl-"

  /** The usage record of a prompt and its answer. */
  function MakeUsage(prompt: string, completion: string): (u: Usage)
    ensures u.promptTokens == WordCount(prompt) >= 0
    ensures u.completionTokens == WordCount(completion) >= 0
    ensures u.totalTokens == u.promptTokens + u.completionTokens
  {
    var p, c := WordCount(prompt), WordCount(completion);
    Usage(p, c, p + c)
  }

  /** Token counts are word counts: for texts made of whole words separated
      by single spaces, they are the numbers of words. */
  lemma UsageCountsWords(promptWords: seq<string>, answerWords: seq<string>)
    requires forall k :: 0 <= k < |promptWords| ==> IsWord(promptWords[k])
    requires forall k :: 0 <= k < |answerWords| ==> IsWord(answerWords[k])
    ensures MakeUsage(JoinWords(promptWords), JoinWords(answerWords))
      == Usage(|promptWords|, |answerWords|, |promptWords| + |answerWords|)
  {
    WordsOfJoin(promptWords);
    WordsOfJoin(answerWords);
  }

  /** An all-whitespace answer costs no completion tokens, and only such an
      answer does. */
  lemma BlankAnswerIsFree(prompt: string, answer: string)
    ensures MakeUsage(prompt, answer).completionTokens == 0 <==> IsBlank(answer)
  {
    WordsEmptyIffBlank(answer);
  }

  /** chat_completion's OpenAI-style response. */
  function CompletionResponse(requestId: string, created: int, model: string,
                              prompt: string, answer: string): (r: ChatCompletionResponse)
    ensures r.id == CompletionIdPrefix + requestId && r.objectType == CompletionObject
    ensures r.created == created && r.model == model
    ensures |r.choices| == 1
    ensures r.choices[0].index == 0 && r.choices[0].finishReason == FinishStop
    ensures r.choices[0].message == Message(AssistantRole, answer)
    ensures r.usage == MakeUsage(prompt, answer)
  {
    ChatCompletionResponse(
      CompletionIdPrefix + requestId, CompletionObject, created, model,
      [Choice(0, Message(AssistantRole, answer), FinishStop)],
      MakeUsage(prompt, answer))
  }

  /** batch_chat's response for the pair at position `idx`. */
  function BatchEntry(idx: nat, prompt: string, answer: string, created: int): (e: BatchChatEntry)
    ensures e.imageIndex == idx && e.model == ModelTag && e.created == created
    ensures e.response == Message(AssistantRole, answer)
    ensures e.usage == MakeUsage(prompt, answer)
  {
    BatchChatEntry(idx, ModelTag, created, Message(AssistantRole, answer), MakeUsage(prompt, answer))
  }

  function Min(a: nat, b: nat): nat {
    if a <= b then a else b
  }

  /** batch_chat's loop over `zip(prompts, answers)`: one entry per pair, in
      order, as many as the shorter list. `clock(idx)` is the reading of
      `int(time.time())` taken while building entry `idx`. */
  method FormatResponses(prompts: seq<string>, answers: seq<string>, clock: nat -> int)
    returns (responses: seq<BatchChatEntry>)
    ensures |responses| == Min(|prompts|, |answers|)
    ensures forall i :: 0 <= i < |responses| ==>
      responses[i] == BatchEntry(i, prompts[i], answers[i], clock(i))
  {
    responses := [];
    var idx := 0;
    while idx < |prompts| && idx < |answers|
      invariant 0 <= idx <= Min(|prompts|, |answers|)
      invariant |responses| == idx
      invariant forall i :: 0 <= i < idx ==>
        responses[i] == BatchEntry(i, prompts[i], answers[i], clock(i))
    {
      responses := responses + [BatchEntry(idx, prompts[idx], answers[idx], clock(idx))];
      idx := idx + 1;
    }
  }
}
