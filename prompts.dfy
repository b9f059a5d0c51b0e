/**
 * Which prompt string reaches the model: the last user message of a
 * conversation, and the default prompt wherever none is given.
 */
module Prompts {
  import opened Wrappers
  import opened Text
  import opened Schema

  const DefaultPrompt: string := "Describe this image."

  /** Python truthiness of an optional list: present and non-empty. */
  predicate Truthy<T>(xs: Option<seq<T>>) {
    xs.Some? && |xs.value| > 0
  }

  /** `[x for x in s if keep(x)]`. */
  function Filter<T>(s: seq<T>, keep: T -> bool): (r: seq<T>)
    ensures |r| <= |s|
    ensures forall k :: 0 <= k < |r| ==> keep(r[k]) && r[k] in s
  {
    if s == [] then []
    else (if keep(s[0]) then [s[0]] else []) + Filter(s[1..], keep)
  }

  /** The filter is empty exactly when no element is kept. */
  lemma {:induction false} FilterEmpty<T>(s: seq<T>, keep: T -> bool)
    ensures Filter(s, keep) == [] <==> forall k :: 0 <= k < |s| ==> !keep(s[k])
  {
    if s != [] {
      FilterEmpty(s[1..], keep);
      if !keep(s[0]) && Filter(s[1..], keep) == [] {
        forall k | 0 <= k < |s| ensures !keep(s[k]) {
          if k > 0 { assert s[k] == s[1..][k - 1]; }
        }
      }
    }
  }

  /** The last element of the filter is the last kept element of `s`. */
  lemma {:induction false} FilterLast<T>(s: seq<T>, keep: T -> bool, j: nat)
    requires j < |s| && keep(s[j])
    requires forall k :: j < k < |s| ==> !keep(s[k])
    ensures Filter(s, keep) != []
    ensures Filter(s, keep)[|Filter(s, keep)| - 1] == s[j]
  {
    var tail := Filter(s[1..], keep);
    if j == 0 {
      FilterEmpty(s[1..], keep);
      assert tail == [];
    } else {
      FilterLast(s[1..], keep, j - 1);
    }
  }

  /** `role.lower() == 'user'`. */
  predicate IsUserRole(role: string) {
    Lower(role) == "user"
  }

  /** chat_completion's test `msg.get('role', '').lower() == 'user'`. */
  predicate IsRawUser(m: RawMessage) {
    IsUserRole(m.role.GetOr(""))
  }

  /** batch_chat's test `msg.role.lower() == 'user'`. */
  predicate IsUser(m: Message) {
    IsUserRole(m.role)
  }

  /** chat_completion's prompt: the `content` of the last user message, with
      the default when there is no user message or it has no `content` key. */
  function CompletionPrompt(msgs: seq<RawMessage>): (p: string)
    ensures p == DefaultPrompt ||
      exists k :: 0 <= k < |msgs| && IsRawUser(msgs[k]) && msgs[k].content == Some(p)
  {
    var users := Filter(msgs, IsRawUser);
    if users != [] then users[|users| - 1].content.GetOr(DefaultPrompt) else DefaultPrompt
  }

  /** batch_chat's prompt for one request: the content of its last user
      message, or the default when it has none. */
  function RequestPrompt(msgs: seq<Message>): (p: string)
    ensures p == DefaultPrompt ||
      exists k :: 0 <= k < |msgs| && IsUser(msgs[k]) && msgs[k].content == p
  {
    var users := Filter(msgs, IsUser);
    if users != [] then users[|users| - 1].content else DefaultPrompt
  }

  /** The prompt batch_chat appends for image `idx`: taken from
      `chat_requests[idx]` when that entry exists, else the default. */
  function PromptFor(chatRequests: Option<seq<ImageChatRequest>>, idx: nat): (p: string)
    ensures chatRequests.Some? && idx < |chatRequests.value| ==>
      p == RequestPrompt(chatRequests.value[idx].messages)
    ensures !(chatRequests.Some? && idx < |chatRequests.value|) ==> p == DefaultPrompt
  {
    if Truthy(chatRequests) && |chatRequests.value| > idx
    then RequestPrompt(chatRequests.value[idx].messages)
    else DefaultPrompt
  }

  /** The prompts list batch_chat hands to the model for `n` images. */
  function ChatPrompts(chatRequests: Option<seq<ImageChatRequest>>, n: nat): (r: seq<string>)
    ensures |r| == n
    ensures forall i :: 0 <= i < n ==> r[i] == PromptFor(chatRequests, i)
    ensures chatRequests.None? ==> forall i :: 0 <= i < n ==> r[i] == DefaultPrompt
  {
    seq(n, i requires 0 <= i < n => PromptFor(chatRequests, i))
  }

  /** batch_describe's rejection test `prompts and len(prompts) != len(images)`. */
  predicate PromptsMismatch(prompts: Option<seq<string>>, imageCount: nat)
    ensures prompts.None? || prompts.value == [] ==> !PromptsMismatch(prompts, imageCount)
    ensures prompts.Some? && |prompts.value| == imageCount ==> !PromptsMismatch(prompts, imageCount)
  {
    Truthy(prompts) && |prompts.value| != imageCount
  }

  /** The prompts batch_describe passes to the model: the given list, or,
      when it is absent or empty, one default prompt per image. */
  function EffectivePrompts(prompts: Option<seq<string>>, imageCount: nat): (r: seq<string>)
    ensures !PromptsMismatch(prompts, imageCount) ==> |r| == imageCount
    ensures !Truthy(prompts) ==> forall i :: 0 <= i < |r| ==> r[i] == DefaultPrompt
    ensures Truthy(prompts) ==> r == prompts.value
  {
    if !Truthy(prompts) then seq(imageCount, _ => DefaultPrompt) else prompts.value
  }

  // ---------------------------------------------------------------------
  // Which message is chosen
  // ---------------------------------------------------------------------

  /** When message `j` is the last one whose role is "user" in any case,
      chat_completion's prompt is its content, or the default when the
      message has no `content` key. */
  lemma CompletionPromptIsLastUser(msgs: seq<RawMessage>, j: nat)
    requires j < |msgs| && IsRawUser(msgs[j])
    requires forall k :: j < k < |msgs| ==> !IsRawUser(msgs[k])
    ensures CompletionPrompt(msgs) == msgs[j].content.GetOr(DefaultPrompt)
  {
    FilterLast(msgs, IsRawUser, j);
  }

  /** With no user message, chat_completion falls back to the default. */
  lemma CompletionPromptWithoutUser(msgs: seq<RawMessage>)
    requires forall k :: 0 <= k < |msgs| ==> !IsRawUser(msgs[k])
    ensures CompletionPrompt(msgs) == DefaultPrompt
  {
    FilterEmpty(msgs, IsRawUser);
  }

  /** batch_chat: image `idx` takes the content of the last user message of
      `chat_requests[idx]` when that entry exists. */
  lemma PromptForIsLastUser(chatRequests: Option<seq<ImageChatRequest>>, idx: nat, j: nat)
    requires chatRequests.Some? && idx < |chatRequests.value|
    requires var msgs := chatRequests.value[idx].messages;
      j < |msgs| && IsUser(msgs[j]) && forall k :: j < k < |msgs| ==> !IsUser(msgs[k])
    ensures PromptFor(chatRequests, idx) == chatRequests.value[idx].messages[j].content
  {
    FilterLast(chatRequests.value[idx].messages, IsUser, j);
  }

  /** batch_chat: image `idx` takes the default prompt when there is no
      `chat_requests[idx]` or that request has no user message. */
  lemma PromptForDefault(chatRequests: Option<seq<ImageChatRequest>>, idx: nat)
    requires chatRequests.None? || idx >= |chatRequests.value|
      || forall k :: 0 <= k < |chatRequests.value[idx].messages| ==>
           !IsUser(chatRequests.value[idx].messages[k])
    ensures PromptFor(chatRequests, idx) == DefaultPrompt
  {
    if chatRequests.Some? && idx < |chatRequests.value| {
      FilterEmpty(chatRequests.value[idx].messages, IsUser);
    }
  }

  // ---------------------------------------------------------------------
  // The two endpoints agree
  // ---------------------------------------------------------------------

  /** A typed message seen as a message object with both keys present. */
  function AsRaw(m: Message): RawMessage {
    RawMessage(Some(m.role), Some(m.content))
  }

  function AllAsRaw(msgs: seq<Message>): (r: seq<RawMessage>)
    ensures |r| == |msgs|
  {
    seq(|msgs|, i requires 0 <= i < |msgs| => AsRaw(msgs[i]))
  }

  lemma {:induction false} FilterAllAsRaw(msgs: seq<Message>)
    ensures Filter(AllAsRaw(msgs), IsRawUser) == AllAsRaw(Filter(msgs, IsUser))
  {
    if msgs != [] {
      assert AllAsRaw(msgs)[1..] == AllAsRaw(msgs[1..]);
      FilterAllAsRaw(msgs[1..]);
      if IsUser(msgs[0]) {
        assert AllAsRaw([msgs[0]] + Filter(msgs[1..], IsUser))
          == [AsRaw(msgs[0])] + AllAsRaw(Filter(msgs[1..], IsUser));
      }
    }
  }

  /** For the same conversation, batch_chat and chat_completion choose the
      same prompt. */
  lemma SamePromptBothEndpoints(msgs: seq<Message>)
    ensures RequestPrompt(msgs) == CompletionPrompt(AllAsRaw(msgs))
  {
    FilterAllAsRaw(msgs);
  }
}
