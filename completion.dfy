/** The pipeline's access to the language model: a completion request tried
    with three token-limit spellings in turn, and the clean-up of the reply
    text before it is parsed as JSON. The model itself is a parameter: a
    function from the token parameter of an attempt to what that attempt
    returned (the reply's text) or raised (the exception's message). */
module Completion {
  import opened Options
  import opened Seqs
  import opened Text

  /** How an attempt passes the caller's token limit to the backend. */
  datatype TokenParam =
    | MaxCompletionTokens(limit: int)
    | MaxTokens(limit: int)
    | NoTokenParam

  type Backend = TokenParam -> Fallible<string>

  /** The attempts in the order they are made. */
  function Attempts(limit: int): (a: seq<TokenParam>)
    ensures |a| == 3
  {
    [MaxCompletionTokens(limit), MaxTokens(limit), NoTokenParam]
  }

  const FirstFailedLead := "First attempt failed with max_completion_tokens: "
  const SecondFailedLead := "; Second attempt with max_tokens failed: "
  const ThirdFailedLead := "; Third attempt without token param failed: "

  /** The message of the exception raised when all three attempts fail. */
  function CombinedError(first: string, second: string, third: string): string {
    FirstFailedLead + first + SecondFailedLead + second + ThirdFailedLead + third
  }

  /** _chat_completion: each attempt runs only when every earlier one raised. */
  function ChatCompletion(backend: Backend, limit: int): Fallible<string> {
    match backend(MaxCompletionTokens(limit))
    case Returned(reply) => Returned(reply)
    case Raised(first) =>
      match backend(MaxTokens(limit))
      case Returned(reply) => Returned(reply)
      case Raised(second) =>
        match backend(NoTokenParam)
        case Returned(reply) => Returned(reply)
        case Raised(third) => Raised(CombinedError(first, second, third))
  }

  /** What trying a list of attempts in order until one succeeds yields. */
  datatype Outcome = Success(reply: string, at: nat) | AllFailed(errors: seq<string>)

  /** The reference definition of a retry loop: the first attempt that returns
      wins; otherwise the errors of all attempts, in order. */
  function FirstSuccess(backend: Backend, attempts: seq<TokenParam>): (o: Outcome)
    ensures o.Success? ==>
      && o.at < |attempts|
      && backend(attempts[o.at]) == Returned(o.reply)
      && forall i :: 0 <= i < o.at ==> backend(attempts[i]).Raised?
    ensures o.AllFailed? ==>
      && |o.errors| == |attempts|
      && forall i :: 0 <= i < |attempts| ==> backend(attempts[i]) == Raised(o.errors[i])
  {
    if attempts == [] then AllFailed([])
    else
      match backend(attempts[0])
      case Returned(reply) => Success(reply, 0)
      case Raised(e) =>
        match FirstSuccess(backend, attempts[1..])
        case Success(reply, at) => Success(reply, at + 1)
        case AllFailed(errors) => AllFailed([e] + errors)
  }

  /** _chat_completion is the retry loop over its three attempts: it returns the
      reply of the first attempt that succeeds, and raises, with the three
      messages in attempt order, only when all of them fail. */
  lemma ChatCompletionIsFirstSuccess(backend: Backend, limit: int)
    ensures match FirstSuccess(backend, Attempts(limit))
      case Success(reply, _) => ChatCompletion(backend, limit) == Returned(reply)
      case AllFailed(es) => ChatCompletion(backend, limit) == Raised(CombinedError(es[0], es[1], es[2]))
  {
    var a := Attempts(limit);
    assert a[1..][1..][1..] == [];
  }

  /** The completion succeeds exactly when some attempt does. */
  lemma ChatCompletionSucceedsIffSomeAttempt(backend: Backend, limit: int)
    ensures ChatCompletion(backend, limit).Returned? <==>
      exists i :: 0 <= i < 3 && backend(Attempts(limit)[i]).Returned?
  {
    var a := Attempts(limit);
    if ChatCompletion(backend, limit).Returned? {
      if backend(a[0]).Returned? {
      } else if backend(a[1]).Returned? {
      } else {
        assert backend(a[2]).Returned?;
      }
    }
  }

  /** The exception of a completion that fails names every attempt's error. */
  lemma CombinedErrorNamesEach(first: string, second: string, third: string)
    ensures Contains(CombinedError(first, second, third), first)
    ensures Contains(CombinedError(first, second, third), second)
    ensures Contains(CombinedError(first, second, third), third)
  {
    var a := FirstFailedLead + first;
    var b := a + SecondFailedLead + second;
    ContainsEnd(FirstFailedLead, first);
    ContainsLeft(a, SecondFailedLead + second + ThirdFailedLead + third, first);
    assert a + (SecondFailedLead + second + ThirdFailedLead + third) == CombinedError(first, second, third);
    ContainsEnd(a + SecondFailedLead, second);
    ContainsLeft(b, ThirdFailedLead + third, second);
    assert b + (ThirdFailedLead + third) == CombinedError(first, second, third);
    ContainsEnd(b + ThirdFailedLead, third);
  }

  // ------------------------------------------------------ reply clean-up

  const JsonFence := "```json"
  const Fence := "```"

  /** The slices that drop a leading "```json" or "```" and the last three
      characters, from a reply that is already stripped. */
  function Unfence(content: string): string {
    if StartsWith(content, JsonFence) then Slice(content, 7, -3)
    else if StartsWith(content, Fence) then Slice(content, 3, -3)
    else content
  }

  /** The reply text as both model-calling stages prepare it for json.loads. */
  function CleanReply(reply: string): string {
    Strip(Unfence(Strip(reply)))
  }

  lemma FenceEdges(open: string, body: string)
    requires open == JsonFence || open == Fence
    ensures var s := open + body + Fence;
      && StartsWith(s, open) && StartsWith(s, Fence)
      && Slice(s, |open|, -3) == body
      && Strip(s) == s
  {
    var s := open + body + Fence;
    assert s[..|open|] == open;
    assert s[..3] == Fence;
    assert s[|open|..|s| - 3] == body;
    StripTrimmed(s);
  }

  /** A reply wrapped in a ```json fence is cleaned to its stripped body. */
  lemma CleanJsonFenced(body: string)
    ensures CleanReply(JsonFence + body + Fence) == Strip(body)
  {
    FenceEdges(JsonFence, body);
  }

  /** So is one wrapped in a bare ``` fence, unless the body starts with "json",
      which is then taken for the fence's language tag. */
  lemma CleanFenced(body: string)
    requires !StartsWith(body, "json")
    ensures CleanReply(Fence + body + Fence) == Strip(body)
  {
    FenceEdges(Fence, body);
    NotJsonFenced(body);
  }

  lemma NotJsonFenced(body: string)
    requires !StartsWith(body, "json")
    ensures !StartsWith(Fence + body + Fence, JsonFence)
  {
    var s := Fence + body + Fence;
    if |body| >= 4 {
      assert s[3..7] == body[..4];
      assert JsonFence[3..7] == "json";
    } else {
      assert s[3 + |body|] == '`';
    }
  }

  lemma JsonFenceIsFence(s: string)
    ensures StartsWith(s, JsonFence) ==> StartsWith(s, Fence)
  {
    if StartsWith(s, JsonFence) {
      assert s[..3] == JsonFence[..3];
    }
  }

  /** A reply that does not start with a fence is only stripped. */
  lemma CleanUnfenced(reply: string)
    requires !StartsWith(Strip(reply), Fence)
    ensures CleanReply(reply) == Strip(reply)
  {
    JsonFenceIsFence(Strip(reply));
    StripIdempotent(reply);
  }

  /** The closing fence is not checked: an opening ```json without one still
      loses the last three characters of the body. */
  lemma CleanUnclosedJsonFence(body: string)
    requires |body| >= 3 && !IsSpace(body[|body| - 1])
    ensures CleanReply(JsonFence + body) == Strip(body[..|body| - 3])
  {
    var s := JsonFence + body;
    assert s[..7] == JsonFence;
    assert s[0] == '`';
    StripTrimmed(s);
    OpenedSlice(JsonFence, body);
  }

  lemma OpenedSlice(open: string, body: string)
    requires |body| >= 3
    ensures Slice(open + body, |open|, -3) == body[..|body| - 3]
  {
    assert (open + body)[|open|..|open + body| - 3] == body[..|body| - 3];
  }
}
