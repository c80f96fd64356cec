/**
  The assistant's conversation: the global message log, the request loop
  that answers a user message, follows the model's function calls through
  the plugin registry and records the function messages, and the parsing
  of the HTTP status code out of a chat-completion error.

  The chat-completion service is a script: the replies it will give, in
  order, each a reply or an error text.  A request takes the next reply;
  once the script is used up every request fails.  The model's choice of
  reply does not depend on the log here.
*/
module Conversation {
  import opened GoStrings
  import opened Wrappers
  import opened Messages
  import opened Plugins

  /** The first choice of a chat-completion response. */
  datatype ModelReply =
    | Answer(content: string)
    | CallFunction(content: string, name: string, arguments: string)

  type Script = seq<Result<ModelReply, string>>

  /** The error of a request made after the script is used up. */
  const NoReply: string := "no reply"

  /** The name under which a plugin's JSON response enters the log. */
  const FunctionResultName: string := "functionName"

  const SystemPrompt: string := "\n你是一个名为小丸的多才多艺的AI助手。你启动时的首要任务是“激活”你的记忆，即立即回忆并熟悉与用户及其偏好最相关的数据。这有助于个性化并增强用户互动。\n\n利用可用的插件套件提供最佳解决方案。你可以：\n- 对于简单任务，单独使用插件。\n- 对于复杂任务，串联多个插件。\n\n例如：如果被告知“明天，我需要做X”，结合日期时间插件确定日期和记忆插件来保存任务。\n\n存储和检索信息是你角色的关键。凭借你的能力，确保用户相关数据的保存和检索。优先捕获重要和次要的细节，增强你的记忆深度。保存任何细节时，总是包含其上下文。例如，如果用户提到他们喜欢咖啡，记得当时表达的情景或情感。这样的上下文在后续交互中是无价的。\n\n在接收到用户输入之前，你必须做的第一件事就是使用记忆插件来激活你的记忆。这将使你能够为用户提供最好的可能体验。\n\n"

  function SystemMessage(content: string): ChatMessage
  {
    ChatMessage(RoleSystem, content, [])
  }

  /** What answering one request leaves behind: the messages appended to the log, the unused
      script, and the content or the error returned. */
  datatype Turn = Turn(appended: seq<ChatMessage>, rest: Script, content: string, err: Option<string>)

  /** `sendMessage`: one request, and the function calls it leads to. */
  function Answered(reg: Registry, script: Script): Turn
    reads reg
    decreases |script|, 0
  {
    if script == [] then Turn([], [], [], Some(NoReply))
    else
      match script[0]
      case Failure(e) => Turn([], script[1..], [], Some(e))
      case Success(Answer(c)) => Turn([], script[1..], c, None)
      case Success(CallFunction(c, name, args)) => Called(reg, c, name, args, script[1..])
  }

  /** `handleFunctionCall`: an unknown function ends the turn with an error and appends nothing;
      a loaded plugin is called, the call and the plugin's response are appended, and the request
      is made again. */
  function Called(reg: Registry, content: string, name: string, args: string, script: Script): Turn
    reads reg
    decreases |script|, 1
  {
    if !reg.IsPluginLoaded(name) then Turn([], script, [], Some("no plugin loaded with name " + name))
    else
      var msgs := [ChatMessage(RoleFunction, content, name),
                   ChatMessage(RoleFunction, Marshal(reg.CallPlugin(name, args)), FunctionResultName)];
      var t := Answered(reg, script);
      Turn(msgs + t.appended, t.rest, t.content, t.err)
  }

  /** Function messages in pairs: the call, named after a loaded plugin, then its response. */
  predicate FunctionPairs(reg: Registry, msgs: seq<ChatMessage>)
    reads reg
  {
    && |msgs| % 2 == 0
    && (forall k :: 0 <= k < |msgs| ==> msgs[k].role == RoleFunction)
    && (forall k :: 0 <= k < |msgs| && k % 2 == 0 ==> reg.IsPluginLoaded(msgs[k].name))
    && (forall k :: 0 <= k < |msgs| && k % 2 == 1 ==> msgs[k].name == FunctionResultName)
  }

  /** What every turn leaves behind: the unused script is a suffix of the script; only
      function-message pairs are appended; an error comes with empty content; and a successful
      turn returns the content of the last reply it used, a plain answer. */
  predicate TurnFrom(reg: Registry, script: Script, t: Turn)
    reads reg
  {
    && |t.rest| <= |script|
    && t.rest == script[|script| - |t.rest|..]
    && FunctionPairs(reg, t.appended)
    && (t.err.Some? ==> t.content == [])
    && (t.err.None? ==> |t.rest| < |script| && script[|script| - |t.rest| - 1] == Success(Answer(t.content)))
  }

  /** A request uses up at least one reply when there is one. */
  lemma {:induction false} AnsweredShape(reg: Registry, script: Script)
    ensures TurnFrom(reg, script, Answered(reg, script))
    ensures script != [] ==> |Answered(reg, script).rest| < |script|
    decreases |script|, 0
  {
    if script != [] {
      match script[0]
      case Failure(e) =>
      case Success(Answer(c)) =>
      case Success(CallFunction(c, name, args)) =>
        CalledShape(reg, c, name, args, script[1..]);
        var t := Called(reg, c, name, args, script[1..]);
        assert script[1..][|script[1..]| - |t.rest|..] == script[|script| - |t.rest|..];
        if t.err.None? {
          assert script[1..][|script[1..]| - |t.rest| - 1] == script[|script| - |t.rest| - 1];
        }
    }
  }

  /** A call of an unknown function appends nothing and fails; a call of a loaded plugin starts
      the appended messages with the call itself. */
  lemma {:induction false} CalledShape(reg: Registry, content: string, name: string, args: string, script: Script)
    ensures TurnFrom(reg, script, Called(reg, content, name, args, script))
    ensures !reg.IsPluginLoaded(name) ==>
      Called(reg, content, name, args, script) == Turn([], script, [], Some("no plugin loaded with name " + name))
    ensures reg.IsPluginLoaded(name) ==>
      |Called(reg, content, name, args, script).appended| >= 2
      && Called(reg, content, name, args, script).appended[0] == ChatMessage(RoleFunction, content, name)
    decreases |script|, 1
  {
    if reg.IsPluginLoaded(name) {
      AnsweredShape(reg, script);
      var u := Answered(reg, script);
      PairsPrepend(reg, ChatMessage(RoleFunction, content, name),
        ChatMessage(RoleFunction, Marshal(reg.CallPlugin(name, args)), FunctionResultName), u.appended);
    } else {
      assert script[|script| - |script|..] == script;
    }
  }

  lemma FailedTurnIsEmpty(reg: Registry, script: Script)
    ensures Answered(reg, script).err.Some? ==> Answered(reg, script).content == []
  {
    AnsweredShape(reg, script);
  }

  lemma PairsPrepend(reg: Registry, call: ChatMessage, response: ChatMessage, msgs: seq<ChatMessage>)
    requires FunctionPairs(reg, msgs)
    requires call.role == RoleFunction && reg.IsPluginLoaded(call.name)
    requires response.role == RoleFunction && response.name == FunctionResultName
    ensures FunctionPairs(reg, [call, response] + msgs)
  {
    var all := [call, response] + msgs;
    assert forall k :: 2 <= k < |all| ==> all[k] == msgs[k - 2];
    forall k | 0 <= k < |all| && k % 2 == 0 ensures reg.IsPluginLoaded(all[k].name) {
      if k >= 2 { assert (k - 2) % 2 == 0; }
    }
    forall k | 0 <= k < |all| && k % 2 == 1 ensures all[k].name == FunctionResultName {
      if k >= 2 { assert (k - 2) % 2 == 1; }
    }
  }

  // ---------------------------------------------------------------------
  // The assistant

  class Assistant {
    /** `conversation`: the log sent with every request. */
    var conversation: seq<ChatMessage>
    /** The replies the chat-completion service has left to give. */
    var script: Script
    /** The plugins the model may call. */
    const registry: Registry

    constructor (registry: Registry, script: Script)
      ensures this.registry == registry && this.script == script && conversation == []
    {
      this.registry := registry;
      this.script := script;
      conversation := [];
    }

    /** `appendMessage`: one message at the end, nothing else changes. */
    method AppendMessage(role: string, message: string, name: string)
      modifies this
      ensures conversation == old(conversation) + [ChatMessage(role, message, name)]
      ensures script == old(script)
    {
      conversation := conversation + [ChatMessage(role, message, name)];
    }

    /** `resetConversation`. */
    method ResetConversation()
      modifies this
      ensures conversation == []
      ensures script == old(script)
    {
      conversation := [];
    }

    /** `sendRequestToOpenAI`: the next reply of the script. */
    method SendRequestToOpenAI() returns (r: Result<ModelReply, string>)
      modifies this
      ensures old(script) == [] ==> r == Failure(NoReply) && script == []
      ensures old(script) != [] ==> r == old(script)[0] && script == old(script)[1..]
      ensures conversation == old(conversation)
    {
      if script == [] {
        return Failure(NoReply);
      }
      r := script[0];
      script := script[1..];
    }

    method HandleFunctionCall(content: string, name: string, arguments: string) returns (text: string, err: Option<string>)
      modifies this
      ensures var t := Called(registry, content, name, arguments, old(script));
        conversation == old(conversation) + t.appended && script == t.rest && text == t.content && err == t.err
      decreases |script|
    {
      if !registry.IsPluginLoaded(name) {
        return [], Some("no plugin loaded with name " + name);
      }
      var jsonResponse := Marshal(registry.CallPlugin(name, arguments));
      AppendMessage(RoleFunction, content, name);
      AppendMessage(RoleFunction, jsonResponse, FunctionResultName);
      var resp := SendRequestToOpenAI();
      if resp.Failure? {
        return [], Some(resp.error);
      }
      match resp.value
      case CallFunction(c, n, args) =>
        text, err := HandleFunctionCall(c, n, args);
      case Answer(c) =>
        return c, None;
    }

    method SendMessage() returns (text: string, err: Option<string>)
      modifies this
      ensures var t := Answered(registry, old(script));
        conversation == old(conversation) + t.appended && script == t.rest && text == t.content && err == t.err
    {
      var resp := SendRequestToOpenAI();
      if resp.Failure? {
        return [], Some(resp.error);
      }
      match resp.value
      case CallFunction(c, name, args) =>
        text, err := HandleFunctionCall(c, name, args);
        CalledShape(registry, c, name, args, old(script)[1..]);
        if err.Some? {
          return [], err;
        }
      case Answer(c) =>
        return c, None;
    }

    /** `restartConversation`: the log starts afresh with the system prompt, and the reply is
        appended even when the request fails, as empty content. */
    method RestartConversation()
      modifies this
      ensures var t := Answered(registry, old(script));
        conversation == [SystemMessage(SystemPrompt)] + t.appended + [AssistantMessage(t.content)]
        && script == t.rest
    {
      ResetConversation();
      AppendMessage(RoleSystem, SystemPrompt, []);
      var response, err := SendMessage();
      AppendMessage(RoleAssistant, response, []);
    }

    /** `Message`: the user's message is appended first; the reply is appended and returned only
        when the turn succeeds. */
    method Message(message: string) returns (response: string, err: Option<string>)
      modifies this
      ensures var t := Answered(registry, old(script));
        && script == t.rest
        && response == t.content && err == t.err
        && conversation == old(conversation) + [UserMessage(message)] + t.appended
             + (if t.err.None? then [AssistantMessage(t.content)] else [])
    {
      AppendMessage(RoleUser, message, []);
      FailedTurnIsEmpty(registry, script);
      response, err := SendMessage();
      if err.Some? {
        return [], err;
      }
      AppendMessage(RoleAssistant, response, []);
    }
  }

  // ---------------------------------------------------------------------
  // Status codes of chat-completion errors

  const StatusCodeLabel: string := "status code: "

  /** The largest `int` on a 64-bit platform, where `strconv.Atoi` saturates. */
  const MaxInt: nat := 0x7fff_ffff_ffff_ffff

  predicate IsDigit(c: char)
  {
    '0' <= c <= '9'
  }

  predicate AllDigits(s: string)
  {
    forall k :: 0 <= k < |s| ==> IsDigit(s[k])
  }

  /** The regular expression `status code: (\d+)` matches at `i`. */
  predicate MatchesAt(s: string, i: nat)
  {
    OccursAt(s, StatusCodeLabel, i) && i + |StatusCodeLabel| < |s| && IsDigit(s[i + |StatusCodeLabel|])
  }

  /** The leftmost match at or after `from`. */
  function FirstMatch(s: string, from: nat): (r: Option<nat>)
    requires from <= |s|
    ensures r.None? ==> forall i :: from <= i ==> !MatchesAt(s, i)
    ensures r.Some? ==> from <= r.value && MatchesAt(s, r.value)
    ensures r.Some? ==> forall i :: from <= i < r.value ==> !MatchesAt(s, i)
    decreases |s| - from
  {
    if MatchesAt(s, from) then Some(from)
    else if from == |s| then None
    else FirstMatch(s, from + 1)
  }

  /** The length of the run of digits starting at `j`, as `\d+` takes it greedily. */
  function DigitRun(s: string, j: nat): (r: nat)
    requires j <= |s|
    ensures j + r <= |s| && AllDigits(s[j..j + r])
    ensures j + r == |s| || !IsDigit(s[j + r])
    decreases |s| - j
  {
    if j < |s| && IsDigit(s[j]) then 1 + DigitRun(s, j + 1) else 0
  }

  /** The number a string of decimal digits denotes. */
  function DecimalValue(d: string): nat
    requires AllDigits(d)
  {
    if d == [] then 0 else DecimalValue(d[..|d| - 1]) * 10 + (d[|d| - 1] as int - '0' as int)
  }

  /** `strconv.Atoi` of a digit string: its value, saturated at the largest `int`. */
  function Atoi(d: string): (r: int)
    requires AllDigits(d)
    ensures 0 <= r <= MaxInt
    ensures DecimalValue(d) <= MaxInt ==> r == DecimalValue(d)
  {
    if DecimalValue(d) > MaxInt then MaxInt else DecimalValue(d)
  }

  /** `parseOpenAIError`: the number after the first `status code: `, or 0 without one. */
  function ParseOpenAIError(err: string): (code: int)
    ensures 0 <= code <= MaxInt
    ensures (forall i :: !MatchesAt(err, i)) ==> code == 0
  {
    match FirstMatch(err, 0)
    case None => 0
    case Some(i) =>
      var j := i + |StatusCodeLabel|;
      Atoi(err[j..j + DigitRun(err, j)])
  }

  /** The decimal text of a number, without leading zeros. */
  function Decimal(n: nat): (r: string)
    ensures |r| >= 1 && AllDigits(r)
  {
    if n < 10 then [('0' as int + n) as char] else Decimal(n / 10) + [('0' as int + n % 10) as char]
  }

  lemma {:induction false} DecimalRoundTrip(n: nat)
    ensures DecimalValue(Decimal(n)) == n
  {
    if n >= 10 {
      DecimalRoundTrip(n / 10);
      var d := Decimal(n);
      assert d[..|d| - 1] == Decimal(n / 10);
    }
  }

  /** A run of digits ended by a non-digit is taken whole. */
  lemma DigitRunOf(s: string, j: nat, d: string)
    requires j + |d| <= |s| && s[j..j + |d|] == d && AllDigits(d)
    requires j + |d| == |s| || !IsDigit(s[j + |d|])
    ensures DigitRun(s, j) == |d|
    decreases |d|
  {
    if |d| > 0 {
      assert s[j] == d[0];
      assert s[j + 1..j + |d|] == d[1..];
      DigitRunOf(s, j + 1, d[1..]);
    }
  }

  /** The status code of an error that carries it after `status code: ` is read back exactly,
      as long as nothing earlier matches and the number fits an `int`. */
  lemma ParseStatusCode(pre: string, n: nat, post: string)
    requires n <= MaxInt
    requires post == [] || !IsDigit(post[0])
    requires forall i :: 0 <= i < |pre| ==> !MatchesAt(pre + StatusCodeLabel + Decimal(n) + post, i)
    ensures ParseOpenAIError(pre + StatusCodeLabel + Decimal(n) + post) == n
  {
    var d := Decimal(n);
    var s := pre + StatusCodeLabel + d + post;
    var j := |pre| + |StatusCodeLabel|;
    assert s[|pre|..j] == StatusCodeLabel;
    assert s[j] == d[0];
    assert MatchesAt(s, |pre|);
    assert FirstMatch(s, 0) == Some(|pre|);
    assert s[j..j + |d|] == d;
    if post != [] {
      assert s[j + |d|] == post[0];
    }
    DigitRunOf(s, j, d);
    DecimalRoundTrip(n);
  }

  /** The advice `openaiError` prints. */
  datatype ErrorAdvice = InvalidKey | UnknownError(code: int)

  /** `openaiError`: the invalid-key advice for status 401 only. */
  function OpenAIError(err: string): (r: ErrorAdvice)
    ensures r == InvalidKey <==> ParseOpenAIError(err) == 401
    ensures r.UnknownError? ==> r.code == ParseOpenAIError(err)
  {
    var code := ParseOpenAIError(err);
    if code == 401 then InvalidKey else UnknownError(code)
  }
}
