/**
 * The ReAct agent: the model node calls the language model on the history,
 * and while its reply requests tools the tools node answers them and hands
 * control back to the model. Only the `add` tool is registered with the
 * model and the tools node; `subtract` is defined but never offered.
 */
module React {
  import opened Messages

  const AddName := "add"
  const SubtractName := "subtract"

  /** The tools bound to the model and served by the tools node. */
  const Registered: seq<string> := [AddName]

  /** add: exact integer addition. */
  function Add(a: int, b: int): (sum: int)
    ensures sum - b == a && sum - a == b
  {
    a + b
  }

  /** subtract: exact integer subtraction, the inverse of add. */
  function Subtract(a: int, b: int): (difference: int)
    ensures Add(difference, b) == a
  {
    a - b
  }

  /** subtract is not among the registered tools, so the model is never offered it. */
  lemma SubtractNotRegistered()
    ensures SubtractName !in Registered
    ensures AddName in Registered
  {
  }

  // ---------------------------------------------------------------------------
  // Rendering a tool's integer result as the tool message text

  function DigitChar(d: nat): char
    requires d < 10
  {
    "0123456789"[d]
  }

  /** The decimal digits of n, most significant first. */
  function Digits(n: nat): (s: string)
    ensures |s| >= 1
    ensures forall i :: 0 <= i < |s| ==> '0' <= s[i] <= '9'
    decreases n
  {
    if n < 10 then [DigitChar(n)] else Digits(n / 10) + [DigitChar(n % 10)]
  }

  /** str(n) for a Python int. */
  function Decimal(n: int): (s: string)
    ensures |s| >= 1
    ensures (n < 0) <==> s[0] == '-'
  {
    if n < 0 then "-" + Digits(-n) else Digits(n)
  }

  /** The value a decimal string of digits stands for. */
  function DigitsValue(s: string): int
    decreases |s|
  {
    if s == [] then 0 else 10 * DigitsValue(s[..|s| - 1]) + (s[|s| - 1] as int - '0' as int)
  }

  /** Reading the digits back gives the number. */
  lemma {:induction false} DigitsRoundTrip(n: nat)
    ensures DigitsValue(Digits(n)) == n
    decreases n
  {
    if n >= 10 {
      DigitsStep(n);
      DigitsRoundTrip(n / 10);
    }
  }

  /** One unfolding of Digits and DigitsValue: the last digit is n % 10. */
  lemma DigitsStep(n: nat)
    requires n >= 10
    ensures DigitsValue(Digits(n)) == 10 * DigitsValue(Digits(n / 10)) + n % 10
  {
    var s := Digits(n);
    assert s[..|s| - 1] == Digits(n / 10);
    assert s[|s| - 1] == DigitChar(n % 10);
  }

  /** The text of a tool result identifies the integer: str is injective. */
  lemma DecimalInjective(m: int, n: int)
    requires Decimal(m) == Decimal(n)
    ensures m == n
  {
    assert (m < 0) == (n < 0);
    if m < 0 {
      NegativeDecimal(m);
      NegativeDecimal(n);
      DigitsInjective(-m, -n);
    } else {
      DigitsInjective(m, n);
    }
  }

  lemma NegativeDecimal(n: int)
    requires n < 0
    ensures Decimal(n)[1..] == Digits(-n)
  {
  }

  lemma DigitsInjective(a: nat, b: nat)
    requires Digits(a) == Digits(b)
    ensures a == b
  {
    DigitsRoundTrip(a);
    DigitsRoundTrip(b);
  }

  // ---------------------------------------------------------------------------
  // The tools node

  predicate IsAddCall(call: ToolCall) {
    call.name in Registered && call.name == AddName &&
    "a" in call.args && call.args["a"].Int? && "b" in call.args && call.args["b"].Int?
  }

  /**
   * One requested call answered by the tools node: an `add` call with two
   * integer arguments gets the decimal sum; anything else, `subtract`
   * included, gets the runtime's error text for an invalid call.
   */
  function CallResult(call: ToolCall, invalid: ToolCall -> string): (m: Message)
    ensures m.Tool? && m.toolCallId == call.id
    ensures IsAddCall(call) ==> m.content == Decimal(call.args["a"].number + call.args["b"].number)
  {
    if IsAddCall(call) then Tool(Decimal(Add(call.args["a"].number, call.args["b"].number)), call.id)
    else Tool(invalid(call), call.id)
  }

  /** A request for subtract is never computed. */
  lemma SubtractCallRejected(call: ToolCall, invalid: ToolCall -> string)
    requires call.name == SubtractName
    ensures CallResult(call, invalid) == Tool(invalid(call), call.id)
  {
    SubtractNotRegistered();
  }

  /** The tools node: one tool message per requested call, in order. */
  function ToolsStep(calls: seq<ToolCall>, invalid: ToolCall -> string): (results: seq<Message>)
    ensures |results| == |calls|
    ensures forall i :: 0 <= i < |calls| ==> results[i] == CallResult(calls[i], invalid)
  {
    if calls == [] then [] else [CallResult(calls[0], invalid)] + ToolsStep(calls[1..], invalid)
  }

  // ---------------------------------------------------------------------------
  // Routing and the model node

  /**
   * should_continue: reads the last message's tool calls, so it needs a
   * non-empty history ending in an AI message.
   */
  function ShouldContinue(messages: seq<Message>): (route: Route)
    requires messages != [] && messages[|messages| - 1].AI?
    ensures route == End <==> messages[|messages| - 1].toolCalls == []
  {
    if messages[|messages| - 1].toolCalls == [] then End else Continue
  }

  /**
   * model_call's update: exactly one message, the model's reply. The replies
   * are supplied in order, so the reply is taken as given rather than computed
   * from the history the node receives.
   */
  function ModelCall(history: seq<Message>, reply: Reply): (update: seq<Message>)
    ensures |update| == 1 && update[0] == AI(reply.content, reply.toolCalls)
  {
    [reply.AsMessage()]
  }

  /** The reducer adds the update after the history. */
  function Apply(history: seq<Message>, update: seq<Message>): (next: seq<Message>)
    ensures |next| == |history| + |update|
    ensures next[..|history|] == history && next[|history|..] == update
  {
    history + update
  }

  // ---------------------------------------------------------------------------
  // The run

  /**
   * How a run finishes: at END with the number of model calls made, or with
   * the supplied replies used up while the model still asked for tools.
   */
  datatype Outcome =
    | Answered(history: seq<Message>, modelCalls: nat)
    | OutOfReplies(history: seq<Message>)

  /**
   * The graph from the entry point model_call: the model replies; on
   * "continue" the tools node answers its calls and control returns to
   * model_call; on "end" the run stops.
   */
  function Run(history: seq<Message>, replies: seq<Reply>, invalid: ToolCall -> string): Outcome
    decreases |replies|
  {
    if replies == [] then OutOfReplies(history)
    else
      var next := Apply(history, ModelCall(history, replies[0]));
      if ShouldContinue(next) == End then Answered(next, 1)
      else
        match Run(Apply(next, ToolsStep(replies[0].toolCalls, invalid)), replies[1..], invalid)
        case Answered(h, n) => Answered(h, n + 1)
        case OutOfReplies(h) => OutOfReplies(h)
  }

  /** A reply that answers without requesting any tool. */
  predicate Final(reply: Reply) {
    reply.toolCalls == []
  }

  /** The position of the first final reply. */
  function FirstFinal(replies: seq<Reply>): (k: nat)
    requires exists i :: 0 <= i < |replies| && Final(replies[i])
    ensures k < |replies| && Final(replies[k])
    ensures forall i :: 0 <= i < k ==> !Final(replies[i])
  {
    if Final(replies[0]) then 0
    else
      assert exists i :: 0 <= i < |replies[1..]| && Final(replies[1..][i]) by {
        var i :| 0 <= i < |replies| && Final(replies[i]);
        assert i > 0 && replies[1..][i - 1] == replies[i];
      }
      1 + FirstFinal(replies[1..])
  }

  /** When the first reply is not final, a final reply lies in the rest. */
  lemma FinalInTail(replies: seq<Reply>)
    requires replies != [] && !Final(replies[0])
    ensures (exists i :: 0 <= i < |replies| && Final(replies[i])) <==>
            (exists i :: 0 <= i < |replies[1..]| && Final(replies[1..][i]))
  {
    var tail := replies[1..];
    if exists i :: 0 <= i < |replies| && Final(replies[i]) {
      var i :| 0 <= i < |replies| && Final(replies[i]);
      assert i > 0 && tail[i - 1] == replies[i];
    }
    if exists i :: 0 <= i < |tail| && Final(tail[i]) {
      var i :| 0 <= i < |tail| && Final(tail[i]);
      assert Final(replies[i + 1]);
    }
  }

  /**
   * The run terminates exactly when some reply requests no tool; it then
   * makes one model call per reply up to and including the first such reply,
   * and ends on that reply.
   */
  lemma {:induction false} RunAnswers(history: seq<Message>, replies: seq<Reply>, invalid: ToolCall -> string)
    ensures Run(history, replies, invalid).Answered? <==> exists i :: 0 <= i < |replies| && Final(replies[i])
    ensures Run(history, replies, invalid).Answered? ==>
      var o := Run(history, replies, invalid);
      var k := FirstFinal(replies);
      o.modelCalls == k + 1 && o.history != [] && o.history[|o.history| - 1] == replies[k].AsMessage()
    decreases |replies|
  {
    if replies != [] {
      var next := Apply(history, ModelCall(history, replies[0]));
      if ShouldContinue(next) != End {
        var tail := replies[1..];
        RunAnswers(Apply(next, ToolsStep(replies[0].toolCalls, invalid)), tail, invalid);
        FinalInTail(replies);
      }
    }
  }

  /** The run never drops or reorders the messages it started with. */
  lemma {:induction false} RunExtends(history: seq<Message>, replies: seq<Reply>, invalid: ToolCall -> string)
    ensures |history| <= |Run(history, replies, invalid).history|
    ensures Run(history, replies, invalid).history[..|history|] == history
    decreases |replies|
  {
    if replies != [] {
      var next := Apply(history, ModelCall(history, replies[0]));
      if ShouldContinue(next) != End {
        var after := Apply(next, ToolsStep(replies[0].toolCalls, invalid));
        RunExtends(after, replies[1..], invalid);
        var h := Run(after, replies[1..], invalid).history;
        assert after[..|history|] == history;
        assert h[..|history|] == h[..|after|][..|history|];
      }
    }
  }

  /**
   * Each continuing step adds the model's reply and then one tool message
   * per requested call, answering the calls in order.
   */
  lemma ContinuingStep(history: seq<Message>, reply: Reply, invalid: ToolCall -> string)
    requires !Final(reply)
    ensures var next := Apply(history, ModelCall(history, reply));
      ShouldContinue(next) == Continue &&
      Apply(next, ToolsStep(reply.toolCalls, invalid)) ==
        history + [reply.AsMessage()] + ToolsStep(reply.toolCalls, invalid)
  {
  }
}
