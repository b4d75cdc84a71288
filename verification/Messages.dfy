/** The chat messages the engine and the context window exchange, and what it means
    for tool calls and tool results to be paired. */
module Messages {
  import opened Common
  import opened TokenEstimate

  const CONTINUATION_PROMPT :=
    "Continue exactly where the previous response was cut off. Do not restart, "
    + "repeat headings, summarize earlier content, or mention the interruption. "
    + "Return only the missing continuation and finish the answer."

  datatype ToolCall = ToolCall(id: string, name: string, arguments: string)

  /** What a model call returns; usage is prompt and completion tokens. */
  datatype TurnResult =
    TurnResult(content: string, toolCalls: seq<ToolCall>, finishReason: Option<string>, usage: Option<(int, int)>)

  /** An absent content is the empty string here: the source stores `content or None` and reads it with `or ""`. */
  datatype Message =
    | System(content: string)
    | User(content: string)
    | Assistant(content: string, calls: seq<ToolCall>)
    | Tool(callId: string, content: string)

  /** A list object: appended to and overwritten in place, and possibly shared. */
  class MessageList {
    var items: seq<Message>

    constructor (items: seq<Message>)
      ensures this.items == items
    {
      this.items := items;
    }
  }

  predicate IsGroupHead(m: Message) {
    m.Assistant? && m.calls != []
  }

  predicate IsContinuationPair(m: Message, next: Message) {
    m.Assistant? && m.calls == [] && next == User(CONTINUATION_PROMPT)
  }

  /** ms starts with exactly the results of the calls, in call order. */
  predicate AnswersAll(calls: seq<ToolCall>, ms: seq<Message>) {
    |calls| <= |ms| && forall i :: 0 <= i < |calls| ==> ms[i].Tool? && ms[i].callId == calls[i].id
  }

  /** Each assistant message with tool calls is followed at once by its results, and there is no other tool message. */
  predicate WellPaired(ms: seq<Message>)
    decreases |ms|
  {
    if ms == [] then true
    else if ms[0].Tool? then false
    else if IsGroupHead(ms[0]) then
      AnswersAll(ms[0].calls, ms[1..]) && WellPaired(ms[1 + |ms[0].calls|..])
    else WellPaired(ms[1..])
  }

  lemma AnswersInFront(calls: seq<ToolCall>, ms: seq<Message>, more: seq<Message>)
    requires AnswersAll(calls, ms)
    ensures AnswersAll(calls, ms + more)
  {
  }

  lemma {:induction false} WellPairedAppend(a: seq<Message>, b: seq<Message>)
    requires WellPaired(a) && WellPaired(b)
    ensures WellPaired(a + b)
    decreases |a|
  {
    if a == [] {
      assert a + b == b;
    } else {
      hide AnswersAll;
      var n := if IsGroupHead(a[0]) then 1 + |a[0].calls| else 1;
      WellPairedAppend(a[n..], b);
      assert (a + b)[n..] == a[n..] + b;
      assert (a + b)[1..] == a[1..] + b;
      if IsGroupHead(a[0]) {
        AnswersInFront(a[0].calls, a[1..], b);
      }
    }
  }

  /** The tool turn the engine appends: an assistant message and one result a call. */
  lemma ToolTurnWellPaired(head: Message, results: seq<Message>)
    requires IsGroupHead(head) && |results| == |head.calls| && AnswersAll(head.calls, results)
    ensures WellPaired([head] + results)
  {
    assert ([head] + results)[1..] == results;
    assert ([head] + results)[1 + |head.calls|..] == [];
  }

  lemma HeadAnswersNothing(calls: seq<ToolCall>, ms: seq<Message>, head: Message)
    requires IsGroupHead(head) && AnswersAll(calls, ms + [head])
    ensures |calls| <= |ms|
  {
    assert !(ms + [head])[|ms|].Tool?;
  }

  /** A list that ends with a message with tool calls is not paired. */
  lemma {:induction false} DanglingHead(ms: seq<Message>, head: Message)
    requires IsGroupHead(head)
    ensures !WellPaired(ms + [head])
    decreases |ms|
  {
    var all := ms + [head];
    if ms == [] {
      assert all[1..] == [];
    } else {
      hide AnswersAll;
      assert all[1..] == ms[1..] + [head];
      if IsGroupHead(ms[0]) {
        if AnswersAll(ms[0].calls, all[1..]) {
          HeadAnswersNothing(ms[0].calls, ms[1..], head);
          assert all[1 + |ms[0].calls|..] == ms[1 + |ms[0].calls|..] + [head];
          DanglingHead(ms[1 + |ms[0].calls|..], head);
        }
      } else {
        DanglingHead(ms[1..], head);
      }
    }
  }

  // Tokens of a message

  function HexDigit(n: nat): char
    requires n < 16
  {
    "0123456789abcdef"[n]
  }

  function JsonChar(c: char): string {
    if c == '"' then "\\\""
    else if c == '\\' then "\\\\"
    else if c == '\n' then "\\n"
    else if c == '\r' then "\\r"
    else if c == '\t' then "\\t"
    else if c as int == 8 then "\\b"
    else if c as int == 12 then "\\f"
    else if c as int < 32 then "\\u00" + [HexDigit(c as int / 16), HexDigit(c as int % 16)]
    else [c]
  }

  function JsonText(s: string): string {
    if s == "" then "" else JsonChar(s[0]) + JsonText(s[1..])
  }

  function JsonString(s: string): string {
    "\"" + JsonText(s) + "\""
  }

  function CallJson(call: ToolCall): string {
    "{\"id\": " + JsonString(call.id) + ", \"type\": \"function\", \"function\": {\"name\": " + JsonString(call.name)
    + ", \"arguments\": " + JsonString(call.arguments) + "}}"
  }

  function CallsJson(calls: seq<ToolCall>): string {
    if calls == [] then ""
    else if |calls| == 1 then CallJson(calls[0])
    else CallJson(calls[0]) + ", " + CallsJson(calls[1..])
  }

  function Role(m: Message): string {
    match m
    case System(_) => "system"
    case User(_) => "user"
    case Assistant(_, _) => "assistant"
    case Tool(_, _) => "tool"
  }

  function MessageTokens(m: Message): nat {
    Estimate(Role(m)) + Estimate(m.content) + 4
    + (if m.Tool? then Estimate(m.callId) else 0)
    + (if IsGroupHead(m) then Estimate("[" + CallsJson(m.calls) + "]") else 0)
  }

  function WindowTokens(ms: seq<Message>): nat {
    if ms == [] then 0 else MessageTokens(ms[0]) + WindowTokens(ms[1..])
  }

  lemma {:induction false} WindowTokensAppend(a: seq<Message>, b: seq<Message>)
    ensures WindowTokens(a + b) == WindowTokens(a) + WindowTokens(b)
  {
    if a == [] {
      assert a + b == b;
    } else {
      assert (a + b)[1..] == a[1..] + b;
      WindowTokensAppend(a[1..], b);
    }
  }
}
