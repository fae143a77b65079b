/** The chat page's request logic (src/pages/AiAssistant.tsx): the send
    guard, the request history window, the streamed-response line parser
    and the updater that keeps a single assistant reply per request. The
    network, the stream reader and JSON decoding are outside: each chunk of
    decoded text is a call of ReceiveChunk, and `parse` stands for decoding a
    payload and reading `choices[0].delta.content`. */
module AiAssistant {
  import opened Wrappers
  import opened JsStrings

  datatype Role = User | Assistant

  datatype Msg = Msg(role: Role, content: string)

  const Greeting := "Hello! I'm your Sanjeevani AI Health Assistant. I can help you with:\n\n• **Symptom assessment** - Describe your symptoms\n• **First aid guidance** - Emergency steps\n• **Health tips** - General wellness advice\n• **Medication info** - Drug interactions & usage\n\nHow can I help you today?"

  const ErrorReply := "Sorry, I couldn't process your request. Please try again."

  /** Messages sent with a request: `slice(-10)`. */
  const HistoryLimit := 10

  /** `slice(-n)` for n >= 1: the last `n` elements, or all of them when
      fewer. (`slice(-0)` is `slice(0)`, the whole list, so n = 0 is
      excluded; the page only asks for the last 10.) */
  function LastN<T>(s: seq<T>, n: nat): (r: seq<T>)
    requires n >= 1
    ensures |r| <= n && |r| <= |s|
    ensures |r| == n || |r| == |s|
    ensures r == s[|s| - |r|..]
  {
    if |s| <= n then s else s[|s| - n..]
  }

  /** The `setMessages` updater run for each delta: while the last message
      is an assistant message added after this request's messages, replace
      its content; otherwise append a new assistant message. */
  function UpsertAssistant(prev: seq<Msg>, baseLen: nat, content: string): seq<Msg> {
    if |prev| > 0 && prev[|prev| - 1].role == Assistant && |prev| > baseLen
    then prev[..|prev| - 1] + [prev[|prev| - 1].(content := content)]
    else prev + [Msg(Assistant, content)]
  }

  /** The updater adds at most one message: it replaces the last one exactly
      when that is an assistant message after the request's own messages,
      and either way the list ends with the new content and keeps the rest. */
  lemma UpsertReplacesOrAppends(prev: seq<Msg>, baseLen: nat, content: string)
    ensures var r := UpsertAssistant(prev, baseLen, content);
      && (|r| == |prev| || |r| == |prev| + 1)
      && (|r| == |prev| <==> |prev| > baseLen && prev[|prev| - 1].role == Assistant)
      && |r| >= 1 && r[|r| - 1] == Msg(Assistant, content)
      && forall i :: 0 <= i < |r| - 1 ==> r[i] == prev[i]
  {
  }

  /** While a request streams: the request's own messages come first, and
      after them there is no reply until some content arrived, and then
      exactly one assistant message holding all of it. */
  predicate ReplyShape(msgs: seq<Msg>, baseLen: nat, content: string) {
    1 <= baseLen <= |msgs| &&
    (content == "" ==> |msgs| == baseLen) &&
    (content != "" ==> |msgs| == baseLen + 1 && msgs[baseLen] == Msg(Assistant, content))
  }

  /** What one line of the stream does. */
  datatype LineAction = Skip | Done | Delta(text: string)

  /** `line.endsWith("\r") ? line.slice(0, -1) : line` */
  function StripCarriageReturn(line: string): string {
    if EndsWith(line, "\r") then line[..|line| - 1] else line
  }

  /** The handling of one line: a trailing carriage return is dropped; lines
      without the "data: " prefix are skipped; the payload is the rest of the
      line, trimmed; "[DONE]" stops; otherwise the payload's decoded delta,
      if any, is handed on, and a decoding failure or a missing delta is
      skipped. */
  function ClassifyLine(rawLine: string, parse: string -> Option<string>): LineAction {
    ClassifyDataLine(StripCarriageReturn(rawLine), parse)
  }

  /** The handling of a line once its carriage return is stripped. */
  function ClassifyDataLine(line: string, parse: string -> Option<string>): LineAction {
    if !StartsWith(line, "data: ") then Skip
    else
      var payload := Trim(line[6..]);
      if payload == "[DONE]" then Done
      else match parse(payload)
        case Some(d) => Delta(d)
        case None => Skip
  }

  /** Only lines starting with "data: " do anything. */
  lemma OnlyDataLinesAct(rawLine: string, parse: string -> Option<string>)
    ensures ClassifyLine(rawLine, parse) != Skip ==> StartsWith(rawLine, "data: ")
  {
    var line := StripCarriageReturn(rawLine);
    if StartsWith(line, "data: ") {
      assert rawLine[..6] == line[..6];
    }
  }

  /** A carriage return before the line ending changes nothing: a line
      with one is handled like the same line without. */
  lemma CarriageReturnIgnored(line: string, parse: string -> Option<string>)
    requires !EndsWith(line, "\r")
    ensures ClassifyLine(line + "\r", parse) == ClassifyLine(line, parse)
  {
    assert EndsWith(line + "\r", "\r");
    assert (line + "\r")[..|line|] == line;
    assert StripCarriageReturn(line + "\r") == line == StripCarriageReturn(line);
  }

  /** A "data: " line whose payload is already trimmed and is not "[DONE]"
      hands on exactly what the payload decodes to. */
  lemma DataLineDecodes(payload: string, parse: string -> Option<string>)
    requires IsTrimmed(payload) && payload != "[DONE]"
    requires payload == [] || payload[|payload| - 1] != '\r'
    ensures ClassifyLine("data: " + payload, parse) ==
      match parse(payload) case Some(d) => Delta(d) case None => Skip
  {
    var line := "data: " + payload;
    if payload == [] {
      assert line[|line| - 1] == ' ';
    } else {
      assert line[|line| - 1] == payload[|payload| - 1];
    }
    assert !EndsWith(line, "\r");
    assert line[..6] == "data: ";
    assert line[6..] == payload;
  }

  /** The line handler of a stream whose payloads decode with `parse`. */
  function LineHandler(parse: string -> Option<string>): string -> LineAction {
    line => ClassifyLine(line, parse)
  }

  /** The state the inner loop works on. */
  datatype Drained = Drained(textBuffer: string, assistantContent: string, messages: seq<Msg>, sawDone: bool)

  /** The assistant content and messages after one line: a non-empty
      delta is appended to the content and the reply updated with it. */
  function Absorb(action: LineAction, content: string, msgs: seq<Msg>, baseLen: nat): (string, seq<Msg>) {
    if action.Delta? && action.text != "" then
      (content + action.text, UpsertAssistant(msgs, baseLen, content + action.text))
    else (content, msgs)
  }

  /** The inner line loop as a function: take complete lines off the front
      of the buffer, handling each with `classify`, until none is left or a
      "[DONE]" payload is seen. */
  function DrainLines(buf: string, content: string, msgs: seq<Msg>, baseLen: nat, classify: string -> LineAction): (r: Drained)
    decreases |buf|
  {
    if '\n' !in buf then Drained(buf, content, msgs, false)
    else
      var k := IndexOf(buf, '\n');
      var action := classify(buf[..k]);
      if action.Done? then Drained(buf[k + 1..], content, msgs, true)
      else
        var next := Absorb(action, content, msgs, baseLen);
        DrainLines(buf[k + 1..], next.0, next.1, baseLen, classify)
  }

  /** `t` is what is left of `buf` after whole lines were taken off its
      front: a suffix of it, and, when shorter, preceded by "\n". */
  predicate LeftAfterLines(buf: string, t: string) {
    EndsWith(buf, t) && (|t| < |buf| ==> buf[|buf| - |t| - 1] == '\n')
  }

  /** Taking one more line off the front keeps the relation. */
  lemma LeftAfterOneMoreLine(buf: string, k: nat, t: string)
    requires k < |buf| && buf[k] == '\n'
    requires LeftAfterLines(buf[k + 1..], t)
    ensures LeftAfterLines(buf, t)
  {
    assert buf[k + 1..][|buf| - k - 1 - |t|..] == buf[|buf| - |t|..];
  }

  /** One turn of the line loop, for a line whose handling is known. */
  lemma DrainOneLine(buf: string, content: string, msgs: seq<Msg>, baseLen: nat, classify: string -> LineAction, action: LineAction)
    requires '\n' in buf && classify(buf[..IndexOf(buf, '\n')]) == action
    ensures var rest := buf[IndexOf(buf, '\n') + 1..];
      DrainLines(buf, content, msgs, baseLen, classify) ==
        if action.Done? then Drained(rest, content, msgs, true)
        else DrainLines(rest, Absorb(action, content, msgs, baseLen).0, Absorb(action, content, msgs, baseLen).1, baseLen, classify)
  {
  }

  /** What the loop leaves in the buffer is a suffix of what it started
      with: only whole lines, each ended by "\n", are removed, and unless it
      stopped at "[DONE]" no complete line is left. */
  lemma {:induction false} DrainConsumesWholeLines(buf: string, content: string, msgs: seq<Msg>, baseLen: nat, classify: string -> LineAction)
    ensures var r := DrainLines(buf, content, msgs, baseLen, classify);
      LeftAfterLines(buf, r.textBuffer) && (!r.sawDone ==> '\n' !in r.textBuffer)
    decreases |buf|
  {
    var r := DrainLines(buf, content, msgs, baseLen, classify);
    if '\n' in buf {
      var k := IndexOf(buf, '\n');
      var rest := buf[k + 1..];
      var action := classify(buf[..k]);
      if action.Done? {
        assert r == Drained(rest, content, msgs, true);
        assert LeftAfterLines(rest, rest);
        LeftAfterOneMoreLine(buf, k, rest);
      } else {
        var next := Absorb(action, content, msgs, baseLen);
        DrainConsumesWholeLines(rest, next.0, next.1, baseLen, classify);
        assert r == DrainLines(rest, next.0, next.1, baseLen, classify);
        LeftAfterOneMoreLine(buf, k, r.textBuffer);
      }
    } else {
      assert r.textBuffer == buf && !r.sawDone;
      assert LeftAfterLines(buf, buf);
    }
  }

  /** The deltas carried by the complete lines of `buf` before any
      "[DONE]" line, concatenated in order. */
  function DeltaText(buf: string, classify: string -> LineAction): string
    decreases |buf|
  {
    if '\n' !in buf then ""
    else
      var k := IndexOf(buf, '\n');
      match classify(buf[..k])
      case Done => ""
      case Skip => DeltaText(buf[k + 1..], classify)
      case Delta(d) => d + DeltaText(buf[k + 1..], classify)
  }

  /** The assistant content after the loop is what it was before followed by
      every delta of the drained lines, in order; skipped lines add
      nothing. */
  lemma {:induction false} DrainAppendsDeltas(buf: string, content: string, msgs: seq<Msg>, baseLen: nat, classify: string -> LineAction)
    ensures DrainLines(buf, content, msgs, baseLen, classify).assistantContent == content + DeltaText(buf, classify)
    decreases |buf|
  {
    if '\n' in buf {
      var k := IndexOf(buf, '\n');
      var rest := buf[k + 1..];
      var action := classify(buf[..k]);
      DrainOneLine(buf, content, msgs, baseLen, classify, action);
      var text := if action.Delta? then action.text else "";
      assert DeltaText(buf, classify) == if action.Done? then "" else text + DeltaText(rest, classify);
      if !action.Done? {
        var next := Absorb(action, content, msgs, baseLen);
        AbsorbAppendsDelta(action, content, msgs, baseLen);
        DrainAppendsDeltas(rest, next.0, next.1, baseLen, classify);
        ConcatAssociative(content, text, DeltaText(rest, classify));
      }
    }
  }

  lemma ConcatAssociative(a: string, b: string, c: string)
    ensures a + b + c == a + (b + c)
  {
  }

  /** One line adds its delta's text, if any, to the content. */
  lemma AbsorbAppendsDelta(action: LineAction, content: string, msgs: seq<Msg>, baseLen: nat)
    ensures Absorb(action, content, msgs, baseLen).0 == content + (if action.Delta? then action.text else "")
  {
    assert content + "" == content;
  }

  /** One delta: the reply is created on the first non-empty content and
      replaced in place afterwards. */
  lemma UpsertKeepsOneReply(msgs: seq<Msg>, baseLen: nat, content: string, d: string)
    requires ReplyShape(msgs, baseLen, content) && d != ""
    ensures var r := UpsertAssistant(msgs, baseLen, content + d);
      ReplyShape(r, baseLen, content + d) && r[..baseLen] == msgs[..baseLen]
  {
    var r := UpsertAssistant(msgs, baseLen, content + d);
    assert content + d != "" by { assert |content + d| >= |d| > 0; }
    if content == "" {
      assert |msgs| == baseLen && r == msgs + [Msg(Assistant, content + d)];
    } else {
      assert r == msgs[..baseLen] + [Msg(Assistant, content + d)];
    }
  }

  /** However many deltas a chunk carries, the request keeps exactly one
      assistant reply, holding the concatenation of all content so far, and
      the messages before it are untouched. */
  lemma {:induction false} DrainKeepsOneReply(buf: string, content: string, msgs: seq<Msg>, baseLen: nat, classify: string -> LineAction)
    requires ReplyShape(msgs, baseLen, content)
    ensures var r := DrainLines(buf, content, msgs, baseLen, classify);
      ReplyShape(r.messages, baseLen, r.assistantContent) && r.messages[..baseLen] == msgs[..baseLen]
    decreases |buf|
  {
    if '\n' in buf {
      var k := IndexOf(buf, '\n');
      var action := classify(buf[..k]);
      if !action.Done? {
        var next := Absorb(action, content, msgs, baseLen);
        if action.Delta? && action.text != "" {
          UpsertKeepsOneReply(msgs, baseLen, content, action.text);
        }
        DrainKeepsOneReply(buf[k + 1..], next.0, next.1, baseLen, classify);
      }
    }
  }

  /** The terminating line of the stream. */
  lemma ClassifyDoneLine(parse: string -> Option<string>)
    ensures ClassifyLine("data: [DONE]", parse) == Done
  {
    var line := "data: [DONE]";
    assert !EndsWith(line, "\r") by { assert line[|line| - 1] == ']'; }
    assert line[..6] == "data: ";
    var payload := line[6..];
    assert payload == "[DONE]";
    assert !IsWhitespace(payload[0]) && !IsWhitespace(payload[|payload| - 1]);
    assert IsTrimmed(payload);
  }

  /** A "[DONE]" line ends only the line loop: what follows it stays in the
      buffer, to be parsed when the next chunk arrives. */
  lemma DoneLeavesRestBuffered(rest: string, content: string, msgs: seq<Msg>, baseLen: nat, parse: string -> Option<string>)
    ensures DrainLines("data: [DONE]\n" + rest, content, msgs, baseLen, LineHandler(parse)) == Drained(rest, content, msgs, true)
  {
    var buf := "data: [DONE]\n" + rest;
    assert buf[12] == '\n';
    var k := IndexOf(buf, '\n');
    assert k == 12 by {
      assert forall i :: 0 <= i < 12 ==> buf[i] != '\n';
    }
    assert buf[..k] == "data: [DONE]";
    ClassifyDoneLine(parse);
    assert LineHandler(parse)(buf[..k]) == Done;
    assert buf[k + 1..] == rest;
  }

  /** The typing indicator: shown while loading as long as the last
      message is the user's. */
  predicate ShowTypingIndicator(isLoading: bool, messages: seq<Msg>) {
    isLoading && |messages| > 0 && messages[|messages| - 1].role == User
  }

  /** The send button is disabled while loading or while the input is
      blank, exactly when sending would do nothing. */
  predicate SendDisabled(isLoading: bool, input: string) {
    isLoading || Trim(input) == ""
  }

  /** While a request streams, the typing indicator shows exactly until the
      first content arrives. */
  lemma TypingIndicatorUntilFirstDelta(msgs: seq<Msg>, baseLen: nat, content: string)
    requires ReplyShape(msgs, baseLen, content) && msgs[baseLen - 1].role == User
    ensures ShowTypingIndicator(true, msgs) <==> content == ""
  {
  }

  lemma SamePrefixSameLast(before: seq<Msg>, after: seq<Msg>, n: nat)
    requires 1 <= n <= |before| && n <= |after| && after[..n] == before[..n]
    ensures after[n - 1] == before[n - 1]
  {
    assert after[..n][n - 1] == before[..n][n - 1];
  }

  /** Appending the user's message opens a request with an empty reply. */
  lemma NewRequestShape(msgs: seq<Msg>, text: string)
    ensures ReplyShape(msgs + [Msg(User, text)], |msgs| + 1, "")
    ensures (msgs + [Msg(User, text)])[|msgs|].role == User
  {
  }

  class ChatSession {
    var messages: seq<Msg>
    var input: string
    var isLoading: bool
    /** Length of the request's message list (`newMessages.length`). */
    var requestBase: nat
    var textBuffer: string
    var assistantContent: string

    /** While a request is in flight its messages end with the user's
        message and are followed by at most one assistant reply. */
    ghost predicate Valid()
      reads this
    {
      isLoading ==>
        ReplyShape(messages, requestBase, assistantContent) && messages[requestBase - 1].role == User
    }

    constructor ()
      ensures Valid()
      ensures messages == [Msg(Assistant, Greeting)] && input == "" && !isLoading
    {
      messages := [Msg(Assistant, Greeting)];
      input := "";
      isLoading := false;
      requestBase := 0;
      textBuffer := "";
      assistantContent := "";
    }

    /** The input box. */
    method EnterInput(value: string)
      requires Valid()
      modifies this`input
      ensures Valid() && input == value
    {
      input := value;
    }

    /** The start of `sendMessage`: nothing happens for blank input or while
        a request is loading; otherwise the trimmed input is appended as a
        user message, the input cleared, and a request made with the last
        ten messages. */
    method SendMessage() returns (request: Option<seq<Msg>>)
      requires Valid()
      modifies this
      ensures Valid()
      ensures SendDisabled(old(isLoading), old(input)) ==>
        && request == None && messages == old(messages) && input == old(input) && isLoading == old(isLoading)
        && requestBase == old(requestBase) && textBuffer == old(textBuffer) && assistantContent == old(assistantContent)
      ensures !SendDisabled(old(isLoading), old(input)) ==>
        && messages == old(messages) + [Msg(User, Trim(old(input)))]
        && input == "" && isLoading && requestBase == |messages|
        && textBuffer == "" && assistantContent == ""
        && request == Some(LastN(messages, HistoryLimit))
    {
      var text := Trim(input);
      if text == "" || isLoading {
        request := None;
        return;
      }
      var newMessages := messages + [Msg(User, text)];
      NewRequestShape(messages, text);
      messages, input, isLoading, requestBase := newMessages, "", true, |newMessages|;
      textBuffer, assistantContent := "", "";
      request := Some(LastN(newMessages, HistoryLimit));
    }

    /** One pass of the outer read loop: append the decoded chunk to the
        buffer, then run the line loop with the stream's line handler. */
    method ReceiveChunk(chunk: string, parse: string -> Option<string>)
      requires Valid() && isLoading
      modifies this`textBuffer, this`assistantContent, this`messages
      ensures Valid()
      ensures var r := DrainLines(old(textBuffer) + chunk, old(assistantContent), old(messages), requestBase, LineHandler(parse));
        textBuffer == r.textBuffer && assistantContent == r.assistantContent && messages == r.messages
      ensures messages[..requestBase] == old(messages)[..requestBase]
    {
      textBuffer := textBuffer + chunk;
      DrainBuffer(LineHandler(parse));
    }

    /** The inner line loop: take each complete line off the front of the
        buffer and handle it with `classify`, until no line ending is left
        or the "[DONE]" payload is seen. */
    method DrainBuffer(classify: string -> LineAction)
      requires Valid() && isLoading
      modifies this`textBuffer, this`assistantContent, this`messages
      ensures Valid()
      ensures var r := DrainLines(old(textBuffer), old(assistantContent), old(messages), requestBase, classify);
        textBuffer == r.textBuffer && assistantContent == r.assistantContent && messages == r.messages
      ensures messages[..requestBase] == old(messages)[..requestBase]
    {
      var base := requestBase;
      ghost var before := messages;
      assert before[base - 1].role == User;
      ghost var target := DrainLines(textBuffer, assistantContent, messages, base, classify);
      DrainKeepsOneReply(textBuffer, assistantContent, messages, base, classify);
      while '\n' in textBuffer
        invariant DrainLines(textBuffer, assistantContent, messages, base, classify) == target
        decreases |textBuffer|
      {
        var newlineIndex := IndexOf(textBuffer, '\n');
        var action := classify(textBuffer[..newlineIndex]);
        DrainOneLine(textBuffer, assistantContent, messages, base, classify, action);
        ghost var next := Absorb(action, assistantContent, messages, base);
        textBuffer := textBuffer[newlineIndex + 1..];
        match action {
          case Done => break;
          case Skip =>
          case Delta(content) =>
            if content != "" {
              assistantContent := assistantContent + content;
              messages := UpsertAssistant(messages, base, assistantContent);
            }
        }
        assert assistantContent == next.0 && messages == next.1;
      }
      assert textBuffer == target.textBuffer && assistantContent == target.assistantContent && messages == target.messages;
      SamePrefixSameLast(before, messages, base);
      assert ReplyShape(messages, base, assistantContent);
    }

    /** The end of `sendMessage`: a failed request (or a stream that broke)
        appends the apology; in every case loading ends. */
    method FinishRequest(failed: bool)
      requires Valid() && isLoading
      modifies this`messages, this`isLoading
      ensures Valid() && !isLoading
      ensures messages == if failed then old(messages) + [Msg(Assistant, ErrorReply)] else old(messages)
    {
      if failed {
        messages := messages + [Msg(Assistant, ErrorReply)];
      }
      isLoading := false;
    }
  }
}
