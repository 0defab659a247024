/**
 * The conversation side of `FarmerChatbot` (agriaid_chatbot.py): messages,
 * the ten-entry prompt window, the request sent to the generation backend,
 * what the backend can answer (in one piece or as a stream of lines), and
 * which reply the caller gets and which text is recorded as the assistant's.
 */
module Session {
  import opened Wrappers
  import opened Text

  // ============================================================= history

  datatype Role = User | Assistant

  datatype Message = Message(role: Role, content: string)

  function RoleName(r: Role): string {
    match r
    case User => "user"
    case Assistant => "assistant"
  }

  /** One prompt line, `f"{role}: {content}\n"`. */
  function MessageLine(m: Message): string {
    RoleName(m.role) + ": " + m.content + "\n"
  }

  const WindowSize: nat := 10

  /** `history[-10:]`: the last ten entries, or all of them when there are fewer. */
  function Window(history: seq<Message>): (w: seq<Message>)
    ensures |w| == if |history| < WindowSize then |history| else WindowSize
    ensures w == history[|history| - |w|..]
  {
    if |history| <= WindowSize then history else history[|history| - WindowSize..]
  }

  /** The prompt sent to the backend: one line per entry of the window, in order. */
  function Prompt(history: seq<Message>): string {
    Concat(Window(history), MessageLine)
  }

  /** The prompt of a history ends with the line of its newest entry. */
  lemma PromptEndsWithNewest(history: seq<Message>, m: Message)
    ensures |MessageLine(m)| <= |Prompt(history + [m])|
    ensures Prompt(history + [m])[|Prompt(history + [m])| - |MessageLine(m)|..] == MessageLine(m)
  {
    var w := Window(history + [m]);
    assert w[|w| - 1] == m;
  }

  /** Entries older than the last ten never reach the prompt. */
  lemma PromptForgetsOlder(older: seq<Message>, recent: seq<Message>)
    requires |recent| >= WindowSize
    ensures Prompt(older + recent) == Prompt(recent)
  {
    var h := older + recent;
    assert h[|h| - WindowSize..] == recent[|recent| - WindowSize..];
  }

  // ============================================================ requests

  /** The payload `{"model", "prompt", "stream"}`. */
  datatype Request = Request(model: string, prompt: string, stream: bool)

  const Fallback := "I apologize, I couldn't generate a response. Please try again."

  /** What a turn gives back: the reply returned to the caller, and the
    * assistant text appended to the history, if any. */
  datatype Outcome = Outcome(reply: string, recorded: Option<string>)

  /** The history entries an outcome adds. */
  function Recorded(o: Outcome): seq<Message> {
    if o.recorded.Some? then [Message(Assistant, o.recorded.value)] else []
  }

  // ===================================================== single response

  /** The decoded body of a single response: not a JSON object (decoding raised),
    * or an object with or without a `response` text. */
  datatype Body = NotJson(error: string) | JsonObject(response: Option<string>)

  /** What the non-streaming POST produced: it raised, or a status, text and body. */
  datatype Reply = PostRaised(error: string) | Replied(status: nat, text: string, body: Body)

  /** The reply as a success: status 200 and a non-blank `response` text. */
  predicate Answered(r: Reply) {
    r.Replied? && r.status == 200 && r.body.JsonObject? && r.body.response.Some?
    && !IsBlank(r.body.response.value)
  }

  const CrossMark := "\U{274C}"

  const MissingResponse := "Error: 'response' key not found in Ollama output"

  /** The non-streaming branch of `chat`: errors and the empty-reply fallback
    * are returned without being recorded; only a real answer is recorded. */
  function SingleShot(r: Reply): (o: Outcome)
    ensures o.recorded.Some? <==> Answered(r)
    ensures Answered(r) ==> o.reply == r.body.response.value && o.recorded == Some(o.reply)
    ensures (r.Replied? && r.status == 200 && r.body.JsonObject? && r.body.response.Some?
             && IsBlank(r.body.response.value)) ==> o.reply == Fallback
    ensures r.Replied? && r.status != 200 ==>
              o.reply == "Ollama error: " + NatToString(r.status) + " - " + r.text
    ensures r.PostRaised? ==> o.reply == CrossMark + " Error: " + r.error
    ensures r.Replied? && r.status == 200 && r.body.NotJson? ==> o.reply == CrossMark + " Error: " + r.body.error
    ensures r.Replied? && r.status == 200 && r.body == JsonObject(None) ==> o.reply == MissingResponse
    ensures !IsBlank(o.reply)
  {
    match r
    case PostRaised(e) =>
      assert !IsSpace((CrossMark + " Error: " + e)[0]);
      Outcome(CrossMark + " Error: " + e, None)
    case Replied(status, text, body) =>
      if status != 200 then
        assert !IsSpace(("Ollama error: " + NatToString(status) + " - " + text)[0]);
        Outcome("Ollama error: " + NatToString(status) + " - " + text, None)
      else
        match body
        case NotJson(e) =>
          assert !IsSpace((CrossMark + " Error: " + e)[0]);
          Outcome(CrossMark + " Error: " + e, None)
        case JsonObject(None) =>
          assert MissingResponse[|MissingResponse| - 1] == 't';
          Outcome(MissingResponse, None)
        case JsonObject(Some(t)) =>
          assert Fallback[|Fallback| - 1] == '.';
          if IsBlank(t) then Outcome(Fallback, None) else Outcome(t, Some(t))
  }

  // ============================================================ streaming

  /** One line of a streamed response: empty, not decodable as JSON, a fragment
    * with an optional `response` text and a `done` flag, or a line whose handling
    * raised (the connection broke, or the JSON was not an object). */
  datatype StreamLine =
    | BlankLine
    | Undecodable
    | Fragment(response: Option<string>, done: bool)
    | LineRaised(error: string)

  /** What the streaming POST produced: it raised, or a status and the lines. */
  datatype StreamReply = StreamRaised(error: string) | StreamOpened(status: nat, lines: seq<StreamLine>)

  /** How reading the lines ends: with the accumulated text, or with an error. */
  datatype StreamRead = Finished(text: string) | Broken(error: string)

  /** The read loop of `_stream_response`: skip blank and undecodable lines,
    * append each fragment's text to `acc`, stop after the first `done`. */
  function ReadStream(lines: seq<StreamLine>, acc: string): StreamRead
    decreases |lines|
  {
    if lines == [] then Finished(acc)
    else
      match lines[0]
      case BlankLine => ReadStream(lines[1..], acc)
      case Undecodable => ReadStream(lines[1..], acc)
      case LineRaised(e) => Broken(e)
      case Fragment(r, done) =>
        var acc' := acc + r.GetOr("");
        if done then Finished(acc') else ReadStream(lines[1..], acc')
  }

  predicate IsDone(l: StreamLine) {
    l.Fragment? && l.done
  }

  /** The lines up to and including the first `done` fragment (all of them if none is). */
  function Consumed(lines: seq<StreamLine>): (c: seq<StreamLine>)
    ensures c <= lines
    ensures forall i :: 0 <= i < |c| - 1 ==> !IsDone(c[i])
    ensures c == lines || (c != [] && IsDone(c[|c| - 1]))
    decreases |lines|
  {
    if lines == [] then []
    else if IsDone(lines[0]) then [lines[0]]
    else
      var rest := Consumed(lines[1..]);
      assert forall i :: 0 <= i < |rest| ==> ([lines[0]] + rest)[i + 1] == rest[i];
      [lines[0]] + rest
  }

  /** The text a line contributes: a fragment's `response`, or nothing. */
  function Token(l: StreamLine): string {
    if l.Fragment? then l.response.GetOr("") else ""
  }

  /** No line of `ls` raised. */
  predicate NoRaise(ls: seq<StreamLine>) {
    forall i :: 0 <= i < |ls| ==> !ls[i].LineRaised?
  }

  lemma NoRaisePrepend(head: StreamLine, rest: seq<StreamLine>)
    ensures NoRaise([head] + rest) <==> !head.LineRaised? && NoRaise(rest)
  {
    var all := [head] + rest;
    assert all[0] == head;
    assert forall i :: 0 <= i < |rest| ==> all[i + 1] == rest[i];
    if NoRaise(all) {
      forall i | 0 <= i < |rest| ensures !rest[i].LineRaised? {
        assert all[i + 1] == rest[i];
      }
    }
  }

  /** The streaming property: reading succeeds exactly when no line up to the first
    * `done` raised, and then yields the concatenated `response` texts of those
    * lines; nothing after the first `done` is read. */
  lemma {:induction false} ReadStreamSpec(lines: seq<StreamLine>, acc: string)
    ensures ReadStream(lines, acc).Finished? <==> NoRaise(Consumed(lines))
    ensures ReadStream(lines, acc).Finished? ==> ReadStream(lines, acc).text == acc + Concat(Consumed(lines), Token)
    decreases |lines|
  {
    if lines == [] {
      assert acc + "" == acc;
    } else if IsDone(lines[0]) {
      var head := lines[0];
      assert Consumed(lines) == [head];
      assert Concat([head], Token) == Token(head) by {
        assert [head][..0] == [];
      }
    } else if lines[0].LineRaised? {
      assert Consumed(lines)[0] == lines[0];
    } else {
      ReadStreamStep(lines, acc);
    }
  }

  /** One step of `ReadStreamSpec`: a line that neither raises nor ends the stream. */
  lemma {:induction false} ReadStreamStep(lines: seq<StreamLine>, acc: string)
    requires lines != [] && !IsDone(lines[0]) && !lines[0].LineRaised?
    ensures ReadStream(lines, acc).Finished? <==> NoRaise(Consumed(lines))
    ensures ReadStream(lines, acc).Finished? ==> ReadStream(lines, acc).text == acc + Concat(Consumed(lines), Token)
    decreases |lines|, 0
  {
    var head, tail := lines[0], lines[1..];
    var rest := Consumed(tail);
    var acc' := acc + Token(head);
    assert Consumed(lines) == [head] + rest;
    assert ReadStream(lines, acc) == ReadStream(tail, acc') by {
      if !head.Fragment? {
        assert acc' == acc;
      }
    }
    ReadStreamSpec(tail, acc');
    NoRaisePrepend(head, rest);
    if ReadStream(tail, acc').Finished? {
      ConcatPrepend(head, rest, Token);
      assert acc' + Concat(rest, Token) == acc + (Token(head) + Concat(rest, Token));
    }
  }

  /** Lines after the first `done` make no difference. */
  lemma {:induction false} ReadStreamStopsAtDone(lines: seq<StreamLine>, rest: seq<StreamLine>, acc: string)
    requires exists i :: 0 <= i < |lines| && IsDone(lines[i])
    ensures ReadStream(lines + rest, acc) == ReadStream(lines, acc)
    decreases |lines|
  {
    assert (lines + rest)[0] == lines[0];
    if !IsDone(lines[0]) {
      assert (lines + rest)[1..] == lines[1..] + rest;
      var i :| 0 <= i < |lines| && IsDone(lines[i]);
      assert IsDone(lines[1..][i - 1]);
      match lines[0]
      case LineRaised(_) =>
      case BlankLine => ReadStreamStopsAtDone(lines[1..], rest, acc);
      case Undecodable => ReadStreamStopsAtDone(lines[1..], rest, acc);
      case Fragment(r, _) => ReadStreamStopsAtDone(lines[1..], rest, acc + r.GetOr(""));
    }
  }

  /** `_stream_response`: errors are returned unrecorded; a finished stream is
    * recorded, replaced by the fallback when its text is blank. */
  function Streamed(sr: StreamReply): (o: Outcome)
    ensures o.recorded.Some? <==> sr.StreamOpened? && sr.status == 200 && ReadStream(sr.lines, "").Finished?
    ensures o.recorded.Some? ==> o.recorded == Some(o.reply)
    ensures sr.StreamOpened? && sr.status != 200 ==> o.reply == "Ollama error: " + NatToString(sr.status)
    ensures sr.StreamRaised? ==> o.reply == "Error: " + sr.error
    ensures sr.StreamOpened? && sr.status == 200 && ReadStream(sr.lines, "").Broken? ==>
              o.reply == "Error: " + ReadStream(sr.lines, "").error
    ensures !IsBlank(o.reply)
  {
    match sr
    case StreamRaised(e) =>
      assert !IsSpace(("Error: " + e)[0]);
      Outcome("Error: " + e, None)
    case StreamOpened(status, lines) =>
      if status != 200 then
        assert !IsSpace(("Ollama error: " + NatToString(status))[0]);
        Outcome("Ollama error: " + NatToString(status), None)
      else
        match ReadStream(lines, "")
        case Broken(e) =>
          assert !IsSpace(("Error: " + e)[0]);
          Outcome("Error: " + e, None)
        case Finished(t) =>
          assert Fallback[|Fallback| - 1] == '.';
          var text := if IsBlank(t) then Fallback else t;
          Outcome(text, Some(text))
  }

  /** A successful stream records the concatenated fragment texts up to the first
    * `done`, or the fallback when they are blank. */
  lemma StreamedText(status: nat, lines: seq<StreamLine>)
    requires status == 200
    requires NoRaise(Consumed(lines))
    ensures var t := Concat(Consumed(lines), Token);
            Streamed(StreamOpened(status, lines)).recorded == Some(if IsBlank(t) then Fallback else t)
  {
    ReadStreamSpec(lines, "");
    assert "" + Concat(Consumed(lines), Token) == Concat(Consumed(lines), Token);
  }
}
