/** The browser's reader of an assistant reply: text arrives in chunks, complete
    lines are handled as they are found. JSON parsing is a parameter. */
module ChatLines {
  import opened Wrappers
  import opened Text

  datatype Link = Link(path: string, linkLabel: string)

  /** A parsed payload. An absent or falsy property is None or "". A payload
      that does not parse, and the JSON null, give no event. */
  datatype Event = Event(error: string, content: string, toolCall: string, pendingAction: string,
                         toolResult: string, args: string, hash: string, preview: string,
                         result: Option<string>, path: string, linkLabel: string)

  type Parser = string -> Option<Event>

  datatype Call = Call(name: string, args: string, hash: string, result: Option<string>)

  datatype Action = Action(name: string, args: string, hash: string, preview: string)

  datatype Message = Message(content: string, calls: seq<Call>, actions: seq<Action>, links: seq<Link>)

  const EMPTY_MESSAGE := Message("", [], [], [])

  datatype End = Open | Finished | Failed(error: string)

  datatype Reply = Reply(message: Message, end: End)

  // ---- One event ----

  predicate Waits(call: Call, name: string) {
    call.name == name && call.result.None?
  }

  /** The result goes to the last call of that name without one. */
  function Attach(calls: seq<Call>, name: string, result: Option<string>): seq<Call> {
    if calls == [] then []
    else
      var n := |calls| - 1;
      if Waits(calls[n], name) then calls[n := calls[n].(result := result)]
      else Attach(calls[..n], name, result) + [calls[n]]
  }

  lemma {:induction false} AttachToNoneWaiting(calls: seq<Call>, name: string, result: Option<string>)
    requires forall i :: 0 <= i < |calls| && calls[i].name == name ==> calls[i].result.Some?
    ensures Attach(calls, name, result) == calls
  {
    if calls != [] { AttachToNoneWaiting(calls[..|calls| - 1], name, result); }
  }

  /** Exactly one call changes: the last that waits for the name. */
  lemma {:induction false} AttachAnswersTheLastWaiting(calls: seq<Call>, k: nat, name: string, result: Option<string>)
    requires k < |calls| && calls[k].name == name && calls[k].result.None?
    requires forall i :: k < i < |calls| && calls[i].name == name ==> calls[i].result.Some?
    ensures Attach(calls, name, result) == calls[k := calls[k].(result := result)]
  {
    var n := |calls| - 1;
    if k < n {
      AttachAnswersTheLastWaiting(calls[..n], k, name, result);
      assert calls == calls[..n] + [calls[n]];
    }
  }

  method AttachResult(calls: seq<Call>, name: string, result: Option<string>) returns (attached: seq<Call>)
    ensures attached == Attach(calls, name, result)
  {
    attached := calls;
    for i := |calls| downto 0
      invariant attached == calls
      invariant forall k :: i <= k < |calls| ==> !Waits(calls[k], name)
    {
      if Waits(attached[i], name) {
        attached := attached[i := attached[i].(result := result)];
        AttachAnswersTheLastWaiting(calls, i, name, result);
        return;
      }
    }
    AttachToNoneWaiting(calls, name, result);
  }

  function AddCall(m: Message, e: Event): Message {
    if e.toolCall == "" then m else m.(calls := m.calls + [Call(e.toolCall, e.args, e.hash, None)])
  }

  function AddAction(m: Message, e: Event): Message {
    if e.pendingAction == "" then m
    else m.(actions := m.actions + [Action(e.pendingAction, e.args, e.hash, e.preview)])
  }

  function AddResult(m: Message, e: Event): Message {
    if e.toolResult == "" then m else m.(calls := Attach(m.calls, e.toolResult, e.result))
  }

  function AddLink(m: Message, e: Event): Message {
    if e.path == "" then m
    else m.(links := m.links + [Link(e.path, if e.linkLabel == "" then e.path else e.linkLabel)])
  }

  /** What one event does to the message, in the order its properties are read. */
  function Apply(m: Message, e: Event): Message {
    AddLink(AddResult(AddAction(AddCall(m.(content := m.content + e.content), e), e), e), e)
  }

  // ---- One line ----

  const DATA := "data: "
  const DONE := "[DONE]"

  /** The payload of a data line. */
  function Payload(line: string): Option<string> {
    var trimmed := Trim(line);
    if DATA <= trimmed then Some(trimmed[|DATA|..]) else None
  }

  /** The line is blanks, "data: ", a payload that neither is empty nor ends in a blank, and blanks. */
  ghost predicate IsDataLine(line: string, payload: string) {
    payload != "" && !Blank(payload[|payload| - 1..]) && exists left, right ::
      Blank(left) && Blank(right) && line == left + "data: " + payload + right
  }

  lemma DataLineIsRead(left: string, payload: string, right: string)
    requires Blank(left) && Blank(right) && payload != "" && !Blank(payload[|payload| - 1..])
    ensures Payload(left + "data: " + payload + right) == Some(payload)
  {
    var content := DATA + payload;
    assert content[|content| - 1..] == payload[|payload| - 1..];
    assert content[..1] == "d" && content[..1][0] == 'd';
    assert left + "data: " + payload + right == left + content + right;
    TrimOf(left, content, right);
  }

  lemma ReadLineIsADataLine(line: string)
    requires Payload(line).Some?
    ensures IsDataLine(line, Payload(line).value)
  {
    var content := Trim(line);
    var left, right := TrimTakes(line);
    var payload := Payload(line).value;
    assert content == DATA + payload;
    assert line == left + "data: " + payload + right;
    TrimmedEnds(content);
    assert content[5] == DATA[5] == ' ';
    assert content[|content| - 1..] == payload[|payload| - 1..];
  }

  /** A line is handled exactly if it is a data line, and then for its payload. */
  lemma PayloadExactly(line: string, payload: string)
    ensures Payload(line) == Some(payload) <==> IsDataLine(line, payload)
  {
    if Payload(line).Some? { ReadLineIsADataLine(line); }
    if IsDataLine(line, payload) {
      var left, right :| Blank(left) && Blank(right) && line == left + "data: " + payload + right;
      DataLineIsRead(left, payload, right);
    }
  }

  function Handle(reply: Reply, line: string, parse: Parser): Reply {
    var data := Payload(line);
    if data.None? then reply
    else if data.value == DONE then reply.(end := Finished)
    else
      var event := parse(data.value);
      if event.None? then reply
      else if event.value.error != "" then reply.(end := Failed(event.value.error))
      else reply.(message := Apply(reply.message, event.value))
  }

  method HandleLine(reply: Reply, line: string, parse: Parser) returns (handled: Reply)
    ensures handled == Handle(reply, line, parse)
  {
    handled := reply;
    var data := Payload(line);
    if data.None? { return; }
    if data.value == DONE { return reply.(end := Finished); }
    var parsed := parse(data.value);
    if parsed.None? { return; }
    var e := parsed.value;
    if e.error != "" { return reply.(end := Failed(e.error)); }
    var m := reply.message;
    if e.content != "" { m := m.(content := m.content + e.content); }
    if e.toolCall != "" { m := m.(calls := m.calls + [Call(e.toolCall, e.args, e.hash, None)]); }
    if e.pendingAction != "" { m := m.(actions := m.actions + [Action(e.pendingAction, e.args, e.hash, e.preview)]); }
    if e.toolResult != "" {
      var calls := AttachResult(m.calls, e.toolResult, e.result);
      m := m.(calls := calls);
    }
    if e.path != "" { m := m.(links := m.links + [Link(e.path, if e.linkLabel == "" then e.path else e.linkLabel)]); }
    assert reply.message.content + "" == reply.message.content;
    handled := reply.(message := m);
  }

  // ---- Lines in a row ----

  /** Lines handled one after another, up to the first that ends the reply. */
  function HandleAll(reply: Reply, lines: seq<string>, parse: Parser): Reply {
    if lines == [] then reply
    else
      var before := HandleAll(reply, AllButLast(lines), parse);
      if before.end.Open? then Handle(before, Last(lines), parse) else before
  }

  lemma {:induction false} HandleAllConcat(reply: Reply, a: seq<string>, b: seq<string>, parse: Parser)
    ensures HandleAll(reply, a + b, parse) == HandleAll(HandleAll(reply, a, parse), b, parse)
  {
    if b == [] {
      assert a + b == a;
    } else {
      assert AllButLast(a + b) == a + AllButLast(b);
      HandleAllConcat(reply, a, AllButLast(b), parse);
    }
  }

  lemma {:induction false} EndedRepliesStay(reply: Reply, lines: seq<string>, parse: Parser)
    requires !reply.end.Open?
    ensures HandleAll(reply, lines, parse) == reply
  {
    if lines != [] { EndedRepliesStay(reply, AllButLast(lines), parse); }
  }

  /** The complete lines of a text: what follows the last newline is not one. */
  function Lines(text: string): seq<string> {
    AllButLast(Split(text, '\n'))
  }

  function Rest(text: string): string {
    Last(Split(text, '\n'))
  }

  lemma LinesOfMore(a: string, b: string)
    ensures Lines(a + b) == Lines(a) + Lines(Rest(a) + b)
    ensures Rest(a + b) == Rest(Rest(a) + b)
  {
    SplitMore(a, b, '\n');
  }

  /** The reply a text gives. */
  function ReplyOf(text: string, start: Message, parse: Parser): Reply {
    HandleAll(Reply(start, Open), Lines(text), parse)
  }

  lemma MoreText(a: string, b: string, start: Message, parse: Parser)
    ensures ReplyOf(a + b, start, parse) == HandleAll(ReplyOf(a, start, parse), Lines(Rest(a) + b), parse)
  {
    LinesOfMore(a, b);
    HandleAllConcat(Reply(start, Open), Lines(a), Lines(Rest(a) + b), parse);
  }

  /** Nothing after the end marker or an error is read. */
  lemma NothingAfterTheEnd(a: string, b: string, start: Message, parse: Parser)
    requires !ReplyOf(a, start, parse).end.Open?
    ensures ReplyOf(a + b, start, parse) == ReplyOf(a, start, parse)
  {
    MoreText(a, b, start, parse);
    EndedRepliesStay(ReplyOf(a, start, parse), Lines(Rest(a) + b), parse);
  }

  /** A last line without its newline is never handled, be it the end marker. */
  lemma LastLineNeedsItsNewline(a: string, piece: string, start: Message, parse: Parser)
    requires '\n' !in piece
    ensures ReplyOf(a + "\n" + piece, start, parse) == ReplyOf(a + "\n", start, parse)
  {
    SplitAtSeparator(a, piece, '\n');
    SplitAtSeparator(a, "", '\n');
    SplitOfPiece(piece, '\n');
    assert a + "\n" + "" == a + "\n";
    assert Lines(a + "\n" + piece) == Split(a, '\n') == Lines(a + "\n");
  }

  // ---- The read loop ----

  /** How the reads end: the body closes, the user cancels, the connection breaks. */
  datatype Ending = Closed | Cancelled | Broken

  const LOST := "Connection failed. Check that the backend is running."

  /** What the user is left with. A broken connection takes the message away. */
  datatype Outcome = Outcome(shown: Option<Message>, error: Option<string>)

  function OutcomeOf(reply: Reply, ending: Ending): Outcome {
    match reply.end
    case Finished => Outcome(Some(reply.message), None)
    case Failed(error) => Outcome(Some(reply.message), Some(error))
    case Open => if ending.Broken? then Outcome(None, Some(LOST)) else Outcome(Some(reply.message), None)
  }

  function Concat(chunks: seq<string>): string {
    if chunks == [] then "" else Concat(chunks[..|chunks| - 1]) + chunks[|chunks| - 1]
  }

  lemma {:induction false} ConcatSplits(chunks: seq<string>, i: nat)
    requires i <= |chunks|
    ensures Concat(chunks) == Concat(chunks[..i]) + Concat(chunks[i..])
  {
    if i == |chunks| {
      assert chunks[..i] == chunks;
    } else {
      var n := |chunks| - 1;
      ConcatSplits(chunks[..n], i);
      assert chunks[..n][..i] == chunks[..i];
      assert chunks[..n][i..] == chunks[i..][..n - i];
      assert Concat(chunks[..i]) + Concat(chunks[i..][..n - i]) + chunks[n]
          == Concat(chunks[..i]) + (Concat(chunks[i..][..n - i]) + chunks[n]);
    }
  }

  /** A reply that ended after some of the chunks is the reply of the whole text. */
  lemma EndedEarly(chunks: seq<string>, i: nat, start: Message, parse: Parser)
    requires i <= |chunks| && !ReplyOf(Concat(chunks[..i]), start, parse).end.Open?
    ensures ReplyOf(Concat(chunks), start, parse) == ReplyOf(Concat(chunks[..i]), start, parse)
  {
    ConcatSplits(chunks, i);
    NothingAfterTheEnd(Concat(chunks[..i]), Concat(chunks[i..]), start, parse);
  }

  /** The lines of one chunk, up to the first that ends the reply. */
  method HandleLines(reply: Reply, lines: seq<string>, parse: Parser) returns (handled: Reply)
    requires reply.end.Open?
    ensures handled == HandleAll(reply, lines, parse)
  {
    handled := reply;
    for i := 0 to |lines|
      invariant handled == HandleAll(reply, lines[..i], parse) && handled.end.Open?
    {
      assert lines[..i + 1][..i] == lines[..i];
      handled := HandleLine(handled, lines[i], parse);
      if !handled.end.Open? {
        assert lines == lines[..i + 1] + lines[i + 1..];
        HandleAllConcat(reply, lines[..i + 1], lines[i + 1..], parse);
        EndedRepliesStay(handled, lines[i + 1..], parse);
        return;
      }
    }
    assert lines[..|lines|] == lines;
  }

  /** The read loop of sendMessage: whatever the chunks, the outcome is that of
      the whole text. */
  method ReadReply(chunks: seq<string>, ending: Ending, start: Message, parse: Parser) returns (outcome: Outcome)
    ensures outcome == OutcomeOf(ReplyOf(Concat(chunks), start, parse), ending)
    // The message stays unless the connection breaks before the reply has ended; an error is shown as it came.
    ensures var reply := ReplyOf(Concat(chunks), start, parse);
            && outcome.shown == (if reply.end.Open? && ending.Broken? then None else Some(reply.message))
            && (reply.end.Failed? ==> outcome.error == Some(reply.end.error))
            && (reply.end.Finished? ==> outcome.error == None)
            && (reply.end.Open? ==> (outcome.error == None <==> !ending.Broken?))
  {
    var buffer := "";
    var reply := Reply(start, Open);
    for i := 0 to |chunks|
      invariant reply.end.Open? && reply == ReplyOf(Concat(chunks[..i]), start, parse)
      invariant buffer == Rest(Concat(chunks[..i]))
    {
      ghost var before := Concat(chunks[..i]);
      assert chunks[..i + 1][..i] == chunks[..i];
      MoreText(before, chunks[i], start, parse);
      LinesOfMore(before, chunks[i]);
      buffer := buffer + chunks[i];
      var lines := Split(buffer, '\n');
      buffer, lines := lines[|lines| - 1], lines[..|lines| - 1];
      reply := HandleLines(reply, lines, parse);
      if !reply.end.Open? {
        EndedEarly(chunks, i + 1, start, parse);
        return OutcomeOf(reply, ending);
      }
    }
    assert chunks[..|chunks|] == chunks;
    return OutcomeOf(reply, ending);
  }

  // ---- What the message is made of ----

  predicate EndsReply(line: string, parse: Parser) {
    var data := Payload(line);
    data.Some? && (data.value == DONE || (parse(data.value).Some? && parse(data.value).value.error != ""))
  }

  predicate Ends(lines: seq<string>, parse: Parser) {
    lines != [] && (Ends(AllButLast(lines), parse) || EndsReply(Last(lines), parse))
  }

  function LineEvent(line: string, parse: Parser): seq<Event> {
    var data := Payload(line);
    if data.None? || EndsReply(line, parse) || parse(data.value).None? then [] else [parse(data.value).value]
  }

  /** The events of the lines before the first that ends the reply. */
  function Events(lines: seq<string>, parse: Parser): seq<Event> {
    if lines == [] then []
    else if Ends(AllButLast(lines), parse) then Events(AllButLast(lines), parse)
    else Events(AllButLast(lines), parse) + LineEvent(Last(lines), parse)
  }

  /** Events applied one after another. */
  function ApplyAll(m: Message, events: seq<Event>): Message {
    if events == [] then m else Apply(ApplyAll(m, events[..|events| - 1]), events[|events| - 1])
  }

  lemma ApplyOneMore(m: Message, events: seq<Event>, e: Event)
    ensures ApplyAll(m, events + [e]) == Apply(ApplyAll(m, events), e)
  {
    assert (events + [e])[..|events|] == events;
  }

  lemma HandledLine(reply: Reply, line: string, parse: Parser)
    requires reply.end.Open?
    ensures var after := Handle(reply, line, parse); var es := LineEvent(line, parse);
            && (after.end.Open? <==> !EndsReply(line, parse))
            && (es == [] ==> after.message == reply.message)
            && (es != [] ==> es == [es[0]] && after.message == Apply(reply.message, es[0]))
  {
  }

  /** The message is that of the events before the end, applied in order, and the
      reply ends exactly with the first line that ends it. */
  lemma {:induction false} MessageIsItsEvents(start: Message, lines: seq<string>, parse: Parser)
    ensures var reply := HandleAll(Reply(start, Open), lines, parse);
            && (reply.end.Open? <==> !Ends(lines, parse))
            && reply.message == ApplyAll(start, Events(lines, parse))
  {
    if lines != [] {
      var before := HandleAll(Reply(start, Open), AllButLast(lines), parse);
      MessageIsItsEvents(start, AllButLast(lines), parse);
      if before.end.Open? {
        var events, es := Events(AllButLast(lines), parse), LineEvent(Last(lines), parse);
        HandledLine(before, Last(lines), parse);
        if es == [] { assert events + es == events; } else { ApplyOneMore(start, events, es[0]); }
      }
    }
  }

  /** A reply ends as its first ending line says: finished at the marker, else failed
      with that line's error. */
  lemma EndsAsItsLineSays(start: Message, before: seq<string>, line: string, payload: string, after: seq<string>,
                          parse: Parser)
    requires !Ends(before, parse) && IsDataLine(line, payload) && EndsReply(line, parse)
    ensures var end := HandleAll(Reply(start, Open), before + [line] + after, parse).end;
            if payload == "[DONE]" then end == Finished
            else parse(payload).Some? && end == Failed(parse(payload).value.error)
  {
    PayloadExactly(line, payload);
    MessageIsItsEvents(start, before, parse);
    assert AllButLast(before + [line]) == before;
    var ended := HandleAll(Reply(start, Open), before + [line], parse);
    HandleAllConcat(Reply(start, Open), before + [line], after, parse);
    EndedRepliesStay(ended, after, parse);
  }

  function ContentOf(): Event -> string { (e: Event) => e.content }

  function CallOf(): Event -> seq<Call> {
    (e: Event) => if e.toolCall == "" then [] else [Call(e.toolCall, e.args, e.hash, None)]
  }

  function ActionOf(): Event -> seq<Action> {
    (e: Event) => if e.pendingAction == "" then [] else [Action(e.pendingAction, e.args, e.hash, e.preview)]
  }

  function LinkOf(): Event -> seq<Link> {
    (e: Event) => if e.path == "" then [] else [Link(e.path, if e.linkLabel == "" then e.path else e.linkLabel)]
  }

  /** A call as it was made: its name, arguments and hash. */
  function AsMade(): Call -> seq<Call> { (c: Call) => [c.(result := None)] }

  lemma {:induction false} AttachKeepsCalls(calls: seq<Call>, name: string, result: Option<string>)
    ensures FlatMap(Attach(calls, name, result), AsMade()) == FlatMap(calls, AsMade())
  {
    if calls != [] {
      var n := |calls| - 1;
      if !Waits(calls[n], name) { AttachKeepsCalls(calls[..n], name, result); }
    }
  }

  lemma AddCallAddsTheCall(m: Message, e: Event)
    ensures FlatMap(AddCall(m, e).calls, AsMade()) == FlatMap(m.calls, AsMade()) + CallOf()(e)
  {
    var call := Call(e.toolCall, e.args, e.hash, None);
    FlatMapConcat(m.calls, [call], AsMade());
    FlatMapOne(call, AsMade());
  }

  lemma TheRestKeepsCalls(m: Message, e: Event)
    ensures var after := AddLink(AddResult(AddAction(m, e), e), e);
            && after.content == m.content && FlatMap(after.calls, AsMade()) == FlatMap(m.calls, AsMade())
            && after.actions == m.actions + ActionOf()(e) && after.links == m.links + LinkOf()(e)
  {
    AttachKeepsCalls(m.calls, e.toolResult, e.result);
  }

  lemma ApplyAdds(m: Message, e: Event)
    ensures var after := Apply(m, e);
            && after.content == m.content + e.content
            && FlatMap(after.calls, AsMade()) == FlatMap(m.calls, AsMade()) + CallOf()(e)
            && after.actions == m.actions + ActionOf()(e) && after.links == m.links + LinkOf()(e)
  {
    var texted := m.(content := m.content + e.content);
    AddCallAddsTheCall(texted, e);
    TheRestKeepsCalls(AddCall(texted, e), e);
  }

  /** `m` is `start` with the texts, tool calls, actions and links of the events
      added, each in order. */
  predicate MadeOf(m: Message, start: Message, events: seq<Event>) {
    && m.content == start.content + FlatMap(events, ContentOf())
    && FlatMap(m.calls, AsMade()) == FlatMap(start.calls, AsMade()) + FlatMap(events, CallOf())
    && m.actions == start.actions + FlatMap(events, ActionOf())
    && m.links == start.links + FlatMap(events, LinkOf())
  }

  lemma Associates<T>(a: seq<T>, b: seq<T>, c: seq<T>)
    ensures a + b + c == a + (b + c)
  {
  }

  lemma MadeOfMore(m: Message, start: Message, events: seq<Event>, e: Event)
    requires MadeOf(m, start, events)
    ensures MadeOf(Apply(m, e), start, events + [e])
  {
    ApplyAdds(m, e);
    FlatMapOneMore(start.content, events, e, ContentOf());
    FlatMapOneMore(FlatMap(start.calls, AsMade()), events, e, CallOf());
    FlatMapOneMore(start.actions, events, e, ActionOf());
    FlatMapOneMore(start.links, events, e, LinkOf());
  }

  lemma FlatMapOneMore<T>(start: seq<T>, events: seq<Event>, e: Event, f: Event -> seq<T>)
    ensures start + FlatMap(events + [e], f) == start + FlatMap(events, f) + f(e)
  {
    FlatMapConcat(events, [e], f);
    FlatMapOne(e, f);
    Associates(start, FlatMap(events, f), f(e));
  }

  /** No text, call, action or link is dropped, doubled or moved: results change
      nothing of a call but its result. */
  lemma {:induction false} AppliedEventsMakeTheMessage(start: Message, events: seq<Event>)
    ensures MadeOf(ApplyAll(start, events), start, events)
  {
    if events == [] {
      assert start.content + "" == start.content;
    } else {
      var n := |events| - 1;
      AppliedEventsMakeTheMessage(start, events[..n]);
      MadeOfMore(ApplyAll(start, events[..n]), start, events[..n], events[n]);
      assert events == events[..n] + [events[n]];
    }
  }

  // ---- Whose result it is ----

  /** An event, and the number of the call that its result, if it has one, is for. */
  datatype Tagged = Tagged(e: Event, of: nat)

  function Untagged(tags: seq<Tagged>): seq<Event> {
    if tags == [] then [] else Untagged(tags[..|tags| - 1]) + [tags[|tags| - 1].e]
  }

  /** The calls, each with the result that is for it. */
  function Own(tags: seq<Tagged>): seq<Call> {
    if tags == [] then []
    else
      var before, t := Own(tags[..|tags| - 1]), tags[|tags| - 1];
      if t.e.toolCall != "" then before + [Call(t.e.toolCall, t.e.args, t.e.hash, None)]
      else if t.e.toolResult != "" && t.of < |before| then before[t.of := before[t.of].(result := t.e.result)]
      else before
  }

  /** Calls and results come in events of their own, and a result is for a call of
      its name that has none yet. */
  predicate Matched(tags: seq<Tagged>) {
    tags == [] ||
    var before, t := tags[..|tags| - 1], tags[|tags| - 1];
    && Matched(before)
    && (t.e.toolResult != "" ==>
          && t.e.toolCall == "" && t.e.result.Some?
          && t.of < |Own(before)| && Own(before)[t.of].name == t.e.toolResult && Own(before)[t.of].result.None?)
  }

  function Shown(tags: seq<Tagged>): seq<Call> {
    ApplyAll(EMPTY_MESSAGE, Untagged(tags)).calls
  }

  /** At every moment each call is shown with its own result. */
  predicate Reached(tags: seq<Tagged>) {
    tags == [] || (Reached(tags[..|tags| - 1]) && Shown(tags) == Own(tags))
  }

  /** Whenever a result comes, no later call of its name is still without one. */
  predicate InTurn(tags: seq<Tagged>) {
    tags == [] ||
    var before, t := tags[..|tags| - 1], tags[|tags| - 1];
    && InTurn(before)
    && (t.e.toolResult != "" ==>
          forall j :: t.of < j < |Own(before)| && Own(before)[j].name == t.e.toolResult ==> Own(before)[j].result.Some?)
  }

  lemma ShownNext(tags: seq<Tagged>)
    requires tags != []
    ensures Shown(tags) == Apply(ApplyAll(EMPTY_MESSAGE, Untagged(tags[..|tags| - 1])), tags[|tags| - 1].e).calls
  {
    ApplyOneMore(EMPTY_MESSAGE, Untagged(tags[..|tags| - 1]), tags[|tags| - 1].e);
  }

  lemma {:induction false} LastWaiting(calls: seq<Call>, j: nat, name: string) returns (k: nat)
    requires j < |calls| && Waits(calls[j], name)
    ensures j <= k < |calls| && Waits(calls[k], name) && forall i :: k < i < |calls| ==> !Waits(calls[i], name)
    decreases |calls| - j
  {
    k := j;
    if i :| j < i < |calls| && Waits(calls[i], name) { k := LastWaiting(calls, i, name); }
  }

  /** A result reaches its call if and only if no later call of the name waits. */
  lemma OneResultReaches(calls: seq<Call>, of: nat, name: string, result: string)
    requires of < |calls| && Waits(calls[of], name)
    ensures Attach(calls, name, Some(result)) == calls[of := calls[of].(result := Some(result))]
            <==> forall j :: of < j < |calls| ==> !Waits(calls[j], name)
  {
    var k := LastWaiting(calls, of, name);
    AttachAnswersTheLastWaiting(calls, k, name, Some(result));
    if k != of { assert calls[k := calls[k].(result := Some(result))][k] != calls[k]; }
  }

  lemma StepReaches(tags: seq<Tagged>)
    requires tags != [] && Matched(tags) && Shown(tags[..|tags| - 1]) == Own(tags[..|tags| - 1])
    ensures var before, t := tags[..|tags| - 1], tags[|tags| - 1];
            Shown(tags) == Own(tags) <==>
            (t.e.toolResult != "" ==> forall j :: t.of < j < |Own(before)| ==> !Waits(Own(before)[j], t.e.toolResult))
  {
    var before, t := tags[..|tags| - 1], tags[|tags| - 1];
    ShownNext(tags);
    if t.e.toolResult != "" { OneResultReaches(Own(before), t.of, t.e.toolResult, t.e.result.value); }
  }

  /** Every result of a stream reaches the call it is for if and only if none comes
      while a later call of its name still waits. */
  lemma {:induction false} ResultsReachTheirCallsExactlyWhen(tags: seq<Tagged>)
    requires Matched(tags)
    ensures Reached(tags) <==> InTurn(tags)
  {
    if tags != [] {
      var before := tags[..|tags| - 1];
      ResultsReachTheirCallsExactlyWhen(before);
      if Reached(before) {
        if before == [] { assert Shown(before) == Own(before); }
        StepReaches(tags);
      }
    }
  }

  /** No call is made while another still waits for its result, which is how the
      assistant's backend runs its tools. */
  predicate OneAtATime(tags: seq<Tagged>) {
    tags == [] ||
    var before, t := tags[..|tags| - 1], tags[|tags| - 1];
    OneAtATime(before) && (t.e.toolCall != "" ==> forall j :: 0 <= j < |Own(before)| ==> Own(before)[j].result.Some?)
  }

  lemma {:induction false} OnlyTheLastWaits(tags: seq<Tagged>)
    requires Matched(tags) && OneAtATime(tags)
    ensures forall j :: 0 <= j < |Own(tags)| - 1 ==> Own(tags)[j].result.Some?
  {
    if tags != [] { OnlyTheLastWaits(tags[..|tags| - 1]); }
  }

  lemma {:induction false} OneAtATimeIsInTurn(tags: seq<Tagged>)
    requires Matched(tags) && OneAtATime(tags)
    ensures InTurn(tags)
  {
    if tags != [] {
      OneAtATimeIsInTurn(tags[..|tags| - 1]);
      OnlyTheLastWaits(tags[..|tags| - 1]);
    }
  }

  /** So with tools run one at a time every result is shown at its own call, in
      streams of any length. */
  lemma ToolsOneAtATimeShowTheirResults(tags: seq<Tagged>)
    requires Matched(tags) && OneAtATime(tags)
    ensures Shown(tags) == Own(tags)
  {
    OneAtATimeIsInTurn(tags);
    ResultsReachTheirCallsExactlyWhen(tags);
    if tags == [] { assert Shown(tags) == []; }
  }

  /** Outside the condition: of two waiting calls of one name, answered in the order
      they were made, each is shown with the other's result. */
  lemma TwinCallsAreAnsweredInReverse(calls: seq<Call>, a: Call, b: Call, name: string, first: string, second: string)
    requires a.name == name && a.result.None? && b.name == name && b.result.None?
    ensures Attach(Attach(calls + [a, b], name, Some(first)), name, Some(second))
         == calls + [a.(result := Some(second)), b.(result := Some(first))]
  {
    var n := |calls|;
    AttachAnswersTheLastWaiting(calls + [a, b], n + 1, name, Some(first));
    var once := Attach(calls + [a, b], name, Some(first));
    assert once == calls + [a, b.(result := Some(first))];
    AttachAnswersTheLastWaiting(once, n, name, Some(second));
  }
}
