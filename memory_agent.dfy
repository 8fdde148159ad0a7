/**
 * memory_agent.py: a console chat whose history survives between runs in a
 * line-oriented log. Each human message is written as "User: <text>", each
 * AI message as "AI: <text>", and the log ends with a blank line and the
 * marker "End of conversation.". Loading keeps the tagged lines and skips
 * every other line.
 */
module MemoryAgent {
  import opened Wrappers
  import opened Text
  import opened Messages

  const UserTag := "User:"
  const AITag := "AI:"
  const EndMarker := "End of conversation."

  /** What opening and reading the log file gives. */
  datatype ReadResult = Contents(text: string) | NotFound | ReadFailed(reason: string)

  /** A message the log can represent: a human message, or an AI message without tool calls. */
  predicate IsPlain(m: Message) {
    m.Human? || (m.AI? && m.toolCalls == [])
  }

  // ---------------------------------------------------------------------------
  // Loading the log

  /** One line of the log: a message when, stripped, it starts with one of the tags. */
  function ParseLine(raw: string): (r: Option<Message>)
    ensures r.Some? <==> StartsWith(Strip(raw), UserTag) || StartsWith(Strip(raw), AITag)
    ensures r.Some? ==> IsPlain(r.value) && IsStripped(r.value.content)
    ensures r.Some? ==> (r.value.Human? <==> StartsWith(Strip(raw), UserTag))
  {
    var line := Strip(raw);
    if StartsWith(line, UserTag) then Some(Human(Strip(RemoveAll(line, UserTag))))
    else if StartsWith(line, AITag) then Some(AI(Strip(RemoveAll(line, AITag)), []))
    else None
  }

  /** The messages of a sequence of lines, in file order. */
  function ParseLines(lines: seq<string>): (messages: seq<Message>)
    ensures |messages| <= |lines|
    ensures forall m :: m in messages ==> IsPlain(m)
  {
    if lines == [] then []
    else ParseLines(lines[..|lines| - 1]) + ParseLine(lines[|lines| - 1]).ToSeq()
  }

  /** Parsing respects file order: the messages of two stretches of lines are concatenated. */
  lemma {:induction false} ParseLinesAppend(a: seq<string>, b: seq<string>)
    ensures ParseLines(a + b) == ParseLines(a) + ParseLines(b)
  {
    if b == [] {
      assert a + b == a;
    } else {
      var init := b[..|b| - 1];
      assert (a + b)[..|a + b| - 1] == a + init;
      assert (a + b)[|a + b| - 1] == b[|b| - 1];
      ParseLinesAppend(a, init);
    }
  }

  /** Reading one more line adds that line's message, if any. */
  lemma ParseLinesStep(lines: seq<string>, i: nat)
    requires i < |lines|
    ensures ParseLines(lines[..i + 1]) == ParseLines(lines[..i]) + ParseLine(lines[i]).ToSeq()
  {
    assert lines[..i + 1][..i] == lines[..i];
  }

  /** The history a run starts with; any failure to read gives the empty history. */
  function LoadedHistory(file: ReadResult): (messages: seq<Message>)
    ensures !file.Contents? ==> messages == []
    ensures forall m :: m in messages ==> IsPlain(m)
  {
    match file
    case Contents(text) => ParseLines(Lines(UniversalNewlines(text)))
    case _ => []
  }

  /** load_conversation_history: a loop over the lines of the file that appends each tagged line. */
  method LoadConversationHistory(file: ReadResult) returns (messages: seq<Message>)
    ensures messages == LoadedHistory(file)
  {
    match file
    case NotFound =>
      return [];
    case ReadFailed(_) =>
      return [];
    case Contents(text) =>
      var lines := Lines(UniversalNewlines(text));
      messages := [];
      for i := 0 to |lines|
        invariant messages == ParseLines(lines[..i])
      {
        ParseLinesStep(lines, i);
        var line := Strip(lines[i]);
        if StartsWith(line, UserTag) {
          messages := messages + [Human(Strip(RemoveAll(line, UserTag)))];
        } else if StartsWith(line, AITag) {
          messages := messages + [AI(Strip(RemoveAll(line, AITag)), [])];
        }
      }
      assert lines[..|lines|] == lines;
  }

  // ---------------------------------------------------------------------------
  // Writing the log

  /** The line written for one message; other kinds of message are not written. */
  function RenderLine(m: Message): Option<string> {
    match m
    case Human(c) => Some(UserTag + " " + c + "\n")
    case AI(c, _) => Some(AITag + " " + c + "\n")
    case _ => None
  }

  function RenderedLines(history: seq<Message>): seq<string> {
    if history == [] then []
    else RenderedLines(history[..|history| - 1]) + RenderLine(history[|history| - 1]).ToSeq()
  }

  /** The whole log file written for a history. */
  function Serialised(history: seq<Message>): string {
    Concat(RenderedLines(history)) + "\n" + EndMarker + "\n"
  }

  /** The text written for one message: its line, or nothing. */
  function RenderedText(m: Message): string {
    match RenderLine(m)
    case Some(line) => line
    case None => []
  }

  /** Writing one more message extends the file by that message's line. */
  lemma WrittenPrefix(history: seq<Message>, i: nat)
    requires i < |history|
    ensures Concat(RenderedLines(history[..i + 1])) == Concat(RenderedLines(history[..i])) + RenderedText(history[i])
  {
    var before := RenderedLines(history[..i]);
    assert history[..i + 1][..i] == history[..i];
    assert RenderedLines(history[..i + 1]) == before + RenderLine(history[i]).ToSeq();
    match RenderLine(history[i])
    case Some(line) =>
      ConcatSnoc(before, line);
    case None =>
      assert before + [] == before;
  }

  /** The write loop at the end of the script: one line per human or AI message, then the trailer. */
  method WriteConversationHistory(history: seq<Message>) returns (text: string)
    ensures text == Serialised(history)
  {
    text := "";
    for i := 0 to |history|
      invariant text == Concat(RenderedLines(history[..i]))
    {
      WrittenPrefix(history, i);
      match history[i]
      case Human(c) =>
        text := text + (UserTag + " " + c + "\n");
      case AI(c, _) =>
        text := text + (AITag + " " + c + "\n");
      case _ =>
    }
    assert history[..|history|] == history;
    text := text + "\n" + EndMarker + "\n";
  }

  // ---------------------------------------------------------------------------
  // Round trip

  /** What a message becomes once written and read back, if it is written at all. */
  function Reloaded(m: Message): Option<Message> {
    match m
    case Human(c) => Some(Human(c))
    case AI(c, _) => Some(AI(c, []))
    case _ => None
  }

  function Kept(history: seq<Message>): seq<Message> {
    if history == [] then []
    else Kept(history[..|history| - 1]) + Reloaded(history[|history| - 1]).ToSeq()
  }

  /** A content that fits on one log line. */
  predicate OneLine(c: string) {
    '\n' !in c && '\r' !in c
  }

  /** The content conditions under which a message survives the log unchanged. */
  predicate Storable(m: Message) {
    match m
    case Human(c) => OneLine(c) && IsStripped(c) && !Contains(c, UserTag)
    case AI(c, _) => OneLine(c) && IsStripped(c) && !Contains(c, AITag)
    case _ => true
  }

  predicate Writable(m: Message) {
    (m.Human? || m.AI?) ==> OneLine(m.content)
  }

  lemma {:induction false} RenderedLinesAreLines(history: seq<Message>)
    requires forall m :: m in history ==> Writable(m)
    ensures forall i :: 0 <= i < |RenderedLines(history)| ==>
      IsLine(RenderedLines(history)[i]) && '\r' !in RenderedLines(history)[i]
  {
    if history != [] {
      var init, m := history[..|history| - 1], history[|history| - 1];
      assert forall x :: x in init ==> x in history;
      assert m in history;
      RenderedLinesAreLines(init);
      match m
      case Human(c) =>
        var l := UserTag + " " + c + "\n";
        assert l[..|l| - 1] == UserTag + " " + c;
      case AI(c, _) =>
        var l := AITag + " " + c + "\n";
        assert l[..|l| - 1] == AITag + " " + c;
      case _ =>
    }
  }

  lemma SameTail(a: seq<string>, b: seq<string>, x: seq<string>, y: seq<string>)
    requires x == a + b && b == y
    ensures x == a + y
  {
  }

  /** The trailer, a blank line and the marker line, reads back as two lines. */
  lemma TrailerLines(marker: string)
    requires '\n' !in marker
    ensures Lines("\n" + marker + "\n") == ["\n", marker + "\n"]
  {
    var empty: string := [];
    TwoLines(empty, marker);
    assert empty + "\n" == "\n";
    assert empty + "\n" + (marker + "\n") == "\n" + marker + "\n";
  }

  lemma EndMarkerOneLine()
    ensures '\r' !in EndMarker && '\n' !in EndMarker
  {
  }

  /** The file written for a history reads back as its rendered lines, then the two trailer lines. */
  lemma SerialisedLines(history: seq<Message>)
    requires forall m :: m in history ==> Writable(m)
    ensures Lines(UniversalNewlines(Serialised(history)))
      == RenderedLines(history) + ["\n", EndMarker + "\n"]
  {
    var rendered := RenderedLines(history);
    var marker := EndMarker;
    var trailer := "\n" + marker + "\n";
    RenderedLinesAreLines(history);
    assert forall t :: t in rendered ==> '\r' !in t;
    ConcatNoChar(rendered, '\r');
    EndMarkerOneLine();
    assert Serialised(history) == Concat(rendered) + trailer;
    UniversalNewlinesNoCR(Serialised(history));
    LinesOfConcat(rendered, trailer);
    TrailerLines(marker);
    SameTail(rendered, Lines(trailer), Lines(Serialised(history)), ["\n", marker + "\n"]);
  }

  /** A line whose stripped text starts with neither tag yields no message. */
  lemma SkippedLine(raw: string)
    requires Strip(raw) == [] || (Strip(raw)[0] != 'U' && Strip(raw)[0] != 'A')
    ensures ParseLine(raw) == None
  {
    assert !StartsWith(Strip(raw), UserTag) by {
      assert UserTag[0] == 'U';
    }
    assert !StartsWith(Strip(raw), AITag) by {
      assert AITag[0] == 'A';
    }
  }

  lemma ParseSingle(raw: string)
    ensures ParseLines([raw]) == ParseLine(raw).ToSeq()
  {
    assert [raw][..0] == [];
  }

  /** The blank line and the end marker are skipped. */
  lemma TrailerSkipped()
    ensures ParseLines(["\n", EndMarker + "\n"]) == []
  {
    var blank, marker := "\n", EndMarker;
    StripPadded(blank, [], []);
    assert blank + [] + [] == blank;
    SkippedLine(blank);
    assert IsStripped(marker) && marker[0] == 'E';
    StripLine(marker);
    SkippedLine(marker + "\n");
    ParseSingle(blank);
    ParseLinesAppend([blank], [marker + "\n"]);
    ParseSingle(marker + "\n");
    assert [blank] + [marker + "\n"] == [blank, marker + "\n"];
  }

  /** Strip removes the line's own '\n'. */
  lemma StripLine(line: string)
    requires IsStripped(line)
    ensures Strip(line + "\n") == line
  {
    StripPadded([], line, "\n");
    assert [] + line + "\n" == line + "\n";
  }

  /** Deleting the tag from "<tag> <c>" leaves " <c>" when c does not contain the tag. */
  lemma RemoveTag(tag: string, c: string)
    requires tag != [] && tag[0] != ' ' && !Contains(c, tag)
    ensures RemoveAll(tag + " " + c, tag) == " " + c
  {
    var s, t := tag + " " + c, " " + c;
    assert s[..|tag|] == tag;
    assert s[|tag|..] == t;
    assert RemoveAll(s, tag) == RemoveAll(t, tag);
    assert t[0] != tag[0];
    assert t[1..] == c;
    RemoveAllAbsent(c, tag);
    assert RemoveAll(t, tag) == [t[0]] + c;
  }

  /** An empty content: the line "<tag> " strips to the bare tag, which deletes to nothing. */
  lemma TaggedEmptyLine(tag: string)
    requires tag != [] && IsStripped(tag)
    ensures Strip(tag + " " + "\n") == tag
    ensures Strip(RemoveAll(tag, tag)) == []
  {
    assert tag + " " + "\n" == [] + tag + " \n";
    StripPadded([], tag, " \n");
    assert tag[..|tag|] == tag;
    assert tag[|tag|..] == [];
  }

  /** A non-empty content: "<tag> <c>" keeps its text, and deleting the tag gives c back. */
  lemma TaggedTextLine(tag: string, c: string)
    requires tag != [] && IsStripped(tag)
    requires c != [] && IsStripped(c) && !Contains(c, tag)
    ensures Strip(tag + " " + c + "\n") == tag + " " + c
    ensures Strip(RemoveAll(tag + " " + c, tag)) == c
  {
    var line := tag + " " + c;
    assert line[0] == tag[0];
    assert line[|line| - 1] == c[|c| - 1];
    StripLine(line);
    RemoveTag(tag, c);
    StripPadded(" ", c, []);
    assert " " + c + [] == " " + c;
  }

  /** The tagged line written for a content meeting the conditions gives that content back. */
  lemma TaggedLine(tag: string, c: string)
    requires tag != [] && IsStripped(tag)
    requires IsStripped(c) && !Contains(c, tag)
    ensures StartsWith(Strip(tag + " " + c + "\n"), tag)
    ensures Strip(RemoveAll(Strip(tag + " " + c + "\n"), tag)) == c
  {
    if c == [] {
      TaggedEmptyLine(tag);
      assert tag + " " + c + "\n" == tag + " " + "\n";
      assert tag[..|tag|] == tag;
    } else {
      TaggedTextLine(tag, c);
      assert (tag + " " + c)[..|tag|] == tag;
    }
  }

  lemma ParseRendered(m: Message)
    requires Storable(m)
    ensures ParseLines(RenderLine(m).ToSeq()) == Reloaded(m).ToSeq()
  {
    match m
    case Human(c) =>
      var tag := UserTag;
      assert IsStripped(tag);
      TaggedLine(tag, c);
      ParseSingle(tag + " " + c + "\n");
    case AI(c, _) =>
      var tag, other := AITag, UserTag;
      assert IsStripped(tag) && tag[0] != other[0];
      TaggedLine(tag, c);
      var raw := tag + " " + c + "\n";
      assert !StartsWith(Strip(raw), other) by {
        assert Strip(raw)[0] == tag[0];
      }
      ParseSingle(raw);
    case _ =>
  }

  lemma {:induction false} ParseRenderedLines(history: seq<Message>)
    requires forall m :: m in history ==> Storable(m)
    ensures ParseLines(RenderedLines(history)) == Kept(history)
  {
    if history != [] {
      var init, m := history[..|history| - 1], history[|history| - 1];
      assert forall x :: x in init ==> x in history;
      assert m in history;
      ParseRenderedLines(init);
      ParseLinesAppend(RenderedLines(init), RenderLine(m).ToSeq());
      ParseRendered(m);
    }
  }

  /** Reading back a written file parses exactly the rendered lines: the trailer adds nothing. */
  lemma LoadedSerialised(history: seq<Message>)
    requires forall m :: m in history ==> Writable(m)
    ensures LoadedHistory(Contents(Serialised(history))) == ParseLines(RenderedLines(history))
  {
    SerialisedLines(history);
    ParseLinesAppend(RenderedLines(history), ["\n", EndMarker + "\n"]);
    TrailerSkipped();
  }

  /**
   * Reading back the file written for a history gives its human and AI
   * messages, in order and with equal contents, provided each content is
   * stripped, fits on one line and does not contain its own tag.
   */
  lemma RoundTrip(history: seq<Message>)
    requires forall m :: m in history ==> Storable(m)
    ensures LoadedHistory(Contents(Serialised(history))) == Kept(history)
  {
    LoadedSerialised(history);
    ParseRenderedLines(history);
  }

  /**
   * The messages this script produces are all kept by the log; with
   * `RoundTrip`, reading such a history back gives exactly the history.
   */
  lemma {:induction false} KeptPlain(history: seq<Message>)
    requires forall m :: m in history ==> IsPlain(m)
    ensures Kept(history) == history
  {
    if history != [] {
      var init := history[..|history| - 1];
      assert forall x :: x in init ==> x in history;
      assert history[|history| - 1] in history;
      KeptPlain(init);
      assert init + [history[|history| - 1]] == history;
    }
  }

  lemma RemoveDoubledTag(tag: string)
    requires tag != [] && tag[0] != ' '
    ensures RemoveAll(tag + " " + tag, tag) == " "
  {
    var line, rest := tag + " " + tag, " " + tag;
    assert line[..|tag|] == tag && line[|tag|..] == rest;
    assert rest[0] != tag[0] && rest[1..] == tag;
    assert tag[..|tag|] == tag && tag[|tag|..] == [];
    assert RemoveAll(tag, tag) == [];
  }

  /** The line "<tag> <tag>" loses both tags and reads back as an empty content. */
  lemma DoubledTagLine(tag: string)
    requires tag != [] && IsStripped(tag)
    ensures Strip(tag + " " + tag + "\n") == tag + " " + tag
    ensures Strip(RemoveAll(Strip(tag + " " + tag + "\n"), tag)) == []
  {
    var line := tag + " " + tag;
    assert line[0] == tag[0] && line[|line| - 1] == tag[|tag| - 1];
    StripLine(line);
    RemoveDoubledTag(tag);
    StripPadded(" ", [], []);
    assert " " + [] + [] == " ";
  }

  /**
   * A human message that contains its own tag is altered by the round trip:
   * the message "User:" is read back as an empty message.
   */
  lemma TagInContentIsLost()
    ensures LoadedHistory(Contents(Serialised([Human(UserTag)]))) == [Human("")]
    ensures Kept([Human(UserTag)]) != [Human("")]
  {
    var tag := UserTag;
    assert Writable(Human(tag));
    LoadedOne(Human(tag));
    DoubledHumanLine();
    KeptOne(Human(tag));
    assert tag != "";
  }

  /** The log of a single written message reads back as that message's line parsed. */
  lemma LoadedOne(m: Message)
    requires Writable(m) && RenderLine(m).Some?
    ensures LoadedHistory(Contents(Serialised([m]))) == ParseLine(RenderLine(m).value).ToSeq()
  {
    assert [m][..0] == [];
    assert RenderedLines([m]) == [RenderLine(m).value];
    LoadedSerialised([m]);
    ParseSingle(RenderLine(m).value);
  }

  lemma KeptOne(m: Message)
    ensures Kept([m]) == Reloaded(m).ToSeq()
  {
    assert [m][..0] == [];
  }

  /** The line the log holds for the human message "User:". */
  lemma DoubledHumanLine()
    ensures ParseLine(UserTag + " " + UserTag + "\n") == Some(Human([]))
  {
    var tag := UserTag;
    assert IsStripped(tag);
    DoubledTagLine(tag);
    assert (tag + " " + tag)[..|tag|] == tag;
  }

  // ---------------------------------------------------------------------------
  // The chat loop

  /** The graph state: the message list that the process node appends to in place. */
  class AgentState {
    var messages: seq<Message>

    constructor (messages: seq<Message>)
      ensures this.messages == messages
    {
      this.messages := messages;
    }

    /**
     * process: asks the model (an arbitrary function of the history it is
     * shown) and appends its reply as one AI message.
     */
    method Process(respond: seq<Message> -> string)
      modifies this
      ensures messages == old(messages) + [AI(respond(old(messages)), [])]
    {
      var reply := respond(messages);
      messages := messages + [AI(reply, [])];
    }
  }

  /** The loop's stop condition: the input equals "exit" ignoring case. */
  predicate IsExit(input: string) {
    Lower(input) == "exit"
  }

  /** How the console session ends: on "exit", or with the input running out (EOFError). */
  datatype SessionEnd = Exited(history: seq<Message>) | InputExhausted

  /** The history the chat loop reaches on a given sequence of console lines. */
  function Session(history: seq<Message>, inputs: seq<string>, respond: seq<Message> -> string): SessionEnd
    decreases |inputs|
  {
    if inputs == [] then InputExhausted
    else if IsExit(inputs[0]) then Exited(history)
    else
      var asked := history + [Human(inputs[0])];
      Session(asked + [AI(respond(asked), [])], inputs[1..], respond)
  }

  /** The console loop: append the human message, run the graph once, read the next line. */
  method Converse(history: seq<Message>, inputs: seq<string>, respond: seq<Message> -> string)
    returns (outcome: SessionEnd)
    ensures outcome == Session(history, inputs, respond)
  {
    if |inputs| == 0 {
      return InputExhausted;
    }
    var userInput, next := inputs[0], 1;
    var conversation := history;
    while Lower(userInput) != "exit"
      invariant 1 <= next <= |inputs| && userInput == inputs[next - 1]
      invariant Session(history, inputs, respond) == Session(conversation, inputs[next - 1..], respond)
      decreases |inputs| - next
    {
      conversation := conversation + [Human(userInput)];
      var state := new AgentState(conversation);
      state.Process(respond);
      conversation := state.messages;
      if next == |inputs| {
        return InputExhausted;
      }
      assert inputs[next - 1..][1..] == inputs[next..];
      userInput, next := inputs[next], next + 1;
    }
    return Exited(conversation);
  }

  /** Index of the first "exit" line, or the number of lines when there is none. */
  function ExitIndex(inputs: seq<string>): (k: nat)
    ensures k <= |inputs|
    ensures k < |inputs| ==> IsExit(inputs[k])
    ensures forall j :: 0 <= j < k ==> !IsExit(inputs[j])
  {
    if inputs == [] || IsExit(inputs[0]) then 0 else 1 + ExitIndex(inputs[1..])
  }

  /**
   * final is base followed by k turns: the i-th line of inputs as a human
   * message, then the model's reply to everything before it as an AI message.
   */
  predicate Turns(base: seq<Message>, final: seq<Message>, inputs: seq<string>, k: nat, respond: seq<Message> -> string)
    requires k <= |inputs|
  {
    |final| == |base| + 2 * k && final[..|base|] == base &&
    forall j :: 0 <= j < k ==>
      final[|base| + 2 * j] == Human(inputs[j]) &&
      final[|base| + 2 * j + 1] == AI(respond(final[..|base| + 2 * j + 1]), [])
  }

  /** One turn in front of k turns makes k + 1 turns. */
  lemma TurnsCons(history: seq<Message>, final: seq<Message>, inputs: seq<string>, k: nat, respond: seq<Message> -> string)
    requires 0 < k <= |inputs|
    requires Turns(history + [Human(inputs[0])] + [AI(respond(history + [Human(inputs[0])]), [])], final, inputs[1..], k - 1, respond)
    ensures Turns(history, final, inputs, k, respond)
  {
    var asked := history + [Human(inputs[0])];
    var next := asked + [AI(respond(asked), [])];
    assert final[..|history|] == final[..|next|][..|history|];
    forall j | 0 <= j < k
      ensures final[|history| + 2 * j] == Human(inputs[j])
      ensures final[|history| + 2 * j + 1] == AI(respond(final[..|history| + 2 * j + 1]), [])
    {
      if j == 0 {
        assert final[|history|] == next[|history|];
        assert final[..|history| + 1] == final[..|next|][..|history| + 1] == asked;
      } else {
        assert inputs[1..][j - 1] == inputs[j];
        assert |next| + 2 * (j - 1) == |history| + 2 * j;
      }
    }
  }

  /**
   * The session ends normally exactly when some line is "exit"; each line
   * before it adds one human message carrying that line, then one AI message
   * holding the model's reply to the whole history up to that human message.
   */
  lemma {:induction false} SessionTurns(history: seq<Message>, inputs: seq<string>, respond: seq<Message> -> string)
    ensures Session(history, inputs, respond).Exited? <==> ExitIndex(inputs) < |inputs|
    ensures Session(history, inputs, respond).Exited? ==>
      Turns(history, Session(history, inputs, respond).history, inputs, ExitIndex(inputs), respond)
    decreases |inputs|
  {
    if inputs != [] && !IsExit(inputs[0]) {
      var asked := history + [Human(inputs[0])];
      var next := asked + [AI(respond(asked), [])];
      SessionTurns(next, inputs[1..], respond);
      if Session(history, inputs, respond).Exited? {
        TurnsCons(history, Session(history, inputs, respond).history, inputs, ExitIndex(inputs), respond);
      }
    }
  }

  /** Everything a run leaves behind holds only messages the log can represent. */
  lemma {:induction false} SessionKeepsPlain(history: seq<Message>, inputs: seq<string>, respond: seq<Message> -> string)
    requires forall m :: m in history ==> IsPlain(m)
    ensures Session(history, inputs, respond).Exited? ==>
      forall m :: m in Session(history, inputs, respond).history ==> IsPlain(m)
    decreases |inputs|
  {
    if inputs != [] && !IsExit(inputs[0]) {
      var asked := history + [Human(inputs[0])];
      SessionKeepsPlain(asked + [AI(respond(asked), [])], inputs[1..], respond);
    }
  }

  /** The whole script: load the log, chat, and write the log unless the input ran out. */
  method RunScript(file: ReadResult, inputs: seq<string>, respond: seq<Message> -> string)
    returns (written: Option<string>)
    ensures written == match Session(LoadedHistory(file), inputs, respond)
      case Exited(h) => Some(Serialised(h))
      case InputExhausted => None
  {
    var history := LoadConversationHistory(file);
    var outcome := Converse(history, inputs, respond);
    match outcome
    case InputExhausted =>
      written := None;
    case Exited(h) =>
      var text := WriteConversationHistory(h);
      written := Some(text);
  }

  /**
   * The next run starts where this one stopped: when every content meets the
   * log's conditions, loading the file this run wrote gives its final history.
   */
  lemma NextRunResumes(file: ReadResult, inputs: seq<string>, respond: seq<Message> -> string)
    requires Session(LoadedHistory(file), inputs, respond).Exited?
    requires forall m :: m in Session(LoadedHistory(file), inputs, respond).history ==> Storable(m)
    ensures LoadedHistory(Contents(Serialised(Session(LoadedHistory(file), inputs, respond).history)))
      == Session(LoadedHistory(file), inputs, respond).history
  {
    var final := Session(LoadedHistory(file), inputs, respond).history;
    SessionKeepsPlain(LoadedHistory(file), inputs, respond);
    RoundTrip(final);
    KeptPlain(final);
  }
}
