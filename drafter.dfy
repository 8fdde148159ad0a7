/**
 * The drafter: a writing assistant whose graph alternates between an agent
 * node, which asks the user for an instruction and calls the language model,
 * and a tools node, which runs the tools the model requested. The document
 * being drafted is a global text that the `update` tool overwrites and the
 * `save` tool writes to a file. The run ends once the last tool result
 * of a tools step mentions both "saved" and "document", in any case.
 */
module Drafter {
  import opened Wrappers
  import opened Text
  import opened Messages

  /** The user turn sent on the very first call, when the history is still empty. */
  const Greeting := "I'm ready to start drafting. what would you like me to do?"

  const UpdatedPrefix := "Document updated with content: "
  const SavedPrefix := "Document saved to "
  const SaveErrorPrefix := "An error occurred while saving the document: "

  /** The closing line of the system prompt, which shows the current document. */
  const PromptLead := "\n\n            The current document content is: "
  const PromptClosing := "\n            "

  /** A file written by the save tool: its name and the text written to it. */
  datatype File = File(name: string, text: string)

  /**
   * What the run needs from the outside world: the language model, the
   * error (if any) that writing a file of a given name raises, and the text
   * the tool node reports for a call it cannot dispatch.
   */
  datatype Environment = Environment(
    respond: seq<Message> -> Reply,
    failsWith: string -> Option<string>,
    invalid: ToolCall -> string)

  // ---------------------------------------------------------------------------
  // The save tool's file name

  /** The file name rule as the save tool states it: a ".txt" name gets a second ".txt". */
  function SaveTarget(filename: string): string {
    if EndsWith(filename, ".txt") then filename + ".txt" else filename
  }

  lemma AppendedSuffix(s: string, suffix: string)
    ensures EndsWith(s + suffix, suffix)
  {
    assert (s + suffix)[|s + suffix| - |suffix|..] == suffix;
  }

  /**
   * As written, the rule is inverted: a name that ends in ".txt" is changed,
   * and a name without the extension is used unchanged.
   */
  lemma SaveTargetInverted(filename: string)
    ensures SaveTarget(filename) != filename <==> EndsWith(filename, ".txt")
    ensures EndsWith(SaveTarget(filename), ".txt") <==> EndsWith(filename, ".txt")
  {
    if EndsWith(filename, ".txt") {
      AppendedSuffix(filename, ".txt");
    }
  }

  /** The two inputs that show it: "a.txt" is saved as "a.txt.txt" and "notes" as "notes". */
  lemma SaveTargetExamples()
    ensures SaveTarget("a.txt") == "a.txt.txt"
    ensures SaveTarget("notes") == "notes" && !EndsWith(SaveTarget("notes"), ".txt")
  {
    var named := "a.txt";
    assert EndsWith(named, ".txt") by {
      assert named[|named| - 4..] == ".txt";
    }
    var bare := "notes";
    assert !EndsWith(bare, ".txt") by {
      assert bare[|bare| - 4] == 'o';
    }
  }

  /** The rule the save tool evidently intends: add ".txt" unless the name already has it. */
  function IntendedSaveTarget(filename: string): (target: string)
    ensures EndsWith(target, ".txt")
    ensures StartsWith(target, filename)
    ensures EndsWith(filename, ".txt") <==> target == filename
  {
    if EndsWith(filename, ".txt") then filename
    else
      AppendedSuffix(filename, ".txt");
      assert (filename + ".txt")[..|filename|] == filename;
      filename + ".txt"
  }

  /** Under the intended rule, saving under the target name again does not change it. */
  lemma IntendedSaveTargetIdempotent(filename: string)
    ensures IntendedSaveTarget(IntendedSaveTarget(filename)) == IntendedSaveTarget(filename)
  {
  }

  /** The intended rule on the same two inputs: "a.txt" is kept and "notes" becomes "notes.txt". */
  lemma IntendedSaveTargetExamples()
    ensures IntendedSaveTarget("a.txt") == "a.txt"
    ensures IntendedSaveTarget("notes") == "notes.txt"
  {
    var named := "a.txt";
    assert EndsWith(named, ".txt") by {
      assert named[|named| - 4..] == ".txt";
    }
    var bare := "notes";
    assert !EndsWith(bare, ".txt") by {
      assert bare[|bare| - 4] == 'o';
    }
  }

  // ---------------------------------------------------------------------------
  // The document and its tools

  /** The global document text, empty when the script starts. */
  class Document {
    var content: string

    constructor ()
      ensures content == ""
    {
      content := "";
    }

    /** update: replaces the whole document and reports the new content. */
    method Update(c: string) returns (result: string)
      modifies this
      ensures content == c
      ensures result == UpdatedPrefix + c
    {
      content := c;
      result := UpdatedPrefix + c;
    }

    /**
     * save: writes the current document under the target name and reports
     * that name; any error raised while writing becomes the result text.
     * The document itself is never changed.
     */
    method Save(filename: string, failsWith: string -> Option<string>) returns (result: string, written: Option<File>)
      ensures failsWith(SaveTarget(filename)).None? ==>
        written == Some(File(SaveTarget(filename), content)) &&
        result == SavedPrefix + SaveTarget(filename)
      ensures failsWith(SaveTarget(filename)).Some? ==>
        written == None &&
        result == SaveErrorPrefix + failsWith(SaveTarget(filename)).value
    {
      var target := SaveTarget(filename);
      var failure := failsWith(target);
      if failure.None? {
        written := Some(File(target, content));
        result := SavedPrefix + target;
      } else {
        written := None;
        result := SaveErrorPrefix + failure.value;
      }
    }

    /**
     * The tools node: runs the requested calls in order and answers each
     * with one tool message carrying the call's id.
     */
    method RunTools(calls: seq<ToolCall>, env: Environment) returns (results: seq<Message>, written: seq<File>)
      modifies this
      ensures ToolsStep(old(content), calls, env) == Step(content, results, written)
    {
      results, written := [], [];
      for i := 0 to |calls|
        invariant ToolsStep(old(content), calls[..i], env) == Step(content, results, written)
      {
        var call, before := calls[i], content;
        var reply: string;
        var files: seq<File> := [];
        if IsUpdateCall(call) {
          reply := Update(call.args["content"].text);
        } else if IsSaveCall(call) {
          var file;
          reply, file := Save(call.args["filename"].text, env.failsWith);
          files := file.ToSeq();
        } else {
          reply := env.invalid(call);
        }
        assert CallStep(before, call, env) == Step(content, [Tool(reply, call.id)], files);
        ToolsStepSnoc(old(content), calls, i, env);
        results, written := results + [Tool(reply, call.id)], written + files;
      }
      assert calls[..|calls|] == calls;
    }
  }

  predicate IsUpdateCall(call: ToolCall) {
    call.name == "update" && "content" in call.args && call.args["content"].Str?
  }

  predicate IsSaveCall(call: ToolCall) {
    call.name == "save" && "filename" in call.args && call.args["filename"].Str?
  }

  /** The document, the tool messages and the files after a tools step. */
  datatype Step = Step(document: string, messages: seq<Message>, files: seq<File>)

  /** One call dispatched by the tools node, on the document as it stands. */
  function CallStep(document: string, call: ToolCall, env: Environment): Step {
    if IsUpdateCall(call) then
      var c := call.args["content"].text;
      Step(c, [Tool(UpdatedPrefix + c, call.id)], [])
    else if IsSaveCall(call) then
      var target := SaveTarget(call.args["filename"].text);
      match env.failsWith(target)
      case None => Step(document, [Tool(SavedPrefix + target, call.id)], [File(target, document)])
      case Some(e) => Step(document, [Tool(SaveErrorPrefix + e, call.id)], [])
    else
      Step(document, [Tool(env.invalid(call), call.id)], [])
  }

  /**
   * A tools step over a list of calls: one tool message per call, in call
   * order, each answering its call's id; the files written are those of the
   * save calls, each holding the document as it stood at that call.
   */
  function ToolsStep(document: string, calls: seq<ToolCall>, env: Environment): (r: Step)
    ensures |r.messages| == |calls|
    ensures forall i :: 0 <= i < |calls| ==> r.messages[i].Tool? && r.messages[i].toolCallId == calls[i].id
    ensures (forall i :: 0 <= i < |calls| ==> !IsUpdateCall(calls[i])) ==> r.document == document
    ensures |r.files| <= |calls|
  {
    if calls == [] then Step(document, [], [])
    else
      var before := ToolsStep(document, calls[..|calls| - 1], env);
      var last := CallStep(before.document, calls[|calls| - 1], env);
      Step(last.document, before.messages + last.messages, before.files + last.files)
  }

  /** The tools step over one more call extends the step over the calls before it. */
  lemma ToolsStepSnoc(document: string, calls: seq<ToolCall>, i: nat, env: Environment)
    requires i < |calls|
    ensures ToolsStep(document, calls[..i + 1], env) ==
      var before := ToolsStep(document, calls[..i], env);
      var last := CallStep(before.document, calls[i], env);
      Step(last.document, before.messages + last.messages, before.files + last.files)
  {
    assert calls[..i + 1][..i] == calls[..i];
  }

  /** A tools step with no update call writes every saved file with the document unchanged. */
  lemma {:induction false} SavedFilesHoldDocument(document: string, calls: seq<ToolCall>, env: Environment)
    requires forall i :: 0 <= i < |calls| ==> !IsUpdateCall(calls[i])
    ensures forall f :: f in ToolsStep(document, calls, env).files ==> f.text == document
  {
    if calls != [] {
      var init := calls[..|calls| - 1];
      assert forall i :: 0 <= i < |init| ==> init[i] == calls[i];
      SavedFilesHoldDocument(document, init, env);
    }
  }

  /** An update call leaves exactly its content as the document. */
  lemma UpdateSetsDocument(document: string, calls: seq<ToolCall>, env: Environment)
    requires calls != [] && IsUpdateCall(calls[|calls| - 1])
    ensures ToolsStep(document, calls, env).document == calls[|calls| - 1].args["content"].text
  {
  }

  // ---------------------------------------------------------------------------
  // Routing

  /** A tool result saying, in any case, both "saved" and "document". */
  predicate MentionsSavedAndDocument(m: Message) {
    m.Tool? && Contains(Lower(m.content), "saved") && Contains(Lower(m.content), "document")
  }

  /**
   * should_continue: ends only after a tool message whose text mentions both
   * "saved" and "document", whichever tool produced it.
   */
  function ShouldContinue(messages: seq<Message>): (route: Route)
    ensures messages == [] ==> route == Continue
    ensures route == End <==> messages != [] && MentionsSavedAndDocument(messages[|messages| - 1])
  {
    if messages == [] then Continue
    else if MentionsSavedAndDocument(messages[|messages| - 1]) then End
    else Continue
  }

  /** Python's `w in s.lower()` when w is lower case and sits at position i of s. */
  lemma ContainsLowered(s: string, w: string, i: nat)
    requires i + |w| <= |s|
    requires forall k :: 0 <= k < |w| ==> LowerChar(s[i + k]) == w[k]
    ensures Contains(Lower(s), w)
  {
    assert Lower(s)[i..i + |w|] == w;
    ContainsAt(Lower(s), w, i);
  }

  /** A text that starts with "Document" mentions "document" once lowered. */
  lemma MentionsDocument(text: string)
    requires StartsWith(text, "Document")
    ensures Contains(Lower(text), "document")
  {
    ContainsLowered(text, "document", 0);
  }

  /** A text that starts with "Document saved" mentions "saved" once lowered. */
  lemma MentionsSaved(text: string)
    requires StartsWith(text, "Document saved")
    ensures Contains(Lower(text), "saved")
  {
    ContainsLowered(text, "saved", 9);
  }

  /** A word found in the lowered suffix is found in the lowered whole. */
  lemma LoweredSuffix(prefix: string, s: string, w: string)
    requires Contains(Lower(s), w)
    ensures Contains(Lower(prefix + s), w)
  {
    LowerAppend(prefix, s);
    ContainsInSuffix(Lower(prefix), Lower(s), w);
  }

  /** A tool message mentioning "saved" and "document" ends the run, whatever came before it. */
  lemma MentionEnds(history: seq<Message>, m: Message)
    requires MentionsSavedAndDocument(m)
    ensures ShouldContinue(history + [m]) == End
  {
    assert (history + [m])[|history + [m]| - 1] == m;
  }

  /**
   * Every successful save result ends the run, whatever the file name, when
   * it is the last tool message of its step.
   */
  lemma SavedEnds(history: seq<Message>, target: string, id: string)
    ensures ShouldContinue(history + [Tool(SavedPrefix + target, id)]) == End
  {
    var text := SavedPrefix + target;
    assert text[..14] == SavedPrefix[..14] == "Document saved";
    MentionsSaved(text);
    MentionsDocument(text);
    MentionEnds(history, Tool(text, id));
  }

  /**
   * An update whose new content mentions "saved" (in any case) also ends the
   * run, since its result mentions "document" as well.
   */
  lemma UpdateMentioningSavedEnds(history: seq<Message>, c: string, id: string)
    requires Contains(Lower(c), "saved")
    ensures ShouldContinue(history + [Tool(UpdatedPrefix + c, id)]) == End
  {
    var text := UpdatedPrefix + c;
    assert text[..8] == UpdatedPrefix[..8] == "Document";
    MentionsDocument(text);
    LoweredSuffix(UpdatedPrefix, c, "saved");
    MentionEnds(history, Tool(text, id));
  }

  /**
   * A failed save also ends the run when the error text mentions "saved", as
   * it does for a path such as "saved/draft" that cannot be opened: the
   * error prefix itself mentions "document".
   */
  lemma FailedSaveMentioningSavedEnds(history: seq<Message>, e: string, id: string)
    requires Contains(Lower(e), "saved")
    ensures ShouldContinue(history + [Tool(SaveErrorPrefix + e, id)]) == End
  {
    var text := SaveErrorPrefix + e;
    assert text[35..43] == SaveErrorPrefix[35..43] == "document";
    ContainsLowered(text, "document", 35);
    LoweredSuffix(SaveErrorPrefix, e, "saved");
    MentionEnds(history, Tool(text, id));
  }

  /** A tool message starts with the success prefix exactly when it is a successful save result. */
  lemma SavedResultShape(m: Message)
    ensures (m.Tool? && StartsWith(m.content, SavedPrefix)) <==>
      exists target, id :: m == Tool(SavedPrefix + target, id)
  {
    if m.Tool? && StartsWith(m.content, SavedPrefix) {
      var target := m.content[|SavedPrefix|..];
      assert m == Tool(SavedPrefix + target, m.toolCallId);
    }
    if exists target, id :: m == Tool(SavedPrefix + target, id) {
      var target, id :| m == Tool(SavedPrefix + target, id);
      assert (SavedPrefix + target)[..|SavedPrefix|] == SavedPrefix;
    }
  }

  /**
   * The evidently intended routing: end exactly after a successful save
   * result, so that a failed save or an update never stops the run.
   */
  function IntendedShouldContinue(messages: seq<Message>): (route: Route)
    ensures route == End <==>
      messages != [] && exists target, id :: messages[|messages| - 1] == Tool(SavedPrefix + target, id)
  {
    if messages == [] then Continue
    else
      var last := messages[|messages| - 1];
      SavedResultShape(last);
      if last.Tool? && StartsWith(last.content, SavedPrefix) then End else Continue
  }

  /** Under the intended routing, failed saves and updates keep the run going. */
  lemma IntendedFailuresContinue(history: seq<Message>, e: string, c: string, id: string)
    ensures IntendedShouldContinue(history + [Tool(SaveErrorPrefix + e, id)]) == Continue
    ensures IntendedShouldContinue(history + [Tool(UpdatedPrefix + c, id)]) == Continue
  {
    var failed := SaveErrorPrefix + e;
    var updated := UpdatedPrefix + c;
    assert failed[5] == SaveErrorPrefix[5] == 'r' && SavedPrefix[5] == 'e';
    NotStartsWith(failed, SavedPrefix, 5);
    assert updated[9] == UpdatedPrefix[9] == 'u' && SavedPrefix[9] == 's';
    NotStartsWith(updated, SavedPrefix, 9);
    assert (history + [Tool(failed, id)])[|history|] == Tool(failed, id);
    assert (history + [Tool(updated, id)])[|history|] == Tool(updated, id);
  }

  // ---------------------------------------------------------------------------
  // The agent node

  /**
   * The system message: the drafting instructions (not reproduced here),
   * then a line giving the current document.
   */
  function SystemPrompt(document: string): (prompt: string)
    ensures Contains(prompt, document)
  {
    ContainsAt(PromptLead + document + PromptClosing, document, |PromptLead|);
    PromptLead + document + PromptClosing
  }

  /** The user turn: the greeting on an empty history, otherwise the line typed. */
  function UserTurn(history: seq<Message>, input: string): Message {
    Human(if history == [] then Greeting else input)
  }

  /** What the model is shown: the system prompt, the history, then the user turn. */
  function Shown(document: string, history: seq<Message>, input: string): seq<Message> {
    [System(SystemPrompt(document))] + history + [UserTurn(history, input)]
  }

  /**
   * model_call: the new history is the old one unchanged, then the user
   * turn, then the model's reply to what it was shown.
   */
  function ModelCall(document: string, history: seq<Message>, input: string, respond: seq<Message> -> Reply): (next: seq<Message>)
    ensures |next| == |history| + 2 && next[..|history|] == history
    ensures next[|history|] == Human(if history == [] then Greeting else input)
    ensures next[|history| + 1] == respond(Shown(document, history, input)).AsMessage()
  {
    history + [UserTurn(history, input), respond(Shown(document, history, input)).AsMessage()]
  }

  // ---------------------------------------------------------------------------
  // The run

  /**
   * How a run finishes: at END after a tools step whose last tool message
   * mentions both "saved" and "document", or because the console has no
   * more input for the next agent step.
   */
  datatype Outcome =
    | Ended(document: string, history: seq<Message>, files: seq<File>)
    | InputExhausted(document: string, history: seq<Message>, files: seq<File>)

  /** The calls the tools node dispatches: those of the last message when it is an AI message. */
  function PendingCalls(history: seq<Message>): seq<ToolCall> {
    if history != [] && history[|history| - 1].AI? then history[|history| - 1].toolCalls else []
  }

  /**
   * The graph from the agent node on: agent, then tools, then back to the
   * agent unless should_continue says "end". Every agent step after the
   * first consumes one line of input.
   */
  function Drafting(document: string, history: seq<Message>, files: seq<File>, inputs: seq<string>, env: Environment): Outcome
    decreases |inputs|, if history == [] then 1 else 0
  {
    if history != [] && inputs == [] then InputExhausted(document, history, files)
    else
      var next := ModelCall(document, history, if history == [] then "" else inputs[0], env.respond);
      var tools := ToolsStep(document, PendingCalls(next), env);
      var after := next + tools.messages;
      if ShouldContinue(after) == End then Ended(tools.document, after, files + tools.files)
      else Drafting(tools.document, after, files + tools.files, if history == [] then inputs else inputs[1..], env)
  }

  /** run_document_agent: starts on an empty history and an empty document. */
  method RunDocumentAgent(inputs: seq<string>, env: Environment) returns (outcome: Outcome)
    ensures outcome == Drafting("", [], [], inputs, env)
  {
    var document := new Document();
    var history: seq<Message> := [];
    var files: seq<File> := [];
    var i := 0;
    while true
      invariant 0 <= i <= |inputs|
      invariant Drafting(document.content, history, files, inputs[i..], env) == Drafting("", [], [], inputs, env)
      decreases |inputs| - i, if history == [] then 1 else 0
    {
      if history != [] && i == |inputs| {
        return InputExhausted(document.content, history, files);
      }
      var input := "";
      if history != [] {
        input := inputs[i];
        i := i + 1;
        assert inputs[i - 1..][1..] == inputs[i..];
      }
      history := ModelCall(document.content, history, input, env.respond);
      var results, written := document.RunTools(PendingCalls(history), env);
      history := history + results;
      files := files + written;
      if ShouldContinue(history) == End {
        return Ended(document.content, history, files);
      }
    }
  }

  /**
   * A run only ends on a tool message whose lowered text contains both
   * "saved" and "document"; such a message need not report a successful save.
   */
  lemma {:induction false} EndedOnMention(document: string, history: seq<Message>, files: seq<File>, inputs: seq<string>, env: Environment)
    requires Drafting(document, history, files, inputs, env).Ended?
    ensures var h := Drafting(document, history, files, inputs, env).history;
      h != [] && MentionsSavedAndDocument(h[|h| - 1])
    decreases |inputs|, if history == [] then 1 else 0
  {
    var next := ModelCall(document, history, if history == [] then "" else inputs[0], env.respond);
    var tools := ToolsStep(document, PendingCalls(next), env);
    var after := next + tools.messages;
    var rest := if history == [] then inputs else inputs[1..];
    if ShouldContinue(after) == End {
      assert Drafting(document, history, files, inputs, env).history == after;
    } else {
      assert Drafting(document, history, files, inputs, env) == Drafting(tools.document, after, files + tools.files, rest, env);
      EndedOnMention(tools.document, after, files + tools.files, rest, env);
    }
  }

  lemma PrefixOfPrefix<T>(a: seq<T>, b: seq<T>, c: seq<T>)
    requires |a| <= |b| && b[..|a|] == a
    requires |b| <= |c| && c[..|b|] == b
    ensures |a| <= |c| && c[..|a|] == a
  {
    assert c[..|a|] == c[..|b|][..|a|];
  }

  /** The history only grows: every message of the start survives, in place, and so does every written file. */
  lemma {:induction false} DraftingExtends(document: string, history: seq<Message>, files: seq<File>, inputs: seq<string>, env: Environment)
    ensures var o := Drafting(document, history, files, inputs, env);
      |history| <= |o.history| && o.history[..|history|] == history &&
      |files| <= |o.files| && o.files[..|files|] == files
    decreases |inputs|, if history == [] then 1 else 0
  {
    if !(history != [] && inputs == []) {
      var next := ModelCall(document, history, if history == [] then "" else inputs[0], env.respond);
      var tools := ToolsStep(document, PendingCalls(next), env);
      var after := next + tools.messages;
      assert after[..|history|] == history;
      assert (files + tools.files)[..|files|] == files;
      if ShouldContinue(after) != End {
        var rest := if history == [] then inputs else inputs[1..];
        DraftingExtends(tools.document, after, files + tools.files, rest, env);
        var o := Drafting(tools.document, after, files + tools.files, rest, env);
        PrefixOfPrefix(history, after, o.history);
        PrefixOfPrefix(files, files + tools.files, o.files);
      }
    }
  }

  /** Every run opens with the greeting as its first user turn, without reading the console. */
  lemma {:induction false} FirstStepUsesGreeting(document: string, inputs: seq<string>, env: Environment)
    ensures var o := Drafting(document, [], [], inputs, env);
      |o.history| >= 2 && o.history[0] == Human(Greeting)
  {
    var history: seq<Message>, files: seq<File> := [], [];
    var next := ModelCall(document, history, "", env.respond);
    var tools := ToolsStep(document, PendingCalls(next), env);
    var after := next + tools.messages;
    assert after[0] == Human(Greeting);
    if ShouldContinue(after) != End {
      DraftingExtends(tools.document, after, files + tools.files, inputs, env);
      var o := Drafting(tools.document, after, files + tools.files, inputs, env);
      assert o.history[..|after|][0] == after[0];
    }
  }
}
