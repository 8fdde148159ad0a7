# LangGraph demo agents, modelled in Dafny

This project models the logic inside three small LangGraph demo scripts:

- **memory_agent.py**: a console chat whose history is saved between runs in a
  text log. The log has one `User: <text>` or `AI: <text>` line per message,
  then a blank line and `End of conversation.`. When the script starts, it
  reads the log back with a line parser. The `process` node appends one AI
  reply to the history, and the console loop runs until the user types
  `exit` in any case.
- **drafter.py**: a writing assistant with a global document. The `update`
  tool overwrites the document and the `save` tool writes it to a file. The
  `agent` node asks the user for an instruction and calls the model. The
  `tools` node runs the requested tools. The run ends once the last tool
  result of a tools step mentions both "saved" and "document".
- **ReAct.py**: a ReAct loop with an `add` tool. The `model_call` node calls
  the model. The run ends as soon as a reply requests no tool; otherwise the
  `tools` node answers the calls and control returns to `model_call`.

The language model is an oracle. The memory agent and the drafter take it as
an arbitrary function from the messages shown to the reply. For ReAct it is
an arbitrary sequence of replies. Every property below therefore holds for
any model behaviour. Console input is a supplied sequence of lines. A file
read is a `ReadResult` (contents, not found, or another failure). A write in
the drafter either succeeds or fails with an error text that the environment
supplies.

Files:

- `wrappers.dfy`: `Option`.
- `text.dfy`: the parts of Python's string and text-file behaviour the scripts
  rely on. These are `strip`, `startswith`, `endswith`, `in`, `replace(tag, "")`
  and ASCII `lower`, plus reading a text file line by line with universal
  newlines.
- `messages.dfy`: the message kinds (human, AI with tool calls, tool, system),
  tool calls with named arguments, model replies, and the route labels.
- `memory_agent.dfy`, `drafter.dfy`, `react.dfy`: one module per script.

## Model

| member | source | states |
|---|---|---|
| Text.Strip | memory_agent.py:16 | The result has no leading or trailing whitespace and is no longer than the input. |
| Text.StripPadded | memory_agent.py:16 | Stripping a stripped text surrounded by whitespace gives back exactly that text. |
| Text.RemoveAll | memory_agent.py:18 | `replace(tag, "")` never lengthens the text. |
| Text.RemoveAllAbsent | memory_agent.py:18 | Replacing a tag that does not occur leaves the text unchanged. |
| Text.Lower | memory_agent.py:53 | `lower()` keeps the length and lowers each character independently. |
| Text.LowerAppend | drafter.py:86 | Lowering distributes over concatenation. |
| Text.UniversalNewlines | memory_agent.py:14 | Text-mode reading leaves no carriage return and never lengthens the text. |
| Text.UniversalNewlinesNoCR | memory_agent.py:14 | A text without carriage returns is read unchanged. |
| Text.Lines | memory_agent.py:15 | Iterating over the file gives at most one line per character. |
| Text.LinesOfConcat | memory_agent.py:62-68 | Reading back text written as complete lines gives exactly those lines, then the lines of the rest. |
| MemoryAgent.ParseLine | memory_agent.py:16-20 | A line gives a message exactly when, stripped, it starts with `User:` or `AI:`. The message is human exactly when the stripped line starts with `User:`. Its content is stripped. |
| MemoryAgent.SkippedLine | memory_agent.py:17-20 | A line whose stripped text is empty or starts with neither `U` nor `A` gives no message. |
| MemoryAgent.ParseLines | memory_agent.py:15-20 | A file gives at most one message per line, and each message is a human message or an AI message without tool calls. |
| MemoryAgent.ParseLinesAppend | memory_agent.py:15-20 | Parsing keeps file order: two stretches of lines give their messages concatenated. |
| MemoryAgent.LoadedHistory | memory_agent.py:11-29 | A missing or unreadable file gives the empty history. |
| MemoryAgent.LoadConversationHistory | memory_agent.py:11-29 | The loop that appends each tagged line computes exactly the parsed history of the file. |
| MemoryAgent.WriteConversationHistory | memory_agent.py:62-68 | The loop that writes the log produces exactly the serialised history: one tagged line per human or AI message, then the trailer. |
| MemoryAgent.WrittenPrefix | memory_agent.py:63-67 | Writing one more message extends the text by that message's line, or by nothing for other kinds. |
| MemoryAgent.RenderedLinesAreLines | memory_agent.py:65-67 | When contents fit on one line, every written line is a single newline-terminated line without carriage returns. |
| MemoryAgent.SerialisedLines | memory_agent.py:62-68 | The written file reads back as its message lines in history order, then a blank line and the marker line. |
| MemoryAgent.TrailerSkipped | memory_agent.py:15-20 | The blank line and `End of conversation.` give no message. |
| MemoryAgent.TaggedLine | memory_agent.py:16-18 | The line `tag + " " + c` starts with the tag once stripped and reads back as `c` when `c` is stripped and does not contain the tag. |
| MemoryAgent.ParseRendered | memory_agent.py:16-20 | The line written for a storable message reads back as that message, with an AI message's tool calls dropped. |
| MemoryAgent.ParseRenderedLines | memory_agent.py:15-20 | The written message lines read back as the kept messages, in order. |
| MemoryAgent.LoadedSerialised | memory_agent.py:11-29 | Loading a written log parses exactly its message lines; the trailer adds nothing. |
| MemoryAgent.RoundTrip | memory_agent.py:15-20 | Loading the log written for a history (lines 62-68) gives its human and AI messages with equal contents, when each content is stripped, has no line break and does not contain its own tag. |
| MemoryAgent.KeptPlain | memory_agent.py:39 | For histories of human messages and AI messages without tool calls, the kept messages are the whole history. |
| MemoryAgent.DoubledTagLine | memory_agent.py:16-18 | The line `User: User:` loses both tags and reads back as empty content. |
| MemoryAgent.TagInContentIsLost | memory_agent.py:18 | Counterexample to an unconditional round trip: the human message `User:` is written by line 65 as `User: User:`, then read back as an empty human message. |
| MemoryAgent.AgentState.Process | memory_agent.py:36-42 | `process` appends exactly one AI message, the model's reply to the history it is shown. Earlier messages stay unchanged. |
| MemoryAgent.Converse | memory_agent.py:52-60 | The console loop reaches exactly the session outcome defined by `Session`. |
| MemoryAgent.ExitIndex | memory_agent.py:53 | Finds the first line equal to `exit` ignoring case; all lines before it are something else. |
| MemoryAgent.SessionTurns | memory_agent.py:52-60 | The session ends normally exactly when some line is `exit`. Each earlier line adds one human message, then one AI message holding the reply to the whole history up to it. The starting history is kept as a prefix. |
| MemoryAgent.SessionKeepsPlain | memory_agent.py:52-60 | A session starting from log-representable messages only adds log-representable messages. |
| MemoryAgent.RunScript | memory_agent.py:50-68 | The script loads the log, converses, and writes the serialised final history. If the input runs out before `exit`, nothing is written. |
| MemoryAgent.NextRunResumes | memory_agent.py:50-68 | When every content meets the round-trip conditions, the next run loads exactly the history this run ended with. |
| Drafter.SaveTargetInverted | drafter.py:29-30 | As written, the file name changes exactly when it already ends in `.txt`, and the result ends in `.txt` exactly when the input did. |
| Drafter.SaveTargetExamples | drafter.py:29-30 | As written, `a.txt` is saved as `a.txt.txt`, and `notes` is saved as `notes`, without the extension. |
| Drafter.IntendedSaveTarget | drafter.py:29-30 | The corrected rule always gives a `.txt` name that starts with the given name. It leaves the name unchanged exactly when the name already has the extension. |
| Drafter.IntendedSaveTargetIdempotent | drafter.py:29-30 | Under the corrected rule, applying the rule to its own result changes nothing. |
| Drafter.IntendedSaveTargetExamples | drafter.py:29-30 | The corrected rule keeps `a.txt` and turns `notes` into `notes.txt`. |
| Drafter.Document.Update | drafter.py:18-23 | `update(c)` sets the document to exactly `c` and returns `"Document updated with content: " + c`. |
| Drafter.Document.Save | drafter.py:25-39 | `save` leaves the document unchanged. On success it writes exactly the current document under the target name and returns `"Document saved to "` plus that name. On failure it writes nothing and returns the error prefix plus the error text. |
| Drafter.Document.RunTools | drafter.py:103 | The tools node's loop over the calls computes exactly `ToolsStep`: the new document, the tool messages and the files written. |
| Drafter.ToolsStep | drafter.py:18-39 | One tool message per call, in call order, each answering its call's id. Without an update call the document is unchanged. No more files are written than there are calls. |
| Drafter.SavedFilesHoldDocument | drafter.py:34-35 | When a tools step has no update call, every file it writes holds the current document. |
| Drafter.UpdateSetsDocument | drafter.py:21-22 | When the last call of a step is an update, the document afterwards is that update's content. |
| Drafter.ShouldContinue | drafter.py:79-89 | Returns `continue` on an empty history. Returns `end` exactly when the last message is a tool message whose lowered content contains both `saved` and `document`. |
| Drafter.SavedEnds | drafter.py:85-87 | A successful save result (line 36) ends the run when it is the step's last tool message, whatever the file name. |
| Drafter.UpdateMentioningSavedEnds | drafter.py:85-87 | An update whose new content contains `saved` in any case also ends the run, because its result (line 23) also mentions `document`. |
| Drafter.FailedSaveMentioningSavedEnds | drafter.py:86-87 | A failed save whose error text contains `saved` in any case also ends the run, because the error prefix (line 39) mentions `document`. |
| Drafter.IntendedShouldContinue | drafter.py:79-89 | The corrected routing ends the run exactly when the last message is a successful save result (line 36). |
| Drafter.IntendedFailuresContinue | drafter.py:86-87 | Under the corrected routing, neither a failed save (line 39) nor an update result (line 23) ends the run. |
| Drafter.SystemPrompt | drafter.py:49-59 | The system message contains the current document. |
| Drafter.ModelCall | drafter.py:48-77 | `model_call` keeps the previous messages unchanged, then adds two messages. The first is the user turn: the fixed greeting on an empty history, otherwise the line typed. The second is the model's reply to the system prompt, the history and that user turn. |
| Drafter.RunDocumentAgent | drafter.py:100-129 | The run from an empty history and an empty document computes exactly `Drafting`: agent, then tools, then back to agent unless `should_continue` says `end`. |
| Drafter.EndedOnMention | drafter.py:107-116 | A run that reaches END ends on a tool message whose lowered text contains both `saved` and `document`. |
| Drafter.DraftingExtends | drafter.py:77 | The history and the list of written files only grow: whatever the run started with stays in place as a prefix. |
| Drafter.FirstStepUsesGreeting | drafter.py:61-63 | Every run opens with the greeting as its first message, without reading the console. |
| React.Add | ReAct.py:16-19 | `add` is exact integer addition: subtracting either argument from the sum gives back the other. |
| React.Subtract | ReAct.py:21-24 | `subtract` is the inverse of `add`. |
| React.SubtractNotRegistered | ReAct.py:26-28 | Only `add` is in the registered tool list; `subtract` is not. |
| React.CallResult | ReAct.py:16-30 | The tools node answers each call with a tool message carrying the call's id. An `add` call with two integer arguments gets the decimal text of the sum. |
| React.SubtractCallRejected | ReAct.py:21-30 | A request for `subtract` is never computed; it gets the runtime's invalid-call text. |
| React.DecimalInjective | ReAct.py:17-19 | The decimal text of an `add` result determines the sum. |
| React.ToolsStep | ReAct.py:54-55 | One tool message per requested call, in order, each the result for that call. |
| React.ShouldContinue | ReAct.py:42-48 | Needs a history that ends in an AI message. Returns `end` exactly when that message requests no tool. |
| React.ModelCall | ReAct.py:32-40 | The update holds exactly one message, the model's reply. |
| React.Apply | ReAct.py:14 | The reducer keeps the history as a prefix and puts exactly the update after it. |
| React.FirstFinal | ReAct.py:45-46 | Finds the first reply that requests no tool; every earlier reply requests one. |
| React.RunAnswers | ReAct.py:57-68 | The run reaches END exactly when some reply requests no tool. It then makes one model call per reply up to and including the first such reply, and ends on that reply. |
| React.RunExtends | ReAct.py:39-40 | The run never drops or reorders the messages it started with. |
| React.ContinuingStep | ReAct.py:59-68 | A reply that requests tools routes to `continue`. The step then appends the reply and one tool message per call. |

## Findings

| source | as written | input that shows it | evidently intended | confidence | as-written member | corrected member |
|---|---|---|---|---|---|---|
| drafter.py:29-30 | appends a second `.txt` when the name already ends in `.txt`, and leaves any other name unchanged | `save("a.txt")` writes `a.txt.txt`; `save("notes")` writes `notes` | append `.txt` only when the name does not already end in it | high (not executed) | Drafter.SaveTargetExamples | Drafter.IntendedSaveTarget |
| drafter.py:86-87 | ends the run after any tool message whose lowered text contains both `saved` and `document`, including a failed save | `save("saved/draft")` when the directory `saved` does not exist returns an error that names the path, and the run ends although nothing was written | end the run only after a successful save result | medium (not executed) | Drafter.FailedSaveMentioningSavedEnds | Drafter.IntendedShouldContinue |

The save tool's own docstring (drafter.py:27) calls its argument "the name
of the text file". A check for `.txt` only makes sense as a guard against
doubling the extension, so the test on line 29 is evidently inverted.
`Drafter.Document.Save`, the tools step and the run follow the code as
written (`SaveTarget`), and none of their other properties depend on which
rule is used. In the same way the run routes with `ShouldContinue` as
written. `IntendedShouldContinue` is the corrected routing; a failed save
or an update never ends the run under it (`Drafter.IntendedFailuresContinue`).

## Left out

- Language-model calls are oracles. The memory agent and the drafter take a
  function from the messages shown to the reply. For ReAct the replies are a
  supplied sequence, which the model does not tie to the prompt.
- Console I/O (`input`, `print`, `print_messages`, `print_stream`,
  `pretty_print`): inputs are a supplied sequence of lines. Running out of
  lines, which raises `EOFError`, is modelled as the run stopping without
  writing anything.
- LangGraph itself (`StateGraph`, `compile`, `invoke`, `stream`): the graph
  edges are written out as the run functions. The runtime's recursion limit
  is not modelled; runs are bounded by the supplied inputs or replies.
- `add_messages` is modelled as plain append. Its merge-by-id behaviour is
  library code. For ReAct the single returned message is appended. For the
  drafter, the returned list starts with the old messages and is taken as
  the new history.
- ToolNode dispatch is library code. The model runs the calls one after the
  other in call order, although the library may run them concurrently.
  Arguments must have exactly the declared kind. The text for a call the node
  cannot serve comes from the environment. A reply without calls adds no
  tool message.
- File I/O: a read is a `ReadResult`. The memory agent's write produces the
  file text; a failure of that final write is not modelled. In the drafter, a
  failed save is an error text the environment supplies for the target name.
  A partly written file is not modelled.
- `str(e)` of an exception is the supplied error text. `str` of an `add`
  result is the decimal rendering of the integer.
- Python's Unicode `strip()` and `lower()` are restricted to ASCII: ASCII
  whitespace and the letters A–Z.
- Drafter.SystemPrompt: the drafting instructions before the line that shows
  the document are not reproduced; only that line's text and the document
  are.
- The `should_continue` node registered at ReAct.py:52 has no edge leading to
  it. It is never run, so it is not modelled as a node.
- `load_dotenv`, the IPython imports, model selection and the prompt's
  wording are not modelled.
- agent_bot.py is not part of this model: it makes one model call per
  console line and has no logic of its own.
