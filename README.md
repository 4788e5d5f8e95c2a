# agentic-cli: the chat loop's core, in Dafny

`agentic-cli/main.py` is a command-line chat agent. It reads a line at the `You: ` prompt and keeps a conversation history. It hands that history to an agent built with an orchestration library and prints the agent's reply after `Agent: `. This model covers the one part of `run_modern_agent` that is logic of its own, not a library call. That part has three pieces:

- **Reply rendering** (module `Render`, `render.dfy`). A message's content is a plain string (`PlainText`), a list of parts (`Parts`), or anything else (`Unrecognised`). A part is a dict with a `"text"` key (`TextDict`), a bare string (`Str`), or anything else (`Other`, for example tool-call metadata). `RenderReply` is the `final_text +=` loop. It is proved equal to the recursive `RenderContent`. Lemmas then relate that function to an independent description, the joined payloads of the text-carrying parts, and prove the distribution, hiding and emptiness properties.
- **Exit recognition** (module `ExitCommand`, `exit_command.dfy`). `IsExit` tests whether the ASCII lower-case form of the line is `"exit"` or `"quit"`. It is proved equivalent to matching one of those words letter by letter in either case. The line is not trimmed.
- **The history protocol** (module `Repl`, `repl.dfy`). `Turn` is one pass of the `while True` loop. `Run` is the loop over a finite stream of input events, starting from a given history. `RunModernAgent` is the loop itself. It builds `messages` and the list of shown replies step by step, calls the loop body `Iteration` once per event, and is proved equal to `Run([], inputs, agent)`.

The agent is a parameter `agent: seq<Message> -> Invocation`. It maps the history it is called with to one of three outcomes:
- `Returned(messages)`: the response's message list.
- `Raised`: any other exception, caught by `except Exception` on line 121; the loop continues.
- `Interrupted`: a `KeyboardInterrupt` or an `EOFError` raised during the call, caught on line 118, which ends the session.

Calling `response["messages"][-1]` on an empty list raises an `IndexError`. The model handles it like `Raised`: the user message stays in the history and the loop continues. Terminal input is a sequence of `Input` events, either `Line(text)` or `EndOfInput`. `EndOfInput` stands for both EOF and Ctrl-C at the prompt. Running out of events counts as end of input.

## Model

| member | source | states |
|---|---|---|
| `Render.RenderReply` | agentic-cli/main.py:103-113 | The rendering loop's final text equals `RenderContent(content)`: a plain string whole, otherwise the parts' texts appended left to right, otherwise `""` |
| `Render.PlainTextRendersAsIs` | agentic-cli/main.py:106-107 | Plain-string content renders to exactly that string |
| `Render.RenderContent` | agentic-cli/main.py:103-113 | The displayed text of a content; no contract of its own, described by `PlainTextRendersAsIs`, `EmptyAndUnrecognisedRenderEmpty` and, for lists, the `RenderParts` lemmas |
| `Render.PartText` | agentic-cli/main.py:110-113 | What one part adds: a `"text"` dict its text, a bare string itself, anything else nothing; no contract of its own, used by `RenderSingle` and `OtherPartAddsNothing` |
| `Render.RenderParts` | agentic-cli/main.py:108-113 | The rendering of a part list; no contract of its own, described by `RenderPartsIsConcatOfTexts`, `RenderPartsAppend`, `OtherPartAddsNothing` and `RenderPartsEmptyIff` |
| `Render.RenderPartsIsConcatOfTexts` | agentic-cli/main.py:108-113 | A list renders to the in-order join of the payloads of exactly the parts that are a `"text"` dict or a bare string |
| `Render.OtherPartAddsNothing` | agentic-cli/main.py:109-113 | Putting a non-text part (such as tool-call metadata) anywhere in a list does not change the rendered text |
| `Render.RenderPartsAppend` | agentic-cli/main.py:108-113 | Rendering distributes over list concatenation: `render(a + b) == render(a) + render(b)` |
| `Render.RenderSingle` | agentic-cli/main.py:109-113 | A one-part list renders to that part's own text (`""` for a non-text part) |
| `Render.EmptyAndUnrecognisedRenderEmpty` | agentic-cli/main.py:104-108 | An empty list, and content that is neither a string nor a list, render to `""` |
| `Render.RenderPartsEmptyIff` | agentic-cli/main.py:108-113 | A list renders to `""` if and only if every part contributes the empty string |
| `Render.RenderExamples` | agentic-cli/main.py:104-113 | `[{"text":"A"},{"text":"B"}]` renders `"AB"`, `"C"` renders `"C"`, and a tool-call part between `"A"` and `"B"` is hidden |
| `ExitCommand.LowerChar` | agentic-cli/main.py:91 | Lower-casing a character never yields a capital letter; which letter it yields is stated by `LowerCharIsLetter` |
| `ExitCommand.Lower` | agentic-cli/main.py:91 | The lower-case form has the same length as the line and is its characters lower-cased position by position |
| `ExitCommand.LowerCharIsLetter` | agentic-cli/main.py:91 | A character lower-cases to a given lower-case letter if and only if it is that letter or its capital |
| `ExitCommand.LowerEqualsIff` | agentic-cli/main.py:91 | A line lower-cases to a lower-case word if and only if it matches the word letter by letter, ignoring case |
| `ExitCommand.IsExit` | agentic-cli/main.py:91 | The exit test; no contract of its own, `ExitIffCaseVariant` characterises it in both directions |
| `ExitCommand.ExitIffCaseVariant` | agentic-cli/main.py:91 | The exit test holds exactly for the case variants of `exit` and `quit`, in both directions |
| `ExitCommand.ExitExamplesAccepted` | agentic-cli/main.py:91 | `exit`, `EXIT`, `Quit` and `qUiT` end the session |
| `ExitCommand.ExitExamplesRejected` | agentic-cli/main.py:91 | `"exit "`, `" quit"`, `bye` and the empty line do not end it, because the line is not trimmed |
| `Repl.UserMessage` | agentic-cli/main.py:95 | The human message `HumanMessage(content=user_input)` appended for a typed line; no contract of its own, used by `SuccessfulTurn` and `FailedTurnContinues` |
| `Repl.Turn` | agentic-cli/main.py:88-124 | One iteration only appends: the old history is a prefix of the new one, at most two entries are added, and a stopping turn shows nothing |
| `Repl.ExitTurnStops` | agentic-cli/main.py:91-93 | An exit word stops the loop with the history unchanged and nothing shown, and the turn is the same whatever the agent is (the agent is not invoked) |
| `Repl.SuccessfulTurn` | agentic-cli/main.py:95-100 | A turn whose call returns a non-empty list continues the loop. It adds exactly two entries, the user message and then the response's last message, keeps the earlier entries, and shows that message's rendering |
| `Repl.FailedTurnContinues` | agentic-cli/main.py:95-124 | If the call raises or returns an empty list, the history ends with the appended user message and no reply, nothing is shown, and the loop continues |
| `Repl.InterruptedTurnStops` | agentic-cli/main.py:95-120 | An interrupt during the call stops the loop, and the user message stays in the history |
| `Repl.ExitFirstEndsSession` | agentic-cli/main.py:88-93 | An exit word as the first input ends the session with the history unchanged and nothing shown, whatever the agent is |
| `Repl.FailureContinuesSession` | agentic-cli/main.py:88-124 | After a failed call the session goes on from the history extended by the user message alone |
| `Repl.Run` | agentic-cli/main.py:88-124 | The loop over input events; no contract of its own, described by `RunExtends`, `RunPrefixGrows`, `InputAfterExitIgnored`, `ExitFirstEndsSession` and `FailureContinuesSession` |
| `Repl.RunExtends` | agentic-cli/main.py:83-100 | The history is append-only: the starting history is a prefix of the history at the end of the session |
| `Repl.RunPrefixGrows` | agentic-cli/main.py:88-100 | The history after the first n inputs is a prefix of the history after the first n + 1, and so is the list of shown replies |
| `Repl.InputAfterExitIgnored` | agentic-cli/main.py:88-93 | Nothing after an exit word affects the session: the inputs after it are never read |
| `Repl.RunUnfold` | agentic-cli/main.py:88-124 | A session over the events from position i is that event's turn, followed by the rest of the session if the turn continues |
| `Repl.LoopStep` | agentic-cli/main.py:88-124 | One pass of the loop turns the remaining session into the session after that event, with the shown texts extended by that turn's reply |
| `Repl.Iteration` | agentic-cli/main.py:89-124 | The loop body gives exactly the turn's new history, reply and continue flag, including the exit, exception, empty-response and interrupt paths |
| `Repl.RunModernAgent` | agentic-cli/main.py:83-124 | Starting from an empty history, the loop's final history and shown replies are those of `Run([], inputs, agent)` |

## Left out

- The tools `read_file`, `list_files`, `create_file` and `get_system_info` (main.py:12-56). Each is a thin filesystem or `platform` wrapper that turns any exception into an error string.
- `load_dotenv` and the `GOOGLE_API_KEY` check (main.py:64-68). These are environment I/O.
- Building the model client and the agent (main.py:70-81). These are foreign-library calls. `agent.invoke` (line 97) is the `agent` parameter, a deterministic function of the history it is given. The model assumes the agent does not change the list it is passed.
- Printing: the prompt, the `Agent: ` line, the emoji status lines and `traceback.print_exc` (main.py:66-124). What would be printed after `Agent: ` is kept as the `shown` sequence; other console output is not modelled.
- The loop runs over a finite input stream, not an unbounded terminal. EOF and a Ctrl-C at the prompt are a single `EndOfInput` event. A Ctrl-C during the agent call is the `Interrupted` outcome. A Ctrl-C at any other point is not modelled.
- `ExitCommand.Lower`: lower-cases ASCII letters only, not Python's full Unicode `str.lower()`. No non-ASCII character lower-cases to a string of plain ASCII letters among those of `exit` and `quit`, so the exit test should give the same answer. The model does not prove this.
- The payload of a `"text"` dict is always a string in the model. A non-string payload would raise at line 111 after the reply was appended at line 100, leaving both messages in the history with nothing shown.
- A response with no `"messages"` key fails at line 99, before the reply is appended, so it behaves like `Raised`. A last message with no `content` attribute would fail at line 103, after it was appended at line 100. The model does not have that case, because every `Message` has a content.
