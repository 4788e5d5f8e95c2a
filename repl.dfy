/** The read-eval-print loop of run_modern_agent: the conversation history it
    keeps, the turn protocol that extends it, and what it shows after "Agent: ".

    The agent (model, tools and orchestration library) is a parameter: a total
    function from the history it is invoked with to the outcome of that call.
    The terminal is a finite sequence of input events; running out of input is
    the end-of-input event.
 */
module Repl {
  import opened Render
  import opened ExitCommand

  /** Who a message is from: the user (a human message), the model (an AI
      message), or anything else the agent may return last (a tool message). */
  datatype Role = Human | Ai | ToolResult

  datatype Message = Message(role: Role, content: Content)

  /** The message appended for a line the user typed. */
  function UserMessage(userInput: string): (m: Message)
  {
    Message(Human, PlainText(userInput))
  }

  /** One event read at the prompt: a line, or end of input (EOF or Ctrl-C). */
  datatype Input = Line(text: string) | EndOfInput

  /** How one agent call ends: it returns the response's message list, it raises
      an exception the loop reports and survives, or it is cut short by a
      KeyboardInterrupt or an EOFError, which end the session. */
  datatype Invocation = Returned(messages: seq<Message>) | Raised | Interrupted

  type Agent = seq<Message> -> Invocation

  datatype Option<T> = None | Some(value: T)

  /** The state after one turn: the history, the text shown (if a reply was
      received), and whether the loop goes on to the next prompt. */
  datatype TurnResult = TurnResult(history: seq<Message>, reply: Option<string>, goOn: bool)

  /** One iteration of the loop, given the history so far and the event read.
      An exit word or end of input stops before anything else happens.  Any
      other line is appended as a user message and the agent is invoked with
      the whole history.  If the call returns a non-empty message list, its
      last message is appended and rendered; if it raises, or returns an empty
      list (indexing the last element raises), the error is reported and the
      loop continues; if it is interrupted, the loop stops. */
  function Turn(h: seq<Message>, input: Input, agent: Agent): (t: TurnResult)
    ensures h <= t.history && |t.history| <= |h| + 2
    ensures !t.goOn ==> t.reply == None
  {
    match input
    case EndOfInput => TurnResult(h, None, false)
    case Line(s) =>
      if IsExit(s) then TurnResult(h, None, false)
      else
        var asked := h + [UserMessage(s)];
        match agent(asked)
        case Interrupted => TurnResult(asked, None, false)
        case Raised => TurnResult(asked, None, true)
        case Returned(response) =>
          if |response| == 0 then TurnResult(asked, None, true)
          else
            var aiMessage := response[|response| - 1];
            TurnResult(asked + [aiMessage], Some(RenderContent(aiMessage.content)), true)
  }

  /** The outcome of a session: the final history and the texts shown after
      "Agent: ", in order. */
  datatype Session = Session(history: seq<Message>, shown: seq<string>)

  function Shown(reply: Option<string>): (texts: seq<string>)
  {
    match reply
    case None => []
    case Some(text) => [text]
  }

  /** A session whose earlier turns already showed the given texts. */
  function AfterShown(earlier: seq<string>, rest: Session): (s: Session)
  {
    Session(rest.history, earlier + rest.shown)
  }

  /** The loop run from history h over the given input events. */
  function Run(h: seq<Message>, inputs: seq<Input>, agent: Agent): (s: Session)
    decreases |inputs|
  {
    if inputs == [] then Session(h, [])
    else
      var t := Turn(h, inputs[0], agent);
      if !t.goOn then Session(t.history, [])
      else
        AfterShown(Shown(t.reply), Run(t.history, inputs[1..], agent))
  }

  // ---------------------------------------------------------------------------
  // One turn.

  /** An exit word ends the loop with the history untouched, and the agent is
      not consulted: any other agent gives the same turn. */
  lemma ExitTurnStops(h: seq<Message>, s: string, agent: Agent, other: Agent)
    requires IsExit(s)
    ensures Turn(h, Line(s), agent) == TurnResult(h, None, false)
    ensures Turn(h, Line(s), agent) == Turn(h, Line(s), other)
  {
  }

  /** A successful turn adds exactly two entries, the user message and then the
      last message of the response, and shows the rendering of that message. */
  lemma SuccessfulTurn(h: seq<Message>, s: string, agent: Agent)
    requires !IsExit(s)
    requires agent(h + [UserMessage(s)]).Returned?
    requires |agent(h + [UserMessage(s)]).messages| > 0
    ensures var t := Turn(h, Line(s), agent);
            var response := agent(h + [UserMessage(s)]).messages;
            && t.goOn
            && |t.history| == |h| + 2
            && t.history[..|h|] == h
            && t.history[|h|] == UserMessage(s)
            && t.history[|h| + 1] == response[|response| - 1]
            && t.reply == Some(RenderContent(response[|response| - 1].content))
  {
  }

  /** A failed agent call (an exception, or an empty response list) leaves the
      user message as the last entry with no reply after it, shows nothing, and
      the loop continues. */
  lemma FailedTurnContinues(h: seq<Message>, s: string, agent: Agent)
    requires !IsExit(s)
    requires agent(h + [UserMessage(s)]) == Raised || agent(h + [UserMessage(s)]) == Returned([])
    ensures Turn(h, Line(s), agent) == TurnResult(h + [UserMessage(s)], None, true)
  {
  }

  /** An interrupt during the agent call ends the session; the user message
      stays in the history. */
  lemma InterruptedTurnStops(h: seq<Message>, s: string, agent: Agent)
    requires !IsExit(s)
    requires agent(h + [UserMessage(s)]) == Interrupted
    ensures Turn(h, Line(s), agent) == TurnResult(h + [UserMessage(s)], None, false)
  {
  }

  // ---------------------------------------------------------------------------
  // Whole sessions.

  /** An exit word as the first input ends the session at once: the history is
      as it was, nothing is shown, and the agent is never invoked. */
  lemma ExitFirstEndsSession(h: seq<Message>, s: string, rest: seq<Input>, agent: Agent, other: Agent)
    requires IsExit(s)
    ensures Run(h, [Line(s)] + rest, agent) == Session(h, [])
    ensures Run(h, [Line(s)] + rest, agent) == Run(h, [Line(s)] + rest, other)
  {
    assert ([Line(s)] + rest)[0] == Line(s);
  }

  /** After a failed call the loop goes on to the next prompt with the user
      message kept in the history. */
  lemma FailureContinuesSession(h: seq<Message>, s: string, rest: seq<Input>, agent: Agent)
    requires !IsExit(s)
    requires agent(h + [UserMessage(s)]) == Raised || agent(h + [UserMessage(s)]) == Returned([])
    ensures Run(h, [Line(s)] + rest, agent) == Run(h + [UserMessage(s)], rest, agent)
  {
    assert ([Line(s)] + rest)[0] == Line(s);
    assert ([Line(s)] + rest)[1..] == rest;
  }

  /** The history only grows: the starting history is a prefix of the final one. */
  lemma {:induction false} RunExtends(h: seq<Message>, inputs: seq<Input>, agent: Agent)
    ensures h <= Run(h, inputs, agent).history
    decreases |inputs|
  {
    if inputs != [] {
      var t := Turn(h, inputs[0], agent);
      if t.goOn {
        RunExtends(t.history, inputs[1..], agent);
      }
    }
  }

  /** Append-only across turns: the history after the first n inputs is a prefix
      of the history after the first n + 1, and so are the texts shown. */
  lemma {:induction false} RunPrefixGrows(h: seq<Message>, inputs: seq<Input>, n: nat, agent: Agent)
    requires n < |inputs|
    ensures Run(h, inputs[..n], agent).history <= Run(h, inputs[..n + 1], agent).history
    ensures Run(h, inputs[..n], agent).shown <= Run(h, inputs[..n + 1], agent).shown
    decreases n
  {
    var t := Turn(h, inputs[0], agent);
    if n == 0 {
      assert inputs[..1] == [inputs[0]];
      assert inputs[..1][1..] == [];
    } else {
      assert inputs[..n][0] == inputs[0] && inputs[..n + 1][0] == inputs[0];
      assert inputs[..n][1..] == inputs[1..][..n - 1];
      assert inputs[..n + 1][1..] == inputs[1..][..n];
      if t.goOn {
        RunPrefixGrows(t.history, inputs[1..], n - 1, agent);
      }
    }
  }

  /** Nothing typed after an exit word is ever read. */
  lemma {:induction false} InputAfterExitIgnored(h: seq<Message>, before: seq<Input>, s: string, after: seq<Input>, agent: Agent)
    requires IsExit(s)
    ensures Run(h, before + [Line(s)] + after, agent) == Run(h, before + [Line(s)], agent)
    decreases |before|
  {
    var full := before + [Line(s)] + after;
    var cut := before + [Line(s)];
    if before == [] {
      assert full[0] == Line(s) && cut[0] == Line(s);
    } else {
      assert full[0] == before[0] && cut[0] == before[0];
      assert full[1..] == before[1..] + [Line(s)] + after;
      assert cut[1..] == before[1..] + [Line(s)];
      var t := Turn(h, before[0], agent);
      if t.goOn {
        InputAfterExitIgnored(t.history, before[1..], s, after, agent);
      }
    }
  }

  /** One step of Run over the events from position i onwards. */
  lemma RunUnfold(h: seq<Message>, inputs: seq<Input>, i: nat, agent: Agent)
    requires i < |inputs|
    ensures var t := Turn(h, inputs[i], agent);
            Run(h, inputs[i..], agent)
            == if !t.goOn then Session(t.history, [])
               else AfterShown(Shown(t.reply), Run(t.history, inputs[i + 1..], agent))
  {
    assert inputs[i..][0] == inputs[i];
    assert inputs[i..][1..] == inputs[i + 1..];
  }

  /** What one iteration of the loop does to the part of the session still to
      come, given the texts already shown. */
  lemma LoopStep(session: Session, shown: seq<string>, h: seq<Message>, inputs: seq<Input>, i: nat, agent: Agent)
    requires i < |inputs|
    requires session == AfterShown(shown, Run(h, inputs[i..], agent))
    ensures var t := Turn(h, inputs[i], agent);
            if t.goOn then session == AfterShown(shown + Shown(t.reply), Run(t.history, inputs[i + 1..], agent))
            else session == Session(t.history, shown + Shown(t.reply))
  {
    RunUnfold(h, inputs, i, agent);
  }

  // ---------------------------------------------------------------------------
  // The loop itself.

  /** The body of the loop: one prompt, the exit test, the two appends and the
      rendering of the reply, with the exceptions handled as the loop's
      except clauses do. */
  method Iteration(messages: seq<Message>, input: Input, agent: Agent)
    returns (next: seq<Message>, reply: Option<string>, goOn: bool)
    ensures TurnResult(next, reply, goOn) == Turn(messages, input, agent)
  {
    next, reply, goOn := messages, None, true;
    match input
    case EndOfInput =>
      goOn := false;                      // EOFError or KeyboardInterrupt
    case Line(userInput) =>
      if IsExit(userInput) {
        goOn := false;
      } else {
        next := next + [UserMessage(userInput)];
        var outcome := agent(next);
        match outcome
        case Interrupted =>
          goOn := false;
        case Raised =>                    // reported; the loop continues
        case Returned(response) =>
          if |response| > 0 {
            var aiMessage := response[|response| - 1];
            next := next + [aiMessage];
            var finalText := RenderReply(aiMessage.content);
            reply := Some(finalText);
          }                               // else the IndexError is reported
      }
  }

  /** run_modern_agent's loop: starts from an empty history, reads events until
      an exit word, end of input or an interrupt, and mutates the history and
      the transcript of shown replies as it goes. */
  method RunModernAgent(inputs: seq<Input>, agent: Agent) returns (messages: seq<Message>, shown: seq<string>)
    ensures Session(messages, shown) == Run([], inputs, agent)
  {
    ghost var session := Run([], inputs, agent);
    messages, shown := [], [];
    var running := true;
    var i := 0;
    while running && i < |inputs|
      invariant 0 <= i <= |inputs|
      invariant running ==> session == AfterShown(shown, Run(messages, inputs[i..], agent))
      invariant !running ==> session == Session(messages, shown)
      decreases |inputs| - i, running
    {
      LoopStep(session, shown, messages, inputs, i, agent);
      var reply;
      messages, reply, running := Iteration(messages, inputs[i], agent);
      shown := shown + Shown(reply);
      i := i + 1;
    }
    if running {
      assert inputs[i..] == [];
      assert shown + [] == shown;
    }
  }
}
