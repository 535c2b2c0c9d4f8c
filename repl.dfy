/** The session: the conversation history that `chat_with_functions` appends
    to in place, and the command loop of `main` around it. A `Session` also
    records every request it sends to the completion service. */
module Repl {
  import opened Json
  import opened Protocol
  import opened Text
  import opened Weather
  import opened News
  import opened Dispatch

  const SystemPrompt: string :=
    "You are a helpful assistant that can answer maths calculations, give news updates and get weather information"

  /** The history a session starts with. */
  const InitialHistory: seq<Message> := [System(SystemPrompt)]

  /** The history the `clear` command installs, spelled out again where it is used. */
  const ClearedHistory: seq<Message> :=
    [System("You are a helpful assistant that can answer maths calculations, give news updates and get weather information")]

  /** Resetting yields the starting history: one system message with the same prompt. */
  lemma ClearedIsInitial()
    ensures ClearedHistory == InitialHistory
    ensures |ClearedHistory| == 1 && ClearedHistory[0].System?
  {
  }

  /** What one line of input asks for. */
  datatype Command = Quit | Clear | Blank | Prompt(text: string)

  /** The command loop's reading of a raw input line, tested in the loop's order
      on the stripped line: quit, then clear, then empty. */
  function Classify(raw: string): (c: Command)
    ensures c.Quit? <==> Lower(Strip(raw)) == "q"
    ensures c.Clear? <==> Lower(Strip(raw)) == "clear"
    ensures c.Blank? <==> AllSpace(raw)
    ensures c.Prompt? ==> c.text == Strip(raw) && c.text != []
  {
    var line := Strip(raw);
    if Lower(line) == "q" then Quit
    else if Lower(line) == "clear" then Clear
    else if line == [] then Blank
    else Prompt(line)
  }

  /** `q` quits in either case, surrounded by any whitespace, and nothing else does. */
  lemma QuitInAnyCase(raw: string)
    ensures Classify(raw).Quit? <==> Strip(raw) == "q" || Strip(raw) == "Q"
  {
    LowerIsQ(Strip(raw));
  }

  /** `clear` resets in any mix of cases, and nothing else does. */
  lemma ClearInAnyCase(raw: string)
    ensures var line := Strip(raw);
            Classify(raw).Clear? <==>
              |line| == 5 && line[0] in "cC" && line[1] in "lL" && line[2] in "eE" &&
              line[3] in "aA" && line[4] in "rR"
  {
    LowerIsClear(Strip(raw));
  }

  /** A prompt is sent without its surrounding whitespace. */
  lemma PromptIsStripped(raw: string)
    requires Classify(raw).Prompt?
    ensures Classify(raw).text == Strip(raw)
    ensures !IsSpace(Classify(raw).text[0]) && !IsSpace(Classify(raw).text[|Classify(raw).text| - 1])
  {
  }

  /** One thing that happens at the prompt: a line is typed, together with the
      replies the completion service would give if it starts a turn, or the
      user interrupts. */
  datatype Event = Typed(line: string, first: Option<Completion>, second: Option<Completion>) | Interrupted

  /** A session's state: the history and the requests sent so far. */
  datatype Conversation = Conversation(messages: seq<Message>, requests: seq<Request>)

  /** The state after one event, and whether the loop ends there. */
  datatype Reaction = Reaction(after: Conversation, stop: bool)

  /** The loop ends on an interrupt or on a quit command. */
  predicate Stops(ev: Event) {
    ev.Interrupted? || Classify(ev.line).Quit?
  }

  /** The history opens with the system prompt. */
  predicate StartsWithPrompt(messages: seq<Message>) {
    |messages| >= 1 && messages[0] == System(SystemPrompt)
  }

  /** One pass of the command loop. A turn that raises is reported and the
      loop goes on with what the turn had appended. */
  function Apply(c: Conversation, ev: Event, tools: Collaborators): (r: Reaction)
    ensures r.stop <==> Stops(ev)
    ensures c.requests <= r.after.requests
    ensures StartsWithPrompt(c.messages) ==> StartsWithPrompt(r.after.messages)
    ensures r.stop ==> r.after == c
    ensures ev.Typed? && Classify(ev.line).Clear? ==> r.after == Conversation(InitialHistory, c.requests)
    ensures ev.Typed? && Classify(ev.line).Blank? ==> r.after == c
    ensures ev.Typed? && Classify(ev.line).Prompt? ==>
              var e := TurnSpec(c.messages, Strip(ev.line), ev.first, ev.second, tools);
              r.after == Conversation(c.messages + e.appended, c.requests + e.issued)
  {
    match ev
    case Interrupted => Reaction(c, true)
    case Typed(line, first, second) =>
      match Classify(line)
      case Quit => Reaction(c, true)
      case Clear => Reaction(Conversation(ClearedHistory, c.requests), false)
      case Blank => Reaction(c, false)
      case Prompt(text) =>
        var e := TurnSpec(c.messages, text, first, second, tools);
        Reaction(Conversation(c.messages + e.appended, c.requests + e.issued), false)
  }

  /** The command loop over a sequence of events, up to the first that ends
      it. Requests are only ever added, and a history that opens with the
      system prompt keeps it, through turns and resets alike. */
  function RunSpec(c: Conversation, events: seq<Event>, tools: Collaborators): (r: Conversation)
    decreases |events|
    ensures c.requests <= r.requests
    ensures StartsWithPrompt(c.messages) ==> StartsWithPrompt(r.messages)
  {
    if events == [] then c
    else
      var r := Apply(c, events[0], tools);
      if r.stop then r.after else RunSpec(r.after, events[1..], tools)
  }

  /** Nothing after a quit or an interrupt has any effect. */
  lemma {:induction false} StopIgnoresRest(c: Conversation, before: seq<Event>, ev: Event,
                                           rest: seq<Event>, tools: Collaborators)
    requires Stops(ev)
    ensures RunSpec(c, before + [ev] + rest, tools) == RunSpec(c, before + [ev], tools)
    decreases |before|
  {
    if before == [] {
      assert before + [ev] + rest == [ev] + rest;
      assert ([ev] + rest)[1..] == rest;
    } else {
      var r := Apply(c, before[0], tools);
      assert (before + [ev] + rest)[0] == before[0] && (before + [ev])[0] == before[0];
      assert (before + [ev] + rest)[1..] == before[1..] + [ev] + rest;
      assert (before + [ev])[1..] == before[1..] + [ev];
      if !r.stop {
        StopIgnoresRest(r.after, before[1..], ev, rest, tools);
      }
    }
  }

  /** After any number of turns that did not end the session, `clear` leaves
      exactly the starting history. */
  lemma {:induction false} ClearAfterAnyTurns(c: Conversation, events: seq<Event>, clear: Event,
                                              tools: Collaborators)
    requires forall k :: 0 <= k < |events| ==> !Stops(events[k])
    requires clear.Typed? && Classify(clear.line).Clear?
    ensures RunSpec(c, events + [clear], tools).messages == InitialHistory
    decreases |events|
  {
    if events == [] {
      assert [] + [clear] == [clear];
    } else {
      assert (events + [clear])[0] == events[0];
      assert (events + [clear])[1..] == events[1..] + [clear];
      assert !Stops(events[0]);
      ClearAfterAnyTurns(Apply(c, events[0], tools).after, events[1..], clear, tools);
    }
  }

  /** Blank lines change nothing, wherever they come. */
  lemma BlankIsNoOp(c: Conversation, raw: string, first: Option<Completion>, second: Option<Completion>,
                    tools: Collaborators)
    requires AllSpace(raw)
    ensures Apply(c, Typed(raw, first, second), tools) == Reaction(c, false)
  {
  }

  /** The conversation state of one session. */
  class Session {
    var messages: seq<Message>
    var requests: seq<Request>

    function State(): Conversation
      reads this
    {
      Conversation(messages, requests)
    }

    /** A fresh session: the system prompt alone, and no requests yet. */
    constructor ()
      ensures messages == InitialHistory && requests == []
    {
      messages := InitialHistory;
      requests := [];
    }

    /** `chat_with_functions(userInput)`: append the user's message, ask the
        service with all tools offered, append its reply verbatim, and, when the
        reply calls tools, run the dispatch chain over the calls in order and
        ask again without tools. `first` and `second` are the service's replies;
        `None` means the request raised, which ends the turn. */
    method Turn(userInput: string, first: Option<Completion>, second: Option<Completion>,
                tools: Collaborators) returns (outcome: TurnOutcome)
      modifies this
      ensures var e := TurnSpec(old(messages), userInput, first, second, tools);
              && messages == old(messages) + e.appended
              && requests == old(requests) + e.issued
              && outcome == e.outcome
      ensures messages[..|old(messages)|] == old(messages)
    {
      messages := messages + [User(userInput)];
      requests := requests + [FirstRequest(messages)];
      if first.None? {
        return Abandoned;
      }
      var reply := first.value;
      messages := messages + [Assistant(reply)];
      if reply.toolCalls == [] {
        return NoToolCalls;
      }
      var completed := DispatchCalls(reply.toolCalls, tools);
      if !completed {
        return Abandoned;
      }
      requests := requests + [FollowUpRequest(messages)];
      if second.None? {
        return Abandoned;
      }
      outcome := Answered(DisplayText(second.value.content));
    }

    /** The loop of `chat_with_functions` over the reply's tool calls: each call
        is matched against the three tool names and, when one matches, its
        message is appended; an unmatched name is passed over. `completed` is
        false when a handler raised, which leaves the rest of the calls undone. */
    method DispatchCalls(calls: seq<ToolCall>, tools: Collaborators) returns (completed: bool)
      modifies this`messages
      ensures messages == old(messages) + DispatchAll(calls, tools).appended
      ensures completed == DispatchAll(calls, tools).completed
    {
      var i := 0;
      while i < |calls|
        invariant 0 <= i <= |calls|
        invariant DispatchAll(calls[..i], tools).completed
        invariant messages == old(messages) + DispatchAll(calls[..i], tools).appended
      {
        var call := calls[i];
        DispatchExtend(calls, i, tools);
        if call.name == "calculate" {
          messages := messages + [tools.calculatorMessage(call)];
        } else if call.name == "get_weather" {
          var result := ProcessWeatherResponse(call, tools.parse, tools.weatherFetch, tools.renderReal);
          if result.None? {
            DispatchHalts(calls, i + 1, tools);
            return false;
          }
          messages := messages + [result.value];
        } else if call.name == "get_news" {
          var result := ProcessNewsResponse(call, tools.parse, tools.newsClientAvailable,
                                            tools.newsFetch, tools.renderArticles);
          if result.None? {
            DispatchHalts(calls, i + 1, tools);
            return false;
          }
          messages := messages + [result.value];
        }
        i := i + 1;
      }
      assert calls[..|calls|] == calls;
      return true;
    }

    /** One pass of `main`'s loop: strip the line, then quit, clear, skip an
        empty line, or run a turn; an interrupt also ends the loop. */
    method Step(ev: Event, tools: Collaborators) returns (stop: bool)
      modifies this
      ensures Reaction(State(), stop) == Apply(old(State()), ev, tools)
    {
      match ev
      case Interrupted =>
        return true;
      case Typed(raw, first, second) =>
        var line := Strip(raw);
        if Lower(line) == "q" {
          return true;
        } else if Lower(line) == "clear" {
          messages := ClearedHistory;
        } else if line == [] {
        } else {
          var _ := Turn(line, first, second, tools);
        }
        return false;
    }

    /** `main`'s loop over the events at the prompt, up to the first that ends it. */
    method Run(events: seq<Event>, tools: Collaborators)
      modifies this
      ensures State() == RunSpec(old(State()), events, tools)
    {
      var i := 0;
      while i < |events|
        invariant 0 <= i <= |events|
        invariant RunSpec(State(), events[i..], tools) == RunSpec(old(State()), events, tools)
      {
        assert events[i..][1..] == events[i + 1..];
        var stop := Step(events[i], tools);
        if stop {
          return;
        }
        i := i + 1;
      }
    }
  }
}
