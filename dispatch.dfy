/** What one call of `chat_with_functions` does, as functions of the history
    before it, the user's text and the two completion replies: the routing of
    tool calls by name, the messages the turn appends and the requests it
    issues. The `Session` class in module Repl runs these steps in place. */
module Dispatch {
  import opened Json
  import opened Protocol
  import opened Calculator
  import opened Weather
  import opened News

  /** The collaborators a turn depends on and the model does not implement:
      `json.loads`, the calculator's message builder (not part of this model),
      the weather and news services, and Python's `str()` of a float and of an
      article list. */
  datatype Collaborators = Collaborators(
    parse: Parser,
    calculatorMessage: ToolCall -> Message,
    weatherFetch: Value -> HttpReply,
    newsClientAvailable: bool,
    newsFetch: NewsQuery -> NewsFetch,
    renderReal: real -> string,
    renderArticles: Value -> string)

  /** The tool names the dispatch chain compares against. */
  predicate Handled(name: string) {
    name == "calculate" || name == "get_weather" || name == "get_news"
  }

  /** What the dispatch chain does with one call: append one message, skip the
      call, or raise out of the turn. */
  datatype Step = Appended(message: Message) | Skipped | Raised

  /** A message answers a call when it is the calculator builder's message for
      it, or, for weather and news, the message that tool's builder returns: a
      `tool` message with the call's id and the call's tool name. */
  predicate Answers(m: Message, call: ToolCall, tools: Collaborators) {
    if call.name == "calculate" then m == tools.calculatorMessage(call)
    else
      && m.ToolResult? && m.toolCallId == call.id && m.name == call.name
      && (call.name == "get_weather" ==>
            ProcessWeatherResponse(call, tools.parse, tools.weatherFetch, tools.renderReal) == Some(m))
      && (call.name == "get_news" ==>
            ProcessNewsResponse(call, tools.parse, tools.newsClientAvailable, tools.newsFetch,
                                tools.renderArticles) == Some(m))
  }

  /** One pass of the dispatch chain: the call is compared with the three tool
      names in turn, and an unmatched name does nothing. */
  function Route(call: ToolCall, tools: Collaborators): (r: Step)
    ensures r.Skipped? <==> !Handled(call.name)
    ensures r.Appended? ==> Answers(r.message, call, tools)
    ensures r.Raised? <==>
              || (call.name == "get_weather" &&
                  ProcessWeatherResponse(call, tools.parse, tools.weatherFetch, tools.renderReal).None?)
              || (call.name == "get_news" &&
                  (|| tools.parse(call.arguments).None?
                   || !Sized(GetNews(tools.newsClientAvailable, NewsArguments(tools.parse(call.arguments).value),
                                     tools.newsFetch))))
  {
    if call.name == "calculate" then Appended(tools.calculatorMessage(call))
    else if call.name == "get_weather" then
      match ProcessWeatherResponse(call, tools.parse, tools.weatherFetch, tools.renderReal)
      case None => Raised
      case Some(m) => Appended(m)
    else if call.name == "get_news" then
      match ProcessNewsResponse(call, tools.parse, tools.newsClientAvailable, tools.newsFetch, tools.renderArticles)
      case None => Raised
      case Some(m) => Appended(m)
    else Skipped
  }

  /** The calls whose names the chain handles, in their original order,
      repetitions kept. */
  function Routed(calls: seq<ToolCall>): (routed: seq<ToolCall>)
    decreases |calls|
    ensures |routed| <= |calls|
    ensures forall k :: 0 <= k < |routed| ==> routed[k] in calls && Handled(routed[k].name)
    ensures (forall k :: 0 <= k < |calls| ==> Handled(calls[k].name)) ==> routed == calls
  {
    if calls == [] then []
    else
      var last := calls[|calls| - 1];
      var init := Routed(calls[..|calls| - 1]);
      assert forall c :: c in calls[..|calls| - 1] ==> c in calls;
      if Handled(last.name) then
        assert calls == calls[..|calls| - 1] + [last];
        init + [last]
      else init
  }

  /** The handled calls of one call: itself when its name is handled, else none. */
  lemma RoutedSingle(call: ToolCall)
    ensures Routed([call]) == if Handled(call.name) then [call] else []
  {
    assert [call][..0] == [];
  }

  /** Routing distributes over concatenation: with `RoutedSingle`, the handled
      calls are exactly the calls with handled names, in their original order. */
  lemma {:induction false} RoutedAppend(a: seq<ToolCall>, b: seq<ToolCall>)
    ensures Routed(a + b) == Routed(a) + Routed(b)
    decreases |b|
  {
    if b == [] {
      assert a + b == a;
    } else {
      var init := b[..|b| - 1];
      var last := b[|b| - 1];
      assert (a + b)[..|a + b| - 1] == a + init;
      assert (a + b)[|a + b| - 1] == last;
      RoutedAppend(a, init);
    }
  }

  /** The effect of the dispatch loop: the messages it appends, and whether it
      ran to the end rather than raising. */
  datatype Dispatched = Dispatched(appended: seq<Message>, completed: bool)

  /** The dispatch loop over `calls`, defined on its last call so that it
      reads as the loop's progress. */
  function DispatchAll(calls: seq<ToolCall>, tools: Collaborators): (d: Dispatched)
    decreases |calls|
    ensures |d.appended| <= |calls|
  {
    if calls == [] then Dispatched([], true)
    else
      var prior := DispatchAll(calls[..|calls| - 1], tools);
      if !prior.completed then prior
      else match Route(calls[|calls| - 1], tools)
        case Skipped => prior
        case Raised => Dispatched(prior.appended, false)
        case Appended(m) => Dispatched(prior.appended + [m], true)
  }

  /** `appended[k]` answers `routed[k]` for every `k`, in order. */
  predicate AnswersInOrder(appended: seq<Message>, routed: seq<ToolCall>, tools: Collaborators) {
    |appended| == |routed| && forall k :: 0 <= k < |routed| ==> Answers(appended[k], routed[k], tools)
  }

  /** A loop that ran to the end has appended exactly one answer per routed
      call, in call order; one that raised has appended answers to a prefix
      of them. */
  lemma {:induction false} DispatchAnswersRouted(calls: seq<ToolCall>, tools: Collaborators)
    ensures var d := DispatchAll(calls, tools);
            d.completed ==> AnswersInOrder(d.appended, Routed(calls), tools)
    ensures var d := DispatchAll(calls, tools);
            !d.completed ==> exists j :: 0 <= j < |Routed(calls)| && AnswersInOrder(d.appended, Routed(calls)[..j], tools)
    decreases |calls|
  {
    if calls != [] {
      var init := calls[..|calls| - 1];
      var last := calls[|calls| - 1];
      DispatchAnswersRouted(init, tools);
      var prior := DispatchAll(init, tools);
      var routed := Routed(calls);
      assert Routed(init) == routed[..|Routed(init)|];
      if prior.completed {
        if Handled(last.name) {
          assert routed == Routed(init) + [last];
          if !DispatchAll(calls, tools).completed {
            assert AnswersInOrder(prior.appended, routed[..|Routed(init)|], tools);
          }
        } else if !DispatchAll(calls, tools).completed {
          assert false;
        }
      } else {
        var j :| 0 <= j <= |Routed(init)| && AnswersInOrder(prior.appended, Routed(init)[..j], tools);
        assert Routed(init)[..j] == routed[..j];
      }
    }
  }

  /** The loop runs to its end exactly when no call raises in the chain. */
  lemma {:induction false} DispatchCompletes(calls: seq<ToolCall>, tools: Collaborators)
    ensures DispatchAll(calls, tools).completed <==> forall k :: 0 <= k < |calls| ==> !Route(calls[k], tools).Raised?
    decreases |calls|
  {
    if calls != [] {
      var init := calls[..|calls| - 1];
      DispatchCompletes(init, tools);
      assert forall k :: 0 <= k < |init| ==> init[k] == calls[k];
    }
  }

  /** One more pass of the loop, while it has not raised: the next call's step
      is applied to what the earlier calls appended. */
  lemma DispatchExtend(calls: seq<ToolCall>, i: nat, tools: Collaborators)
    requires i < |calls|
    requires DispatchAll(calls[..i], tools).completed
    ensures var prior := DispatchAll(calls[..i], tools);
            DispatchAll(calls[..i + 1], tools) ==
              match Route(calls[i], tools)
              case Skipped => prior
              case Raised => Dispatched(prior.appended, false)
              case Appended(m) => Dispatched(prior.appended + [m], true)
  {
    assert calls[..i + 1][..i] == calls[..i];
  }

  /** Once the loop has raised, the calls after that point change nothing. */
  lemma {:induction false} DispatchHalts(calls: seq<ToolCall>, n: nat, tools: Collaborators)
    requires n <= |calls|
    requires !DispatchAll(calls[..n], tools).completed
    ensures DispatchAll(calls, tools) == DispatchAll(calls[..n], tools)
    decreases |calls|
  {
    if n < |calls| {
      var init := calls[..|calls| - 1];
      assert init[..n] == calls[..n];
      DispatchHalts(init, n, tools);
    } else {
      assert calls[..n] == calls;
    }
  }

  /** A call whose name is not handled appends nothing and does not stop the
      loop: dispatching with it is dispatching without it. */
  lemma {:induction false} UnknownCallSkipped(calls: seq<ToolCall>, i: nat, tools: Collaborators)
    requires i < |calls| && !Handled(calls[i].name)
    ensures DispatchAll(calls, tools) == DispatchAll(calls[..i] + calls[i + 1..], tools)
    decreases |calls|
  {
    var n := |calls|;
    var without := calls[..i] + calls[i + 1..];
    var init := calls[..n - 1];
    if i == n - 1 {
      assert without == init;
      assert Route(calls[n - 1], tools) == Skipped;
      assert DispatchAll(calls, tools) == DispatchAll(init, tools);
    } else {
      UnknownCallSkipped(init, i, tools);
      assert without[..|without| - 1] == init[..i] + init[i + 1..];
      assert without[|without| - 1] == calls[n - 1];
      assert DispatchAll(without[..|without| - 1], tools) == DispatchAll(init, tools);
    }
  }

  /** A weather or news call whose arguments do not decode abandons the loop. */
  lemma ParseFailureStopsDispatch(calls: seq<ToolCall>, i: nat, tools: Collaborators)
    requires i < |calls|
    requires calls[i].name == "get_weather" || calls[i].name == "get_news"
    requires tools.parse(calls[i].arguments).None?
    ensures !DispatchAll(calls, tools).completed
  {
    var upTo := calls[..i + 1];
    assert upTo[..|upTo| - 1] == calls[..i];
    assert !DispatchAll(upTo, tools).completed;
    DispatchHalts(calls, i + 1, tools);
  }

  /** The call at position `i`, when it is handled, is the routed call at
      position `|Routed(calls[..i])|`. */
  lemma RoutedPosition(calls: seq<ToolCall>, i: nat)
    requires i < |calls| && Handled(calls[i].name)
    ensures |Routed(calls[..i])| < |Routed(calls)|
    ensures Routed(calls)[|Routed(calls[..i])|] == calls[i]
    ensures Routed(calls[..i + 1]) == Routed(calls[..i]) + [calls[i]]
  {
    assert calls == calls[..i] + ([calls[i]] + calls[i + 1..]);
    assert calls[..i + 1] == calls[..i] + [calls[i]];
    RoutedAppend(calls[..i], [calls[i]] + calls[i + 1..]);
    RoutedAppend([calls[i]], calls[i + 1..]);
    RoutedAppend(calls[..i], [calls[i]]);
    RoutedSingle(calls[i]);
  }

  /** A handled call takes a routed position before any later call. */
  lemma RoutedPositionsIncrease(calls: seq<ToolCall>, i: nat, j: nat)
    requires i < j <= |calls| && Handled(calls[i].name)
    ensures |Routed(calls[..i])| < |Routed(calls[..j])|
  {
    RoutedPosition(calls, i);
    assert calls[..j] == calls[..i + 1] + calls[i + 1..j];
    RoutedAppend(calls[..i + 1], calls[i + 1..j]);
    assert |Routed(calls[..i + 1])| == |Routed(calls[..i])| + 1;
    assert |Routed(calls[..j])| == |Routed(calls[..i + 1])| + |Routed(calls[i + 1..j])|;
  }

  /** Two handled calls at different positions are answered by two different
      messages, even when the calls are identical: there is no deduplication. */
  lemma RepeatedCallAnsweredTwice(calls: seq<ToolCall>, i: nat, j: nat, tools: Collaborators)
    requires i < j < |calls| && calls[i] == calls[j] && Handled(calls[i].name)
    requires DispatchAll(calls, tools).completed
    ensures var d := DispatchAll(calls, tools);
            var p := |Routed(calls[..i])|;
            var q := |Routed(calls[..j])|;
            && p < q < |d.appended|
            && Answers(d.appended[p], calls[i], tools)
            && Answers(d.appended[q], calls[j], tools)
  {
    var d := DispatchAll(calls, tools);
    var routed := Routed(calls);
    var p := |Routed(calls[..i])|;
    var q := |Routed(calls[..j])|;
    RoutedPosition(calls, i);
    RoutedPosition(calls, j);
    RoutedPositionsIncrease(calls, i, j);
    DispatchAnswersRouted(calls, tools);
    assert AnswersInOrder(d.appended, routed, tools);
    assert Answers(d.appended[p], routed[p], tools) && routed[p] == calls[i];
    assert Answers(d.appended[q], routed[q], tools) && routed[q] == calls[j];
  }

  /** The tools the first request offers, in the order the dispatch chain tests them. */
  const OfferedTools: seq<ToolSchema> := [CalculatorSchema, WeatherSchema, NewsSchema]

  /** The first request of a turn: the history, all three schemas and automatic tool choice. */
  function FirstRequest(history: seq<Message>): (r: Request)
    ensures r.messages == history && r.tools == OfferedTools && r.toolChoice == Some("auto")
    ensures r.model == "gpt-4o" && r.temperature == Some(0.7) && r.maxTokens == Some(150)
  {
    Request("gpt-4o", history, Some(0.7), Some(150), OfferedTools, Some("auto"))
  }

  /** The follow-up request: the updated history and no tools. */
  function FollowUpRequest(history: seq<Message>): (r: Request)
    ensures r.messages == history && r.tools == [] && r.toolChoice.None?
    ensures r.model == "gpt-4o-mini" && r.temperature.None? && r.maxTokens.None?
  {
    Request("gpt-4o-mini", history, None, None, [], None)
  }

  /** The names of a list of schemas, in order. */
  function ToolNames(schemas: seq<ToolSchema>): (names: seq<string>)
    ensures |names| == |schemas|
    ensures forall i :: 0 <= i < |schemas| ==> names[i] == schemas[i].name
  {
    seq(|schemas|, i requires 0 <= i < |schemas| => schemas[i].name)
  }

  /** The first request offers calculator, weather and news, in that order, and
      lets the service choose; the names it offers are exactly the names the
      chain handles. The follow-up offers nothing. */
  lemma RequestsOfferTools(history: seq<Message>, name: string)
    ensures FirstRequest(history).tools == [CalculatorSchema, WeatherSchema, NewsSchema]
    ensures FirstRequest(history).toolChoice == Some("auto")
    ensures ToolNames(FirstRequest(history).tools) == ["calculate", "get_weather", "get_news"]
    ensures Handled(name) <==> name in ToolNames(FirstRequest(history).tools)
    ensures FollowUpRequest(history).tools == [] && FollowUpRequest(history).toolChoice.None?
    ensures FirstRequest(history).messages == FollowUpRequest(history).messages == history
  {
    assert ToolNames(OfferedTools) == ["calculate", "get_weather", "get_news"];
  }

  const NoResponseContent: string := "No response content"

  /** The text shown for the follow-up reply: its content, unless that is
      absent or empty (both false in Python), when a fixed notice is shown. */
  function DisplayText(content: Option<string>): (text: string)
    ensures text != ""
    ensures content.Some? && content.value != "" ==> text == content.value
    ensures content.None? || content.value == "" ==> text == NoResponseContent
  {
    if content.Some? && content.value != "" then content.value else NoResponseContent
  }

  /** How a turn ends: no tool calls (nothing is shown), an answer shown after
      the follow-up, or an exception out of the turn. */
  datatype TurnOutcome = NoToolCalls | Answered(text: string) | Abandoned

  /** A turn's effect: what it appends to the history, the requests it issues,
      and how it ends. */
  datatype TurnEffect = TurnEffect(appended: seq<Message>, issued: seq<Request>, outcome: TurnOutcome)

  /** `chat_with_functions(userInput)` on `history`, where `first` and `second`
      are the service's replies to the two requests (`None`: the request raised). */
  function TurnSpec(history: seq<Message>, userInput: string, first: Option<Completion>,
                    second: Option<Completion>, tools: Collaborators): (e: TurnEffect)
    ensures |e.appended| >= 1 && e.appended[0] == User(userInput)
    ensures first.None? ==> e.appended == [User(userInput)] && e.outcome == Abandoned
    ensures first.Some? ==> |e.appended| >= 2 && e.appended[1] == Assistant(first.value)
    ensures 1 <= |e.issued| <= 2 && e.issued[0] == FirstRequest(history + [User(userInput)])
    ensures first.Some? && first.value.toolCalls == [] ==>
              e.appended == [User(userInput), Assistant(first.value)] &&
              |e.issued| == 1 && e.outcome == NoToolCalls
    ensures first.Some? && first.value.toolCalls != [] ==>
              e.appended == [User(userInput), Assistant(first.value)] +
                            DispatchAll(first.value.toolCalls, tools).appended
    ensures |e.issued| == 2 <==>
              first.Some? && first.value.toolCalls != [] && DispatchAll(first.value.toolCalls, tools).completed
    ensures |e.issued| == 2 ==> e.issued[1] == FollowUpRequest(history + e.appended)
    ensures e.outcome.NoToolCalls? <==> first.Some? && first.value.toolCalls == []
    ensures e.outcome.Answered? <==> |e.issued| == 2 && second.Some?
    ensures e.outcome.Answered? ==> e.outcome.text == DisplayText(second.value.content)
  {
    var asked := history + [User(userInput)];
    var request := FirstRequest(asked);
    match first
    case None => TurnEffect([User(userInput)], [request], Abandoned)
    case Some(reply) =>
      if reply.toolCalls == [] then
        TurnEffect([User(userInput), Assistant(reply)], [request], NoToolCalls)
      else
        var d := DispatchAll(reply.toolCalls, tools);
        var appended := [User(userInput), Assistant(reply)] + d.appended;
        if !d.completed then TurnEffect(appended, [request], Abandoned)
        else
          var followUp := FollowUpRequest(history + appended);
          match second
          case None => TurnEffect(appended, [request, followUp], Abandoned)
          case Some(final) => TurnEffect(appended, [request, followUp], Answered(DisplayText(final.content)))
  }

  /** The follow-up reply is shown but never appended: the history a turn
      leaves does not depend on it. */
  lemma FollowUpNotRecorded(history: seq<Message>, userInput: string, first: Option<Completion>,
                            second1: Option<Completion>, second2: Option<Completion>, tools: Collaborators)
    ensures TurnSpec(history, userInput, first, second1, tools).appended ==
            TurnSpec(history, userInput, first, second2, tools).appended
    ensures TurnSpec(history, userInput, first, second1, tools).issued ==
            TurnSpec(history, userInput, first, second2, tools).issued
  {
  }

  /** When the follow-up is sent, every call the chain handles has been
      answered, in call order, right after the assistant message that made
      it; each weather and news answer is a `tool` message carrying the id and
      name of a call in that message. */
  lemma FollowUpAnswersRoutedCalls(history: seq<Message>, userInput: string, first: Option<Completion>,
                                   second: Option<Completion>, tools: Collaborators)
    requires |TurnSpec(history, userInput, first, second, tools).issued| == 2
    ensures first.Some?
    ensures var e := TurnSpec(history, userInput, first, second, tools);
            AnswersInOrder(e.appended[2..], Routed(first.value.toolCalls), tools)
    ensures var e := TurnSpec(history, userInput, first, second, tools);
            var routed := Routed(first.value.toolCalls);
            forall k :: 0 <= k < |routed| && routed[k].name != "calculate" ==>
              && routed[k] in first.value.toolCalls
              && e.appended[2 + k] == ToolResult(routed[k].id, routed[k].name, e.appended[2 + k].content)
  {
    var e := TurnSpec(history, userInput, first, second, tools);
    var calls := first.value.toolCalls;
    DispatchAnswersRouted(calls, tools);
    assert e.appended[2..] == DispatchAll(calls, tools).appended;
  }

  /** A weather or news call whose arguments do not decode ends the turn: no
      follow-up is sent, and what was appended before it stays. */
  lemma ParseFailureAbandonsTurn(history: seq<Message>, userInput: string, reply: Completion,
                                 second: Option<Completion>, tools: Collaborators, i: nat)
    requires i < |reply.toolCalls|
    requires reply.toolCalls[i].name == "get_weather" || reply.toolCalls[i].name == "get_news"
    requires tools.parse(reply.toolCalls[i].arguments).None?
    ensures var e := TurnSpec(history, userInput, Some(reply), second, tools);
            && e.outcome == Abandoned
            && |e.issued| == 1
            && e.appended == [User(userInput), Assistant(reply)] + DispatchAll(reply.toolCalls, tools).appended
  {
    ParseFailureStopsDispatch(reply.toolCalls, i, tools);
  }
}
